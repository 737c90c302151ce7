/**
 * The tax parameters and formulas of `BaseCard`. A card class overrides some
 * of the five parameter methods; the rest fall back to `BaseCard`, where
 * every parameter is 0 except `withdraw_tax_percent`, which raises. Money
 * is exact `real` arithmetic here.
 */
module TaxSchedule {
  import opened Wrappers

  /** The parameter methods one card class defines itself; `None` where it inherits `BaseCard`'s. */
  datatype Overrides = Overrides(
    withdrawPercent: Option<real>,
    putPercent: Option<real>,
    putFixed: Option<real>,
    senderPercent: Option<real>,
    senderFixed: Option<real>)

  /** A class that overrides nothing. */
  const INHERITED: Overrides := Overrides(None, None, None, None, None)

  /** The error `withdraw_tax_percent` raises when the class does not define it. */
  datatype TaxError = NotImplemented

  function WithdrawTaxPercent(o: Overrides): Result<real, TaxError>
  {
    match o.withdrawPercent
    case Some(p) => Ok(p)
    case None => Err(NotImplemented)
  }

  function PutTaxPercent(o: Overrides): real { o.putPercent.GetOr(0.0) }
  function PutTaxFixed(o: Overrides): real { o.putFixed.GetOr(0.0) }
  function SenderTaxPercent(o: Overrides): real { o.senderPercent.GetOr(0.0) }
  function SenderTaxFixed(o: Overrides): real { o.senderFixed.GetOr(0.0) }

  /** `withdraw_tax(amount) = amount * withdraw_tax_percent / 100`. */
  function WithdrawTax(o: Overrides, amount: real): Result<real, TaxError>
  {
    match WithdrawTaxPercent(o)
    case Ok(p) => Ok(amount * p / 100.0)
    case Err(e) => Err(e)
  }

  /** `put_tax(amount) = amount * put_tax_percent / 100 + put_tax_fixed`. */
  function PutTax(o: Overrides, amount: real): real
  {
    amount * PutTaxPercent(o) / 100.0 + PutTaxFixed(o)
  }

  /** `sender_tax(amount) = amount * sender_tax_percent / 100 + sender_tax_fixed`. */
  function SenderTax(o: Overrides, amount: real): real
  {
    amount * SenderTaxPercent(o) / 100.0 + SenderTaxFixed(o)
  }

  /** Parameters a class does not override are 0; only a missing withdraw percentage is an error. */
  lemma InheritedDefaults(amount: real)
    ensures WithdrawTax(INHERITED, amount) == Err(NotImplemented)
    ensures PutTax(INHERITED, amount) == 0.0
    ensures SenderTax(INHERITED, amount) == 0.0
  {
  }

  /** Withdrawing fails exactly when the class leaves the withdraw percentage undefined. */
  lemma WithdrawTaxDefinedIff(o: Overrides, amount: real)
    ensures WithdrawTax(o, amount).Err? <==> o.withdrawPercent == None
  {
  }

  /**
   * The fixed part is what a zero amount pays, and with non-negative
   * percentages a larger amount never pays less tax.
   */
  lemma {:induction false} TaxesMonotone(o: Overrides, a: real, b: real)
    requires a <= b
    requires PutTaxPercent(o) >= 0.0 && SenderTaxPercent(o) >= 0.0
    ensures PutTax(o, 0.0) == PutTaxFixed(o) && SenderTax(o, 0.0) == SenderTaxFixed(o)
    ensures PutTax(o, a) <= PutTax(o, b)
    ensures SenderTax(o, a) <= SenderTax(o, b)
  {
    var pp, sp := PutTaxPercent(o), SenderTaxPercent(o);
    assert a * pp <= b * pp by {
      assert (b - a) * pp >= 0.0;
    }
    assert a * sp <= b * sp by {
      assert (b - a) * sp >= 0.0;
    }
  }

  /**
   * Each tax is a fixed part plus a share proportional to the amount: taxing
   * two amounts together charges the fixed part once, and the withdraw tax,
   * which has no fixed part, adds up.
   */
  lemma {:induction false} TaxesAffine(o: Overrides, a: real, b: real)
    ensures PutTax(o, a + b) == PutTax(o, a) + PutTax(o, b) - PutTaxFixed(o)
    ensures SenderTax(o, a + b) == SenderTax(o, a) + SenderTax(o, b) - SenderTaxFixed(o)
    ensures WithdrawTax(o, a + b).Ok? ==>
      WithdrawTax(o, a + b).value == WithdrawTax(o, a).value + WithdrawTax(o, b).value
  {
    var pp, sp := PutTaxPercent(o), SenderTaxPercent(o);
    assert (a + b) * pp == a * pp + b * pp;
    assert (a + b) * sp == a * sp + b * sp;
    if o.withdrawPercent.Some? {
      var wp := o.withdrawPercent.value;
      assert (a + b) * wp == a * wp + b * wp;
    }
  }

  /**
   * The balance a put reports: old balance plus amount minus the put tax.
   * The put transaction itself is not part of this model; this is the
   * arithmetic the console tests check against the card's `put_tax`.
   */
  function ReportedPutBalance(o: Overrides, balance: real, amount: real): real
  {
    balance + amount - PutTax(o, amount)
  }
}
