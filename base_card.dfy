/**
 * `BaseCard` and its three variants. The class hierarchy becomes one class
 * `Card` with a `variant` tag whose tax parameters are the variant's; the number is
 * drawn once at construction and never changes; the only modelled writer of
 * the balance is `UpdateBalance`.
 */
module BaseCard {
  import opened Wrappers
  import opened TaxSchedule
  import VirtualCard

  datatype Variant = Usual | Capitalist | Virtual

  /** `CARD_TYPES`: class name to type symbol (symbols are modelled as strings). */
  const CARD_TYPES: map<string, string> :=
    map["UsualCard" := "usual", "CapitalistCard" := "capitalist", "VirtualCard" := "virtual"]

  const CARD_NUMBER_LENGTH: nat := 16

  /** `self.class.to_s` for a card of each variant. */
  function ClassName(v: Variant): string
  {
    match v
    case Usual => "UsualCard"
    case Capitalist => "CapitalistCard"
    case Virtual => "VirtualCard"
  }

  /** `type`: the `CARD_TYPES` entry of the card's class; the three variants get three different tags. */
  function TypeOf(v: Variant): (t: string)
    ensures t in CARD_TYPES.Values
  {
    CARD_TYPES[ClassName(v)]
  }

  /** The `case` of `create`: which variant a type symbol builds, `None` for `nil`; a built card has that symbol as its type. */
  function VariantOf(tag: string): (r: Option<Variant>)
    ensures r.Some? ==> TypeOf(r.value) == tag
  {
    if tag == "usual" then Some(Usual)
    else if tag == "capitalist" then Some(Capitalist)
    else if tag == "virtual" then Some(Virtual)
    else None
  }

  /** `create` and `type` are inverse: a tag builds a card exactly when it is that card's type. */
  lemma {:induction false} CreateTypeRoundTrip(tag: string, v: Variant)
    ensures VariantOf(tag) == Some(v) <==> tag == TypeOf(v)
  {
    assert TypeOf(Usual) == "usual";
    assert TypeOf(Capitalist) == "capitalist";
    assert TypeOf(Virtual) == "virtual";
  }

  /** The three variants have three different type tags. */
  lemma TypesDistinct(v: Variant, w: Variant)
    ensures v != w ==> TypeOf(v) != TypeOf(w)
  {
    CreateTypeRoundTrip(TypeOf(v), v);
    CreateTypeRoundTrip(TypeOf(v), w);
  }

  /** `create` builds a card for exactly the values of `CARD_TYPES`. */
  lemma CreateAcceptsCardTypes(tag: string)
    ensures VariantOf(tag).Some? <==> tag in CARD_TYPES.Values
  {
    if tag in CARD_TYPES.Values {
      var k :| k in CARD_TYPES && CARD_TYPES[k] == tag;
      assert k == "UsualCard" || k == "CapitalistCard" || k == "VirtualCard";
    } else {
      assert CARD_TYPES["UsualCard"] == "usual";
      assert CARD_TYPES["CapitalistCard"] == "capitalist";
      assert CARD_TYPES["VirtualCard"] == "virtual";
    }
  }

  /** The overrides declared by `UsualCard` and `CapitalistCard`, which are not part of this model. */
  datatype Schedules = Schedules(usual: Overrides, capitalist: Overrides)

  /** The tax overrides of each variant; the virtual ones are fixed by `VirtualCard`. */
  function OverridesOf(v: Variant, s: Schedules): Overrides
  {
    match v
    case Usual => s.usual
    case Capitalist => s.capitalist
    case Virtual => VirtualCard.VirtualOverrides()
  }

  /** The initial balance when `create` is given none: 150 for a virtual card, else `BaseCard`'s 0. */
  function DefaultBalance(v: Variant): real
  {
    if v == Virtual then VirtualCard.DEFAULT_BALANCE else 0.0
  }

  /** The default balances of the three variants. */
  lemma DefaultBalances()
    ensures DefaultBalance(Virtual) == 150.0
    ensures DefaultBalance(Usual) == DefaultBalance(Capitalist) == 0.0
  {
  }

  /** Sixteen characters, each a digit 0..8 (`rand(9)`). */
  predicate IsCardNumber(n: string)
  {
    |n| == CARD_NUMBER_LENGTH && forall i :: 0 <= i < |n| ==> '0' <= n[i] <= '8'
  }

  /** `Array.new(CARD_NUMBER_LENGTH) { rand(9) }.join`; each draw is an arbitrary choice in 0..8. */
  method GenerateNumber() returns (n: string)
    ensures IsCardNumber(n)
  {
    n := "";
    var i := 0;
    while i < CARD_NUMBER_LENGTH
      invariant 0 <= i <= CARD_NUMBER_LENGTH
      invariant |n| == i
      invariant forall j :: 0 <= j < |n| ==> '0' <= n[j] <= '8'
    {
      var digit :| 0 <= digit < 9;
      n := n + [('0' as int + digit) as char];
      i := i + 1;
    }
  }

  class Card {
    const variant: Variant
    /** The overrides of the classes whose source is not part of this model. */
    const schedules: Schedules
    /** `number`, memoised at construction: every read gives the same string. */
    const number: string
    var balance: real

    /** `initialize(balance)`, which also draws the number. */
    constructor (variant: Variant, balance: real, schedules: Schedules)
      ensures this.variant == variant && this.balance == balance
      ensures this.schedules == schedules
      ensures IsCardNumber(number)
    {
      this.variant := variant;
      this.schedules := schedules;
      this.balance := balance;
      var n := GenerateNumber();
      this.number := n;
    }

    /** `type`: the symbol `create` builds this card's variant from. */
    function Type(): (t: string)
      ensures VariantOf(t) == Some(variant)
    {
      CreateTypeRoundTrip(TypeOf(variant), variant);
      TypeOf(variant)
    }

    /** The parameter methods this card's class defines. */
    function ClassOverrides(): Overrides
    {
      OverridesOf(variant, schedules)
    }

    /**
     * `withdraw_tax`: fails exactly when the class leaves the percentage
     * undefined. Like the other two taxes it reads only the class's parameters
     * and the amount, never the balance, and a virtual card pays VirtualCard's rate.
     */
    function WithdrawTax(amount: real): (r: Result<real, TaxError>)
      ensures r.Err? <==> ClassOverrides().withdrawPercent == None
      ensures variant == Virtual ==> r == Ok(amount * 5.0 / 100.0)
    {
      WithdrawTaxDefinedIff(ClassOverrides(), amount);
      TaxSchedule.WithdrawTax(ClassOverrides(), amount)
    }

    /** `put_tax`. */
    function PutTax(amount: real): (t: real)
      ensures ClassOverrides() == INHERITED ==> t == 0.0
      ensures variant == Virtual ==> t == 2.0
    {
      TaxSchedule.PutTax(ClassOverrides(), amount)
    }

    /** `sender_tax`. */
    function SenderTax(amount: real): (t: real)
      ensures ClassOverrides() == INHERITED ==> t == 0.0
      ensures variant == Virtual ==> t == 20.0
    {
      TaxSchedule.SenderTax(ClassOverrides(), amount)
    }

    /**
     * `update_balance`: the balance becomes exactly `b`. Number, variant and
     * schedules are constant fields, so the number, the type and the taxes stay.
     */
    method UpdateBalance(b: real)
      modifies this
      ensures balance == b
    {
      balance := b;
    }
  }

  /**
   * `BaseCard.create(type, *args)`: a new card of the variant the symbol names,
   * with the given balance or the variant's default, and `nil` for any other symbol.
   */
  method Create(tag: string, balance: Option<real>, schedules: Schedules) returns (card: Card?)
    ensures card == null <==> VariantOf(tag) == None
    ensures card != null ==> fresh(card) && Some(card.variant) == VariantOf(tag) && card.Type() == tag
    ensures card != null ==> card.balance == balance.GetOr(DefaultBalance(card.variant))
    ensures card != null ==> card.schedules == schedules && IsCardNumber(card.number)
  {
    match VariantOf(tag)
    case None =>
      card := null;
    case Some(v) =>
      CreateTypeRoundTrip(tag, v);
      card := new Card(v, balance.GetOr(DefaultBalance(v)), schedules);
  }

  /** Every variant reports a put of 50 on a balance of 50 as 100 minus that card's put tax. */
  lemma PutOfFiftyOnFifty(v: Variant, s: Schedules)
    ensures ReportedPutBalance(OverridesOf(v, s), 50.0, 50.0) == 100.0 - PutTax(OverridesOf(v, s), 50.0)
    ensures v == Virtual ==> ReportedPutBalance(OverridesOf(v, s), 50.0, 50.0) == 98.0
  {
  }
}
