/** `VirtualCard`: default balance 150, withdraw 5 %, put fixed 2, send fixed 20. */
module VirtualCard {
  import opened Wrappers
  import opened TaxSchedule

  const DEFAULT_BALANCE: real := 150.0

  /** The overrides `VirtualCard` declares, and the taxes they give for every amount. */
  function VirtualOverrides(): (o: Overrides)
    ensures forall amount :: WithdrawTax(o, amount) == Ok(amount * 5.0 / 100.0)
    ensures forall amount :: PutTax(o, amount) == 2.0
    ensures forall amount :: SenderTax(o, amount) == 20.0
  {
    Overrides(
      withdrawPercent := Some(5.0),
      putPercent := None,
      putFixed := Some(2.0),
      senderPercent := None,
      senderFixed := Some(20.0))
  }

  /** Concrete values: a withdrawal of 100 pays 5; a put of 50 on a balance of 50 reports 98. */
  lemma VirtualExamples()
    ensures WithdrawTax(VirtualOverrides(), 100.0) == Ok(5.0)
    ensures ReportedPutBalance(VirtualOverrides(), 50.0, 50.0) == 98.0
    ensures ReportedPutBalance(VirtualOverrides(), 150.0, 5.0) == 153.0
  {
  }
}
