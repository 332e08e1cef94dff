/** What holds of the contract object after any run of transactions. */
module ContractRuns {
  import opened Common
  import opened Token
  import opened Contract
  import opened ContractObject
  import RefundSafety
  import RefundCaps
  import Authority
  import Conservation
  import History

  /** A contract deployed empty and driven by any transactions. Its refunds, disputes and
      transfers are consistent; balances, indexes and counters are what the payments and
      refunds made them; the limits hold; and no payment is refunded beyond its amount if
      and only if every accepted payout found room. */
  method Drive(settings: Settings, now: nat, balances: Balances, steps: seq<Step>)
    returns (contract: PaymentProcessingContract)
    ensures fresh(contract) && RefundSafety.Inv(contract.View())
    ensures forall t, a :: Conservation.Balanced(contract.View(), balances, t, a)
    ensures History.Listed(contract.View()) && History.Counted(contract.View()) && Authority.WithinLimits(contract.View())
    ensures RefundCaps.Within(contract.View()) <==> RefundCaps.AlwaysFits(Init(settings, now, balances), steps)
  {
    contract := new PaymentProcessingContract(settings, now, balances);
    ghost var init := Init(settings, now, balances);
    for i := 0 to |steps|
      invariant fresh(contract) && contract.View() == Run(init, steps[..i])
    {
      assert steps[..i + 1][..i] == steps[..i];
      var r := contract.Perform(steps[i]);
    }
    assert steps[..|steps|] == steps;
    RefundSafety.InitInv(settings, now, balances);
    RefundSafety.RunKeepsInv(init, steps);
    forall t: Address, a: Address ensures Conservation.Balanced(contract.View(), balances, t, a) {
      Conservation.RunBalanced(settings, now, balances, steps, t, a);
    }
    History.RunListed(settings, now, balances, steps);
    Authority.RunWithinLimits(settings, now, balances, steps);
    RefundCaps.NeverOverRefunded(settings, now, balances, steps);
  }
}
