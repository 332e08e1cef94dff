/** Runs on which the contract pays more than a reader of its tests would expect. */
module RefundCounterexamples {
  import opened Common
  import opened Token
  import opened Contract
  import opened RefundSafety
  import opened RefundTheorems

  const OPEN_SHOP := Settings(false, Some("admin"), 2_592_000, 100, 0, None, {"xlm"}, map["shop" := true])
  const ALL_SIGN: set<Address> := {"payer", "shop", "admin"}
  const SALE := Pay(ALL_SIGN, "payer", "o", "shop", "xlm", 500, Checks(None, None))
  const FUNDS: Balances := map[("xlm", "payer") := 1000, ("xlm", "shop") := 1000]

  /** A shop with a paid order "o" of 500 of which `refunded` went back in transfers of 300. */
  ghost predicate Shop(s: State, refunded: nat) {
    && s.settings == OPEN_SHOP && s.now == 0
    && "o" in s.payments && s.payments["o"].payer == "payer" && s.payments["o"].merchant == "shop"
    && s.payments["o"].token == "xlm" && s.payments["o"].amount == 500 && s.payments["o"].paidAt == 0
    && s.payments["o"].refunded == refunded
    && Balance(s.balances, "xlm", "shop") == 1500 - refunded && Balance(s.balances, "xlm", "payer") == 500 + refunded
    && s.globalStats.totalRefunds <= refunded && Lookup(s.merchantStats, "shop", NO_STATS).totalRefunds <= refunded
  }

  lemma Sold()
    ensures var s := Apply(Init(OPEN_SHOP, 0, FUNDS), SALE);
            NewShop(s)
  {
  }

  lemma Asked(s: State, id: Id)
    requires Shop(s, 0) && 1 <= |id| <= 64 && id !in s.refunds && |RefundIds(s, "o")| < 10
    ensures var s' := Apply(s, Initiate(ALL_SIGN, "payer", id, "o", 300));
            && Shop(s', 0) && s'.refunds == s.refunds[id := Refund("o", "payer", 300, Pending, 0)]
            && RefundIds(s', "o") == RefundIds(s, "o") + [id] && s'.payouts == s.payouts && s'.disputes == s.disputes
  {
  }

  lemma Judged(s: State, id: Id, step: Step)
    requires Shop(s, 0) && id in s.refunds && s.refunds[id].status == Pending && s.refunds[id].orderId == "o"
    requires step == Approve(ALL_SIGN, "shop", id) || step == Reject(ALL_SIGN, "shop", id)
    ensures var s' := Apply(s, step);
            && Shop(s', 0) && s'.refunds == Restatus(s.refunds, id, if step.Approve? then Approved else Rejected)
            && s'.payouts == s.payouts && s'.disputes == s.disputes
  {
  }

  lemma Contested(s: State, id: Id, disputeId: Id)
    requires Shop(s, 0) && id in s.refunds && s.refunds[id].status == Rejected && s.refunds[id].orderId == "o"
    requires 1 <= |disputeId| <= 64 && disputeId !in s.disputes
    ensures var s' := Apply(s, Raise(ALL_SIGN, "payer", disputeId, id, "late"));
            && Shop(s', 0) && s'.refunds == s.refunds && s'.payouts == s.payouts
            && s'.disputes == s.disputes[disputeId := Dispute(id, false, false)]
  {
  }

  lemma Transferred(s: State, id: Id, dispute: Option<Id>, refunded: nat)
    requires Shop(s, refunded) && refunded <= 300 && id in s.refunds && s.refunds[id].orderId == "o" && s.refunds[id].amount == 300
    ensures var r := PayOut(s, id, dispute);
            && r.Ok? && Shop(r.value, refunded + 300)
            && r.value.refunds == Restatus(s.refunds, id, RefundStatus.Completed)
            && r.value.payouts == s.payouts + [Payout(id, "o", 300, dispute)] && r.value.disputes == s.disputes
  {
  }

  ghost predicate NewShop(s: State) {
    Shop(s, 0) && s.refunds == map[] && RefundIds(s, "o") == [] && s.payouts == [] && s.disputes == map[]
  }

  lemma RunTwo(s: State, a: Step, b: Step)
    ensures Run(s, [a, b]) == Apply(Apply(s, a), b)
  {
    assert [a, b][..1] == [a] && [a][..0] == [];
    assert Run(s, []) == s;
    assert Run(s, [a]) == Apply(s, a);
  }

  /** The shop once the order has been paid for. */
  function Opening(): State {
    Run(Init(OPEN_SHOP, 0, FUNDS), [SALE])
  }

  lemma Reached()
    ensures NewShop(Opening())
  {
    Sold();
    assert [SALE][..0] == [];
    assert Run(Init(OPEN_SHOP, 0, FUNDS), []) == Init(OPEN_SHOP, 0, FUNDS);
  }

  // ── More is paid back than was paid ───────────────────────────────────────

  function Request(id: Id): Step {
    Initiate(ALL_SIGN, "payer", id, "o", 300)
  }

  const REQUESTS := [Request("r1"), Request("r2")]
  const APPROVALS := [Approve(ALL_SIGN, "shop", "r1"), Approve(ALL_SIGN, "shop", "r2")]
  const EXECUTIONS := [Execute(ALL_SIGN, "r1"), Execute(ALL_SIGN, "r2")]

  lemma BothRequested(s: State)
    requires NewShop(s)
    ensures var s' := Run(s, REQUESTS);
            Shop(s', 0) && s'.refunds == map["r1" := Refund("o", "payer", 300, Pending, 0), "r2" := Refund("o", "payer", 300, Pending, 0)]
  {
    RunTwo(s, Request("r1"), Request("r2"));
    Asked(s, "r1");
    Asked(Apply(s, Request("r1")), "r2");
  }

  lemma RestatusBoth(r: Refund)
    ensures var was := map["r1" := r, "r2" := r];
            Restatus(Restatus(was, "r1", Approved), "r2", Approved) == map["r1" := r.(status := Approved), "r2" := r.(status := Approved)]
  {
  }

  lemma BothApproved(s: State)
    requires Shop(s, 0) && s.refunds == map["r1" := Refund("o", "payer", 300, Pending, 0), "r2" := Refund("o", "payer", 300, Pending, 0)]
    ensures var s' := Run(s, APPROVALS);
            Shop(s', 0) && s'.refunds == map["r1" := Refund("o", "payer", 300, Approved, 0), "r2" := Refund("o", "payer", 300, Approved, 0)]
  {
    RunTwo(s, APPROVALS[0], APPROVALS[1]);
    RestatusBoth(Refund("o", "payer", 300, Pending, 0));
    Judged(s, "r1", APPROVALS[0]);
    Judged(Apply(s, APPROVALS[0]), "r2", APPROVALS[1]);
  }

  lemma BothExecuted(s: State)
    requires Shop(s, 0) && s.refunds == map["r1" := Refund("o", "payer", 300, Approved, 0), "r2" := Refund("o", "payer", 300, Approved, 0)]
    ensures Shop(Run(s, EXECUTIONS), 600)
  {
    RunTwo(s, EXECUTIONS[0], EXECUTIONS[1]);
    Executed(s, "r1", 0);
    Executed(Apply(s, EXECUTIONS[0]), "r2", 300);
  }

  lemma Executed(s: State, id: Id, refunded: nat)
    requires Shop(s, refunded) && refunded <= 300
    requires id in s.refunds && s.refunds[id] == Refund("o", "payer", 300, Approved, 0)
    ensures var s' := Apply(s, Execute(ALL_SIGN, id));
            Shop(s', refunded + 300) && s'.refunds == Restatus(s.refunds, id, RefundStatus.Completed)
  {
    Transferred(s, id, None, refunded);
    assert Apply(s, Execute(ALL_SIGN, id)) == PayOut(s, id, None).value;
  }

  /** Two requests of 300 against a payment of 500 are both accepted, because only executed
      refunds count; both are then paid, 600 in all. */
  lemma OverCommitmentIsPossible()
    ensures var s := Run(Init(OPEN_SHOP, 0, FUNDS), [SALE] + REQUESTS + APPROVALS + EXECUTIONS);
            "o" in s.payments && s.payments["o"].refunded == 600 > 500 == s.payments["o"].amount
  {
    var init := Init(OPEN_SHOP, 0, FUNDS);
    RunAppend(init, [SALE] + REQUESTS + APPROVALS, EXECUTIONS);
    RunAppend(init, [SALE] + REQUESTS, APPROVALS);
    RunAppend(init, [SALE], REQUESTS);
    Reached();
    BothRequested(Opening());
    BothApproved(Run(Opening(), REQUESTS));
    BothExecuted(Run(Run(Opening(), REQUESTS), APPROVALS));
  }

  // ── One refund is paid twice ──────────────────────────────────────────────

  const REFUSAL := [Request("r"), Reject(ALL_SIGN, "shop", "r")]
  const DISPUTES := [Raise(ALL_SIGN, "payer", "d1", "r", "late"), Raise(ALL_SIGN, "payer", "d2", "r", "late")]
  const SETTLEMENTS := [Resolve(ALL_SIGN, "admin", "d1", "ok", true), Resolve(ALL_SIGN, "admin", "d2", "ok", true)]

  lemma Refused(s: State)
    requires NewShop(s)
    ensures var s' := Run(s, REFUSAL);
            Shop(s', 0) && s'.refunds == map["r" := Refund("o", "payer", 300, Rejected, 0)] && s'.payouts == [] && s'.disputes == map[]
  {
    RunTwo(s, REFUSAL[0], REFUSAL[1]);
    Asked(s, "r");
    Judged(Apply(s, REFUSAL[0]), "r", REFUSAL[1]);
  }

  lemma BothContested(s: State)
    requires Shop(s, 0) && s.refunds == map["r" := Refund("o", "payer", 300, Rejected, 0)] && s.payouts == [] && s.disputes == map[]
    ensures var s' := Run(s, DISPUTES);
            && Shop(s', 0) && s'.refunds == s.refunds && s'.payouts == []
            && s'.disputes == map["d1" := Dispute("r", false, false), "d2" := Dispute("r", false, false)]
  {
    RunTwo(s, DISPUTES[0], DISPUTES[1]);
    Contested(s, "r", "d1");
    Contested(Apply(s, DISPUTES[0]), "r", "d2");
  }

  lemma Forced(s: State, disputeId: Id, refunded: nat)
    requires Shop(s, refunded) && refunded <= 300 && disputeId in s.disputes && !s.disputes[disputeId].resolved
    requires var id := s.disputes[disputeId].refundId;
             id in s.refunds && s.refunds[id].orderId == "o" && s.refunds[id].amount == 300
    ensures var s' := Apply(s, Resolve(ALL_SIGN, "admin", disputeId, "ok", true));
            var d := s.disputes[disputeId];
            && Shop(s', refunded + 300)
            && s'.refunds == Restatus(s.refunds, d.refundId, RefundStatus.Completed)
            && s'.payouts == s.payouts + [Payout(d.refundId, "o", 300, Some(disputeId))]
            && s'.disputes == s.disputes[disputeId := Dispute(d.refundId, true, true)]
  {
    var d := s.disputes[disputeId];
    var settled := s.(disputes := s.disputes[disputeId := Dispute(d.refundId, true, true)]);
    Transferred(settled, d.refundId, Some(disputeId), refunded);
    assert Apply(s, Resolve(ALL_SIGN, "admin", disputeId, "ok", true)) == PayOut(settled, d.refundId, Some(disputeId)).value;
  }

  lemma BothForced(s: State)
    requires Shop(s, 0) && s.payouts == []
    requires s.refunds == map["r" := Refund("o", "payer", 300, Rejected, 0)]
    requires s.disputes == map["d1" := Dispute("r", false, false), "d2" := Dispute("r", false, false)]
    ensures Run(s, SETTLEMENTS).payouts == [Payout("r", "o", 300, Some("d1")), Payout("r", "o", 300, Some("d2"))]
  {
    RunTwo(s, SETTLEMENTS[0], SETTLEMENTS[1]);
    Forced(s, "d1", 0);
    Forced(Apply(s, SETTLEMENTS[0]), "d2", 300);
  }

  /** Two disputes over one rejected refund, both settled by force, pay it twice. */
  lemma ForcedTwiceIsPossible()
    ensures var s := Run(Init(OPEN_SHOP, 0, FUNDS), [SALE] + REFUSAL + DISPUTES + SETTLEMENTS);
            s.payouts == [Payout("r", "o", 300, Some("d1")), Payout("r", "o", 300, Some("d2"))]
  {
    var init := Init(OPEN_SHOP, 0, FUNDS);
    RunAppend(init, [SALE] + REFUSAL + DISPUTES, SETTLEMENTS);
    RunAppend(init, [SALE] + REFUSAL, DISPUTES);
    RunAppend(init, [SALE], REFUSAL);
    Reached();
    Refused(Opening());
    BothContested(Run(Opening(), REFUSAL));
    BothForced(Run(Run(Opening(), REFUSAL), DISPUTES));
  }
}
