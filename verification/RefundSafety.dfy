/** What every run of the contract keeps about refunds: how often a refund is
    paid, that its phase never goes back, and how a payment's refund total and
    status follow from the transfers that were made. */
module RefundSafety {
  import opened Common
  import opened Token
  import opened Contract

  // ── Sums ──────────────────────────────────────────────────────────────────

  /** What the refund transfers made so far add up to for one order. */
  function PaidOut(payouts: seq<Payout>, orderId: Id): int {
    if payouts == [] then 0
    else
      var last := payouts[|payouts| - 1];
      PaidOut(payouts[..|payouts| - 1], orderId) + if last.orderId == orderId then last.amount else 0
  }

  /** The amounts of those refunds of `ids` whose status is in `statuses`. */
  function SumOf(refunds: map<Id, Refund>, ids: seq<Id>, statuses: set<RefundStatus>): int {
    if ids == [] then 0
    else SumOf(refunds, ids[..|ids| - 1], statuses) + Contribution(refunds, ids[|ids| - 1], statuses)
  }

  function Contribution(refunds: map<Id, Refund>, id: Id, statuses: set<RefundStatus>): int {
    if id in refunds && refunds[id].status in statuses then refunds[id].amount else 0
  }

  /** Changing one refund changes the sum by the change of its own contribution. */
  lemma {:induction false} SumOfUpdate(refunds: map<Id, Refund>, ids: seq<Id>, statuses: set<RefundStatus>, id: Id, r: Refund)
    requires Distinct(ids)
    ensures SumOf(refunds[id := r], ids, statuses)
         == SumOf(refunds, ids, statuses)
            + if id in ids then Contribution(refunds[id := r], id, statuses) - Contribution(refunds, id, statuses) else 0
  {
    if ids != [] {
      var before, last := ids[..|ids| - 1], ids[|ids| - 1];
      SumOfUpdate(refunds, before, statuses, id, r);
      assert ids == before + [last];
    }
  }

  // ── The invariant ─────────────────────────────────────────────────────────

  /** Each order's index lists exactly that order's refunds, once each. */
  ghost predicate Indexed(refunds: map<Id, Refund>, orderRefunds: map<Id, seq<Id>>) {
    && (forall o :: o in orderRefunds ==> Distinct(orderRefunds[o]))
    && (forall o, id :: o in orderRefunds && id in orderRefunds[o] ==> id in refunds && refunds[id].orderId == o)
    && (forall id :: id in refunds ==> refunds[id].orderId in orderRefunds && id in orderRefunds[refunds[id].orderId])
  }

  /** Every refund is a positive amount against a stored payment. */
  ghost predicate Backed(refunds: map<Id, Refund>, payments: map<Id, Payment>) {
    forall id :: id in refunds ==> refunds[id].orderId in payments && refunds[id].amount > 0
  }

  function StatusFor(amount: int, refunded: int): PaymentStatus {
    if refunded == 0 then PaymentStatus.Completed else if refunded >= amount then FullyRefunded else PartiallyRefunded
  }

  /** A payment's refund total is the sum of its transfers, and its status follows from the total. */
  ghost predicate Booked(payments: map<Id, Payment>, payouts: seq<Payout>) {
    && (forall o :: o in payments ==>
          && payments[o].amount > 0 && payments[o].refunded >= 0
          && payments[o].refunded == PaidOut(payouts, o)
          && payments[o].status == StatusFor(payments[o].amount, payments[o].refunded))
    && (forall p :: p in payouts ==> p.orderId in payments && p.amount > 0)
  }

  ghost predicate HasPayout(payouts: seq<Payout>, refundId: Id) {
    exists p :: p in payouts && p.refundId == refundId
  }

  ghost predicate SettledBy(payouts: seq<Payout>, disputeId: Id) {
    exists p :: p in payouts && p.dispute == Some(disputeId)
  }

  /** Only different disputes can pay one refund again. */
  ghost predicate PaidApart(payouts: seq<Payout>) {
    forall i, j :: 0 <= i < j < |payouts| && payouts[i].refundId == payouts[j].refundId ==>
      payouts[i].dispute.Some? && payouts[j].dispute.Some? && payouts[i].dispute != payouts[j].dispute
  }

  /** Transfers match refund records, and a refund is Completed exactly when it was paid. */
  ghost predicate Traced(refunds: map<Id, Refund>, payouts: seq<Payout>) {
    && (forall p :: p in payouts ==>
          && p.refundId in refunds
          && p.orderId == refunds[p.refundId].orderId && p.amount == refunds[p.refundId].amount)
    && (forall id :: id in refunds ==> (refunds[id].status == RefundStatus.Completed <==> HasPayout(payouts, id)))
  }

  /** Disputes hang on refunds that were rejected, and exactly the forced ones were paid. */
  ghost predicate Disputed(disputes: map<Id, Dispute>, refunds: map<Id, Refund>, payouts: seq<Payout>) {
    && (forall d :: d in disputes ==>
          && disputes[d].refundId in refunds
          && refunds[disputes[d].refundId].status in {Rejected, RefundStatus.Completed}
          && (disputes[d].forced ==> disputes[d].resolved && SettledBy(payouts, d)))
    && (forall d, p :: d in disputes && p in payouts && p.refundId == disputes[d].refundId ==> p.dispute.Some?)
    && (forall p :: p in payouts && p.dispute.Some? ==>
          && p.dispute.value in disputes
          && disputes[p.dispute.value].forced && disputes[p.dispute.value].refundId == p.refundId)
  }

  ghost predicate Inv(s: State) {
    && Indexed(s.refunds, s.orderRefunds) && Backed(s.refunds, s.payments) && Booked(s.payments, s.payouts)
    && PaidApart(s.payouts) && Traced(s.refunds, s.payouts) && Disputed(s.disputes, s.refunds, s.payouts)
  }

  // ── Every step keeps it ───────────────────────────────────────────────────

  lemma {:induction false} NothingPaidOut(payouts: seq<Payout>, orderId: Id)
    requires forall p :: p in payouts ==> p.orderId != orderId
    ensures PaidOut(payouts, orderId) == 0
  {
    if payouts != [] {
      NothingPaidOut(payouts[..|payouts| - 1], orderId);
    }
  }

  lemma RecordKeepsInv(s: State, e: PaidEvent, fee: int)
    requires Inv(s) && e.orderId !in s.payments && e.amount > 0 && RecordPayment(s, e, fee).Ok?
    ensures Inv(RecordPayment(s, e, fee).value)
  {
    NothingPaidOut(s.payouts, e.orderId);
  }

  /** What validation guarantees about the items it passed. */
  ghost predicate Fresh(payments: map<Id, Payment>, items: seq<BatchItem>) {
    && (forall k :: 0 <= k < |items| ==> items[k].amount > 0 && items[k].orderId !in payments)
    && (forall j, k :: 0 <= j < k < |items| ==> items[j].orderId != items[k].orderId)
  }

  lemma {:induction false} CheckedItems(s: State, items: seq<BatchItem>, i: nat)
    requires i <= |items| && CheckItems(s, items, i).Pass?
    ensures forall k :: i <= k < |items| ==> items[k].amount > 0 && items[k].orderId !in s.payments
    ensures forall j, k :: 0 <= j < k < |items| && i <= k ==> items[j].orderId != items[k].orderId
    decreases |items| - i
  {
    if i < |items| {
      CheckedItems(s, items, i + 1);
      assert forall j :: 0 <= j < i ==> OrderIds(items[..i])[j] == items[j].orderId;
    }
  }

  lemma {:induction false} RecordAllKeys(s: State, payer: Address, items: seq<BatchItem>)
    requires RecordAll(s, payer, items).Ok?
    ensures forall o :: o in RecordAll(s, payer, items).value.payments ==>
              o in s.payments || exists k :: 0 <= k < |items| && items[k].orderId == o
  {
    if items != [] {
      RecordAllKeys(s, payer, items[..|items| - 1]);
    }
  }

  lemma {:induction false} RecordAllKeepsInv(s: State, payer: Address, items: seq<BatchItem>)
    requires Inv(s) && RecordAll(s, payer, items).Ok? && Fresh(s.payments, items)
    ensures Inv(RecordAll(s, payer, items).value)
  {
    if items != [] {
      var before, last := items[..|items| - 1], items[|items| - 1];
      RecordAllKeepsInv(s, payer, before);
      RecordAllKeys(s, payer, before);
      RecordKeepsInv(RecordAll(s, payer, before).value, BatchEvent(payer, last), 0);
    }
  }

  lemma AddIndexed(refunds: map<Id, Refund>, orderRefunds: map<Id, seq<Id>>, id: Id, r: Refund)
    requires Indexed(refunds, orderRefunds) && id !in refunds
    ensures Indexed(refunds[id := r], orderRefunds[r.orderId := Lookup(orderRefunds, r.orderId, []) + [id]])
  {
    assert id !in Lookup(orderRefunds, r.orderId, []);
  }

  lemma AddTraced(refunds: map<Id, Refund>, disputes: map<Id, Dispute>, payouts: seq<Payout>, id: Id, r: Refund)
    requires Traced(refunds, payouts) && Disputed(disputes, refunds, payouts) && id !in refunds && r.status == Pending
    ensures Traced(refunds[id := r], payouts) && Disputed(disputes, refunds[id := r], payouts)
  {
  }

  lemma AddKeepsInv(s: State, id: Id, r: Refund)
    requires Inv(s) && id !in s.refunds && r.status == Pending && r.amount > 0 && r.orderId in s.payments
    ensures Inv(s.(refunds := s.refunds[id := r], orderRefunds := s.orderRefunds[r.orderId := RefundIds(s, r.orderId) + [id]]))
  {
    AddIndexed(s.refunds, s.orderRefunds, id, r);
    AddTraced(s.refunds, s.disputes, s.payouts, id, r);
    assert Backed(s.refunds[id := r], s.payments);
  }

  lemma InitiateKeepsInv(s: State, step: Step)
    requires Inv(s) && step.Initiate? && Call(s, step).Ok?
    ensures Inv(Call(s, step).value)
  {
    AddKeepsInv(s, step.refundId, Refund(step.orderId, step.caller, step.amount, Pending, s.now));
  }

  function Restatus(refunds: map<Id, Refund>, id: Id, status: RefundStatus): map<Id, Refund>
    requires id in refunds
  {
    refunds[id := refunds[id].(status := status)]
  }

  lemma RestatusKeepsRecords(refunds: map<Id, Refund>, orderRefunds: map<Id, seq<Id>>, payments: map<Id, Payment>,
                             id: Id, status: RefundStatus)
    requires id in refunds && Indexed(refunds, orderRefunds) && Backed(refunds, payments)
    ensures Indexed(Restatus(refunds, id, status), orderRefunds) && Backed(Restatus(refunds, id, status), payments)
  {
  }

  lemma DecisionTraced(refunds: map<Id, Refund>, disputes: map<Id, Dispute>, payouts: seq<Payout>, id: Id, status: RefundStatus)
    requires Traced(refunds, payouts) && Disputed(disputes, refunds, payouts)
    requires id in refunds && refunds[id].status == Pending && status in {Approved, Rejected}
    ensures Traced(Restatus(refunds, id, status), payouts) && Disputed(disputes, Restatus(refunds, id, status), payouts)
  {
  }

  lemma DecideKeepsInv(s: State, signers: set<Address>, caller: Address, refundId: Id, decision: RefundStatus)
    requires Inv(s) && decision in {Approved, Rejected} && DecideRefund(s, signers, caller, refundId, decision).Ok?
    ensures Inv(DecideRefund(s, signers, caller, refundId, decision).value)
  {
    RestatusKeepsRecords(s.refunds, s.orderRefunds, s.payments, refundId, decision);
    DecisionTraced(s.refunds, s.disputes, s.payouts, refundId, decision);
  }

  lemma RaisedDisputed(disputes: map<Id, Dispute>, refunds: map<Id, Refund>, payouts: seq<Payout>, id: Id, refundId: Id)
    requires Traced(refunds, payouts) && Disputed(disputes, refunds, payouts)
    requires id !in disputes && refundId in refunds && refunds[refundId].status == Rejected
    ensures Disputed(disputes[id := Dispute(refundId, false, false)], refunds, payouts)
  {
    assert !HasPayout(payouts, refundId);
  }

  lemma RaiseKeepsInv(s: State, signers: set<Address>, caller: Address, disputeId: Id, refundId: Id, reason: string)
    requires Inv(s) && RaiseDispute(s, signers, caller, disputeId, refundId, reason).Ok?
    ensures Inv(RaiseDispute(s, signers, caller, disputeId, refundId, reason).value)
  {
    RaisedDisputed(s.disputes, s.refunds, s.payouts, disputeId, refundId);
  }

  /** The payment side of a refund transfer. */
  lemma PayOutBooks(s: State, refundId: Id, dispute: Option<Id>)
    requires Backed(s.refunds, s.payments) && Booked(s.payments, s.payouts)
    requires refundId in s.refunds && PayOut(s, refundId, dispute).Ok?
    ensures Booked(PayOut(s, refundId, dispute).value.payments, PayOut(s, refundId, dispute).value.payouts)
  {
    var s' := PayOut(s, refundId, dispute).value;
    assert s'.payouts[..|s'.payouts| - 1] == s.payouts;
  }

  /** The refund side: the record becomes Completed and the transfer is the last one. */
  lemma PayOutTraces(refunds: map<Id, Refund>, payouts: seq<Payout>, refundId: Id, p: Payout)
    requires Traced(refunds, payouts) && refundId in refunds
    requires p.refundId == refundId && p.orderId == refunds[refundId].orderId && p.amount == refunds[refundId].amount
    ensures Traced(refunds[refundId := refunds[refundId].(status := RefundStatus.Completed)], payouts + [p])
  {
    var refunds' := refunds[refundId := refunds[refundId].(status := RefundStatus.Completed)];
    assert p in payouts + [p];
    forall id | id in refunds'
      ensures refunds'[id].status == RefundStatus.Completed <==> HasPayout(payouts + [p], id)
    {
      if HasPayout(payouts, id) {
        var q :| q in payouts && q.refundId == id;
        assert q in payouts + [p];
      }
    }
  }

  lemma SettledStays(payouts: seq<Payout>, p: Payout)
    ensures forall d :: SettledBy(payouts + [p], d) <==> SettledBy(payouts, d) || p.dispute == Some(d)
  {
    assert p in payouts + [p];
    forall d | SettledBy(payouts, d) ensures SettledBy(payouts + [p], d) {
      var q :| q in payouts && q.dispute == Some(d);
      assert q in payouts + [p];
    }
  }

  lemma ExecutedDisputed(refunds: map<Id, Refund>, disputes: map<Id, Dispute>, payouts: seq<Payout>, p: Payout)
    requires Disputed(disputes, refunds, payouts)
    requires p.refundId in refunds && refunds[p.refundId].status == Approved && p.dispute.None?
    ensures Disputed(disputes, Restatus(refunds, p.refundId, RefundStatus.Completed), payouts + [p])
  {
    SettledStays(payouts, p);
  }

  /** A transfer that no earlier one of the same refund clashes with. */
  lemma PaidApartGrows(payouts: seq<Payout>, p: Payout)
    requires PaidApart(payouts)
    requires forall q :: q in payouts && q.refundId == p.refundId ==>
               q.dispute.Some? && p.dispute.Some? && q.dispute != p.dispute
    ensures PaidApart(payouts + [p])
  {
  }

  /** The whole invariant across one refund transfer, from what it does to each part. */
  lemma PayOutKeepsInv(s: State, refundId: Id, dispute: Option<Id>)
    requires Indexed(s.refunds, s.orderRefunds) && Backed(s.refunds, s.payments) && Booked(s.payments, s.payouts)
    requires PaidApart(s.payouts) && Traced(s.refunds, s.payouts)
    requires refundId in s.refunds && PayOut(s, refundId, dispute).Ok?
    requires forall q :: q in s.payouts && q.refundId == refundId ==> q.dispute.Some? && dispute.Some? && q.dispute != dispute
    requires var p := Payout(refundId, s.refunds[refundId].orderId, s.refunds[refundId].amount, dispute);
             Disputed(s.disputes, Restatus(s.refunds, refundId, RefundStatus.Completed), s.payouts + [p])
    ensures Inv(PayOut(s, refundId, dispute).value)
  {
    var s' := PayOut(s, refundId, dispute).value;
    var p := Payout(refundId, s.refunds[refundId].orderId, s.refunds[refundId].amount, dispute);
    PayOutBooks(s, refundId, dispute);
    RestatusKeepsRecords(s.refunds, s.orderRefunds, s.payments, refundId, RefundStatus.Completed);
    assert Backed(s'.refunds, s'.payments);
    PayOutTraces(s.refunds, s.payouts, refundId, p);
    PaidApartGrows(s.payouts, p);
  }

  lemma ExecuteKeepsInv(s: State, signers: set<Address>, refundId: Id)
    requires Inv(s) && ExecuteRefund(s, signers, refundId).Ok?
    ensures Inv(ExecuteRefund(s, signers, refundId).value)
  {
    var refund := s.refunds[refundId];
    assert !HasPayout(s.payouts, refundId);
    ExecutedDisputed(s.refunds, s.disputes, s.payouts, Payout(refundId, refund.orderId, refund.amount, None));
    PayOutKeepsInv(s, refundId, None);
  }

  lemma ForcedDisputed(refunds: map<Id, Refund>, disputes: map<Id, Dispute>, payouts: seq<Payout>, disputeId: Id, p: Payout)
    requires Disputed(disputes, refunds, payouts)
    requires disputeId in disputes && !disputes[disputeId].resolved
    requires p.refundId == disputes[disputeId].refundId && p.dispute == Some(disputeId)
    ensures Disputed(disputes[disputeId := disputes[disputeId].(resolved := true, forced := true)],
                     Restatus(refunds, p.refundId, RefundStatus.Completed), payouts + [p])
  {
    SettledStays(payouts, p);
  }

  lemma ForcedKeepsInv(s: State, settled: State, disputeId: Id)
    requires Inv(s) && disputeId in s.disputes && !s.disputes[disputeId].resolved
    requires settled == s.(disputes := s.disputes[disputeId := s.disputes[disputeId].(resolved := true, forced := true)])
    requires PayOut(settled, s.disputes[disputeId].refundId, Some(disputeId)).Ok?
    ensures Inv(PayOut(settled, s.disputes[disputeId].refundId, Some(disputeId)).value)
  {
    var refundId := s.disputes[disputeId].refundId;
    var refund := s.refunds[refundId];
    ForcedDisputed(s.refunds, s.disputes, s.payouts, disputeId,
                   Payout(refundId, refund.orderId, refund.amount, Some(disputeId)));
    PayOutKeepsInv(settled, refundId, Some(disputeId));
  }

  lemma DeniedKeepsInv(s: State, disputeId: Id)
    requires Inv(s) && disputeId in s.disputes && !s.disputes[disputeId].resolved
    ensures Inv(s.(disputes := s.disputes[disputeId := s.disputes[disputeId].(resolved := true, forced := false)]))
  {
  }

  lemma ResolveIsPayOut(s: State, step: Step)
    requires step.Resolve? && Call(s, step).Ok?
    ensures step.disputeId in s.disputes && !s.disputes[step.disputeId].resolved
    ensures var settled := s.(disputes := s.disputes[step.disputeId := s.disputes[step.disputeId].(resolved := true, forced := step.force)]);
            var refundId := s.disputes[step.disputeId].refundId;
            if step.force then
              && refundId in s.refunds && s.refunds[refundId].orderId in s.payments
              && Call(s, step) == PayOut(settled, refundId, Some(step.disputeId))
            else Call(s, step) == Ok(settled)
  {
  }

  lemma ResolveKeepsInv(s: State, step: Step)
    requires Inv(s) && step.Resolve? && Call(s, step).Ok?
    ensures Inv(Call(s, step).value)
  {
    ResolveIsPayOut(s, step);
    var d := s.disputes[step.disputeId];
    if step.force {
      ForcedKeepsInv(s, s.(disputes := s.disputes[step.disputeId := d.(resolved := true, forced := true)]), step.disputeId);
    } else {
      DeniedKeepsInv(s, step.disputeId);
    }
  }

  /** An accepted payment is one record on top of the moved tokens. */
  lemma PayIsRecord(s: State, step: Step) returns (b: Balances, e: PaidEvent, fee: int)
    requires step.Pay? && Call(s, step).Ok?
    ensures e.orderId == step.orderId && e.amount == step.amount > 0 && e.orderId !in s.payments
    ensures Charge(s, step.payer, step.orderId, step.merchant, step.token, step.amount) == Ok((b, e, fee))
    ensures RecordPayment(s.(balances := b), e, fee) == Call(s, step)
  {
    var charged := Charge(s, step.payer, step.orderId, step.merchant, step.token, step.amount).value;
    b, e, fee := charged.0, charged.1, charged.2;
  }

  lemma PayKeepsInv(s: State, step: Step)
    requires Inv(s) && step.Pay? && Call(s, step).Ok?
    ensures Inv(Call(s, step).value)
  {
    var b, e, fee := PayIsRecord(s, step);
    RecordKeepsInv(s.(balances := b), e, fee);
  }

  lemma BatchKeepsInv(s: State, signers: set<Address>, payer: Address, items: seq<BatchItem>)
    requires Inv(s) && BatchPayment(s, signers, payer, items).Ok?
    ensures Inv(BatchPayment(s, signers, payer, items).value)
  {
    CheckedItems(s, items, 0);
    RecordAllKeepsInv(s.(balances := PayGroups(s.balances, payer, GroupItems(items).value).value), payer, items);
  }

  predicate WritesBooks(step: Step) {
    step.Pay? || step.Batch? || step.Execute? || step.Resolve?
  }

  /** The other steps move no tokens and touch neither payments nor statistics. */
  lemma SilentStep(s: State, step: Step)
    requires !WritesBooks(step) && Call(s, step).Ok?
    ensures var s' := Call(s, step).value;
            && s'.payments == s.payments && s'.balances == s.balances && s'.paid == s.paid && s'.payouts == s.payouts
            && s'.payerIndex == s.payerIndex && s'.merchantIndex == s.merchantIndex
            && s'.globalStats == s.globalStats && s'.merchantStats == s.merchantStats && s'.received == s.received
  {
  }

  lemma StepKeepsInv(s: State, step: Step)
    requires Inv(s)
    ensures Inv(Apply(s, step))
  {
    if Call(s, step).Ok? {
      match step
      case Pay(_, _, _, _, _, _, _) => PayKeepsInv(s, step);
      case Batch(signers, payer, items) => BatchKeepsInv(s, signers, payer, items);
      case Initiate(_, _, _, _, _) => InitiateKeepsInv(s, step);
      case Approve(signers, caller, refundId) => DecideKeepsInv(s, signers, caller, refundId, Approved);
      case Reject(signers, caller, refundId) => DecideKeepsInv(s, signers, caller, refundId, Rejected);
      case Execute(signers, refundId) => ExecuteKeepsInv(s, signers, refundId);
      case Raise(signers, caller, disputeId, refundId, reason) =>
        RaiseKeepsInv(s, signers, caller, disputeId, refundId, reason);
      case Resolve(_, _, _, _, _) => ResolveKeepsInv(s, step);
      case Configure(_) =>
      case Advance(_) =>
    }
  }

  /** Every reachable state satisfies the refund invariant. */
  lemma {:induction false} RunKeepsInv(s: State, steps: seq<Step>)
    requires Inv(s)
    ensures Inv(Run(s, steps))
  {
    if steps != [] {
      RunKeepsInv(s, steps[..|steps| - 1]);
      StepKeepsInv(Run(s, steps[..|steps| - 1]), steps[|steps| - 1]);
    }
  }

  lemma InitInv(settings: Settings, now: nat, balances: Balances)
    ensures Inv(Init(settings, now, balances))
  {
  }
}
