/** The refund results a maintainer would ask for, over all runs of the contract. */
module RefundTheorems {
  import opened Common
  import opened Token
  import opened Contract
  import opened RefundSafety

  // ── What one step does to the refund records ──────────────────────────────

  datatype Effect =
    | Quiet
    | Opened(id: Id, refund: Refund)
    | Decided(id: Id, decision: RefundStatus)
    | Settled(id: Id, dispute: Option<Id>)

  function EffectOf(s: State, step: Step): Effect {
    if Call(s, step).Err? then Quiet
    else
      match step
      case Initiate(_, caller, id, orderId, amount) => Opened(id, Refund(orderId, caller, amount, Pending, s.now))
      case Approve(_, _, id) => Decided(id, Approved)
      case Reject(_, _, id) => Decided(id, Rejected)
      case Execute(_, id) => Settled(id, None)
      case Resolve(_, _, disputeId, _, force) =>
        if force && disputeId in s.disputes then Settled(s.disputes[disputeId].refundId, Some(disputeId)) else Quiet
      case _ => Quiet
  }

  /** Every stored payment is still there, unchanged. */
  ghost predicate Extends(before: map<Id, Payment>, after: map<Id, Payment>) {
    forall o :: o in before ==> o in after && after[o] == before[o]
  }

  /** All that a call with this effect does to payments, refunds, indexes and transfers. */
  ghost predicate Effected(s: State, s': State, e: Effect) {
    match e
    case Quiet =>
      && Extends(s.payments, s'.payments)
      && s'.refunds == s.refunds && s'.orderRefunds == s.orderRefunds && s'.payouts == s.payouts
    case Opened(id, r) =>
      && id !in s.refunds && r.status == Pending && r.amount > 0 && r.orderId in s.payments
      && s'.refunds == s.refunds[id := r] && s'.payouts == s.payouts && s'.payments == s.payments
      && s'.orderRefunds == s.orderRefunds[r.orderId := RefundIds(s, r.orderId) + [id]]
    case Decided(id, decision) =>
      && id in s.refunds && s.refunds[id].status == Pending && decision in {Approved, Rejected}
      && s'.refunds == Restatus(s.refunds, id, decision) && s'.payments == s.payments
      && s'.orderRefunds == s.orderRefunds && s'.payouts == s.payouts
    case Settled(id, dispute) =>
      && id in s.refunds && (dispute.None? ==> s.refunds[id].status == Approved)
      && (dispute.Some? ==> dispute.value in s.disputes && s.disputes[dispute.value].refundId == id)
      && s'.refunds == Restatus(s.refunds, id, RefundStatus.Completed) && s'.orderRefunds == s.orderRefunds
      && s'.payouts == s.payouts + [Payout(id, s.refunds[id].orderId, s.refunds[id].amount, dispute)]
      && var o := s.refunds[id].orderId;
         o in s.payments && s'.payments == s.payments[o := RefundedPayment(s.payments[o], s.refunds[id].amount)]
  }

  /** No effect changes what a payment was made for. */
  lemma AmountStays(s: State, s': State, e: Effect, o: Id)
    requires Effected(s, s', e) && o in s.payments
    ensures o in s'.payments && s'.payments[o].amount == s.payments[o].amount
  {
  }

  lemma {:induction false} BatchEffect(s: State, payer: Address, items: seq<BatchItem>)
    requires RecordAll(s, payer, items).Ok? && Fresh(s.payments, items)
    ensures Effected(s, RecordAll(s, payer, items).value, Quiet)
  {
    if items != [] {
      BatchEffect(s, payer, items[..|items| - 1]);
      RecordAllKeys(s, payer, items[..|items| - 1]);
    }
  }

  lemma RecordEffect(s: State, b: Balances, e: PaidEvent, fee: int)
    requires e.orderId !in s.payments && RecordPayment(s.(balances := b), e, fee).Ok?
    ensures Effected(s, RecordPayment(s.(balances := b), e, fee).value, Quiet)
  {
  }

  lemma PaymentEffect(s: State, step: Step)
    requires step.Pay? && Call(s, step).Ok?
    ensures Effected(s, Call(s, step).value, Quiet)
  {
    var b, e, fee := PayIsRecord(s, step);
    RecordEffect(s, b, e, fee);
  }

  lemma BatchedEffect(s: State, step: Step)
    requires step.Batch? && Call(s, step).Ok?
    ensures Effected(s, Call(s, step).value, Quiet)
  {
    CheckedItems(s, step.items, 0);
    BatchEffect(s.(balances := PayGroups(s.balances, step.payer, GroupItems(step.items).value).value), step.payer, step.items);
  }

  lemma RefundEffect(s: State, step: Step)
    requires step.Initiate? || step.Approve? || step.Reject?
    ensures Effected(s, Apply(s, step), EffectOf(s, step))
  {
  }

  lemma PayOutEffect(s: State, id: Id, dispute: Option<Id>)
    requires id in s.refunds && (dispute.None? ==> s.refunds[id].status == Approved)
    requires dispute.Some? ==> dispute.value in s.disputes && s.disputes[dispute.value].refundId == id
    requires s.refunds[id].orderId in s.payments && PayOut(s, id, dispute).Ok?
    ensures Effected(s, PayOut(s, id, dispute).value, Settled(id, dispute))
  {
  }

  lemma ResolveEffect(s: State, step: Step)
    requires step.Resolve? && Call(s, step).Ok?
    ensures Effected(s, Call(s, step).value, EffectOf(s, step))
  {
    ResolveIsPayOut(s, step);
    if step.force {
      var settled := s.(disputes := s.disputes[step.disputeId := s.disputes[step.disputeId].(resolved := true, forced := true)]);
      PayOutEffect(settled, s.disputes[step.disputeId].refundId, Some(step.disputeId));
    }
  }

  lemma StepEffect(s: State, step: Step)
    ensures Effected(s, Apply(s, step), EffectOf(s, step))
  {
    if step.Initiate? || step.Approve? || step.Reject? {
      RefundEffect(s, step);
    } else if Call(s, step).Ok? {
      match step
      case Pay(_, _, _, _, _, _, _) => PaymentEffect(s, step);
      case Batch(_, _, _) => BatchedEffect(s, step);
      case Execute(_, id) => PayOutEffect(s, id, None);
      case Resolve(_, _, _, _, _) => ResolveEffect(s, step);
      case _ =>
    }
  }

  // ── Phases only move forward ──────────────────────────────────────────────

  function StatusOf(s: State, refundId: Id): Option<RefundStatus> {
    if refundId in s.refunds then Some(s.refunds[refundId].status) else None
  }

  /** Nothing, then Pending, then Approved or Rejected, then Completed. */
  predicate Forward(a: Option<RefundStatus>, b: Option<RefundStatus>) {
    a.None? || (b.Some? && (a == b || a.value == Pending || b.value == RefundStatus.Completed))
  }

  lemma EffectForward(s: State, s': State, e: Effect, refundId: Id)
    requires Effected(s, s', e)
    ensures Forward(StatusOf(s, refundId), StatusOf(s', refundId))
  {
  }

  /** In every run, from any state, a refund's status never goes back. */
  lemma {:induction false} RunForward(s: State, steps: seq<Step>, refundId: Id)
    ensures Forward(StatusOf(s, refundId), StatusOf(Run(s, steps), refundId))
  {
    if steps != [] {
      var mid := Run(s, steps[..|steps| - 1]);
      RunForward(s, steps[..|steps| - 1], refundId);
      StepEffect(mid, steps[|steps| - 1]);
      EffectForward(mid, Run(s, steps), EffectOf(mid, steps[|steps| - 1]), refundId);
    }
  }

  // ── How often one refund is paid ──────────────────────────────────────────

  ghost predicate PaidOnce(payouts: seq<Payout>, refundId: Id) {
    forall i, j :: 0 <= i < j < |payouts| && payouts[i].refundId == refundId ==> payouts[j].refundId != refundId
  }

  predicate ForcedOn(s: State, disputeId: Id, refundId: Id) {
    disputeId in s.disputes && s.disputes[disputeId].forced && s.disputes[disputeId].refundId == refundId
  }

  lemma ForcedTwicePaysTwice(s: State, refundId: Id, d: Id, e: Id)
    requires Disputed(s.disputes, s.refunds, s.payouts)
    requires ForcedOn(s, d, refundId) && ForcedOn(s, e, refundId) && d != e
    ensures !PaidOnce(s.payouts, refundId)
  {
    assert SettledBy(s.payouts, d) && SettledBy(s.payouts, e);
    var p :| p in s.payouts && p.dispute == Some(d);
    var q :| q in s.payouts && q.dispute == Some(e);
    var i :| 0 <= i < |s.payouts| && s.payouts[i] == p;
    var j :| 0 <= j < |s.payouts| && s.payouts[j] == q;
    assert p.refundId == refundId && q.refundId == refundId;
    assert i < j || j < i;
  }

  lemma PaidTwiceIsForcedTwice(s: State, refundId: Id) returns (d: Id, e: Id)
    requires PaidApart(s.payouts) && Disputed(s.disputes, s.refunds, s.payouts) && !PaidOnce(s.payouts, refundId)
    ensures ForcedOn(s, d, refundId) && ForcedOn(s, e, refundId) && d != e
  {
    var i, j :| 0 <= i < j < |s.payouts| && s.payouts[i].refundId == refundId && s.payouts[j].refundId == refundId;
    assert s.payouts[i] in s.payouts && s.payouts[j] in s.payouts;
    d, e := s.payouts[i].dispute.value, s.payouts[j].dispute.value;
  }

  /** A refund is paid at most once exactly when at most one dispute over it was
      settled by force; without such disputes there is no exception. */
  lemma PaidOnceIff(s: State, refundId: Id)
    requires Inv(s)
    ensures PaidOnce(s.payouts, refundId) <==>
              forall d, e :: ForcedOn(s, d, refundId) && ForcedOn(s, e, refundId) ==> d == e
  {
    if d, e :| ForcedOn(s, d, refundId) && ForcedOn(s, e, refundId) && d != e {
      ForcedTwicePaysTwice(s, refundId, d, e);
    } else if !PaidOnce(s.payouts, refundId) {
      var d, e := PaidTwiceIsForcedTwice(s, refundId);
    }
  }

  /** A second transfer keeps a refund paid once exactly when the record was not Completed before it. */
  lemma EffectPaidOnceIff(s: State, s': State, e: Effect, refundId: Id)
    requires Traced(s.refunds, s.payouts) && PaidOnce(s.payouts, refundId) && Effected(s, s', e)
    ensures PaidOnce(s'.payouts, refundId) <==>
              !(e.Settled? && e.id == refundId && s.refunds[refundId].status == RefundStatus.Completed)
  {
    if e.Settled? && e.id == refundId && s.refunds[refundId].status == RefundStatus.Completed {
      var q :| q in s.payouts && q.refundId == refundId;
      var i :| 0 <= i < |s.payouts| && s.payouts[i] == q;
      assert s'.payouts[i].refundId == s'.payouts[|s.payouts|].refundId;
    } else if e.Settled? && e.id == refundId {
      assert forall i :: 0 <= i < |s.payouts| ==> s.payouts[i] in s.payouts;
    }
  }

  /** The call that, if accepted, pays a refund a second time: a forced dispute
      resolution on a refund already Completed. A caller can check it beforehand. */
  predicate PaysAgain(s: State, step: Step, refundId: Id) {
    && step.Resolve? && step.force
    && step.disputeId in s.disputes && s.disputes[step.disputeId].refundId == refundId
    && StatusOf(s, refundId) == Some(RefundStatus.Completed)
  }

  lemma PaysAgainIs(s: State, step: Step, refundId: Id)
    requires Call(s, step).Ok?
    ensures PaysAgain(s, step, refundId) <==>
              EffectOf(s, step).Settled? && EffectOf(s, step).id == refundId && StatusOf(s, refundId) == Some(RefundStatus.Completed)
  {
  }

  lemma StepPaidOnceIff(s: State, step: Step, refundId: Id)
    requires Inv(s) && PaidOnce(s.payouts, refundId)
    ensures PaidOnce(Apply(s, step).payouts, refundId) <==> (Call(s, step).Ok? ==> !PaysAgain(s, step, refundId))
  {
    if Call(s, step).Ok? {
      StepEffect(s, step);
      PaysAgainIs(s, step, refundId);
      EffectPaidOnceIff(s, Apply(s, step), EffectOf(s, step), refundId);
    }
  }

  // ── Refund totals ─────────────────────────────────────────────────────────

  ghost predicate OnceForOrder(payouts: seq<Payout>, orderId: Id) {
    forall i, j :: 0 <= i < j < |payouts| && payouts[i].orderId == orderId ==> payouts[i].refundId != payouts[j].refundId
  }

  const COMMITTED: set<RefundStatus> := {Pending, Approved, RefundStatus.Completed}

  function CompletedSum(s: State, orderId: Id): int {
    SumOf(s.refunds, RefundIds(s, orderId), {RefundStatus.Completed})
  }

  /** Pending, approved and completed refunds of an order, together. */
  function Committed(s: State, orderId: Id): int {
    SumOf(s.refunds, RefundIds(s, orderId), COMMITTED)
  }

  lemma SumAdded(refunds: map<Id, Refund>, ids: seq<Id>, statuses: set<RefundStatus>, id: Id, r: Refund)
    requires Distinct(ids) && id !in ids
    ensures SumOf(refunds[id := r], ids + [id], statuses)
         == SumOf(refunds, ids, statuses) + Contribution(refunds[id := r], id, statuses)
  {
    assert (ids + [id])[..|ids|] == ids;
    SumOfUpdate(refunds, ids, statuses, id, r);
  }

  /** How a change of one record, listed under its order, changes the order's sum. */
  lemma SumChanged(s: State, orderId: Id, statuses: set<RefundStatus>, id: Id, r: Refund)
    requires Indexed(s.refunds, s.orderRefunds) && id in s.refunds && r.orderId == s.refunds[id].orderId
    ensures SumOf(s.refunds[id := r], RefundIds(s, orderId), statuses) == SumOf(s.refunds, RefundIds(s, orderId), statuses)
              + if r.orderId != orderId then 0 else Contribution(s.refunds[id := r], id, statuses) - Contribution(s.refunds, id, statuses)
  {
    SumOfUpdate(s.refunds, RefundIds(s, orderId), statuses, id, r);
  }

  /** How one effect changes the sum of an order's refunds in the given statuses. */
  lemma SumAfter(s: State, s': State, e: Effect, orderId: Id, statuses: set<RefundStatus>)
    requires Indexed(s.refunds, s.orderRefunds) && Effected(s, s', e)
    ensures SumOf(s'.refunds, RefundIds(s', orderId), statuses) == SumOf(s.refunds, RefundIds(s, orderId), statuses)
              + if e.Quiet? || s'.refunds[e.id].orderId != orderId then 0
                else Contribution(s'.refunds, e.id, statuses) - Contribution(s.refunds, e.id, statuses)
  {
    match e
    case Quiet =>
    case Opened(id, r) =>
      if r.orderId == orderId {
        SumAdded(s.refunds, RefundIds(s, orderId), statuses, id, r);
      } else {
        SumOfUpdate(s.refunds, RefundIds(s, orderId), statuses, id, r);
      }
    case _ => SumChanged(s, orderId, statuses, e.id, s'.refunds[e.id]);
  }

  lemma {:induction false} NothingContributes(refunds: map<Id, Refund>, ids: seq<Id>, statuses: set<RefundStatus>)
    requires forall id :: id in ids ==> id !in refunds
    ensures SumOf(refunds, ids, statuses) == 0
  {
    if ids != [] {
      NothingContributes(refunds, ids[..|ids| - 1], statuses);
    }
  }

  lemma NoRefundsYet(s: State, orderId: Id, statuses: set<RefundStatus>)
    requires Indexed(s.refunds, s.orderRefunds) && Backed(s.refunds, s.payments) && orderId !in s.payments
    ensures SumOf(s.refunds, RefundIds(s, orderId), statuses) == 0
  {
    NothingContributes(s.refunds, RefundIds(s, orderId), statuses);
  }

  /** The transfers of an order add up to its completed refunds, and to more exactly when
      one of them was paid twice. */
  ghost predicate TotalsMatch(s: State, o: Id) {
    && PaidOut(s.payouts, o) >= CompletedSum(s, o)
    && (PaidOut(s.payouts, o) == CompletedSum(s, o) <==> OnceForOrder(s.payouts, o))
  }

  /** One more transfer: still once each, unless its refund had one before. */
  lemma OnceGrows(refunds: map<Id, Refund>, payouts: seq<Payout>, p: Payout, o: Id)
    requires Traced(refunds, payouts) && p.refundId in refunds && p.orderId == refunds[p.refundId].orderId
    ensures OnceForOrder(payouts + [p], o) <==>
              OnceForOrder(payouts, o) && (p.orderId == o ==> refunds[p.refundId].status != RefundStatus.Completed)
  {
    var all := payouts + [p];
    assert all[|payouts|] == p && forall i :: 0 <= i < |payouts| ==> all[i] == payouts[i];
    if HasPayout(payouts, p.refundId) {
      var q :| q in payouts && q.refundId == p.refundId;
      var i :| 0 <= i < |payouts| && payouts[i] == q;
      assert all[i] == q && q.orderId == p.orderId;
    }
    if OnceForOrder(payouts, o) && (p.orderId == o ==> refunds[p.refundId].status != RefundStatus.Completed) {
      forall i | 0 <= i < |payouts| && all[i].orderId == o ensures all[i].refundId != p.refundId {
        assert payouts[i] in payouts;
      }
    }
  }

  lemma PaidOutGrows(payouts: seq<Payout>, p: Payout, o: Id)
    ensures PaidOut(payouts + [p], o) == PaidOut(payouts, o) + if p.orderId == o then p.amount else 0
  {
    assert (payouts + [p])[..|payouts|] == payouts;
  }

  lemma TransferKeepsTotals(s: State, s': State, e: Effect, o: Id)
    requires Indexed(s.refunds, s.orderRefunds) && Backed(s.refunds, s.payments) && Traced(s.refunds, s.payouts)
    requires TotalsMatch(s, o) && Effected(s, s', e) && e.Settled?
    ensures TotalsMatch(s', o)
  {
    var refund := s.refunds[e.id];
    var p := Payout(e.id, refund.orderId, refund.amount, e.dispute);
    assert CompletedSum(s', o) == CompletedSum(s, o)
             + if refund.orderId == o && refund.status != RefundStatus.Completed then refund.amount else 0 by {
      SumAfter(s, s', e, o, {RefundStatus.Completed});
    }
    PaidOutGrows(s.payouts, p, o);
    OnceGrows(s.refunds, s.payouts, p, o);
  }

  /** Without a transfer nothing becomes Completed. */
  lemma CompletedStays(s: State, s': State, e: Effect, o: Id)
    requires Indexed(s.refunds, s.orderRefunds) && Effected(s, s', e) && !e.Settled?
    ensures CompletedSum(s', o) == CompletedSum(s, o)
  {
    SumAfter(s, s', e, o, {RefundStatus.Completed});
  }

  lemma EffectKeepsTotals(s: State, s': State, e: Effect, o: Id)
    requires Indexed(s.refunds, s.orderRefunds) && Backed(s.refunds, s.payments) && Traced(s.refunds, s.payouts)
    requires TotalsMatch(s, o) && Effected(s, s', e)
    ensures TotalsMatch(s', o)
  {
    if e.Settled? {
      TransferKeepsTotals(s, s', e, o);
    } else {
      CompletedStays(s, s', e, o);
    }
  }

  lemma {:induction false} RunKeepsTotals(s: State, steps: seq<Step>, o: Id)
    requires Inv(s) && TotalsMatch(s, o)
    ensures TotalsMatch(Run(s, steps), o)
  {
    if steps != [] {
      var mid := Run(s, steps[..|steps| - 1]);
      RunKeepsTotals(s, steps[..|steps| - 1], o);
      RunKeepsInv(s, steps[..|steps| - 1]);
      StepEffect(mid, steps[|steps| - 1]);
      EffectKeepsTotals(mid, Run(s, steps), EffectOf(mid, steps[|steps| - 1]), o);
    }
  }

  /** In every reachable state a payment's refund total is the sum of its refund transfers
      and its status follows from the total; the total equals the completed refund records
      exactly when no refund of the order was paid twice. */
  lemma RefundTotals(settings: Settings, now: nat, balances: Balances, steps: seq<Step>, o: Id)
    requires o in Run(Init(settings, now, balances), steps).payments
    ensures var s := Run(Init(settings, now, balances), steps);
            var p := s.payments[o];
            && p.refunded == PaidOut(s.payouts, o)
            && (p.status == PaymentStatus.Completed <==> p.refunded == 0)
            && (p.status == PartiallyRefunded <==> 0 < p.refunded < p.amount)
            && (p.status == FullyRefunded <==> p.refunded >= p.amount)
            && (p.refunded == CompletedSum(s, o) <==> OnceForOrder(s.payouts, o))
  {
    InitInv(settings, now, balances);
    RunKeepsInv(Init(settings, now, balances), steps);
    RunKeepsTotals(Init(settings, now, balances), steps, o);
  }
}
