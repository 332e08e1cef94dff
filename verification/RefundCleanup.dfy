/** What the purge of old refund records does to the refund results: it frees the ids of
    refunds that have been paid. Balances are unaffected. */
module RefundCleanup {
  import opened Common
  import opened Token
  import opened Contract
  import opened RefundSafety
  import opened RefundTheorems
  import Authority
  import Conservation

  predicate Expired(r: Refund, cutoff: int) {
    r.status in {Rejected, RefundStatus.Completed} && r.createdAt < cutoff
  }

  /** The state after a purge: old rejected and completed records are gone, the order
      indexes and everything else stay. */
  function Cleaned(s: State, retention: nat): State {
    var cutoff := if s.now < retention then 0 else s.now - retention;
    s.(refunds := map id | id in s.refunds && !Expired(s.refunds[id], cutoff) :: s.refunds[id])
  }

  /** A purge removes exactly the completed and rejected records older than the retention
      period, and changes nothing else. */
  lemma PurgeMeans(s: State, retention: nat, id: Id)
    ensures id in Cleaned(s, retention).refunds <==>
              id in s.refunds && !((s.refunds[id].status == RefundStatus.Completed || s.refunds[id].status == Rejected)
                                   && s.refunds[id].createdAt + retention < s.now)
    ensures id in Cleaned(s, retention).refunds ==> Cleaned(s, retention).refunds[id] == s.refunds[id]
    ensures Cleaned(s, retention) == s.(refunds := Cleaned(s, retention).refunds)
  {
  }

  /** The id of a purged refund is free: any authorised request may take it again. The paid
      refund is then pending, and an order that asks again lists it twice. */
  lemma PurgedIdIsFree(s: State, retention: nat, request: Step)
    requires Inv(s) && request.Initiate? && StatusOf(s, request.refundId) == Some(RefundStatus.Completed)
    requires var clean := Cleaned(s, retention);
      && StatusOf(clean, request.refundId) == None && ValidId(request.refundId).Pass?
      && Authority.Authorised(clean, request, request.refundId, Pending)
      && s.payments[request.orderId].amount <= I128_MAX
      && s.payments[request.orderId].paidAt + s.settings.refundWindow <= U64_MAX
    ensures var clean := Cleaned(s, retention); var s' := Apply(clean, request);
      && Call(clean, request).Ok? && StatusOf(s', request.refundId) == Some(Pending)
      && HasPayout(s'.payouts, request.refundId)
      && (request.orderId == s.refunds[request.refundId].orderId ==> !Distinct(RefundIds(s', request.orderId)))
  {
    var clean := Cleaned(s, retention);
    Authority.RequestSucceeds(clean, request);
    RequestOpens(clean, request);
    if request.orderId == s.refunds[request.refundId].orderId {
      ListedTwice(RefundIds(s, request.orderId), request.refundId);
    }
  }

  lemma RequestOpens(s: State, request: Step)
    requires request.Initiate? && Call(s, request).Ok?
    ensures var s' := Apply(s, request);
      && StatusOf(s', request.refundId) == Some(Pending) && s'.payouts == s.payouts
      && RefundIds(s', request.orderId) == RefundIds(s, request.orderId) + [request.refundId]
  {
    StepEffect(s, request);
  }

  lemma ListedTwice(ids: seq<Id>, id: Id)
    requires id in ids
    ensures !Distinct(ids + [id])
  {
    var k :| 0 <= k < |ids| && ids[k] == id;
    var longer := ids + [id];
    assert longer[k] == longer[|ids|];
  }

  /** Approved and executed in its second life, the refund has been paid twice, without any dispute. */
  lemma PaidInBothLives(s: State, id: Id, step: Step)
    requires HasPayout(s.payouts, id) && step.Execute? && step.refundId == id && Call(s, step).Ok?
    ensures !PaidOnce(Apply(s, step).payouts, id)
  {
    StepEffect(s, step);
    var p :| p in s.payouts && p.refundId == id;
    var i :| 0 <= i < |s.payouts| && s.payouts[i] == p;
    var after := Apply(s, step).payouts;
    assert after[i] == p && after[|s.payouts|].refundId == id;
  }

  datatype Event = Do(step: Step) | Purge(retention: nat)

  function After(s: State, events: seq<Event>): State {
    if events == [] then s
    else
      var mid := After(s, events[..|events| - 1]);
      match events[|events| - 1]
      case Do(step) => Apply(mid, step)
      case Purge(retention) => Cleaned(mid, retention)
  }

  /** With purges anywhere in the run, balances still are what payments and refund transfers
      made them, and the supply of each token is constant. */
  lemma {:induction false} BalancedWithPurges(settings: Settings, now: nat, start: Balances, events: seq<Event>, t: Address, a: Address)
    ensures Conservation.Balanced(After(Init(settings, now, start), events), start, t, a)
  {
    var init := Init(settings, now, start);
    if events == [] {
      assert Run(init, []) == init;
      Conservation.RunBalanced(settings, now, start, [], t, a);
    } else {
      var mid := After(init, events[..|events| - 1]);
      BalancedWithPurges(settings, now, start, events[..|events| - 1], t, a);
      match events[|events| - 1]
      case Do(step) =>
        if Call(mid, step).Ok? {
          Conservation.StepBalanced(mid, step, start, t, a);
        }
      case Purge(_) =>
    }
  }
}
