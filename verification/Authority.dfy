/** Who may do what: whose signature stands behind every loss of tokens and every
    change of a refund, and the limits no run exceeds. */
module Authority {
  import opened Common
  import opened Token
  import opened Contract
  import opened RefundSafety
  import opened RefundTheorems

  function Signers(step: Step): set<Address> {
    match step
    case Configure(_) => {}
    case Advance(_) => {}
    case _ => step.signers
  }

  // ── Refunds ───────────────────────────────────────────────────────────────

  /** Who can bring a refund from one status to another, and under what conditions. */
  predicate Authorised(s: State, step: Step, id: Id, to: RefundStatus) {
    !s.settings.paused && match to
    case Pending =>
      && step.Initiate? && step.refundId == id && id !in s.refunds && step.caller in step.signers
      && step.orderId in s.payments && MayRequest(s, s.payments[step.orderId], step.caller, step.orderId, step.amount)
    case Approved => step.Approve? && step.refundId == id && MayDecide(s, step.signers, step.caller, id)
    case Rejected => step.Reject? && step.refundId == id && MayDecide(s, step.signers, step.caller, id)
    case Completed =>
      || (step.Execute? && step.refundId == id && StatusOf(s, id) == Some(Approved)
          && MerchantOf(s, id).Some? && MerchantOf(s, id).value in step.signers)
      || (step.Resolve? && step.force && MaySettle(s, step.signers, step.caller, step.disputeId, id))
  }

  /** The payer or the merchant asks, in time, for at least the minimum and at most what
      has not been paid back, and not too often. */
  predicate MayRequest(s: State, p: Payment, caller: Address, orderId: Id, amount: int) {
    && (caller == p.payer || caller == p.merchant) && s.now <= p.paidAt + s.settings.refundWindow
    && amount > 0 && s.settings.minRefund <= amount <= p.amount - p.refunded
    && |RefundIds(s, orderId)| < 10
  }

  function MerchantOf(s: State, id: Id): Option<Address> {
    if id in s.refunds && s.refunds[id].orderId in s.payments then Some(s.payments[s.refunds[id].orderId].merchant) else None
  }

  /** The admin or the merchant decides, once. */
  predicate MayDecide(s: State, signers: set<Address>, caller: Address, id: Id) {
    && caller in signers && StatusOf(s, id) == Some(Pending)
    && (s.settings.admin == Some(caller) || MerchantOf(s, id) == Some(caller))
  }

  /** The admin settles an open dispute over the refund. */
  predicate MaySettle(s: State, signers: set<Address>, caller: Address, disputeId: Id, id: Id) {
    && caller in signers && s.settings.admin == Some(caller)
    && disputeId in s.disputes && !s.disputes[disputeId].resolved && s.disputes[disputeId].refundId == id
  }

  lemma InitiatesOwn(s: State, step: Step)
    requires step.Initiate? && Call(s, step).Ok?
    ensures Authorised(s, step, step.refundId, Pending)
  {
  }

  lemma DecidesOwn(s: State, step: Step)
    requires (step.Approve? || step.Reject?) && Call(s, step).Ok?
    ensures Authorised(s, step, step.refundId, if step.Approve? then Approved else Rejected)
  {
  }

  lemma SettlesOwn(s: State, step: Step)
    requires step.Resolve? && Call(s, step).Ok?
    ensures !s.settings.paused && step.disputeId in s.disputes
    ensures MaySettle(s, step.signers, step.caller, step.disputeId, s.disputes[step.disputeId].refundId)
  {
  }

  lemma ExecutesOwn(s: State, step: Step)
    requires step.Execute? && Call(s, step).Ok?
    ensures Authorised(s, step, step.refundId, RefundStatus.Completed)
  {
  }

  lemma EffectsAreAuthorised(s: State, step: Step)
    ensures match EffectOf(s, step)
            case Quiet => true
            case Opened(id, _) => Authorised(s, step, id, Pending)
            case Decided(id, decision) => Authorised(s, step, id, decision)
            case Settled(id, _) => Authorised(s, step, id, RefundStatus.Completed)
  {
    match EffectOf(s, step)
    case Opened(_, _) => InitiatesOwn(s, step);
    case Decided(_, _) => DecidesOwn(s, step);
    case Settled(_, dispute) =>
      if dispute.None? {
        ExecutesOwn(s, step);
      } else {
        SettlesOwn(s, step);
      }
    case Quiet =>
  }

  lemma EffectShows(s: State, s': State, e: Effect, id: Id)
    requires Effected(s, s', e) && StatusOf(s', id) != StatusOf(s, id)
    ensures !e.Quiet? && e.id == id && id in s'.refunds
    ensures s'.refunds[id].status == match e case Opened(_, _) => Pending case Decided(_, d) => d case _ => RefundStatus.Completed
  {
  }

  /** Whatever the call, a refund changes its status only with this authority. */
  lemma ChangesAreAuthorised(s: State, step: Step, id: Id)
    requires Inv(s) && StatusOf(Apply(s, step), id) != StatusOf(s, id)
    ensures id in Apply(s, step).refunds && Authorised(s, step, id, Apply(s, step).refunds[id].status)
  {
    StepEffect(s, step);
    EffectShows(s, Apply(s, step), EffectOf(s, step), id);
    EffectsAreAuthorised(s, step);
  }

  /** Conversely, an authorised request with a well-formed id succeeds, clocks and amounts in range. */
  lemma RequestSucceeds(s: State, step: Step)
    requires step.Initiate? && Authorised(s, step, step.refundId, Pending) && ValidId(step.refundId).Pass?
    requires s.payments[step.orderId].amount <= I128_MAX && s.payments[step.orderId].paidAt + s.settings.refundWindow <= U64_MAX
    ensures Call(s, step).Ok?
  {
  }

  lemma DecisionSucceeds(s: State, step: Step)
    requires Inv(s) && (step.Approve? || step.Reject?) && !s.settings.paused && MayDecide(s, step.signers, step.caller, step.refundId)
    ensures Call(s, step).Ok?
  {
  }

  // ── Tokens ────────────────────────────────────────────────────────────────

  lemma TransferGains(b: Balances, token: Address, from: Address, to: Address, amount: int, t: Address, a: Address)
    requires Transfer(b, token, from, to, amount).Ok? && a != from
    ensures Balance(Transfer(b, token, from, to, amount).value, t, a) >= Balance(b, t, a)
  {
    TransferFlow(b, token, from, to, amount, t, a);
  }

  lemma {:induction false} PayGroupsGains(b: Balances, payer: Address, groups: seq<Group>, t: Address, a: Address)
    requires PayGroups(b, payer, groups).Ok? && a != payer
    ensures Balance(PayGroups(b, payer, groups).value, t, a) >= Balance(b, t, a)
  {
    if groups != [] {
      var init, g := groups[..|groups| - 1], groups[|groups| - 1];
      PayGroupsGains(b, payer, init, t, a);
      TransferGains(PayGroups(b, payer, init).value, g.token, payer, g.merchant, g.total, t, a);
    }
  }

  lemma {:induction false} RecordAllMovesNothing(s: State, payer: Address, items: seq<BatchItem>)
    requires RecordAll(s, payer, items).Ok?
    ensures RecordAll(s, payer, items).value.balances == s.balances
  {
    if items != [] {
      RecordAllMovesNothing(s, payer, items[..|items| - 1]);
    }
  }

  lemma ChargeGains(s: State, payer: Address, orderId: Id, merchant: Address, token: Address, amount: int, t: Address, a: Address)
    requires Charge(s, payer, orderId, merchant, token, amount).Ok? && a != payer
    ensures Balance(Charge(s, payer, orderId, merchant, token, amount).value.0, t, a) >= Balance(s.balances, t, a)
  {
    var fee := Fee(s.settings, amount).value;
    var net := Transfer(s.balances, token, payer, merchant, amount - fee);
    TransferGains(s.balances, token, payer, merchant, amount - fee, t, a);
    if fee > 0 && s.settings.feeRecipient.Some? {
      TransferGains(net.value, token, payer, s.settings.feeRecipient.value, fee, t, a);
    }
  }

  lemma PayOutGains(s: State, id: Id, dispute: Option<Id>, t: Address, a: Address)
    requires id in s.refunds && s.refunds[id].orderId in s.payments && PayOut(s, id, dispute).Ok?
    requires a != s.payments[s.refunds[id].orderId].merchant
    ensures Balance(PayOut(s, id, dispute).value.balances, t, a) >= Balance(s.balances, t, a)
  {
    var p := s.payments[s.refunds[id].orderId];
    TransferGains(s.balances, p.token, p.merchant, p.payer, s.refunds[id].amount, t, a);
  }

  /** The admin may take a refund from the merchant of a disputed payment. */
  predicate ForcedFrom(s: State, step: Step, a: Address) {
    && step.Resolve? && step.force && step.disputeId in s.disputes
    && MaySettle(s, step.signers, step.caller, step.disputeId, s.disputes[step.disputeId].refundId)
    && MerchantOf(s, s.disputes[step.disputeId].refundId) == Some(a)
  }

  lemma PayDebits(s: State, step: Step, t: Address, a: Address)
    requires step.Pay? && Call(s, step).Ok? && a != step.payer
    ensures Balance(Call(s, step).value.balances, t, a) >= Balance(s.balances, t, a)
  {
    var b, e, fee := PayIsRecord(s, step);
    ChargeGains(s, step.payer, step.orderId, step.merchant, step.token, step.amount, t, a);
  }

  lemma BatchDebits(s: State, step: Step, t: Address, a: Address)
    requires step.Batch? && Call(s, step).Ok? && a != step.payer
    ensures Balance(Call(s, step).value.balances, t, a) >= Balance(s.balances, t, a)
  {
    var groups := GroupItems(step.items).value;
    PayGroupsGains(s.balances, step.payer, groups, t, a);
    RecordAllMovesNothing(s.(balances := PayGroups(s.balances, step.payer, groups).value), step.payer, step.items);
  }

  lemma ResolveDebits(s: State, step: Step, t: Address, a: Address)
    requires step.Resolve? && Call(s, step).Ok? && !ForcedFrom(s, step, a)
    ensures Balance(Call(s, step).value.balances, t, a) >= Balance(s.balances, t, a)
  {
    ResolveIsPayOut(s, step);
    SettlesOwn(s, step);
    var d := step.disputeId;
    if step.force {
      PayOutGains(s.(disputes := s.disputes[d := s.disputes[d].(resolved := true, forced := true)]), s.disputes[d].refundId, Some(d), t, a);
    }
  }

  /** Nobody loses tokens without having signed the call, except a merchant from whom
      the admin takes a refund in settling a dispute. */
  lemma DebitsAreSigned(s: State, step: Step, t: Address, a: Address)
    requires Balance(Apply(s, step).balances, t, a) < Balance(s.balances, t, a)
    ensures a in Signers(step) || ForcedFrom(s, step, a)
  {
    if !WritesBooks(step) {
      SilentStep(s, step);
    } else if step.Pay? {
      if a != step.payer {
        PayDebits(s, step, t, a);
      }
    } else if step.Batch? {
      if a != step.payer {
        BatchDebits(s, step, t, a);
      }
    } else if step.Execute? {
      ExecutesOwn(s, step);
      if a != MerchantOf(s, step.refundId).value {
        PayOutGains(s, step.refundId, None, t, a);
      }
    } else if !ForcedFrom(s, step, a) {
      ResolveDebits(s, step, t, a);
    }
  }

  // ── Limits ────────────────────────────────────────────────────────────────

  ghost predicate Short<K(!new)>(lists: map<K, seq<Id>>, limit: nat) {
    forall k :: k in lists ==> |lists[k]| <= limit
  }

  /** No order has too many refunds and no account too long a history. */
  ghost predicate WithinLimits(s: State) {
    && Short(s.orderRefunds, 10)
    && Short(s.payerIndex, 10_000) && Short(s.merchantIndex, 10_000)
  }

  lemma RecordWithinLimits(s: State, e: PaidEvent, fee: int)
    requires WithinLimits(s) && RecordPayment(s, e, fee).Ok?
    ensures WithinLimits(RecordPayment(s, e, fee).value)
  {
  }

  lemma {:induction false} RecordAllWithinLimits(s: State, payer: Address, items: seq<BatchItem>)
    requires WithinLimits(s) && RecordAll(s, payer, items).Ok?
    ensures WithinLimits(RecordAll(s, payer, items).value)
  {
    if items != [] {
      RecordAllWithinLimits(s, payer, items[..|items| - 1]);
      RecordWithinLimits(RecordAll(s, payer, items[..|items| - 1]).value, BatchEvent(payer, items[|items| - 1]), 0);
    }
  }

  lemma RequestWithinLimits(s: State, step: Step)
    requires WithinLimits(s) && step.Initiate? && Call(s, step).Ok?
    ensures WithinLimits(Call(s, step).value)
  {
  }

  lemma ListsStay(s: State, step: Step)
    requires !step.Pay? && !step.Batch? && !step.Initiate? && Call(s, step).Ok?
    ensures var s' := Call(s, step).value;
      s'.orderRefunds == s.orderRefunds && s'.payerIndex == s.payerIndex && s'.merchantIndex == s.merchantIndex
  {
    if step.Resolve? {
      ResolveIsPayOut(s, step);
    }
  }

  lemma StepWithinLimits(s: State, step: Step)
    requires WithinLimits(s) && Call(s, step).Ok?
    ensures WithinLimits(Call(s, step).value)
  {
    if step.Pay? {
      var b, e, fee := PayIsRecord(s, step);
      RecordWithinLimits(s.(balances := b), e, fee);
    } else if step.Batch? {
      RecordAllWithinLimits(s.(balances := PayGroups(s.balances, step.payer, GroupItems(step.items).value).value), step.payer, step.items);
    } else if step.Initiate? {
      RequestWithinLimits(s, step);
    } else {
      ListsStay(s, step);
    }
  }

  lemma {:induction false} RunWithinLimits(settings: Settings, now: nat, balances: Balances, steps: seq<Step>)
    ensures WithinLimits(Run(Init(settings, now, balances), steps))
  {
    if steps != [] {
      RunWithinLimits(settings, now, balances, steps[..|steps| - 1]);
      var mid := Run(Init(settings, now, balances), steps[..|steps| - 1]);
      if Call(mid, steps[|steps| - 1]).Ok? {
        StepWithinLimits(mid, steps[|steps| - 1]);
      }
    }
  }
}
