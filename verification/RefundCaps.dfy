/** Two caps on the refunds of a payment: on what is asked for, and on what is paid. */
module RefundCaps {
  import opened Common
  import opened Token
  import opened Contract
  import opened RefundSafety
  import opened RefundTheorems

  // ── The cap on committed refunds ──────────────────────────────────────────

  /** Each order's pending, approved and completed refunds fit into its payment. */
  ghost predicate Capped(s: State) {
    forall o :: o in s.payments ==> Committed(s, o) <= s.payments[o].amount
  }

  /** The order and amount an effect newly commits: a new request, or a rejected refund that is paid after all. */
  function Commits(s: State, e: Effect): Option<(Id, int)> {
    match e
    case Opened(_, r) => Some((r.orderId, r.amount))
    case Settled(id, _) =>
      if id in s.refunds && s.refunds[id].status == Rejected then Some((s.refunds[id].orderId, s.refunds[id].amount)) else None
    case _ => None
  }

  /** What the call would commit, as far as the state and its arguments tell. */
  function Asks(s: State, step: Step): Option<(Id, int)> {
    match step
    case Initiate(_, _, _, orderId, amount) => Some((orderId, amount))
    case Resolve(_, _, d, _, force) =>
      if force && d in s.disputes && StatusOf(s, s.disputes[d].refundId) == Some(Rejected) then
        var refund := s.refunds[s.disputes[d].refundId];
        Some((refund.orderId, refund.amount))
      else None
    case _ => None
  }

  /** There is room for what the call would commit; a caller can check this beforehand. */
  predicate Room(s: State, step: Step) {
    var c := Asks(s, step);
    c.Some? && c.value.0 in s.payments ==> Committed(s, c.value.0) + c.value.1 <= s.payments[c.value.0].amount
  }

  lemma AsksIsCommits(s: State, step: Step)
    requires Call(s, step).Ok?
    ensures Asks(s, step) == Commits(s, EffectOf(s, step))
  {
  }

  /** Only an approved refund, or one that a dispute brought back, is ever paid. */
  lemma SettledWas(s: State, s': State, e: Effect)
    requires Disputed(s.disputes, s.refunds, s.payouts) && Effected(s, s', e) && e.Settled?
    ensures s.refunds[e.id].status != Pending
  {
  }

  lemma CommittedAfter(s: State, s': State, e: Effect, o: Id)
    requires Indexed(s.refunds, s.orderRefunds) && Backed(s.refunds, s.payments) && Effected(s, s', e)
    requires e.Settled? ==> s.refunds[e.id].status != Pending
    ensures var c := Commits(s, e);
            && (c.Some? ==> c.value.0 in s.payments)
            && (c.Some? && c.value.0 == o ==> Committed(s', o) == Committed(s, o) + c.value.1)
            && (c.None? || c.value.0 != o ==> Committed(s', o) <= Committed(s, o))
  {
    SumAfter(s, s', e, o, COMMITTED);
  }

  lemma UncommittedStaysCapped(s: State, s': State, e: Effect, o: Id)
    requires Inv(s) && Capped(s) && Effected(s, s', e) && o in s'.payments && s'.payments[o].amount > 0
    requires Commits(s, e).None? || Commits(s, e).value.0 != o
    ensures Committed(s', o) <= s'.payments[o].amount
  {
    if e.Settled? {
      SettledWas(s, s', e);
    }
    CommittedAfter(s, s', e, o);
    if o in s.payments {
      AmountStays(s, s', e, o);
    } else {
      NoRefundsYet(s, o, COMMITTED);
    }
  }

  lemma EffectCappedIff(s: State, s': State, e: Effect)
    requires Inv(s) && Capped(s) && Effected(s, s', e)
    requires forall o :: o in s'.payments ==> s'.payments[o].amount > 0
    ensures var c := Commits(s, e);
            Capped(s') <==> (c.Some? && c.value.0 in s.payments ==> Committed(s, c.value.0) + c.value.1 <= s.payments[c.value.0].amount)
  {
    var c := Commits(s, e);
    forall o | o in s'.payments && !(c.Some? && c.value.0 == o)
      ensures Committed(s', o) <= s'.payments[o].amount
    {
      UncommittedStaysCapped(s, s', e, o);
    }
    if c.Some? {
      if e.Settled? {
        SettledWas(s, s', e);
      }
      CommittedAfter(s, s', e, c.value.0);
      AmountStays(s, s', e, c.value.0);
    }
  }

  /** A call keeps every order within its payment exactly when it is refused or there was
      room for what it commits. */
  lemma StepCappedIff(s: State, step: Step)
    requires Inv(s) && Capped(s)
    ensures Capped(Apply(s, step)) <==> (Call(s, step).Ok? ==> Room(s, step))
  {
    if Call(s, step).Ok? {
      StepEffect(s, step);
      StepKeepsInv(s, step);
      EffectCappedIff(s, Apply(s, step), EffectOf(s, step));
      AsksIsCommits(s, step);
    }
  }

  ghost predicate AlwaysCapped(s: State, steps: seq<Step>)
    decreases |steps|
  {
    Capped(Run(s, steps)) && (steps != [] ==> AlwaysCapped(s, steps[..|steps| - 1]))
  }

  ghost predicate AlwaysRoom(s: State, steps: seq<Step>)
    decreases |steps|
  {
    steps != [] ==>
      && AlwaysRoom(s, steps[..|steps| - 1])
      && var mid := Run(s, steps[..|steps| - 1]);
         Call(mid, steps[|steps| - 1]).Ok? ==> Room(mid, steps[|steps| - 1])
  }

  /** Over a whole run: no order is ever over-committed if and only if every
      accepted call that committed an amount had room for it. */
  lemma {:induction false} RunCappedIff(s: State, steps: seq<Step>)
    requires Inv(s) && Capped(s)
    ensures AlwaysCapped(s, steps) <==> AlwaysRoom(s, steps)
  {
    if steps != [] {
      var before, last := steps[..|steps| - 1], steps[|steps| - 1];
      RunCappedIff(s, before);
      RunKeepsInv(s, before);
      if AlwaysCapped(s, before) {
        StepCappedIff(Run(s, before), last);
      }
    }
  }

  lemma {:induction false} SumOfMonotone(refunds: map<Id, Refund>, ids: seq<Id>, some: set<RefundStatus>, more: set<RefundStatus>)
    requires some <= more && forall id :: id in refunds ==> refunds[id].amount > 0
    ensures SumOf(refunds, ids, some) <= SumOf(refunds, ids, more)
  {
    if ids != [] {
      SumOfMonotone(refunds, ids[..|ids| - 1], some, more);
    }
  }

  /** Room for every commitment is enough for an order none of whose refunds was paid twice. */
  lemma RoomIsEnough(settings: Settings, now: nat, balances: Balances, steps: seq<Step>, o: Id)
    requires var s := Run(Init(settings, now, balances), steps); o in s.payments && OnceForOrder(s.payouts, o)
    requires AlwaysRoom(Init(settings, now, balances), steps)
    ensures var s := Run(Init(settings, now, balances), steps); s.payments[o].refunded <= s.payments[o].amount
  {
    var init := Init(settings, now, balances);
    var s := Run(init, steps);
    InitInv(settings, now, balances);
    RunCappedIff(init, steps);
    RunKeepsInv(init, steps);
    RefundTotals(settings, now, balances, steps, o);
    SumOfMonotone(s.refunds, RefundIds(s, o), {RefundStatus.Completed}, COMMITTED);
  }

  // ── Refunded at most what was paid ────────────────────────────────────────

  /** No payment is refunded beyond its amount. */
  ghost predicate Within(s: State) {
    forall o :: o in s.payments ==> s.payments[o].refunded <= s.payments[o].amount
  }

  /** The refund the call would pay, as far as the state and its arguments tell. */
  function Pays(s: State, step: Step): Option<Id> {
    match step
    case Execute(_, id) => Some(id)
    case Resolve(_, _, d, _, force) => if force && d in s.disputes then Some(s.disputes[d].refundId) else None
    case _ => None
  }

  /** What the call would pay still fits into the payment: the guard that neither
      `execute_refund` nor `resolve_dispute` has. A caller can check it beforehand. */
  predicate Fits(s: State, step: Step) {
    var id := Pays(s, step);
    id.Some? && id.value in s.refunds && s.refunds[id.value].orderId in s.payments ==>
      var p := s.payments[s.refunds[id.value].orderId];
      p.refunded + s.refunds[id.value].amount <= p.amount
  }

  lemma PaysIsSettled(s: State, step: Step)
    requires Call(s, step).Ok?
    ensures Pays(s, step) == if EffectOf(s, step).Settled? then Some(EffectOf(s, step).id) else None
  {
  }

  /** A new payment has nothing refunded yet. */
  lemma NewPaymentsWithin(s: State, s': State)
    requires Booked(s.payments, s.payouts) && Booked(s'.payments, s'.payouts) && Effected(s, s', Quiet) && Within(s)
    ensures Within(s')
  {
    forall o | o in s'.payments && o !in s.payments ensures s'.payments[o].refunded == 0 {
      NothingPaidOut(s.payouts, o);
    }
  }

  /** Refund totals only grow, so a payment refunded beyond its amount stays so. */
  lemma EffectStaysBeyond(s: State, s': State, e: Effect)
    requires Backed(s.refunds, s.payments) && Effected(s, s', e) && !Within(s)
    ensures !Within(s')
  {
    var o :| o in s.payments && s.payments[o].refunded > s.payments[o].amount;
    assert s'.payments[o].refunded > s'.payments[o].amount;
  }

  lemma SettledWithinIff(s: State, s': State, e: Effect)
    requires Within(s) && Effected(s, s', e) && e.Settled?
    ensures var p := s.payments[s.refunds[e.id].orderId];
            Within(s') <==> p.refunded + s.refunds[e.id].amount <= p.amount
  {
    assert s.refunds[e.id].orderId in s'.payments;
  }

  /** A call keeps every refund total within its payment exactly when it is refused or what
      it pays fits. */
  lemma StepWithinIff(s: State, step: Step)
    requires Inv(s) && Within(s)
    ensures Within(Apply(s, step)) <==> (Call(s, step).Ok? ==> Fits(s, step))
  {
    if Call(s, step).Ok? {
      StepEffect(s, step);
      PaysIsSettled(s, step);
      if EffectOf(s, step).Settled? {
        SettledWithinIff(s, Apply(s, step), EffectOf(s, step));
      } else if EffectOf(s, step).Quiet? {
        StepKeepsInv(s, step);
        NewPaymentsWithin(s, Apply(s, step));
      }
    }
  }

  /** Every accepted call of the run that paid a refund found it to fit. */
  ghost predicate AlwaysFits(s: State, steps: seq<Step>)
    decreases |steps|
  {
    steps != [] ==>
      && AlwaysFits(s, steps[..|steps| - 1])
      && var mid := Run(s, steps[..|steps| - 1]);
         Call(mid, steps[|steps| - 1]).Ok? ==> Fits(mid, steps[|steps| - 1])
  }

  lemma {:induction false} RunWithinIff(s: State, steps: seq<Step>)
    requires Inv(s) && Within(s)
    ensures Within(Run(s, steps)) <==> AlwaysFits(s, steps)
  {
    if steps != [] {
      var before, last := steps[..|steps| - 1], steps[|steps| - 1];
      var mid := Run(s, before);
      RunWithinIff(s, before);
      RunKeepsInv(s, before);
      if Within(mid) {
        StepWithinIff(mid, last);
      } else {
        StepEffect(mid, last);
        EffectStaysBeyond(mid, Run(s, steps), EffectOf(mid, last));
      }
    }
  }

  /** After any run from an empty contract, no payment is refunded beyond its amount if and
      only if every accepted call that paid a refund found it to fit. */
  lemma NeverOverRefunded(settings: Settings, now: nat, balances: Balances, steps: seq<Step>)
    ensures Within(Run(Init(settings, now, balances), steps)) <==> AlwaysFits(Init(settings, now, balances), steps)
  {
    InitInv(settings, now, balances);
    RunWithinIff(Init(settings, now, balances), steps);
  }
}
