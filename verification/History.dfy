/** Payment histories and statistics: each payer's and each merchant's index lists
    exactly their own payments, and the saturating counters equal the true sums
    cut at the largest 128-bit integer. */
module History {
  import opened Common
  import opened Token
  import opened Contract
  import opened RefundSafety
  import opened Conservation
  import PaymentRules

  datatype Side = Payer | Merchant

  function Party(e: PaidEvent, side: Side): Address {
    if side.Payer? then e.payer else e.merchant
  }

  function IndexOf(s: State, side: Side, who: Address): seq<Id> {
    if side.Payer? then Index(s.payerIndex, who) else Index(s.merchantIndex, who)
  }

  /** The orders of the payments in which `who` had the given side, oldest first. */
  function OrdersOf(paid: seq<PaidEvent>, side: Side, who: Address): seq<Id> {
    if paid == [] then []
    else
      var last := paid[|paid| - 1];
      OrdersOf(paid[..|paid| - 1], side, who) + if Party(last, side) == who then [last.orderId] else []
  }

  function Occurrences(ids: seq<Id>, id: Id): nat {
    if ids == [] then 0 else Occurrences(ids[..|ids| - 1], id) + if ids[|ids| - 1] == id then 1 else 0
  }

  /** The amounts of all payments, or of those to one merchant. */
  function Volume(paid: seq<PaidEvent>, merchant: Option<Address>): int {
    if paid == [] then 0
    else
      var last := paid[|paid| - 1];
      Volume(paid[..|paid| - 1], merchant) + if merchant.None? || merchant.value == last.merchant then last.amount else 0
  }

  function Received(paid: seq<PaidEvent>, merchant: Address): int {
    if paid == [] then 0
    else
      var last := paid[|paid| - 1];
      Received(paid[..|paid| - 1], merchant) + if last.merchant == merchant then last.net else 0
  }

  function RefundVolume(payouts: seq<Payout>): int {
    if payouts == [] then 0 else RefundVolume(payouts[..|payouts| - 1]) + payouts[|payouts| - 1].amount
  }

  ghost predicate Listed(s: State) {
    forall side: Side, who: Address :: IndexOf(s, side, who) == OrdersOf(s.paid, side, who)
  }

  ghost predicate Counted(s: State) {
    && s.globalStats.totalPayments == |s.paid|
    && s.globalStats.totalVolume == Min(Volume(s.paid, None), I128_MAX)
    && s.globalStats.totalRefunds == |s.payouts|
    && s.globalStats.totalRefundVolume == Min(RefundVolume(s.payouts), I128_MAX)
    && (forall m :: Lookup(s.merchantStats, m, NO_STATS).totalVolume == Min(Volume(s.paid, Some(m)), I128_MAX))
    && (forall m :: Lookup(s.received, m, 0) == Received(s.paid, m))
  }

  lemma OrdersGrow(paid: seq<PaidEvent>, e: PaidEvent, side: Side, who: Address)
    ensures OrdersOf(paid + [e], side, who) == OrdersOf(paid, side, who) + if Party(e, side) == who then [e.orderId] else []
  {
    assert (paid + [e])[..|paid|] == paid;
  }

  lemma RecordLists(s: State, e: PaidEvent, fee: int, side: Side, who: Address)
    requires IndexOf(s, side, who) == OrdersOf(s.paid, side, who) && RecordPayment(s, e, fee).Ok?
    ensures var s' := RecordPayment(s, e, fee).value; IndexOf(s', side, who) == OrdersOf(s'.paid, side, who)
  {
    PaymentRules.RecordWrites(s, e, fee);
    OrdersGrow(s.paid, e, side, who);
    hide RecordPayment, OrdersOf;
  }

  lemma RecordListed(s: State, e: PaidEvent, fee: int)
    requires Listed(s) && RecordPayment(s, e, fee).Ok?
    ensures Listed(RecordPayment(s, e, fee).value)
  {
    hide RecordPayment, OrdersOf, IndexOf;
    forall side: Side, who: Address
      ensures var s' := RecordPayment(s, e, fee).value; IndexOf(s', side, who) == OrdersOf(s'.paid, side, who)
    {
      RecordLists(s, e, fee, side, who);
    }
  }

  lemma RecordCounted(s: State, e: PaidEvent, fee: int)
    requires Counted(s) && e.amount > 0 && RecordPayment(s, e, fee).Ok?
    ensures Counted(RecordPayment(s, e, fee).value)
  {
    var s' := RecordPayment(s, e, fee).value;
    assert s'.paid[..|s'.paid| - 1] == s.paid;
  }

  lemma {:induction false} RecordAllListed(s: State, payer: Address, items: seq<BatchItem>)
    requires Listed(s) && Counted(s) && RecordAll(s, payer, items).Ok?
    requires forall k :: 0 <= k < |items| ==> items[k].amount > 0
    ensures Listed(RecordAll(s, payer, items).value) && Counted(RecordAll(s, payer, items).value)
  {
    if items != [] {
      RecordAllListed(s, payer, items[..|items| - 1]);
      var mid := RecordAll(s, payer, items[..|items| - 1]).value;
      RecordListed(mid, BatchEvent(payer, items[|items| - 1]), 0);
      RecordCounted(mid, BatchEvent(payer, items[|items| - 1]), 0);
    }
  }

  lemma PayListed(s: State, step: Step)
    requires Listed(s) && Counted(s) && step.Pay? && Call(s, step).Ok?
    ensures Listed(Call(s, step).value) && Counted(Call(s, step).value)
  {
    var b, e, fee := PayIsRecord(s, step);
    RecordListed(s.(balances := b), e, fee);
    RecordCounted(s.(balances := b), e, fee);
  }

  lemma BatchListed(s: State, step: Step)
    requires Listed(s) && Counted(s) && step.Batch? && Call(s, step).Ok?
    ensures Listed(Call(s, step).value) && Counted(Call(s, step).value)
  {
    CheckedItems(s, step.items, 0);
    RecordAllListed(s.(balances := PayGroups(s.balances, step.payer, GroupItems(step.items).value).value), step.payer, step.items);
  }

  lemma PayOutListed(s: State, id: Id, dispute: Option<Id>)
    requires Listed(s) && Counted(s) && Backed(s.refunds, s.payments) && id in s.refunds && PayOut(s, id, dispute).Ok?
    ensures Listed(PayOut(s, id, dispute).value) && Counted(PayOut(s, id, dispute).value)
  {
    var s' := PayOut(s, id, dispute).value;
    assert s'.payouts[..|s'.payouts| - 1] == s.payouts;
    forall side: Side, who: Address ensures IndexOf(s', side, who) == OrdersOf(s'.paid, side, who) {
      assert IndexOf(s, side, who) == OrdersOf(s.paid, side, who);
    }
  }

  /** Steps that write neither payments nor transfers. */
  lemma OtherListed(s: State, s': State)
    requires Listed(s) && Counted(s)
    requires s'.paid == s.paid && s'.payouts == s.payouts && s'.payerIndex == s.payerIndex && s'.merchantIndex == s.merchantIndex
    requires s'.globalStats == s.globalStats && s'.merchantStats == s.merchantStats && s'.received == s.received
    ensures Listed(s') && Counted(s')
  {
    forall side: Side, who: Address ensures IndexOf(s', side, who) == OrdersOf(s'.paid, side, who) {
      assert IndexOf(s, side, who) == OrdersOf(s.paid, side, who);
    }
  }

  lemma ResolveListed(s: State, step: Step)
    requires Listed(s) && Counted(s) && Backed(s.refunds, s.payments) && step.Resolve? && Call(s, step).Ok?
    ensures Listed(Call(s, step).value) && Counted(Call(s, step).value)
  {
    ResolveIsPayOut(s, step);
    var d := step.disputeId;
    var settled := s.(disputes := s.disputes[d := s.disputes[d].(resolved := true, forced := step.force)]);
    OtherListed(s, settled);
    if step.force {
      PayOutListed(settled, s.disputes[d].refundId, Some(d));
    }
  }

  lemma StepListed(s: State, step: Step)
    requires Backed(s.refunds, s.payments) && Listed(s) && Counted(s) && Call(s, step).Ok?
    ensures Listed(Call(s, step).value) && Counted(Call(s, step).value)
  {
    if !WritesBooks(step) {
      SilentStep(s, step);
      OtherListed(s, Call(s, step).value);
    } else if step.Pay? {
      PayListed(s, step);
    } else if step.Batch? {
      BatchListed(s, step);
    } else if step.Execute? {
      PayOutListed(s, step.refundId, None);
    } else {
      ResolveListed(s, step);
    }
  }

  /** In every reachable state the indexes list exactly the payments of each
      account, in order, and the statistics equal the true totals, saturated. */
  lemma {:induction false} RunListed(settings: Settings, now: nat, start: Balances, steps: seq<Step>)
    ensures Listed(Run(Init(settings, now, start), steps)) && Counted(Run(Init(settings, now, start), steps))
  {
    if steps != [] {
      var before := steps[..|steps| - 1];
      RunListed(settings, now, start, before);
      InitInv(settings, now, start);
      RunKeepsInv(Init(settings, now, start), before);
      if Call(Run(Init(settings, now, start), before), steps[|steps| - 1]).Ok? {
        StepListed(Run(Init(settings, now, start), before), steps[|steps| - 1]);
      }
    }
  }

  // ── Statistics by merchant ────────────────────────────────────────────────

  /** The refund transfers on payments to one merchant. */
  function PaidBackBy(payments: map<Id, Payment>, payouts: seq<Payout>, merchant: Address): seq<Payout> {
    if payouts == [] then []
    else
      var last := payouts[|payouts| - 1];
      PaidBackBy(payments, payouts[..|payouts| - 1], merchant)
      + if last.orderId in payments && payments[last.orderId].merchant == merchant then [last] else []
  }

  function TrueStats(payments: map<Id, Payment>, paid: seq<PaidEvent>, payouts: seq<Payout>, m: Address): Stats {
    var back := PaidBackBy(payments, payouts, m);
    Stats(|OrdersOf(paid, Merchant, m)|, Min(Volume(paid, Some(m)), I128_MAX), |back|, Min(RefundVolume(back), I128_MAX))
  }

  ghost predicate CountedByMerchant(s: State) {
    forall m :: Lookup(s.merchantStats, m, NO_STATS) == TrueStats(s.payments, s.paid, s.payouts, m)
  }

  /** Transfers are on stored payments. */
  ghost predicate OnPayments(payments: map<Id, Payment>, payouts: seq<Payout>) {
    forall i :: 0 <= i < |payouts| ==> payouts[i].orderId in payments
  }

  lemma {:induction false} PaidBackStays(before: map<Id, Payment>, after: map<Id, Payment>, payouts: seq<Payout>, m: Address)
    requires OnPayments(before, payouts)
    requires forall o :: o in before ==> o in after && after[o].merchant == before[o].merchant
    ensures PaidBackBy(after, payouts, m) == PaidBackBy(before, payouts, m)
  {
    if payouts != [] {
      PaidBackStays(before, after, payouts[..|payouts| - 1], m);
    }
  }

  lemma PaymentCounts(payments: map<Id, Payment>, paid: seq<PaidEvent>, payouts: seq<Payout>, e: PaidEvent, p: Payment, m: Address)
    requires OnPayments(payments, payouts) && e.orderId !in payments && e.amount > 0
    ensures TrueStats(payments[e.orderId := p], paid + [e], payouts, m)
         == if m == e.merchant then CountPayment(TrueStats(payments, paid, payouts, m), e.amount) else TrueStats(payments, paid, payouts, m)
  {
    assert (paid + [e])[..|paid|] == paid;
    PaidBackStays(payments, payments[e.orderId := p], payouts, m);
  }

  lemma TransferCounts(before: map<Id, Payment>, after: map<Id, Payment>, paid: seq<PaidEvent>, payouts: seq<Payout>, p: Payout, m: Address)
    requires OnPayments(before, payouts) && p.orderId in before && p.amount > 0
    requires forall o :: o in before ==> o in after && after[o].merchant == before[o].merchant
    ensures TrueStats(after, paid, payouts + [p], m)
         == if m == before[p.orderId].merchant then CountRefund(TrueStats(before, paid, payouts, m), p.amount) else TrueStats(before, paid, payouts, m)
  {
    assert (payouts + [p])[..|payouts|] == payouts;
    PaidBackStays(before, after, payouts, m);
    var back := PaidBackBy(before, payouts, m);
    assert (back + [p])[..|back|] == back;
    assert PaidBackBy(after, payouts + [p], m) == if m == before[p.orderId].merchant then back + [p] else back;
  }

  lemma RecordByMerchant(s: State, e: PaidEvent, fee: int)
    requires CountedByMerchant(s) && OnPayments(s.payments, s.payouts) && e.orderId !in s.payments && e.amount > 0
    requires RecordPayment(s, e, fee).Ok?
    ensures var s' := RecordPayment(s, e, fee).value; CountedByMerchant(s') && OnPayments(s'.payments, s'.payouts)
  {
    var s' := RecordPayment(s, e, fee).value;
    forall m ensures Lookup(s'.merchantStats, m, NO_STATS) == TrueStats(s'.payments, s'.paid, s'.payouts, m) {
      hide TrueStats;
      PaymentCounts(s.payments, s.paid, s.payouts, e, s'.payments[e.orderId], m);
    }
  }

  lemma {:induction false} RecordAllByMerchant(s: State, payer: Address, items: seq<BatchItem>)
    requires CountedByMerchant(s) && OnPayments(s.payments, s.payouts) && Fresh(s.payments, items) && RecordAll(s, payer, items).Ok?
    ensures var s' := RecordAll(s, payer, items).value; CountedByMerchant(s') && OnPayments(s'.payments, s'.payouts)
  {
    if items != [] {
      RecordAllByMerchant(s, payer, items[..|items| - 1]);
      RecordAllKeys(s, payer, items[..|items| - 1]);
      RecordByMerchant(RecordAll(s, payer, items[..|items| - 1]).value, BatchEvent(payer, items[|items| - 1]), 0);
    }
  }

  lemma PayOutByMerchant(s: State, id: Id, dispute: Option<Id>)
    requires CountedByMerchant(s) && OnPayments(s.payments, s.payouts)
    requires id in s.refunds && s.refunds[id].orderId in s.payments && PayOut(s, id, dispute).Ok? && s.refunds[id].amount > 0
    ensures var s' := PayOut(s, id, dispute).value; CountedByMerchant(s') && OnPayments(s'.payments, s'.payouts)
  {
    var s', r := PayOut(s, id, dispute).value, s.refunds[id];
    forall m ensures Lookup(s'.merchantStats, m, NO_STATS) == TrueStats(s'.payments, s'.paid, s'.payouts, m) {
      hide TrueStats, Transfer;
      TransferCounts(s.payments, s'.payments, s.paid, s.payouts, Payout(id, r.orderId, r.amount, dispute), m);
    }
  }

  lemma OtherByMerchant(s: State, s': State)
    requires CountedByMerchant(s) && OnPayments(s.payments, s.payouts)
    requires s'.paid == s.paid && s'.payouts == s.payouts && s'.payments == s.payments && s'.merchantStats == s.merchantStats
    ensures CountedByMerchant(s') && OnPayments(s'.payments, s'.payouts)
  {
    hide TrueStats;
  }

  lemma ResolveByMerchant(s: State, step: Step)
    requires Inv(s) && CountedByMerchant(s) && OnPayments(s.payments, s.payouts) && step.Resolve? && Call(s, step).Ok?
    ensures var s' := Call(s, step).value; CountedByMerchant(s') && OnPayments(s'.payments, s'.payouts)
  {
    assert Backed(s.refunds, s.payments);
    ResolveIsPayOut(s, step);
    var d := step.disputeId;
    var settled := s.(disputes := s.disputes[d := s.disputes[d].(resolved := true, forced := step.force)]);
    hide Call, Inv, PayOut;
    OtherByMerchant(s, settled);
    if step.force {
      PayOutByMerchant(settled, s.disputes[d].refundId, Some(d));
    }
  }

  lemma ExecuteByMerchant(s: State, step: Step)
    requires Inv(s) && CountedByMerchant(s) && OnPayments(s.payments, s.payouts) && step.Execute? && Call(s, step).Ok?
    ensures var s' := Call(s, step).value; CountedByMerchant(s') && OnPayments(s'.payments, s'.payouts)
  {
    assert Backed(s.refunds, s.payments);
    hide PayOut, CountedByMerchant, OnPayments;
    PayOutByMerchant(s, step.refundId, None);
  }

  lemma StepByMerchant(s: State, step: Step)
    requires Inv(s) && CountedByMerchant(s) && OnPayments(s.payments, s.payouts) && Call(s, step).Ok?
    ensures var s' := Call(s, step).value; CountedByMerchant(s') && OnPayments(s'.payments, s'.payouts)
  {
    if step.Execute? {
      ExecuteByMerchant(s, step);
    } else if step.Resolve? {
      ResolveByMerchant(s, step);
    } else if step.Pay? {
      var b, e, fee := PayIsRecord(s, step);
      OtherByMerchant(s, s.(balances := b));
      RecordByMerchant(s.(balances := b), e, fee);
    } else if step.Batch? {
      CheckedItems(s, step.items, 0);
      var paid := s.(balances := PayGroups(s.balances, step.payer, GroupItems(step.items).value).value);
      OtherByMerchant(s, paid);
      RecordAllByMerchant(paid, step.payer, step.items);
    } else {
      SilentStep(s, step);
      OtherByMerchant(s, Call(s, step).value);
    }
  }

  /** In every reachable state the statistics of each merchant count exactly the payments made
      to it and the refund transfers on those payments, volumes cut at the largest integer. */
  lemma {:induction false} RunByMerchant(settings: Settings, now: nat, start: Balances, steps: seq<Step>)
    ensures CountedByMerchant(Run(Init(settings, now, start), steps))
    ensures OnPayments(Run(Init(settings, now, start), steps).payments, Run(Init(settings, now, start), steps).payouts)
  {
    hide Call, Inv, CountedByMerchant, OnPayments;
    if steps == [] {
      StartByMerchant(settings, now, start);
    } else {
      var before := steps[..|steps| - 1];
      RunByMerchant(settings, now, start, before);
      InitInv(settings, now, start);
      RunKeepsInv(Init(settings, now, start), before);
      if Call(Run(Init(settings, now, start), before), steps[|steps| - 1]).Ok? {
        StepByMerchant(Run(Init(settings, now, start), before), steps[|steps| - 1]);
      }
    }
  }

  lemma StartByMerchant(settings: Settings, now: nat, start: Balances)
    ensures CountedByMerchant(Init(settings, now, start)) && OnPayments(map[], [])
  {
    assert forall m :: TrueStats(map[], [], [], m) == NO_STATS;
  }

  lemma OccurrencesAppend(ids: seq<Id>, more: seq<Id>, o: Id)
    requires |more| <= 1
    ensures Occurrences(ids + more, o) == Occurrences(ids, o) + if more == [o] then 1 else 0
  {
    if more == [] {
      assert ids + more == ids;
    } else {
      assert (ids + more)[..|ids|] == ids;
    }
  }

  lemma OrdersAppend(paid: seq<PaidEvent>, e: PaidEvent, side: Side, who: Address, o: Id)
    ensures Occurrences(OrdersOf(paid + [e], side, who), o)
         == Occurrences(OrdersOf(paid, side, who), o) + if e.orderId == o && Party(e, side) == who then 1 else 0
  {
    assert (paid + [e])[..|paid|] == paid;
    OccurrencesAppend(OrdersOf(paid, side, who), if Party(e, side) == who then [e.orderId] else [], o);
  }

  lemma {:induction false} OrdersNone(paid: seq<PaidEvent>, side: Side, who: Address, o: Id)
    requires forall i :: 0 <= i < |paid| && paid[i].orderId == o ==> Party(paid[i], side) != who
    ensures Occurrences(OrdersOf(paid, side, who), o) == 0
  {
    if paid != [] {
      var init, last := paid[..|paid| - 1], paid[|paid| - 1];
      assert paid == init + [last];
      OrdersNone(init, side, who, o);
      OrdersAppend(init, last, side, who, o);
    }
  }

  lemma {:induction false} OrdersOnce(paid: seq<PaidEvent>, k: nat, side: Side)
    requires k < |paid| && forall i, j :: 0 <= i < j < |paid| ==> paid[i].orderId != paid[j].orderId
    ensures Occurrences(OrdersOf(paid, side, Party(paid[k], side)), paid[k].orderId) == 1
  {
    var init, last := paid[..|paid| - 1], paid[|paid| - 1];
    assert paid == init + [last];
    OrdersAppend(init, last, side, Party(paid[k], side), paid[k].orderId);
    if k == |init| {
      OrdersNone(init, side, Party(last, side), last.orderId);
    } else {
      OrdersOnce(init, k, side);
    }
  }

  lemma EventOf(s: State, o: Id, side: Side, who: Address)
    requires Matches(s.payments, s.paid) && o in s.payments
    ensures var own := if side.Payer? then s.payments[o].payer else s.payments[o].merchant;
            Occurrences(OrdersOf(s.paid, side, who), o) == if who == own then 1 else 0
  {
    assert HasEvent(s.paid, o);
    var e :| e in s.paid && e.orderId == o;
    var k :| 0 <= k < |s.paid| && s.paid[k] == e;
    if who == Party(e, side) {
      OrdersOnce(s.paid, k, side);
    } else {
      assert forall i :: 0 <= i < |s.paid| && i != k ==> s.paid[i].orderId != o;
      OrdersNone(s.paid, side, who, o);
    }
  }

  /** Isolation: a stored payment appears once in its own payer's and merchant's
      index, and in nobody else's. */
  lemma Isolated(settings: Settings, now: nat, start: Balances, steps: seq<Step>, o: Id, side: Side, who: Address)
    requires o in Run(Init(settings, now, start), steps).payments
    ensures var s := Run(Init(settings, now, start), steps);
            var own := if side.Payer? then s.payments[o].payer else s.payments[o].merchant;
            Occurrences(IndexOf(s, side, who), o) == if who == own then 1 else 0
  {
    var s := Run(Init(settings, now, start), steps);
    RunListed(settings, now, start, steps);
    RunBalanced(settings, now, start, steps, "", "");
    EventOf(s, o, side, who);
  }
}
