/** Which payments the contract accepts, what an accepted one writes and at what time it was
    made: the exact conditions, in numbers and in terms of what is stored. */
module PaymentRules {
  import opened Common
  import opened Token
  import opened Contract
  import opened RefundSafety
  import opened RefundTheorems
  import opened Conservation

  // ── Fees ──────────────────────────────────────────────────────────────────

  /** `fee` is the amount's share in basis points, rounded down. */
  predicate IsFee(amount: int, bps: nat, fee: int) {
    fee * 10_000 <= amount * bps < (fee + 1) * 10_000
  }

  lemma FeeMeans(settings: Settings, amount: int)
    ensures Fee(settings, amount).Ok? <==> settings.feeBps == 0 || amount * settings.feeBps <= I128_MAX
    ensures Fee(settings, amount).Ok? ==> IsFee(amount, settings.feeBps, Fee(settings, amount).value)
  {
    if settings.feeBps != 0 {
      DividedDown(amount * settings.feeBps, amount * settings.feeBps / 10_000);
    }
  }

  lemma DividedDown(n: int, q: int)
    requires q == n / 10_000
    ensures q * 10_000 <= n < (q + 1) * 10_000
  {
  }

  lemma OneFee(amount: int, bps: nat, fee: int, other: int)
    requires IsFee(amount, bps, fee) && IsFee(amount, bps, other)
    ensures fee == other
  {
  }

  // ── Single payments ───────────────────────────────────────────────────────

  /** One payment the rules allow: a positive amount of an allowed token to an active merchant
      under a new id of 1 to 64 characters, with nothing wrong in the parts not opened here. */
  predicate Allowed(s: State, orderId: Id, merchant: Address, token: Address, amount: int, checks: Checks) {
    && amount > 0 && 1 <= |orderId| <= 64 && orderId !in s.payments
    && token in s.settings.allowedTokens
    && merchant in s.settings.merchants && s.settings.merchants[merchant]
    && checks == Checks(None, None)
  }

  /** What the payer needs: the net amount for the merchant and the fee for a collector. */
  predicate Covered(s: State, payer: Address, merchant: Address, token: Address, net: int, fee: int) {
    if payer == merchant then Balance(s.balances, token, payer) >= net && (Collects(s, fee) ==> Balance(s.balances, token, payer) >= fee)
    else Balance(s.balances, token, payer) >= net + if Collects(s, fee) then fee else 0
  }

  predicate Collects(s: State, fee: int) {
    fee > 0 && s.settings.feeRecipient.Some?
  }

  /** No number of the call leaves its range and no history is full. */
  ghost predicate Fits(s: State, payer: Address, merchant: Address, token: Address, amount: int) {
    && s.settings.feeBps <= 10_000 && amount * s.settings.feeBps <= I128_MAX
    && (forall a :: Balance(s.balances, token, a) + amount <= I128_MAX)
    && Lookup(s.received, merchant, 0) + amount <= I128_MAX
    && |Index(s.merchantIndex, merchant)| < 10_000 && |Index(s.payerIndex, payer)| < 10_000
    && Lookup(s.merchantStats, merchant, NO_STATS).totalPayments < U32_MAX && s.globalStats.totalPayments < U32_MAX
  }

  lemma TransferAccepted(b: Balances, token: Address, from: Address, to: Address, amount: int)
    requires amount >= 0
    ensures Transfer(b, token, from, to, amount).Ok? <==>
              && Balance(b, token, from) >= amount
              && Balance(b, token, to) + (if from == to then 0 else amount) <= I128_MAX
  {
  }

  lemma ChargeNeeds(s: State, payer: Address, orderId: Id, merchant: Address, token: Address, amount: int)
    ensures Charge(s, payer, orderId, merchant, token, amount).Ok? <==>
              && Fee(s.settings, amount).Ok?
              && var fee := Fee(s.settings, amount).value;
                 var sent := Transfer(s.balances, token, payer, merchant, amount - fee);
                 sent.Ok? && (Collects(s, fee) ==> Transfer(sent.value, token, payer, s.settings.feeRecipient.value, fee).Ok?)
  {
    hide Transfer, Fee;
  }

  lemma ChargeAccepted(s: State, payer: Address, orderId: Id, merchant: Address, token: Address, amount: int, fee: int)
    requires amount > 0 && Fits(s, payer, merchant, token, amount) && IsFee(amount, s.settings.feeBps, fee)
    ensures Charge(s, payer, orderId, merchant, token, amount).Ok? <==> Covered(s, payer, merchant, token, amount - fee, fee)
    ensures 0 <= fee <= amount
  {
    hide Charge, Transfer, Fee, Balance;
    ChargeNeeds(s, payer, orderId, merchant, token, amount);
    FeeMeans(s.settings, amount);
    OneFee(amount, s.settings.feeBps, fee, Fee(s.settings, amount).value);
    FeeBounds(amount, s.settings.feeBps, fee);
    TransferAccepted(s.balances, token, payer, merchant, amount - fee);
    var sent := Transfer(s.balances, token, payer, merchant, amount - fee);
    if sent.Ok? && Collects(s, fee) {
      var c := s.settings.feeRecipient.value;
      TransferAccepted(sent.value, token, payer, c, fee);
      TransferFlow(s.balances, token, payer, merchant, amount - fee, token, payer);
      TransferFlow(s.balances, token, payer, merchant, amount - fee, token, c);
    }
  }

  lemma FeeBounds(amount: int, bps: nat, fee: int)
    requires amount > 0 && bps <= 10_000 && IsFee(amount, bps, fee)
    ensures 0 <= fee <= amount
  {
    assert 0 <= amount * bps;
    assert amount * bps <= amount * 10_000;
  }

  lemma PaymentNeeds(s: State, step: Step)
    requires step.Pay?
    ensures Call(s, step).Ok? <==>
              && !s.settings.paused && step.payer in step.signers
              && Allowed(s, step.orderId, step.merchant, step.token, step.amount, step.checks)
              && var charged := Charge(s, step.payer, step.orderId, step.merchant, step.token, step.amount);
                 charged.Ok? && RecordPayment(s.(balances := charged.value.0), charged.value.1, charged.value.2).Ok?
  {
    hide Charge, RecordPayment;
  }

  lemma RecordAccepted(s: State, b: Balances, payer: Address, orderId: Id, merchant: Address, token: Address, amount: int, fee: int)
    requires Fits(s, payer, merchant, token, amount) && fee >= 0
    ensures RecordPayment(s.(balances := b), EventFor(s, payer, orderId, merchant, token, amount, fee), fee).Ok?
  {
  }

  /** With numbers in range, a payment is accepted exactly when the contract runs, the payer
      signed, the rules allow it and the payer can cover it. */
  lemma PaymentAccepted(s: State, step: Step, fee: int)
    requires step.Pay? && IsFee(step.amount, s.settings.feeBps, fee)
    requires Fits(s, step.payer, step.merchant, step.token, step.amount)
    ensures Call(s, step).Ok? <==>
              && !s.settings.paused && step.payer in step.signers
              && Allowed(s, step.orderId, step.merchant, step.token, step.amount, step.checks)
              && Covered(s, step.payer, step.merchant, step.token, step.amount - fee, fee)
  {
    PaymentNeeds(s, step);
    if step.amount > 0 {
      ChargeAccepted(s, step.payer, step.orderId, step.merchant, step.token, step.amount, fee);
      var charged := Charge(s, step.payer, step.orderId, step.merchant, step.token, step.amount);
      if charged.Ok? {
        ChargeMeans(s, step.payer, step.orderId, step.merchant, step.token, step.amount);
        OneFee(step.amount, s.settings.feeBps, fee, charged.value.2);
        RecordAccepted(s, charged.value.0, step.payer, step.orderId, step.merchant, step.token, step.amount, fee);
      }
    }
    hide *;
  }

  /** The event and the fee of a payment. */
  lemma ChargeMeans(s: State, payer: Address, orderId: Id, merchant: Address, token: Address, amount: int)
    requires Charge(s, payer, orderId, merchant, token, amount).Ok?
    ensures var (_, e, fee) := Charge(s, payer, orderId, merchant, token, amount).value;
      && IsFee(amount, s.settings.feeBps, fee) && e == EventFor(s, payer, orderId, merchant, token, amount, fee)
  {
    FeeMeans(s.settings, amount);
  }

  function EventFor(s: State, payer: Address, orderId: Id, merchant: Address, token: Address, amount: int, fee: int): PaidEvent {
    PaidEvent(orderId, payer, merchant, token, amount, amount - fee, if Collects(s, fee) then fee else 0,
              if Collects(s, fee) then s.settings.feeRecipient.value else merchant)
  }

  lemma RecordWrites(s: State, e: PaidEvent, fee: int)
    requires RecordPayment(s, e, fee).Ok?
    ensures var s' := RecordPayment(s, e, fee).value;
      && s'.payments == s.payments[e.orderId := Payment(e.payer, e.merchant, e.token, e.amount, fee, PaymentStatus.Completed, s.now, 0)]
      && s'.paid == s.paid + [e] && s'.balances == s.balances && Untouched(s, s')
      && s'.merchantIndex == s.merchantIndex[e.merchant := Index(s.merchantIndex, e.merchant) + [e.orderId]]
      && s'.payerIndex == s.payerIndex[e.payer := Index(s.payerIndex, e.payer) + [e.orderId]]
      && s'.received == s.received[e.merchant := Lookup(s.received, e.merchant, 0) + e.net]
  {
  }

  /** What an accepted payment was, and what it writes: the record with the time of the call,
      the event, the two histories and what the merchant received; nothing else but balances
      and counters. */
  lemma PaymentWrites(s: State, step: Step) returns (fee: int)
    requires step.Pay? && Call(s, step).Ok?
    ensures !s.settings.paused && step.payer in step.signers && IsFee(step.amount, s.settings.feeBps, fee)
    ensures Allowed(s, step.orderId, step.merchant, step.token, step.amount, step.checks)
    ensures var s' := Call(s, step).value; var o := step.orderId;
      && s'.payments == s.payments[o := Payment(step.payer, step.merchant, step.token, step.amount, fee, PaymentStatus.Completed, s.now, 0)]
      && s'.paid == s.paid + [EventFor(s, step.payer, o, step.merchant, step.token, step.amount, fee)]
      && s'.merchantIndex == s.merchantIndex[step.merchant := Index(s.merchantIndex, step.merchant) + [o]]
      && s'.payerIndex == s.payerIndex[step.payer := Index(s.payerIndex, step.payer) + [o]]
      && s'.received == s.received[step.merchant := Lookup(s.received, step.merchant, 0) + step.amount - fee]
    ensures Untouched(s, Call(s, step).value)
  {
    PaymentNeeds(s, step);
    var b, e, charged := PayIsRecord(s, step);
    fee := charged;
    ChargeMeans(s, step.payer, step.orderId, step.merchant, step.token, step.amount);
    RecordWrites(s.(balances := b), e, fee);
    hide Call, ProcessPayment, RecordPayment, Charge;
  }

  /** The parts of the state that no payment changes. */
  predicate Untouched(s: State, s': State) {
    && s'.settings == s.settings && s'.now == s.now && s'.refunds == s.refunds && s'.orderRefunds == s.orderRefunds
    && s'.disputes == s.disputes && s'.payouts == s.payouts
  }

  // ── Batches ───────────────────────────────────────────────────────────────

  predicate ItemAllowed(s: State, item: BatchItem) {
    Allowed(s, item.orderId, item.merchant, item.token, item.amount, item.checks)
  }

  /** Every item is allowed by itself and no order id comes twice. */
  ghost predicate AllAllowed(s: State, items: seq<BatchItem>) {
    && (forall k :: 0 <= k < |items| ==> ItemAllowed(s, items[k]))
    && forall j, k :: 0 <= j < k < |items| ==> items[j].orderId != items[k].orderId
  }

  lemma CheckItemMeans(s: State, item: BatchItem, seen: seq<Id>)
    ensures CheckItem(s, item, seen).Pass? <==> ItemAllowed(s, item) && item.orderId !in seen
  {
  }

  lemma {:induction false} ItemsChecked(s: State, items: seq<BatchItem>, i: nat)
    requires i <= |items|
    ensures CheckItems(s, items, i).Pass? <==>
              && (forall k :: i <= k < |items| ==> ItemAllowed(s, items[k]))
              && forall j, k :: 0 <= j < k < |items| && i <= k ==> items[j].orderId != items[k].orderId
    decreases |items| - i
  {
    if i < |items| {
      var seen := OrderIds(items[..i]);
      assert forall j :: 0 <= j < i ==> seen[j] == items[j].orderId && seen[j] in seen;
      CheckItemMeans(s, items[i], seen);
      ItemsChecked(s, items, i + 1);
    }
  }

  function ItemRecord(payer: Address, item: BatchItem, now: nat): Payment {
    Payment(payer, item.merchant, item.token, item.amount, 0, PaymentStatus.Completed, now, 0)
  }

  /** The payments after those of the items were added. */
  ghost predicate Added(before: map<Id, Payment>, after: map<Id, Payment>, payer: Address, items: seq<BatchItem>, now: nat) {
    && Extends(before, after)
    && (forall o :: o in after ==> o in before || exists k :: 0 <= k < |items| && items[k].orderId == o)
    && forall k :: 0 <= k < |items| ==>
         items[k].orderId in after && after[items[k].orderId] == ItemRecord(payer, items[k], now)
  }

  lemma AddedOne(before: map<Id, Payment>, mid: map<Id, Payment>, payer: Address, items: seq<BatchItem>, now: nat)
    requires items != [] && Added(before, mid, payer, items[..|items| - 1], now)
    requires items[|items| - 1].orderId !in before
    requires forall j, k :: 0 <= j < k < |items| ==> items[j].orderId != items[k].orderId
    ensures var last := items[|items| - 1];
            Added(before, mid[last.orderId := ItemRecord(payer, last, now)], payer, items, now)
  {
  }

  lemma {:induction false} RecordAllWrites(s: State, payer: Address, items: seq<BatchItem>)
    requires RecordAll(s, payer, items).Ok? && Fresh(s.payments, items)
    ensures Untouched(s, RecordAll(s, payer, items).value)
    ensures Added(s.payments, RecordAll(s, payer, items).value.payments, payer, items, s.now)
  {
    if items != [] {
      var n := |items| - 1;
      RecordAllWrites(s, payer, items[..n]);
      var mid := RecordAll(s, payer, items[..n]).value;
      RecordWrites(mid, BatchEvent(payer, items[n]), 0);
      AddedOne(s.payments, mid.payments, payer, items, s.now);
    }
  }

  /** What an accepted batch was, and the records it writes, with the time of the call. */
  lemma BatchWrites(s: State, step: Step)
    requires step.Batch? && Call(s, step).Ok?
    ensures !s.settings.paused && step.payer in step.signers && |step.items| <= 10 && AllAllowed(s, step.items)
    ensures Untouched(s, Call(s, step).value) && Added(s.payments, Call(s, step).value.payments, step.payer, step.items, s.now)
  {
    ItemsChecked(s, step.items, 0);
    RecordAllWrites(s.(balances := PayGroups(s.balances, step.payer, GroupItems(step.items).value).value), step.payer, step.items);
  }

  // ── The batch as a whole ──────────────────────────────────────────────────

  /** What the items pay in one token. */
  function TokenSum(items: seq<BatchItem>, t: Address): int {
    if items == [] then 0
    else TokenSum(items[..|items| - 1], t) + if items[|items| - 1].token == t then items[|items| - 1].amount else 0
  }

  function GroupSum(groups: seq<Group>, t: Address): int {
    if groups == [] then 0
    else GroupSum(groups[..|groups| - 1], t) + if groups[|groups| - 1].token == t then groups[|groups| - 1].total else 0
  }

  lemma GroupSumAppend(groups: seq<Group>, g: Group, t: Address)
    ensures GroupSum(groups + [g], t) == GroupSum(groups, t) + if g.token == t then g.total else 0
  {
    assert (groups + [g])[..|groups|] == groups;
  }

  ghost predicate Positive(groups: seq<Group>, limit: int) {
    forall i :: 0 <= i < |groups| ==> 0 < groups[i].total <= limit
  }

  lemma {:induction false} MatchingSum(groups: seq<Group>, item: BatchItem, t: Address)
    requires Separate(groups) && AddToMatching(groups, item).Some?
    ensures GroupSum(AddToMatching(groups, item).value, t) == GroupSum(groups, t)
              + if Mentions(groups, item) && item.token == t then item.amount else 0
  {
    if groups != [] {
      var init, last := groups[..|groups| - 1], groups[|groups| - 1];
      assert groups == init + [last];
      MatchingSum(init, item, t);
      MentionsLast(init, last, item);
      var last' := last.(total := if SameGroup(last, item) then last.total + item.amount else last.total);
      assert AddToMatching(groups, item).value == AddToMatching(init, item).value + [last'];
      GroupSumAppend(AddToMatching(init, item).value, last', t);
      if SameGroup(last, item) {
        SeparateInit(init, last, item);
      }
    }
  }

  lemma {:induction false} MatchingFits(groups: seq<Group>, item: BatchItem, limit: int)
    requires Positive(groups, limit) && item.amount > 0 && limit + item.amount <= I128_MAX
    ensures AddToMatching(groups, item).Some? && Positive(AddToMatching(groups, item).value, limit + item.amount)
  {
    if groups != [] {
      MatchingFits(groups[..|groups| - 1], item, limit);
    }
  }

  function Total(items: seq<BatchItem>): int {
    if items == [] then 0 else Total(items[..|items| - 1]) + items[|items| - 1].amount
  }

  lemma {:induction false} GroupingFits(items: seq<BatchItem>)
    requires (forall k :: 0 <= k < |items| ==> items[k].amount > 0) && Total(items) <= I128_MAX
    ensures Total(items) >= 0 && GroupItems(items).Some? && Positive(GroupItems(items).value, Total(items))
  {
    if items != [] {
      var init, last := items[..|items| - 1], items[|items| - 1];
      GroupingFits(init);
      MatchingFits(GroupItems(init).value, last, Total(init));
    }
  }

  lemma {:induction false} GroupingSum(items: seq<BatchItem>, t: Address)
    requires GroupItems(items).Some?
    ensures GroupSum(GroupItems(items).value, t) == TokenSum(items, t)
  {
    if items != [] {
      var init, last := items[..|items| - 1], items[|items| - 1];
      GroupingSum(init, t);
      GroupsSeparate(init);
      var groups := GroupItems(init).value;
      MatchingSum(groups, last, t);
      GroupSumAppend(AddToMatching(groups, last).value, Group(last.token, last.merchant, last.amount), t);
    }
  }

  lemma {:induction false} GroupsPaid(b: Balances, payer: Address, groups: seq<Group>, limit: int)
    requires Positive(groups, limit)
    requires forall t :: GroupSum(groups, t) <= Balance(b, t, payer)
    requires forall t, a :: Balance(b, t, a) + GroupSum(groups, t) <= I128_MAX
    ensures PayGroups(b, payer, groups).Ok?
    ensures forall t :: Balance(PayGroups(b, payer, groups).value, t, payer) >= Balance(b, t, payer) - GroupSum(groups, t)
    ensures forall t, a :: Balance(PayGroups(b, payer, groups).value, t, a) <= Balance(b, t, a) + GroupSum(groups, t)
  {
    if groups != [] {
      var init, g := groups[..|groups| - 1], groups[|groups| - 1];
      assert forall t :: GroupSum(groups, t) == GroupSum(init, t) + if g.token == t then g.total else 0;
      GroupsPaid(b, payer, init, limit);
      var mid := PayGroups(b, payer, init).value;
      TransferAccepted(mid, g.token, payer, g.merchant, g.total);
      var after := Transfer(mid, g.token, payer, g.merchant, g.total);
      forall t, a ensures Balance(after.value, t, a) == Balance(mid, t, a) + if t == g.token then Flow(payer, g.merchant, g.total, a) else 0 {
        TransferFlow(mid, g.token, payer, g.merchant, g.total, t, a);
      }
    }
  }

  /** No number of the batch leaves its range and no history gets full. */
  ghost predicate BatchFits(s: State, payer: Address, items: seq<BatchItem>) {
    && Total(items) <= I128_MAX
    && (forall t, a :: Balance(s.balances, t, a) + TokenSum(items, t) <= I128_MAX)
    && RecordsFit(s, payer, Total(items), |items|)
  }

  ghost predicate RecordsFit(s: State, payer: Address, total: int, n: nat) {
    && |Index(s.payerIndex, payer)| + n <= 10_000 && s.globalStats.totalPayments + n <= U32_MAX
    && forall m :: MerchantFits(s, m, total, n)
  }

  predicate MerchantFits(s: State, m: Address, total: int, n: nat) {
    && Lookup(s.received, m, 0) + total <= I128_MAX && |Index(s.merchantIndex, m)| + n <= 10_000
    && Lookup(s.merchantStats, m, NO_STATS).totalPayments + n <= U32_MAX
  }

  lemma RecordFits(s: State, payer: Address, item: BatchItem, total: int, n: nat)
    requires RecordsFit(s, payer, total + item.amount, n + 1) && total >= 0 && item.amount > 0
    ensures RecordPayment(s, BatchEvent(payer, item), 0).Ok?
    ensures RecordsFit(RecordPayment(s, BatchEvent(payer, item), 0).value, payer, total, n)
  {
    assert MerchantFits(s, item.merchant, total + item.amount, n + 1);
    var s' := RecordPayment(s, BatchEvent(payer, item), 0).value;
    forall m ensures MerchantFits(s', m, total, n) {
      assert MerchantFits(s, m, total + item.amount, n + 1);
    }
  }

  lemma {:induction false} RecordsAccepted(s: State, payer: Address, items: seq<BatchItem>, total: int, n: nat)
    requires (forall k :: 0 <= k < |items| ==> items[k].amount > 0) && total >= 0
    requires RecordsFit(s, payer, Total(items) + total, |items| + n)
    ensures RecordAll(s, payer, items).Ok? && RecordsFit(RecordAll(s, payer, items).value, payer, total, n)
  {
    if items != [] {
      var init, last := items[..|items| - 1], items[|items| - 1];
      RecordsAccepted(s, payer, init, total + last.amount, n + 1);
      RecordFits(RecordAll(s, payer, init).value, payer, last, total, n);
    }
  }

  lemma BatchNeeds(s: State, step: Step)
    requires step.Batch?
    ensures Call(s, step).Ok? <==>
              && !s.settings.paused && step.payer in step.signers && |step.items| <= 10
              && CheckItems(s, step.items, 0).Pass? && GroupItems(step.items).Some?
              && var paid := PayGroups(s.balances, step.payer, GroupItems(step.items).value);
                 paid.Ok? && RecordAll(s.(balances := paid.value), step.payer, step.items).Ok?
  {
    hide CheckItems, GroupItems, PayGroups, RecordAll;
  }

  lemma BatchGoesThrough(s: State, payer: Address, items: seq<BatchItem>)
    requires (forall k :: 0 <= k < |items| ==> items[k].amount > 0) && BatchFits(s, payer, items)
    requires forall t :: Balance(s.balances, t, payer) >= TokenSum(items, t)
    ensures GroupItems(items).Some? && PayGroups(s.balances, payer, GroupItems(items).value).Ok?
    ensures RecordAll(s.(balances := PayGroups(s.balances, payer, GroupItems(items).value).value), payer, items).Ok?
  {
    GroupingFits(items);
    var groups := GroupItems(items).value;
    forall t ensures GroupSum(groups, t) == TokenSum(items, t) {
      GroupingSum(items, t);
    }
    GroupsPaid(s.balances, payer, groups, Total(items));
    var paid := s.(balances := PayGroups(s.balances, payer, groups).value);
    assert forall m :: MerchantFits(s, m, Total(items), |items|) ==> MerchantFits(paid, m, Total(items), |items|);
    RecordsAccepted(paid, payer, items, 0, 0);
  }

  /** With numbers in range and the payer holding what the items cost in each token, a batch
      is accepted exactly when the contract runs, the payer signed, and it has at most ten
      items, each allowed, under different order ids. */
  lemma BatchAccepted(s: State, step: Step)
    requires step.Batch? && BatchFits(s, step.payer, step.items)
    requires forall t :: Balance(s.balances, t, step.payer) >= TokenSum(step.items, t)
    ensures Call(s, step).Ok? <==>
              !s.settings.paused && step.payer in step.signers && |step.items| <= 10 && AllAllowed(s, step.items)
  {
    BatchNeeds(s, step);
    ItemsChecked(s, step.items, 0);
    if AllAllowed(s, step.items) {
      assert forall k :: 0 <= k < |step.items| ==> ItemAllowed(s, step.items[k]);
      BatchGoesThrough(s, step.payer, step.items);
    }
    hide Call, CheckItems, GroupItems, PayGroups, RecordAll, BatchFits;
  }

  ghost predicate NoneTo(groups: seq<Group>, payer: Address) {
    forall i :: 0 <= i < |groups| ==> groups[i].merchant != payer
  }

  lemma {:induction false} MatchingElsewhere(groups: seq<Group>, item: BatchItem, payer: Address)
    requires NoneTo(groups, payer) && AddToMatching(groups, item).Some?
    ensures NoneTo(AddToMatching(groups, item).value, payer)
  {
    if groups != [] {
      MatchingElsewhere(groups[..|groups| - 1], item, payer);
    }
  }

  lemma {:induction false} GroupingElsewhere(items: seq<BatchItem>, payer: Address)
    requires GroupItems(items).Some? && forall k :: 0 <= k < |items| ==> items[k].merchant != payer
    ensures NoneTo(GroupItems(items).value, payer)
  {
    if items != [] {
      GroupingElsewhere(items[..|items| - 1], payer);
      MatchingElsewhere(GroupItems(items[..|items| - 1]).value, items[|items| - 1], payer);
    }
  }

  lemma {:induction false} GroupsCost(b: Balances, payer: Address, groups: seq<Group>, t: Address)
    requires PayGroups(b, payer, groups).Ok? && NoneTo(groups, payer)
    ensures Balance(PayGroups(b, payer, groups).value, t, payer) == Balance(b, t, payer) - GroupSum(groups, t)
    ensures GroupSum(groups, t) != 0 ==> Balance(PayGroups(b, payer, groups).value, t, payer) >= 0
  {
    if groups != [] {
      var init, g := groups[..|groups| - 1], groups[|groups| - 1];
      GroupsCost(b, payer, init, t);
      var mid := PayGroups(b, payer, init).value;
      TransferFlow(mid, g.token, payer, g.merchant, g.total, t, payer);
      assert Transfer(mid, g.token, payer, g.merchant, g.total).Ok?;
    }
  }

  /** A payer who pays others needs at hand what the items cost, in each of their tokens. */
  lemma BatchCosts(s: State, step: Step, t: Address)
    requires step.Batch? && Call(s, step).Ok? && TokenSum(step.items, t) != 0
    requires forall k :: 0 <= k < |step.items| ==> step.items[k].merchant != step.payer
    ensures Balance(s.balances, t, step.payer) >= TokenSum(step.items, t)
  {
    BatchNeeds(s, step);
    GroupingElsewhere(step.items, step.payer);
    GroupingSum(step.items, t);
    GroupsCost(s.balances, step.payer, GroupItems(step.items).value, t);
    hide Call;
  }

  // ── When a payment was made ───────────────────────────────────────────────

  /** The same purchase: all that a refund never changes. */
  predicate SameDeal(p: Payment, q: Payment) {
    p.payer == q.payer && p.merchant == q.merchant && p.token == q.token && p.amount == q.amount && p.fee == q.fee && p.paidAt == q.paidAt
  }

  /** The call made this payment: it names the order, the parties, the token and the amount,
      and the payment carries the time of the call. */
  ghost predicate MadeBy(s: State, step: Step, o: Id, p: Payment) {
    && Call(s, step).Ok? && p.paidAt == s.now
    && match step
       case Pay(_, payer, orderId, merchant, token, amount, _) =>
         && o == orderId && p.payer == payer && p.merchant == merchant && p.token == token && p.amount == amount
         && IsFee(amount, s.settings.feeBps, p.fee)
       case Batch(_, payer, items) =>
         && p.payer == payer && p.fee == 0
         && exists k :: 0 <= k < |items| && Orders(items[k], o, p)
       case _ => false
  }

  predicate Orders(item: BatchItem, o: Id, p: Payment) {
    item.orderId == o && p.merchant == item.merchant && p.token == item.token && p.amount == item.amount
  }

  lemma OtherPayments(s: State, step: Step)
    requires !step.Pay? && !step.Batch? && Call(s, step).Ok?
    ensures var s' := Call(s, step).value;
      && s'.payments.Keys == s.payments.Keys && forall o :: o in s.payments ==> SameDeal(s.payments[o], s'.payments[o])
  {
    if step.Execute? || step.Resolve? {
      StepEffect(s, step);
      if step.Resolve? && !step.force {
        ResolveIsPayOut(s, step);
      }
    } else {
      SilentStep(s, step);
    }
  }

  /** Across one call an old payment keeps its deal and its time, and a new one was made by
      this call, at its time. */
  lemma StepDates(s: State, step: Step, o: Id)
    ensures o in s.payments ==> o in Apply(s, step).payments && SameDeal(s.payments[o], Apply(s, step).payments[o])
    ensures o !in s.payments && o in Apply(s, step).payments ==> MadeBy(s, step, o, Apply(s, step).payments[o])
  {
    if Call(s, step).Ok? {
      if step.Pay? {
        var fee := PaymentWrites(s, step);
      } else if step.Batch? {
        BatchWrites(s, step);
        if o !in s.payments && o in Apply(s, step).payments {
          var k :| 0 <= k < |step.items| && step.items[k].orderId == o;
          assert Orders(step.items[k], o, Apply(s, step).payments[o]);
        }
      } else {
        OtherPayments(s, step);
      }
    }
  }

  /** Over any run a stored payment keeps its deal and its time. */
  lemma {:induction false} RunKeepsDeal(s: State, steps: seq<Step>, o: Id)
    requires o in s.payments
    ensures o in Run(s, steps).payments && SameDeal(s.payments[o], Run(s, steps).payments[o])
  {
    if steps != [] {
      RunKeepsDeal(s, steps[..|steps| - 1], o);
      StepDates(Run(s, steps[..|steps| - 1]), steps[|steps| - 1], o);
    }
  }

  lemma MadeBySame(s: State, step: Step, o: Id, p: Payment, q: Payment)
    requires MadeBy(s, step, o, p) && SameDeal(p, q)
    ensures MadeBy(s, step, o, q)
  {
    if step.Batch? {
      var k :| 0 <= k < |step.items| && Orders(step.items[k], o, p);
      assert Orders(step.items[k], o, q);
    }
  }

  /** Only the clock moves time and only the admin's step changes settings. */
  lemma StepClock(s: State, step: Step)
    ensures Apply(s, step).now == s.now + if step.Advance? then step.seconds else 0
    ensures Apply(s, step).settings == if step.Configure? then step.settings else s.settings
  {
    if Call(s, step).Ok? {
      if step.Pay? {
        var fee := PaymentWrites(s, step);
      } else if step.Batch? {
        BatchWrites(s, step);
      } else if step.Execute? || step.Resolve? {
        SettledClock(s, step);
      } else {
        OtherClock(s, step);
      }
    }
    hide Call;
  }

  lemma PayOutClock(s: State, id: Id, dispute: Option<Id>)
    requires id in s.refunds && s.refunds[id].orderId in s.payments && PayOut(s, id, dispute).Ok?
    ensures PayOut(s, id, dispute).value.now == s.now && PayOut(s, id, dispute).value.settings == s.settings
  {
  }

  lemma SettledClock(s: State, step: Step)
    requires (step.Execute? || step.Resolve?) && Call(s, step).Ok?
    ensures Call(s, step).value.now == s.now && Call(s, step).value.settings == s.settings
  {
    hide PayOut;
    if step.Execute? {
      PayOutClock(s, step.refundId, None);
    } else {
      ResolveIsPayOut(s, step);
      var d := s.disputes[step.disputeId];
      if step.force {
        PayOutClock(s.(disputes := s.disputes[step.disputeId := d.(resolved := true, forced := true)]), d.refundId, Some(step.disputeId));
      }
    }
  }

  lemma OtherClock(s: State, step: Step)
    requires !step.Pay? && !step.Batch? && !step.Execute? && !step.Resolve? && Call(s, step).Ok?
    ensures Call(s, step).value.now == s.now + if step.Advance? then step.seconds else 0
    ensures Call(s, step).value.settings == if step.Configure? then step.settings else s.settings
  {
  }

  /** The time that a run lets pass. */
  function Elapsed(steps: seq<Step>): nat {
    if steps == [] then 0
    else Elapsed(steps[..|steps| - 1]) + if steps[|steps| - 1].Advance? then steps[|steps| - 1].seconds else 0
  }

  lemma {:induction false} RunClock(s: State, steps: seq<Step>)
    ensures Run(s, steps).now == s.now + Elapsed(steps)
  {
    if steps != [] {
      RunClock(s, steps[..|steps| - 1]);
      StepClock(Run(s, steps[..|steps| - 1]), steps[|steps| - 1]);
    }
    hide Apply;
  }

  /** Every payment that a run brings was made by one of its calls and carries its time. */
  lemma {:induction false} RunDates(s: State, steps: seq<Step>, o: Id) returns (k: nat)
    requires o !in s.payments && o in Run(s, steps).payments
    ensures k < |steps| && MadeBy(Run(s, steps[..k]), steps[k], o, Run(s, steps).payments[o])
  {
    hide Call, MadeBy, SameDeal;
    var before := steps[..|steps| - 1];
    var mid := Run(s, before);
    StepDates(mid, steps[|before|], o);
    if o in mid.payments {
      k := RunDates(s, before, o);
      assert before[..k] == steps[..k];
      MadeBySame(Run(s, before[..k]), steps[k], o, mid.payments[o], Run(s, steps).payments[o]);
    } else {
      k := |before|;
    }
  }
}
