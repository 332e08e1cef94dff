/** The payment contract's entry points as functions from one ledger state to
    the next. A call that returns an error leaves the state as it was: the host
    rolls the transaction back. */
module Contract {
  import opened Common
  import opened Token

  const MAX_REFUNDS_PER_PAYMENT := 10
  const MAX_BATCH_SIZE := 10
  const MAX_PAYMENT_IDS_PER_ACCOUNT := 10_000
  const MAX_ID_LEN := 64
  const FEE_DENOMINATOR := 10_000

  datatype PaymentStatus = Completed | PartiallyRefunded | FullyRefunded
  datatype RefundStatus = Pending | Approved | Rejected | Completed

  datatype Payment = Payment(payer: Address, merchant: Address, token: Address, amount: int, fee: int,
                             status: PaymentStatus, paidAt: nat, refunded: int)
  datatype Refund = Refund(orderId: Id, initiator: Address, amount: int, status: RefundStatus, createdAt: nat)
  datatype Dispute = Dispute(refundId: Id, resolved: bool, forced: bool)
  datatype Stats = Stats(totalPayments: nat, totalVolume: int, totalRefunds: nat, totalRefundVolume: int)

  /** Everything the admin configures; `merchants` maps a registered merchant to whether it is active. */
  datatype Settings = Settings(paused: bool, admin: Option<Address>, refundWindow: nat, minRefund: int,
                               feeBps: nat, feeRecipient: Option<Address>,
                               allowedTokens: set<Address>, merchants: map<Address, bool>)

  /** One `payment_processed` event: `net` reached the merchant, `feePaid` the collector. */
  datatype PaidEvent = PaidEvent(orderId: Id, payer: Address, merchant: Address, token: Address,
                                 amount: int, net: int, feePaid: int, collector: Address)
  /** One refund transfer: by `execute_refund`, or by `resolve_dispute` for the named dispute. */
  datatype Payout = Payout(refundId: Id, orderId: Id, amount: int, dispute: Option<Id>)

  datatype State = State(settings: Settings, now: nat,
                         payments: map<Id, Payment>, refunds: map<Id, Refund>, orderRefunds: map<Id, seq<Id>>,
                         disputes: map<Id, Dispute>,
                         payerIndex: map<Address, seq<Id>>, merchantIndex: map<Address, seq<Id>>,
                         received: map<Address, int>, merchantStats: map<Address, Stats>, globalStats: Stats,
                         balances: Balances, paid: seq<PaidEvent>, payouts: seq<Payout>)

  const NO_STATS := Stats(0, 0, 0, 0)

  function Init(settings: Settings, now: nat, balances: Balances): State {
    State(settings, now, map[], map[], map[], map[], map[], map[], map[], map[], NO_STATS, balances, [], [])
  }

  /** The checks this model does not open: `form` stands for tags and memo,
      `replay` for nonce, timestamp, signature and rate limit. */
  datatype Checks = Checks(form: Option<PaymentError>, replay: Option<PaymentError>)

  datatype BatchItem = BatchItem(orderId: Id, merchant: Address, token: Address, amount: int, checks: Checks)
  datatype Group = Group(token: Address, merchant: Address, total: int)

  function ValidId(id: Id): Check {
    if id == [] then Fail(InvalidOrderId) else if |id| > MAX_ID_LEN then Fail(OrderIdTooLong) else Pass
  }

  function Demand(c: Option<PaymentError>): Check {
    match c case None => Pass case Some(e) => Fail(e)
  }

  function Index(m: map<Address, seq<Id>>, who: Address): seq<Id> {
    Lookup(m, who, [])
  }

  function SaturatingAdd(a: int, b: int): int {
    Min(a + b, I128_MAX)
  }

  // ── Payments ──────────────────────────────────────────────────────────────

  function CountPayment(st: Stats, amount: int): Stats {
    st.(totalPayments := st.totalPayments + 1, totalVolume := SaturatingAdd(st.totalVolume, amount))
  }

  /** Stores one payment, indexes it under merchant and payer, and counts it. */
  function RecordPayment(s: State, e: PaidEvent, fee: int): Result<State> {
    var ofMerchant := Index(s.merchantIndex, e.merchant);
    :- Need(|ofMerchant| < MAX_PAYMENT_IDS_PER_ACCOUNT, PaymentHistoryLimitExceeded);
    var ofPayer := Index(s.payerIndex, e.payer);
    :- Need(|ofPayer| < MAX_PAYMENT_IDS_PER_ACCOUNT, PaymentHistoryLimitExceeded);
    var total := Lookup(s.received, e.merchant, 0) + e.net;
    :- Need(total <= I128_MAX, Trap);
    var stats := Lookup(s.merchantStats, e.merchant, NO_STATS);
    :- Need(stats.totalPayments < U32_MAX && s.globalStats.totalPayments < U32_MAX, Trap);
    Ok(s.(payments := s.payments[e.orderId :=
                        Payment(e.payer, e.merchant, e.token, e.amount, fee, PaymentStatus.Completed, s.now, 0)],
          merchantIndex := s.merchantIndex[e.merchant := ofMerchant + [e.orderId]],
          payerIndex := s.payerIndex[e.payer := ofPayer + [e.orderId]],
          received := s.received[e.merchant := total],
          merchantStats := s.merchantStats[e.merchant := CountPayment(stats, e.amount)],
          globalStats := CountPayment(s.globalStats, e.amount),
          paid := s.paid + [e]))
  }

  function Fee(settings: Settings, amount: int): Result<int> {
    if settings.feeBps == 0 then Ok(0)
    else
      :- Need(amount * settings.feeBps <= I128_MAX, Trap);
      Ok(amount * settings.feeBps / FEE_DENOMINATOR)
  }

  /** Moves the price and the fee of one payment; gives the new balances, the event and the fee charged. */
  function Charge(s: State, payer: Address, orderId: Id, merchant: Address, token: Address, amount: int)
    : Result<(Balances, PaidEvent, int)>
  {
    var fee :- Fee(s.settings, amount);
    var afterNet :- Transfer(s.balances, token, payer, merchant, amount - fee);
    if fee > 0 && s.settings.feeRecipient.Some? then
      var collector := s.settings.feeRecipient.value;
      var afterFee :- Transfer(afterNet, token, payer, collector, fee);
      Ok((afterFee, PaidEvent(orderId, payer, merchant, token, amount, amount - fee, fee, collector), fee))
    else
      Ok((afterNet, PaidEvent(orderId, payer, merchant, token, amount, amount - fee, 0, merchant), fee))
  }

  function ProcessPayment(s: State, signers: set<Address>, payer: Address, orderId: Id, merchant: Address,
                          token: Address, amount: int, checks: Checks): Result<State>
  {
    var paused := s.settings.paused;
    :- Need(!paused, ContractPaused);
    :- Need(payer in signers, Trap);
    :- Need(amount > 0, InvalidAmount);
    :- ValidId(orderId);
    :- Demand(checks.form);
    :- Need(token in s.settings.allowedTokens, TokenNotAllowed);
    :- Need(orderId !in s.payments, PaymentAlreadyExists);
    :- Need(merchant in s.settings.merchants, MerchantNotFound);
    :- Need(s.settings.merchants[merchant], MerchantInactive);
    :- Demand(checks.replay);
    var (balances, event, fee) :- Charge(s, payer, orderId, merchant, token, amount);
    RecordPayment(s.(balances := balances), event, fee)
  }

  // ── Batch payments ────────────────────────────────────────────────────────

  function CheckItem(s: State, item: BatchItem, seen: seq<Id>): Check {
    if item.amount <= 0 then Fail(InvalidAmount)
    else if ValidId(item.orderId).Fail? then ValidId(item.orderId)
    else if item.checks.form.Some? then Fail(item.checks.form.value)
    else if item.orderId in seen then Fail(DuplicateOrderId)
    else if item.token !in s.settings.allowedTokens then Fail(TokenNotAllowed)
    else if item.orderId in s.payments then Fail(PaymentAlreadyExists)
    else if item.merchant !in s.settings.merchants then Fail(MerchantNotFound)
    else if !s.settings.merchants[item.merchant] then Fail(MerchantInactive)
    else Demand(item.checks.replay)
  }

  /** The first item, from position `i` on, that fails validation. */
  function CheckItems(s: State, items: seq<BatchItem>, i: nat): Check
    requires i <= |items|
    decreases |items| - i
  {
    if i == |items| then Pass
    else
      match CheckItem(s, items[i], OrderIds(items[..i]))
      case Fail(e) => Fail(e)
      case Pass => CheckItems(s, items, i + 1)
  }

  function OrderIds(items: seq<BatchItem>): seq<Id> {
    seq(|items|, i requires 0 <= i < |items| => items[i].orderId)
  }

  predicate SameGroup(g: Group, item: BatchItem) {
    g.token == item.token && g.merchant == item.merchant
  }

  predicate Mentions(groups: seq<Group>, item: BatchItem) {
    exists i :: 0 <= i < |groups| && SameGroup(groups[i], item)
  }

  /** Adds the item's amount to every matching group; `None` on overflow. */
  function AddToMatching(groups: seq<Group>, item: BatchItem): (r: Option<seq<Group>>)
    ensures r.Some? ==> |r.value| == |groups|
  {
    if groups == [] then Some([])
    else
      var last := groups[|groups| - 1];
      var total := if SameGroup(last, item) then last.total + item.amount else last.total;
      var init := AddToMatching(groups[..|groups| - 1], item);
      if init.None? || (SameGroup(last, item) && total > I128_MAX) then None
      else Some(init.value + [last.(total := total)])
  }

  function AddToGroups(groups: seq<Group>, item: BatchItem): Option<seq<Group>> {
    var updated := AddToMatching(groups, item);
    if updated.Some? && !Mentions(groups, item) then Some(updated.value + [Group(item.token, item.merchant, item.amount)])
    else updated
  }

  function GroupItems(items: seq<BatchItem>): Option<seq<Group>> {
    if items == [] then Some([])
    else
      var before := GroupItems(items[..|items| - 1]);
      if before.None? then None else AddToGroups(before.value, items[|items| - 1])
  }

  function PayGroups(b: Balances, payer: Address, groups: seq<Group>): Result<Balances> {
    if groups == [] then Ok(b)
    else
      var before :- PayGroups(b, payer, groups[..|groups| - 1]);
      var g := groups[|groups| - 1];
      Transfer(before, g.token, payer, g.merchant, g.total)
  }

  function BatchEvent(payer: Address, item: BatchItem): PaidEvent {
    PaidEvent(item.orderId, payer, item.merchant, item.token, item.amount, item.amount, 0, item.merchant)
  }

  function RecordAll(s: State, payer: Address, items: seq<BatchItem>): Result<State> {
    if items == [] then Ok(s)
    else
      var before :- RecordAll(s, payer, items[..|items| - 1]);
      RecordPayment(before, BatchEvent(payer, items[|items| - 1]), 0)
  }

  function BatchPayment(s: State, signers: set<Address>, payer: Address, items: seq<BatchItem>): Result<State> {
    var paused := s.settings.paused;
    :- Need(!paused, ContractPaused);
    :- Need(payer in signers, Trap);
    :- Need(|items| <= MAX_BATCH_SIZE, BatchSizeExceeded);
    :- CheckItems(s, items, 0);
    var groups := GroupItems(items);
    :- Need(groups.Some?, Trap);
    var balances :- PayGroups(s.balances, payer, groups.value);
    RecordAll(s.(balances := balances), payer, items)
  }

  // ── Refunds ───────────────────────────────────────────────────────────────

  function RefundIds(s: State, orderId: Id): seq<Id> {
    Lookup(s.orderRefunds, orderId, [])
  }

  function InitiateRefund(s: State, signers: set<Address>, caller: Address, refundId: Id, orderId: Id, amount: int): Result<State> {
    var paused := s.settings.paused;
    :- Need(!paused, ContractPaused);
    :- Need(caller in signers, Trap);
    :- Need(amount > 0, InvalidAmount);
    :- Need(amount >= s.settings.minRefund, RefundBelowMinimum);
    :- ValidId(refundId);
    :- Need(refundId !in s.refunds, RefundAlreadyExists);
    :- Need(orderId in s.payments, PaymentNotFound);
    var payment := s.payments[orderId];
    :- Need(|RefundIds(s, orderId)| < MAX_REFUNDS_PER_PAYMENT, RefundLimitExceeded);
    :- Need(caller == payment.payer || caller == payment.merchant, Unauthorized);
    :- Need(payment.paidAt + s.settings.refundWindow <= U64_MAX, Trap);
    :- Need(s.now <= payment.paidAt + s.settings.refundWindow, RefundWindowExpired);
    :- Need(payment.refunded + amount <= I128_MAX, Trap);
    :- Need(payment.refunded + amount <= payment.amount, RefundExceedsOriginal);
    Ok(s.(refunds := s.refunds[refundId := Refund(orderId, caller, amount, Pending, s.now)],
          orderRefunds := s.orderRefunds[orderId := RefundIds(s, orderId) + [refundId]]))
  }

  /** The merchant-or-admin decision on a pending refund, shared by approval and rejection. */
  function DecideRefund(s: State, signers: set<Address>, caller: Address, refundId: Id, decision: RefundStatus): Result<State> {
    var paused := s.settings.paused;
    :- Need(!paused, ContractPaused);
    :- Need(refundId in s.refunds, RefundNotFound);
    var refund := s.refunds[refundId];
    :- Need(refund.orderId in s.payments, PaymentNotFound);
    :- Need(caller in signers, Trap);
    :- Need(s.settings.admin == Some(caller) || caller == s.payments[refund.orderId].merchant, Unauthorized);
    :- Need(refund.status == Pending, RefundAlreadyCompleted);
    Ok(s.(refunds := s.refunds[refundId := refund.(status := decision)]))
  }

  function ApproveRefund(s: State, signers: set<Address>, caller: Address, refundId: Id): Result<State> {
    DecideRefund(s, signers, caller, refundId, Approved)
  }

  function RejectRefund(s: State, signers: set<Address>, caller: Address, refundId: Id): Result<State> {
    DecideRefund(s, signers, caller, refundId, Rejected)
  }

  function CountRefund(st: Stats, amount: int): Stats {
    st.(totalRefunds := st.totalRefunds + 1, totalRefundVolume := SaturatingAdd(st.totalRefundVolume, amount))
  }

  function RefundedPayment(payment: Payment, amount: int): Payment {
    var refunded := payment.refunded + amount;
    payment.(refunded := refunded, status := if refunded >= payment.amount then FullyRefunded else PartiallyRefunded)
  }

  /** Books one refund transfer: payment and refund records, statistics, then the tokens. */
  function PayOut(s: State, refundId: Id, dispute: Option<Id>): Result<State>
    requires refundId in s.refunds && s.refunds[refundId].orderId in s.payments
  {
    var refund := s.refunds[refundId];
    var payment := s.payments[refund.orderId];
    :- Need(payment.refunded + refund.amount <= I128_MAX, Trap);
    var stats := Lookup(s.merchantStats, payment.merchant, NO_STATS);
    :- Need(stats.totalRefunds < U32_MAX && s.globalStats.totalRefunds < U32_MAX, Trap);
    var balances :- Transfer(s.balances, payment.token, payment.merchant, payment.payer, refund.amount);
    Ok(s.(payments := s.payments[refund.orderId := RefundedPayment(payment, refund.amount)],
          refunds := s.refunds[refundId := refund.(status := RefundStatus.Completed)],
          merchantStats := s.merchantStats[payment.merchant := CountRefund(stats, refund.amount)],
          globalStats := CountRefund(s.globalStats, refund.amount),
          balances := balances,
          payouts := s.payouts + [Payout(refundId, refund.orderId, refund.amount, dispute)]))
  }

  function ExecuteRefund(s: State, signers: set<Address>, refundId: Id): Result<State> {
    var paused := s.settings.paused;
    :- Need(!paused, ContractPaused);
    :- Need(refundId in s.refunds, RefundNotFound);
    var refund := s.refunds[refundId];
    :- Need(refund.status == Approved, RefundNotApproved);
    :- Need(refund.orderId in s.payments, PaymentNotFound);
    :- Need(s.payments[refund.orderId].merchant in signers, Trap);
    PayOut(s, refundId, None)
  }

  // ── Disputes over rejected refunds ────────────────────────────────────────

  function RaiseDispute(s: State, signers: set<Address>, caller: Address, disputeId: Id, refundId: Id, reason: string): Result<State> {
    var paused := s.settings.paused;
    :- Need(!paused, ContractPaused);
    :- Need(caller in signers, Trap);
    :- ValidId(disputeId);
    :- Need(|reason| <= 256, InvalidInput);
    :- Need(disputeId !in s.disputes, DisputeAlreadyExists);
    :- Need(refundId in s.refunds, RefundNotFound);
    var refund := s.refunds[refundId];
    :- Need(refund.status == Rejected, DisputeRefundNotRejected);
    :- Need(refund.orderId in s.payments, PaymentNotFound);
    :- Need(caller == s.payments[refund.orderId].payer, Unauthorized);
    Ok(s.(disputes := s.disputes[disputeId := Dispute(refundId, false, false)]))
  }

  function ResolveDispute(s: State, signers: set<Address>, admin: Address, disputeId: Id, resolution: string, force: bool): Result<State> {
    var paused := s.settings.paused;
    :- Need(!paused, ContractPaused);
    :- Need(admin in signers, Trap);
    :- Need(s.settings.admin == Some(admin), Unauthorized);
    :- Need(0 < |resolution| <= 256, InvalidInput);
    :- Need(disputeId in s.disputes, DisputeNotFound);
    var dispute := s.disputes[disputeId];
    :- Need(!dispute.resolved, DisputeAlreadyResolved);
    var settled := s.(disputes := s.disputes[disputeId := dispute.(resolved := true, forced := force)]);
    if !force then Ok(settled)
    else
      :- Need(dispute.refundId in s.refunds, RefundNotFound);
      :- Need(s.refunds[dispute.refundId].orderId in s.payments, PaymentNotFound);
      PayOut(settled, dispute.refundId, Some(disputeId))
  }

  // ── Runs ──────────────────────────────────────────────────────────────────

  /** Any transaction an actor can submit, plus the admin's configuration and the ledger clock. */
  datatype Step =
    | Pay(signers: set<Address>, payer: Address, orderId: Id, merchant: Address, token: Address, amount: int, checks: Checks)
    | Batch(signers: set<Address>, payer: Address, items: seq<BatchItem>)
    | Initiate(signers: set<Address>, caller: Address, refundId: Id, orderId: Id, amount: int)
    | Approve(signers: set<Address>, caller: Address, refundId: Id)
    | Reject(signers: set<Address>, caller: Address, refundId: Id)
    | Execute(signers: set<Address>, refundId: Id)
    | Raise(signers: set<Address>, caller: Address, disputeId: Id, refundId: Id, reason: string)
    | Resolve(signers: set<Address>, caller: Address, disputeId: Id, resolution: string, force: bool)
    | Configure(settings: Settings)
    | Advance(seconds: nat)

  function Call(s: State, step: Step): Result<State> {
    match step
    case Pay(signers, payer, orderId, merchant, token, amount, checks) =>
      ProcessPayment(s, signers, payer, orderId, merchant, token, amount, checks)
    case Batch(signers, payer, items) => BatchPayment(s, signers, payer, items)
    case Initiate(signers, caller, refundId, orderId, amount) =>
      InitiateRefund(s, signers, caller, refundId, orderId, amount)
    case Approve(signers, caller, refundId) => ApproveRefund(s, signers, caller, refundId)
    case Reject(signers, caller, refundId) => RejectRefund(s, signers, caller, refundId)
    case Execute(signers, refundId) => ExecuteRefund(s, signers, refundId)
    case Raise(signers, caller, disputeId, refundId, reason) =>
      RaiseDispute(s, signers, caller, disputeId, refundId, reason)
    case Resolve(signers, caller, disputeId, resolution, force) =>
      ResolveDispute(s, signers, caller, disputeId, resolution, force)
    case Configure(settings) => Ok(s.(settings := settings))
    case Advance(seconds) => Ok(s.(now := s.now + seconds))
  }

  function Apply(s: State, step: Step): State {
    match Call(s, step)
    case Ok(s') => s'
    case Err(_) => s
  }

  function Run(s: State, steps: seq<Step>): State {
    if steps == [] then s else Apply(Run(s, steps[..|steps| - 1]), steps[|steps| - 1])
  }

  lemma {:induction false} RunAppend(s: State, a: seq<Step>, b: seq<Step>)
    ensures Run(s, a + b) == Run(Run(s, a), b)
  {
    if b == [] {
      assert a + b == a;
    } else {
      var b' := b[..|b| - 1];
      assert (a + b)[..|a + b| - 1] == a + b';
      RunAppend(s, a, b');
    }
  }
}
