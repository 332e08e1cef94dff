/** The contract as a stateful object: storage fields updated in place by the
    entry points. Each method is proved to do exactly what the function of the
    same name in module Contract says, and to leave the object untouched when it
    returns an error. */
module ContractObject {
  import opened Common
  import opened Token
  import Spec = Contract
  import opened Contract

  predicate Follows(before: State, after: State, r: Result<()>, spec: Result<State>) {
    match spec
    case Ok(s) => r.Ok? && after == s
    case Err(e) => r == Err(e) && after == before
  }

  function TakenAndRecorded(s: State, payer: Address, orderId: Id, merchant: Address, token: Address, amount: int): Result<State> {
    var (balances, event, fee) :- Charge(s, payer, orderId, merchant, token, amount);
    RecordPayment(s.(balances := balances), event, fee)
  }

  /** The two states agree on everything a payment record touches. */
  predicate SameRecords(a: State, b: State) {
    && a.payments == b.payments && a.merchantIndex == b.merchantIndex && a.payerIndex == b.payerIndex
    && a.received == b.received && a.merchantStats == b.merchantStats && a.paid == b.paid
  }

  lemma RecordsAreAll(before: State, after: State, e: PaidEvent, fee: int)
    requires RecordPayment(before, e, fee).Ok? && SameRecords(after, RecordPayment(before, e, fee).value)
    requires after.globalStats == RecordPayment(before, e, fee).value.globalStats
    requires after.settings == before.settings && after.now == before.now && after.refunds == before.refunds
    requires after.orderRefunds == before.orderRefunds && after.disputes == before.disputes
    requires after.balances == before.balances && after.payouts == before.payouts
    ensures RecordPayment(before, e, fee) == Ok(after)
  {
  }

  class PaymentProcessingContract {
    var settings: Settings
    var now: nat
    var payments: map<Id, Payment>
    var refunds: map<Id, Refund>
    var orderRefunds: map<Id, seq<Id>>
    var disputes: map<Id, Dispute>
    var payerIndex: map<Address, seq<Id>>
    var merchantIndex: map<Address, seq<Id>>
    var received: map<Address, int>
    var merchantStats: map<Address, Stats>
    var globalStats: Stats
    var balances: Balances
    var paid: seq<PaidEvent>
    var payouts: seq<Payout>

    function View(): State
      reads this
    {
      State(settings, now, payments, refunds, orderRefunds, disputes, payerIndex, merchantIndex,
            received, merchantStats, globalStats, balances, paid, payouts)
    }

    /** The state as it will be once these global statistics are written back. */
    ghost function ViewWith(global: Stats): State
      reads this
    {
      View().(globalStats := global)
    }

    constructor (settings: Settings, now: nat, balances: Balances)
      ensures View() == Init(settings, now, balances)
    {
      this.settings, this.now, this.balances := settings, now, balances;
      payments, refunds, orderRefunds, disputes := map[], map[], map[], map[];
      payerIndex, merchantIndex, received, merchantStats := map[], map[], map[], map[];
      globalStats, paid, payouts := NO_STATS, [], [];
    }

    /** The host's rollback of a failed transaction. */
    method Restore(s: State)
      modifies this
      ensures View() == s
    {
      RestoreRecords(s);
      RestoreTotals(s);
    }

    method RestoreRecords(s: State)
      modifies this`settings, this`now, this`payments, this`refunds, this`orderRefunds, this`disputes
      ensures settings == s.settings && now == s.now && payments == s.payments && refunds == s.refunds
      ensures orderRefunds == s.orderRefunds && disputes == s.disputes
    {
      settings, now, payments, refunds := s.settings, s.now, s.payments, s.refunds;
      orderRefunds, disputes := s.orderRefunds, s.disputes;
    }

    method RestoreTotals(s: State)
      modifies this`payerIndex, this`merchantIndex, this`received, this`merchantStats, this`globalStats
      modifies this`balances, this`paid, this`payouts
      ensures payerIndex == s.payerIndex && merchantIndex == s.merchantIndex && received == s.received
      ensures merchantStats == s.merchantStats && globalStats == s.globalStats
      ensures balances == s.balances && paid == s.paid && payouts == s.payouts
    {
      payerIndex, merchantIndex, received := s.payerIndex, s.merchantIndex, s.received;
      merchantStats, globalStats, balances, paid, payouts := s.merchantStats, s.globalStats, s.balances, s.paid, s.payouts;
    }

    method Move(token: Address, from: Address, to: Address, amount: int) returns (ok: bool)
      modifies this`balances
      ensures ok == Transfer(old(balances), token, from, to, amount).Ok?
      ensures balances == if ok then Transfer(old(balances), token, from, to, amount).value else old(balances)
    {
      if amount < 0 || Balance(balances, token, from) < amount {
        return false;
      }
      var debited := balances[(token, from) := Balance(balances, token, from) - amount];
      if Balance(debited, token, to) + amount > I128_MAX {
        return false;
      }
      balances := debited[(token, to) := Balance(debited, token, to) + amount];
      return true;
    }

    /** Stores, indexes and counts one payment; the caller keeps the global statistics. */
    method Record(e: PaidEvent, fee: int, global: Stats) returns (r: Result<Stats>)
      modifies this`payments, this`merchantIndex, this`payerIndex, this`received, this`merchantStats, this`paid
      ensures r.Err? ==> RecordPayment(old(ViewWith(global)), e, fee) == Err(r.error)
      ensures r.Ok? ==>
                var spec := RecordPayment(old(ViewWith(global)), e, fee);
                spec.Ok? && r.value == spec.value.globalStats && SameRecords(ViewWith(r.value), spec.value)
    {
      payments := payments[e.orderId := Payment(e.payer, e.merchant, e.token, e.amount, fee, PaymentStatus.Completed, now, 0)];
      var indexed := AddToIndexes(e.merchant, e.payer, e.orderId);
      r := Err(PaymentHistoryLimitExceeded);
      if indexed {
        var counted := CountReceived(e.merchant, e.net, e.amount);
        paid := paid + [e];
        r := if counted && global.totalPayments < U32_MAX then Ok(CountPayment(global, e.amount)) else Err(Trap);
      }
    }

    method CountReceived(merchant: Address, net: int, amount: int) returns (ok: bool)
      modifies this`received, this`merchantStats
      ensures var total, stats := Lookup(old(received), merchant, 0) + net, Lookup(old(merchantStats), merchant, NO_STATS);
              && ok == (total <= I128_MAX && stats.totalPayments < U32_MAX)
              && (ok ==> received == old(received)[merchant := total])
              && (ok ==> merchantStats == old(merchantStats)[merchant := CountPayment(stats, amount)])
    {
      var total := Lookup(received, merchant, 0) + net;
      if total > I128_MAX {
        return false;
      }
      received := received[merchant := total];
      var stats := Lookup(merchantStats, merchant, NO_STATS);
      if stats.totalPayments >= U32_MAX {
        return false;
      }
      merchantStats := merchantStats[merchant := CountPayment(stats, amount)];
      return true;
    }

    method AddToIndexes(merchant: Address, payer: Address, orderId: Id) returns (ok: bool)
      modifies this`merchantIndex, this`payerIndex
      ensures ok == (|Index(old(merchantIndex), merchant)| < MAX_PAYMENT_IDS_PER_ACCOUNT
                     && |Index(old(payerIndex), payer)| < MAX_PAYMENT_IDS_PER_ACCOUNT)
      ensures ok ==> merchantIndex == old(merchantIndex)[merchant := Index(old(merchantIndex), merchant) + [orderId]]
      ensures ok ==> payerIndex == old(payerIndex)[payer := Index(old(payerIndex), payer) + [orderId]]
    {
      var ofMerchant := Index(merchantIndex, merchant);
      if |ofMerchant| >= MAX_PAYMENT_IDS_PER_ACCOUNT {
        return false;
      }
      merchantIndex := merchantIndex[merchant := ofMerchant + [orderId]];
      var ofPayer := Index(payerIndex, payer);
      if |ofPayer| >= MAX_PAYMENT_IDS_PER_ACCOUNT {
        return false;
      }
      payerIndex := payerIndex[payer := ofPayer + [orderId]];
      return true;
    }

    /** The transfers of one payment: the price net of the fee, then the fee. */
    method TakePayment(payer: Address, orderId: Id, merchant: Address, token: Address, amount: int) returns (r: Result<(PaidEvent, int)>)
      modifies this`balances
      ensures var spec := Charge(old(View()), payer, orderId, merchant, token, amount);
              if spec.Ok? then balances == spec.value.0 && r == Ok((spec.value.1, spec.value.2)) else r.Err? && spec.error == Trap
    {
      var fee := 0;
      if settings.feeBps > 0 {
        if amount * settings.feeBps > I128_MAX { return Err(Trap); }
        fee := amount * settings.feeBps / FEE_DENOMINATOR;
      }
      var net := amount - fee;
      var ok := Move(token, payer, merchant, net);
      if !ok { return Err(Trap); }
      var feePaid, collector := 0, merchant;
      if fee > 0 && settings.feeRecipient.Some? {
        feePaid, collector := fee, settings.feeRecipient.value;
        ok := Move(token, payer, collector, fee);
        if !ok { return Err(Trap); }
      }
      return Ok((PaidEvent(orderId, payer, merchant, token, amount, net, feePaid, collector), fee));
    }

    method ProcessPayment(signers: set<Address>, payer: Address, orderId: Id, merchant: Address,
                          token: Address, amount: int, checks: Checks)
      returns (r: Result<()>)
      modifies this
      ensures Follows(old(View()), View(), r,
                      Spec.ProcessPayment(old(View()), signers, payer, orderId, merchant, token, amount, checks))
    {
      if settings.paused { return Err(ContractPaused); }
      if payer !in signers { return Err(Trap); }
      if amount <= 0 { return Err(InvalidAmount); }
      if orderId == [] { return Err(InvalidOrderId); }
      if |orderId| > MAX_ID_LEN { return Err(OrderIdTooLong); }
      if checks.form.Some? { return Err(checks.form.value); }
      if token !in settings.allowedTokens { return Err(TokenNotAllowed); }
      if orderId in payments { return Err(PaymentAlreadyExists); }
      if merchant !in settings.merchants { return Err(MerchantNotFound); }
      if !settings.merchants[merchant] { return Err(MerchantInactive); }
      if checks.replay.Some? { return Err(checks.replay.value); }
      var before := View();
      r := TakeAndRecord(payer, orderId, merchant, token, amount);
      if r.Err? {
        Restore(before);
      }
    }

    /** The effects of an accepted payment; the caller rolls back when they fail. */
    method TakeAndRecord(payer: Address, orderId: Id, merchant: Address, token: Address, amount: int) returns (r: Result<()>)
      modifies this
      ensures r.Err? ==> TakenAndRecorded(old(View()), payer, orderId, merchant, token, amount) == Err(r.error)
      ensures r.Ok? ==> TakenAndRecorded(old(View()), payer, orderId, merchant, token, amount) == Ok(View())
    {
      var charged := TakePayment(payer, orderId, merchant, token, amount);
      if charged.Err? {
        return Err(Trap);
      }
      r := RecordSingle(charged.value.0, charged.value.1);
    }

    method RecordSingle(e: PaidEvent, fee: int) returns (r: Result<()>)
      modifies this
      ensures r.Err? ==> RecordPayment(old(View()), e, fee) == Err(r.error)
      ensures r.Ok? ==> RecordPayment(old(View()), e, fee) == Ok(View())
    {
      var counted := Record(e, fee, globalStats);
      if counted.Err? {
        return Err(counted.error);
      }
      globalStats := counted.value;
      RecordsAreAll(old(View()), View(), e, fee);
      return Ok(());
    }

    /** Phase 1 of a batch: every item is validated before anything is written. */
    method ValidateItems(items: seq<BatchItem>) returns (c: Check)
      ensures c == CheckItems(View(), items, 0)
    {
      var seen: seq<Id> := [];
      for i := 0 to |items|
        invariant seen == OrderIds(items[..i])
        invariant CheckItems(View(), items, 0) == CheckItems(View(), items, i)
      {
        var item := items[i];
        if item.amount <= 0 { return Fail(InvalidAmount); }
        if item.orderId == [] { return Fail(InvalidOrderId); }
        if |item.orderId| > MAX_ID_LEN { return Fail(OrderIdTooLong); }
        if item.checks.form.Some? { return Fail(item.checks.form.value); }
        for k := 0 to |seen|
          invariant item.orderId !in seen[..k]
        {
          if seen[k] == item.orderId { return Fail(DuplicateOrderId); }
        }
        seen := seen + [item.orderId];
        if item.token !in settings.allowedTokens { return Fail(TokenNotAllowed); }
        if item.orderId in payments { return Fail(PaymentAlreadyExists); }
        if item.merchant !in settings.merchants { return Fail(MerchantNotFound); }
        if !settings.merchants[item.merchant] { return Fail(MerchantInactive); }
        if item.checks.replay.Some? { return Fail(item.checks.replay.value); }
        assert OrderIds(items[..i + 1]) == OrderIds(items[..i]) + [item.orderId];
      }
      return Pass;
    }

    /** Phase 3 of a batch: one transfer for each group. */
    method PayEach(payer: Address, groups: seq<Group>) returns (ok: bool)
      modifies this`balances
      ensures ok == PayGroups(old(balances), payer, groups).Ok?
      ensures ok ==> balances == PayGroups(old(balances), payer, groups).value
      ensures !ok ==> PayGroups(old(balances), payer, groups) == Err(Trap)
    {
      for i := 0 to |groups|
        invariant PayGroups(old(balances), payer, groups[..i]) == Ok(balances)
      {
        assert groups[..i + 1][..i] == groups[..i];
        ok := Move(groups[i].token, payer, groups[i].merchant, groups[i].total);
        if !ok {
          PayGroupsPrefix(old(balances), payer, groups, i + 1);
          return false;
        }
      }
      assert groups[..|groups|] == groups;
      return true;
    }

    /** Phase 4 of a batch: the records; the global statistics are written once, at the end. */
    method RecordEach(payer: Address, items: seq<BatchItem>) returns (r: Result<()>)
      modifies this
      ensures var spec := RecordAll(old(View()), payer, items);
              && r.Ok? == spec.Ok?
              && (r.Err? ==> spec == Err(r.error))
              && (r.Ok? ==> View() == spec.value)
    {
      var global := globalStats;
      for i := 0 to |items|
        invariant RecordAll(old(View()), payer, items[..i]) == Ok(ViewWith(global))
      {
        ghost var before := ViewWith(global);
        RecordedNext(old(View()), before, payer, items, i);
        var counted := Record(BatchEvent(payer, items[i]), 0, global);
        if counted.Err? {
          RecordAllPrefix(old(View()), payer, items, i + 1);
          return Err(counted.error);
        }
        global := counted.value;
        RecordsAreAll(before, ViewWith(global), BatchEvent(payer, items[i]), 0);
      }
      assert items[..|items|] == items;
      globalStats := global;
      return Ok(());
    }

    method BatchPayment(signers: set<Address>, payer: Address, items: seq<BatchItem>) returns (r: Result<()>)
      modifies this
      ensures Follows(old(View()), View(), r, Spec.BatchPayment(old(View()), signers, payer, items))
    {
      if settings.paused { return Err(ContractPaused); }
      if payer !in signers { return Err(Trap); }
      if |items| > MAX_BATCH_SIZE { return Err(BatchSizeExceeded); }
      var valid := ValidateItems(items);
      if valid.Fail? { return Err(valid.error); }
      var groups := GroupByTokenAndMerchant(items);
      if groups.None? { return Err(Trap); }
      var before := View();
      var ok := PayEach(payer, groups.value);
      if !ok {
        Restore(before);
        return Err(Trap);
      }
      r := RecordEach(payer, items);
      if r.Err? {
        Restore(before);
      }
    }

    method InitiateRefund(signers: set<Address>, caller: Address, refundId: Id, orderId: Id, amount: int) returns (r: Result<()>)
      modifies this`refunds, this`orderRefunds
      ensures Follows(old(View()), View(), r, Spec.InitiateRefund(old(View()), signers, caller, refundId, orderId, amount))
    {
      if settings.paused { return Err(ContractPaused); }
      if caller !in signers { return Err(Trap); }
      if amount <= 0 { return Err(InvalidAmount); }
      if amount < settings.minRefund { return Err(RefundBelowMinimum); }
      if refundId == [] { return Err(InvalidOrderId); }
      if |refundId| > MAX_ID_LEN { return Err(OrderIdTooLong); }
      if refundId in refunds { return Err(RefundAlreadyExists); }
      if orderId !in payments { return Err(PaymentNotFound); }
      var payment := payments[orderId];
      var ids := Lookup(orderRefunds, orderId, []);
      if |ids| >= MAX_REFUNDS_PER_PAYMENT { return Err(RefundLimitExceeded); }
      if caller != payment.payer && caller != payment.merchant { return Err(Unauthorized); }
      if payment.paidAt + settings.refundWindow > U64_MAX { return Err(Trap); }
      if now > payment.paidAt + settings.refundWindow { return Err(RefundWindowExpired); }
      if payment.refunded + amount > I128_MAX { return Err(Trap); }
      if payment.refunded + amount > payment.amount { return Err(RefundExceedsOriginal); }
      refunds := refunds[refundId := Refund(orderId, caller, amount, Pending, now)];
      orderRefunds := orderRefunds[orderId := ids + [refundId]];
      return Ok(());
    }

    method ApproveRefund(signers: set<Address>, caller: Address, refundId: Id) returns (r: Result<()>)
      modifies this`refunds
      ensures Follows(old(View()), View(), r, Spec.ApproveRefund(old(View()), signers, caller, refundId))
    {
      if settings.paused { return Err(ContractPaused); }
      if refundId !in refunds { return Err(RefundNotFound); }
      var refund := refunds[refundId];
      if refund.orderId !in payments { return Err(PaymentNotFound); }
      if caller !in signers { return Err(Trap); }
      if settings.admin != Some(caller) && caller != payments[refund.orderId].merchant { return Err(Unauthorized); }
      if refund.status != Pending { return Err(RefundAlreadyCompleted); }
      refunds := refunds[refundId := refund.(status := Approved)];
      return Ok(());
    }

    method RejectRefund(signers: set<Address>, caller: Address, refundId: Id) returns (r: Result<()>)
      modifies this`refunds
      ensures Follows(old(View()), View(), r, Spec.RejectRefund(old(View()), signers, caller, refundId))
    {
      if settings.paused { return Err(ContractPaused); }
      if refundId !in refunds { return Err(RefundNotFound); }
      var refund := refunds[refundId];
      if refund.orderId !in payments { return Err(PaymentNotFound); }
      if caller !in signers { return Err(Trap); }
      if settings.admin != Some(caller) && caller != payments[refund.orderId].merchant { return Err(Unauthorized); }
      if refund.status != Pending { return Err(RefundAlreadyCompleted); }
      refunds := refunds[refundId := refund.(status := Rejected)];
      return Ok(());
    }

    /** The effects, then the transfer, of one refund; the caller rolls back when it fails. */
    method Settle(refundId: Id, dispute: Option<Id>) returns (ok: bool)
      requires refundId in refunds && refunds[refundId].orderId in payments
      modifies this`payments, this`refunds, this`merchantStats, this`globalStats, this`balances, this`payouts
      ensures ok == PayOut(old(View()), refundId, dispute).Ok?
      ensures !ok ==> PayOut(old(View()), refundId, dispute) == Err(Trap)
      ensures ok ==> var s := PayOut(old(View()), refundId, dispute).value;
                     && payments == s.payments && refunds == s.refunds && merchantStats == s.merchantStats
                     && globalStats == s.globalStats && balances == s.balances && payouts == s.payouts
    {
      var refund := refunds[refundId];
      var payment := payments[refund.orderId];
      ghost var before := View();
      ok := payment.refunded + refund.amount <= I128_MAX;
      if ok {
        MarkRefunded(refundId, refund, payment);
        ok := CountRefunded(payment.merchant, refund.amount);
      }
      if ok {
        ok := Move(payment.token, payment.merchant, payment.payer, refund.amount);
        payouts := payouts + [Payout(refundId, refund.orderId, refund.amount, dispute)];
      }
      if !ok {
        PayOutTraps(before, refundId, dispute);
      }
    }

    method CountRefunded(merchant: Address, amount: int) returns (ok: bool)
      modifies this`merchantStats, this`globalStats
      ensures var stats := Lookup(old(merchantStats), merchant, NO_STATS);
              && ok == (stats.totalRefunds < U32_MAX && old(globalStats).totalRefunds < U32_MAX)
              && (ok ==> merchantStats == old(merchantStats)[merchant := CountRefund(stats, amount)])
              && (ok ==> globalStats == CountRefund(old(globalStats), amount))
    {
      var stats := Lookup(merchantStats, merchant, NO_STATS);
      if stats.totalRefunds >= U32_MAX || globalStats.totalRefunds >= U32_MAX { return false; }
      merchantStats := merchantStats[merchant := CountRefund(stats, amount)];
      globalStats := CountRefund(globalStats, amount);
      return true;
    }

    method MarkRefunded(refundId: Id, refund: Refund, payment: Payment)
      modifies this`payments, this`refunds
      ensures payments == old(payments)[refund.orderId := RefundedPayment(payment, refund.amount)]
      ensures refunds == old(refunds)[refundId := refund.(status := RefundStatus.Completed)]
    {
      var refunded := payment.refunded + refund.amount;
      var status := PartiallyRefunded;
      if refunded >= payment.amount {
        status := FullyRefunded;
      }
      payments := payments[refund.orderId := payment.(refunded := refunded, status := status)];
      refunds := refunds[refundId := refund.(status := RefundStatus.Completed)];
    }

    method ExecuteRefund(signers: set<Address>, refundId: Id) returns (r: Result<()>)
      modifies this
      ensures Follows(old(View()), View(), r, Spec.ExecuteRefund(old(View()), signers, refundId))
    {
      if settings.paused { return Err(ContractPaused); }
      if refundId !in refunds { return Err(RefundNotFound); }
      if refunds[refundId].status != Approved { return Err(RefundNotApproved); }
      if refunds[refundId].orderId !in payments { return Err(PaymentNotFound); }
      if payments[refunds[refundId].orderId].merchant !in signers { return Err(Trap); }
      var before := View();
      var ok := Settle(refundId, None);
      if !ok {
        Restore(before);
        return Err(Trap);
      }
      return Ok(());
    }

    method RaiseDispute(signers: set<Address>, caller: Address, disputeId: Id, refundId: Id, reason: string) returns (r: Result<()>)
      modifies this`disputes
      ensures Follows(old(View()), View(), r, Spec.RaiseDispute(old(View()), signers, caller, disputeId, refundId, reason))
    {
      if settings.paused { return Err(ContractPaused); }
      if caller !in signers { return Err(Trap); }
      if disputeId == [] { return Err(InvalidOrderId); }
      if |disputeId| > MAX_ID_LEN { return Err(OrderIdTooLong); }
      if |reason| > 256 { return Err(InvalidInput); }
      if disputeId in disputes { return Err(DisputeAlreadyExists); }
      if refundId !in refunds { return Err(RefundNotFound); }
      var refund := refunds[refundId];
      if refund.status != Rejected { return Err(DisputeRefundNotRejected); }
      if refund.orderId !in payments { return Err(PaymentNotFound); }
      if caller != payments[refund.orderId].payer { return Err(Unauthorized); }
      disputes := disputes[disputeId := Dispute(refundId, false, false)];
      return Ok(());
    }

    method ResolveDispute(signers: set<Address>, admin: Address, disputeId: Id, resolution: string, force: bool) returns (r: Result<()>)
      modifies this
      ensures Follows(old(View()), View(), r, Spec.ResolveDispute(old(View()), signers, admin, disputeId, resolution, force))
    {
      if settings.paused { return Err(ContractPaused); }
      if admin !in signers { return Err(Trap); }
      if settings.admin != Some(admin) { return Err(Unauthorized); }
      if |resolution| == 0 || |resolution| > 256 { return Err(InvalidInput); }
      if disputeId !in disputes { return Err(DisputeNotFound); }
      var dispute := disputes[disputeId];
      if dispute.resolved { return Err(DisputeAlreadyResolved); }
      var before := View();
      disputes := disputes[disputeId := dispute.(resolved := true, forced := force)];
      if force {
        r := ForceRefund(dispute.refundId, disputeId);
        if r.Err? {
          Restore(before);
        }
        return;
      }
      return Ok(());
    }

    method Configure(settings: Settings)
      modifies this`settings
      ensures View() == old(View()).(settings := settings)
    {
      this.settings := settings;
    }

    method Advance(seconds: nat)
      modifies this`now
      ensures View() == old(View()).(now := old(now) + seconds)
    {
      now := now + seconds;
    }

    /** One transaction: it takes effect as a whole or, refused, not at all. */
    method Perform(step: Step) returns (r: Result<()>)
      modifies this
      ensures View() == Apply(old(View()), step)
      ensures r.Ok? <==> Call(old(View()), step).Ok?
      ensures r.Err? ==> Call(old(View()), step) == Err(r.error)
    {
      match step
      case Pay(signers, payer, orderId, merchant, token, amount, checks) =>
        r := ProcessPayment(signers, payer, orderId, merchant, token, amount, checks);
      case Batch(signers, payer, items) =>
        r := BatchPayment(signers, payer, items);
      case Initiate(signers, caller, refundId, orderId, amount) =>
        r := InitiateRefund(signers, caller, refundId, orderId, amount);
      case Approve(signers, caller, refundId) =>
        r := ApproveRefund(signers, caller, refundId);
      case Reject(signers, caller, refundId) =>
        r := RejectRefund(signers, caller, refundId);
      case Execute(signers, refundId) =>
        r := ExecuteRefund(signers, refundId);
      case _ =>
        r := PerformOther(step);
    }

    /** Disputes, configuration and the passing of time. */
    method PerformOther(step: Step) returns (r: Result<()>)
      requires step.Raise? || step.Resolve? || step.Configure? || step.Advance?
      modifies this
      ensures Follows(old(View()), View(), r, Call(old(View()), step))
    {
      match step
      case Raise(signers, caller, disputeId, refundId, reason) =>
        r := RaiseDispute(signers, caller, disputeId, refundId, reason);
      case Resolve(signers, caller, disputeId, resolution, force) =>
        r := ResolveDispute(signers, caller, disputeId, resolution, force);
      case Configure(settings) =>
        Configure(settings);
        r := Ok(());
      case Advance(seconds) =>
        Advance(seconds);
        r := Ok(());
    }

    /** Pays a refund on behalf of a dispute settled for the payer; the caller rolls back when it fails. */
    method ForceRefund(refundId: Id, disputeId: Id) returns (r: Result<()>)
      modifies this
      ensures var s := old(View());
              if refundId !in s.refunds then r == Err(RefundNotFound)
              else if s.refunds[refundId].orderId !in s.payments then r == Err(PaymentNotFound)
              else if PayOut(s, refundId, Some(disputeId)).Err? then r == Err(Trap) && PayOut(s, refundId, Some(disputeId)) == Err(Trap)
              else r.Ok? && View() == PayOut(s, refundId, Some(disputeId)).value
    {
      if refundId !in refunds { return Err(RefundNotFound); }
      if refunds[refundId].orderId !in payments { return Err(PaymentNotFound); }
      var ok := Settle(refundId, Some(disputeId));
      return if ok then Ok(()) else Err(Trap);
    }
  }

  /** Adds one item to the groups: to the one with its token and merchant, or as a new one. */
  method AddItem(groups: seq<Group>, item: BatchItem) returns (r: Option<seq<Group>>)
    ensures r == AddToGroups(groups, item)
  {
    var found := false;
    var updated: seq<Group> := [];
    for j := 0 to |groups|
      invariant found == Mentions(groups[..j], item)
      invariant AddToMatching(groups[..j], item) == Some(updated)
    {
      var g := groups[j];
      OneMoreGroup(groups, item, j, updated);
      if SameGroup(g, item) {
        if g.total + item.amount > I128_MAX {
          AddToMatchingPrefix(groups, item, j + 1);
          return None;
        }
        updated := updated + [g.(total := g.total + item.amount)];
        found := true;
      } else {
        updated := updated + [g];
      }
    }
    assert groups[..|groups|] == groups;
    return Some(if found then updated else updated + [Group(item.token, item.merchant, item.amount)]);
  }

  lemma MentionsAppend(groups: seq<Group>, g: Group, item: BatchItem)
    ensures Mentions(groups + [g], item) <==> Mentions(groups, item) || SameGroup(g, item)
  {
    if k :| 0 <= k < |groups| && SameGroup(groups[k], item) {
      assert SameGroup((groups + [g])[k], item);
    }
    assert (groups + [g])[|groups|] == g;
  }

  /** Phase 2 of a batch: the amounts of items with the same token and merchant, summed. */
  lemma OneMoreGroup(groups: seq<Group>, item: BatchItem, j: nat, updated: seq<Group>)
    requires j < |groups| && AddToMatching(groups[..j], item) == Some(updated)
    ensures Mentions(groups[..j + 1], item) <==> Mentions(groups[..j], item) || SameGroup(groups[j], item)
    ensures var g := groups[j];
      AddToMatching(groups[..j + 1], item) ==
        if !SameGroup(g, item) then Some(updated + [g])
        else if g.total + item.amount > I128_MAX then None
        else Some(updated + [g.(total := g.total + item.amount)])
  {
    assert groups[..j + 1][..j] == groups[..j];
    assert groups[..j + 1] == groups[..j] + [groups[j]];
    MentionsAppend(groups[..j], groups[j], item);
  }

  method GroupByTokenAndMerchant(items: seq<BatchItem>) returns (groups: Option<seq<Group>>)
    ensures groups == GroupItems(items)
  {
    groups := Some([]);
    for i := 0 to |items|
      invariant groups.Some? && GroupItems(items[..i]) == groups
    {
      assert items[..i + 1][..i] == items[..i];
      groups := AddItem(groups.value, items[i]);
      if groups.None? {
        GroupItemsPrefix(items, i + 1);
        return;
      }
    }
    assert items[..|items|] == items;
  }

  /** A refund transfer fails only by aborting. */
  lemma PayOutTraps(s: State, refundId: Id, dispute: Option<Id>)
    requires refundId in s.refunds && s.refunds[refundId].orderId in s.payments && PayOut(s, refundId, dispute).Err?
    ensures PayOut(s, refundId, dispute) == Err(Trap)
  {
  }

  lemma {:induction false} AddToMatchingPrefix(groups: seq<Group>, item: BatchItem, n: nat)
    requires n <= |groups| && AddToMatching(groups[..n], item).None?
    ensures AddToMatching(groups, item).None?
    decreases |groups|
  {
    if n == |groups| {
      assert groups[..n] == groups;
    } else {
      assert groups[..|groups| - 1][..n] == groups[..n];
      AddToMatchingPrefix(groups[..|groups| - 1], item, n);
    }
  }

  lemma {:induction false} GroupItemsPrefix(items: seq<BatchItem>, n: nat)
    requires n <= |items| && GroupItems(items[..n]).None?
    ensures GroupItems(items).None?
    decreases |items|
  {
    if n == |items| {
      assert items[..n] == items;
    } else {
      assert items[..|items| - 1][..n] == items[..n];
      GroupItemsPrefix(items[..|items| - 1], n);
    }
  }

  lemma {:induction false} PayGroupsPrefix(b: Balances, payer: Address, groups: seq<Group>, n: nat)
    requires n <= |groups| && PayGroups(b, payer, groups[..n]) == Err(Trap)
    ensures PayGroups(b, payer, groups) == Err(Trap)
    decreases |groups|
  {
    if n == |groups| {
      assert groups[..n] == groups;
    } else {
      assert groups[..|groups| - 1][..n] == groups[..n];
      PayGroupsPrefix(b, payer, groups[..|groups| - 1], n);
    }
  }

  lemma RecordedNext(s: State, mid: State, payer: Address, items: seq<BatchItem>, i: nat)
    requires i < |items| && RecordAll(s, payer, items[..i]) == Ok(mid)
    ensures RecordAll(s, payer, items[..i + 1]) == RecordPayment(mid, BatchEvent(payer, items[i]), 0)
  {
    assert items[..i + 1][..i] == items[..i];
  }

  lemma {:induction false} RecordAllPrefix(s: State, payer: Address, items: seq<BatchItem>, n: nat)
    requires n <= |items| && RecordAll(s, payer, items[..n]).Err?
    ensures RecordAll(s, payer, items) == RecordAll(s, payer, items[..n])
    decreases |items|
  {
    if n == |items| {
      assert items[..n] == items;
    } else {
      assert items[..|items| - 1][..n] == items[..n];
      RecordAllPrefix(s, payer, items[..|items| - 1], n);
    }
  }
}
