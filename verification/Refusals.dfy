/** What a refused call may say: every error code the contract returns is true of the state
    and the call, whichever entry point returns it. */
module Refusals {
  import opened Common
  import opened Token
  import opened Contract
  import opened RefundTheorems

  /** The purchases of a call, one by one. */
  function Purchases(step: Step): seq<BatchItem> {
    match step
    case Pay(_, _, orderId, merchant, token, amount, checks) => [BatchItem(orderId, merchant, token, amount, checks)]
    case Batch(_, _, items) => items
    case _ => []
  }

  /** The ids a call would store something under. */
  function NewIds(step: Step): seq<Id> {
    match step
    case Initiate(_, _, refundId, _, _) => [refundId]
    case Raise(_, _, disputeId, _, _) => [disputeId]
    case _ => OrderIds(Purchases(step))
  }

  /** The refund a call names, itself or through a dispute. */
  function Named(s: State, step: Step): Option<Id> {
    match step
    case Approve(_, _, id) => Some(id)
    case Reject(_, _, id) => Some(id)
    case Execute(_, id) => Some(id)
    case Raise(_, _, _, id, _) => Some(id)
    case Resolve(_, _, d, _, _) => if d in s.disputes then Some(s.disputes[d].refundId) else None
    case _ => None
  }

  function OrderOf(s: State, step: Step): Option<Id> {
    if step.Initiate? then Some(step.orderId)
    else if Named(s, step).Some? && Named(s, step).value in s.refunds then Some(s.refunds[Named(s, step).value].orderId)
    else None
  }

  /** The caller has no part in the matter. */
  predicate Stranger(s: State, step: Step) {
    var o := OrderOf(s, step);
    match step
    case Initiate(_, caller, _, orderId, _) =>
      orderId in s.payments && caller != s.payments[orderId].payer && caller != s.payments[orderId].merchant
    case Raise(_, caller, _, _, _) => o.Some? && o.value in s.payments && caller != s.payments[o.value].payer
    case Resolve(_, caller, _, _, _) => s.settings.admin != Some(caller)
    case Approve(_, caller, _) => o.Some? && o.value in s.payments && s.settings.admin != Some(caller) && caller != s.payments[o.value].merchant
    case Reject(_, caller, _) => o.Some? && o.value in s.payments && s.settings.admin != Some(caller) && caller != s.payments[o.value].merchant
    case _ => false
  }

  /** What the error says. A trap says nothing: an authorisation, an amount or a number is missing. */
  ghost predicate True(s: State, step: Step, e: PaymentError) {
    match e
    case Trap => true
    case ContractPaused => s.settings.paused
    case InvalidAmount => (step.Initiate? && step.amount <= 0) || exists i :: i in Purchases(step) && i.amount <= 0
    case InvalidOrderId => "" in NewIds(step)
    case OrderIdTooLong => exists id :: id in NewIds(step) && |id| > 64
    case DuplicateOrderId => exists j, k :: 0 <= j < k < |NewIds(step)| && NewIds(step)[j] == NewIds(step)[k]
    case TokenNotAllowed => exists i :: i in Purchases(step) && i.token !in s.settings.allowedTokens
    case PaymentAlreadyExists => exists i :: i in Purchases(step) && i.orderId in s.payments
    case MerchantNotFound => exists i :: i in Purchases(step) && i.merchant !in s.settings.merchants
    case MerchantInactive => exists i :: i in Purchases(step) && i.merchant in s.settings.merchants && !s.settings.merchants[i.merchant]
    case BatchSizeExceeded => |Purchases(step)| > 10
    case PaymentHistoryLimitExceeded => exists i :: i in Purchases(step) && HistoryFull(s, step, i.merchant)
    case PaymentNotFound => OrderOf(s, step).Some? && OrderOf(s, step).value !in s.payments
    case RefundNotFound => Named(s, step).Some? && Named(s, step).value !in s.refunds
    case RefundAlreadyExists => step.Initiate? && step.refundId in s.refunds
    case RefundBelowMinimum => step.Initiate? && step.amount < s.settings.minRefund
    case RefundLimitExceeded => step.Initiate? && |RefundIds(s, step.orderId)| >= 10
    case RefundWindowExpired => step.Initiate? && step.orderId in s.payments && s.now > s.payments[step.orderId].paidAt + s.settings.refundWindow
    case RefundExceedsOriginal => step.Initiate? && step.orderId in s.payments && s.payments[step.orderId].refunded + step.amount > s.payments[step.orderId].amount
    case RefundAlreadyCompleted => (step.Approve? || step.Reject?) && StatusOf(s, step.refundId) !in {None, Some(Pending)}
    case RefundNotApproved => step.Execute? && StatusOf(s, step.refundId) !in {None, Some(Approved)}
    case Unauthorized => Stranger(s, step)
    case InvalidInput => (step.Raise? && |step.reason| > 256) || (step.Resolve? && !(1 <= |step.resolution| <= 256))
    case DisputeAlreadyExists => step.Raise? && step.disputeId in s.disputes
    case DisputeRefundNotRejected => step.Raise? && StatusOf(s, step.refundId) !in {None, Some(Rejected)}
    case DisputeNotFound => step.Resolve? && step.disputeId !in s.disputes
    case DisputeAlreadyResolved => step.Resolve? && step.disputeId in s.disputes && s.disputes[step.disputeId].resolved
    case _ => false
  }

  /** With the payments of the call, more than 10000 in one history. */
  predicate HistoryFull(s: State, step: Step, merchant: Address) {
    && (step.Pay? || step.Batch?)
    && (|Index(s.merchantIndex, merchant)| + |Purchases(step)| > 10_000 || |Index(s.payerIndex, step.payer)| + |Purchases(step)| > 10_000)
  }

  /** The error of a check that is an input of the call. */
  ghost predicate Given(step: Step, e: PaymentError) {
    exists i :: i in Purchases(step) && (i.checks.form == Some(e) || i.checks.replay == Some(e))
  }

  lemma ChargeRefused(s: State, payer: Address, orderId: Id, merchant: Address, token: Address, amount: int)
    requires Charge(s, payer, orderId, merchant, token, amount).Err?
    ensures Charge(s, payer, orderId, merchant, token, amount).error == Trap
  {
  }

  lemma ChargeNames(s: State, payer: Address, orderId: Id, merchant: Address, token: Address, amount: int)
    requires Charge(s, payer, orderId, merchant, token, amount).Ok?
    ensures var e := Charge(s, payer, orderId, merchant, token, amount).value.1; e.payer == payer && e.merchant == merchant
  {
  }

  /** What the error says of one purchase. */
  predicate Blames(s: State, step: Step, item: BatchItem, e: PaymentError) {
    || item.checks.form == Some(e) || item.checks.replay == Some(e)
    || match e
       case InvalidAmount => item.amount <= 0
       case InvalidOrderId => item.orderId == ""
       case OrderIdTooLong => |item.orderId| > 64
       case TokenNotAllowed => item.token !in s.settings.allowedTokens
       case PaymentAlreadyExists => item.orderId in s.payments
       case MerchantNotFound => item.merchant !in s.settings.merchants
       case MerchantInactive => item.merchant in s.settings.merchants && !s.settings.merchants[item.merchant]
       case PaymentHistoryLimitExceeded => HistoryFull(s, step, item.merchant)
       case _ => false
  }

  lemma BlamedIsTrue(s: State, step: Step, k: nat, e: PaymentError)
    requires k < |Purchases(step)| && Blames(s, step, Purchases(step)[k], e) && !step.Initiate? && !step.Raise?
    ensures True(s, step, e) || Given(step, e)
  {
    assert Purchases(step)[k] in Purchases(step);
    assert NewIds(step)[k] == Purchases(step)[k].orderId;
    assert Purchases(step)[k].orderId in NewIds(step);
  }

  lemma BadId(s: State, step: Step, id: Id)
    requires (step.Initiate? && id == step.refundId) || (step.Raise? && id == step.disputeId)
    ensures ValidId(id).Fail? ==> True(s, step, ValidId(id).error)
  {
    assert NewIds(step)[0] == id;
  }

  lemma PayBlames(s: State, step: Step)
    requires step.Pay? && Call(s, step).Err?
    ensures var e := Call(s, step).error;
      e == Trap || (e == ContractPaused && s.settings.paused) || Blames(s, step, Purchases(step)[0], e)
  {
    hide Charge, RecordPayment;
    var charged := Charge(s, step.payer, step.orderId, step.merchant, step.token, step.amount);
    if charged.Err? {
      ChargeRefused(s, step.payer, step.orderId, step.merchant, step.token, step.amount);
    } else {
      ChargeNames(s, step.payer, step.orderId, step.merchant, step.token, step.amount);
      var (b, e, fee) := charged.value;
      if RecordPayment(s.(balances := b), e, fee).Err? {
        RecordRefused(s.(balances := b), e, fee);
      }
    }
  }

  lemma PayRefused(s: State, step: Step)
    requires step.Pay? && Call(s, step).Err?
    ensures True(s, step, Call(s, step).error) || Given(step, Call(s, step).error)
  {
    PayBlames(s, step);
    var e := Call(s, step).error;
    assert True(s, step, Trap) && (s.settings.paused ==> True(s, step, ContractPaused));
    hide Call, True, Given, Blames;
    if Blames(s, step, Purchases(step)[0], e) {
      BlamedIsTrue(s, step, 0, e);
    }
  }

  lemma {:induction false} ItemRefused(s: State, step: Step, i: nat)
    requires step.Batch? && i <= |step.items| && CheckItems(s, step.items, i).Fail?
    ensures True(s, step, CheckItems(s, step.items, i).error) || Given(step, CheckItems(s, step.items, i).error)
    decreases |step.items| - i
  {
    var item, earlier := step.items[i], OrderIds(step.items[..i]);
    var check := CheckItem(s, item, earlier);
    if check.Pass? {
      ItemRefused(s, step, i + 1);
    } else if Blames(s, step, item, check.error) {
      BlamedIsTrue(s, step, i, check.error);
    } else {
      var j :| 0 <= j < i && earlier[j] == item.orderId;
      assert NewIds(step)[j] == NewIds(step)[i];
    }
  }

  lemma RecordRefused(s: State, e: PaidEvent, fee: int)
    requires RecordPayment(s, e, fee).Err?
    ensures RecordPayment(s, e, fee).error == Trap || RecordPayment(s, e, fee).error == PaymentHistoryLimitExceeded
    ensures RecordPayment(s, e, fee).error == PaymentHistoryLimitExceeded ==>
              |Index(s.merchantIndex, e.merchant)| >= 10_000 || |Index(s.payerIndex, e.payer)| >= 10_000
  {
  }

  lemma {:induction false} HistoryGrows(s: State, payer: Address, items: seq<BatchItem>)
    requires RecordAll(s, payer, items).Ok?
    ensures |Index(RecordAll(s, payer, items).value.payerIndex, payer)| <= |Index(s.payerIndex, payer)| + |items|
    ensures forall m :: |Index(RecordAll(s, payer, items).value.merchantIndex, m)| <= |Index(s.merchantIndex, m)| + |items|
  {
    if items != [] {
      HistoryGrows(s, payer, items[..|items| - 1]);
    }
  }

  lemma {:induction false} RecordsRefused(s: State, payer: Address, items: seq<BatchItem>) returns (k: nat)
    requires RecordAll(s, payer, items).Err?
    ensures RecordAll(s, payer, items).error == Trap || RecordAll(s, payer, items).error == PaymentHistoryLimitExceeded
    ensures k < |items|
    ensures RecordAll(s, payer, items).error == PaymentHistoryLimitExceeded ==>
              |Index(s.merchantIndex, items[k].merchant)| + |items| > 10_000 || |Index(s.payerIndex, payer)| + |items| > 10_000
  {
    var n := |items| - 1;
    if RecordAll(s, payer, items[..n]).Err? {
      k := RecordsRefused(s, payer, items[..n]);
    } else {
      k := n;
      HistoryGrows(s, payer, items[..n]);
      RecordRefused(RecordAll(s, payer, items[..n]).value, BatchEvent(payer, items[n]), 0);
    }
  }

  lemma {:induction false} GroupsRefused(b: Balances, payer: Address, groups: seq<Group>)
    requires PayGroups(b, payer, groups).Err?
    ensures PayGroups(b, payer, groups).error == Trap
  {
    if PayGroups(b, payer, groups[..|groups| - 1]).Err? {
      GroupsRefused(b, payer, groups[..|groups| - 1]);
    }
  }

  lemma BatchRefused(s: State, step: Step)
    requires step.Batch? && Call(s, step).Err?
    ensures True(s, step, Call(s, step).error) || Given(step, Call(s, step).error)
  {
    assert True(s, step, Trap) && (s.settings.paused ==> True(s, step, ContractPaused));
    assert |step.items| > 10 ==> True(s, step, BatchSizeExceeded);
    hide True, Given, CheckItems, GroupItems, PayGroups, RecordAll;
    if !s.settings.paused && step.payer in step.signers && |step.items| <= 10 {
      if CheckItems(s, step.items, 0).Fail? {
        ItemRefused(s, step, 0);
      } else if GroupItems(step.items).Some? {
        var groups := GroupItems(step.items).value;
        if PayGroups(s.balances, step.payer, groups).Err? {
          GroupsRefused(s.balances, step.payer, groups);
        } else {
          var k := RecordsRefused(s.(balances := PayGroups(s.balances, step.payer, groups).value), step.payer, step.items);
          if Call(s, step).error == PaymentHistoryLimitExceeded {
            BlamedIsTrue(s, step, k, PaymentHistoryLimitExceeded);
          }
        }
      }
    }
  }

  lemma PayOutRefused(s: State, id: Id, dispute: Option<Id>)
    requires id in s.refunds && s.refunds[id].orderId in s.payments && PayOut(s, id, dispute).Err?
    ensures PayOut(s, id, dispute).error == Trap
  {
  }

  lemma RequestRefused(s: State, step: Step)
    requires step.Initiate? && Call(s, step).Err?
    ensures True(s, step, Call(s, step).error)
  {
    BadId(s, step, step.refundId);
    hide ValidId, NewIds;
  }

  lemma DecisionRefused(s: State, step: Step)
    requires (step.Approve? || step.Reject?) && Call(s, step).Err?
    ensures True(s, step, Call(s, step).error)
  {
  }

  lemma ExecutionRefused(s: State, step: Step)
    requires step.Execute? && Call(s, step).Err?
    ensures True(s, step, Call(s, step).error)
  {
    hide PayOut;
    if step.refundId in s.refunds && s.refunds[step.refundId].orderId in s.payments && PayOut(s, step.refundId, None).Err? {
      PayOutRefused(s, step.refundId, None);
    }
  }

  lemma RaiseRefused(s: State, step: Step)
    requires step.Raise? && Call(s, step).Err?
    ensures True(s, step, Call(s, step).error)
  {
    BadId(s, step, step.disputeId);
    hide ValidId, NewIds;
  }

  lemma SettlementRefused(s: State, step: Step)
    requires step.Resolve? && Call(s, step).Err?
    ensures True(s, step, Call(s, step).error)
  {
    hide PayOut;
    var d := step.disputeId;
    if d in s.disputes {
      var id := s.disputes[d].refundId;
      var settled := s.(disputes := s.disputes[d := s.disputes[d].(resolved := true, forced := step.force)]);
      if id in s.refunds && s.refunds[id].orderId in s.payments && PayOut(settled, id, Some(d)).Err? {
        PayOutRefused(settled, id, Some(d));
      }
    }
  }

  /** Every refusal tells the truth: the error names something that holds of the call and the
      state, or is the one given for a part that is not opened here. */
  lemma ErrorsAreTrue(s: State, step: Step)
    requires Call(s, step).Err?
    ensures True(s, step, Call(s, step).error) || Given(step, Call(s, step).error)
  {
    hide True, Given;
    match step
    case Pay(_, _, _, _, _, _, _) => PayRefused(s, step);
    case Batch(_, _, _) => BatchRefused(s, step);
    case Initiate(_, _, _, _, _) => RequestRefused(s, step);
    case Approve(_, _, _) => DecisionRefused(s, step);
    case Reject(_, _, _) => DecisionRefused(s, step);
    case Execute(_, _) => ExecutionRefused(s, step);
    case Raise(_, _, _, _, _) => RaiseRefused(s, step);
    case Resolve(_, _, _, _, _) => SettlementRefused(s, step);
    case _ =>
  }
}
