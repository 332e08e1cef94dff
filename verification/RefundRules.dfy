/** Which requests, decisions, refund transfers and disputes the contract accepts and what they
    write: the exact conditions, in numbers and in terms of what is stored. */
module RefundRules {
  import opened Common
  import opened Token
  import opened Contract
  import opened RefundSafety
  import opened RefundTheorems
  import opened PaymentRules

  // ── Requests for refunds ──────────────────────────────────────────────────

  /** What a request needs apart from being in time. */
  predicate Requestable(s: State, step: Step, p: Payment)
    requires step.Initiate?
  {
    && !s.settings.paused && step.caller in step.signers && (step.caller == p.payer || step.caller == p.merchant)
    && step.amount > 0 && step.amount >= s.settings.minRefund && p.refunded + step.amount <= p.amount
    && 1 <= |step.refundId| <= 64 && step.refundId !in s.refunds && |RefundIds(s, step.orderId)| < 10
  }

  /** One pending record, made now, and one place in the order's index. */
  function Requested(s: State, step: Step): State
    requires step.Initiate?
  {
    s.(refunds := s.refunds[step.refundId := Refund(step.orderId, step.caller, step.amount, Pending, s.now)],
       orderRefunds := s.orderRefunds[step.orderId := RefundIds(s, step.orderId) + [step.refundId]])
  }

  /** A request is accepted exactly when its order is stored, it meets the rules and the refund
      window, counted from the payment, is still open; it then writes one pending record and
      one place in the order's index. */
  lemma RequestAccepted(s: State, step: Step)
    requires step.Initiate? && step.orderId in s.payments && s.payments[step.orderId].amount <= I128_MAX
    requires s.payments[step.orderId].paidAt + s.settings.refundWindow <= U64_MAX
    ensures var p := s.payments[step.orderId];
      Call(s, step).Ok? <==> Requestable(s, step, p) && s.now <= p.paidAt + s.settings.refundWindow
    ensures Requestable(s, step, s.payments[step.orderId]) && Call(s, step).Err? ==> Call(s, step) == Err(RefundWindowExpired)
    ensures Call(s, step).Ok? ==> Call(s, step).value == Requested(s, step)
  {
  }

  lemma UnknownOrderRefused(s: State, step: Step)
    requires step.Initiate? && step.orderId !in s.payments
    ensures Call(s, step).Err?
  {
  }

  /** The refund window, on the time between the two calls: after an accepted payment and any
      run, a request for it that meets the other rules is accepted while no more than
      `refundWindow` seconds have passed, and refused afterwards. */
  lemma WindowFromPayment(s: State, pay: Step, steps: seq<Step>, request: Step)
    requires pay.Pay? && Call(s, pay).Ok? && pay.amount <= I128_MAX
    requires request.Initiate? && request.orderId == pay.orderId
    requires var later := Run(Apply(s, pay), steps);
      && s.now + later.settings.refundWindow <= U64_MAX
      && (pay.orderId in later.payments ==> Requestable(later, request, later.payments[pay.orderId]))
    ensures var later := Run(Apply(s, pay), steps);
      later.now == s.now + Elapsed(steps)
      && Call(later, request) == if Elapsed(steps) <= later.settings.refundWindow then Ok(Apply(later, request)) else Err(RefundWindowExpired)
  {
    var fee := PaymentWrites(s, pay);
    var paid, later := Apply(s, pay), Run(Apply(s, pay), steps);
    assert pay.orderId in paid.payments && paid.payments[pay.orderId].paidAt == s.now && paid.payments[pay.orderId].amount == pay.amount;
    RunKeepsDeal(paid, steps, pay.orderId);
    RunClock(paid, steps);
    RequestAccepted(later, request);
    hide *;
  }

  // ── Refund transfers ──────────────────────────────────────────────────────

  /** The merchant has the money and no number leaves its range. Neither the time nor any
      setting matters. */
  predicate Payable(s: State, id: Id)
    requires id in s.refunds && s.refunds[id].orderId in s.payments
  {
    var r, p := s.refunds[id], s.payments[s.refunds[id].orderId];
    && Balance(s.balances, p.token, p.merchant) >= r.amount
    && Balance(s.balances, p.token, p.payer) + (if p.payer == p.merchant then 0 else r.amount) <= I128_MAX
    && p.refunded + r.amount <= I128_MAX
    && Lookup(s.merchantStats, p.merchant, NO_STATS).totalRefunds < U32_MAX && s.globalStats.totalRefunds < U32_MAX
  }

  /** What paying a refund does: the record is Completed, the payment's total grows by its
      amount, which goes from the merchant to the payer, and one transfer is logged. */
  ghost predicate PaidBack(s: State, s': State, id: Id, dispute: Option<Id>)
    requires id in s.refunds && s.refunds[id].orderId in s.payments
  {
    var r, p := s.refunds[id], s.payments[s.refunds[id].orderId];
    && s'.refunds == s.refunds[id := Refund(r.orderId, r.initiator, r.amount, RefundStatus.Completed, r.createdAt)]
    && r.orderId in s'.payments && s'.payments[r.orderId].refunded == p.refunded + r.amount && SameDeal(p, s'.payments[r.orderId])
    && s'.payments.Keys == s.payments.Keys
    && (forall o :: o != r.orderId && o in s.payments ==> s'.payments[o] == s.payments[o])
    && s'.payouts == s.payouts + [Payout(id, r.orderId, r.amount, dispute)]
    && s'.settings == s.settings && s'.now == s.now && s'.orderRefunds == s.orderRefunds && s'.paid == s.paid
    && s'.payerIndex == s.payerIndex && s'.merchantIndex == s.merchantIndex && s'.received == s.received
    && forall t, a :: Balance(s'.balances, t, a) == Balance(s.balances, t, a)
                        + if t != p.token || p.payer == p.merchant then 0
                          else if a == p.payer then r.amount else if a == p.merchant then -r.amount else 0
  }

  lemma PayOutAccepted(s: State, disputes: map<Id, Dispute>, id: Id, dispute: Option<Id>)
    requires id in s.refunds && s.refunds[id].orderId in s.payments && s.refunds[id].amount > 0
    ensures var paid := PayOut(s.(disputes := disputes), id, dispute);
      && (paid.Ok? <==> Payable(s, id))
      && (paid.Ok? ==> PaidBack(s, paid.value, id, dispute) && paid.value.disputes == disputes)
  {
    var r, p := s.refunds[id], s.payments[s.refunds[id].orderId];
    TransferAccepted(s.balances, p.token, p.merchant, p.payer, r.amount);
    var paid := PayOut(s.(disputes := disputes), id, dispute);
    if paid.Ok? {
      forall t, a ensures Balance(paid.value.balances, t, a) == Balance(s.balances, t, a)
                            + if t == p.token then Flow(p.merchant, p.payer, r.amount, a) else 0
      {
        TransferFlow(s.balances, p.token, p.merchant, p.payer, r.amount, t, a);
      }
    }
  }

  /** An approved refund is paid whenever the contract runs, its merchant signs and can pay:
      at any time, whatever the settings, window and minimum included. Nothing else is paid. */
  lemma ExecutionAccepted(s: State, step: Step)
    requires Backed(s.refunds, s.payments) && step.Execute?
    ensures Call(s, step).Ok? <==>
              && !s.settings.paused && StatusOf(s, step.refundId) == Some(Approved)
              && s.payments[s.refunds[step.refundId].orderId].merchant in step.signers && Payable(s, step.refundId)
    ensures Call(s, step).Ok? ==> PaidBack(s, Call(s, step).value, step.refundId, None) && Call(s, step).value.disputes == s.disputes
  {
    if step.refundId in s.refunds {
      assert s.(disputes := s.disputes) == s;
      PayOutAccepted(s, s.disputes, step.refundId, None);
    }
  }

  // ── Disputes ──────────────────────────────────────────────────────────────

  /** Only the payer of a rejected refund raises a dispute, under a new id; it is then open. */
  lemma RaiseAccepted(s: State, step: Step)
    requires Backed(s.refunds, s.payments) && step.Raise?
    ensures Call(s, step).Ok? <==>
              && !s.settings.paused && step.caller in step.signers
              && 1 <= |step.disputeId| <= 64 && step.disputeId !in s.disputes && |step.reason| <= 256
              && StatusOf(s, step.refundId) == Some(Rejected)
              && step.caller == s.payments[s.refunds[step.refundId].orderId].payer
    ensures Call(s, step).Ok? ==>
              Call(s, step).value == s.(disputes := s.disputes[step.disputeId := Dispute(step.refundId, false, false)])
  {
  }

  function Marked(s: State, d: Id, force: bool): State
    requires d in s.disputes
  {
    s.(disputes := s.disputes[d := Dispute(s.disputes[d].refundId, true, force)])
  }

  lemma SettlementNeeds(s: State, step: Step)
    requires Disputed(s.disputes, s.refunds, s.payouts) && Backed(s.refunds, s.payments) && step.Resolve?
    ensures Call(s, step).Ok? <==>
              && !s.settings.paused && step.caller in step.signers && s.settings.admin == Some(step.caller)
              && 1 <= |step.resolution| <= 256
              && step.disputeId in s.disputes && !s.disputes[step.disputeId].resolved
              && (step.force ==> PayOut(Marked(s, step.disputeId, true), s.disputes[step.disputeId].refundId, Some(step.disputeId)).Ok?)
  {
    hide PayOut;
  }

  lemma MarkedSame(s: State, d: Id, force: bool)
    requires d in s.disputes
    ensures Marked(s, d, force) == s.(disputes := s.disputes[d := s.disputes[d].(resolved := true, forced := force)])
  {
  }

  lemma ForcedAccepted(s: State, d: Id)
    requires Inv(s) && d in s.disputes
    ensures s.disputes[d].refundId in s.refunds && s.refunds[s.disputes[d].refundId].orderId in s.payments
    ensures var id := s.disputes[d].refundId; var paid := PayOut(Marked(s, d, true), id, Some(d));
      && (paid.Ok? <==> Payable(s, id))
      && (paid.Ok? ==> PaidBack(s, paid.value, id, Some(d)) && paid.value.disputes == s.disputes[d := Dispute(id, true, true)])
  {
    var id := s.disputes[d].refundId;
    assert Disputed(s.disputes, s.refunds, s.payouts) && Backed(s.refunds, s.payments);
    assert id in s.refunds && s.refunds[id].amount > 0 && s.refunds[id].orderId in s.payments;
    hide PayOut, Inv, PaidBack, Payable;
    PayOutAccepted(s, Marked(s, d, true).disputes, id, Some(d));
  }

  /** Only the admin settles, each dispute once; by force the disputed refund is paid, whatever
      its status, exactly when the merchant can pay. */
  lemma SettlementAccepted(s: State, step: Step)
    requires Inv(s) && step.Resolve?
    ensures Call(s, step).Ok? <==>
              && !s.settings.paused && step.caller in step.signers && s.settings.admin == Some(step.caller)
              && 1 <= |step.resolution| <= 256
              && step.disputeId in s.disputes && !s.disputes[step.disputeId].resolved
              && (step.force ==> Payable(s, s.disputes[step.disputeId].refundId))
    ensures Call(s, step).Ok? ==>
              var s', d := Call(s, step).value, s.disputes[step.disputeId];
              && s'.disputes == s.disputes[step.disputeId := Dispute(d.refundId, true, step.force)]
              && if step.force then PaidBack(s, s', d.refundId, Some(step.disputeId)) else s' == s.(disputes := s'.disputes)
  {
    assert Disputed(s.disputes, s.refunds, s.payouts) && Backed(s.refunds, s.payments);
    hide Call, PayOut, Payable, PaidBack, Inv, Disputed, Backed;
    SettlementNeeds(s, step);
    if step.disputeId in s.disputes {
      MarkedSame(s, step.disputeId, step.force);
      ForcedAccepted(s, step.disputeId);
    }
    if Call(s, step).Ok? {
      ResolveIsPayOut(s, step);
    }
  }

  /** The merchant or the admin decides a pending refund; only its status changes. */
  lemma DecisionAccepted(s: State, step: Step)
    requires Backed(s.refunds, s.payments) && (step.Approve? || step.Reject?)
    ensures Call(s, step).Ok? <==>
              && !s.settings.paused && step.caller in step.signers && StatusOf(s, step.refundId) == Some(Pending)
              && (s.settings.admin == Some(step.caller) || s.payments[s.refunds[step.refundId].orderId].merchant == step.caller)
    ensures Call(s, step).Ok? ==>
              var r := s.refunds[step.refundId];
              Call(s, step).value == s.(refunds := s.refunds[step.refundId :=
                Refund(r.orderId, r.initiator, r.amount, if step.Approve? then Approved else Rejected, r.createdAt)])
  {
  }

  lemma PlainDisputes(s: State, step: Step)
    requires step.Initiate? || step.Approve? || step.Reject? || step.Configure? || step.Advance?
    requires Call(s, step).Ok?
    ensures Call(s, step).value.disputes == s.disputes
  {
  }

  lemma OtherDisputes(s: State, step: Step)
    requires Inv(s) && !step.Raise? && !step.Resolve? && Call(s, step).Ok?
    ensures Call(s, step).value.disputes == s.disputes
  {
    assert Backed(s.refunds, s.payments);
    hide Call, Inv, Backed, PaidBack, Payable;
    if step.Pay? {
      var fee := PaymentWrites(s, step);
    } else if step.Batch? {
      BatchWrites(s, step);
    } else if step.Execute? {
      ExecutionAccepted(s, step);
    } else {
      PlainDisputes(s, step);
    }
  }

  lemma StepKeepsDisputes(s: State, step: Step, d: Id)
    requires Inv(s) && d in s.disputes
    ensures d in Apply(s, step).disputes && Apply(s, step).disputes[d].refundId == s.disputes[d].refundId
    ensures s.disputes[d].resolved ==> Apply(s, step).disputes[d] == s.disputes[d]
  {
    assert Backed(s.refunds, s.payments);
    hide Call, Inv, Backed, PaidBack, Payable, StatusOf;
    if Call(s, step).Ok? {
      if step.Raise? {
        RaiseAccepted(s, step);
      } else if step.Resolve? {
        SettlementAccepted(s, step);
      } else {
        OtherDisputes(s, step);
      }
    }
  }

  /** A settled dispute stays as it was settled, over every run, and is never settled again. */
  lemma {:induction false} SettledForGood(s: State, steps: seq<Step>, d: Id, again: Step)
    requires Inv(s) && d in s.disputes && s.disputes[d].resolved
    ensures Inv(Run(s, steps)) && d in Run(s, steps).disputes && Run(s, steps).disputes[d] == s.disputes[d]
    ensures again.Resolve? && again.disputeId == d ==> Call(Run(s, steps), again).Err?
  {
    hide Call, Inv;
    if steps != [] {
      SettledForGood(s, steps[..|steps| - 1], d, again);
      StepKeepsDisputes(Run(s, steps[..|steps| - 1]), steps[|steps| - 1], d);
      RunKeepsInv(s, steps);
    }
    SettlementRefused(Run(s, steps), again, d);
  }

  lemma SettlementRefused(s: State, again: Step, d: Id)
    requires Inv(s) && d in s.disputes && s.disputes[d].resolved
    ensures again.Resolve? && again.disputeId == d ==> Call(s, again).Err?
  {
    if again.Resolve? {
      SettlementAccepted(s, again);
    }
  }
}
