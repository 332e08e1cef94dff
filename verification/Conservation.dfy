/** Conservation of tokens: no step creates or destroys any, and every balance is
    explained by the payments made and received and the refunds transferred. */
module Conservation {
  import opened Common
  import opened Token
  import opened Contract
  import opened RefundSafety

  // ── The journal of payments ───────────────────────────────────────────────

  ghost predicate HasEvent(paid: seq<PaidEvent>, orderId: Id) {
    exists e :: e in paid && e.orderId == orderId
  }

  /** The payment records and the payment events describe the same payments. */
  ghost predicate Matches(payments: map<Id, Payment>, paid: seq<PaidEvent>) {
    && (forall e :: e in paid ==>
          && e.orderId in payments && payments[e.orderId].payer == e.payer && payments[e.orderId].merchant == e.merchant
          && payments[e.orderId].token == e.token && payments[e.orderId].amount == e.amount)
    && (forall i, j :: 0 <= i < j < |paid| ==> paid[i].orderId != paid[j].orderId)
    && (forall o :: o in payments ==> HasEvent(paid, o))
  }

  /** What one payment has added to an account of token `t` so far: the price, the
      fee, and the refunds that came back. */
  function PaymentFlow(payments: map<Id, Payment>, e: PaidEvent, t: Address, a: Address): int {
    if e.token != t then 0
    else Flow(e.payer, e.merchant, e.net, a) + Flow(e.payer, e.collector, e.feePaid, a)
         + if e.orderId in payments then Flow(e.merchant, e.payer, payments[e.orderId].refunded, a) else 0
  }

  function JournalFlow(payments: map<Id, Payment>, paid: seq<PaidEvent>, t: Address, a: Address): int {
    if paid == [] then 0
    else JournalFlow(payments, paid[..|paid| - 1], t, a) + PaymentFlow(payments, paid[|paid| - 1], t, a)
  }

  lemma {:induction false} JournalFlowUpdate(payments: map<Id, Payment>, paid: seq<PaidEvent>, o: Id, p: Payment, t: Address, a: Address)
    requires forall i, j :: 0 <= i < j < |paid| ==> paid[i].orderId != paid[j].orderId
    ensures forall i :: 0 <= i < |paid| && paid[i].orderId == o ==>
              JournalFlow(payments[o := p], paid, t, a)
                == JournalFlow(payments, paid, t, a) - PaymentFlow(payments, paid[i], t, a) + PaymentFlow(payments[o := p], paid[i], t, a)
    ensures (forall i :: 0 <= i < |paid| ==> paid[i].orderId != o) ==>
              JournalFlow(payments[o := p], paid, t, a) == JournalFlow(payments, paid, t, a)
  {
    if paid != [] {
      JournalFlowUpdate(payments, paid[..|paid| - 1], o, p, t, a);
    }
  }

  // ── Recording keeps the journal ───────────────────────────────────────────

  lemma AddMatches(payments: map<Id, Payment>, paid: seq<PaidEvent>, e: PaidEvent, p: Payment)
    requires Matches(payments, paid) && e.orderId !in payments
    requires p.payer == e.payer && p.merchant == e.merchant && p.token == e.token && p.amount == e.amount
    ensures Matches(payments[e.orderId := p], paid + [e])
  {
    assert forall i :: 0 <= i < |paid| ==> paid[i] in paid;
    forall o | o in payments[e.orderId := p] ensures HasEvent(paid + [e], o) {
      if o == e.orderId {
        assert e in paid + [e];
      } else {
        var f :| f in paid && f.orderId == o;
        assert f in paid + [e];
      }
    }
  }

  lemma AddFlow(payments: map<Id, Payment>, paid: seq<PaidEvent>, e: PaidEvent, p: Payment, t: Address, a: Address)
    requires Matches(payments, paid) && e.orderId !in payments && p.refunded == 0
    ensures JournalFlow(payments[e.orderId := p], paid + [e], t, a) == JournalFlow(payments, paid, t, a) + PaymentFlow(map[], e, t, a)
  {
    assert (paid + [e])[..|paid|] == paid;
    assert forall i :: 0 <= i < |paid| ==> paid[i] in paid;
    JournalFlowUpdate(payments, paid, e.orderId, p, t, a);
  }

  lemma RecordFlow(s: State, e: PaidEvent, fee: int, t: Address, a: Address)
    requires Matches(s.payments, s.paid) && e.orderId !in s.payments && RecordPayment(s, e, fee).Ok?
    ensures var s' := RecordPayment(s, e, fee).value;
            && Matches(s'.payments, s'.paid) && s'.balances == s.balances
            && JournalFlow(s'.payments, s'.paid, t, a) == JournalFlow(s.payments, s.paid, t, a) + PaymentFlow(map[], e, t, a)
  {
    var p := Payment(e.payer, e.merchant, e.token, e.amount, fee, PaymentStatus.Completed, s.now, 0);
    AddMatches(s.payments, s.paid, e, p);
    AddFlow(s.payments, s.paid, e, p, t, a);
  }

  // ── Batches: one transfer a group moves what the items say ────────────────

  function ItemFlow(payer: Address, items: seq<BatchItem>, t: Address, a: Address): int {
    if items == [] then 0
    else ItemFlow(payer, items[..|items| - 1], t, a) + PaymentFlow(map[], BatchEvent(payer, items[|items| - 1]), t, a)
  }

  function GroupFlow(payer: Address, groups: seq<Group>, t: Address, a: Address): int {
    if groups == [] then 0
    else
      var g := groups[|groups| - 1];
      GroupFlow(payer, groups[..|groups| - 1], t, a) + if g.token == t then Flow(payer, g.merchant, g.total, a) else 0
  }

  /** No two groups have the same token and merchant. */
  ghost predicate Separate(groups: seq<Group>) {
    forall i, j :: 0 <= i < j < |groups| ==> groups[i].token != groups[j].token || groups[i].merchant != groups[j].merchant
  }

  lemma {:induction false} AddToMatchingKeys(groups: seq<Group>, item: BatchItem)
    requires AddToMatching(groups, item).Some?
    ensures var updated := AddToMatching(groups, item).value;
            forall i :: 0 <= i < |groups| ==> updated[i].token == groups[i].token && updated[i].merchant == groups[i].merchant
  {
    if groups != [] {
      AddToMatchingKeys(groups[..|groups| - 1], item);
    }
  }

  lemma MentionsLast(groups: seq<Group>, last: Group, item: BatchItem)
    ensures Mentions(groups + [last], item) <==> Mentions(groups, item) || SameGroup(last, item)
  {
    if Mentions(groups, item) {
      var i :| 0 <= i < |groups| && SameGroup(groups[i], item);
      assert SameGroup((groups + [last])[i], item);
    }
    if SameGroup(last, item) {
      assert SameGroup((groups + [last])[|groups|], item);
    }
  }

  function GroupPays(payer: Address, token: Address, merchant: Address, amount: int, t: Address, a: Address): int {
    if token == t then Flow(payer, merchant, amount, a) else 0
  }

  lemma GroupFlowAppend(payer: Address, groups: seq<Group>, g: Group, t: Address, a: Address)
    ensures GroupFlow(payer, groups + [g], t, a) == GroupFlow(payer, groups, t, a) + GroupPays(payer, g.token, g.merchant, g.total, t, a)
  {
    assert (groups + [g])[..|groups|] == groups;
  }

  lemma SeparateInit(groups: seq<Group>, last: Group, item: BatchItem)
    requires Separate(groups + [last]) && SameGroup(last, item)
    ensures !Mentions(groups, item)
  {
    assert (groups + [last])[|groups|] == last;
    assert forall i :: 0 <= i < |groups| ==> (groups + [last])[i] == groups[i];
  }

  lemma {:induction false} AddToMatchingFlow(payer: Address, groups: seq<Group>, item: BatchItem, t: Address, a: Address)
    requires Separate(groups) && AddToMatching(groups, item).Some?
    ensures GroupFlow(payer, AddToMatching(groups, item).value, t, a) == GroupFlow(payer, groups, t, a)
              + if Mentions(groups, item) then GroupPays(payer, item.token, item.merchant, item.amount, t, a) else 0
  {
    if groups != [] {
      var init, last := groups[..|groups| - 1], groups[|groups| - 1];
      assert groups == init + [last];
      AddToMatchingFlow(payer, init, item, t, a);
      MentionsLast(init, last, item);
      GroupFlowAppend(payer, init, last, t, a);
      var last' := last.(total := if SameGroup(last, item) then last.total + item.amount else last.total);
      assert AddToMatching(groups, item).value == AddToMatching(init, item).value + [last'];
      GroupFlowAppend(payer, AddToMatching(init, item).value, last', t, a);
      if SameGroup(last, item) {
        SeparateInit(init, last, item);
      }
    }
  }

  lemma {:induction false} GroupsSeparate(items: seq<BatchItem>)
    requires GroupItems(items).Some?
    ensures Separate(GroupItems(items).value)
  {
    if items != [] {
      var init, last := items[..|items| - 1], items[|items| - 1];
      GroupsSeparate(init);
      var groups := GroupItems(init).value;
      AddToMatchingKeys(groups, last);
      assert Mentions(groups, last) || forall i :: 0 <= i < |groups| ==> !SameGroup(groups[i], last);
    }
  }

  lemma AddToGroupsFlow(payer: Address, groups: seq<Group>, item: BatchItem, t: Address, a: Address)
    requires Separate(groups) && AddToGroups(groups, item).Some?
    ensures GroupFlow(payer, AddToGroups(groups, item).value, t, a)
         == GroupFlow(payer, groups, t, a) + GroupPays(payer, item.token, item.merchant, item.amount, t, a)
  {
    AddToMatchingFlow(payer, groups, item, t, a);
    GroupFlowAppend(payer, AddToMatching(groups, item).value, Group(item.token, item.merchant, item.amount), t, a);
  }

  lemma ItemPays(payer: Address, item: BatchItem, t: Address, a: Address)
    ensures PaymentFlow(map[], BatchEvent(payer, item), t, a) == GroupPays(payer, item.token, item.merchant, item.amount, t, a)
  {
  }

  lemma {:induction false} GroupItemsFlow(payer: Address, items: seq<BatchItem>, t: Address, a: Address)
    requires GroupItems(items).Some?
    ensures GroupFlow(payer, GroupItems(items).value, t, a) == ItemFlow(payer, items, t, a)
  {
    if items != [] {
      var init, last := items[..|items| - 1], items[|items| - 1];
      GroupItemsFlow(payer, init, t, a);
      GroupsSeparate(init);
      AddToGroupsFlow(payer, GroupItems(init).value, last, t, a);
      ItemPays(payer, last, t, a);
    }
  }

  lemma {:induction false} PayGroupsFlow(b: Balances, payer: Address, groups: seq<Group>, t: Address, a: Address)
    requires PayGroups(b, payer, groups).Ok?
    ensures Balance(PayGroups(b, payer, groups).value, t, a) == Balance(b, t, a) + GroupFlow(payer, groups, t, a)
    ensures Supply(PayGroups(b, payer, groups).value, t) == Supply(b, t)
  {
    if groups != [] {
      var init, g := groups[..|groups| - 1], groups[|groups| - 1];
      PayGroupsFlow(b, payer, init, t, a);
      TransferFlow(PayGroups(b, payer, init).value, g.token, payer, g.merchant, g.total, t, a);
      TransferKeepsSupply(PayGroups(b, payer, init).value, g.token, payer, g.merchant, g.total, t);
    }
  }

  lemma {:induction false} RecordAllFlow(s: State, payer: Address, items: seq<BatchItem>, t: Address, a: Address)
    requires Matches(s.payments, s.paid) && Fresh(s.payments, items) && RecordAll(s, payer, items).Ok?
    ensures var s' := RecordAll(s, payer, items).value;
            && Matches(s'.payments, s'.paid) && s'.balances == s.balances
            && JournalFlow(s'.payments, s'.paid, t, a) == JournalFlow(s.payments, s.paid, t, a) + ItemFlow(payer, items, t, a)
  {
    if items != [] {
      var init, last := items[..|items| - 1], items[|items| - 1];
      RecordAllFlow(s, payer, init, t, a);
      RecordAllKeys(s, payer, init);
      RecordFlow(RecordAll(s, payer, init).value, BatchEvent(payer, last), 0, t, a);
    }
  }

  // ── Every step keeps the balance sheet ────────────────────────────────────

  /** The balance of `a` in token `t` and the supply of `t`, given what they started from. */
  ghost predicate Balanced(s: State, start: Balances, t: Address, a: Address) {
    && Matches(s.payments, s.paid)
    && Balance(s.balances, t, a) == Balance(start, t, a) + JournalFlow(s.payments, s.paid, t, a)
    && Supply(s.balances, t) == Supply(start, t)
  }

  /** One transfer, seen from one account and from the supply. */
  ghost predicate Moved(b: Balances, b': Balances, change: int, t: Address, a: Address) {
    Balance(b', t, a) == Balance(b, t, a) + change && Supply(b', t) == Supply(b, t)
  }

  lemma TransferMoves(b: Balances, token: Address, from: Address, to: Address, amount: int, t: Address, a: Address)
    requires Transfer(b, token, from, to, amount).Ok?
    ensures Moved(b, Transfer(b, token, from, to, amount).value, if t == token then Flow(from, to, amount, a) else 0, t, a)
  {
    TransferFlow(b, token, from, to, amount, t, a);
    TransferKeepsSupply(b, token, from, to, amount, t);
  }

  /** The transfers behind one charge. */
  lemma ChargeFlow(s: State, payer: Address, orderId: Id, merchant: Address, token: Address, amount: int, t: Address, a: Address)
    requires Charge(s, payer, orderId, merchant, token, amount).Ok?
    ensures var (b, e, fee) := Charge(s, payer, orderId, merchant, token, amount).value;
            Moved(s.balances, b, PaymentFlow(map[], e, t, a), t, a)
  {
    var fee := Fee(s.settings, amount).value;
    var net := Transfer(s.balances, token, payer, merchant, amount - fee);
    TransferMoves(s.balances, token, payer, merchant, amount - fee, t, a);
    if fee > 0 && s.settings.feeRecipient.Some? {
      TransferMoves(net.value, token, payer, s.settings.feeRecipient.value, fee, t, a);
    }
  }

  lemma PayBalanced(s: State, step: Step, start: Balances, t: Address, a: Address)
    requires Balanced(s, start, t, a) && step.Pay? && Call(s, step).Ok?
    ensures Balanced(Call(s, step).value, start, t, a)
  {
    var b, e, fee := PayIsRecord(s, step);
    ChargeFlow(s, step.payer, step.orderId, step.merchant, step.token, step.amount, t, a);
    RecordFlow(s.(balances := b), e, fee, t, a);
  }

  lemma BatchBalanced(s: State, step: Step, start: Balances, t: Address, a: Address)
    requires Balanced(s, start, t, a) && step.Batch? && Call(s, step).Ok?
    ensures Balanced(Call(s, step).value, start, t, a)
  {
    var groups := GroupItems(step.items).value;
    CheckedItems(s, step.items, 0);
    GroupItemsFlow(step.payer, step.items, t, a);
    PayGroupsFlow(s.balances, step.payer, groups, t, a);
    RecordAllFlow(s.(balances := PayGroups(s.balances, step.payer, groups).value), step.payer, step.items, t, a);
  }

  lemma RefundedMatches(payments: map<Id, Payment>, paid: seq<PaidEvent>, o: Id, amount: int)
    requires Matches(payments, paid) && o in payments
    ensures Matches(payments[o := RefundedPayment(payments[o], amount)], paid)
  {
  }

  /** Booking a refund adds exactly its transfer to the journal. */
  lemma RefundedFlow(payments: map<Id, Payment>, paid: seq<PaidEvent>, o: Id, amount: int, t: Address, a: Address)
    requires Matches(payments, paid) && o in payments
    ensures var p := payments[o];
            JournalFlow(payments[o := RefundedPayment(p, amount)], paid, t, a)
              == JournalFlow(payments, paid, t, a) + if p.token == t then Flow(p.merchant, p.payer, amount, a) else 0
  {
    var p := payments[o];
    var e :| e in paid && e.orderId == o;
    var i :| 0 <= i < |paid| && paid[i] == e;
    JournalFlowUpdate(payments, paid, o, RefundedPayment(p, amount), t, a);
  }

  lemma PayOutBalanced(s: State, id: Id, dispute: Option<Id>, start: Balances, t: Address, a: Address)
    requires Balanced(s, start, t, a)
    requires id in s.refunds && s.refunds[id].orderId in s.payments && PayOut(s, id, dispute).Ok?
    ensures Balanced(PayOut(s, id, dispute).value, start, t, a)
  {
    var r := s.refunds[id];
    var p := s.payments[r.orderId];
    RefundedMatches(s.payments, s.paid, r.orderId, r.amount);
    RefundedFlow(s.payments, s.paid, r.orderId, r.amount, t, a);
    TransferFlow(s.balances, p.token, p.merchant, p.payer, r.amount, t, a);
    TransferKeepsSupply(s.balances, p.token, p.merchant, p.payer, r.amount, t);
  }

  lemma ResolveBalanced(s: State, step: Step, start: Balances, t: Address, a: Address)
    requires Balanced(s, start, t, a) && step.Resolve? && Call(s, step).Ok?
    ensures Balanced(Call(s, step).value, start, t, a)
  {
    ResolveIsPayOut(s, step);
    var d := step.disputeId;
    if step.force {
      var settled := s.(disputes := s.disputes[d := s.disputes[d].(resolved := true, forced := true)]);
      PayOutBalanced(settled, s.disputes[d].refundId, Some(d), start, t, a);
    }
  }

  lemma StepBalanced(s: State, step: Step, start: Balances, t: Address, a: Address)
    requires Balanced(s, start, t, a) && Call(s, step).Ok?
    ensures Balanced(Call(s, step).value, start, t, a)
  {
    if step.Pay? {
      PayBalanced(s, step, start, t, a);
    } else if step.Batch? {
      BatchBalanced(s, step, start, t, a);
    } else if step.Execute? {
      PayOutBalanced(s, step.refundId, None, start, t, a);
    } else if step.Resolve? {
      ResolveBalanced(s, step, start, t, a);
    } else {
      SilentStep(s, step);
    }
  }

  /** Over every run: each account holds what it started with, plus what its
      payments and refunds moved, and the supply of each token is constant. */
  lemma {:induction false} RunBalanced(settings: Settings, now: nat, start: Balances, steps: seq<Step>, t: Address, a: Address)
    ensures Balanced(Run(Init(settings, now, start), steps), start, t, a)
  {
    if steps != [] {
      RunBalanced(settings, now, start, steps[..|steps| - 1], t, a);
      var mid, last := Run(Init(settings, now, start), steps[..|steps| - 1]), steps[|steps| - 1];
      if Call(mid, last).Ok? {
        StepBalanced(mid, last, start, t, a);
      }
    }
  }
}
