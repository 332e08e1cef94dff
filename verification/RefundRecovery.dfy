/** Recovery of an interrupted refund: the client loop, run against a contract on
    which other actors keep acting and behind a network that may lose replies and
    deliver writes late. */
module RefundRecovery {
  import opened Common
  import C = Contract
  import RefundSafety
  import T = RefundTheorems

  datatype RefundStatus = Pending | Approved | Rejected | Completed | Disputed
  datatype RefundStep = Initiate | Approve | Execute
  datatype RefundPhase = Initiated | ApprovedPhase | Executed

  function PhaseOrder(phase: RefundPhase): nat {
    match phase case Initiated => 0 case ApprovedPhase => 1 case Executed => 2
  }

  function PhaseOf(status: Option<RefundStatus>): int {
    match status
    case Some(Pending) => 0
    case Some(Approved) => 1
    case Some(Completed) => 2
    case _ => -1
  }

  /** The phase a step leads to. */
  function PhaseAfter(step: RefundStep): nat {
    match step case Initiate => 0 case Approve => 1 case Execute => 2
  }

  datatype Params = Params(refundId: Id, orderId: Id, amount: int, caller: Address, signers: set<Address>,
                           target: RefundPhase, maxRetriesPerStep: real)

  /** The writes the retry limit allows for one step, and whether the last of them meets the limit. */
  function Tries(maxRetries: real): nat {
    if maxRetries < 0.0 then 0 else maxRetries.Floor + 1
  }

  predicate Whole(maxRetries: real) {
    maxRetries >= 0.0 && maxRetries.Floor as real == maxRetries
  }

  datatype ReadReply = Record(status: RefundStatus) | NoRecord | ReadThrew(notFound: bool)
  datatype CallReply = Done | Threw(notFound: bool, transient: bool)

  datatype Failure =
    | Refused(status: RefundStatus)
    | Vanished(step: RefundStep)
    | Permanent(step: RefundStep)
    | RetryExhausted(step: RefundStep, attempts: nat)
    | ReadFailed
    | NotConverged
    | Entered(status: RefundStatus)

  datatype Outcome =
    | Recovered(finalStatus: RefundStatus, stepsApplied: seq<RefundStep>, alreadyComplete: bool)
    | Failed(failure: Failure)

  // ── What a session sees, and what it makes of it ──────────────────────────

  /** One exchange with the chain. */
  datatype Exchange = Wrote(step: RefundStep, reply: CallReply) | Read(read: ReadReply)

  /** One write of a step: how the call ended, and the read after a call that threw. */
  datatype Attempt = Attempt(reply: CallReply, read: Option<ReadReply>)

  /** How the writes of a step end: it went through, it was given up, or the limit was passed. */
  datatype StepEnd = Through | Passed | Stopped(failure: Failure)

  /** One turn: a step, its writes and their end, and the read that closes the turn if it comes to that. */
  datatype TurnRecord = TurnRecord(step: RefundStep, tries: seq<Attempt>, end: StepEnd, after: Option<ReadReply>)

  /** Only an error other than "not found" leaves the status unknown. */
  predicate Answered(read: ReadReply) {
    read != ReadThrew(false)
  }

  function StatusIn(read: ReadReply): Option<RefundStatus> {
    if read.Record? then Some(read.status) else None
  }

  /** The read shows the refund where the step leads to, or further. */
  predicate Reached(step: RefundStep, read: ReadReply) {
    match step
    case Initiate => read == Record(Pending) || read == Record(Approved) || read == Record(Completed)
    case Approve => read == Record(Approved) || read == Record(Completed)
    case Execute => read == Record(Completed)
  }

  predicate AtTarget(target: RefundPhase, read: ReadReply) {
    match target
    case Initiated => Reached(Initiate, read)
    case ApprovedPhase => Reached(Approve, read)
    case Executed => Reached(Execute, read)
  }

  /** The step a status calls for. */
  predicate CallsFor(status: Option<RefundStatus>, step: RefundStep) {
    match step
    case Initiate => status.None?
    case Approve => status == Some(Pending)
    case Execute => status == Some(Approved)
  }

  /** The refund of a later step is gone, says the error. */
  predicate IsGone(step: RefundStep, reply: CallReply) {
    reply.Threw? && reply.notFound && step != Initiate
  }

  /** The write did it: the call returned, or it threw and the refund had moved all the same. */
  predicate Accepted(step: RefundStep, a: Attempt) {
    || a == Attempt(Done, None)
    || (a.reply.Threw? && a.read.Some? && Reached(step, a.read.value))
  }

  /** The write failed with a transient error and the refund is known to stand short of the step. */
  predicate GoesOn(step: RefundStep, a: Attempt) {
    && a.reply.Threw? && a.reply.transient && !IsGone(step, a.reply)
    && a.read.Some? && Answered(a.read.value) && !Reached(step, a.read.value)
  }

  /** The write failed for good: the read gave no answer, the refund is gone, or the error is
      not transient, in this order. */
  predicate FailsWith(step: RefundStep, a: Attempt, f: Failure) {
    && a.reply.Threw? && a.read.Some?
    && if !Answered(a.read.value) then f == ReadFailed
       else if IsGone(step, a.reply) then f == Vanished(step) && !Reached(step, a.read.value)
       else f == Permanent(step) && !a.reply.transient && !Reached(step, a.read.value)
  }

  datatype Verdict = Applied | Again | Fails(failure: Failure)

  /** What one write means for its step. */
  predicate Judged(step: RefundStep, a: Attempt, verdict: Verdict) {
    match verdict
    case Applied => Accepted(step, a)
    case Again => GoesOn(step, a)
    case Fails(f) => FailsWith(step, a, f)
  }

  /** All writes but the last failed transiently, with one more within the limit. How the
      last one went, and whether the limit allowed another, decides the end. */
  predicate EndsAs(step: RefundStep, tries: seq<Attempt>, limit: real, end: StepEnd) {
    && (forall i :: 0 <= i < |tries| - 1 ==> GoesOn(step, tries[i]))
    && (tries != [] ==> (|tries| - 1) as real <= limit)
    && match end
       case Through => tries != [] && Accepted(step, tries[|tries| - 1])
       case Stopped(RetryExhausted(s, n)) =>
         s == step && n == |tries| > 0 && n as real == limit + 1.0 && GoesOn(step, tries[n - 1])
       case Stopped(f) => tries != [] && FailsWith(step, tries[|tries| - 1], f)
       case Passed =>
         && |tries| as real > limit
         && (tries != [] ==> GoesOn(step, tries[|tries| - 1]) && |tries| as real != limit + 1.0)
  }

  lemma LastTry(log: seq<Exchange>, step: RefundStep, before: seq<Attempt>, a: Attempt, limit: real, verdict: Verdict)
    requires (forall b :: b in before ==> GoesOn(step, b)) && |before| as real <= limit && Judged(step, a, verdict)
    ensures log + Told(step, before + [a]) == log + Told(step, before) + ToldTry(step, a)
    ensures verdict.Applied? ==> EndsAs(step, before + [a], limit, Through)
    ensures verdict.Fails? ==> EndsAs(step, before + [a], limit, Stopped(verdict.failure))
    ensures verdict.Again? && |before| as real == limit ==>
              EndsAs(step, before + [a], limit, Stopped(RetryExhausted(step, |before| + 1)))
    ensures verdict.Again? ==> forall b :: b in before + [a] ==> GoesOn(step, b)
  {
    assert (before + [a])[..|before|] == before;
    assert forall i :: 0 <= i < |before| ==> before[i] in before;
  }

  lemma NoTryLeft(step: RefundStep, tries: seq<Attempt>, limit: real)
    requires (forall b :: b in tries ==> GoesOn(step, b)) && |tries| as real > limit
    requires tries != [] ==> (|tries| - 1) as real < limit
    ensures EndsAs(step, tries, limit, Passed)
  {
  }

  /** How many writes fit under a limit, and that a limit passed but not met is not whole. */
  lemma LimitMeans(n: nat, limit: real)
    ensures n as real <= limit ==> n + 1 <= Tries(limit)
    ensures n as real > limit && (n > 0 ==> (n - 1) as real < limit) ==> !Whole(limit)
  {
    var floor := limit.Floor;
    assert floor as real <= limit < (floor + 1) as real;
    if n as real <= limit {
      assert n < floor + 1;
    } else if 0 < n && (n - 1) as real < limit && floor as real == limit {
      assert false;
    }
  }

  /** The turn was not given up, and its last read was answered. */
  predicate Passes(turn: TurnRecord) {
    !turn.end.Stopped? && turn.after.Some? && Answered(turn.after.value)
  }

  predicate BreaksOff(turn: TurnRecord, f: Failure) {
    if turn.end.Stopped? then turn.end == Stopped(f) && turn.after.None?
    else turn.after == Some(ReadThrew(false)) && f == ReadFailed
  }

  /** The read before the k-th turn. */
  function ReadBefore(first: ReadReply, turns: seq<TurnRecord>, k: nat): (read: ReadReply)
    requires k <= |turns| && (k > 0 ==> turns[k - 1].after.Some?)
  {
    if k == 0 then first else turns[k - 1].after.value
  }

  /** The k-th turn takes the step its read calls for, short of the target. */
  predicate InOrder(p: Params, first: ReadReply, turns: seq<TurnRecord>, k: nat)
    requires k < |turns| && (k > 0 ==> turns[k - 1].after.Some?)
  {
    CallsFor(StatusIn(ReadBefore(first, turns, k)), turns[k].step) && !AtTarget(p.target, ReadBefore(first, turns, k))
  }

  ghost predicate Walks(p: Params, first: ReadReply, turns: seq<TurnRecord>) {
    && Answered(first) && |turns| <= 5
    && (forall i :: 0 <= i < |turns| ==> Passes(turns[i]))
    && forall k :: 0 <= k < |turns| ==> InOrder(p, first, turns, k)
  }

  lemma WalksOn(p: Params, first: ReadReply, turns: seq<TurnRecord>, turn: TurnRecord)
    requires Walks(p, first, turns) && |turns| < 5 && Passes(turn)
    requires CallsFor(StatusIn(ReadBefore(first, turns, |turns|)), turn.step)
    requires !AtTarget(p.target, ReadBefore(first, turns, |turns|))
    ensures Walks(p, first, turns + [turn])
  {
    var all := turns + [turn];
    assert forall k :: 0 <= k < |turns| ==> InOrder(p, first, turns, k) && all[k] == turns[k];
    assert forall k :: 0 <= k <= |turns| ==> ReadBefore(first, all, k) == ReadBefore(first, turns, k);
  }

  lemma TargetIs(target: RefundPhase, read: ReadReply)
    ensures PhaseOf(StatusIn(read)) >= PhaseOrder(target) <==> AtTarget(target, read)
  {
  }

  lemma TurnsGrow(log: seq<Exchange>, first: ReadReply, turns: seq<TurnRecord>, turn: TurnRecord)
    ensures log + ToldAll(first, turns + [turn]) == log + ToldAll(first, turns) + ToldTurn(turn)
    ensures AppliedIn(turns + [turn]) == AppliedIn(turns) + if turn.end.Through? then [turn.step] else []
  {
    assert (turns + [turn])[..|turns|] == turns;
  }

  ghost predicate AllEnd(limit: real, turns: seq<TurnRecord>) {
    forall t :: t in turns ==> EndsAs(t.step, t.tries, limit, t.end)
  }

  function AppliedIn(turns: seq<TurnRecord>): seq<RefundStep> {
    if turns == [] then [] else
    var last := turns[|turns| - 1];
    AppliedIn(turns[..|turns| - 1]) + if last.end.Through? then [last.step] else []
  }

  /** The outcome a session must report for the replies it got: the last read decides between
      success, a status to keep away from and one more turn, five at most; a turn that fails
      decides the failure. */
  ghost predicate Explains(p: Params, first: ReadReply, turns: seq<TurnRecord>, r: Outcome) {
    && AllEnd(p.maxRetriesPerStep, turns)
    && (if Walks(p, first, turns) then Concludes(p, turns, ReadBefore(first, turns, |turns|), r)
        else r.Failed? && FailedTurn(p, first, turns, r.failure))
  }

  /** After turns that all passed. */
  ghost predicate Concludes(p: Params, turns: seq<TurnRecord>, last: ReadReply, r: Outcome) {
    if AtTarget(p.target, last) then
      r == Recovered(last.status, AppliedIn(turns), turns == [])
    else if turns == [] || |turns| == 5 then
      if turns == [] then last.Record? && last.status in {Rejected, Disputed} && r == Failed(Failure.Refused(last.status))
      else r == Failed(NotConverged)
    else
      last.Record? && last.status in {Rejected, Disputed} && r == Failed(Entered(last.status))
  }

  ghost predicate FailedTurn(p: Params, first: ReadReply, turns: seq<TurnRecord>, f: Failure) {
    if turns == [] then !Answered(first) && f == ReadFailed
    else
      && Walks(p, first, turns[..|turns| - 1]) && |turns| <= 5
      && InOrder(p, first, turns, |turns| - 1) && BreaksOff(turns[|turns| - 1], f)
  }

  /** The exchanges of a step's writes, of a turn, and of a session. */
  function Told(step: RefundStep, tries: seq<Attempt>): seq<Exchange> {
    if tries == [] then [] else Told(step, tries[..|tries| - 1]) + ToldTry(step, tries[|tries| - 1])
  }

  function ToldTry(step: RefundStep, a: Attempt): seq<Exchange> {
    [Wrote(step, a.reply)] + if a.read.Some? then [Read(a.read.value)] else []
  }

  function ToldTurn(turn: TurnRecord): seq<Exchange> {
    Told(turn.step, turn.tries) + if turn.after.Some? then [Read(turn.after.value)] else []
  }

  function ToldAll(first: ReadReply, turns: seq<TurnRecord>): seq<Exchange> {
    if turns == [] then [Read(first)] else ToldAll(first, turns[..|turns| - 1]) + ToldTurn(turns[|turns| - 1])
  }

  /** Nothing in the session's way: every read that ends a turn answers and shows neither a
      rejection nor a dispute, and each step is accepted within the writes it was given. */
  ghost predicate Smooth(first: ReadReply, turns: seq<TurnRecord>) {
    && Harmless(first)
    && forall t :: t in turns ==>
         && (t.after.Some? ==> Harmless(t.after.value))
         && exists a :: a in t.tries && Accepted(t.step, a)
  }

  predicate Harmless(read: ReadReply) {
    Answered(read) && read != Record(Rejected) && read != Record(Disputed)
  }

  /** A session in whose way nothing stands succeeds, unless it fails to converge. */
  lemma SmoothSucceeds(p: Params, first: ReadReply, turns: seq<TurnRecord>, r: Outcome)
    requires Explains(p, first, turns, r) && Smooth(first, turns)
    ensures r.Recovered? || r == Failed(NotConverged)
  {
    if r.Failed? && turns != [] {
      var turn := turns[|turns| - 1];
      assert turn in turns;
      if turn.end.Stopped? {
        NeverAccepted(turn.step, turn.tries, p.maxRetriesPerStep, turn.end.failure);
      }
    }
  }

  lemma OutcomeMeans(p: Params, first: ReadReply, turns: seq<TurnRecord>, r: Outcome)
    requires Explains(p, first, turns, r)
    ensures r.Recovered? ==> PhaseOf(Some(r.finalStatus)) >= PhaseOrder(p.target)
    ensures r == Failed(NotConverged) ==> |turns| == 5
  {
    if r.Recovered? {
      TargetIs(p.target, Record(r.finalStatus));
    }
  }

  lemma NeverAccepted(step: RefundStep, tries: seq<Attempt>, limit: real, f: Failure)
    requires EndsAs(step, tries, limit, Stopped(f))
    ensures forall a :: a in tries ==> !Accepted(step, a)
  {
  }

  /** Each failure of a step names its cause: a permanent error is the last reply and not
      transient; retries are exhausted by transient replies only, one more than the limit;
      and after a transient reply with a write left another write follows. */
  lemma FailuresAreCaused(step: RefundStep, tries: seq<Attempt>, limit: real, f: Failure)
    requires EndsAs(step, tries, limit, Stopped(f))
    ensures f.Permanent? ==> tries[|tries| - 1].reply.Threw? && !tries[|tries| - 1].reply.transient
    ensures f.RetryExhausted? ==>
              |tries| as real == limit + 1.0 && forall a :: a in tries ==> a.reply.Threw? && a.reply.transient
    ensures forall i :: 0 <= i < |tries| && GoesOn(step, tries[i]) && (i + 1) as real <= limit ==> i + 1 < |tries|
  {
  }

  // ── The contract behind the client ────────────────────────────────────────

  function Seen(s: C.State, refundId: Id): Option<RefundStatus> {
    match T.StatusOf(s, refundId)
    case None => None
    case Some(Pending) => Some(Pending)
    case Some(Approved) => Some(Approved)
    case Some(Rejected) => Some(Rejected)
    case Some(Completed) => Some(Completed)
  }

  function ContractCall(p: Params, step: RefundStep): C.Step {
    match step
    case Initiate => C.Initiate(p.signers, p.caller, p.refundId, p.orderId, p.amount)
    case Approve => C.Approve(p.signers, p.caller, p.refundId)
    case Execute => C.Execute(p.signers, p.refundId)
  }

  ghost predicate Reaches(a: C.State, b: C.State) {
    exists steps: seq<C.Step> :: C.Run(a, steps) == b
  }

  lemma ReachesTrans(a: C.State, b: C.State, c: C.State)
    requires Reaches(a, b) && Reaches(b, c)
    ensures Reaches(a, c)
  {
    var x: seq<C.Step> :| C.Run(a, x) == b;
    var y: seq<C.Step> :| C.Run(b, y) == c;
    C.RunAppend(a, x, y);
  }

  lemma ReachesRun(a: C.State, steps: seq<C.Step>)
    ensures Reaches(a, C.Run(a, steps))
  {
    var b := C.Run(a, steps);
    assert C.Run(a, steps) == b;
  }

  lemma ReachesStep(a: C.State, step: C.Step)
    ensures Reaches(a, a) && Reaches(a, C.Apply(a, step))
  {
    assert C.Run(a, []) == a;
    assert [step][..0] == [];
    assert C.Run(a, [step]) == C.Apply(a, step);
  }

  /** A write of this session that the contract accepted. */
  datatype Commit = Commit(before: C.State, step: RefundStep, after: C.State)

  ghost predicate Genuine(own: seq<Commit>, p: Params) {
    forall c :: c in own ==> C.Call(c.before, ContractCall(p, c.step)) == Ok(c.after)
  }

  /** Where the refund stands once the step has committed, whatever others did since. */
  predicate Landed(step: RefundStep, status: Option<C.RefundStatus>) {
    match step
    case Initiate => status.Some?
    case Approve => status == Some(C.Approved) || status == Some(C.RefundStatus.Completed)
    case Execute => status == Some(C.RefundStatus.Completed)
  }

  lemma LandedStays(step: RefundStep, a: Option<C.RefundStatus>, b: Option<C.RefundStatus>)
    requires Landed(step, a) && T.Forward(a, b)
    ensures Landed(step, b)
  {
  }

  /** Commits in the order they were made: each had landed before the next, and has now. */
  ghost predicate Ordered(own: seq<Commit>, refundId: Id, now: Option<C.RefundStatus>) {
    && (forall i :: 0 <= i < |own| ==> Landed(own[i].step, now))
    && forall i, j :: 0 <= i < j < |own| ==> Landed(own[i].step, T.StatusOf(own[j].before, refundId))
  }

  lemma OrderedStays(own: seq<Commit>, refundId: Id, a: Option<C.RefundStatus>, b: Option<C.RefundStatus>)
    requires Ordered(own, refundId, a) && T.Forward(a, b)
    ensures Ordered(own, refundId, b)
  {
    forall i | 0 <= i < |own| ensures Landed(own[i].step, b) {
      LandedStays(own[i].step, a, b);
    }
  }

  /** What the commits of one session are: each is one call the contract accepted, from the
      phase before its step, so never on a rejected, disputed or completed refund and never
      on another one; and the phases strictly increase. */
  ghost predicate OneStepAtATime(own: seq<Commit>, p: Params) {
    && (forall c :: c in own ==> StepsOnce(c, p))
    && forall i, j :: 0 <= i < j < |own| ==> PhaseAfter(own[i].step) < PhaseAfter(own[j].step)
  }

  ghost predicate StepsOnce(c: Commit, p: Params) {
    && C.Call(c.before, ContractCall(p, c.step)) == Ok(c.after)
    && T.StatusOf(c.before, p.refundId) == StatusBefore(c.step)
    && PhaseOf(Seen(c.after, p.refundId)) == PhaseAfter(c.step)
    && forall id :: id != p.refundId ==> T.StatusOf(c.after, id) == T.StatusOf(c.before, id)
  }

  function StatusBefore(step: RefundStep): Option<C.RefundStatus> {
    match step case Initiate => None case Approve => Some(C.Pending) case Execute => Some(C.Approved)
  }

  lemma OrderedIncreases(own: seq<Commit>, p: Params, now: Option<C.RefundStatus>)
    requires Genuine(own, p) && Ordered(own, p.refundId, now)
    ensures OneStepAtATime(own, p) && |own| <= 3
  {
    forall c | c in own ensures StepsOnce(c, p) {
      CommitLands(p, c);
    }
    forall i, j | 0 <= i < j < |own| ensures PhaseAfter(own[i].step) < PhaseAfter(own[j].step) {
      assert own[j] in own && Landed(own[i].step, T.StatusOf(own[j].before, p.refundId));
      assert StepsOnce(own[j], p);
    }
    if own != [] {
      PhaseAtLeast(own, p, |own| - 1);
    }
  }

  lemma {:induction false} PhaseAtLeast(own: seq<Commit>, p: Params, i: nat)
    requires OneStepAtATime(own, p) && i < |own|
    ensures PhaseAfter(own[i].step) >= i
  {
    if i > 0 {
      PhaseAtLeast(own, p, i - 1);
    }
  }

  class Chain {
    const p: Params
    /** Whether replies tell the truth; when not, they are arbitrary. */
    const honest: bool
    ghost const start: C.State
    var state: C.State
    /** Writes of the session that were sent and have not reached the contract. */
    var inFlight: multiset<RefundStep>
    ghost var calls: nat
    ghost var own: seq<Commit>
    ghost var log: seq<Exchange>

    ghost predicate Valid()
      reads this
    {
      Genuine(own, p) && Ordered(own, p.refundId, T.StatusOf(state, p.refundId)) && Reaches(start, state)
    }

    function Status(): Option<C.RefundStatus>
      reads this
    {
      T.StatusOf(state, p.refundId)
    }

    constructor (p: Params, honest: bool, state: C.State)
      ensures Valid() && this.p == p && this.honest == honest && this.state == start == state
      ensures calls == 0 && own == [] && log == [] && inFlight == multiset{}
    {
      this.p, this.honest, this.state, start := p, honest, state, state;
      calls, own, log, inFlight := 0, [], [], multiset{};
      new;
      ReachesStep(state, C.Advance(0));
    }

    /** Any number of transactions by anyone, other recovery sessions included. */
    method OthersAct()
      requires Valid()
      modifies this`state
      ensures Valid() && T.Forward(old(Status()), Status())
    {
      var steps: seq<C.Step> := *;
      ReachesRun(state, steps);
      ReachesTrans(start, state, C.Run(state, steps));
      T.RunForward(state, steps, p.refundId);
      OrderedStays(own, p.refundId, Status(), T.StatusOf(C.Run(state, steps), p.refundId));
      state := C.Run(state, steps);
    }

    /** Others act, and writes sent earlier reach the contract late, each at most once. Even
        so the session's commits go one phase at a time. */
    method TimePasses()
      requires Valid()
      modifies this`state, this`own, this`inFlight
      ensures Valid() && T.Forward(old(Status()), Status()) && old(own) <= own && inFlight <= old(inFlight)
      ensures OneStepAtATime(own, p) && |own| <= 3
    {
      OthersAct();
      var rounds: int := *;
      while rounds > 0
        invariant Valid() && T.Forward(old(Status()), Status()) && old(own) <= own && inFlight <= old(inFlight)
      {
        var late: RefundStep := *;
        if late in inFlight {
          inFlight := inFlight - multiset{late};
          var committed := Deliver(late);
        }
        OthersAct();
        rounds := rounds - 1;
      }
      OrderedIncreases(own, p, Status());
    }

    method GetRefund() returns (r: ReadReply)
      requires Valid()
      modifies this`state, this`own, this`inFlight, this`log
      ensures Valid() && T.Forward(old(Status()), Status()) && old(own) <= own && log == old(log) + [Read(r)]
      ensures honest && r.Record? ==> Seen(state, p.refundId) == Some(r.status)
      ensures honest && (r.NoRecord? || (r.ReadThrew? && r.notFound)) ==> Seen(state, p.refundId) == None
    {
      TimePasses();
      var arbitrary: ReadReply := *;
      var fails: bool := *;
      if !honest {
        r := arbitrary;
      } else if fails {
        r := ReadThrew(false);
      } else {
        var seen := Seen(state, p.refundId);
        var throws: bool := *;
        r := if seen.Some? then Record(seen.value) else if throws then ReadThrew(true) else NoRecord;
      }
      log := log + [Read(r)];
    }

    /** One write: it may be lost, refused, commit and still throw, or be given up on and
        reach the contract at any later time. */
    method Submit(step: RefundStep) returns (r: CallReply)
      requires Valid()
      modifies this
      ensures Valid() && calls == old(calls) + 1 && T.Forward(old(Status()), Status()) && old(own) <= own
      ensures log == old(log) + [Wrote(step, r)]
      ensures honest && r.Done? ==> Landed(step, Status())
    {
      calls := calls + 1;
      inFlight := inFlight + multiset{step};
      TimePasses();
      var committed := MayArrive(step);
      r := *;
      if honest && r.Done? && !committed {
        var notFound: bool, transient: bool := *, *;
        r := Threw(notFound, transient);
      }
      log := log + [Wrote(step, r)];
    }

    /** The write reaches the contract now, unless it arrived before, or does not. */
    method MayArrive(step: RefundStep) returns (committed: bool)
      requires Valid()
      modifies this`state, this`own, this`inFlight
      ensures Valid() && T.Forward(old(Status()), Status()) && old(own) <= own
      ensures committed ==> Landed(step, Status())
    {
      var delivered: bool := *;
      committed := false;
      if delivered && step in inFlight {
        inFlight := inFlight - multiset{step};
        committed := Deliver(step);
      }
      TimePasses();
    }

    /** The contract runs the call; a refused call changes nothing. */
    method Deliver(step: RefundStep) returns (committed: bool)
      requires Valid()
      modifies this`state, this`own
      ensures Valid() && T.Forward(old(Status()), Status()) && old(own) <= own
      ensures committed ==> Landed(step, Status())
    {
      var result := C.Call(state, ContractCall(p, step));
      committed := result.Ok?;
      if committed {
        ReachesStep(state, ContractCall(p, step));
        ReachesTrans(start, state, result.value);
        CommitLands(p, Commit(state, step, result.value));
        StepForward(state, ContractCall(p, step), p.refundId);
        OrderedStays(own, p.refundId, Status(), T.StatusOf(result.value, p.refundId));
        own := own + [Commit(state, step, result.value)];
        state := result.value;
      }
    }
  }

  lemma StepForward(s: C.State, step: C.Step, refundId: Id)
    ensures T.Forward(T.StatusOf(s, refundId), T.StatusOf(C.Apply(s, step), refundId))
  {
    T.StepEffect(s, step);
    T.EffectForward(s, C.Apply(s, step), T.EffectOf(s, step), refundId);
  }

  /** A session's write moves its own refund exactly one phase on, from the phase
      before it; so it never touches a rejected or completed refund, nor any other one. */
  lemma CommitLands(p: Params, c: Commit)
    requires C.Call(c.before, ContractCall(p, c.step)) == Ok(c.after)
    ensures c.step == Initiate ==>
              c.after.refunds[p.refundId] == C.Refund(p.orderId, p.caller, p.amount, C.Pending, c.before.now)
    ensures Landed(c.step, T.StatusOf(c.after, p.refundId))
    ensures PhaseOf(Seen(c.after, p.refundId)) == PhaseAfter(c.step)
    ensures T.StatusOf(c.before, p.refundId) == StatusBefore(c.step)
    ensures forall id :: id != p.refundId ==> T.StatusOf(c.after, id) == T.StatusOf(c.before, id)
  {
  }

  // ── The client ────────────────────────────────────────────────────────────

  ghost predicate Increasing(steps: seq<RefundStep>) {
    forall i, j :: 0 <= i < j < |steps| ==> PhaseAfter(steps[i]) < PhaseAfter(steps[j])
  }

  /** The step that follows a status; a refund that left the normal path has none. */
  function NextStep(status: Option<RefundStatus>): (step: Option<RefundStep>)
    ensures step.Some? ==> PhaseAfter(step.value) == Level(status)
    ensures step.None? <==> Level(status) == 3
  {
    match status
    case None => Some(Initiate)
    case Some(Pending) => Some(Approve)
    case Some(Approved) => Some(Execute)
    case Some(_) => None
  }

  /** The steps so far strictly increase and lie below where the refund stands. */
  ghost predicate Tidy(steps: seq<RefundStep>, status: Option<RefundStatus>) {
    Increasing(steps) && forall i :: 0 <= i < |steps| ==> PhaseAfter(steps[i]) < Level(status)
  }

  lemma TidyGrows(steps: seq<RefundStep>, step: RefundStep, before: Option<RefundStatus>, after: Option<RefundStatus>)
    requires Tidy(steps, before) && PhaseAfter(step) == Level(before) < Level(after)
    ensures Tidy(steps + [step], after)
  {
  }

  /** How far a status is; a refund that left the normal path counts as at the end. */
  function Level(status: Option<RefundStatus>): nat {
    match status
    case None => 0
    case Some(Pending) => 1
    case Some(Approved) => 2
    case Some(_) => 3
  }

  /** The writes that `turns` turns may make. */
  function Budget(turns: nat, tries: nat): nat {
    if turns == 0 then 0 else Budget(turns - 1, tries) + tries
  }

  lemma {:induction false} BudgetMonotone(a: nat, b: nat, tries: nat)
    requires a <= b
    ensures Budget(a, tries) <= Budget(b, tries)
  {
    if a < b {
      BudgetMonotone(a, b - 1, tries);
    }
  }

  lemma {:induction false} BudgetIs(turns: nat, tries: nat)
    ensures Budget(turns, tries) == turns * tries
  {
    if turns > 0 {
      BudgetIs(turns - 1, tries);
    }
  }

  datatype Reading = Known(status: Option<RefundStatus>) | Unreadable

  class Session {
    const chain: Chain
    var status: Option<RefundStatus>
    var stepsApplied: seq<RefundStep>

    predicate UpToDate()
      reads this, chain
    {
      status == Seen(chain.state, chain.p.refundId)
    }

    constructor (chain: Chain)
      ensures this.chain == chain && stepsApplied == []
    {
      this.chain := chain;
      status, stepsApplied := None, [];
    }

    method ReadStatus() returns (r: Reading, ghost reply: ReadReply)
      requires chain.Valid()
      modifies chain`state, chain`own, chain`inFlight, chain`log
      ensures chain.Valid() && T.Forward(old(chain.Status()), chain.Status()) && old(chain.own) <= chain.own
      ensures chain.log == old(chain.log) + [Read(reply)]
      ensures r == if Answered(reply) then Known(StatusIn(reply)) else Unreadable
      ensures chain.honest && r.Known? ==> r.status == Seen(chain.state, chain.p.refundId)
    {
      var read := chain.GetRefund();
      reply := read;
      match read
      case Record(s) => r := Known(Some(s));
      case NoRecord => r := Known(None);
      case ReadThrew(notFound) => r := if notFound then Known(None) else Unreadable;
    }

    /** One contract call; after a failure the refund is re-read, because the call may have
        committed all the same. What was answered decides how the step goes on. */
    method TryOnce(step: RefundStep) returns (r: Verdict, ghost try: Attempt)
      requires chain.Valid()
      modifies this`status, chain
      ensures chain.Valid() && T.Forward(old(chain.Status()), chain.Status()) && old(chain.own) <= chain.own
      ensures chain.calls == old(chain.calls) + 1
      ensures chain.log == old(chain.log) + ToldTry(step, try) && Judged(step, try, r)
      ensures chain.honest && r.Applied? ==> Landed(step, chain.Status())
    {
      hide Chain.Valid;
      var reply := chain.Submit(step);
      if reply.Done? {
        return Applied, Attempt(reply, None);
      }
      ghost var read: ReadReply;
      var observed: Reading;
      observed, read := ReadStatus();
      try := Attempt(reply, Some(read));
      if observed.Unreadable? {
        return Fails(ReadFailed), try;
      }
      if PhaseOf(observed.status) >= PhaseAfter(step) {
        status := observed.status;
        return Applied, try;
      }
      if reply.notFound && step != Initiate {
        return Fails(Vanished(step)), try;
      }
      return if reply.transient then Again else Fails(Permanent(step)), try;
    }

    /** One contract call with bounded retries; after a failure the refund is re-read. */
    method RunStep(step: RefundStep) returns (failure: Option<Failure>, ghost tries: seq<Attempt>, ghost end: StepEnd)
      requires chain.Valid()
      modifies this, chain
      ensures chain.Valid() && T.Forward(old(chain.Status()), chain.Status()) && old(chain.own) <= chain.own
      ensures chain.calls == old(chain.calls) + |tries| <= old(chain.calls) + Tries(chain.p.maxRetriesPerStep)
      ensures chain.log == old(chain.log) + Told(step, tries)
      ensures EndsAs(step, tries, chain.p.maxRetriesPerStep, end)
      ensures failure == if end.Stopped? then Some(end.failure) else None
      ensures stepsApplied == old(stepsApplied) + if end.Through? then [step] else []
      ensures end.Through? && chain.honest ==> Landed(step, chain.Status())
      ensures end.Passed? ==> !Whole(chain.p.maxRetriesPerStep)
    {
      var limit := chain.p.maxRetriesPerStep;
      tries := [];
      assert Told(step, tries) == [] && 0 <= Tries(limit);
      hide Chain.Valid, EndsAs, Told, GoesOn, Judged, Tries, Whole;
      var attempt := 0;
      while attempt as real <= limit
        invariant 0 <= attempt == |tries| <= Tries(limit) && chain.calls == old(chain.calls) + attempt
        invariant attempt > 0 ==> (attempt - 1) as real < limit
        invariant forall a :: a in tries ==> GoesOn(step, a)
        invariant chain.Valid() && T.Forward(old(chain.Status()), chain.Status()) && old(chain.own) <= chain.own
        invariant stepsApplied == old(stepsApplied) && chain.log == old(chain.log) + Told(step, tries)
        decreases Tries(limit) - attempt
      {
        ghost var before, try := tries, Attempt(Done, None);
        var verdict: Verdict;
        verdict, try := TryOnce(step);
        tries := before + [try];
        LimitMeans(attempt, limit);
        LastTry(old(chain.log), step, before, try, limit, verdict);
        if verdict.Applied? {
          stepsApplied := stepsApplied + [step];
          return None, tries, Through;
        }
        if verdict.Fails? {
          return Some(verdict.failure), tries, Stopped(verdict.failure);
        }
        if attempt as real == limit {
          return Some(RetryExhausted(step, attempt + 1)), tries, Stopped(RetryExhausted(step, attempt + 1));
        }
        attempt := attempt + 1;
      }
      // Reached when the limit is no whole number: the step is neither applied nor failed.
      LimitMeans(attempt, limit);
      NoTryLeft(step, tries, limit);
      return None, tries, Passed;
    }

    /** One turn of the phase walk: the step for the current status, then a fresh read. */
    method Turn() returns (failure: Option<Failure>, ghost turn: Option<TurnRecord>)
      requires chain.Valid() && PhaseOf(status) < PhaseOrder(chain.p.target)
      modifies this, chain
      ensures chain.Valid() && old(chain.own) <= chain.own
      ensures chain.calls <= old(chain.calls) + Tries(chain.p.maxRetriesPerStep)
      ensures match turn
        case None =>
          && failure.Some? && failure.value.Entered? && failure.value.status in {Rejected, Disputed}
          && old(status) == Some(failure.value.status) && chain.calls == old(chain.calls) && chain.log == old(chain.log)
        case Some(t) =>
          && EndsAs(t.step, t.tries, chain.p.maxRetriesPerStep, t.end) && CallsFor(old(status), t.step)
          && chain.log == old(chain.log) + ToldTurn(t)
          && stepsApplied == old(stepsApplied) + (if t.end.Through? then [t.step] else [])
          && if failure.Some? then BreaksOff(t, failure.value) else Passes(t) && status == StatusIn(t.after.value)
      ensures chain.honest && failure.None? ==>
                UpToDate() && (old(UpToDate()) ==> Level(old(status)) <= Level(status)
                                                   && (turn.value.end.Through? ==> Level(old(status)) < Level(status)))
      ensures failure.None? && turn.value.end.Passed? ==> !Whole(chain.p.maxRetriesPerStep)
    {
      hide Chain.Valid, EndsAs, Told;
      var next := NextStep(status);
      if next.None? {
        return Some(Entered(status.value)), None;
      }
      var step := next.value;
      ghost var tries: seq<Attempt>, end: StepEnd;
      failure, tries, end := RunStep(step);
      turn := Some(TurnRecord(step, tries, end, None));
      if failure.Some? {
        return;
      }
      ghost var read: ReadReply;
      var reading: Reading;
      reading, read := ReadStatus();
      turn := Some(TurnRecord(step, tries, end, Some(read)));
      if reading.Unreadable? {
        failure := Some(ReadFailed);
        return;
      }
      status := reading.status;
    }

    /** One turn more, or the failure that ends the session. */
    method Advance(ghost first: ReadReply, ghost before: seq<TurnRecord>, ghost log: seq<Exchange>)
      returns (failure: Option<Failure>, ghost turns: seq<TurnRecord>)
      requires chain.Valid() && PhaseOf(status) < PhaseOrder(chain.p.target) && (chain.honest ==> UpToDate())
      requires Stands(chain.p, chain.honest, first, before, status, stepsApplied) && |before| < 5
      requires chain.log == log + ToldAll(first, before)
      requires before == [] ==> status != Some(Rejected) && status != Some(Disputed)
      modifies this, chain
      ensures chain.Valid() && old(chain.own) <= chain.own && chain.log == log + ToldAll(first, turns)
      ensures |before| <= |turns| <= |before| + 1
      ensures chain.honest && Whole(chain.p.maxRetriesPerStep) ==> |turns| <= 3
      ensures chain.calls <= old(chain.calls) + if |turns| > |before| then Tries(chain.p.maxRetriesPerStep) else 0
      ensures failure.None? ==>
                && |turns| == |before| + 1 && (chain.honest ==> UpToDate())
                && Stands(chain.p, chain.honest, first, turns, status, stepsApplied)
      ensures failure.Some? ==> Explains(chain.p, first, turns, Failed(failure.value))
    {
      hide Chain.Valid, Explains, Stands, EndsAs, Passes, BreaksOff, CallsFor;
      ghost var was, steps := status, stepsApplied;
      turns := before;
      ghost var turn: Option<TurnRecord>;
      failure, turn := Turn();
      if turn.Some? {
        turns := before + [turn.value];
        TurnsGrow(log, first, before, turn.value);
        if failure.Some? {
          EndsWithTurn(chain.p, chain.honest, first, before, was, steps, turn.value, failure.value);
        } else {
          StandsOn(chain.p, chain.honest, first, before, was, steps, turn.value);
        }
      } else {
        EndsOffPath(chain.p, chain.honest, first, before, failure.value.status, steps);
      }
    }

    /** The walk over the phases. Its records hold every exchange with the chain and explain
        the outcome; it fails to converge only when the replies lie or the retry limit is no
        whole number. */
    method Recover() returns (r: Outcome, ghost first: ReadReply, ghost turns: seq<TurnRecord>)
      requires chain.Valid() && stepsApplied == []
      modifies this, chain
      ensures chain.Valid() && old(chain.own) <= chain.own
      ensures Explains(chain.p, first, turns, r) && chain.log == old(chain.log) + ToldAll(first, turns)
      ensures |turns| <= 5 && chain.calls <= old(chain.calls) + Budget(|turns|, Tries(chain.p.maxRetriesPerStep))
      ensures chain.honest && Whole(chain.p.maxRetriesPerStep) ==> |turns| <= 3
      ensures chain.honest && r.Recovered? ==> Some(r.finalStatus) == Seen(chain.state, chain.p.refundId)
      ensures chain.honest && r.Recovered? ==> Increasing(r.stepsApplied)
    {
      hide Chain.Valid, Explains, Stands;
      turns := [];
      var reading: Reading;
      reading, first := ReadStatus();
      EndsAtOnce(chain.p, chain.honest, first);
      if reading.Unreadable? {
        return Failed(ReadFailed), first, turns;
      }
      status := reading.status;
      if status == Some(Rejected) || status == Some(Disputed) {
        return Failed(Failure.Refused(status.value)), first, turns;
      }
      var target := PhaseOrder(chain.p.target);
      var alreadyComplete := PhaseOf(status) >= target;
      var guard := 0;
      while PhaseOf(status) < target
        invariant 0 <= guard == |turns| <= 5 && chain.Valid() && old(chain.own) <= chain.own
        invariant chain.calls <= old(chain.calls) + Budget(|turns|, Tries(chain.p.maxRetriesPerStep))
        invariant Stands(chain.p, chain.honest, first, turns, status, stepsApplied) && (chain.honest ==> UpToDate())
        invariant chain.log == old(chain.log) + ToldAll(first, turns)
        invariant if turns == [] then alreadyComplete <==> PhaseOf(status) >= target else !alreadyComplete
        invariant turns == [] ==> status != Some(Rejected) && status != Some(Disputed)
        decreases 5 - guard
      {
        if guard > 4 {
          EndsAfter(chain.p, chain.honest, first, turns, status, stepsApplied);
          return Failed(NotConverged), first, turns;
        }
        guard := guard + 1;
        var failure: Option<Failure>;
        failure, turns := Advance(first, turns, old(chain.log));
        if failure.Some? {
          return Failed(failure.value), first, turns;
        }
      }
      EndsAfter(chain.p, chain.honest, first, turns, status, stepsApplied);
      return Recovered(if status.Some? then status.value else Pending, stepsApplied, alreadyComplete), first, turns;
    }
  }

  /** What the session makes of its turns so far. */
  ghost predicate Stands(p: Params, honest: bool, first: ReadReply, turns: seq<TurnRecord>,
                         status: Option<RefundStatus>, stepsApplied: seq<RefundStep>)
  {
    && Walks(p, first, turns) && AllEnd(p.maxRetriesPerStep, turns)
    && status == StatusIn(ReadBefore(first, turns, |turns|)) && stepsApplied == AppliedIn(turns)
    && (honest ==> Tidy(stepsApplied, status))
    && (honest && Whole(p.maxRetriesPerStep) ==> |turns| <= Level(status))
  }

  lemma EndsAtOnce(p: Params, honest: bool, first: ReadReply)
    ensures !Answered(first) ==> Explains(p, first, [], Failed(ReadFailed))
    ensures first == Record(Rejected) ==> Explains(p, first, [], Failed(Failure.Refused(Rejected)))
    ensures first == Record(Disputed) ==> Explains(p, first, [], Failed(Failure.Refused(Disputed)))
    ensures Answered(first) ==> Stands(p, honest, first, [], StatusIn(first), [])
    ensures ToldAll(first, []) == [Read(first)]
  {
  }

  lemma EndsAfter(p: Params, honest: bool, first: ReadReply, turns: seq<TurnRecord>,
                  status: Option<RefundStatus>, stepsApplied: seq<RefundStep>)
    requires Stands(p, honest, first, turns, status, stepsApplied)
    ensures PhaseOf(status) < PhaseOrder(p.target) && |turns| == 5 ==>
              Explains(p, first, turns, Failed(NotConverged)) && !(honest && Whole(p.maxRetriesPerStep))
    ensures PhaseOf(status) >= PhaseOrder(p.target) ==>
              && status.Some? && Explains(p, first, turns, Recovered(status.value, stepsApplied, turns == []))
              && (honest && Whole(p.maxRetriesPerStep) ==> |turns| <= 3) && (honest ==> Increasing(stepsApplied))
  {
    TargetIs(p.target, ReadBefore(first, turns, |turns|));
  }

  lemma StandsOn(p: Params, honest: bool, first: ReadReply, turns: seq<TurnRecord>,
                 status: Option<RefundStatus>, stepsApplied: seq<RefundStep>, turn: TurnRecord)
    requires Stands(p, honest, first, turns, status, stepsApplied) && |turns| < 5 && PhaseOf(status) < PhaseOrder(p.target)
    requires EndsAs(turn.step, turn.tries, p.maxRetriesPerStep, turn.end) && Passes(turn) && CallsFor(status, turn.step)
    requires turn.end.Passed? ==> !Whole(p.maxRetriesPerStep)
    requires honest ==> Level(status) <= Level(StatusIn(turn.after.value))
    requires honest && turn.end.Through? ==> Level(status) < Level(StatusIn(turn.after.value))
    ensures Stands(p, honest, first, turns + [turn], StatusIn(turn.after.value),
                   stepsApplied + if turn.end.Through? then [turn.step] else [])
    ensures honest && Whole(p.maxRetriesPerStep) ==> |turns| < 3
  {
    TargetIs(p.target, ReadBefore(first, turns, |turns|));
    WalksOn(p, first, turns, turn);
    TurnsGrow([], first, turns, turn);
    if honest && turn.end.Through? {
      TidyGrows(stepsApplied, turn.step, status, StatusIn(turn.after.value));
    }
  }

  lemma EndsWithTurn(p: Params, honest: bool, first: ReadReply, turns: seq<TurnRecord>,
                     status: Option<RefundStatus>, stepsApplied: seq<RefundStep>, turn: TurnRecord, f: Failure)
    requires Stands(p, honest, first, turns, status, stepsApplied) && |turns| < 5 && PhaseOf(status) < PhaseOrder(p.target)
    requires EndsAs(turn.step, turn.tries, p.maxRetriesPerStep, turn.end) && BreaksOff(turn, f) && CallsFor(status, turn.step)
    ensures Explains(p, first, turns + [turn], Failed(f))
    ensures honest && Whole(p.maxRetriesPerStep) ==> |turns| < 3
  {
    var all := turns + [turn];
    TargetIs(p.target, ReadBefore(first, turns, |turns|));
    assert all[..|turns|] == turns && all[|turns|] == turn;
    assert ReadBefore(first, all, |turns|) == ReadBefore(first, turns, |turns|);
    assert !Passes(turn) && FailedTurn(p, first, all, f);
  }

  lemma EndsOffPath(p: Params, honest: bool, first: ReadReply, turns: seq<TurnRecord>,
                    status: RefundStatus, stepsApplied: seq<RefundStep>)
    requires Stands(p, honest, first, turns, Some(status), stepsApplied) && 0 < |turns| < 5
    requires status in {Rejected, Disputed} && PhaseOf(Some(status)) < PhaseOrder(p.target)
    ensures Explains(p, first, turns, Failed(Entered(status)))
    ensures honest && Whole(p.maxRetriesPerStep) ==> |turns| <= 3
  {
    TargetIs(p.target, ReadBefore(first, turns, |turns|));
  }

  ghost predicate PaidExactlyOnce(payouts: seq<C.Payout>, refundId: Id) {
    RefundSafety.HasPayout(payouts, refundId) && T.PaidOnce(payouts, refundId)
  }

  ghost predicate NotForcedTwice(s: C.State, refundId: Id) {
    forall d, e :: T.ForcedOn(s, d, refundId) && T.ForcedOn(s, e, refundId) ==> d == e
  }

  lemma ReachableInv(start: C.State, end: C.State)
    requires RefundSafety.Inv(start) && Reaches(start, end)
    ensures RefundSafety.Inv(end)
  {
    var steps: seq<C.Step> :| C.Run(start, steps) == end;
    RefundSafety.RunKeepsInv(start, steps);
  }

  lemma CompletedMeansPaid(start: C.State, end: C.State, refundId: Id)
    requires RefundSafety.Inv(start) && Reaches(start, end) && Seen(end, refundId) == Some(Completed)
    ensures RefundSafety.HasPayout(end.payouts, refundId)
    ensures PaidExactlyOnce(end.payouts, refundId) <==> NotForcedTwice(end, refundId)
  {
    ReachableInv(start, end);
    T.PaidOnceIff(end, refundId);
  }

  /** One recovery session, from first read to result, with anything happening around it.
      Whatever the network and the others do, the session's own transactions go one phase
      at a time and touch nothing else; it stops after at most five times, against a
      contract that answers truly three times, the writes allowed for one step. Its records
      hold every exchange and explain the outcome, so it fails only for a cause; with nothing
      in its way it succeeds. When it returns normally with target `executed`, the refund has
      been paid, and exactly once if and only if no two disputes over it were settled by force. */
  method RecoverRefund(chain: Chain) returns (r: Outcome, ghost first: ReadReply, ghost turns: seq<TurnRecord>)
    requires chain.Valid()
    modifies chain
    ensures chain.Valid() && old(chain.own) <= chain.own && OneStepAtATime(chain.own, chain.p) && |chain.own| <= 3
    ensures chain.calls <= old(chain.calls) + 5 * Tries(chain.p.maxRetriesPerStep)
    ensures Explains(chain.p, first, turns, r) && chain.log == old(chain.log) + ToldAll(first, turns)
    ensures r.Recovered? ==> PhaseOf(Some(r.finalStatus)) >= PhaseOrder(chain.p.target)
    ensures chain.honest && Whole(chain.p.maxRetriesPerStep) ==> chain.calls <= old(chain.calls) + 3 * Tries(chain.p.maxRetriesPerStep)
    ensures chain.honest && Whole(chain.p.maxRetriesPerStep) && r.Failed? ==> !r.failure.NotConverged?
    ensures chain.honest && Whole(chain.p.maxRetriesPerStep) && Smooth(first, turns) ==> r.Recovered?
    ensures chain.honest && r.Recovered? ==>
              Some(r.finalStatus) == Seen(chain.state, chain.p.refundId) && Increasing(r.stepsApplied)
    ensures chain.honest && r.Recovered? && chain.p.target == Executed && RefundSafety.Inv(chain.start) ==>
              && RefundSafety.HasPayout(chain.state.payouts, chain.p.refundId)
              && (PaidExactlyOnce(chain.state.payouts, chain.p.refundId) <==> NotForcedTwice(chain.state, chain.p.refundId))
  {
    hide Explains, Smooth, ToldAll;
    var session := new Session(chain);
    r, first, turns := session.Recover();
    OrderedIncreases(chain.own, chain.p, chain.Status());
    ghost var most := if chain.honest && Whole(chain.p.maxRetriesPerStep) then 3 else 5;
    BudgetMonotone(|turns|, most, Tries(chain.p.maxRetriesPerStep));
    BudgetIs(most, Tries(chain.p.maxRetriesPerStep));
    OutcomeMeans(chain.p, first, turns, r);
    if Smooth(first, turns) {
      SmoothSucceeds(chain.p, first, turns, r);
    }
    ghost var id := chain.p.refundId;
    if chain.honest && r.Recovered? && chain.p.target == Executed && RefundSafety.Inv(chain.start) {
      CompletedMeansPaid(chain.start, chain.state, id);
    }
  }
}
