/** The webhook server: a token is remembered before its delivery, so an event is
    delivered at most once. Handlers of different messages interleave at every
    `await`; a message is one `Handler`, and each method one uninterrupted segment. */
module WebhookServer {
  import opened Common

  datatype Phase =
    | Checked(present: bool)
    | Posting(attempt: nat)
    | Delivered
    | GivenUp
    | Done
    | Skipped

  datatype Handler = Handler(token: string, phase: Phase, posts: nat, oks: nat, slept: int)

  datatype Reply = Responded(status: int) | Lost

  /** The statuses a fetch calls ok. */
  predicate IsOk(r: Reply) {
    r.Responded? && 200 <= r.status < 300
  }

  /** The handler got past the check and recorded its token. */
  predicate Entered(h: Handler) {
    !h.phase.Checked? && !h.phase.Skipped?
  }

  /** The delivery loop of the handler has ended. */
  predicate Finished(h: Handler) {
    h.phase.Delivered? || h.phase.GivenUp? || h.phase.Done?
  }

  function Attempts(maxRetries: int): nat {
    if maxRetries < 0 then 0 else maxRetries
  }

  /** What a handler has done so far: one post per attempt, none after an accepted one,
      and after k refused ones the doubling pauses between them. */
  predicate Regular(h: Handler, maxRetries: int, base: int) {
    && h.posts <= Attempts(maxRetries) && h.oks <= 1 && h.oks <= h.posts
    && (!Entered(h) ==> h.posts == 0 && h.slept == 0)
    && (h.phase.Posting? ==> 1 <= h.phase.attempt <= maxRetries && h.posts == h.phase.attempt - 1 && h.oks == 0
                             && h.slept == base * (Pow2(h.posts) - 1))
    && (h.phase.Delivered? ==> h.oks == 1)
    && (h.phase.GivenUp? ==> h.oks == 0)
    && (Finished(h) && h.oks == 1 ==> h.posts >= 1 && h.slept == base * (Pow2(h.posts - 1) - 1))
    && (Finished(h) && h.oks == 0 ==> h.posts == Attempts(maxRetries)
                                      && h.slept == if maxRetries >= 1 then base * (Pow2(maxRetries - 1) - 1) else 0)
  }

  /** Each token enters delivery at most once. */
  ghost predicate AtMostOnce(hs: seq<Handler>) {
    forall i, j :: 0 <= i < j < |hs| && Entered(hs[i]) && Entered(hs[j]) ==> hs[i].token != hs[j].token
  }

  ghost predicate AllRegular(hs: seq<Handler>, maxRetries: int, base: int) {
    forall i :: 0 <= i < |hs| ==> Regular(hs[i], maxRetries, base)
  }

  ghost function EnteredTokens(hs: seq<Handler>): set<string> {
    set h | h in hs && Entered(h) :: h.token
  }

  ghost function FinishedTokens(hs: seq<Handler>): set<string> {
    set h | h in hs && Finished(h) :: h.token
  }

  /** The handler `a` may become `b`: it keeps its token and does not go back. */
  predicate Onward(a: Handler, b: Handler) {
    a.token == b.token && (Entered(a) ==> Entered(b)) && (Finished(a) ==> Finished(b))
  }

  lemma AppendChecked(hs: seq<Handler>, h: Handler)
    requires !Entered(h)
    ensures EnteredTokens(hs + [h]) == EnteredTokens(hs) && FinishedTokens(hs + [h]) == FinishedTokens(hs)
    ensures AtMostOnce(hs + [h]) <==> AtMostOnce(hs)
  {
    var longer := hs + [h];
    forall j | 0 <= j < |hs| ensures hs[j] in longer && longer[j] == hs[j] {
      assert longer[j] == hs[j];
    }
  }

  lemma UpdateTokens(hs: seq<Handler>, i: nat, next: Handler)
    requires i < |hs| && Onward(hs[i], next)
    ensures EnteredTokens(hs[i := next]) == EnteredTokens(hs) + if Entered(next) then {next.token} else {}
    ensures FinishedTokens(hs[i := next]) == FinishedTokens(hs) + if Finished(next) then {next.token} else {}
  {
    var after := hs[i := next];
    assert after[i] == next;
    assert next in after && hs[i] in hs;
    forall h | h in hs && h != hs[i] ensures h in after {
      var k :| 0 <= k < |hs| && hs[k] == h;
      assert after[k] == h;
    }
    forall h | h in after && h != next ensures h in hs {
      var k :| 0 <= k < |hs| && after[k] == h;
      assert hs[k] == h;
    }
  }

  /** A handler entering keeps every token single exactly when its token was not recorded. */
  lemma EnterOnce(hs: seq<Handler>, i: nat, next: Handler)
    requires i < |hs| && Onward(hs[i], next) && !Entered(hs[i]) && Entered(next)
    ensures AtMostOnce(hs[i := next]) <==> AtMostOnce(hs) && next.token !in EnteredTokens(hs)
  {
    var after := hs[i := next];
    if AtMostOnce(after) {
      forall j, k | 0 <= j < k < |hs| && Entered(hs[j]) && Entered(hs[k]) ensures hs[j].token != hs[k].token {
        assert after[j] == hs[j] && after[k] == hs[k];
      }
      forall k | 0 <= k < |hs| && Entered(hs[k]) ensures hs[k].token != next.token {
        assert after[k] == hs[k] && after[i] == next;
      }
    }
    if AtMostOnce(hs) && next.token !in EnteredTokens(hs) {
      forall k | 0 <= k < |hs| && Entered(hs[k]) ensures hs[k].token != next.token {
        assert hs[k] in hs;
      }
    }
  }

  lemma SameEntries(hs: seq<Handler>, i: nat, next: Handler)
    requires i < |hs| && Onward(hs[i], next) && (Entered(hs[i]) <==> Entered(next))
    ensures AtMostOnce(hs[i := next]) <==> AtMostOnce(hs)
  {
    var after := hs[i := next];
    assert forall k :: 0 <= k < |hs| ==> after[k].token == hs[k].token && (Entered(after[k]) <==> Entered(hs[k]));
  }

  /** The pauses add up: base·(2^k - 1) after k of them. */
  lemma Doubled(base: int, k: nat)
    ensures base * (Pow2(k) - 1) + base * Pow2(k) == base * (Pow2(k + 1) - 1)
  {
    assert Pow2(k + 1) == 2 * Pow2(k);
  }

  class Server {
    const maxRetries: int
    const retryBase: int
    const resumeFrom: string
    var records: set<string>
    var cursor: string
    var handlers: seq<Handler>
    /** Whether every token was still unknown when it was recorded. */
    ghost var clean: bool

    ghost predicate Valid()
      reads this
    {
      && AllRegular(handlers, maxRetries, retryBase)
      && records == EnteredTokens(handlers)
      && (clean <==> AtMostOnce(handlers))
      && (cursor == resumeFrom || cursor in FinishedTokens(handlers))
    }

    constructor (maxRetries: int, retryBase: int, resumeFrom: string)
      ensures Valid() && handlers == [] && clean
    {
      this.maxRetries, this.retryBase, this.resumeFrom := maxRetries, retryBase, resumeFrom;
      records, cursor, handlers, clean := {}, resumeFrom, [], true;
    }

    /** A message arrives: without a token it is dropped, else the store is asked. */
    method OnMessage(token: Option<string>)
      requires Valid()
      modifies this`handlers
      ensures Valid()
      ensures handlers == if token.None? || token.value == "" then old(handlers)
                          else old(handlers) + [Handler(token.value, Checked(token.value in records), 0, 0, 0)]
    {
      if token.None? || token.value == "" {
        return;
      }
      var h := Handler(token.value, Checked(token.value in records), 0, 0, 0);
      AppendChecked(handlers, h);
      handlers := handlers + [h];
    }

    /** The handler learns the answer of the store: a duplicate stops here, anything
        else is recorded and goes on to delivery. */
    method Record(i: nat)
      requires Valid() && i < |handlers| && handlers[i].phase.Checked?
      modifies this`handlers, this`records, this`clean
      ensures Valid() && |handlers| == |old(handlers)| && (forall j :: 0 <= j < |handlers| && j != i ==> handlers[j] == old(handlers[j]))
      ensures handlers[i].token == old(handlers[i].token) && !handlers[i].phase.Checked?
      ensures Entered(handlers[i]) <==> !old(handlers[i]).phase.present
      ensures records == if old(handlers[i]).phase.present then old(records) else old(records) + {old(handlers[i]).token}
      ensures clean <==> old(clean) && (old(handlers[i]).phase.present || old(handlers[i]).token !in old(records))
    {
      var h := handlers[i];
      var next := h.(phase := if h.phase.present then Skipped else if maxRetries >= 1 then Posting(1) else GivenUp);
      UpdateTokens(handlers, i, next);
      if h.phase.present {
        SameEntries(handlers, i, next);
      } else {
        EnterOnce(handlers, i, next);
        clean := clean && h.token !in records;
        records := records + {h.token};
      }
      handlers := handlers[i := next];
    }

    /** One post: accepted, or refused or lost and followed by a pause. */
    method Post(i: nat) returns (r: Reply)
      requires Valid() && i < |handlers| && handlers[i].phase.Posting?
      modifies this`handlers
      ensures Valid() && |handlers| == |old(handlers)| && (forall j :: 0 <= j < |handlers| && j != i ==> handlers[j] == old(handlers[j]))
      ensures handlers[i].token == old(handlers[i].token) && handlers[i].posts == old(handlers[i].posts) + 1
      ensures handlers[i].phase == if r.Responded? && 200 <= r.status <= 299 then Delivered
                                   else if old(handlers[i]).phase.attempt < maxRetries then Posting(old(handlers[i]).phase.attempt + 1)
                                   else GivenUp
      ensures handlers[i].oks == old(handlers[i].oks) + if handlers[i].phase.Delivered? then 1 else 0
    {
      var h := handlers[i];
      r := *;
      var ok := IsOk(r);
      var attempt := h.phase.attempt;
      var next: Handler;
      if ok {
        next := h.(phase := Delivered, posts := h.posts + 1, oks := h.oks + 1);
      } else if attempt < maxRetries {
        var delay := retryBase * Pow2(attempt - 1);
        Doubled(retryBase, attempt - 1);
        next := h.(phase := Posting(attempt + 1), posts := h.posts + 1, slept := h.slept + delay);
      } else {
        next := h.(phase := GivenUp, posts := h.posts + 1);
      }
      Replace(i, next);
    }

    /** After the delivery loop the cursor moves to the token, delivered or not. */
    method SaveCursor(i: nat)
      requires Valid() && i < |handlers| && (handlers[i].phase.Delivered? || handlers[i].phase.GivenUp?)
      modifies this`handlers, this`cursor
      ensures Valid() && handlers == old(handlers)[i := old(handlers[i]).(phase := Done)] && cursor == handlers[i].token
    {
      Replace(i, handlers[i].(phase := Done));
      assert handlers[i] in handlers;
      cursor := handlers[i].token;
    }

    /** A handler that has entered moves on. */
    method Replace(i: nat, next: Handler)
      requires Valid() && i < |handlers| && Entered(handlers[i]) && Onward(handlers[i], next)
      requires Regular(next, maxRetries, retryBase)
      modifies this`handlers
      ensures Valid() && handlers == old(handlers)[i := next]
    {
      UpdateTokens(handlers, i, next);
      assert handlers[i] in handlers;
      SameEntries(handlers, i, next);
      handlers := handlers[i := next];
    }

    /** Any schedule of `steps` segments. Deliveries interleave freely; when `atomic`, a
        handler checks and records without another handler in between, and then no
        token is ever delivered twice. */
    method Serve(steps: nat, atomic: bool)
      requires Valid() && clean && handlers == []
      modifies this
      ensures Valid() && (atomic ==> AtMostOnce(handlers))
    {
      for n := 0 to steps
        invariant Valid()
        invariant atomic ==> clean && forall i :: 0 <= i < |handlers| ==> !handlers[i].phase.Checked?
      {
        var token: Option<string> := *;
        var i: int := *;
        if i < 0 || |handlers| <= i {
          OnMessage(token);
          if atomic && |handlers| > 0 && handlers[|handlers| - 1].phase.Checked? {
            Record(|handlers| - 1);
          }
        } else if handlers[i].phase.Checked? {
          Record(i);
        } else if handlers[i].phase.Posting? {
          var r := Post(i);
        } else if handlers[i].phase.Delivered? || handlers[i].phase.GivenUp? {
          SaveCursor(i);
        }
      }
    }
  }

  /** Two messages with one token, both checked before either is recorded: both enter delivery. */
  method CheckedBeforeRecorded(token: string) returns (s: Server)
    requires token != ""
    ensures fresh(s) && s.Valid() && !AtMostOnce(s.handlers)
  {
    s := new Server(5, 500, "now");
    s.OnMessage(Some(token));
    s.OnMessage(Some(token));
    s.Record(0);
    s.Record(1);
    assert Entered(s.handlers[0]) && Entered(s.handlers[1]);
  }
}
