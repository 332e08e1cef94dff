/** The relay in front of a webhook: a key is remembered once its delivery has
    been acknowledged, so an event is delivered at least once. */
module WebhookRelay {
  import opened Common

  datatype Event = Event(pagingToken: Option<string>, id: Option<string>)

  /** The key of an event; the empty string counts as none. */
  function KeyOf(e: Event): Option<string> {
    var key := if e.pagingToken.Some? then e.pagingToken else e.id;
    if key == Some("") then None else key
  }

  datatype Reply = Responded(status: int) | Threw

  predicate Acknowledged(r: Reply) {
    r.Responded? && 200 <= r.status < 300
  }

  predicate Retryable(r: Reply) {
    r.Threw? || r.status in {408, 425, 429, 500, 502, 503, 504}
  }

  datatype Outcome =
    | Delivered(key: string, attempts: int)
    | Duplicate(key: string)
    | MissingKey
    | Rejected(key: string, attempts: int, status: int)
    | Exhausted(key: string, attempts: int)
    | FellThrough(key: string)

  predicate Succeeded(o: Outcome) {
    o.Delivered? || o.Duplicate?
  }

  /** The attempts a limit allows, and whether the last of them meets it. */
  function Allowed(limit: real): nat {
    if limit < 1.0 then 0 else limit.Floor
  }

  predicate Whole(limit: real) {
    limit >= 1.0 && limit.Floor as real == limit
  }

  /** How many of the posts were followed by a pause: all but the last, or all of them when
      none of them met the limit. */
  function Pauses(posts: nat, o: Outcome): nat {
    if posts == 0 || o.FellThrough? then posts else posts - 1
  }

  /** The pause after the k-th failed attempt, counted from 0, and all pauses after the first n. */
  function Delay(base: int, cap: int, k: nat): int {
    Min(base * Pow2(k), cap)
  }

  function Delays(base: int, cap: int, n: nat): seq<int> {
    if n == 0 then [] else Delays(base, cap, n - 1) + [Delay(base, cap, n - 1)]
  }

  /** The first pause is the base delay, each further one that of twice the base, none above the cap. */
  lemma DelayDoubles(base: int, cap: int, k: nat)
    ensures Delay(base, cap, 0) == if base < cap then base else cap
    ensures Delay(base, cap, k + 1) == Delay(2 * base, cap, k)
  {
    assert base * Pow2(k + 1) == base * (2 * Pow2(k)) == 2 * base * Pow2(k);
  }

  lemma {:induction false} DelaysAt(base: int, cap: int, n: nat, k: nat)
    ensures |Delays(base, cap, n)| == n && (k < n ==> Delays(base, cap, n)[k] == Delay(base, cap, k))
  {
    if n > 0 {
      DelaysAt(base, cap, n - 1, k);
    }
  }

  /** With the default delays: 200, 400, 800 milliseconds, and never above 10 seconds. */
  lemma DefaultDelays()
    ensures Delays(200, 10_000, 3) == [200, 400, 800] && Delay(200, 10_000, 5) == 6_400 && Delay(200, 10_000, 6) == 10_000
  {
    assert Pow2(0) == 1 && Pow2(1) == 2 && Pow2(2) == 4;
    assert Pow2(3) == 8 && Pow2(4) == 16;
    assert Pow2(5) == 32 && Pow2(6) == 64;
  }

  /** The first of pagingToken and id that is given decides; as a key it must not be empty. */
  lemma KeyMeans(e: Event, key: string)
    ensures KeyOf(e) == Some(key) <==>
              key != "" && (e.pagingToken == Some(key) || (e.pagingToken.None? && e.id == Some(key)))
    ensures KeyOf(e) != Some("")
  {
  }

  // ── What an endpoint's answers lead to ────────────────────────────────────

  predicate Succeeds(r: Reply) {
    r.Responded? && 200 <= r.status <= 299
  }

  /** A failure that another attempt may overcome: no answer, or one of seven statuses. */
  predicate Temporary(r: Reply) {
    || r.Threw?
    || r.status == 408 || r.status == 425 || r.status == 429
    || r.status == 500 || r.status == 502 || r.status == 503 || r.status == 504
  }

  /** The replies to one event and the outcome they lead to: every reply but the last was a
      temporary failure within the limit, and the last one decides. */
  ghost predicate Leads(replies: seq<Reply>, limit: real, r: Outcome) {
    && (forall i :: 0 <= i < |replies| - 1 ==> Temporary(replies[i]))
    && (replies != [] ==> |replies| as real <= limit)
    && match r
       case Delivered(_, n) => n == |replies| > 0 && Succeeds(replies[n - 1])
       case Rejected(_, n, status) =>
         n == |replies| > 0 && replies[n - 1] == Responded(status) && !Succeeds(Responded(status)) && !Temporary(Responded(status))
       case Exhausted(_, n) => n == |replies| > 0 && Temporary(replies[n - 1]) && n as real == limit
       case FellThrough(_) =>
         && (|replies| + 1) as real > limit
         && (replies != [] ==> Temporary(replies[|replies| - 1]) && |replies| as real != limit)
       case _ => replies == []
  }

  ghost function Elements(keys: seq<string>): set<string> {
    set k | k in keys
  }

  class Relay {
    const maxAttempts: real
    const baseDelay: int
    const maxDelay: int
    var seen: set<string>
    /** The keys the endpoint acknowledged, its replies and the pauses, in order. */
    ghost var acks: seq<string>
    ghost var heard: seq<Reply>
    ghost var slept: seq<int>

    ghost predicate Valid()
      reads this
    {
      seen == Elements(acks) && Distinct(acks)
    }

    constructor (maxAttempts: real, baseDelay: int, maxDelay: int)
      ensures Valid() && acks == [] && heard == [] && slept == []
      ensures this.maxAttempts == maxAttempts && this.baseDelay == baseDelay && this.maxDelay == maxDelay
    {
      this.maxAttempts, this.baseDelay, this.maxDelay := maxAttempts, baseDelay, maxDelay;
      seen, acks, heard, slept := {}, [], [], [];
    }

    /** The endpoint may answer anything, or nothing. */
    method Deliver(key: string) returns (r: Reply)
      modifies this`heard, this`acks
      ensures heard == old(heard) + [r]
      ensures acks == if Succeeds(r) then old(acks) + [key] else old(acks)
    {
      r := *;
      heard := heard + [r];
      if Acknowledged(r) {
        acks := acks + [key];
      }
    }

    /** Without a key there is an error, for a key acknowledged before a duplicate, and neither
        costs a post. Otherwise the replies decide the outcome, and a pause follows every
        temporary failure but one that meets the limit. */
    method RelayEvent(event: Event) returns (r: Outcome, ghost replies: seq<Reply>)
      requires Valid()
      modifies this
      ensures Valid()
      ensures acks == if r.Delivered? then old(acks) + [r.key] else old(acks)
      ensures match KeyOf(event)
        case None => r == MissingKey
        case Some(key) => !r.MissingKey? && r.key == key && (r.Duplicate? <==> key in old(acks))
      ensures heard == old(heard) + replies && Leads(replies, maxAttempts, r)
      ensures !r.MissingKey? && !r.Duplicate? ==> (replies == [] <==> maxAttempts < 1.0)
      ensures |replies| <= Allowed(maxAttempts)
      ensures r.Exhausted? ==> Whole(maxAttempts) && |replies| == Allowed(maxAttempts)
      ensures r.FellThrough? ==> !Whole(maxAttempts) && |replies| == Allowed(maxAttempts)
      ensures slept == old(slept) + Delays(baseDelay, maxDelay, Pauses(|replies|, r))
    {
      replies := [];
      var keyed := KeyOf(event);
      if keyed.None? {
        return MissingKey, replies;
      }
      var key := keyed.value;
      if key in seen {
        return Duplicate(key), replies;
      }
      var attempt := 1;
      while attempt as real <= maxAttempts
        invariant 1 <= attempt == |replies| + 1 <= Allowed(maxAttempts) + 1
        invariant forall i :: 0 <= i < |replies| ==> Temporary(replies[i])
        invariant heard == old(heard) + replies && acks == old(acks) && seen == old(seen)
        invariant slept == old(slept) + Delays(baseDelay, maxDelay, attempt - 1)
        invariant attempt > 1 ==> (attempt - 1) as real < maxAttempts
        decreases Allowed(maxAttempts) + 1 - attempt
      {
        var reply := Deliver(key);
        replies := replies + [reply];
        if Acknowledged(reply) {
          seen := seen + {key};
          return Delivered(key, attempt), replies;
        }
        if !Retryable(reply) {
          return Rejected(key, attempt, reply.status), replies;
        }
        if attempt as real == maxAttempts {
          return Exhausted(key, attempt), replies;
        }
        slept := slept + [Min(baseDelay * Pow2(attempt - 1), maxDelay)];
        attempt := attempt + 1;
      }
      // Reached when the limit is not a positive whole number.
      return FellThrough(key), replies;
    }

    /** Events in order, up to the first failure. Whatever the endpoint answers, the keys
        acknowledged by the call are the first ones of those the list adds, in the order
        of their first occurrence; after a normal return, all of them. */
    method RelayBatch(events: seq<Event>) returns (outcomes: seq<Outcome>, failure: Option<Outcome>)
      requires Valid()
      modifies this
      ensures Valid()
      ensures old(acks) <= acks <= old(acks) + New(old(acks), Keys(events))
      ensures failure.None? ==> |outcomes| == |events| && acks == old(acks) + New(old(acks), Keys(events))
      ensures failure.None? ==> AllKeyed(events)
      ensures AllSucceeded(outcomes, events)
      ensures failure.Some? ==> !Succeeded(failure.value)
    {
      outcomes, failure := [], None;
      ghost var known := acks;
      var i := 0;
      while i < |events|
        invariant 0 <= i <= |events| && |outcomes| == i && Valid() && AllKeyed(events[..i])
        invariant Reached(known, events, i, acks)
        invariant AllSucceeded(outcomes, events)
      {
        var outcome := RelayNext(events, i, known);
        if !Succeeded(outcome) {
          return outcomes, Some(outcome);
        }
        outcomes := outcomes + [outcome];
        i := i + 1;
      }
      assert events[..i] == events;
    }

    /** The i-th event of a list whose earlier ones have been relayed. */
    method RelayNext(events: seq<Event>, i: nat, ghost known: seq<string>) returns (outcome: Outcome)
      requires Valid() && i < |events| && AllKeyed(events[..i]) && Reached(known, events, i, acks)
      modifies this
      ensures Valid()
      ensures Succeeded(outcome) ==>
                && Some(outcome.key) == KeyOf(events[i]) && AllKeyed(events[..i + 1]) && Reached(known, events, i + 1, acks)
      ensures !Succeeded(outcome) ==> Reached(known, events, i, acks)
    {
      hide Leads, Delays, Whole, Allowed;
      ghost var replies: seq<Reply>;
      outcome, replies := RelayEvent(events[i]);
      if Succeeded(outcome) {
        assert acks == WithKey(old(acks), outcome.key);
        assert events[..i + 1] == events[..i] + [events[i]];
        BatchStep(known, events, i, old(acks));
      }
    }

    /** The same list relayed again and again until a call returns normally, `tries` times at
        most. Throughout, what has been acknowledged are the first keys the list adds, in
        first-occurrence order; once a call returns, all of them. */
    method RelayUntilDone(events: seq<Event>, tries: nat) returns (done: bool)
      requires Valid()
      modifies this
      ensures Valid()
      ensures old(acks) <= acks <= old(acks) + New(old(acks), Keys(events))
      ensures done ==> acks == old(acks) + New(old(acks), Keys(events))
    {
      done := false;
      for i := 0 to tries
        invariant Valid() && !done
        invariant old(acks) <= acks <= old(acks) + New(old(acks), Keys(events))
      {
        ghost var before := acks;
        var outcomes, failure := RelayBatch(events);
        Resumed(old(acks), before, acks, Keys(events));
        if failure.None? {
          done := true;
          return;
        }
      }
    }
  }

  /** The keys of the events before the first one that has none. */
  function Keys(events: seq<Event>): seq<string> {
    if events == [] then [] else
    match KeyOf(events[0]) case None => [] case Some(key) => [key] + Keys(events[1..])
  }

  /** The keys not yet known, each at its first occurrence. */
  function New(known: seq<string>, keys: seq<string>): seq<string> {
    if keys == [] then [] else
    var earlier := New(known, keys[..|keys| - 1]);
    var key := keys[|keys| - 1];
    if key in known || key in earlier then earlier else earlier + [key]
  }

  /** The first events were delivered or duplicates. */
  predicate AllSucceeded(outcomes: seq<Outcome>, events: seq<Event>) {
    && |outcomes| <= |events|
    && forall i :: 0 <= i < |outcomes| ==> Succeeded(outcomes[i]) && Some(outcomes[i].key) == KeyOf(events[i])
  }

  predicate AllKeyed(events: seq<Event>) {
    forall e :: e in events ==> KeyOf(e).Some?
  }

  /** The first `i` events have been relayed: exactly what they add is acknowledged. */
  ghost predicate Reached(known: seq<string>, events: seq<Event>, i: nat, acks: seq<string>)
    requires i <= |events|
  {
    && acks == known + New(known, Keys(events[..i]))
    && known <= acks <= known + New(known, Keys(events))
  }

  lemma {:induction false} KeysAppend(a: seq<Event>, b: seq<Event>)
    requires AllKeyed(a)
    ensures Keys(a + b) == Keys(a) + Keys(b)
  {
    if a == [] {
      assert a + b == b;
    } else {
      assert a[0] in a;
      KeysAppend(a[1..], b);
      assert (a + b)[1..] == a[1..] + b;
    }
  }

  /** What relaying the i-th event of a list adds to the acknowledged keys. */
  lemma BatchStep(known: seq<string>, events: seq<Event>, i: nat, acks: seq<string>)
    requires i < |events| && AllKeyed(events[..i + 1]) && Reached(known, events, i, acks)
    ensures Reached(known, events, i + 1, WithKey(acks, KeyOf(events[i]).value))
  {
    var key := KeyOf(events[i]).value;
    var keys := Keys(events[..i]);
    var upTo, after := events[..i + 1], events[i + 1..];
    assert upTo == events[..i] + [events[i]];
    assert events == upTo + after;
    KeysAppend(events[..i], [events[i]]);
    KeysAppend(upTo, after);
    assert Keys([events[i]]) == [key];
    assert Keys(events[..i + 1])[..|keys|] == keys;
    NewMonotone(known, keys + [key], Keys(events));
  }

  function WithKey(acks: seq<string>, key: string): seq<string> {
    if key in acks then acks else acks + [key]
  }

  lemma {:induction false} NewMonotone(known: seq<string>, a: seq<string>, b: seq<string>)
    requires a <= b
    ensures New(known, a) <= New(known, b)
  {
    if |a| < |b| {
      NewMonotone(known, a, b[..|b| - 1]);
    } else {
      assert a == b;
    }
  }

  /** Running the same list again after a failure: what is acknowledged stays within what the
      list adds to the keys known at first, and is all of it once a call returns. */
  lemma Resumed(known: seq<string>, before: seq<string>, after: seq<string>, keys: seq<string>)
    requires known <= before <= known + New(known, keys)
    requires before <= after <= before + New(before, keys)
    ensures known <= after <= known + New(known, keys)
    ensures after == before + New(before, keys) ==> after == known + New(known, keys)
  {
    NewCompletes(known, before, keys);
  }

  lemma {:induction false} NewCompletes(known: seq<string>, reached: seq<string>, keys: seq<string>)
    requires known <= reached <= known + New(known, keys)
    ensures reached + New(reached, keys) == known + New(known, keys)
    decreases |keys|
  {
    if keys != [] {
      var front, last := keys[..|keys| - 1], keys[|keys| - 1];
      if reached == known + New(known, keys) {
        NothingNew(known, reached, keys);
      } else {
        NewCompletes(known, reached, front);
        var all := known + New(known, front);
        assert last in all <==> last in reached + New(reached, front);
        assert all + [last] == reached + (New(reached, front) + [last]) == known + (New(known, front) + [last]);
      }
    }
  }

  lemma {:induction false} NothingNew(known: seq<string>, reached: seq<string>, keys: seq<string>)
    requires forall k :: k in known || k in New(known, keys) ==> k in reached
    ensures New(reached, keys) == []
  {
    if keys != [] {
      NothingNew(known, reached, keys[..|keys| - 1]);
    }
  }

  /** New([], keys) lists every key once. */
  lemma {:induction false} FirstOccurrences(keys: seq<string>)
    ensures Distinct(New([], keys)) && forall k :: k in New([], keys) <==> k in keys
  {
    if keys != [] {
      FirstOccurrences(keys[..|keys| - 1]);
      assert keys == keys[..|keys| - 1] + [keys[|keys| - 1]];
    }
  }
}
