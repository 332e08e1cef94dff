/** The contract-event subscription: one stream, bounded retries with doubling
    delays, and callbacks that may unsubscribe from within or throw. A closed
    stream delivers nothing more, and a cleared timer does not fire. */
module EventSubscription {
  import opened Common

  const MAX_RETRIES := 5
  const INITIAL_RETRY_DELAY := 1000

  datatype Event = Event(id: string, topics: seq<string>)

  predicate Matches(filter: Option<string>, e: Event) {
    filter.None? || filter.value == "" || (|e.topics| > 1 && e.topics[1] == filter.value)
  }

  /** The filter is compared with the second topic; an empty one lets everything through. */
  lemma FilterMeans(filter: string, e: Event)
    ensures Matches(None, e) && Matches(Some(""), e)
    ensures filter != "" ==> (Matches(Some(filter), e) <==> exists first, rest :: e.topics == [first, filter] + rest)
  {
    if filter != "" && Matches(Some(filter), e) {
      assert e.topics == [e.topics[0], filter] + e.topics[2..];
    }
  }

  class Subscription {
    const filter: Option<string>
    var es: Option<nat>
    var stopped: bool
    var retries: nat
    var reconnectTimer: Option<nat>
    var hasConnected: bool
    // The surroundings: streams created and still open, timers created and still pending.
    var streams: nat
    var live: set<nat>
    var timers: nat
    var pending: set<nat>
    // What the callbacks were given.
    ghost var delivered: seq<Event>
    ghost var reconnections: nat
    /** The delays announced since the retry count was last reset. */
    ghost var delays: seq<int>
    ghost var gaveUp: bool
    /** The announcement of the last retry threw, before the retry was armed. */
    ghost var stranded: bool
    /** The number of streams created when the subscription was stopped. */
    ghost var streamsAtStop: nat

    /** At most one open stream, none created after the stop; never more than five failures
        in a row, the first followed by a second, each by twice the delay of the one before. */
    ghost predicate Bounded()
      reads this
    {
      && live == (if es.Some? then {es.value} else {})
      && (stopped ==> es.None? && streams == streamsAtStop)
      && retries == |delays| <= 5
      && (forall k :: 0 <= k < |delays| ==> delays[k] == 1000 * Pow2(k))
      && forall k :: 1 <= k < |delays| ==> delays[k] == 2 * delays[k - 1]
    }

    /** While it is wanted, the subscription has an open stream, or exactly one armed
        retry, or neither; neither exactly when it used all retries or the last
        announcement threw. */
    ghost predicate Valid()
      reads this
    {
      && Bounded()
      && (!stopped && es.Some? ==> pending == {} && !gaveUp && !stranded)
      && (!stopped && es.None? && !gaveUp && !stranded ==> reconnectTimer.Some? && pending == {reconnectTimer.value} && retries >= 1)
      && (!stopped && (gaveUp || stranded) ==> es.None? && pending == {})
      && (!stopped && gaveUp ==> retries == 5)
    }

    /** Nothing will ever reach the callbacks again. */
    predicate Silent()
      reads this
    {
      es.None? && pending == {}
    }

    constructor (filter: Option<string>)
      ensures Valid() && !stopped && streams == 1 && retries == 0 && delivered == [] && this.filter == filter
    {
      this.filter := filter;
      es, stopped, retries, reconnectTimer, hasConnected := None, false, 0, None, false;
      streams, live, timers, pending := 0, {}, 0, {};
      delivered, delays, reconnections, gaveUp, stranded, streamsAtStop := [], [], 0, false, false, 0;
      new;
      Connect();
    }

    method Connect()
      requires !stopped ==> es.None? && live == {}
      modifies this`es, this`streams, this`live
      ensures stopped ==> es == old(es) && streams == old(streams) && live == old(live)
      ensures !stopped ==> es == Some(old(streams)) && streams == old(streams) + 1 && live == {old(streams)}
    {
      if stopped {
        return;
      }
      es := Some(streams);
      live := live + {streams};
      streams := streams + 1;
    }

    method CloseStream()
      requires live == (if es.Some? then {es.value} else {})
      modifies this`es, this`live
      ensures es.None? && live == {}
    {
      if es.Some? {
        live := live - {es.value};
      }
      es := None;
    }

    method Unsubscribe()
      requires Bounded()
      modifies this`es, this`live, this`stopped, this`pending, this`streamsAtStop
      ensures Valid() && stopped && live == {}
      ensures pending == old(pending) - if reconnectTimer.Some? then {reconnectTimer.value} else {}
    {
      streamsAtStop := streams;
      stopped := true;
      if reconnectTimer.Some? {
        pending := pending - {reconnectTimer.value};
      }
      CloseStream();
    }

    /** The stream opens: the retry count starts again, unless `onReconnected` throws first. */
    method OnOpen() returns (threw: bool)
      requires Valid() && es.Some?
      modifies this
      ensures Valid() && streams == old(streams) && (old(stopped) ==> stopped)
      ensures hasConnected && retries == if threw then old(retries) else 0
      ensures threw ==> old(hasConnected)
      ensures reconnections == old(reconnections) + if old(hasConnected) then 1 else 0
    {
      threw := false;
      if hasConnected {
        reconnections := reconnections + 1;
        var leaves: bool := *;
        if leaves {
          Unsubscribe();
        }
        threw := *;
        if threw {
          return;
        }
      }
      hasConnected := true;
      retries := 0;
      delays := [];
    }

    /** A message: malformed ones and those of other events are dropped, and what the
        callback throws is caught. */
    method OnMessage(message: Option<Event>)
      requires Valid() && es.Some?
      modifies this
      ensures Valid() && streams == old(streams) && (old(stopped) ==> stopped)
      ensures delivered == old(delivered) + if message.Some? && Matches(filter, message.value) then [message.value] else []
      ensures retries == old(retries)
    {
      if message.None? || !Matches(filter, message.value) {
        return;
      }
      delivered := delivered + [message.value];
      var leaves: bool := *;
      if leaves {
        Unsubscribe();
      }
    }

    /** The stream fails: the next retry is announced and armed, or the subscription gives
        up. An announcement that throws leaves the retry unarmed. */
    method OnError() returns (threw: bool)
      requires Valid() && es.Some?
      modifies this
      ensures Valid() && streams == old(streams)
      ensures old(retries) == 5 ==> gaveUp && retries == old(retries) && delays == old(delays)
      ensures old(retries) < 5 ==> retries == old(retries) + 1 && gaveUp == old(gaveUp)
      ensures old(retries) < 5 ==> delays == old(delays) + [1000 * Pow2(old(retries))]
      ensures !stopped ==> (Silent() <==> threw || old(retries) == 5)
    {
      CloseStream();
      var leaves: bool := *;
      threw := *;
      if retries >= MAX_RETRIES {
        gaveUp := true;
        if leaves {
          Unsubscribe();
        }
        return;
      }
      retries := retries + 1;
      delays := delays + [INITIAL_RETRY_DELAY * Pow2(retries - 1)];
      if leaves {
        Unsubscribe();
      }
      if threw {
        stranded := true;
        return;
      }
      // Armed even when the callback above has just unsubscribed; it then finds `stopped`.
      reconnectTimer := Some(timers);
      pending := pending + {timers};
      timers := timers + 1;
    }

    method TimerFires(timer: nat)
      requires Valid() && timer in pending
      modifies this`pending, this`es, this`streams, this`live
      ensures Valid() && timer !in pending
      ensures streams == old(streams) + if stopped then 0 else 1
    {
      pending := pending - {timer};
      Connect();
    }

    /** Any schedule of events, with the caller unsubscribing at any moment. */
    method Run(steps: nat)
      requires Valid()
      modifies this
      ensures Valid() && |live| <= 1
      ensures !stopped ==> (Silent() <==> gaveUp || stranded)
      ensures old(stopped) ==> stopped && streams == old(streams) && delivered == old(delivered)
    {
      for n := 0 to steps
        invariant Valid()
        invariant old(stopped) ==> stopped && streams == old(streams) && delivered == old(delivered)
      {
        var choice: int := *;
        var timer: nat := *;
        var message: Option<Event> := *;
        if choice == 0 {
          Unsubscribe();
        } else if timer in pending {
          TimerFires(timer);
        } else if es.Some? && choice == 1 {
          var threw := OnOpen();
        } else if es.Some? && choice == 2 {
          OnMessage(message);
        } else if es.Some? {
          var threw := OnError();
        }
      }
    }
  }
}
