/** The payment subscription: one stream, replaced after a time without messages,
    until it is closed, possibly from within a callback. The injected stream factory
    and the `close` of its streams may throw: at the first connection there is then no
    subscription at all, at a later one the subscription falls silent. */
module PaymentSubscription {
  import opened Common

  datatype Payment = Payment(id: string, to: Option<string>)

  class Subscription {
    const merchant: string
    var es: Option<nat>
    var inactivityTimer: Option<nat>
    var closed: bool
    /** The handlers of the current stream have been removed: it reaches nothing any more. */
    var muted: bool
    // The surroundings: streams created, closed and still open, timers created and still pending.
    var streams: nat
    var closes: nat
    var live: set<nat>
    var timers: nat
    var pending: set<nat>
    ghost var delivered: seq<Payment>
    /** The factory, or the close of the old stream, threw when the stream was to be replaced. */
    ghost var stranded: bool
    /** The number of streams created when the subscription was closed. */
    ghost var streamsAtClose: nat

    ghost predicate Consistent()
      reads this
    {
      && live == (if es.Some? then {es.value} else {})
      && pending == (if inactivityTimer.Some? then {inactivityTimer.value} else {})
      && (es.Some? ==> es.value < streams) && (muted ==> es.Some?)
      && (inactivityTimer.Some? ==> inactivityTimer.value < timers)
      && streams == closes + |live|
    }

    /** No stream and no timer will call back again. */
    predicate Silent()
      reads this
    {
      pending == {} && (es.None? || muted)
    }

    /** While open: exactly one stream and exactly one pending timer, one stream more
        created than closed; or silence, exactly when the factory or a close threw. Once
        closed: silence, and no further stream ever. */
    ghost predicate Valid()
      reads this
    {
      && Consistent()
      && (!closed && !stranded ==> es.Some? && !muted && inactivityTimer.Some? && streams == closes + 1)
      && (!closed && stranded ==> Silent())
      && (closed ==> Silent() && streams == streamsAtClose)
    }

    constructor (merchant: string)
      ensures Valid() && !closed && !stranded && streams == 1 && delivered == [] && this.merchant == merchant
    {
      this.merchant := merchant;
      es, inactivityTimer, closed, muted := None, None, false, false;
      streams, closes, live, timers, pending, delivered, stranded, streamsAtClose := 0, 0, {}, 0, {}, [], false, 0;
      new;
      Connect();
    }

    method ClearInactivityTimer()
      requires Consistent()
      modifies this`inactivityTimer, this`pending
      ensures Consistent() && inactivityTimer.None?
    {
      if inactivityTimer.Some? {
        pending := pending - {inactivityTimer.value};
        inactivityTimer := None;
      }
    }

    /** The handlers are removed first; a stream whose close throws stays the current one. */
    method CloseEventSource() returns (threw: bool)
      requires Consistent()
      modifies this`es, this`live, this`closes, this`muted
      ensures Consistent() && (es.None? || muted) && (threw <==> es.Some?) && (threw ==> es == old(es))
      ensures closes == old(closes) + if old(es).Some? && !threw then 1 else 0
    {
      threw := false;
      if es.Some? {
        muted := true;
        threw := *;
        if threw {
          return;
        }
        live := live - {es.value};
        closes := closes + 1;
        es, muted := None, false;
      }
    }

    method ResetInactivityTimer()
      requires Consistent()
      modifies this`inactivityTimer, this`pending, this`timers
      ensures Consistent() && inactivityTimer == Some(old(timers)) && timers == old(timers) + 1
    {
      ClearInactivityTimer();
      inactivityTimer := Some(timers);
      pending := pending + {timers};
      timers := timers + 1;
    }

    method Connect()
      requires Consistent() && es.None? && !muted
      modifies this`es, this`live, this`streams, this`inactivityTimer, this`pending, this`timers
      ensures Consistent() && es == Some(old(streams)) && inactivityTimer.Some?
      ensures streams == old(streams) + 1
    {
      es := Some(streams);
      live := live + {streams};
      streams := streams + 1;
      ResetInactivityTimer();
    }

    /** The inactivity timer fires: the stream is replaced, if it can be closed and the factory
        gives another. */
    method Reconnect(timer: nat) returns (threw: bool)
      requires Valid() && timer in pending
      modifies this
      ensures Valid() && !closed && delivered == old(delivered)
      ensures !threw ==> streams == old(streams) + 1 && es == Some(old(streams))
      ensures threw ==> stranded && streams == old(streams) && Silent()
    {
      ClearInactivityTimer();
      threw := CloseEventSource();
      if !threw && !closed {
        threw := *;
        if !threw {
          Connect();
        }
      }
      stranded := threw;
    }

    /** A message re-arms the timer; malformed ones and payments to others are dropped, and
        what the callback throws is caught. */
    method OnMessage(message: Option<Payment>)
      requires Valid() && es.Some? && !muted
      modifies this
      ensures Valid() && streams == old(streams)
      ensures delivered == old(delivered)
                         + if message.Some? && (message.value.to == Some(merchant) || merchant == "") then [message.value] else []
      ensures !closed ==> inactivityTimer != old(inactivityTimer) && es == old(es)
    {
      ResetInactivityTimer();
      if message.Some? && (message.value.to == Some(merchant) || merchant == "") {
        delivered := delivered + [message.value];
        var leaves: bool := *;
        if leaves {
          var threw := Unsubscribe();
        }
      }
    }

    /** An error only re-arms the timer; the stream is replaced when it fires. */
    method OnError()
      requires Valid() && es.Some? && !muted
      modifies this
      ensures Valid() && !closed && streams == old(streams) && es == old(es) && delivered == old(delivered)
      ensures inactivityTimer != old(inactivityTimer)
    {
      ResetInactivityTimer();
    }

    /** From any state: silence; and no stream either, unless its close throws. */
    method Unsubscribe() returns (threw: bool)
      requires Valid()
      modifies this`closed, this`es, this`live, this`closes, this`muted, this`inactivityTimer, this`pending, this`streamsAtClose
      ensures Valid() && closed && Silent() && (live == {} <==> !threw)
    {
      streamsAtClose := streams;
      closed := true;
      ClearInactivityTimer();
      threw := CloseEventSource();
    }

    /** Any schedule of events, with the caller unsubscribing at any moment. */
    method Run(steps: nat)
      requires Valid()
      modifies this
      ensures Valid() && |live| <= 1
      ensures !closed ==> (Silent() <==> stranded)
      ensures old(closed) ==> closed && streams == old(streams) && delivered == old(delivered)
    {
      for n := 0 to steps
        invariant Valid()
        invariant old(closed) ==> closed && streams == old(streams) && delivered == old(delivered)
      {
        var choice: int := *;
        var timer: nat := *;
        var message: Option<Payment> := *;
        if choice == 0 {
          var threw := Unsubscribe();
        } else if timer in pending {
          var threw := Reconnect(timer);
        } else if es.Some? && !muted && choice == 1 {
          OnMessage(message);
        } else if es.Some? && !muted {
          OnError();
        }
      }
    }
  }
}
