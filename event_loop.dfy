/** The event-loop interface the application delegates to: a FIFO of
    deferred callbacks, a bag of timed callbacks that may fire in any order,
    futures, and the hook for errors raised inside callbacks.  Concrete
    loops (tornado, twisted) are not part of this model.  Nothing here
    consults `running`: timers may fire and deferred calls may run after
    `Stop`, so the model allows more schedules than a stopped loop would
    run, and what it proves holds for all of them. */
module EventLoops {
  import opened BridgeTypes
  import Dispatcher

  /** The callbacks the application hands to its loop. */
  datatype Callback =
    | BridgeSendCall                                  // `_bridge_send`
    | ProcessEventsCall(events: seq<Dispatcher.Entry>) // `process_events(data)`, the batch already decoded
    | StopCall                                        // `stop`
    | ReloadViewCall                                  // `reload_view(app)`
    | UserCall(id: nat)                               // a callback of application code

  /** A `timed_call(ms, callback)` still to fire. */
  datatype Timer = Timer(ms: int, callback: Callback)

  /** A future: still waiting, with the ids of the callbacks to run once it
      is done, or done with its result. */
  datatype Future = Pending(callbacks: seq<nat>) | Done(result: Value)

  /** The deferred calls that run a done future's callbacks. */
  function Scheduled(callbacks: seq<nat>): seq<Callback>
  {
    seq(|callbacks|, i requires 0 <= i < |callbacks| => UserCall(callbacks[i]))
  }

  class EventLoop {
    var running: bool
    var deferred: seq<Callback>
    var timers: multiset<Timer>
    var futures: seq<Future>
    var errorHandlerSet: bool

    constructor ()
      ensures !running && deferred == [] && timers == multiset{} && futures == [] && !errorHandlerSet
    {
      running, deferred, timers, futures, errorHandlerSet := false, [], multiset{}, [], false;
    }

    method Start()
      modifies this`running
      ensures running
    {
      running := true;
    }

    method Stop()
      modifies this`running
      ensures !running
    {
      running := false;
    }

    /** `deferred_call(callback)`: run on a later cycle, after every callback
        deferred before it. */
    method DeferredCall(callback: Callback)
      modifies this`deferred
      ensures deferred == old(deferred) + [callback]
    {
      deferred := deferred + [callback];
    }

    /** `timed_call(ms, callback)`. */
    method TimedCall(ms: int, callback: Callback)
      modifies this`timers
      ensures timers == old(timers) + multiset{Timer(ms, callback)}
    {
      timers := timers + multiset{Timer(ms, callback)};
    }

    /** `set_error_handler(handler)`; the only handler the application
        installs is its own `handle_error`. */
    method SetErrorHandler()
      modifies this`errorHandlerSet
      ensures errorHandlerSet
    {
      errorHandlerSet := true;
    }

    /** `create_future()`: a fresh future, not yet done. */
    method CreateFuture() returns (f: nat)
      modifies this`futures
      ensures f == |old(futures)| && futures == old(futures) + [Pending([])]
    {
      f := |futures|;
      futures := futures + [Pending([])];
    }

    /** `add_done_callback(future, callback)`: remembered until the future is
        done, or run on a later cycle if it already is. */
    method AddDoneCallback(f: nat, callback: nat)
      requires f < |futures|
      modifies this`futures, this`deferred
      ensures old(futures[f]).Pending? ==>
                futures == old(futures)[f := Pending(old(futures[f]).callbacks + [callback])]
                && deferred == old(deferred)
      ensures old(futures[f]).Done? ==>
                futures == old(futures) && deferred == old(deferred) + [UserCall(callback)]
    {
      match futures[f]
      case Pending(callbacks) =>
        futures := futures[f := Pending(callbacks + [callback])];
      case Done(_) =>
        deferred := deferred + [UserCall(callback)];
    }

    /** `set_future_result(future, result)`: a future is resolved once; its
        callbacks then run, in registration order.  A second result is
        refused and the first one kept. */
    method SetFutureResult(f: nat, result: Value) returns (ok: bool)
      requires f < |futures|
      modifies this`futures, this`deferred
      ensures ok <==> old(futures[f]).Pending?
      ensures ok ==> futures == old(futures)[f := Done(result)]
                     && deferred == old(deferred) + Scheduled(old(futures[f]).callbacks)
      ensures !ok ==> futures == old(futures) && deferred == old(deferred)
    {
      match futures[f]
      case Pending(callbacks) =>
        futures := futures[f := Done(result)];
        deferred := deferred + Scheduled(callbacks);
        ok := true;
      case Done(_) =>
        ok := false;
    }

    /** The loop takes the oldest deferred callback to run it. */
    method NextDeferred() returns (callback: Callback)
      requires deferred != []
      modifies this`deferred
      ensures callback == old(deferred[0]) && deferred == old(deferred[1..])
    {
      callback := deferred[0];
      deferred := deferred[1..];
    }

    /** The loop takes a timer whose time has come, whichever it is. */
    method TakeTimer(t: Timer)
      requires t in timers
      modifies this`timers
      ensures timers == old(timers) - multiset{t}
    {
      timers := timers - multiset{t};
    }
  }
}
