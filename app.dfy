/** `AndroidApplication`: the application object that owns the bridge.  It
    queues outgoing commands and flushes them to the host through the event
    loop's timers, and runs the batches the host sends back on the loop. */
module Android {
  import opened BridgeTypes
  import BQ = BridgeQueue
  import D = Dispatcher
  import opened EventLoops

  /** How a failing callback is named in the ERROR message; stands in for
      its `repr`. */
  function Describe(callback: Callback): string
  {
    match callback
    case BridgeSendCall => "_bridge_send"
    case ProcessEventsCall(_) => "process_events"
    case StopCall => "stop"
    case ReloadViewCall => "reload_view"
    case UserCall(_) => "callback"
  }

  /** The message `handle_error` sends: the failing callback, then the
      traceback. */
  function ErrorMessage(callback: Callback, trace: string): string
  {
    "Exception in callback " + Describe(callback) + "\n" + trace
  }

  class AndroidApplication {
    const loop: EventLoop
    /** `_bridge_timeout`: the delay, in ms, of every timed `_bridge_send`. */
    const bridgeTimeout: int
    /** `_bridge_queue`. */
    var queue: seq<Command>
    /** `_bridge_pending`. */
    var pending: int
    /** The batches handed to `activity.processEvents`, oldest first. */
    var sent: seq<seq<Command>>
    /** What `bridge.get_handler` resolves. */
    var handlers: D.Handlers
    /** `view`: the id of the view shown, if any. */
    var view: Option<nat>
    /** The views `reload` asked to destroy, in order. */
    var destroyedViews: seq<nat>
    /** Is `reload_view` set? */
    var hasReloadView: bool

    /** The bridge's outgoing state, as `BridgeQueue` describes it: its
        timers are the timed `_bridge_send` calls the loop holds; the loop
        may hold other timers besides. */
    function Bridge(): BQ.State
      reads this, loop
    {
      BQ.State(queue, pending, loop.timers[Timer(bridgeTimeout, BridgeSendCall)], sent)
    }

    /** The counter matches the timed sends the loop holds; every timed
        `_bridge_send` has the bridge's own delay, and none is ever a
        deferred call. */
    ghost predicate Valid()
      reads this, loop
    {
      BQ.Inv(Bridge())
      && (forall t | t in loop.timers && t.callback == BridgeSendCall :: t.ms == bridgeTimeout)
      && BridgeSendCall !in loop.deferred
    }

    constructor (handlers: D.Handlers)
      ensures Valid() && fresh(loop)
      ensures Bridge() == BQ.Initial && bridgeTimeout == 3
      ensures loop.errorHandlerSet && !loop.running && loop.deferred == [] && loop.futures == []
      ensures loop.timers == multiset{}
      ensures this.handlers == handlers && view == None && destroyedViews == [] && !hasReloadView
    {
      loop := new EventLoop();
      bridgeTimeout := 3;
      queue, pending, sent := [], 0, [];
      this.handlers := handlers;
      view, destroyedViews, hasReloadView := None, [], false;
      new;
      loop.SetErrorHandler();   // init_error_handler
    }

    /** `start`: run the loop (the JNI listener and the dev session are not
        part of this model). */
    method Start()
      requires Valid()
      modifies loop`running
      ensures Valid()
      ensures loop.running
    {
      loop.Start();
    }

    /** `stop`. */
    method Stop()
      requires Valid()
      modifies loop`running
      ensures Valid()
      ensures !loop.running
    {
      loop.Stop();
    }

    /** `send_event(cmd, now=now)`: the command joins the end of the queue and
        one more send is pending; with `now` the queue is sent at once,
        otherwise exactly one timed `_bridge_send` is left with the loop. */
    method SendEvent(cmd: Command, now: bool)
      requires Valid()
      modifies this`queue, this`pending, this`sent, loop`timers
      ensures Valid()
      ensures Bridge() == BQ.SendEvent(old(Bridge()), cmd, now)
      ensures loop.timers == if now then old(loop.timers)
                             else old(loop.timers) + multiset{Timer(bridgeTimeout, BridgeSendCall)}
    {
      pending := pending + 1;
      queue := queue + [cmd];
      if now {
        BridgeSend(true);
      } else {
        loop.TimedCall(bridgeTimeout, BridgeSendCall);
      }
    }

    /** `_bridge_send(now)`.  Internal: only `SendEvent` (with `now`) and
        `FireTimer` call it, and `Valid()` holds again once they return;
        on its own it does not keep `Valid()`. */
    method BridgeSend(now: bool)
      modifies this`queue, this`pending, this`sent
      ensures Bridge() == BQ.Send(old(Bridge()), now)
    {
      pending := pending - 1;
      if queue != [] && (pending == 0 || now) {
        sent := sent + [queue];   // the whole queue goes to the host as one batch
        queue := [];
      }
    }

    /** The loop fires one of its timed `_bridge_send` calls. */
    method FireTimer(t: Timer)
      requires Valid() && t in loop.timers && t.callback == BridgeSendCall
      modifies this`queue, this`pending, this`sent, loop`timers
      ensures Valid()
      ensures Bridge() == BQ.Fire(old(Bridge()))
      ensures loop.timers == old(loop.timers) - multiset{t}
    {
      loop.TakeTimer(t);
      BridgeSend(false);
    }

    /** `timed_call(ms, callback)` for application code: the loop holds one
        more timer, and the bridge is not affected. */
    method TimedCall(ms: int, callback: Callback)
      requires Valid() && callback.UserCall?
      modifies loop`timers
      ensures Valid()
      ensures loop.timers == old(loop.timers) + multiset{Timer(ms, callback)}
      ensures Bridge() == old(Bridge())
    {
      loop.TimedCall(ms, callback);
    }

    /** The loop fires a timer of application code; what the callback does
        is not part of this model. */
    method FireOtherTimer(t: Timer)
      requires Valid() && t in loop.timers && t.callback != BridgeSendCall
      modifies loop`timers
      ensures Valid()
      ensures loop.timers == old(loop.timers) - multiset{t}
      ensures Bridge() == old(Bridge())
    {
      loop.TakeTimer(t);
    }

    /** `handle_event(event)`: look the handler up and call it; a
        `JavaReferenceError` is swallowed, any other error propagates; in
        every case a truthy result id gets its RESULT queued. */
    method HandleEvent(call: D.EventCall) returns (raised: bool)
      requires Valid()
      modifies this`queue, this`pending, this`sent, loop`timers
      ensures Valid()
      ensures forall t | t != Timer(bridgeTimeout, BridgeSendCall) :: loop.timers[t] == old(loop.timers)[t]
      ensures raised == D.HandleEvent(handlers, call).raised
      ensures D.HandleEvent(handlers, call).reply.Some? ==>
                Bridge() == BQ.SendEvent(old(Bridge()), D.HandleEvent(handlers, call).reply.value, false)
      ensures D.HandleEvent(handlers, call).reply.None? ==> Bridge() == old(Bridge())
    {
      var obj: Option<D.Binding> := None;
      var result := NoneValue;
      raised := false;
      var key := (call.ptr, call.name);
      if key in handlers {
        obj := Some(handlers[key]);
        var outcome := handlers[key].call(D.ArgValues(call.args));
        match outcome
        case Returned(v) =>
          result := v;
        case RefError =>
          // logged and swallowed
        case OtherError =>
          raised := true;   // logged, raised again once the result is queued
      } else {
        // `get_handler` raised JavaReferenceError: logged and swallowed
      }
      // the `finally` block
      if Truthy(call.resultId) {
        SendEvent(ResultCommand(call.resultId, D.Signature(obj, result), result), false);
      }
    }

    /** `process_events(data)` on the decoded batch: `'event'` entries are
        handled in order until one raises; the RESULTs queued are exactly
        those `Dispatcher.ProcessEvents` describes, each by one `send_event`
        without `now`. */
    method ProcessEvents(events: seq<D.Entry>) returns (raised: bool)
      requires Valid()
      modifies this`queue, this`pending, this`sent, loop`timers
      ensures Valid()
      ensures forall t | t != Timer(bridgeTimeout, BridgeSendCall) :: loop.timers[t] == old(loop.timers)[t]
      ensures raised == D.ProcessEvents(handlers, events).raised
      ensures Bridge() == BQ.Run(old(Bridge()), BQ.Issues(D.ProcessEvents(handlers, events).replies))
    {
      ghost var before := Bridge();
      raised := false;
      var i := 0;
      while i < |events|
        invariant 0 <= i <= |events|
        invariant Valid()
        invariant forall t | t != Timer(bridgeTimeout, BridgeSendCall) :: loop.timers[t] == old(loop.timers)[t]
        invariant !D.ProcessEvents(handlers, events[..i]).raised
        invariant Bridge() == BQ.Run(before, BQ.Issues(D.ProcessEvents(handlers, events[..i]).replies))
      {
        ghost var done := D.ProcessEvents(handlers, events[..i]).replies;
        D.ProcessEventsAppend(handlers, events[..i], [events[i]]);
        assert events[..i + 1] == events[..i] + [events[i]];
        if events[i].tag == "event" {
          ghost var handled := D.HandleEvent(handlers, events[i].call);
          var r := HandleEvent(events[i].call);
          assert D.ProcessEvents(handlers, [events[i]]).replies == D.Replies(handled);
          if handled.reply.Some? {
            BQ.IssuesSnoc(before, done, handled.reply.value);
          } else {
            assert done + D.Replies(handled) == done;
          }
          if r {
            D.ProcessEventsAppend(handlers, events[..i + 1], events[i + 1..]);
            assert events[..i + 1] + events[i + 1..] == events;
            raised := true;
            return;
          }
        } else {
          assert D.ProcessEvents(handlers, [events[i]]) == D.Dispatched([], false);
          assert done + [] == done;
        }
        i := i + 1;
      }
      assert events[..i] == events;
    }

    /** `show_error(msg)`: one ERROR queued through `send_event`. */
    method ShowError(msg: string)
      requires Valid()
      modifies this`queue, this`pending, this`sent, loop`timers
      ensures Valid()
      ensures forall t | t != Timer(bridgeTimeout, BridgeSendCall) :: loop.timers[t] == old(loop.timers)[t]
      ensures Bridge() == BQ.SendEvent(old(Bridge()), ErrorCommand(msg), false)
    {
      SendEvent(ErrorCommand(msg), false);
    }

    /** `handle_error(callback)`: the loop's hook for a callback that raised;
        one ERROR naming the callback is queued through `send_event`. */
    method HandleError(callback: Callback, trace: string)
      requires Valid()
      modifies this`queue, this`pending, this`sent, loop`timers
      ensures Valid()
      ensures forall t | t != Timer(bridgeTimeout, BridgeSendCall) :: loop.timers[t] == old(loop.timers)[t]
      ensures Bridge() == BQ.SendEvent(old(Bridge()), ErrorCommand(ErrorMessage(callback, trace)), false)
    {
      SendEvent(ErrorCommand(ErrorMessage(callback, trace)), false);
    }

    /** The loop runs its oldest deferred callback; an error escaping it goes
        to the installed error handler.  `trace` is the traceback that
        handler would format. */
    method RunNextDeferred(trace: string)
      requires Valid() && loop.deferred != []
      modifies this`queue, this`pending, this`sent, loop`timers, loop`deferred, loop`running
      ensures Valid()
      ensures forall t | t != Timer(bridgeTimeout, BridgeSendCall) :: loop.timers[t] == old(loop.timers)[t]
      ensures loop.deferred == old(loop.deferred[1..])
      ensures old(loop.deferred[0]).ProcessEventsCall? ==>
                var d := D.ProcessEvents(handlers, old(loop.deferred[0]).events);
                var failure := if d.raised && loop.errorHandlerSet
                               then [ErrorCommand(ErrorMessage(old(loop.deferred[0]), trace))] else [];
                Bridge() == BQ.Run(old(Bridge()), BQ.Issues(d.replies + failure))
                && loop.running == old(loop.running)
      ensures old(loop.deferred[0]).StopCall? ==> !loop.running && Bridge() == old(Bridge())
      ensures old(loop.deferred[0]).ReloadViewCall? || old(loop.deferred[0]).UserCall? ==>
                loop.running == old(loop.running) && Bridge() == old(Bridge())
    {
      var callback := loop.NextDeferred();
      match callback
      case ProcessEventsCall(events) =>
        ghost var before := Bridge();
        var raised := ProcessEvents(events);
        ghost var replies := D.ProcessEvents(handlers, events).replies;
        if raised && loop.errorHandlerSet {
          HandleError(callback, trace);
          BQ.IssuesSnoc(before, replies, ErrorCommand(ErrorMessage(callback, trace)));
        } else {
          assert replies + [] == replies;
        }
      case StopCall =>
        Stop();
      case ReloadViewCall =>
        // application code, not part of this model
      case UserCall(_) =>
        // application code, not part of this model
      case BridgeSendCall =>
        assert false;
    }

    /** `add_done_callback(future, callback)`: a missing future raises
        `JavaReferenceError` and the loop is not touched. */
    method AddDoneCallback(future: Option<nat>, callback: nat) returns (rejected: bool)
      requires Valid()
      requires future.Some? ==> future.value < |loop.futures|
      modifies loop`futures, loop`deferred
      ensures Valid()
      ensures rejected <==> future.None?
      ensures rejected ==> loop.futures == old(loop.futures) && loop.deferred == old(loop.deferred)
      ensures !rejected && old(loop.futures[future.value]).Pending? ==>
                loop.futures == old(loop.futures)[future.value := Pending(old(loop.futures[future.value]).callbacks + [callback])]
                && loop.deferred == old(loop.deferred)
      ensures !rejected && old(loop.futures[future.value]).Done? ==>
                loop.futures == old(loop.futures) && loop.deferred == old(loop.deferred) + [UserCall(callback)]
    {
      if future.None? {
        return true;
      }
      loop.AddDoneCallback(future.value, callback);
      rejected := false;
    }

    /** `create_future()`. */
    method CreateFuture() returns (f: nat)
      requires Valid()
      modifies loop`futures
      ensures Valid()
      ensures f == |old(loop.futures)| && loop.futures == old(loop.futures) + [Pending([])]
    {
      f := loop.CreateFuture();
    }

    /** `set_future_result(future, result)`. */
    method SetFutureResult(f: nat, result: Value) returns (ok: bool)
      requires Valid() && f < |loop.futures|
      modifies loop`futures, loop`deferred
      ensures Valid()
      ensures ok <==> old(loop.futures[f]).Pending?
      ensures ok ==> loop.futures == old(loop.futures)[f := Done(result)]
                     && loop.deferred == old(loop.deferred) + Scheduled(old(loop.futures[f]).callbacks)
      ensures !ok ==> loop.futures == old(loop.futures) && loop.deferred == old(loop.deferred)
    {
      ok := loop.SetFutureResult(f, result);
    }

    /** `on_events(data)`: the batch is processed on a later loop cycle, not
        here. */
    method OnEvents(events: seq<D.Entry>)
      requires Valid()
      modifies loop`deferred
      ensures Valid()
      ensures loop.deferred == old(loop.deferred) + [ProcessEventsCall(events)]
    {
      loop.DeferredCall(ProcessEventsCall(events));
    }

    /** `on_destroy()`: the loop is stopped on a later cycle, not here. */
    method OnDestroy()
      requires Valid()
      modifies loop`deferred
      ensures Valid()
      ensures loop.deferred == old(loop.deferred) + [StopCall]
    {
      loop.DeferredCall(StopCall);
    }

    /** `reload()`: without `reload_view` nothing happens; otherwise the
        current view, if any, is destroyed (its errors ignored), the view is
        cleared, and `reload_view` is deferred to a later cycle. */
    method Reload() returns (reloaded: bool)
      requires Valid()
      modifies this`view, this`destroyedViews, loop`deferred
      ensures Valid()
      ensures reloaded == hasReloadView
      ensures !reloaded ==> view == old(view) && destroyedViews == old(destroyedViews)
                            && loop.deferred == old(loop.deferred)
      ensures reloaded ==> view == None && loop.deferred == old(loop.deferred) + [ReloadViewCall]
                           && destroyedViews == old(destroyedViews) + (if old(view).Some? then [old(view).value] else [])
    {
      if !hasReloadView {
        // a warning is printed
        return false;
      }
      if view.Some? {
        destroyedViews := destroyedViews + [view.value];
      }
      view := None;
      loop.DeferredCall(ReloadViewCall);
      reloaded := true;
    }
  }

  /** Three `send_event` calls without `now`, then their three timers:
      the host receives one batch holding the three commands in order. */
  method CoalescingScenario(a: Command, b: Command, c: Command) returns (batches: seq<seq<Command>>)
    ensures batches == [[a, b, c]]
  {
    var app := new AndroidApplication(map[]);
    app.SendEvent(a, false);
    app.SendEvent(b, false);
    app.SendEvent(c, false);
    assert app.sent == [] && app.queue == [a, b, c];
    var t := Timer(3, BridgeSendCall);
    app.FireTimer(t);
    app.FireTimer(t);
    assert app.sent == [] && app.pending == 1;
    app.FireTimer(t);
    batches := app.sent;
  }

  /** The host sends a batch whose first event names an unknown object and
      asks for no result, and whose second asks the activity (reference -1)
      for its density under result id 7.  The unknown reference does not
      stop the batch: once the timer has fired the host receives exactly one
      batch, the RESULT for id 7 encoded with the declared signature. */
  method DanglingReferenceScenario() returns (batches: seq<seq<Command>>)
    ensures batches == [[ResultCommand(IntValue(7), Some("float"), IntValue(2))]]
  {
    var density := D.Binding(true, Some("float"), (_: seq<Value>) => D.Returned(IntValue(2)));
    var app := new AndroidApplication(map[(-1, "getDensity") := density]);
    var click := D.Entry("event", D.EventCall(NoneValue, 42, "onClick", []));
    var ask := D.Entry("event", D.EventCall(IntValue(7), -1, "getDensity", []));
    app.OnEvents([click, ask]);
    app.RunNextDeferred("");
    var reply := ResultCommand(IntValue(7), Some("float"), IntValue(2));
    assert (42, "onClick") !in app.handlers;
    assert D.HandleEvent(app.handlers, click.call) == D.Handled(None, false);
    assert D.ArgValues([]) == [];
    assert density.call([]) == D.Returned(IntValue(2));
    assert D.HandleEvent(app.handlers, ask.call) == D.Handled(Some(reply), false);
    assert [click, ask][1..] == [ask] && [ask][1..] == [];
    assert D.ProcessEvents(app.handlers, [ask]) == D.Dispatched([reply] + [], false);
    assert D.Replies(D.Handled(None, false)) == [];
    assert D.ProcessEvents(app.handlers, [click, ask]) == D.Dispatched([reply], false);
    assert [reply] + [] == [reply];
    BQ.IssuesRun(BQ.Initial, [reply]);
    assert app.queue == [reply] && app.pending == 1;
    app.FireTimer(Timer(3, BridgeSendCall));
    batches := app.sent;
  }
}
