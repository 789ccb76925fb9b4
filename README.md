# enaml-native Android bridge, modelled in Dafny

This project models the bridge core of `AndroidApplication` in enaml-native's
`src/enamlnative/android/app.py`. That core has two sides.

- **Outgoing.** `send_event` appends a `(name, args)` command to
  `_bridge_queue` and increments `_bridge_pending`. It then either sends at
  once (`now=True`) or leaves one timed `_bridge_send` with the event loop,
  due after `_bridge_timeout` (3 ms). Each `_bridge_send` decrements the
  counter. It hands the whole queue to the host (`activity.processEvents`)
  only when the queue is non-empty and either no other send is pending or
  `now` is set. This is how several quick `send_event` calls become one batch.
- **Inbound.** `on_events` defers `process_events` to the loop.
  `process_events` walks the decoded batch in order and hands each `'event'`
  entry to `handle_event`. `handle_event` resolves `(ptr, method)`, calls the
  handler and, in its `finally` block, queues one RESULT whenever the entry
  has a truthy `result_id`. A `JavaReferenceError` is swallowed; any other
  error propagates, ends the batch and reaches the loop's error handler
  (`handle_error`), which queues an ERROR.

Files and modules:

- `bridge_types.dfy` (`BridgeTypes`): Python values with their truthiness and
  type names, and the queued commands.
- `bridge_queue.dfy` (`BridgeQueue`): the outgoing state as a value (`State`).
  It defines `send_event`, `_bridge_send` and a timer firing as functions,
  plus the invariant and the lemmas about any interleaving of calls and
  timer firings.
- `dispatcher.dfy` (`Dispatcher`): `handle_event` and `process_events` as
  functions over an abstract handler table, and lemmas about batch order,
  error propagation and answered result ids.
- `event_loop.dfy` (`EventLoops`): the abstract `EventLoop` interface. It is a
  FIFO of deferred callbacks, a multiset of timers that may fire in any order,
  futures, and the error-handler hook.
- `app.dfy` (`Android`): the class `AndroidApplication`. Its fields are
  `_bridge_queue`, `_bridge_pending`, the sent-batch log and the handler
  table. Each imperative method is proved to follow the functions of
  `BridgeQueue` and `Dispatcher`. Every public method keeps the class
  invariant `Valid()`: the pending counter equals the number of timed
  `_bridge_send` calls the loop holds, so it is never negative, and a
  non-empty queue always has a flush still to come. The loop may also hold
  timers of application code; those are not counted. `BridgeSend` is the
  internal `_bridge_send`. Only `SendEvent` (with `now`) and `FireTimer`
  call it. It does not keep `Valid()` on its own; those two callers restore
  it.

Two behaviours of the code that are easy to miss, and that the model
follows:

- A dangling reference with a truthy result id still gets a RESULT. The
  RESULT carries `None`, encoded with the signature `NoneType`, because the
  `finally` block runs. The entry is not simply skipped.
- A handler that fails with an error other than `JavaReferenceError` is
  answered with a RESULT carrying `None`, not with an ERROR command. The
  error then propagates.

## Model

| member | source | states |
|---|---|---|
| `BridgeQueue.Send` | src/enamlnative/android/app.py:292-313 | `_bridge_send` always lowers the counter by one. It sends exactly when the queue is non-empty and the new counter is 0 or `now` is set. It then sends the whole queue as one batch, in insertion order, and empties the queue. Otherwise the queue and the sent log stay as they were. Sent commands followed by queued commands are unchanged. |
| `BridgeQueue.SendEvent` | src/enamlnative/android/app.py:267-290 | `send_event` keeps the invariant. It adds exactly the new command to the issued side. Without `now`, the command goes to the end of the queue, earlier entries are unchanged, and the counter and the timer count each rise by 1. With `now`, no timer is added, the counter ends where it started, and the queue plus the new command goes out as one batch. |
| `BridgeQueue.Fire` | src/enamlnative/android/app.py:290-313 | A timed `_bridge_send` firing removes one timer and keeps the invariant. It never alters batches already sent and never loses or duplicates a command. |
| `BridgeQueue.RunConserves` | src/enamlnative/android/app.py:284-313 | Across any interleaving of `send_event` calls and timer firings, the invariant holds and sent batches are never altered. Sent batches followed by the queue are exactly the issued commands, in issue order. So each command is in at most one batch. |
| `BridgeQueue.Drain` | src/enamlnative/android/app.py:284-313 | Once every outstanding timer has fired, nothing is queued, the counter is 0, and every queued command has gone out after the earlier batches. No command is stranded. |
| `BridgeQueue.IssuesRun` | src/enamlnative/android/app.py:284-290 | K `send_event` calls without `now` append the K commands in order. They raise the counter and the timer count by K and send nothing. |
| `BridgeQueue.TicksFlushOnce` | src/enamlnative/android/app.py:302-313 | While other timed sends are still due, a firing sends nothing and leaves the queue as it is. The last firing sends the whole queue as one batch. |
| `BridgeQueue.Coalescing` | src/enamlnative/android/app.py:284-313 | On an idle bridge, K `send_event` calls without `now` followed by their K timers produce exactly one batch, holding the K commands in issue order. |
| `Dispatcher.HandleEvent` | src/enamlnative/android/app.py:417-447 | A truthy result id gets exactly one RESULT for that id, and a falsy one gets none. This holds whether the handler returned, raised `JavaReferenceError` or raised anything else. Only other errors propagate. The signature is the declared `__returns__` when the resolved object has `__javaclass__`. Otherwise it is the runtime type name of the result, which is `NoneType` after an error or an unknown reference. |
| `Dispatcher.ProcessEvents` | src/enamlnative/android/app.py:406-415 | Every command `handle_event` itself queues while processing a batch is a RESULT, and there are never more of them than entries in the batch. |
| `Dispatcher.ProcessEventsAppend` | src/enamlnative/android/app.py:413-415 | Entries are handled strictly in batch order. Processing `a + b` gives `a`'s RESULTs, then `b`'s. An error escaping in `a` ends the batch there. |
| `Dispatcher.RaisedIff` | src/enamlnative/android/app.py:413-435 | An error escapes a batch if and only if one of its `'event'` entries raises something other than `JavaReferenceError`. Reference errors and entries with other tags never stop the batch. |
| `Dispatcher.AnswersInOrder` | src/enamlnative/android/app.py:413-447 | A batch that raises nothing answers every `'event'` entry with a truthy result id exactly once, in batch order. Other entries get no answer. |
| `Dispatcher.StopsAtFirstRaise` | src/enamlnative/android/app.py:413-447 | A batch that raises stops at its first raising entry. Every entry up to and including that one is answered, in batch order. Nothing after it is answered. |
| `EventLoops.EventLoop.constructor` | src/enamlnative/android/app.py:65-70 | A new loop is stopped and holds no callbacks, timers or futures. |
| `EventLoops.EventLoop.Start` | src/enamlnative/android/app.py:72-73 | The loop is running afterwards. |
| `EventLoops.EventLoop.Stop` | src/enamlnative/android/app.py:75-76 | The loop is stopped afterwards. |
| `EventLoops.EventLoop.DeferredCall` | src/enamlnative/android/app.py:78-79 | The callback runs after every callback deferred before it (FIFO). |
| `EventLoops.EventLoop.TimedCall` | src/enamlnative/android/app.py:81-82 | Exactly one timer, with the given delay and callback, is added. |
| `EventLoops.EventLoop.CreateFuture` | src/enamlnative/android/app.py:84-85 | Returns a fresh future that is not yet done. |
| `EventLoops.EventLoop.SetErrorHandler` | src/enamlnative/android/app.py:87-88 | Installs the handler for errors escaping callbacks. |
| `EventLoops.EventLoop.AddDoneCallback` | src/enamlnative/android/app.py:90-91 | A pending future remembers the callback. A done future has it scheduled on the loop. |
| `EventLoops.EventLoop.SetFutureResult` | src/enamlnative/android/app.py:93-94 | A pending future becomes done with the result and its callbacks are scheduled in order. A second result is refused and the first is kept. |
| `EventLoops.EventLoop.NextDeferred` | src/enamlnative/android/app.py:78-79 | The loop runs the oldest deferred callback first. |
| `EventLoops.EventLoop.TakeTimer` | src/enamlnative/android/app.py:81-82 | Any pending timer may fire. Exactly that one is removed. |
| `Android.AndroidApplication.constructor` | src/enamlnative/android/app.py:194-218 | Starts with an empty queue, counter 0, no timers of any kind in the loop, nothing sent, `_bridge_timeout` 3, and the error handler installed. The invariant holds. |
| `Android.AndroidApplication.Start` | src/enamlnative/android/app.py:223-236 | The loop is running afterwards, and `Valid()` is kept. |
| `Android.AndroidApplication.Stop` | src/enamlnative/android/app.py:261-265 | The loop is stopped afterwards, and `Valid()` is kept. |
| `Android.AndroidApplication.SendEvent` | src/enamlnative/android/app.py:267-290 | Follows `BridgeQueue.SendEvent` and keeps `Valid()`. Without `now`, exactly one timed `_bridge_send` with delay `_bridge_timeout` is added. With `now`, none is added. |
| `Android.AndroidApplication.BridgeSend` | src/enamlnative/android/app.py:292-313 | Follows `BridgeQueue.Send`. Internal: `Valid()` is restored by its callers `SendEvent` and `FireTimer`. |
| `Android.AndroidApplication.FireTimer` | src/enamlnative/android/app.py:290-313 | Firing a timed `_bridge_send` follows `BridgeQueue.Fire` and keeps `Valid()`. Exactly that timer leaves the loop. |
| `Android.AndroidApplication.TimedCall` | src/enamlnative/android/app.py:331-349 | A `timed_call` of application code adds exactly one timer to the loop. The bridge state is unchanged and `Valid()` is kept: such timers are not counted as pending sends. |
| `Android.AndroidApplication.FireOtherTimer` | src/enamlnative/android/app.py:331-349 | Firing a timer of application code removes exactly that timer and keeps `Valid()`. The callback's own effects are not modelled, so the bridge state is left unchanged. |
| `Android.AndroidApplication.HandleEvent` | src/enamlnative/android/app.py:417-447 | The try/except/finally code follows `Dispatcher.HandleEvent`. The RESULT, if any, is queued by one `send_event` without `now`. The error propagates exactly when the function says so. The loop's other timers are left as they were. |
| `Android.AndroidApplication.ProcessEvents` | src/enamlnative/android/app.py:406-415 | The loop over the batch queues exactly the RESULTs `Dispatcher.ProcessEvents` gives, in order. It raises exactly when that function does, and keeps `Valid()`. The loop's other timers are left as they were. |
| `Android.AndroidApplication.ShowError` | src/enamlnative/android/app.py:244-248 | Queues exactly one ERROR with the message, through `send_event` without `now`. The loop's other timers are left as they were. |
| `Android.AndroidApplication.HandleError` | src/enamlnative/android/app.py:449-459 | Queues exactly one ERROR naming the failing callback, through `send_event` without `now`. The loop's other timers are left as they were. |
| `Android.AndroidApplication.RunNextDeferred` | src/enamlnative/android/app.py:365-369 | The loop runs its oldest deferred callback. For a deferred `process_events`, the RESULTs and, if an error escaped, one ERROR from `handle_error` are queued in that order. A deferred `stop` stops the loop. The loop's other timers are left as they were. |
| `Android.AndroidApplication.AddDoneCallback` | src/enamlnative/android/app.py:375-389 | A missing future is rejected (`JavaReferenceError`) and the loop is left untouched. Otherwise the loop registers the callback. |
| `Android.AndroidApplication.CreateFuture` | src/enamlnative/android/app.py:371-373 | Delegates to the loop: returns a fresh pending future, and `Valid()` is kept. |
| `Android.AndroidApplication.SetFutureResult` | src/enamlnative/android/app.py:391-401 | Delegates to the loop: resolves a future once. |
| `Android.AndroidApplication.OnEvents` | src/enamlnative/android/app.py:464-466 | Does not process the batch inline. It only appends a deferred `process_events` for it. |
| `Android.AndroidApplication.OnDestroy` | src/enamlnative/android/app.py:480-481 | Does not stop inline. It only appends a deferred `stop`. |
| `Android.AndroidApplication.Reload` | src/enamlnative/android/app.py:497-509 | Without `reload_view`, returns early and changes nothing. Otherwise it destroys the current view if there is one, clears the view and defers `reload_view`. |
| `Android.CoalescingScenario` | src/enamlnative/android/app.py:284-313 | Through the class: three `send_event` calls and their three timers give the host exactly one batch `[a, b, c]`. |
| `Android.DanglingReferenceScenario` | src/enamlnative/android/app.py:406-447 | Through the class: a batch whose first event names an unknown object still has its second event answered. The host receives exactly one batch, holding the single RESULT for id 7 with the declared signature. |

## Left out

- `bridge.dumps`, `bridge.loads`, `bridge.msgpack_encoder` and `bridge.get_handler` are not part of this model. The sent log keeps the commands themselves rather than their encoding. `on_events` carries the already decoded batch. A RESULT keeps the `(signature, value)` pair the encoder is applied to. The handler table is a field of the application, keyed by `(ptr, method)`.
- Malformed batch entries are not modelled. In the source, an `'event'` entry that does not unpack into four fields raises before the `try` block. Every entry here has the four fields.
- The source raises `AttributeError` inside the `finally` block when a Java object's method has no `__returns__`. This case is not modelled: every binding carries its declared signature, possibly `None`.
- `AppEventListener`, `jnius.autoclass`, `activity.setAppEventListener` and `activity.processEvents` are foreign JNI calls. `processEvents` is modelled only as appending the batch to the sent log.
- `TornadoEventLoop` and `TwistedEventLoop` are not modelled. The abstract loop follows the `EventLoop` interface as documented, not either backend. Two divergences follow from this.
- EventLoops.EventLoop.SetFutureResult: the default backend, `TornadoEventLoop`, calls `future.result(result)`. That reads a future's result and does not set one, so with that backend `set_future_result` resolves nothing. The model resolves the future once, as the interface documents.
- Android.AndroidApplication.constructor: `TwistedEventLoop.set_error_handler` raises `NotImplementedError`, so with that backend `__init__` fails at `init_error_handler`. The model installs the handler, as the default `TornadoEventLoop` does.
- `_default_dp`, `get_view`, `show_view`, the `Activity` bridge methods and `is_main_thread` belong to the UI toolkit or are constants. `on_pause`, `on_resume` and `on_stop` do nothing in the source.
- `AndroidApplication.deferred_call` only forwards to the loop. The methods call the loop directly. `timed_call` is modelled only for callbacks of application code (`Android.AndroidApplication.TimedCall`), which the loop may hold beside the bridge's own timers.
- Debug printing, `app_log` and `traceback.format_exc` are left out. The traceback is a parameter of `handle_error`. A callback's `repr` is replaced by its name (`Describe`).
- `start_dev_session` and all of `src/enamlnative/core/dev.py` (the live-reload client and server) are left out.
- Values have no floats. Any object other than `None`, a bool, an int or a str is an `Object` known only by its type name and is always truthy. Empty containers are not modelled. A string's type name is `str`; Python 2's `unicode` is not distinguished.
- Android.AndroidApplication.RunNextDeferred: running `reload_view` or an application callback is shown as changing nothing, because that code belongs to the application and is not part of this model.
- Android.AndroidApplication.Reload: `view.destroy()` is recorded as attempted. Whether it raised is not modelled, because the source swallows the error either way.
- Dispatcher.ProcessEvents: handlers are modelled as functions without bridge side effects. In the source a handler runs arbitrary Python, which can itself call `send_event` (a Java method called through the bridge, such as `setView`). Those commands would be queued before the handler's RESULT. The model's queue holds only the commands `handle_event` itself queues.
- Dispatcher.HandleEvent: the same applies. A handler's own bridge calls are not part of the outcome.
- Android.AndroidApplication.ProcessEvents: its queue equality holds because handlers make no bridge calls in the model. With such calls, their commands would be interleaved before each RESULT.
- Android.AndroidApplication.HandleEvent: the queue gains exactly the one RESULT only because the handler makes no bridge calls in the model.
- BridgeQueue.Send: `bridge.dumps` and `activity.processEvents` are taken never to raise. In the source the counter is lowered before the batch is encoded and handed over, and the queue is cleared only after that returns. If either raised, the counter could reach 0 with the queue still full, and an entry that cannot be encoded would make every later flush fail. `BridgeQueue.Inv`, `BridgeQueue.Drain` and `Android.AndroidApplication.Valid` rely on this.
- Android.AndroidApplication.FireOtherTimer: what the application callback does when its timer fires is not modelled. In the source it runs application code, which can itself call `send_event` (with or without `now`), schedule more timers, or raise into `handle_error`. The model only removes the timer.
