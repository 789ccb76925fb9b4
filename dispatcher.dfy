/** The inbound side of the bridge: a decoded batch from the host is walked in
    order, each `'event'` entry is handed to its handler, and a RESULT is
    queued for every entry that carries a result id, whatever the handler
    did.  This module states that behaviour on values; the imperative
    `process_events` / `handle_event` of `Android.AndroidApplication` are
    proved to follow it. */
module Dispatcher {
  import opened BridgeTypes

  /** How calling a handler ends: it returns a value, raises
      `JavaReferenceError`, or raises anything else. */
  datatype Outcome = Returned(value: Value) | RefError | OtherError

  /** What `bridge.get_handler(ptr, method)` resolves to: the object (does
      it carry `__javaclass__`, and what does its method declare in
      `__returns__`) and the handler, as the outcome of calling it on the
      argument values. */
  datatype Binding = Binding(hasJavaClass: bool, declared: Option<string>, call: seq<Value> -> Outcome)

  /** The handler table, by object reference and method name.  A pair that
      is not in the table makes `get_handler` raise `JavaReferenceError`. */
  type Handlers = map<(int, string), Binding>

  /** The body of an `'event'` entry: `(result_id, ptr, method, args)`, the
      arguments being `(type, value)` pairs. */
  datatype EventCall = EventCall(resultId: Value, ptr: int, name: string, args: seq<(string, Value)>)

  /** One entry of a decoded batch: its tag and its body. */
  datatype Entry = Entry(tag: string, call: EventCall)

  /** `[v for t, v in args]`. */
  function ArgValues(args: seq<(string, Value)>): seq<Value>
  {
    seq(|args|, i requires 0 <= i < |args| => args[i].1)
  }

  /** The `try` block of `handle_event`: the object found (`None` when the
      lookup itself raised) and how the call ended. */
  function Invoke(h: Handlers, call: EventCall): (Option<Binding>, Outcome)
  {
    if (call.ptr, call.name) in h then
      var b := h[(call.ptr, call.name)];
      (Some(b), b.call(ArgValues(call.args)))
    else
      (None, RefError)
  }

  /** The signature the RESULT is encoded with: the method's declared
      `__returns__` when the object has `__javaclass__`, otherwise the name
      of the result's runtime type. */
  function Signature(obj: Option<Binding>, result: Value): Option<string>
  {
    if obj.Some? && obj.value.hasJavaClass then obj.value.declared else Some(TypeName(result))
  }

  /** What `handle_event` leaves behind: the RESULT it queued, if any, and
      whether the error propagates to its caller. */
  datatype Handled = Handled(reply: Option<Command>, raised: bool)

  /** The value `result` holds after the `try` block: what the handler
      returned, or `None` when it raised. */
  function ResultOf(o: Outcome): Value
  {
    if o.Returned? then o.value else NoneValue
  }

  /** `handle_event`: a truthy result id gets exactly one RESULT for that id,
      whether the handler returned, raised `JavaReferenceError` or raised
      anything else; a falsy one gets none.  Only errors other than
      `JavaReferenceError` propagate. */
  function HandleEvent(h: Handlers, call: EventCall): (r: Handled)
    ensures r.reply.Some? <==> Truthy(call.resultId)
    ensures r.raised <==> (call.ptr, call.name) in h
                          && h[(call.ptr, call.name)].call(ArgValues(call.args)).OtherError?
    // a reference that cannot be resolved answers None, typed by None's own type
    ensures (call.ptr, call.name) !in h && Truthy(call.resultId) ==>
              r.reply == Some(ResultCommand(call.resultId, Some("NoneType"), NoneValue))
    // a resolved Java object answers with its method's declared return signature
    ensures (call.ptr, call.name) in h && h[(call.ptr, call.name)].hasJavaClass && Truthy(call.resultId) ==>
              var b := h[(call.ptr, call.name)];
              r.reply == Some(ResultCommand(call.resultId, b.declared, ResultOf(b.call(ArgValues(call.args)))))
    // any other object answers with the runtime type of what was returned
    ensures (call.ptr, call.name) in h && !h[(call.ptr, call.name)].hasJavaClass && Truthy(call.resultId) ==>
              var result := ResultOf(h[(call.ptr, call.name)].call(ArgValues(call.args)));
              r.reply == Some(ResultCommand(call.resultId, Some(TypeName(result)), result))
  {
    var (obj, outcome) := Invoke(h, call);
    var result := ResultOf(outcome);
    var reply := if Truthy(call.resultId)
                 then Some(ResultCommand(call.resultId, Signature(obj, result), result))
                 else None;
    Handled(reply, outcome.OtherError?)
  }

  /** The RESULT commands queued by one `handle_event`, as a sequence. */
  function Replies(r: Handled): seq<Command>
  {
    if r.reply.Some? then [r.reply.value] else []
  }

  /** What `process_events` leaves behind: the RESULT commands queued, in
      order, and whether an error escaped. */
  datatype Dispatched = Dispatched(replies: seq<Command>, raised: bool)

  /** `process_events` on a decoded batch: entries are handled in batch
      order, entries not tagged `'event'` are ignored, and an error that
      `handle_event` lets through ends the batch. */
  function ProcessEvents(h: Handlers, events: seq<Entry>): (r: Dispatched)
    ensures |r.replies| <= |events|
    ensures forall c | c in r.replies :: c.kind == RESULT
    decreases |events|
  {
    if events == [] then Dispatched([], false)
    else if events[0].tag != "event" then ProcessEvents(h, events[1..])
    else
      var first := HandleEvent(h, events[0].call);
      if first.raised then Dispatched(Replies(first), true)
      else
        var rest := ProcessEvents(h, events[1..]);
        Dispatched(Replies(first) + rest.replies, rest.raised)
  }

  /** Does `handle_event` let an error through for this entry? */
  predicate Raises(h: Handlers, e: Entry)
  {
    e.tag == "event" && HandleEvent(h, e.call).raised
  }

  /** The result ids of the `'event'` entries that ask for a result, in
      batch order. */
  function AnsweredIds(events: seq<Entry>): seq<Value>
    decreases |events|
  {
    if events == [] then []
    else (if events[0].tag == "event" && Truthy(events[0].call.resultId) then [events[0].call.resultId] else [])
         + AnsweredIds(events[1..])
  }

  /** The result id each queued command answers. */
  function ReplyIds(replies: seq<Command>): seq<Value>
  {
    seq(|replies|, i requires 0 <= i < |replies| => if replies[i].args != [] then replies[i].args[0].v else NoneValue)
  }

  lemma ReplyIdsAppend(a: seq<Command>, b: seq<Command>)
    ensures ReplyIds(a + b) == ReplyIds(a) + ReplyIds(b)
  {
  }

  /** Processing a batch in two parts is processing it whole: the first
      part's RESULTs come first, and an error in the first part ends the
      batch there. */
  lemma {:induction false} ProcessEventsAppend(h: Handlers, a: seq<Entry>, b: seq<Entry>)
    ensures ProcessEvents(h, a + b) ==
              if ProcessEvents(h, a).raised then ProcessEvents(h, a)
              else Dispatched(ProcessEvents(h, a).replies + ProcessEvents(h, b).replies, ProcessEvents(h, b).raised)
    decreases |a|
  {
    if a == [] {
      assert a + b == b;
    } else {
      assert (a + b)[0] == a[0] && (a + b)[1..] == a[1..] + b;
      ProcessEventsAppend(h, a[1..], b);
    }
  }

  /** An error escapes a batch exactly when one of its `'event'` entries
      raises something other than `JavaReferenceError`. */
  lemma {:induction false} RaisedIff(h: Handlers, events: seq<Entry>)
    ensures ProcessEvents(h, events).raised <==> exists i :: 0 <= i < |events| && Raises(h, events[i])
    decreases |events|
  {
    if events != [] {
      RaisedIff(h, events[1..]);
      if !Raises(h, events[0]) {
        assert forall i :: 1 <= i < |events| ==> events[i] == events[1..][i - 1];
      }
    }
  }

  /** A batch that raises nothing answers every `'event'` entry that asks
      for a result, once, in batch order. */
  lemma {:induction false} AnswersInOrder(h: Handlers, events: seq<Entry>)
    requires !ProcessEvents(h, events).raised
    ensures ReplyIds(ProcessEvents(h, events).replies) == AnsweredIds(events)
    decreases |events|
  {
    if events != [] {
      AnswersInOrder(h, events[1..]);
      if events[0].tag == "event" {
        var first := HandleEvent(h, events[0].call);
        ReplyIdsAppend(Replies(first), ProcessEvents(h, events[1..]).replies);
      }
    }
  }

  /** A batch that raises stops at its first raising entry `k`, having
      answered every entry up to and including that one, in batch order. */
  lemma {:induction false} StopsAtFirstRaise(h: Handlers, events: seq<Entry>) returns (k: nat)
    requires ProcessEvents(h, events).raised
    ensures k < |events| && Raises(h, events[k])
    ensures forall j :: 0 <= j < k ==> !Raises(h, events[j])
    ensures ReplyIds(ProcessEvents(h, events).replies) == AnsweredIds(events[..k + 1])
    decreases |events|
  {
    var rest := events[1..];
    if Raises(h, events[0]) {
      k := 0;
      assert events[..1] == [events[0]];
      assert events[..1][1..] == [];
    } else {
      var k' := StopsAtFirstRaise(h, rest);
      k := k' + 1;
      assert events[..k + 1][1..] == rest[..k' + 1];
      assert events[..k + 1][0] == events[0];
      if events[0].tag == "event" {
        ReplyIdsAppend(Replies(HandleEvent(h, events[0].call)), ProcessEvents(h, rest).replies);
      }
      forall j | 1 <= j < k ensures !Raises(h, events[j]) {
        assert events[j] == rest[j - 1];
      }
    }
  }
}
