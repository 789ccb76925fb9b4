/** The outgoing side of the bridge: `send_event` queues a command and bumps
    the pending counter, and every `_bridge_send` (timed or immediate) takes
    one off the counter and hands the whole queue to the host only when no
    other send is still due or when asked to send now.  This module states
    that behaviour on values; `Android.AndroidApplication` is proved to
    follow it. */
module BridgeQueue {
  import opened BridgeTypes

  /** `_bridge_queue`, `_bridge_pending`, the number of timed `_bridge_send`
      calls the event loop still holds, and the batches handed so far to the
      host through `activity.processEvents`, oldest first. */
  datatype State = State(queue: seq<Command>, pending: int, timers: nat, sent: seq<seq<Command>>)

  /** The bridge before any command was issued. */
  const Initial := State([], 0, 0, [])

  /** Every command of a sequence of batches, batch after batch. */
  function Flatten(batches: seq<seq<Command>>): seq<Command>
  {
    if batches == [] then [] else Flatten(batches[..|batches| - 1]) + batches[|batches| - 1]
  }

  lemma FlattenAppend(batches: seq<seq<Command>>, batch: seq<Command>)
    ensures Flatten(batches + [batch]) == Flatten(batches) + batch
  {
    assert (batches + [batch])[..|batches|] == batches;
  }

  /** The counter equals the number of outstanding timed sends, and a
      non-empty queue always has one of them still to come. */
  predicate Inv(s: State)
  {
    s.pending == s.timers && (s.queue != [] ==> s.pending > 0)
  }

  /** `_bridge_send(now)`: one pending send is used up; the queue goes to the
      host, whole and in order, only if it is non-empty and this was the last
      pending send or `now` is set. */
  function Send(s: State, now: bool): (r: State)
    ensures r.pending == s.pending - 1 && r.timers == s.timers
    ensures |r.sent| == |s.sent| + 1 <==> s.queue != [] && (r.pending == 0 || now)
    ensures |r.sent| == |s.sent| + 1 ==> r.sent == s.sent + [s.queue] && r.queue == []
    ensures |r.sent| != |s.sent| + 1 ==> r.sent == s.sent && r.queue == s.queue
    ensures Flatten(r.sent) + r.queue == Flatten(s.sent) + s.queue
  {
    var pending := s.pending - 1;
    if s.queue != [] && (pending == 0 || now) then
      FlattenAppend(s.sent, s.queue);
      State([], pending, s.timers, s.sent + [s.queue])
    else
      s.(pending := pending)
  }

  /** `send_event(cmd, now=now)`: queue `cmd` behind everything already queued,
      count one more pending send, then either send at once or leave one
      timed send with the event loop. */
  function SendEvent(s: State, cmd: Command, now: bool): (r: State)
    ensures Inv(s) ==> Inv(r)
    ensures Flatten(r.sent) + r.queue == Flatten(s.sent) + s.queue + [cmd]
    ensures now ==> r.sent == s.sent + [s.queue + [cmd]] && r.queue == []
                    && r.pending == s.pending && r.timers == s.timers
    ensures !now ==> r.sent == s.sent && r.queue == s.queue + [cmd]
                     && r.pending == s.pending + 1 && r.timers == s.timers + 1
  {
    var queued := State(s.queue + [cmd], s.pending + 1, s.timers, s.sent);
    if now then Send(queued, true) else queued.(timers := s.timers + 1)
  }

  /** One of the timed `_bridge_send` calls fires. */
  function Fire(s: State): (r: State)
    requires s.timers > 0
    ensures Inv(s) ==> Inv(r)
    ensures r.timers == s.timers - 1
    ensures Flatten(r.sent) + r.queue == Flatten(s.sent) + s.queue
    ensures s.sent <= r.sent
  {
    Send(s.(timers := s.timers - 1), false)
  }

  /** What can happen to the bridge: a `send_event` call, or the event loop
      firing one of its timed sends, whichever one it picks. */
  datatype Step = Issue(cmd: Command, now: bool) | Tick

  function Apply(s: State, step: Step): State
  {
    match step
    case Issue(cmd, now) => SendEvent(s, cmd, now)
    case Tick => if s.timers > 0 then Fire(s) else s
  }

  function Run(s: State, steps: seq<Step>): State
    decreases |steps|
  {
    if steps == [] then s else Run(Apply(s, steps[0]), steps[1..])
  }

  /** The commands issued by a sequence of steps, in issue order. */
  function Issued(steps: seq<Step>): seq<Command>
    decreases |steps|
  {
    if steps == [] then []
    else (if steps[0].Issue? then [steps[0].cmd] else []) + Issued(steps[1..])
  }

  /** `send_event` without `now` for each command, in order. */
  function Issues(cmds: seq<Command>): seq<Step>
    decreases |cmds|
  {
    if cmds == [] then [] else [Issue(cmds[0], false)] + Issues(cmds[1..])
  }

  /** `n` timer firings. */
  function Ticks(n: nat): seq<Step>
  {
    if n == 0 then [] else [Tick] + Ticks(n - 1)
  }

  lemma {:induction false} RunAppend(s: State, a: seq<Step>, b: seq<Step>)
    ensures Run(s, a + b) == Run(Run(s, a), b)
    decreases |a|
  {
    if a != [] {
      assert (a + b)[0] == a[0];
      assert (a + b)[1..] == a[1..] + b;
      RunAppend(Apply(s, a[0]), a[1..], b);
    } else {
      assert a + b == b;
    }
  }

  /** One step keeps the invariant, keeps the batches already sent, and
      moves commands from the issued side to the sent side only. */
  lemma ApplyConserves(s: State, step: Step)
    requires Inv(s)
    ensures Inv(Apply(s, step))
    ensures s.sent <= Apply(s, step).sent
    ensures Flatten(Apply(s, step).sent) + Apply(s, step).queue
            == Flatten(s.sent) + s.queue + (if step.Issue? then [step.cmd] else [])
  {
  }

  /** Across any interleaving of `send_event` calls and timer firings, the
      invariant holds, batches already sent are never altered, and the
      batches sent followed by what is still queued are exactly the commands
      ever issued, in issue order: no command is lost, duplicated or
      reordered. */
  lemma {:induction false} RunConserves(s: State, steps: seq<Step>)
    requires Inv(s)
    ensures Inv(Run(s, steps))
    ensures s.sent <= Run(s, steps).sent
    ensures Flatten(Run(s, steps).sent) + Run(s, steps).queue == Flatten(s.sent) + s.queue + Issued(steps)
    decreases |steps|
  {
    if steps != [] {
      var next := Apply(s, steps[0]);
      ApplyConserves(s, steps[0]);
      RunConserves(next, steps[1..]);
      var head := if steps[0].Issue? then [steps[0].cmd] else [];
      assert Issued(steps) == head + Issued(steps[1..]);
      assert Run(s, steps) == Run(next, steps[1..]);
      calc {
        Flatten(Run(s, steps).sent) + Run(s, steps).queue;
        Flatten(next.sent) + next.queue + Issued(steps[1..]);
        Flatten(s.sent) + s.queue + head + Issued(steps[1..]);
        Flatten(s.sent) + s.queue + Issued(steps);
      }
    }
  }

  /** Letting every outstanding timer fire leaves nothing queued: every
      queued command reaches the host, after the batches already sent. */
  lemma {:induction false} Drain(s: State)
    requires Inv(s)
    ensures Run(s, Ticks(s.timers)).queue == []
    ensures Run(s, Ticks(s.timers)).pending == 0 && Run(s, Ticks(s.timers)).timers == 0
    ensures Flatten(Run(s, Ticks(s.timers)).sent) == Flatten(s.sent) + s.queue
    decreases s.timers
  {
    if s.timers > 0 {
      var next := Fire(s);
      assert Ticks(s.timers)[0] == Tick && Ticks(s.timers)[1..] == Ticks(next.timers);
      Drain(next);
    }
  }

  lemma {:induction false} IssuesRun(s: State, cmds: seq<Command>)
    ensures Run(s, Issues(cmds)) == State(s.queue + cmds, s.pending + |cmds|, s.timers + |cmds|, s.sent)
    decreases |cmds|
  {
    if cmds != [] {
      IssuesRun(SendEvent(s, cmds[0], false), cmds[1..]);
      assert s.queue + [cmds[0]] + cmds[1..] == s.queue + cmds;
    }
  }

  /** Queueing one more command without `now` after `cmds` is the same as
      queueing `cmds + [cmd]`. */
  lemma IssuesSnoc(s: State, cmds: seq<Command>, cmd: Command)
    ensures Run(s, Issues(cmds + [cmd])) == SendEvent(Run(s, Issues(cmds)), cmd, false)
  {
    IssuesRun(s, cmds + [cmd]);
    IssuesRun(s, cmds);
  }

  /** Timers firing while other timers are still due send nothing; the last
      one sends the whole queue as one batch. */
  lemma {:induction false} TicksFlushOnce(s: State, n: nat)
    requires s.queue != [] && s.pending == n && s.timers == n && n > 0
    ensures n > 1 ==> Fire(s).sent == s.sent && Fire(s).queue == s.queue
    ensures Run(s, Ticks(n)) == State([], 0, 0, s.sent + [s.queue])
    decreases n
  {
    var next := Fire(s);
    assert Ticks(n)[0] == Tick && Ticks(n)[1..] == Ticks(n - 1);
    if n > 1 {
      TicksFlushOnce(next, n - 1);
    }
  }

  /** Coalescing: K `send_event` calls without `now` on an idle bridge,
      followed by their K timers firing, reach the host as exactly one batch
      holding the K commands in issue order. */
  lemma {:induction false} Coalescing(s: State, cmds: seq<Command>)
    requires Inv(s) && s.timers == 0 && cmds != []
    ensures Run(s, Issues(cmds) + Ticks(|cmds|)) == State([], 0, 0, s.sent + [cmds])
  {
    var queued := Run(s, Issues(cmds));
    RunAppend(s, Issues(cmds), Ticks(|cmds|));
    IssuesRun(s, cmds);
    assert queued.queue == cmds && queued.pending == |cmds| && queued.timers == |cmds|;
    TicksFlushOnce(queued, |cmds|);
  }
}
