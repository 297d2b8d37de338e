/**
 Closing the WebSocket: of any calls that close it at once exactly one goes
 through, and once the writer stops or gives up no send begins.
 */
module SocketCloses {
  import opened Wrappers
  import opened SocketWriter

  /** A call that took the socket's one close and has not queued it yet. */
  function Closer(c: Call): nat {
    if c.Parting? || c.Farewell? || c.Ending? then 1 else 0
  }

  function Closers(calls: seq<Call>): nat {
    if calls == [] then 0 else Closer(calls[0]) + Closers(calls[1..])
  }

  function Closes(commands: seq<Command>): nat {
    if commands == [] then 0 else (if commands[0].CloseSocket? then 1 else 0) + Closes(commands[1..])
  }

  /** The writer takes no further run. */
  predicate Stopped(t: Task) {
    || ((t.Writing? || t.Stalled?) && t.giveUp)
    || t.Conceded? || t.Saying? || t.Stopping? || t.Releasing? || t.Dropping? || t.Gone?
  }

  /** One close at most, and the socket is shut to sends before it, and before the writer stops. */
  predicate ClosesOnce(s: Shared, calls: seq<Call>, t: Task, log: Log) {
    && Closers(calls) + Closes(log.sent) <= 1
    && Closes(s.queue) <= Closes(log.sent)
    && (Closers(calls) + Closes(log.sent) > 0 || Stopped(t) || s.gaveUp ==> !s.open)
  }

  // ---------------------------------------------------------------------
  // Counting

  lemma {:induction false} ClosersAt(calls: seq<Call>, i: nat, c: Call)
    requires i < |calls|
    ensures Closers(calls[i := c]) == Closers(calls) - Closer(calls[i]) + Closer(c)
  {
    var now := calls[i := c];
    if i == 0 {
      assert now[1..] == calls[1..];
    } else {
      assert now[1..] == calls[1..][i - 1 := c];
      ClosersAt(calls[1..], i - 1, c);
    }
  }

  lemma {:induction false} ClosersMore(calls: seq<Call>, c: Call)
    ensures Closers(calls + [c]) == Closers(calls) + Closer(c)
  {
    if calls == [] {
      assert calls + [c] == [c];
    } else {
      assert (calls + [c])[1..] == calls[1..] + [c];
      ClosersMore(calls[1..], c);
    }
  }

  lemma {:induction false} ClosesConcat(a: seq<Command>, b: seq<Command>)
    ensures Closes(a + b) == Closes(a) + Closes(b)
  {
    if a == [] {
      assert a + b == b;
    } else {
      assert (a + b)[1..] == a[1..] + b;
      ClosesConcat(a[1..], b);
    }
  }

  // ---------------------------------------------------------------------
  // Steps

  /** Only a call that finds the socket open goes on to close it, and it finds it so once. */
  lemma AdvanceCloses(limit: nat, s: Shared, c: Call, farewell: Option<Run>)
    ensures var a := Advance(limit, s, c, farewell);
            && Closer(a.call) + Closes(a.sent) <= Closer(c) + (if c.Closing? && s.open then 1 else 0)
            && (a.shared.open ==> s.open && !c.Closing?)
            && a.shared.gaveUp == s.gaveUp
            && a.shared.queue == s.queue + a.sent
  {
    hide Size;
    assert s.queue + [] == s.queue;
  }

  lemma GoCloses(limit: nat, w: Writer, i: nat, farewell: Option<Run>)
    requires i < |w.calls| && ClosesOnce(w.shared, w.calls, w.task, w.log)
    ensures var now := CallStep(limit, w, i, farewell); ClosesOnce(now.shared, now.calls, now.task, now.log)
  {
    var a := Advance(limit, w.shared, w.calls[i], farewell);
    AdvanceCloses(limit, w.shared, w.calls[i], farewell);
    ClosersAt(w.calls, i, a.call);
    ClosesConcat(w.shared.queue, a.sent);
    ClosesConcat(w.log.sent, a.sent);
    hide Advance, Closers, Closes, Stopped;
  }

  /** The writer's own next operation shuts the socket before it stops the writer. */
  lemma ProceedCloses(limit: nat, s: Shared, t: Task)
    requires Stopped(t) || s.gaveUp ==> !s.open
    ensures var (s', t') := Proceeded(limit, s, t);
            && s'.queue == s.queue && (s'.open ==> s.open)
            && (Stopped(t') || s'.gaveUp ==> !s'.open)
  {
    hide Size;
  }

  /** A close taken off the queue was queued, so the socket is shut. */
  lemma TakeCloses(w: Writer)
    requires w.shared.queue != [] && ClosesOnce(w.shared, w.calls, w.task, w.log)
    ensures var now := Taken(w); ClosesOnce(now.shared, now.calls, now.task, now.log)
  {
    hide Closers;
  }

  lemma ReleaseCloses(w: Writer)
    requires w.task.Releasing? && ClosesOnce(w.shared, w.calls, w.task, w.log)
    ensures var now := Released(w); ClosesOnce(now.shared, now.calls, now.task, now.log)
  {
    hide Closers, RunsOf;
  }

  lemma NextCloses(limit: nat, w: Writer, step: Step)
    requires Enabled(limit, w, step) && ClosesOnce(w.shared, w.calls, w.task, w.log)
    ensures var now := Next(limit, w, step); ClosesOnce(now.shared, now.calls, now.task, now.log)
  {
    hide Advance, CallStep, Proceeded, Taken, Released, RunsOf, Size, QueueSize, Closers;
    match step
    case Take => TakeCloses(w);
    case Release => ReleaseCloses(w);
    case Proceed => ProceedCloses(limit, w.shared, w.task);
    case BeginSend(run) => ClosersMore(w.calls, Encoded(run));
    case BeginClose(code, says) => ClosersMore(w.calls, Closing(code, says));
    case Go(i, farewell) => GoCloses(limit, w, i, farewell);
    case _ =>
  }

  lemma {:induction false} RunCloses(limit: nat, w: Writer, steps: seq<Step>)
    requires ClosesOnce(w.shared, w.calls, w.task, w.log) && Runs(limit, w, steps)
    ensures var now := After(limit, w, steps); ClosesOnce(now.shared, now.calls, now.task, now.log)
    decreases |steps|
  {
    hide ClosesOnce, Enabled, Next;
    if steps != [] {
      NextCloses(limit, w, steps[0]);
      RunCloses(limit, Next(limit, w, steps[0]), steps[1..]);
    }
  }

  // ---------------------------------------------------------------------
  // Any interleaving

  lemma StaysShut(limit: nat, w: Writer, step: Step)
    requires Enabled(limit, w, step)
    ensures Next(limit, w, step).shared.open ==> w.shared.open && !step.MarkClosed?
  {
    hide Advance, RunsOf, Size, QueueSize;
    match step
    case Go(i, farewell) => AdvanceCloses(limit, w.shared, w.calls[i], farewell);
    case _ =>
  }

  /** A socket once shut, by a call, the writer or its reader, stays shut. */
  lemma {:induction false} ShutForGood(limit: nat, w: Writer, steps: seq<Step>, run: Run)
    requires Runs(limit, w, steps)
    requires !w.shared.open || exists k :: 0 <= k < |steps| && steps[k].MarkClosed?
    ensures !Enabled(limit, After(limit, w, steps), BeginSend(run))
    decreases |steps|
  {
    hide Enabled, Next;
    if steps == [] {
      assert !Enabled(limit, w, BeginSend(run)) by { NoneBegins(limit, w, run); }
    } else {
      StaysShut(limit, w, steps[0]);
      if w.shared.open && !steps[0].MarkClosed? {
        var k :| 0 <= k < |steps| && steps[k].MarkClosed?;
        assert steps[1..][k - 1].MarkClosed?;
      }
      ShutForGood(limit, Next(limit, w, steps[0]), steps[1..], run);
    }
  }

  lemma NoneBegins(limit: nat, w: Writer, run: Run)
    requires !w.shared.open
    ensures !Enabled(limit, w, BeginSend(run))
  {
  }

  /**
   However many calls close the socket at once, at most one close is ever queued;
   from before it is, and once the writer has given up or stopped, no send begins.
   */
  lemma OneCloseNoSendAfter(limit: nat, w0: Writer, steps: seq<Step>, run: Run)
    requires Spawned(w0) && Runs(limit, w0, steps)
    ensures var w := After(limit, w0, steps);
            && Closes(w.log.sent) <= 1
            && (Closes(w.log.sent) > 0 || Stopped(w.task) || w.shared.gaveUp ==> !Enabled(limit, w, BeginSend(run)))
  {
    assert ClosesOnce(w0.shared, w0.calls, w0.task, w0.log);
    RunCloses(limit, w0, steps);
    hide Spawned, Runs, After, Closers, Closes, Stopped;
  }

  /**
   A close that finds the socket open queues its farewell, if it says one that
   encodes, and then the close with its own code, whatever other calls do
   between its operations; one that finds it shut queues nothing.
   */
  lemma ClosesInOrder(limit: nat, code: nat, says: bool, farewell: Option<Run>, s0: Shared, s1: Shared, s2: Shared, s3: Shared)
    requires s1.receiving && s2.receiving && s3.receiving
    ensures var a0 := Advance(limit, s0, Closing(code, says), farewell);
            var a1 := Advance(limit, s1, a0.call, farewell);
            var a2 := Advance(limit, s2, a1.call, farewell);
            var a3 := Advance(limit, s3, a2.call, farewell);
            && !a0.shared.open && a3.call.Returned?
            && a0.sent + a1.sent + a2.sent + a3.sent ==
               if !s0.open then []
               else if says && farewell.Some? then [Chunks(farewell.value), CloseSocket(code)]
               else [CloseSocket(code)]
  {
    hide Size;
  }
}
