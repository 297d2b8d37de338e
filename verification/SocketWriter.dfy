/**
 The WebSocket writer: any number of concurrent senders and closers share a
 byte counter, two flags and a command queue with one writer task. Every load,
 store, queue operation and socket write is a step of its own, and the steps
 interleave in any order.
 */
module SocketWriter {
  import opened Wrappers
  import Frames
  import opened Lines
  import opened LineDecoders
  import opened Chunks
  import opened ChunkReassemblers

  /** One frame's messages, as the encoder split it. */
  type Run = seq<Message>

  datatype Command = Chunks(run: Run) | CloseSocket(code: nat)

  /** A `send_frame` or `close` call between two of its shared-memory operations. */
  datatype Call =
    | Encoded(run: Run)
    | Reserved(run: Run, waiting: int)
    | Disowned
    | Queued(waiting: int)
    | Closing(code: nat, says: bool)
    | Parting(code: nat)
    | Farewell(run: Run, code: nat)
    | Ending(code: nat)
    | Returned

  datatype Shared = Shared(queue: seq<Command>, receiving: bool, queued: int, open: bool, paused: bool, gaveUp: bool)

  /**
   The writer task between two of its operations. A run it has popped is
   counted until its bytes are taken out (`Took`, `Dropping`); `left` and `cut`
   are what it has not written of its last run.
   */
  datatype Task =
    | Idle
    | Took(run: Run)
    | Writing(left: Run, giveUp: bool)
    | Stalled(left: Run, giveUp: bool)
    | Conceding(left: Run)
    | Conceded(left: Run)
    | Failing(left: Run)
    | Saying(left: Run)
    | Stopping(cut: Run)
    | Releasing(cut: Run)
    | Dropping(run: Run, cut: Run)
    | Gone(cut: Run)
    | Dropped(cut: Run)

  /**
   What has happened: commands queued, runs the writer took off the queue in
   order, runs it released unwritten, its own farewell, bytes still in the
   counter for runs that can no longer be written, and whether a stall ever
   found the counter above the limit.
   */
  datatype Log = Log(sent: seq<Command>, taken: seq<Run>, released: seq<Run>, said: seq<Run>, lost: int, overdue: bool)

  datatype Writer = Writer(shared: Shared, calls: seq<Call>, task: Task, wire: seq<Message>, log: Log)

  /** A writer just spawned. */
  predicate Spawned(w: Writer) {
    && w.shared == Shared([], true, 0, true, false, false)
    && w.calls == [] && w.task.Idle? && w.wire == []
    && w.log == Log([], [], [], [], 0, false)
  }

  // ---------------------------------------------------------------------
  // Sizes

  function Size(run: Run): nat {
    if run == [] then 0 else |run[0]| + Size(run[1..])
  }

  function CommandSize(c: Command): nat {
    if c.Chunks? then Size(c.run) else 0
  }

  function QueueSize(queue: seq<Command>): nat {
    if queue == [] then 0 else CommandSize(queue[0]) + QueueSize(queue[1..])
  }

  /** Bytes a call has added to the counter and not queued yet. */
  function Reservation(c: Call): nat {
    match c
    case Reserved(run, _) => Size(run)
    case Farewell(run, _) => Size(run)
    case _ => 0
  }

  function Reservations(calls: seq<Call>): nat {
    if calls == [] then 0 else Reservation(calls[0]) + Reservations(calls[1..])
  }

  function RunsOf(commands: seq<Command>): seq<Run> {
    if commands == [] then []
    else (if commands[0].Chunks? then [commands[0].run] else []) + RunsOf(commands[1..])
  }

  function Flat(runs: seq<Run>): seq<Message> {
    if runs == [] then [] else runs[0] + Flat(runs[1..])
  }

  // ---------------------------------------------------------------------
  // A call's next operation

  datatype Advanced = Advanced(shared: Shared, call: Call, sent: seq<Command>, lost: nat)

  /** Queues a command; false once the writer closed the queue. */
  function Sent(s: Shared, c: Command): Shared {
    if s.receiving then s.(queue := s.queue + [c]) else s
  }

  /** One shared-memory operation of one call. `farewell` is what encoding a close frame yields, if that is next. */
  function Advance(limit: nat, s: Shared, c: Call, farewell: Option<Run>): Advanced {
    match c
    case Encoded(run) =>
      Advanced(s.(queued := s.queued + Size(run)), Reserved(run, s.queued), [], 0)
    case Reserved(run, waiting) =>
      if s.receiving then Advanced(Sent(s, Chunks(run)), Queued(waiting), [Chunks(run)], 0)
      else Advanced(s.(queued := s.queued - Size(run)), Disowned, [], 0)
    case Disowned => Advanced(s.(open := false), Returned, [], 0)
    case Queued(waiting) =>
      Advanced(s, if waiting > limit && s.paused then Closing(Frames.PROTOCOL_ERROR, true) else Returned, [], 0)
    case Closing(code, says) =>
      Advanced(s.(open := false), if !s.open then Returned else if says then Parting(code) else Ending(code), [], 0)
    case Parting(code) =>
      if farewell.None? then Advanced(s, Ending(code), [], 0)
      else Advanced(s.(queued := s.queued + Size(farewell.value)), Farewell(farewell.value, code), [], 0)
    case Farewell(run, code) =>
      // A farewell that cannot be queued stays in the counter.
      if s.receiving then Advanced(Sent(s, Chunks(run)), Ending(code), [Chunks(run)], 0)
      else Advanced(s, Ending(code), [], Size(run))
    case Ending(code) =>
      Advanced(Sent(s, CloseSocket(code)), Returned, if s.receiving then [CloseSocket(code)] else [], 0)
    case Returned => Advanced(s, c, [], 0)
  }

  // ---------------------------------------------------------------------
  // Steps

  datatype Step =
    | BeginSend(run: Run)
    | BeginClose(code: nat, says: bool)
    | Go(i: nat, farewell: Option<Run>)
    | MarkClosed
    | Take
    | Proceed
    | Write
    | Stall
    | Finish(parting: Option<Run>)
    | Fail
    | Shut
    | Release
    | Abort

  predicate Enabled(limit: nat, w: Writer, step: Step) {
    match step
    case BeginSend(run) => w.shared.open && !w.task.Dropped? && WholeRun(limit, run)
    case BeginClose(_, _) => !w.task.Dropped?
    case Go(i, farewell) => i < |w.calls| && (farewell.Some? ==> WholeRun(limit, farewell.value))
    case MarkClosed => true
    case Take => w.task.Idle? && w.shared.queue != []
    case Proceed =>
      w.task.Took? || w.task.Stalled? || w.task.Conceding? || w.task.Conceded? || w.task.Failing? || w.task.Dropping?
    case Write => (w.task.Writing? || w.task.Saying?) && w.task.left != []
    case Stall => w.task.Writing?
    case Finish(parting) =>
      (w.task.Writing? || w.task.Saying?) && w.task.left == [] && (parting.Some? ==> WholeRun(limit, parting.value))
    case Fail => w.task.Writing? || w.task.Saying?
    case Shut => w.task.Stopping?
    case Release => w.task.Releasing?
    // Dropping the last handle aborts the writer: a call still under way holds one.
    case Abort => !w.task.Gone? && !w.task.Dropped? && forall i :: 0 <= i < |w.calls| ==> w.calls[i].Returned?
  }

  function CallStep(limit: nat, w: Writer, i: nat, farewell: Option<Run>): Writer
    requires i < |w.calls|
  {
    var a := Advance(limit, w.shared, w.calls[i], farewell);
    w.(shared := a.shared,
       calls := w.calls[i := a.call],
       log := w.log.(sent := w.log.sent + a.sent, lost := w.log.lost + a.lost))
  }

  /** The writer pops a run, or a close, which ends its loop. */
  function Taken(w: Writer): Writer
    requires w.shared.queue != []
  {
    var first := w.shared.queue[0];
    var s := w.shared.(queue := w.shared.queue[1..]);
    if first.Chunks? then w.(shared := s, task := Took(first.run), log := w.log.(taken := w.log.taken + [first.run]))
    else w.(shared := s, task := Stopping([]))
  }

  /** The next operation of a writer that has one to make whatever the socket does. */
  function Proceeded(limit: nat, s: Shared, t: Task): (Shared, Task) {
    match t
    case Took(run) => (s.(queued := s.queued - Size(run)), Writing(run, false))
    case Stalled(left, giveUp) => (s, if s.queued > limit then Conceding(left) else Writing(left, giveUp))
    case Conceding(left) => (s.(open := false), Conceded(left))
    case Conceded(left) => (s.(gaveUp := true), Writing(left, true))
    case Failing(left) => (s.(open := false), Stopping(left))
    case Dropping(run, cut) => (s.(queued := s.queued - Size(run)), Releasing(cut))
    case _ => (s, t)
  }

  /** The last message of a run was flushed. A writer that gave up says so, once, and stops. */
  function Finished(w: Writer, parting: Option<Run>): Writer
    requires w.task.Writing? || w.task.Saying?
  {
    if w.task.Saying? then w.(task := Stopping([]))
    else
      var s := w.shared.(paused := false);
      if !w.task.giveUp then w.(shared := s, task := Idle)
      else if parting.None? then w.(shared := s, task := Stopping([]))
      else w.(shared := s, task := Saying(parting.value), log := w.log.(said := w.log.said + [parting.value]))
  }

  function Failed(w: Writer): Writer
    requires w.task.Writing? || w.task.Saying?
  {
    if w.task.Saying? then w.(task := Stopping(w.task.left))
    else w.(shared := w.shared.(paused := false), task := Failing(w.task.left))
  }

  /** The queue is closed already; what is left in it is popped, and leaves the counter next. */
  function Released(w: Writer): Writer
    requires w.task.Releasing?
  {
    if w.shared.queue == [] then w.(task := Gone(w.task.cut))
    else
      var first := w.shared.queue[0];
      w.(shared := w.shared.(queue := w.shared.queue[1..]),
         task := if first.Chunks? then Dropping(first.run, w.task.cut) else w.task,
         log := w.log.(released := w.log.released + RunsOf([first])))
  }

  /** The last handle went, and the writer with it: its queue unread, its last run where it was. */
  function Aborted(w: Writer): Writer {
    w.(shared := w.shared.(queue := [], receiving := false),
       task := Dropped(Unwritten(w.task)),
       log := w.log.(released := w.log.released + RunsOf(w.shared.queue),
                     lost := w.log.lost + QueueSize(w.shared.queue) + Popped(w.task)))
  }

  function Unwritten(t: Task): Run {
    match t
    case Idle => []
    case Took(run) => run
    case Stopping(cut) => cut
    case Releasing(cut) => cut
    case Dropping(_, cut) => cut
    case Gone(cut) => cut
    case Dropped(cut) => cut
    case _ => t.left
  }

  /** Bytes of a run off the queue and still in the counter. */
  function Popped(t: Task): nat {
    if t.Took? || t.Dropping? then Size(t.run) else 0
  }

  function Next(limit: nat, w: Writer, step: Step): Writer
    requires Enabled(limit, w, step)
  {
    match step
    case BeginSend(run) => w.(calls := w.calls + [Encoded(run)])
    case BeginClose(code, says) => w.(calls := w.calls + [Closing(code, says)])
    case Go(i, farewell) => CallStep(limit, w, i, farewell)
    case MarkClosed => w.(shared := w.shared.(open := false))
    case Take => Taken(w)
    case Proceed =>
      var (s, t) := Proceeded(limit, w.shared, w.task);
      var stalled := w.task.Stalled? && w.shared.queued > limit;
      w.(shared := s, task := t, log := w.log.(overdue := w.log.overdue || stalled))
    case Write =>
      w.(wire := w.wire + [w.task.left[0]],
         task := if w.task.Writing? then Writing(w.task.left[1..], w.task.giveUp) else Saying(w.task.left[1..]))
    case Stall => w.(shared := w.shared.(paused := true), task := Stalled(w.task.left, w.task.giveUp))
    case Finish(parting) => Finished(w, parting)
    case Fail => Failed(w)
    case Shut => w.(shared := w.shared.(receiving := false), task := Releasing(w.task.cut))
    case Release => Released(w)
    case Abort => Aborted(w)
  }

  predicate Runs(limit: nat, w: Writer, steps: seq<Step>)
    decreases |steps|
  {
    steps == [] || (Enabled(limit, w, steps[0]) && Runs(limit, Next(limit, w, steps[0]), steps[1..]))
  }

  function After(limit: nat, w: Writer, steps: seq<Step>): Writer
    requires Runs(limit, w, steps)
    decreases |steps|
  {
    if steps == [] then w else After(limit, Next(limit, w, steps[0]), steps[1..])
  }

  // ---------------------------------------------------------------------
  // What every step keeps

  /** The counter is the queue, what senders have reserved, what the writer has popped, and what can no longer be written. */
  predicate Accounted(s: Shared, calls: seq<Call>, popped: nat, lost: int) {
    && s.queued == QueueSize(s.queue) + Reservations(calls) + popped + lost
    && lost >= 0
    && (s.receiving ==> lost == 0)
  }

  /** The queue is first in, first out. */
  predicate InOrder(queue: seq<Command>, log: Log) {
    log.taken + log.released + RunsOf(queue) == RunsOf(log.sent)
  }

  /** The wire is the runs taken, then the writer's farewell, less what is unwritten of the last. */
  predicate OnWire(wire: seq<Message>, task: Task, log: Log) {
    && wire + Unwritten(task) == Flat(log.taken + log.said)
    && (Unwritten(task) != [] ==>
          var runs := log.taken + log.said; runs != [] && |Unwritten(task)| <= |runs[|runs| - 1]|)
    && |log.said| <= 1
    && (log.said != [] ==> Parted(task))
  }

  /** Past the loop that takes runs off the queue. */
  predicate Parted(t: Task) {
    t.Saying? || t.Stopping? || t.Releasing? || t.Dropping? || t.Gone? || t.Dropped?
  }

  predicate TaskOrder(task: Task, receiving: bool, log: Log) {
    && (task.Releasing? || task.Dropping? || task.Gone? || task.Dropped? <==> !receiving)
    && (receiving ==> log.released == [])
  }

  predicate CallRuns(limit: nat, c: Call) {
    (c.Encoded? || c.Reserved? || c.Farewell?) ==> WholeRun(limit, c.run)
  }

  predicate AllCalls(limit: nat, calls: seq<Call>) {
    forall i :: 0 <= i < |calls| ==> CallRuns(limit, calls[i])
  }

  predicate AllRuns(limit: nat, runs: seq<Run>) {
    forall run :: run in runs ==> WholeRun(limit, run)
  }

  predicate Inv(limit: nat, w: Writer) {
    && Accounted(w.shared, w.calls, Popped(w.task), w.log.lost)
    && InOrder(w.shared.queue, w.log)
    && OnWire(w.wire, w.task, w.log)
    && TaskOrder(w.task, w.shared.receiving, w.log)
    && AllCalls(limit, w.calls)
    && AllRuns(limit, RunsOf(w.log.sent))
    && AllRuns(limit, w.log.said)
  }

  // ---------------------------------------------------------------------
  // Sums and concatenations

  lemma {:induction false} ReservationsAt(calls: seq<Call>, i: nat, c: Call)
    requires i < |calls|
    ensures Reservations(calls[i := c]) == Reservations(calls) - Reservation(calls[i]) + Reservation(c)
  {
    var now := calls[i := c];
    if i == 0 {
      assert now[1..] == calls[1..];
    } else {
      assert now[1..] == calls[1..][i - 1 := c];
      ReservationsAt(calls[1..], i - 1, c);
    }
    hide Reservation;
  }

  lemma {:induction false} ReservationsMore(calls: seq<Call>, c: Call)
    ensures Reservations(calls + [c]) == Reservations(calls) + Reservation(c)
  {
    if calls == [] {
      assert calls + [c] == [c] && [c][1..] == [];
    } else {
      assert (calls + [c])[1..] == calls[1..] + [c];
      ReservationsMore(calls[1..], c);
    }
    hide Reservation;
  }

  lemma {:induction false} QueueMore(queue: seq<Command>, more: seq<Command>)
    ensures QueueSize(queue + more) == QueueSize(queue) + QueueSize(more)
    ensures RunsOf(queue + more) == RunsOf(queue) + RunsOf(more)
  {
    if queue == [] {
      assert queue + more == more;
    } else {
      assert (queue + more)[1..] == queue[1..] + more;
      QueueMore(queue[1..], more);
    }
    hide CommandSize;
  }

  lemma {:induction false} FlatMore(runs: seq<Run>, run: Run)
    ensures Flat(runs + [run]) == Flat(runs) + run
  {
    if runs == [] {
      assert [run][1..] == [] && run + [] == run;
    } else {
      assert (runs + [run])[1..] == runs[1..] + [run];
      FlatMore(runs[1..], run);
    }
  }

  // ---------------------------------------------------------------------
  // Calls

  /** One operation of a call moves bytes between the counter's four owners and loses none. */
  lemma AdvanceBalances(limit: nat, s: Shared, c: Call, farewell: Option<Run>)
    requires CallRuns(limit, c) && (farewell.Some? ==> WholeRun(limit, farewell.value))
    ensures var a := Advance(limit, s, c, farewell);
            && a.shared.queue == s.queue + a.sent
            && a.shared.receiving == s.receiving
            && (!s.receiving ==> a.sent == [])
            && (s.receiving ==> a.lost == 0)
            && a.shared.queued - s.queued == QueueSize(a.sent) + Reservation(a.call) - Reservation(c) + a.lost
            && CallRuns(limit, a.call)
            && AllRuns(limit, RunsOf(a.sent))
  {
    hide WholeRun, Size;
    var a := Advance(limit, s, c, farewell);
    if a.sent != [] {
      assert a.sent[1..] == [] && QueueSize(a.sent) == CommandSize(a.sent[0]) + 0;
    }
  }

  lemma AccountedMove(was: Shared, calls: seq<Call>, popped: nat, lost: int, now: Shared, i: nat, call: Call, sent: seq<Command>, more: nat)
    requires Accounted(was, calls, popped, lost) && i < |calls|
    requires now.queue == was.queue + sent && now.receiving == was.receiving && (was.receiving ==> more == 0)
    requires now.queued - was.queued == QueueSize(sent) + Reservation(call) - Reservation(calls[i]) + more
    ensures Accounted(now, calls[i := call], popped, lost + more)
  {
    hide Reservation, Reservations, QueueSize;
    ReservationsAt(calls, i, call);
    QueueMore(was.queue, sent);
  }

  lemma InOrderMore(queue: seq<Command>, log: Log, now: Log, sent: seq<Command>)
    requires InOrder(queue, log)
    requires now.taken == log.taken && now.released == log.released && now.sent == log.sent + sent
    ensures InOrder(queue + sent, now)
  {
    hide RunsOf;
    QueueMore(queue, sent);
    QueueMore(log.sent, sent);
    var before := log.taken + log.released;
    assert before + (RunsOf(queue) + RunsOf(sent)) == before + RunsOf(queue) + RunsOf(sent);
  }

  lemma AllRunsMore(limit: nat, was: seq<Command>, sent: seq<Command>)
    requires AllRuns(limit, RunsOf(was)) && AllRuns(limit, RunsOf(sent))
    ensures AllRuns(limit, RunsOf(was + sent))
  {
    hide WholeRun, RunsOf;
    QueueMore(was, sent);
  }

  lemma AllCallsAt(limit: nat, calls: seq<Call>, i: nat, c: Call)
    requires AllCalls(limit, calls) && i < |calls| && CallRuns(limit, c)
    ensures AllCalls(limit, calls[i := c])
  {
    hide CallRuns;
  }

  lemma OnWireSame(wire: seq<Message>, task: Task, log: Log, now: Log)
    requires OnWire(wire, task, log) && now.taken == log.taken && now.said == log.said
    ensures OnWire(wire, task, now)
  {
  }

  lemma CallKeeps(limit: nat, w: Writer, i: nat, farewell: Option<Run>)
    requires Inv(limit, w) && Enabled(limit, w, Go(i, farewell))
    ensures Inv(limit, CallStep(limit, w, i, farewell))
  {
    hide Advance, Accounted, InOrder, AllRuns, AllCalls, OnWire, Reservation, QueueSize, RunsOf, WholeRun;
    var a := Advance(limit, w.shared, w.calls[i], farewell);
    var now := CallStep(limit, w, i, farewell);
    CallAt(limit, w.calls, i);
    AdvanceBalances(limit, w.shared, w.calls[i], farewell);
    AccountedMove(w.shared, w.calls, Popped(w.task), w.log.lost, a.shared, i, a.call, a.sent, a.lost);
    InOrderMore(w.shared.queue, w.log, now.log, a.sent);
    AllRunsMore(limit, w.log.sent, a.sent);
    AllCallsAt(limit, w.calls, i, a.call);
    OnWireSame(w.wire, w.task, w.log, now.log);
  }

  lemma CallAt(limit: nat, calls: seq<Call>, i: nat)
    requires AllCalls(limit, calls) && i < |calls|
    ensures CallRuns(limit, calls[i])
  {
  }

  lemma BeginKeeps(limit: nat, w: Writer, c: Call)
    requires Inv(limit, w) && CallRuns(limit, c) && Reservation(c) == 0
    ensures Inv(limit, w.(calls := w.calls + [c]))
  {
    hide InOrder, AllRuns, OnWire, Reservation, Reservations, QueueSize, RunsOf, CallRuns;
    ReservationsMore(w.calls, c);
  }

  // ---------------------------------------------------------------------
  // The writer

  /** Popping a command moves its bytes to the writer's hands. */
  lemma AccountedPop(was: Shared, now: Shared, calls: seq<Call>, lost: int, task: Task)
    requires Accounted(was, calls, 0, lost) && was.queue != []
    requires now.queue == was.queue[1..] && now.receiving == was.receiving && now.queued == was.queued
    requires Popped(task) == CommandSize(was.queue[0])
    ensures Accounted(now, calls, Popped(task), lost)
  {
    hide Reservations, CommandSize, Popped;
  }

  /** The first command leaves the queue: its run, if it is one, is taken or released next in order. */
  lemma InOrderPop(queue: seq<Command>, log: Log, now: Log)
    requires InOrder(queue, log) && queue != [] && now.sent == log.sent
    requires now.taken + now.released == log.taken + log.released + RunsOf([queue[0]])
    ensures InOrder(queue[1..], now)
  {
    hide RunsOf;
    var first, rest := queue[0], queue[1..];
    assert [first] + rest == queue;
    QueueMore([first], rest);
    var before := log.taken + log.released;
    assert before + (RunsOf([first]) + RunsOf(rest)) == before + RunsOf([first]) + RunsOf(rest);
  }

  lemma OneRun(c: Command)
    ensures RunsOf([c]) == if c.Chunks? then [c.run] else []
  {
    assert [c][1..] == [];
  }

  lemma OnWireTake(wire: seq<Message>, log: Log, now: Log, run: Run)
    requires OnWire(wire, Idle, log) && now.taken == log.taken + [run] && now.said == log.said
    ensures OnWire(wire, Took(run), now)
  {
    hide Flat;
    assert log.said == [] && log.taken + [] == log.taken && now.taken + [] == now.taken;
    assert wire + [] == wire;
    FlatMore(log.taken, run);
  }

  lemma TakeKeeps(limit: nat, w: Writer)
    requires Inv(limit, w) && Enabled(limit, w, Take)
    ensures Inv(limit, Taken(w))
  {
    hide AllRuns, AllCalls, Accounted, InOrder, RunsOf, Size;
    var now := Taken(w);
    OneRun(w.shared.queue[0]);
    assert w.log.taken + [] == w.log.taken && now.log.taken + [] == now.log.taken;
    assert w.log.released == [] && now.log.released == [];
    AccountedPop(w.shared, now.shared, w.calls, w.log.lost, now.task);
    InOrderPop(w.shared.queue, w.log, now.log);
    if w.shared.queue[0].Chunks? {
      hide OnWire;
      OnWireTake(w.wire, w.log, now.log, w.shared.queue[0].run);
    }
  }

  lemma WriteKeeps(limit: nat, w: Writer)
    requires Inv(limit, w) && Enabled(limit, w, Write)
    ensures Inv(limit, Next(limit, w, Write))
  {
    hide AllRuns, AllCalls, Accounted, InOrder, Flat;
    var left := w.task.left;
    assert w.wire + [left[0]] + left[1..] == w.wire + left;
  }

  lemma FinishKeeps(limit: nat, w: Writer, parting: Option<Run>)
    requires Inv(limit, w) && Enabled(limit, w, Finish(parting))
    ensures Inv(limit, Finished(w, parting))
  {
    hide AllCalls, AllRuns, Reservations, QueueSize, Flat, RunsOf, WholeRun;
    if w.task.Writing? && w.task.giveUp && parting.Some? {
      hide OnWire, InOrder, Accounted;
      var now := Finished(w, parting);
      OnWireParts(w.wire, w.task, w.log, now.log, parting.value);
      PartingRun(limit, w.log.said, parting.value);
      SameOrder(w.shared.queue, w.log, now.log);
      SameAccount(w.shared, now.shared, w.calls, w.log.lost);
    }
  }

  lemma OnWireParts(wire: seq<Message>, task: Task, log: Log, now: Log, run: Run)
    requires OnWire(wire, task, log) && task.Writing? && task.left == []
    requires now.taken == log.taken && now.said == log.said + [run]
    ensures OnWire(wire, Saying(run), now)
  {
    hide Flat;
    assert wire + [] == wire;
    assert log.said == [] && log.taken + [] == log.taken;
    assert [] + [run] == [run];
    FlatMore(log.taken, run);
  }

  lemma PartingRun(limit: nat, said: seq<Run>, run: Run)
    requires AllRuns(limit, said) && WholeRun(limit, run)
    ensures AllRuns(limit, said + [run])
  {
    hide WholeRun;
  }

  lemma SameOrder(queue: seq<Command>, log: Log, now: Log)
    requires InOrder(queue, log) && now.sent == log.sent && now.taken == log.taken && now.released == log.released
    ensures InOrder(queue, now)
  {
  }

  lemma SameWire(wire: seq<Message>, task: Task, next: Task, log: Log, now: Log)
    requires OnWire(wire, task, log) && now.taken == log.taken && now.said == log.said
    requires Unwritten(next) == Unwritten(task) && (Parted(task) ==> Parted(next))
    ensures OnWire(wire, next, now)
  {
    hide Flat, Unwritten, Parted;
  }

  lemma SameAccount(was: Shared, now: Shared, calls: seq<Call>, lost: int)
    requires Accounted(was, calls, 0, lost)
    requires now.queue == was.queue && now.queued == was.queued && now.receiving == was.receiving
    ensures Accounted(now, calls, 0, lost)
  {
  }

  lemma StallFailKeep(limit: nat, w: Writer)
    requires Inv(limit, w) && (w.task.Writing? || w.task.Saying?)
    ensures Inv(limit, Failed(w))
    ensures w.task.Writing? ==> Inv(limit, Next(limit, w, Stall))
  {
    hide AllRuns, AllCalls, Reservations, QueueSize, InOrder, Flat;
  }

  lemma ProceedTask(limit: nat, s: Shared, t: Task)
    ensures var (s', t') := Proceeded(limit, s, t);
            && s'.queue == s.queue && s'.receiving == s.receiving && s'.queued - Popped(t') == s.queued - Popped(t)
            && Unwritten(t') == Unwritten(t) && (Parted(t) ==> Parted(t'))
            && (t'.Releasing? || t'.Dropping? || t'.Gone? || t'.Dropped? <==> t.Releasing? || t.Dropping? || t.Gone? || t.Dropped?)
  {
    hide Size;
  }

  /** Taking a popped run's bytes out of the counter, and the stores, keep what is written and what is owed. */
  lemma ProceedKeeps(limit: nat, w: Writer)
    requires Inv(limit, w) && Enabled(limit, w, Proceed)
    ensures Inv(limit, Next(limit, w, Proceed))
  {
    hide Proceeded, Popped, Unwritten, Parted, OnWire, AllRuns, AllCalls, Reservations, QueueSize, InOrder, Flat;
    var now := Next(limit, w, Proceed);
    ProceedTask(limit, w.shared, w.task);
    SameOrder(w.shared.queue, w.log, now.log);
    SameWire(w.wire, w.task, now.task, w.log, now.log);
  }

  lemma ReleaseKeeps(limit: nat, w: Writer)
    requires Inv(limit, w) && Enabled(limit, w, Release)
    ensures Inv(limit, Released(w))
  {
    hide AllRuns, AllCalls, Accounted, InOrder, RunsOf, Flat, Size;
    if w.shared.queue != [] {
      var now := Released(w);
      var more := RunsOf([w.shared.queue[0]]);
      assert w.log.taken + (w.log.released + more) == w.log.taken + w.log.released + more;
      AccountedPop(w.shared, now.shared, w.calls, w.log.lost, now.task);
      InOrderPop(w.shared.queue, w.log, now.log);
    }
  }

  lemma EmptyQueue()
    ensures QueueSize([]) == 0 && RunsOf([]) == []
  {
  }

  lemma AbortKeeps(limit: nat, w: Writer)
    requires Inv(limit, w) && Enabled(limit, w, Abort)
    ensures Inv(limit, Aborted(w))
  {
    hide AllRuns, AllCalls, Reservations, RunsOf, QueueSize, Flat, Size;
    EmptyQueue();
    var runs := RunsOf(w.shared.queue);
    assert w.log.taken + (w.log.released + runs) + [] == w.log.taken + w.log.released + runs;
  }

  lemma FlagKeeps(limit: nat, w: Writer)
    requires Inv(limit, w)
    ensures Inv(limit, w.(shared := w.shared.(open := false)))
  {
    hide AllRuns, AllCalls, Reservations, QueueSize, InOrder, OnWire, Popped;
  }

  lemma ShutKeeps(limit: nat, w: Writer)
    requires Inv(limit, w) && w.task.Stopping?
    ensures Inv(limit, w.(shared := w.shared.(receiving := false), task := Releasing(w.task.cut)))
  {
    hide AllRuns, AllCalls, Reservations, QueueSize, InOrder, Flat;
  }

  lemma NextKeeps(limit: nat, w: Writer, step: Step)
    requires Inv(limit, w) && Enabled(limit, w, step)
    ensures Inv(limit, Next(limit, w, step))
  {
    hide Inv, CallStep, Taken, Finished, Failed, Released, Aborted, WholeRun;
    match step
    case BeginSend(run) => BeginKeeps(limit, w, Encoded(run));
    case BeginClose(code, says) => BeginKeeps(limit, w, Closing(code, says));
    case Go(i, farewell) => CallKeeps(limit, w, i, farewell);
    case MarkClosed => FlagKeeps(limit, w);
    case Take => TakeKeeps(limit, w);
    case Proceed => ProceedKeeps(limit, w);
    case Write => WriteKeeps(limit, w);
    case Stall => StallFailKeep(limit, w);
    case Finish(parting) => FinishKeeps(limit, w, parting);
    case Fail => StallFailKeep(limit, w);
    case Shut => ShutKeeps(limit, w);
    case Release => ReleaseKeeps(limit, w);
    case Abort => AbortKeeps(limit, w);
  }

  // ---------------------------------------------------------------------
  // Every run of the writer

  lemma {:induction false} RunKeeps(limit: nat, w: Writer, steps: seq<Step>)
    requires Inv(limit, w) && Runs(limit, w, steps)
    ensures Inv(limit, After(limit, w, steps))
    decreases |steps|
  {
    hide Inv, Enabled, Next;
    if steps != [] {
      NextKeeps(limit, w, steps[0]);
      RunKeeps(limit, Next(limit, w, steps[0]), steps[1..]);
    }
  }

  lemma SpawnedCounts(w: Writer)
    requires Spawned(w)
    ensures Accounted(w.shared, w.calls, Popped(w.task), w.log.lost)
  {
  }

  lemma SpawnedTask(w: Writer)
    requires Spawned(w)
    ensures TaskOrder(w.task, w.shared.receiving, w.log)
  {
  }

  lemma SpawnedOrder(w: Writer)
    requires Spawned(w)
    ensures InOrder(w.shared.queue, w.log)
  {
  }

  lemma SpawnedRuns(limit: nat, w: Writer)
    requires Spawned(w)
    ensures OnWire(w.wire, w.task, w.log)
    ensures AllCalls(limit, w.calls) && AllRuns(limit, RunsOf(w.log.sent)) && AllRuns(limit, w.log.said)
  {
    hide WholeRun, CallRuns, RunsOf, Flat;
    EmptyQueue();
    NoRuns();
  }

  lemma NoRuns()
    ensures Flat([]) == []
  {
  }

  lemma SpawnedInv(limit: nat, w: Writer)
    requires Spawned(w)
    ensures Inv(limit, w)
  {
    hide Spawned, Accounted, InOrder, TaskOrder, OnWire, AllCalls, AllRuns;
    SpawnedCounts(w);
    SpawnedTask(w);
    SpawnedOrder(w);
    SpawnedRuns(limit, w);
  }

  /**
   The counter, in any interleaving: while the writer receives, exactly the bytes
   queued, those reserved, and those of a run popped but not taken out yet; the
   last are none except between the pop and the subtraction. Afterwards it also
   keeps those of farewells that could not be queued and of what an abort dropped.
   */
  lemma CounterExact(limit: nat, w0: Writer, steps: seq<Step>)
    requires Spawned(w0) && Runs(limit, w0, steps)
    ensures var w := After(limit, w0, steps);
            && w.shared.queued == QueueSize(w.shared.queue) + Reservations(w.calls) + Popped(w.task) + w.log.lost
            && (!w.task.Took? && !w.task.Dropping? ==> Popped(w.task) == 0)
            && w.log.lost >= 0
            && (w.shared.receiving ==> w.log.lost == 0)
  {
    hide Spawned, After, Runs, InOrder, TaskOrder, OnWire, AllCalls, AllRuns, QueueSize, Reservations;
    SpawnedInv(limit, w0);
    RunKeeps(limit, w0, steps);
  }

  /** A run that reaches a state, one step longer. */
  lemma {:induction false} Longer(limit: nat, w: Writer, steps: seq<Step>, step: Step) returns (more: seq<Step>)
    requires Runs(limit, w, steps) && Enabled(limit, After(limit, w, steps), step)
    ensures Runs(limit, w, more) && After(limit, w, more) == Next(limit, After(limit, w, steps), step)
    decreases |steps|
  {
    hide Enabled, Next;
    if steps == [] {
      more := [step];
      assert [step][1..] == [];
    } else {
      var rest := Longer(limit, Next(limit, w, steps[0]), steps[1..], step);
      more := [steps[0]] + rest;
      assert more[1..] == rest;
    }
  }

  /** A frame sent, popped and being written. */
  lemma WritesOne(limit: nat, w0: Writer, run: Run) returns (steps: seq<Step>, w: Writer)
    requires Spawned(w0) && WholeRun(limit, run)
    ensures Runs(limit, w0, steps) && After(limit, w0, steps) == w
    ensures w == Writer(Shared([], true, 0, true, false, false), [Queued(0)],
                        Writing(run, false), [], Log([Chunks(run)], [run], [], [], 0, false))
  {
    hide WholeRun, Size, Runs, After;
    steps := RunsNone(limit, w0);
    steps := Longer(limit, w0, steps, BeginSend(run));
    steps := Longer(limit, w0, steps, Go(0, None));
    steps := Longer(limit, w0, steps, Go(0, None));
    w := After(limit, w0, steps);
    assert w.calls == [Queued(0)] && w.shared.queue == [Chunks(run)] && w.log.sent == [Chunks(run)];
    steps := Longer(limit, w0, steps, Take);
    steps := Longer(limit, w0, steps, Proceed);
    w := After(limit, w0, steps);
    assert w.shared.queue == [] && w.log.taken == [run] && w.task == Writing(run, false);
  }

  /** A close call wins the flag while that frame is being written. */
  lemma CloseDuringWrite(limit: nat, w0: Writer, run: Run) returns (steps: seq<Step>, w: Writer)
    requires Spawned(w0) && WholeRun(limit, run)
    ensures Runs(limit, w0, steps) && After(limit, w0, steps) == w
    ensures w == Writer(Shared([], true, 0, false, false, false), [Queued(0), Parting(Frames.RELEASED)],
                        Writing(run, false), [], Log([Chunks(run)], [run], [], [], 0, false))
  {
    hide WholeRun, Size, Runs, After;
    steps, w := WritesOne(limit, w0, run);
    steps := Longer(limit, w0, steps, BeginClose(Frames.RELEASED, true));
    steps := Longer(limit, w0, steps, Go(1, None));
    w := After(limit, w0, steps);
    assert w.calls == [Queued(0), Parting(Frames.RELEASED)];
  }

  lemma RunsNone(limit: nat, w: Writer) returns (steps: seq<Step>)
    ensures Runs(limit, w, steps) && After(limit, w, steps) == w
  {
    steps := [];
  }

  /**
   How the counter stops being exact: the socket fails under a write while a
   close call is on its way, the writer is gone before the farewell is queued,
   and its bytes stay counted with nothing queued or reserved.
   */
  lemma FarewellStaysCounted(limit: nat, w0: Writer, run: Run) returns (steps: seq<Step>)
    requires Spawned(w0) && WholeRun(limit, run)
    ensures Runs(limit, w0, steps)
    ensures var w := After(limit, w0, steps);
            && w.task.Gone? && w.shared.queue == [] && Reservations(w.calls) == 0
            && w.shared.queued == Size(run) == w.log.lost
  {
    hide WholeRun, Size, Runs, After;
    var w: Writer;
    steps, w := CloseDuringWrite(limit, w0, run);
    steps := Longer(limit, w0, steps, Fail);
    steps := Longer(limit, w0, steps, Proceed);
    steps := Longer(limit, w0, steps, Shut);
    steps := Longer(limit, w0, steps, Release);
    w := After(limit, w0, steps);
    assert w.task == Gone(run) && w.calls == [Queued(0), Parting(Frames.RELEASED)] && w.shared.queued == 0;
    steps := Longer(limit, w0, steps, Go(1, Some(run)));
    steps := Longer(limit, w0, steps, Go(1, None));
    w := After(limit, w0, steps);
    assert w.calls == [Queued(0), Ending(Frames.RELEASED)];
    NothingReserved(Queued(0), Ending(Frames.RELEASED));
  }

  lemma NothingReserved(a: Call, b: Call)
    requires Reservation(a) == 0 && Reservation(b) == 0
    ensures Reservations([a, b]) == 0
  {
    assert [a, b][1..] == [b] && [b][1..] == [];
    assert Reservations([b]) == 0;
  }

  /** No subtraction takes the counter below zero. */
  lemma NoUnderflow(limit: nat, w0: Writer, steps: seq<Step>, step: Step)
    requires Spawned(w0) && Runs(limit, w0, steps) && Enabled(limit, After(limit, w0, steps), step)
    ensures After(limit, w0, steps).shared.queued >= 0
    ensures Next(limit, After(limit, w0, steps), step).shared.queued >= 0
  {
    hide Spawned, After, Runs, Enabled, Next, InOrder, TaskOrder, OnWire, AllCalls, AllRuns, QueueSize, Reservations;
    SpawnedInv(limit, w0);
    RunKeeps(limit, w0, steps);
    var w := After(limit, w0, steps);
    NextKeeps(limit, w, step);
  }

  // ---------------------------------------------------------------------
  // Giving up

  predicate Quits(t: Task) {
    match t
    case Idle => false
    case Took(_) => false
    case Writing(_, giveUp) => giveUp
    case Stalled(_, giveUp) => giveUp
    case _ => true
  }

  /**
   The writer gives up only after a stall that found the counter above the
   limit, and such a stall always makes it: it then finishes the run it is
   writing, takes no other, and only then says a farewell of its own. The socket
   is paused only while a run is being written.
   */
  predicate GivesUp(s: Shared, t: Task, log: Log) {
    && (t.Conceding? || t.Conceded? || s.gaveUp ==> log.overdue)
    && (log.overdue ==> t.Conceding? || t.Conceded? || t.Dropped? || s.gaveUp)
    && (s.gaveUp ==> Quits(t))
    && ((t.Writing? || t.Stalled?) && t.giveUp ==> s.gaveUp)
    && (t.Saying? || log.said != [] ==> s.gaveUp)
    && (s.paused ==> t.Writing? || t.Stalled? || t.Conceding? || t.Conceded? || t.Dropped?)
    && (t.Stalled? || t.Conceding? || t.Conceded? ==> s.paused)
  }

  /** A call's own operations touch neither the pause nor the decision. */
  lemma AdvanceLeaves(limit: nat, s: Shared, c: Call, farewell: Option<Run>)
    ensures var now := Advance(limit, s, c, farewell).shared; now.paused == s.paused && now.gaveUp == s.gaveUp
  {
    hide Size;
  }

  lemma NextGivesUp(limit: nat, w: Writer, step: Step)
    requires Enabled(limit, w, step) && GivesUp(w.shared, w.task, w.log)
    ensures var now := Next(limit, w, step); GivesUp(now.shared, now.task, now.log)
  {
    hide WholeRun, Size, QueueSize, RunsOf, Advance;
    match step
    case Go(i, farewell) => AdvanceLeaves(limit, w.shared, w.calls[i], farewell);
    case _ =>
  }

  lemma {:induction false} RunGivesUp(limit: nat, w: Writer, steps: seq<Step>)
    requires GivesUp(w.shared, w.task, w.log) && Runs(limit, w, steps)
    ensures var now := After(limit, w, steps); GivesUp(now.shared, now.task, now.log)
    decreases |steps|
  {
    hide GivesUp, Enabled, Next;
    if steps != [] {
      NextGivesUp(limit, w, steps[0]);
      RunGivesUp(limit, Next(limit, w, steps[0]), steps[1..]);
    }
  }

  /** In any interleaving. */
  lemma GivesUpExactly(limit: nat, w0: Writer, steps: seq<Step>)
    requires Spawned(w0) && Runs(limit, w0, steps)
    ensures var w := After(limit, w0, steps); GivesUp(w.shared, w.task, w.log)
  {
    assert GivesUp(w0.shared, w0.task, w0.log);
    hide GivesUp, Spawned;
    RunGivesUp(limit, w0, steps);
  }

  /** A send closes the socket exactly when the backlog it found, itself excluded, was over the limit while the socket was paused. */
  lemma SendGivesUpExactly(limit: nat, s: Shared, run: Run, later: Shared, farewell: Option<Run>)
    ensures Advance(limit, s, Encoded(run), farewell).call == Reserved(run, s.queued)
    ensures Advance(limit, later, Queued(s.queued), farewell).call ==
            if s.queued > limit && later.paused then Closing(4400, true) else Returned
  {
  }

  /** All but the last of the runs begun, and how much of the last is written. */
  datatype Written = Written(whole: seq<Run>, last: Run, k: nat)

  /**
   The wire, in any interleaving: runs in the order they were queued, then at
   most one farewell of the writer's own, each whole but perhaps the last.
   */
  lemma WholeRunsInOrder(limit: nat, w0: Writer, steps: seq<Step>) returns (p: Written)
    requires Spawned(w0) && Runs(limit, w0, steps)
    ensures var w := After(limit, w0, steps);
            && w.log.taken <= RunsOf(w.log.sent)
            && |w.log.said| <= 1
            && p.k <= |p.last|
            && w.wire == Flat(p.whole) + p.last[..p.k]
            && (if w.log.taken + w.log.said == [] then p == Written([], [], 0)
                else p.whole + [p.last] == w.log.taken + w.log.said)
            && AllRuns(limit, w.log.taken + w.log.said)
  {
    hide Spawned, After, Runs, RunsOf, WholeRun, AllCalls, Accounted, Flat;
    SpawnedInv(limit, w0);
    RunKeeps(limit, w0, steps);
    var w := After(limit, w0, steps);
    p := CutOf(w.wire, w.task, w.log);
    assert w.log.taken + w.log.released + RunsOf(w.shared.queue) == w.log.taken + (w.log.released + RunsOf(w.shared.queue));
    assert forall run :: run in w.log.taken ==> run in RunsOf(w.log.sent);
  }

  lemma Uncut(a: seq<Message>, u: seq<Message>, b: seq<Message>, l: seq<Message>)
    requires a + u == b + l && |u| <= |l|
    ensures a == b + l[..|l| - |u|]
  {
    assert a == (b + l)[..|a|];
  }

  lemma CutOf(wire: seq<Message>, task: Task, log: Log) returns (p: Written)
    requires OnWire(wire, task, log)
    ensures p.k <= |p.last| && wire == Flat(p.whole) + p.last[..p.k]
    ensures if log.taken + log.said == [] then p == Written([], [], 0) else p.whole + [p.last] == log.taken + log.said
  {
    var runs := log.taken + log.said;
    if runs == [] {
      p := Written([], [], 0);
    } else {
      var whole, last := runs[..|runs| - 1], runs[|runs| - 1];
      var k := |last| - |Unwritten(task)|;
      assert whole + [last] == runs;
      FlatMore(whole, last);
      hide Flat;
      p := Written(whole, last, k);
      Uncut(wire, Unwritten(task), Flat(whole), last);
    }
  }

  // ---------------------------------------------------------------------
  // The peer that reads the wire

  /** A whole run is one under any wider limit. */
  lemma WiderRun(limit: nat, wider: nat, run: Run)
    requires WholeRun(limit, run) && limit <= wider
    ensures WholeRun(wider, run)
  {
    hide CountOf, IndexOf, PayloadOf, Payloads, DivCeil;
    ChunksGrow(limit, wider);
    forall i | 0 <= i < |run| ensures InRun(wider, CountFor(run), i, run[i]) {
      assert InRun(limit, CountFor(run), i, run[i]);
    }
  }

  lemma ChunksGrow(limit: nat, wider: nat)
    requires limit <= wider
    ensures MaxChunksFor(limit) <= MaxChunksFor(wider)
  {
  }

  /** A run whose line the peer reads as a frame. */
  predicate Readable(c: Codec, run: Run) {
    WholeRun(c.limit, run) && DecodeLine(c, Payloads(run)).Decoded?
  }

  function FrameOf(c: Codec, run: Run): Frames.Frame
    requires Readable(c, run)
  {
    DecodeLine(c, Payloads(run)).frame
  }

  function FramesOf(c: Codec, runs: seq<Run>): seq<Frames.Frame>
    requires forall run :: run in runs ==> Readable(c, run)
  {
    if runs == [] then [] else [FrameOf(c, runs[0])] + FramesOf(c, runs[1..])
  }

  lemma FeedWhole(c: Codec, run: Run)
    requires Readable(c, run)
    ensures Feed(c, IDLE, run) == Feeding(IDLE, Reading([FrameOf(c, run)], None))
  {
    FeedRun(c, CountFor(run), run, 0);
    assert run[0..] == run && run[..0] == [];
    hide Feed, Payloads;
  }

  lemma {:induction false} FeedRuns(c: Codec, runs: seq<Run>)
    requires forall run :: run in runs ==> Readable(c, run)
    ensures Feed(c, IDLE, Flat(runs)) == Feeding(IDLE, Reading(FramesOf(c, runs), None))
  {
    hide Readable, FrameOf;
    if runs != [] {
      FeedWhole(c, runs[0]);
      FeedRuns(c, runs[1..]);
      FeedConcat(c, IDLE, runs[0], Flat(runs[1..]));
      hide Feed;
    }
  }

  /** The beginning of a run leaves the peer waiting, with nothing refused. */
  lemma {:induction false} FeedPart(c: Codec, count: nat, ms: Run, k: nat, j: nat)
    requires Chunks.Run(c.limit, count, ms) && k <= j < |ms| == count
    ensures Feed(c, Held(count, ms[..k]), ms[k..j]) == Feeding(Held(count, ms[..j]), Reading([], None))
    decreases j - k
  {
    hide Accept, Payloads, InRun, Headed, Chunks.Run;
    if k < j {
      RunPrefix(c.limit, count, ms, k);
      RunPrefix(c.limit, count, ms, k + 1);
      NextOf(ms, k);
      CountAt(c.limit, count, ms, k);
      assert ms[k..j][1..] == ms[k + 1..j];
      AcceptsRuns(c, count, ms[..k], ms[k]);
      FeedPart(c, count, ms, k + 1, j);
    } else {
      assert ms[k..j] == [];
    }
  }

  /**
   What the peer reassembles from the wire, in any interleaving of senders,
   closers and the writer, under any limit of its own that is no lower than the
   sender's: a frame for each run written whole, in the order they were queued,
   and no refusal, whatever the socket cut off at the end.
   */
  lemma PeerReads(c: Codec, limit: nat, w0: Writer, steps: seq<Step>) returns (read: seq<Run>)
    requires Spawned(w0) && Runs(limit, w0, steps) && limit <= c.limit
    requires var log := After(limit, w0, steps).log;
             forall run :: run in log.taken + log.said ==> DecodeLine(c, Payloads(run)).Decoded?
    ensures var w := After(limit, w0, steps);
            && read <= w.log.taken + w.log.said
            && |read| + 1 >= |w.log.taken + w.log.said|
            && (forall run :: run in read ==> Readable(c, run))
            && Feed(c, IDLE, w.wire).reading == Reading(FramesOf(c, read), None)
  {
    hide After, Runs, Feed, WholeRun, DecodeLine, Payloads;
    var w := After(limit, w0, steps);
    var p := WholeRunsInOrder(limit, w0, steps);
    var runs := w.log.taken + w.log.said;
    forall run | run in runs ensures Readable(c, run) {
      WiderRun(limit, c.limit, run);
    }
    hide Readable;
    if p.k == |p.last| && runs != [] {
      read := runs;
      FlatMore(p.whole, p.last);
      assert p.last[..p.k] == p.last;
      FeedRuns(c, runs);
    } else {
      read := p.whole;
      assert forall run :: run in p.whole ==> run in runs;
      FeedRuns(c, p.whole);
      if runs == [] {
        assert w.wire == [];
      } else {
        assert p.last in runs;
        PartialLast(c, p.whole, p.last, p.k);
      }
    }
  }

  lemma PartialLast(c: Codec, whole: seq<Run>, last: Run, k: nat)
    requires (forall run :: run in whole ==> Readable(c, run)) && Readable(c, last) && k < |last|
    ensures Feed(c, IDLE, Flat(whole) + last[..k]).reading == Reading(FramesOf(c, whole), None)
  {
    FeedRuns(c, whole);
    FeedPart(c, CountFor(last), last, 0, k);
    assert last[0..k] == last[..k] && last[..0] == [];
    FeedConcat(c, IDLE, Flat(whole), last[..k]);
    hide Feed, Readable, FramesOf;
    var frames := FramesOf(c, whole);
    assert frames + [] == frames;
  }

  // ---------------------------------------------------------------------
  // The two loops of the writer, as code

  class Queue {
    var commands: seq<Command>
    var receiving: bool
    var queued: int

    constructor ()
      ensures commands == [] && receiving && queued == 0
    {
      commands, receiving, queued := [], true, 0;
    }

    /** Takes everything still queued back out of the counter, which never goes below zero. */
    method ReleaseUnwritten()
      requires queued >= QueueSize(commands)
      modifies this
      ensures commands == [] && !receiving && queued == old(queued) - QueueSize(old(commands)) >= 0
    {
      receiving := false;
      while commands != []
        invariant !receiving && queued - QueueSize(commands) == old(queued) - QueueSize(old(commands)) >= 0
        decreases |commands|
      {
        var first := commands[0];
        commands := commands[1..];
        if first.Chunks? {
          queued := queued - Size(first.run);
        }
      }
    }
  }

  /** Writes a run's messages until the socket refuses one. `room` is how many it takes before that. */
  method WriteChunks(wire: seq<Message>, run: Run, room: nat, flushes: bool) returns (now: seq<Message>, written: bool)
    ensures now == wire + run[..Min(room, |run|)]
    ensures written <==> room >= |run| && flushes
  {
    now := wire;
    for k := 0 to |run|
      invariant k <= room && now == wire + run[..k]
    {
      if k == room {
        return now, false;
      }
      now := now + [run[k]];
      assert run[..k + 1] == run[..k] + [run[k]];
    }
    return now, flushes;
  }
}
