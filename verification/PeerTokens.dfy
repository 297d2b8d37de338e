/**
 Token conservation: every request id a caller was given is in exactly one
 place, whatever the interleaving.
 */
module PeerTokens {
  import opened Wrappers
  import opened Tokens
  import opened Frames
  import opened Session
  import opened Peers

  /** The id is still in the caller's hands: drafted, or queued for the driver. */
  ghost function Held(p: Peer, id: Id): nat {
    (if id in p.desk.drafts then 1 else 0) + Count(RequestOf, p.commands, id)
  }

  /** The id left the desk and has not reached the responder. */
  ghost function Sending(p: Peer, id: Id): nat {
    p.ledger.withdrawn[id] + p.ledger.lost[id] + Count(AskOf, p.link, id) + Count(AskOf, p.driver.outbox, id)
  }

  /** The peer's id is in this responder's hands: active, answered and on the way back, or an answer lost. */
  ghost function Serving(p: Peer, id: Id): nat {
    Accounted(p.driver, id) + Count(AnswerOf, p.link, id) + p.ledger.forfeited[id]
  }

  /** An id handed out is held, or was taken over by the driver, exactly once; any other id is neither. */
  ghost predicate DeskBalance(p: Peer, id: Id) {
    (if id in p.desk.asked then 1 else 0) == Held(p, id) + p.ledger.taken[id]
  }

  /** An id taken over is on its way, being served, or answered. */
  ghost predicate WireBalance(p: Peer, q: Peer, id: Id) {
    p.ledger.taken[id] == Sending(p, id) + Serving(q, id) + p.ledger.consumed[id]
  }

  /** The responder's bookkeeping is exact until teardown takes it apart. */
  ghost predicate TrackedWhileRunning(p: Peer) {
    p.life.Opening? || p.life.Running? ==> Tracked(p.driver.tracking, p.driver.maxInFlight)
  }

  /** The only frames callers hand over ready-made are events and pings. */
  ghost predicate SendsOnly(commands: seq<Command>) {
    forall c :: c in commands && c.Send? ==> c.frame.Evt? || c.frame.Ping?
  }

  ghost predicate HasCall(desk: Desk, id: Id) {
    exists k :: k in desk.calls && desk.ids(k) == id
  }

  /** Call numbers run from one, ids are their images, and drafts are the calls not yet submitted. */
  ghost predicate DeskOrder(desk: Desk) {
    && (forall i, j :: desk.ids(i) == desk.ids(j) ==> i == j)
    && (forall k :: k in desk.calls <==> 1 <= k <= desk.sequence)
    && (forall k :: k in desk.calls ==> desk.ids(k) in desk.asked && desk.asked[desk.ids(k)] == desk.calls[k].ask)
    && (forall id :: id in desk.asked ==> HasCall(desk, id))
    && (forall k :: k in desk.calls ==> (desk.ids(k) in desk.drafts <==> desk.calls[k].phase.Drafting?))
    && (forall id :: id in desk.drafts ==> id in desk.asked)
  }

  // ---------------------------------------------------------------------
  // The desk

  lemma StartKeepsOrder(p: Peer, ask: Ask)
    requires DeskOrder(p.desk)
    ensures DeskOrder(DoStart(p, ask).desk)
    ensures p.desk.ids(p.desk.sequence + 1) !in p.desk.asked
  {
    NewDraft(p.desk, DoStart(p, ask).desk, ask);
    hide DeskOrder;
  }

  lemma NewDraft(desk: Desk, desk': Desk, ask: Ask)
    requires DeskOrder(desk) && desk'.ids == desk.ids
    requires var k := desk.sequence + 1; var id := desk.ids(k);
             && desk'.sequence == k && desk'.calls == desk.calls[k := Call(ask, Drafting)]
             && desk'.asked == desk.asked[id := ask] && desk'.drafts == desk.drafts + {id}
    ensures DeskOrder(desk') && desk.ids(desk.sequence + 1) !in desk.asked
  {
    var k := desk.sequence + 1;
    assert desk.ids(k) !in desk.asked;
    assert k in desk'.calls;
    StartedCalls(desk, desk', k);
    hide HasCall;
  }

  /** Every id asked under still has its call after one more is handed out. */
  lemma StartedCalls(desk: Desk, desk': Desk, k: nat)
    requires forall id :: id in desk.asked ==> HasCall(desk, id)
    requires desk'.ids == desk.ids && desk.calls.Keys <= desk'.calls.Keys && k in desk'.calls
    requires forall id :: id in desk'.asked ==> id in desk.asked || id == desk.ids(k)
    ensures forall id :: id in desk'.asked ==> HasCall(desk', id)
  {
    forall id | id in desk'.asked ensures HasCall(desk', id) {
      if id in desk.asked {
        var j :| j in desk.calls && desk.ids(j) == id;
        assert j in desk'.calls.Keys && desk'.ids(j) == id;
      } else {
        assert desk'.ids(k) == id;
      }
    }
  }

  lemma PhaseKeepsOrder(desk: Desk, k: nat, phase: Phase)
    requires DeskOrder(desk) && k in desk.calls && !phase.Drafting?
    ensures DeskOrder(WithPhase(desk, k, phase).(drafts := desk.drafts - {desk.ids(k)}))
    ensures !desk.calls[k].phase.Drafting? ==> desk.drafts - {desk.ids(k)} == desk.drafts
  {
    var desk' := WithPhase(desk, k, phase).(drafts := desk.drafts - {desk.ids(k)});
    forall id | id in desk'.asked ensures HasCall(desk', id) {
      var j :| j in desk.calls && desk.ids(j) == id;
      assert j in desk'.calls && desk'.ids(j) == id;
    }
  }

  lemma CallsKeepOrder(p: Peer, c: CallerStep)
    requires CanCall(p, c) && DeskOrder(p.desk)
    ensures DeskOrder(Calls(p, c).desk)
  {
    hide DeskOrder;
    match c
    case Start(ask) => StartKeepsOrder(p, ask);
    case Submit(k) => PhaseKeepsOrder(p.desk, k, Awaiting(false));
    case Withdraw(k, error) => PhaseKeepsOrder(p.desk, k, Returned(Failed(error)));
    case UserCancel(k) => PhaseKeepsOrder(p.desk, k, Awaiting(true));
    case Timeout(k) => PhaseKeepsOrder(p.desk, k, Returned(Failed(TimedOut)));
    case Abandon(k) => PhaseKeepsOrder(p.desk, k, Abandoned);
    case TakeReply(k) => PhaseKeepsOrder(p.desk, k, Returned(ReplyOutcome(p.driver.replies[k])));
    case Post(_) =>
  }

  /** The queue after a caller posted something, if it is still there to post to. */
  lemma CallsQueue(p: Peer, c: CallerStep, id: Id)
    requires CanCall(p, c)
    ensures Count(RequestOf, Calls(p, c).commands, id)
            == Count(RequestOf, p.commands, id) + if c.Submit? && id == p.desk.ids(c.k) then 1 else 0
  {
    hide Count;
    var p' := Calls(p, c);
    if |p'.commands| == |p.commands| + 1 {
      var last := p'.commands[|p.commands|];
      assert p'.commands == p.commands + [last];
      CountAppend(RequestOf, p.commands, last, id);
    } else {
      assert p'.commands == p.commands;
    }
  }

  /** No caller creates or destroys a token, except that a new call gets one of its own. */
  lemma CallsTokens(p: Peer, c: CallerStep, id: Id)
    requires CanCall(p, c) && DeskOrder(p.desk) && DeskBalance(p, id)
    ensures DeskBalance(Calls(p, c), id)
  {
    hide Count, DeskOrder;
    CallsQueue(p, c, id);
    match c
    case Start(ask) => StartKeepsOrder(p, ask);
    case Submit(k) => DraftOf(p.desk, k);
    case Withdraw(k, _) => DraftOf(p.desk, k);
    case UserCancel(_) =>
    case Timeout(_) =>
    case Abandon(_) =>
    case TakeReply(_) =>
    case Post(_) =>
  }

  /** A call still drafting has its id among the drafts. */
  lemma DraftOf(desk: Desk, k: nat)
    requires DeskOrder(desk) && InPhase(desk, k, true)
    ensures desk.ids(k) in desk.drafts
  {
  }

  // ---------------------------------------------------------------------
  // The requests and answers the driver sends

  lemma EnqueueAsks(d: Driver, f: Frame, id: Id)
    ensures Count(AskOf, Enqueue(d, f).outbox, id) == Count(AskOf, d.outbox, id) + One(AskOf(f), id)
  {
    CountAppend(AskOf, d.outbox, f, id);
  }

  lemma CommandAsks(d: Driver, c: Command, id: Id)
    requires c.Send? ==> c.frame.Evt? || c.frame.Ping?
    ensures Count(AskOf, OnCommand(d, c).0.outbox, id) == Count(AskOf, d.outbox, id) + One(RequestOf(c), id)
  {
    var d' := OnCommand(d, c).0;
    if !c.CloseSession? {
      EnqueueAsks(d, d'.outbox[|d.outbox|], id);
    }
  }

  lemma FrameAsks(d: Driver, f: Frame, task: nat, id: Id)
    ensures Count(AskOf, OnFrame(d, f, task).0.outbox, id) == Count(AskOf, d.outbox, id)
  {
    hide Count;
    var d' := OnFrame(d, f, task).0;
    if |d'.outbox| > |d.outbox| {
      EnqueueAsks(d, d'.outbox[|d.outbox|], id);
    }
  }

  lemma SettledAsks(d: Driver, task: nat, outcome: Outcome, fits: bool, id: Id)
    ensures Count(AskOf, OnSettled(d, task, outcome, fits).outbox, id) == Count(AskOf, d.outbox, id)
  {
    hide Count;
    var d' := OnSettled(d, task, outcome, fits);
    if |d'.outbox| > |d.outbox| {
      EnqueueAsks(d, d'.outbox[|d.outbox|], id);
    }
  }

  /** What a peer's own step may not disturb: tokens taken over are tokens sent, and the peer's are left alone. */
  ghost predicate SameFlow(p: Peer, p': Peer, id: Id) {
    && p'.ledger.taken[id] + Sending(p, id) == p.ledger.taken[id] + Sending(p', id)
    && Serving(p', id) == Serving(p, id)
    && p'.ledger.consumed[id] == p.ledger.consumed[id]
  }

  /** Flow depends only on the ledger, the link, the outbox and the active requests. */
  lemma FlowFrame(p: Peer, p': Peer, id: Id)
    requires p'.ledger == p.ledger && p'.link == p.link
    requires p'.driver.outbox == p.driver.outbox && p'.driver.tracking.active == p.driver.tracking.active
    ensures SameFlow(p, p', id)
  {
  }

  /** Callers reach the driver only through the queue. */
  lemma CallsFrame(p: Peer, c: CallerStep)
    requires CanCall(p, c)
    ensures var p' := Calls(p, c);
            && p'.driver == p.driver && p'.life == p.life && p'.link == p.link && p'.work == p.work
            && p'.helloSent == p.helloSent && p'.heard == p.heard && p'.sendFailed == p.sendFailed
    ensures !c.Withdraw? ==> Calls(p, c).ledger == p.ledger
  {
  }

  lemma CallsFlow(p: Peer, c: CallerStep, id: Id)
    requires CanCall(p, c)
    ensures SameFlow(p, Calls(p, c), id)
  {
    CallsFrame(p, c);
    hide Count;
    if c.Withdraw? {
      hide WithPhase;
    } else {
      hide Calls;
      FlowFrame(p, Calls(p, c), id);
    }
  }

  lemma SendsOnlyNothing()
    ensures SendsOnly([])
  {
  }

  lemma CallsSends(p: Peer, c: CallerStep)
    requires CanCall(p, c) && SendsOnly(p.commands)
    ensures SendsOnly(Calls(p, c).commands)
  {
  }

  lemma EndingFlow(p: Peer, stop: Option<Teardown>, id: Id)
    ensures SameFlow(p, Ending(p, stop), id)
  {
    FlowFrame(p, Ending(p, stop), id);
  }

  lemma TakeCommandFlow(p: Peer, id: Id)
    requires p.commands != [] && SendsOnly(p.commands)
    ensures SameFlow(p, DoTakeCommand(p), id)
    ensures DoTakeCommand(p).driver.tracking == p.driver.tracking
    ensures DoTakeCommand(p).driver.maxInFlight == p.driver.maxInFlight
  {
    var c := p.commands[0];
    var (driver, stop) := OnCommand(p.driver, c);
    CommandAsks(p.driver, c, id);
    CommandAccounts(p.driver, c, id);
    hide Count, OnCommand, Accounted, SendsOnly;
    var taken := p.(commands := p.commands[1..], driver := driver,
                    ledger := p.ledger.(taken := Add(p.ledger.taken, RequestOf(c))));
    assert SameFlow(p, taken, id);
    EndingFlow(taken, stop, id);
  }

  lemma SettleFlow(p: Peer, task: nat, outcome: Outcome, fits: bool, id: Id)
    requires Tracked(p.driver.tracking, p.driver.maxInFlight) && task in p.driver.tracking.tasks
    ensures SameFlow(p, DoSettle(p, task, outcome, fits), id)
    ensures Tracked(DoSettle(p, task, outcome, fits).driver.tracking, DoSettle(p, task, outcome, fits).driver.maxInFlight)
  {
    hide Count, OnSettled, Accounted, Tracked;
    SettledAsks(p.driver, task, outcome, fits, id);
    SettledAccounts(p.driver, task, outcome, fits, id);
  }

  lemma TickFlow(p: Peer, id: Id)
    ensures SameFlow(p, Ending(p.(driver := OnTick(p.driver).0), OnTick(p.driver).1), id)
  {
    hide Count;
    var d := p.driver.(awaitingPong := true);
    EnqueueAsks(d, Ping, id);
    EnqueueAccounts(d, Ping, id);
  }

  lemma OpenFlow(p: Peer, sent: bool, id: Id)
    requires p.link == []
    ensures SameFlow(p, DoOpen(p, sent), id)
  {
    assert [] + [HelloFrame(p.driver.hello)] == [HelloFrame(p.driver.hello)];
    CountAppend(AskOf, [], HelloFrame(p.driver.hello), id);
    CountAppend(AnswerOf, [], HelloFrame(p.driver.hello), id);
  }

  /** The loop takes tokens from the queue, one at a time, and touches nothing else on the desk. */
  lemma LoopsDesk(p: Peer, l: LoopStep, id: Id)
    requires CanLoop(p, l)
    ensures Loops(p, l).desk == p.desk
    ensures DeskBalance(p, id) ==> DeskBalance(Loops(p, l), id)
  {
    if l.TakeCommand? {
      hide DeskBalance;
      TakeDesk(p, id);
    } else {
      OtherDesk(p, l);
      hide Count, Loops;
    }
  }

  lemma TakeDesk(p: Peer, id: Id)
    requires p.commands != []
    ensures DoTakeCommand(p).desk == p.desk
    ensures DeskBalance(p, id) ==> DeskBalance(DoTakeCommand(p), id)
  {
    hide OnCommand;
    assert DoTakeCommand(p).commands == p.commands[1..];
  }

  lemma OtherDesk(p: Peer, l: LoopStep)
    requires CanLoop(p, l) && !l.TakeCommand?
    ensures Loops(p, l).commands == p.commands && Loops(p, l).desk == p.desk && Loops(p, l).ledger == p.ledger
  {
    hide OnSettled, OnTick;
  }

  lemma LoopsFlow(p: Peer, l: LoopStep, id: Id)
    requires CanLoop(p, l) && TrackedWhileRunning(p) && SendsOnly(p.commands) && (p.life.Opening? ==> p.link == [])
    ensures SameFlow(p, Loops(p, l), id) && TrackedWhileRunning(Loops(p, l)) && SendsOnly(Loops(p, l).commands)
  {
    hide Count, Tracked, OnCommand, OnSettled, SameFlow;
    match l
    case Open(sent) => OpenFlow(p, sent, id);
    case TakeCommand => TakeCommandFlow(p, id);
    case Settle(task, outcome, fits) => SettleFlow(p, task, outcome, fits, id);
    case LivenessTick => TickFlow(p, id);
    case SetHandlers(_) => FlowFrame(p, Loops(p, l), id);
    case Break(_) => FlowFrame(p, Loops(p, l), id);
  }

  /** The writer hands one frame to the transport. */
  lemma TransmitFlow(p: Peer, id: Id)
    requires CanWrite(p, Transmit)
    ensures SameFlow(p, Writes(p, Transmit), id)
  {
    var f := p.driver.outbox[0];
    CountAppend(AskOf, p.link, f, id);
    CountAppend(AnswerOf, p.link, f, id);
  }

  lemma LoseFlow(p: Peer, id: Id)
    requires CanWrite(p, Lose)
    ensures SameFlow(p, DoLose(p), id)
  {
  }

  lemma FlushFlow(p: Peer, farewell: bool, id: Id)
    requires p.life.Flushing?
    ensures SameFlow(p, DoFlush(p, farewell), id)
  {
    hide Count, FailedReplies;
    CountAppend(AskOf, p.link, Close(p.life.reason.code), id);
    CountAppend(AnswerOf, p.link, Close(p.life.reason.code), id);
  }

  lemma DropFlow(p: Peer, id: Id)
    requires p.life.Draining?
    ensures SameFlow(p, DoDrop(p), id)
    ensures DeskBalance(p, id) ==> DeskBalance(DoDrop(p), id)
  {
    TallyCounts(RequestOf, p.commands, id);
  }

  lemma WritesDesk(p: Peer, w: WriterStep, id: Id)
    requires CanWrite(p, w)
    ensures Writes(p, w).desk == p.desk
    ensures DeskBalance(p, id) ==> DeskBalance(Writes(p, w), id)
  {
    if w.Drop? {
      DropFlow(p, id);
    }
    hide Count, FailedReplies, HungReplies;
  }

  lemma WritesFlow(p: Peer, w: WriterStep, id: Id)
    requires CanWrite(p, w)
    ensures SameFlow(p, Writes(p, w), id)
  {
    hide Count, SameFlow;
    match w
    case Transmit => TransmitFlow(p, id);
    case Lose => LoseFlow(p, id);
    case Flush(farewell) => FlushFlow(p, farewell, id);
    case Drop => DropFlow(p, id);
  }

  /** A frame arriving is taken over by the receiver, token for token. */
  lemma ReceiveFlow(p: Peer, f: Frame, task: nat, id: Id)
    requires p.life.Running? && TrackedWhileRunning(p) && task !in p.driver.tracking.tasks
    ensures var p' := Receive(p, f, task);
            && TrackedWhileRunning(p')
            && p'.ledger.taken == p.ledger.taken && Sending(p', id) == Sending(p, id)
            && Serving(p', id) == Serving(p, id) + One(AskOf(f), id)
            && p'.ledger.consumed[id] == p.ledger.consumed[id] + One(AnswerOf(f), id)
  {
    hide Count, OnFrame, Tracked, Route;
    FrameAccounts(p.driver, f, task, id);
    FrameAsks(p.driver, f, task, id);
  }

  // ---------------------------------------------------------------------
  // The balance of a connected pair

  /** The part of the invariant one peer keeps by itself. */
  ghost predicate Sound(p: Peer) {
    && DeskOrder(p.desk)
    && TrackedWhileRunning(p)
    && SendsOnly(p.commands)
    && (p.life.Opening? ==> p.link == [])
  }

  lemma LoopsLink(p: Peer, l: LoopStep)
    requires CanLoop(p, l)
    ensures Loops(p, l).life.Opening? ==> p.life.Opening? && Loops(p, l).link == p.link
  {
    hide OnCommand, OnSettled, OnTick;
  }

  lemma WritesSends(p: Peer, w: WriterStep)
    requires CanWrite(p, w)
    ensures !Writes(p, w).life.Opening?
    ensures Writes(p, w).life.Running? ==> p.life.Running?
    ensures Writes(p, w).life.Running? ==> Writes(p, w).driver.tracking == p.driver.tracking && Writes(p, w).driver.maxInFlight == p.driver.maxInFlight
    ensures Writes(p, w).commands == p.commands || Writes(p, w).commands == []
  {
  }

  lemma ActSound(p: Peer, a: Action)
    requires Can(p, a) && Sound(p)
    ensures Sound(Act(p, a))
  {
    hide DeskOrder, Tracked, SendsOnly, SameFlow, DeskBalance, Calls, Loops;
    var id := p.desk.ids(0);
    match a
    case Caller(c) =>
      CallsKeepOrder(p, c);
      CallsFrame(p, c);
      CallsSends(p, c);
    case Loop(l) =>
      LoopsDesk(p, l, id);
      LoopsFlow(p, l, id);
      LoopsLink(p, l);
    case Writer(w) =>
      WritesDesk(p, w, id);
      WritesSends(p, w);
      SendsOnlyNothing();
  }

  lemma ActTokens(p: Peer, a: Action, id: Id)
    requires Can(p, a) && Sound(p) && DeskBalance(p, id)
    ensures DeskBalance(Act(p, a), id) && SameFlow(p, Act(p, a), id)
  {
    hide DeskOrder, TrackedWhileRunning, SameFlow, SendsOnly, DeskBalance, Calls, Loops, Writes;
    match a
    case Caller(c) =>
      CallsTokens(p, c, id);
      CallsFlow(p, c, id);
    case Loop(l) =>
      LoopsDesk(p, l, id);
      LoopsFlow(p, l, id);
    case Writer(w) =>
      WritesDesk(p, w, id);
      WritesFlow(p, w, id);
  }
}
