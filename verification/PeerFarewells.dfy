/**
 What a session tells its peer when it ends. A farewell is the last frame on the
 link and carries the code the session ended itself with, so a session that a
 farewell ended ended for the very code its peer chose.
 */
module PeerFarewells {
  import opened Wrappers
  import opened Frames
  import opened Versions
  import opened Session
  import opened Peers

  /** Why a session ended, once it has. */
  function Ended(life: Life): Option<Teardown> {
    if life.Opening? || life.Running? then None else Some(life.reason)
  }

  predicate NoFarewell(s: seq<Frame>) {
    forall k :: 0 <= k < |s| ==> !s[k].Close?
  }

  predicate NoneQueued(s: seq<Command>) {
    forall k :: 0 <= k < |s| && s[k].Send? ==> !s[k].frame.Close?
  }

  /** Only a session that ended itself says farewell: once, last, and with its own code. */
  predicate SaysTrue(link: seq<Frame>, life: Life) {
    forall k :: 0 <= k < |link| && link[k].Close? ==>
      k == |link| - 1 && (life.Draining? || life.Dropped?) && life.reason == Local(link[k].code)
  }

  predicate Says(p: Peer) {
    NoneQueued(p.commands) && NoFarewell(p.driver.outbox) && SaysTrue(p.link, p.life)
  }

  /** A session ended by its peer's farewell ended for the code that peer ended with. */
  predicate HeardTrue(q: Peer, p: Peer) {
    Ended(q.life).Some? && Ended(q.life).value.PeerFrame? ==> Ended(p.life) == Some(Local(Ended(q.life).value.code))
  }

  // ---------------------------------------------------------------------
  // The driver never says farewell itself, and ends for a peer's code only on its farewell

  lemma CommandSays(d: Driver, c: Command)
    requires NoFarewell(d.outbox) && (c.Send? ==> !c.frame.Close?)
    ensures NoFarewell(OnCommand(d, c).0.outbox)
    ensures var stop := OnCommand(d, c).1; stop.Some? ==> stop.value.Local?
  {
  }

  lemma SettledSays(d: Driver, task: nat, outcome: Outcome, fits: bool)
    requires NoFarewell(d.outbox)
    ensures NoFarewell(OnSettled(d, task, outcome, fits).outbox)
  {
    hide Untrack, Fitted;
  }

  lemma FrameSays(d: Driver, f: Frame, task: nat)
    requires NoFarewell(d.outbox)
    ensures NoFarewell(OnFrame(d, f, task).0.outbox)
    ensures var stop := OnFrame(d, f, task).1; stop.Some? && stop.value.PeerFrame? ==> f == Close(stop.value.code)
  {
    hide Negotiate, Route, Track;
  }

  // ---------------------------------------------------------------------
  // Steps of one session

  /** What a step of a session's own may do to how it ends. */
  predicate EndsItself(life: Life, life': Life) {
    if Ended(life).Some? then Ended(life') == Ended(life)
    else Ended(life').Some? ==> !Ended(life').value.PeerFrame?
  }

  lemma CallsSay(p: Peer, c: CallerStep)
    requires Says(p) && CanCall(p, c)
    ensures Says(Calls(p, c)) && Calls(p, c).life == p.life
  {
    hide SaysTrue, NoFarewell, MayAsk;
  }

  lemma TakeSays(p: Peer)
    requires Says(p) && CanLoop(p, TakeCommand)
    ensures Says(DoTakeCommand(p)) && EndsItself(p.life, DoTakeCommand(p).life)
  {
    CommandSays(p.driver, p.commands[0]);
    hide OnCommand, NoFarewell;
  }

  lemma LoopsSay(p: Peer, l: LoopStep)
    requires Says(p) && CanLoop(p, l)
    ensures Says(Loops(p, l)) && EndsItself(p.life, Loops(p, l).life)
  {
    match l
    case TakeCommand => TakeSays(p);
    case Settle(task, outcome, fits) =>
      SettledSays(p.driver, task, outcome, fits);
      hide OnSettled, NoFarewell;
    case _ =>
  }

  lemma WritesSay(p: Peer, w: WriterStep)
    requires Says(p) && CanWrite(p, w)
    ensures Says(Writes(p, w)) && EndsItself(p.life, Writes(p, w).life)
  {
    hide FailedReplies, HungReplies;
  }

  lemma ActSays(p: Peer, a: Action)
    requires Says(p) && Can(p, a)
    ensures Says(Act(p, a)) && EndsItself(p.life, Act(p, a).life)
  {
    hide Says, Calls, Loops, Writes, CanCall, CanLoop, CanWrite;
    match a
    case Caller(c) => CallsSay(p, c);
    case Loop(l) => LoopsSay(p, l);
    case Writer(w) => WritesSay(p, w);
  }

  // ---------------------------------------------------------------------
  // A frame delivered

  lemma ReceiveSays(q: Peer, p: Peer, task: nat)
    requires Says(q) && Says(p) && HeardTrue(p, q) && CanReceive(q, p, task)
    ensures var q', p' := Receive(q, p.link[0], task), Sent(p);
            Says(q') && Says(p') && HeardTrue(q', p') && HeardTrue(p', q')
  {
    FrameSays(q.driver, p.link[0], task);
    hide OnFrame, NoFarewell, NoneQueued, Recorded;
  }

  // ---------------------------------------------------------------------
  // Every run

  predicate BothTrue(s: System) {
    Says(s.a) && Says(s.b) && HeardTrue(s.a, s.b) && HeardTrue(s.b, s.a)
  }

  lemma NextTrue(s: System, m: Move)
    requires BothTrue(s) && Enabled(s, m)
    ensures BothTrue(Next(s, m))
  {
    hide Says, Act, Can, Receive, Sent, CanReceive;
    match m
    case AtA(a) => ActSays(s.a, a);
    case AtB(a) => ActSays(s.b, a);
    case ToA(task) =>
      hide HeardTrue;
      ReceiveSays(s.a, s.b, task);
    case ToB(task) =>
      hide HeardTrue;
      ReceiveSays(s.b, s.a, task);
  }

  lemma {:induction false} RunTrue(s: System, moves: seq<Move>, s': System)
    requires Run(s, moves, s')
    ensures BothTrue(s')
    decreases |moves|
  {
    if moves != [] {
      hide BothTrue, Next, Enabled;
      var last := |moves| - 1;
      var before: System :| Run(s, moves[..last], before) && Enabled(before, moves[last]) && s' == Next(before, moves[last]);
      RunTrue(s, moves[..last], before);
      NextTrue(before, moves[last]);
    }
  }

  /**
   In any run, a farewell on a link is the last frame there and carries the code
   its session ended itself with; and a session that a farewell ended ended for
   the code its peer had ended with.
   */
  lemma FarewellsTrue(s: System, moves: seq<Move>, s': System)
    requires Run(s, moves, s')
    ensures SaysTrue(s'.a.link, s'.a.life) && SaysTrue(s'.b.link, s'.b.life)
    ensures HeardTrue(s'.a, s'.b) && HeardTrue(s'.b, s'.a)
  {
    RunTrue(s, moves, s');
    hide Run, SaysTrue, HeardTrue;
  }
}
