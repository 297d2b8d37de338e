/**
 The whole-run theorems of two connected sessions. Each holds in every state
 every run can reach, for every interleaving of callers, drivers, writers, wire
 and teardown.
 */
module PeerTheorems {
  import opened Wrappers
  import opened Tokens
  import opened Frames
  import opened Versions
  import opened Session
  import opened Peers
  import opened PeerTokens
  import opened PeerCalls
  import opened PeerHandshake
  import opened PeerAnswers

  /** Tokens are lost only with a frame the transport refused, or with the session itself. */
  ghost predicate LossesExplained(p: Peer) {
    && (!p.sendFailed && !p.life.Dropped? ==> p.ledger.lost == multiset{})
    && (!p.sendFailed && !p.life.Draining? && !p.life.Dropped? ==> p.ledger.forfeited == multiset{})
  }

  /** What one peer keeps whatever the other does. */
  ghost predicate Alone(p: Peer) {
    && Sound(p) && Balanced(p) && CallsInv(p) && RequestsInv(p) && AnswersInv(p)
    && ClosedWhenEnding(p) && LossesExplained(p)
  }

  /** What requester `p` and responder `q` keep together. */
  ghost predicate Linked(p: Peer, q: Peer) {
    && Flowing(p, q)
    && HelloFirst(p, q)
    && Informed(p, q.driver.hello)
    && Told(p, q.work)
    && RanAsAsked(p, q)
    && OnlyBusyOrUnknown(q.work)
  }

  /** The only refusals on record are for a full house and for a method nobody serves. */
  ghost predicate OnlyBusyOrUnknown(work: Work) {
    forall id :: id in work.denied ==> work.denied[id].why in {InFlightLimit, NoHandler}
  }

  ghost predicate Flowing(p: Peer, q: Peer) {
    forall id :: WireBalance(p, q, id)
  }

  ghost predicate Inv(s: System) {
    Alone(s.a) && Alone(s.b) && Linked(s.a, s.b) && Linked(s.b, s.a)
  }

  // ---------------------------------------------------------------------
  // One peer acts

  lemma SameLosses(p: Peer, p': Peer)
    requires LossesExplained(p) && p'.sendFailed == p.sendFailed
    requires p'.ledger.lost == p.ledger.lost && p'.ledger.forfeited == p.ledger.forfeited
    requires p.life.Draining? || p.life.Dropped? ==> p'.life == p.life
    ensures LossesExplained(p')
  {
  }

  lemma CallsLosses(p: Peer, c: CallerStep)
    requires CanCall(p, c)
    ensures Calls(p, c).ledger.lost == p.ledger.lost && Calls(p, c).ledger.forfeited == p.ledger.forfeited
  {
    if !c.Withdraw? {
      CallsFrame(p, c);
      hide Calls;
    }
  }

  lemma LoopsLosses(p: Peer, l: LoopStep)
    requires CanLoop(p, l)
    ensures var p' := Loops(p, l);
            && p'.sendFailed == p.sendFailed && p'.ledger.lost == p.ledger.lost && p'.ledger.forfeited == p.ledger.forfeited
            && (p.life.Draining? || p.life.Dropped? ==> p'.life == p.life)
  {
    hide OnCommand, OnSettled, OnTick;
  }

  lemma WritesLosses(p: Peer, w: WriterStep)
    requires CanWrite(p, w) && LossesExplained(p)
    ensures LossesExplained(Writes(p, w))
  {
    hide FailedReplies, HungReplies, Tally;
  }

  lemma ActLosses(p: Peer, a: Action)
    requires Can(p, a) && LossesExplained(p)
    ensures LossesExplained(Act(p, a))
  {
    hide Calls, Loops, Writes, LossesExplained;
    match a
    case Caller(c) =>
      CallsFrame(p, c);
      CallsLosses(p, c);
      SameLosses(p, Act(p, a));
    case Loop(l) =>
      LoopsLosses(p, l);
      SameLosses(p, Act(p, a));
    case Writer(w) => WritesLosses(p, w);
  }

  lemma ActAlone(p: Peer, a: Action, hello: Hello)
    requires Can(p, a) && Alone(p) && Informed(p, hello)
    ensures Alone(Act(p, a))
    ensures RepliesKept(p, Act(p, a)) && Grows(p.work, Act(p, a).work)
  {
    ActSound(p, a);
    forall id ensures DeskBalance(Act(p, a), id) {
      ActTokens(p, a, id);
    }
    hide Act, Can, DeskOrder, CallsInv, RequestsInv, AnswersInv, Informed, ClosedWhenEnding, LossesExplained, DeskBalance;
    ActKeepsCalls(p, a);
    ActRequests(p, a, hello);
    ActAnswers(p, a);
    ActInformed(p, a, hello);
    ActLosses(p, a);
  }

  lemma ActFlowing(p: Peer, a: Action, q: Peer)
    requires Can(p, a) && Sound(p) && Balanced(p) && Flowing(p, q) && Flowing(q, p)
    ensures Flowing(Act(p, a), q) && Flowing(q, Act(p, a))
    ensures forall id :: Serving(Act(p, a), id) == Serving(p, id)
    ensures forall id :: Act(p, a).ledger.consumed[id] == p.ledger.consumed[id]
  {
    forall id
      ensures WireBalance(Act(p, a), q, id) && WireBalance(q, Act(p, a), id)
      ensures Serving(Act(p, a), id) == Serving(p, id) && Act(p, a).ledger.consumed[id] == p.ledger.consumed[id]
    {
      ActTokens(p, a, id);
      assert WireBalance(p, q, id) && WireBalance(q, p, id);
      hide Act, Can, Sound, Sending, Serving, Flowing, Balanced, DeskBalance;
    }
    hide Act, Can, Sound, WireBalance, Balanced, Serving;
  }

  /** Questions handed out stay handed out. */
  lemma ActAsked(p: Peer, a: Action)
    requires Can(p, a) && DeskOrder(p.desk)
    ensures forall id :: id in p.desk.asked ==> id in Act(p, a).desk.asked && Act(p, a).desk.asked[id] == p.desk.asked[id]
  {
    match a
    case Caller(c) =>
      if c.Start? {
        StartKeepsOrder(p, c.ask);
        hide DeskOrder;
      } else if !c.Submit? {
        CallsQuiet(p, c);
        hide Calls, DeskOrder;
      } else {
        hide DeskOrder;
      }
    case Loop(l) =>
      LoopsDesk(p, l, p.desk.ids(0));
      hide Loops, DeskOrder;
    case Writer(w) =>
      WritesDesk(p, w, p.desk.ids(0));
      hide Writes, DeskOrder;
  }

  /** The handler runs on record change only when a handler settles. */
  lemma ActRan(p: Peer, a: Action)
    requires Can(p, a)
    ensures Act(p, a).work.ran == p.work.ran && Act(p, a).work.denied == p.work.denied && Act(p, a).work.cancels == p.work.cancels
  {
    match a
    case Caller(c) => CallsFrame(p, c);
    case Loop(l) => hide OnCommand, OnSettled, OnTick;
    case Writer(w) => hide FailedReplies, HungReplies;
  }

  lemma ActRanAsAsked(p: Peer, a: Action, q: Peer)
    requires Can(p, a) && Sound(p) && Balanced(p) && Flowing(p, q) && Flowing(q, p)
    requires RanAsAsked(p, q) && RanAsAsked(q, p)
    ensures RanAsAsked(Act(p, a), q) && RanAsAsked(q, Act(p, a))
  {
    ActFlowing(p, a, q);
    ActAsked(p, a);
    ActRan(p, a);
    hide Act, Can, Sound, Balanced, Flowing, Serving;
  }

  lemma ActLinked(p: Peer, a: Action, q: Peer)
    requires Can(p, a) && Alone(p) && Linked(p, q) && Linked(q, p)
    ensures Alone(Act(p, a)) && Linked(Act(p, a), q) && Linked(q, Act(p, a))
    ensures RepliesKept(p, Act(p, a)) && Grows(p.work, Act(p, a).work)
  {
    ActFlowing(p, a, q);
    ActAlone(p, a, q.driver.hello);
    ActRanAsAsked(p, a, q);
    ActHelloFirst(p, a, q);
    ActInformed(p, a, q.driver.hello);
    ActTold(p, a, q.work);
    GrowsTold(q, p.work, Act(p, a).work);
    HeardOnly(q, p, Act(p, a));
    ActRan(p, a);
    hide Act, Can, Alone, Flowing, HelloFirst, Informed, Told, RanAsAsked, Serving;
  }

  /** Of the receiver, hello order looks only at whether it has heard. */
  lemma HeardOnly(p: Peer, q: Peer, q': Peer)
    requires HelloFirst(p, q) && q'.heard == q.heard
    ensures HelloFirst(p, q')
  {
  }

  // ---------------------------------------------------------------------
  // One peer receives what the other sent

  /** A request on the link is nowhere else: it is not running, and never has. */
  lemma RequestIsNew(q: Peer, p: Peer)
    requires Balanced(q) && Flowing(q, p) && RanAsAsked(q, p) && q.link != [] && q.link[0].Req?
    ensures q.link[0].id !in p.work.ran && q.link[0].id !in p.work.denied && q.link[0].id !in p.driver.tracking.active
  {
    var id := q.link[0].id;
    assert DeskBalance(q, id) && WireBalance(q, p, id);
    assert Count(AskOf, q.link, id) >= 1;
    assert Sending(q, id) >= 1 && q.ledger.taken[id] <= 1;
    assert Serving(p, id) + q.ledger.consumed[id] == 0;
  }

  lemma SentAlone(q: Peer)
    requires Alone(q) && q.link != []
    ensures Alone(Sent(q))
  {
    hide DeskOrder, Tracked, SendsOnly, TruthfulFrames, TrueRequests, MayAsk;
    hide GenuineQueue, GenuinePending, GenuineReplies, Owed, NoLeak, NoLeakQueued;
    var q' := Sent(q);
    ShorterLink(q.work, q.desk.asked, q.link);
    forall id ensures DeskBalance(q', id) {
      assert DeskBalance(q, id);
    }
    hide DeskBalance;
  }

  lemma ShorterLink(work: Work, asked: map<Id, Ask>, link: seq<Frame>)
    requires link != [] && TruthfulFrames(work, link) && TrueRequests(asked, link)
    ensures TruthfulFrames(work, link[1..]) && TrueRequests(asked, link[1..])
  {
    hide Truthful;
    assert forall f :: f in link[1..] ==> f in link;
  }

  lemma ReceiveAlone(p: Peer, f: Frame, task: nat, hello: Hello)
    requires Alone(p) && Informed(p, hello) && p.life.Running? && task !in p.driver.tracking.tasks
    requires f.Req? ==> f.id !in p.work.ran && f.id !in p.work.denied
    requires f.HelloFrame? ==> f.hello == hello && !p.heard
    ensures Alone(Receive(p, f, task))
    ensures RepliesKept(p, Receive(p, f, task)) && Grows(p.work, Receive(p, f, task).work)
  {
    ReceiveFlow(p, f, task, p.desk.ids(0));
    ReceiveKeeps(p, f, task);
    ReceiveRequests(p, f, task, hello);
    ReceiveAnswers(p, f, task);
    ReceiveInformed(p, f, task, hello);
    ReceiveFrame(p, f, task);
    var p' := Receive(p, f, task);
    hide Receive, DeskOrder, Tracked, CallsInv, RequestsInv, AnswersInv, Informed, ClosedWhenEnding, Serving, Sending, RepliesKept, Grows;
    forall id ensures DeskBalance(p', id) {
      assert DeskBalance(p, id);
    }
    hide DeskBalance;
  }

  /** What receiving a frame leaves alone. */
  lemma ReceiveFrame(p: Peer, f: Frame, task: nat)
    requires p.life.Running?
    ensures var p' := Receive(p, f, task);
            && p'.desk == p.desk && p'.commands == p.commands && p'.sendFailed == p.sendFailed && !p'.life.Opening?
            && p'.ledger == p.ledger.(consumed := p'.ledger.consumed)
            && !p'.life.Draining? && !p'.life.Dropped?
  {
    hide OnFrame;
  }

  lemma ReceiveFlowing(p: Peer, q: Peer, task: nat, id: Id)
    requires CanReceive(p, q, task) && TrackedWhileRunning(p) && WireBalance(p, q, id) && WireBalance(q, p, id)
    ensures var p' := Receive(p, q.link[0], task);
            && WireBalance(p', Sent(q), id) && WireBalance(Sent(q), p', id)
            && Serving(p', id) >= Serving(p, id)
            && Serving(Sent(q), id) + p'.ledger.consumed[id] == Serving(q, id) + p.ledger.consumed[id]
            && (AskOf(q.link[0]) == Some(id) ==> Serving(p', id) >= 1)
  {
    ReceiveFlow(p, q.link[0], task, id);
    hide Receive, Tracked;
  }

  /** What a delivery does to the record and the balance, for one id. */
  ghost predicate Delivered(p: Peer, p': Peer, q: Peer, q': Peer, f: Frame, id: Id) {
    && WireBalance(p', q', id) && WireBalance(q', p', id)
    && Serving(p', id) >= Serving(p, id)
    && Serving(q', id) + p'.ledger.consumed[id] == Serving(q, id) + p.ledger.consumed[id]
    && (AskOf(f) == Some(id) ==> Serving(p', id) >= 1)
  }

  lemma DeliveredRan(p: Peer, p': Peer, q: Peer, q': Peer, f: Frame)
    requires forall id :: Delivered(p, p', q, q', f, id)
    requires RanAsAsked(p, q) && RanAsAsked(q, p) && RequestsSent(q) && f in q.link
    requires p'.desk == p.desk && q'.desk == q.desk && q'.work == q.work && q'.ledger == q.ledger
    requires forall id :: id in p'.work.ran ==>
               (id in p.work.ran && p'.work.ran[id].ask == p.work.ran[id].ask)
               || (f.Req? && id == f.id && p'.work.ran[id].ask == Ask(f.name, f.params))
    requires forall id :: id in p'.work.denied ==>
               (id in p.work.denied && p'.work.denied[id].ask == p.work.denied[id].ask)
               || (f.Req? && id == f.id && p'.work.denied[id].ask == Ask(f.name, f.params))
    ensures Flowing(p', q') && Flowing(q', p') && RanAsAsked(p', q') && RanAsAsked(q', p')
  {
    hide Serving, WireBalance;
    forall id ensures WireBalance(p', q', id) && WireBalance(q', p', id) {
      assert Delivered(p, p', q, q', f, id);
    }
    forall id ensures Serving(p', id) >= Serving(p, id) && Serving(q', id) + p'.ledger.consumed[id] == Serving(q, id) + p.ledger.consumed[id]
      ensures AskOf(f) == Some(id) ==> Serving(p', id) >= 1
    {
      assert Delivered(p, p', q, q', f, id);
    }
  }

  lemma ReceiveRanAsAsked(p: Peer, q: Peer, task: nat)
    requires CanReceive(p, q, task) && TrackedWhileRunning(p) && Flowing(p, q) && Flowing(q, p)
    requires RanAsAsked(p, q) && RanAsAsked(q, p) && RequestsSent(q)
    ensures var p' := Receive(p, q.link[0], task);
            && Flowing(p', Sent(q)) && Flowing(Sent(q), p')
            && RanAsAsked(p', Sent(q)) && RanAsAsked(Sent(q), p')
  {
    var f := q.link[0];
    var p', q' := Receive(p, f, task), Sent(q);
    forall id ensures Delivered(p, p', q, q', f, id) {
      assert WireBalance(p, q, id) && WireBalance(q, p, id);
      ReceiveFlowing(p, q, task, id);
      hide Receive, Flowing, RanAsAsked, RequestsSent, Serving, WireBalance;
    }
    hide Receive, Flowing, RanAsAsked, RequestsSent, Delivered, TrackedWhileRunning;
    RecordShape(p, f, task);
    RecordedAsks(p.work, p.driver, f);
    DeliveredRan(p, p', q, q', f);
  }

  lemma RecordShape(p: Peer, f: Frame, task: nat)
    ensures Receive(p, f, task).work == Recorded(p.work, p.driver, f) && Receive(p, f, task).desk == p.desk
  {
    hide OnFrame, Recorded;
  }

  /** What a frame adds to the record of runs and refusals is its own question. */
  lemma RecordedAsks(work: Work, d: Driver, f: Frame)
    ensures forall id :: id in Recorded(work, d, f).ran ==>
              (id in work.ran && Recorded(work, d, f).ran[id].ask == work.ran[id].ask)
              || (f.Req? && id == f.id && Recorded(work, d, f).ran[id].ask == Ask(f.name, f.params))
    ensures forall id :: id in Recorded(work, d, f).denied ==>
              (id in work.denied && Recorded(work, d, f).denied[id].ask == work.denied[id].ask)
              || (f.Req? && id == f.id && Recorded(work, d, f).denied[id].ask == Ask(f.name, f.params))
  {
    hide Route;
  }

  lemma ReceiveLinked(p: Peer, q: Peer, task: nat)
    requires CanReceive(p, q, task) && Alone(p) && Alone(q) && Linked(p, q) && Linked(q, p)
    ensures var p' := Receive(p, q.link[0], task); var q' := Sent(q);
            && Alone(p') && Alone(q') && Linked(p', q') && Linked(q', p')
            && RepliesKept(p, p') && Grows(p.work, p'.work)
  {
    var f := q.link[0];
    var p', q' := Receive(p, f, task), Sent(q);
    if f.Req? {
      RequestIsNew(q, p);
    }
    TakenHello(p, q, task);
    ReceiveAlone(p, f, task, q.driver.hello);
    SentAlone(q);
    ReceiveRanAsAsked(p, q, task);
    ReceiveHelloFirst(p, q, task);
    ReceiveInformed(p, f, task, q.driver.hello);
    assert f in q.link;
    ReceiveTold(p, f, task, q.work);
    GrowsTold(q, p.work, p'.work);
    RecordShape(p, f, task);
    if f.Req? {
      RequestWelcome(q, p, task);
    }
    WelcomeRecorded(p.work, p.driver, f);
    assert Informed(q', p'.driver.hello) && Told(q', p'.work);
    hide Receive, Alone, Flowing, HelloFirst, Informed, Told, RanAsAsked;
  }

  lemma WelcomeRecorded(work: Work, d: Driver, f: Frame)
    requires OnlyBusyOrUnknown(work)
    requires f.Req? ==> Route(d, f.id, f.name) in {None, Some(InFlightLimit), Some(NoHandler)}
    ensures OnlyBusyOrUnknown(Recorded(work, d, f))
  {
    hide Route;
  }

  // ---------------------------------------------------------------------
  // Every run

  lemma FreshInv(s: System)
    requires Fresh(s.a) && Fresh(s.b)
    ensures Inv(s)
  {
    FreshAlone(s.a);
    FreshAlone(s.b);
    FreshLinked(s.a, s.b);
    FreshLinked(s.b, s.a);
    hide Alone, Linked, Fresh;
  }

  lemma FreshAlone(p: Peer)
    requires Fresh(p)
    ensures Alone(p)
  {
    assert Tracked(NO_TRACKING, p.driver.maxInFlight);
  }

  lemma FreshLinked(p: Peer, q: Peer)
    requires Fresh(p) && Fresh(q)
    ensures Linked(p, q)
  {
  }

  lemma NextInv(s: System, m: Move)
    requires Inv(s) && Enabled(s, m)
    ensures Inv(Next(s, m))
    ensures var s' := Next(s, m);
            && RepliesKept(s.a, s'.a) && RepliesKept(s.b, s'.b)
            && Grows(s.a.work, s'.a.work) && Grows(s.b.work, s'.b.work)
  {
    hide Alone, Linked, Can, Act, Receive;
    match m
    case AtA(a) => ActLinked(s.a, a, s.b);
    case AtB(a) => ActLinked(s.b, a, s.a);
    case ToA(task) => ReceiveLinked(s.a, s.b, task);
    case ToB(task) => ReceiveLinked(s.b, s.a, task);
  }

  lemma {:induction false} RunInv(s: System, moves: seq<Move>, s': System)
    requires Run(s, moves, s')
    ensures Inv(s')
    decreases |moves|
  {
    if moves == [] {
      FreshInv(s);
    } else {
      var last := |moves| - 1;
      var before: System :| Run(s, moves[..last], before) && Enabled(before, moves[last]) && s' == Next(before, moves[last]);
      RunInv(s, moves[..last], before);
      NextInv(before, moves[last]);
    }
  }

  // ---------------------------------------------------------------------
  // The theorems

  /**
   Token conservation. An id `p` handed out is in exactly one place: drafted,
   queued, withdrawn, lost before the peer had it, on its way out, active at
   `q`, its answer on the way back, its answer lost, or consumed. An id `p`
   never handed out is nowhere.
   */
  ghost predicate InOnePlace(p: Peer, q: Peer, id: Id) {
    (if id in p.desk.asked then 1 else 0)
    == (if id in p.desk.drafts then 1 else 0) + Count(RequestOf, p.commands, id)
       + p.ledger.withdrawn[id] + p.ledger.lost[id]
       + Count(AskOf, p.driver.outbox, id) + Count(AskOf, p.link, id)
       + (if id in q.driver.tracking.active then 1 else 0)
       + Count(AnswerOf, q.driver.outbox, id) + Count(AnswerOf, q.link, id)
       + q.ledger.forfeited[id] + p.ledger.consumed[id]
  }

  lemma TokenConservation(s: System, moves: seq<Move>, s': System, id: Id)
    requires Run(s, moves, s')
    ensures InOnePlace(s'.a, s'.b, id) && InOnePlace(s'.b, s'.a, id)
    ensures LossesExplained(s'.a) && LossesExplained(s'.b)
  {
    RunInv(s, moves, s');
    hide Run, Count;
    assert DeskBalance(s'.a, id) && DeskBalance(s'.b, id);
    assert WireBalance(s'.a, s'.b, id) && WireBalance(s'.b, s'.a, id);
  }

  /**
   Correlation. What a caller is given is the result on record of the handler
   run on that caller's own method and params, sent as it is if it fitted a frame
   and as an error if it did not; or the refusal on record of that very request;
   or a failure of its own side, for a reason of its own side.
   */
  ghost predicate Correlated(p: Peer, q: Peer, k: nat)
    requires k in p.desk.calls && p.desk.calls[k].phase.Returned?
  {
    var id, ask, o := p.desk.ids(k), p.desk.calls[k].ask, p.desk.calls[k].phase.outcome;
    || (id in q.work.ran && q.work.ran[id].ask == ask && id in q.work.settled && Given(q.work.settled[id], o))
    || (id in q.work.denied && q.work.denied[id].ask == ask && o == Failed(Refused(q.work.denied[id].why)))
    || o == Failed(TimedOut)
    || (p.ledger.withdrawn[id] >= 1 && o.Failed? && (o.error.FrameTooLarge? || o.error.Unencodable? || o.error.Unavailable?))
    || (Over(p.life) && o == Failed(Unavailable))
  }

  lemma InvCorrelates(p: Peer, q: Peer, k: nat)
    requires Alone(p) && Alone(q) && Linked(p, q)
    requires k in p.desk.calls && p.desk.calls[k].phase.Returned?
    ensures Correlated(p, q, k)
  {
    var id := p.desk.ids(k);
    assert p.desk.asked[id] == p.desk.calls[k].ask;
    hide Sound, Balanced, CallsInv, RequestsInv, Flowing, HelloFirst, Informed, Judged;
  }

  lemma Correlation(s: System, moves: seq<Move>, s': System)
    requires Run(s, moves, s')
    ensures forall k :: k in s'.a.desk.calls && s'.a.desk.calls[k].phase.Returned? ==> Correlated(s'.a, s'.b, k)
    ensures forall k :: k in s'.b.desk.calls && s'.b.desk.calls[k].phase.Returned? ==> Correlated(s'.b, s'.a, k)
  {
    RunInv(s, moves, s');
    hide Run, Alone, Linked, Correlated;
    forall k | k in s'.a.desk.calls && s'.a.desk.calls[k].phase.Returned? ensures Correlated(s'.a, s'.b, k) {
      InvCorrelates(s'.a, s'.b, k);
    }
    forall k | k in s'.b.desk.calls && s'.b.desk.calls[k].phase.Returned? ensures Correlated(s'.b, s'.a, k) {
      InvCorrelates(s'.b, s'.a, k);
    }
  }

  /** Taking its reply, a call returns exactly what the reply says; a reply hung up is a session that closed. */
  lemma TakesItsReply(p: Peer, k: nat)
    requires CanCall(p, TakeReply(k))
    ensures var reply := p.driver.replies[k];
            Calls(p, TakeReply(k)).desk.calls[k].phase ==
            Returned(if reply.Value? then reply.outcome else Failed(Unavailable))
  {
  }

  /** A responder's record: every run met all five checks when it was taken in, every refusal failed that one first. */
  lemma RunsAdmissible(s: System, moves: seq<Move>, s': System)
    requires Run(s, moves, s')
    ensures Judged(s'.a.work) && Judged(s'.b.work)
  {
    RunInv(s, moves, s');
    hide Run, Judged, Sound, Balanced, CallsInv, RequestsInv, Linked, WorkOrder, TruthfulFrames;
  }

  /** No result is ever sent, or waits to be, unless it fitted a frame; and what is sent is what the handler returned. */
  ghost predicate ResultsFit(p: Peer) {
    forall f :: f in p.driver.outbox + p.link && f.Res? ==>
      f.id in p.work.settled && p.work.settled[f.id] == Result(Ok(f.result), true)
  }

  lemma InvResultsFit(p: Peer)
    requires AnswersInv(p)
    ensures ResultsFit(p)
  {
    forall f | f in p.driver.outbox + p.link && f.Res?
      ensures f.id in p.work.settled && p.work.settled[f.id] == Result(Ok(f.result), true)
    {
      assert Truthful(p.work, f.id, AnswerIn(f));
    }
  }

  lemma OnlyFittingResultsSent(s: System, moves: seq<Move>, s': System)
    requires Run(s, moves, s')
    ensures ResultsFit(s'.a) && ResultsFit(s'.b)
  {
    RunInv(s, moves, s');
    hide Run, Linked, AnswersInv, ResultsFit;
    InvResultsFit(s'.a);
    InvResultsFit(s'.b);
  }

  /** The next frame from `p` is one `q` was ready for. */
  ghost predicate WellTimed(p: Peer, q: Peer)
    requires p.link != []
  {
    var f := p.link[0];
    && (f.HelloFrame? ==> q.driver.state == Handshaking)
    && (f.Req? ==> Route(q.driver, f.id, f.name) in {None, Some(InFlightLimit), Some(NoHandler)})
  }

  lemma InvWellTimed(p: Peer, q: Peer, task: nat)
    requires Alone(p) && Linked(p, q) && Linked(q, p) && CanReceive(q, p, task)
    ensures WellTimed(p, q)
  {
    TakenHello(q, p, task);
    if p.link[0].Req? {
      RequestIsNew(p, q);
      RequestWelcome(p, q, task);
    }
    hide Sound, Balanced, CallsInv, RequestsInv, AnswersInv, Flowing, HelloFirst, Told, RanAsAsked, Route;
  }

  /**
   Between two sessions running this code no hello is ever a duplicate, and no
   request is ever refused for an incomplete handshake, an id already in flight
   or a reserved name.
   */
  lemma NoSpuriousRefusal(s: System, moves: seq<Move>, s': System, task: nat)
    requires Run(s, moves, s')
    ensures CanReceive(s'.b, s'.a, task) ==> WellTimed(s'.a, s'.b)
    ensures CanReceive(s'.a, s'.b, task) ==> WellTimed(s'.b, s'.a)
    ensures OnlyBusyOrUnknown(s'.a.work) && OnlyBusyOrUnknown(s'.b.work)
  {
    RunInv(s, moves, s');
    assert OnlyBusyOrUnknown(s'.a.work) && OnlyBusyOrUnknown(s'.b.work);
    hide Run, Alone, Linked, WellTimed;
    if CanReceive(s'.b, s'.a, task) {
      InvWellTimed(s'.a, s'.b, task);
    }
    if CanReceive(s'.a, s'.b, task) {
      InvWellTimed(s'.b, s'.a, task);
    }
  }

  /** A ready session, whether or not its peer is ready yet, holds the limits that peer announces. */
  lemma ReadyKnows(s: System, moves: seq<Move>, s': System)
    requires Run(s, moves, s')
    ensures s'.a.driver.state == Ready ==> s'.a.driver.remote.Some? && s'.a.driver.remote.value.limits == s'.b.driver.hello.limits
    ensures s'.b.driver.state == Ready ==> s'.b.driver.remote.Some? && s'.b.driver.remote.value.limits == s'.a.driver.hello.limits
  {
    RunInv(s, moves, s');
    hide Run, Alone, Flowing, HelloFirst, Told, RanAsAsked;
  }

  /** Two ready sessions hold the lower of the two minors their hellos announced, and each holds the limits the other announced. */
  lemma SameMinor(s: System, moves: seq<Move>, s': System)
    requires Run(s, moves, s') && s'.a.driver.state == Ready && s'.b.driver.state == Ready
    ensures s'.a.driver.remote.Some? && s'.b.driver.remote.Some?
    ensures s'.a.driver.remote.value.effectiveMinor == s'.b.driver.remote.value.effectiveMinor
    ensures var minor, one, other := s'.a.driver.remote.value.effectiveMinor,
                                     s'.a.driver.hello.protocol.minor, s'.b.driver.hello.protocol.minor;
            minor <= one && minor <= other && (minor == one || minor == other)
    ensures s'.a.driver.hello.protocol.major == s'.b.driver.hello.protocol.major
    ensures s'.a.driver.remote.value.limits == s'.b.driver.hello.limits
    ensures s'.b.driver.remote.value.limits == s'.a.driver.hello.limits
  {
    RunInv(s, moves, s');
    NegotiateSymmetric(s'.a.driver.hello.protocol, s'.b.driver.hello.protocol);
    NegotiatesLower(s'.a.driver.hello.protocol, s'.b.driver.hello.protocol);
    hide Run, Alone, Flowing, HelloFirst, Told, RanAsAsked;
  }

  /**
   No entry leaks and no call hangs. A pending entry has a waiting caller or a
   release queued; a waiting caller has a reply, an entry or a queued request;
   and once the driver is gone every waiting caller has a reply to take.
   */
  ghost predicate NobodyForgotten(p: Peer) {
    && NoLeak(p.desk.calls, p.commands, p.driver.pending)
    && Owed(p.desk.ids, p.desk.calls, p.commands, p.driver.pending, p.driver.replies)
    && (p.life.Dropped? ==> p.driver.pending == map[] && forall k :: InPhase(p.desk, k, false) ==> CanCall(p, TakeReply(k)))
  }

  lemma InvForgetsNobody(p: Peer)
    requires CallsInv(p)
    ensures NobodyForgotten(p)
  {
    if p.life.Dropped? {
      forall k | InPhase(p.desk, k, false) ensures CanCall(p, TakeReply(k)) {
        assert IsAwaiting(p.desk.calls, k);
      }
    }
  }

  lemma NoLeakNoHang(s: System, moves: seq<Move>, s': System)
    requires Run(s, moves, s')
    ensures NobodyForgotten(s'.a) && NobodyForgotten(s'.b)
  {
    RunInv(s, moves, s');
    hide Run, CallsInv, Linked, NobodyForgotten;
    InvForgetsNobody(s'.a);
    InvForgetsNobody(s'.b);
  }

  /** A reply given is never replaced, and a handler run on record is never rewritten, by any later step. */
  lemma SettledForGood(s: System, moves: seq<Move>, s': System, m: Move)
    requires Run(s, moves, s') && Enabled(s', m)
    ensures var n := Next(s', m);
            && RepliesKept(s'.a, n.a) && RepliesKept(s'.b, n.b)
            && Grows(s'.a.work, n.a.work) && Grows(s'.b.work, n.b.work)
  {
    hide Inv, Run, Next, Enabled, RepliesKept, Grows;
    RunInv(s, moves, s');
    NextInv(s', m);
  }
}
