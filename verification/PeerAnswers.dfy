/**
 Correlation: an outcome a caller is given is the outcome of the handler run on
 exactly that caller's method and params, whatever else was cancelled, timed out
 or lost on the way.
 */
module PeerAnswers {
  import opened Wrappers
  import opened Tokens
  import opened Frames
  import opened Session
  import opened SessionEffects
  import opened Peers
  import opened PeerTokens
  import opened PeerCalls
  import opened PeerHandshake

  /** What a run is answered with: its value if that fitted, else an error in its place; or its own error. */
  predicate Given(r: Result, o: Outcome) {
    match r.outcome
    case Ok(v) => o == if r.fits then Ok(v) else Failed(FrameTooLarge)
    case Failed(e) => o == Failed(e)
  }

  /** What `o` may be, for request `id`: the refusal on record, or the result on record. */
  predicate Truthful(work: Work, id: Id, o: Outcome) {
    || (id in work.denied && o == Failed(Refused(work.denied[id].why)))
    || (id in work.settled && Given(work.settled[id], o))
  }

  function AnswerIn(f: Frame): Outcome
    requires AnswerOf(f).Some?
  {
    if f.Res? then Ok(f.result) else Failed(f.error)
  }

  ghost predicate TruthfulFrames(work: Work, s: seq<Frame>) {
    forall f :: f in s && AnswerOf(f).Some? ==> Truthful(work, f.id, AnswerIn(f))
  }

  /** Handler runs are recorded once: nothing is forgotten, nothing rewritten. */
  ghost predicate Grows(w: Work, w': Work) {
    && (forall id :: id in w.ran ==> id in w'.ran && w'.ran[id] == w.ran[id])
    && (forall id :: id in w.settled ==> id in w'.settled && w'.settled[id] == w.settled[id])
    && (forall id :: id in w.denied ==> id in w'.denied && w'.denied[id] == w.denied[id])
    && w.cancels <= w'.cancels
  }

  /** Every run was of a request that met all the checks, every refusal for the first check failed, and none both. */
  ghost predicate Judged(work: Work) {
    && (forall id :: id in work.ran ==> Admissible(work.ran[id].at, id, work.ran[id].ask.name))
    && (forall id :: id in work.denied ==> FirstFailed(work.denied[id].at, id, work.denied[id].ask.name, work.denied[id].why))
    && work.ran.Keys !! work.denied.Keys
  }

  /** A settled run was started; an active one was started and has not settled. */
  ghost predicate WorkOrder(p: Peer) {
    && (forall id :: id in p.work.settled ==> id in p.work.ran)
    && (p.life.Opening? || p.life.Running? ==>
          forall id :: id in p.driver.tracking.active ==> id in p.work.ran && id !in p.work.settled)
  }

  /** The answers a responder sends are truthful. */
  ghost predicate AnswersInv(p: Peer) {
    WorkOrder(p) && Judged(p.work) && TruthfulFrames(p.work, p.link) && TruthfulFrames(p.work, p.driver.outbox)
  }

  /** The session has told its callers that it closed. */
  predicate Over(life: Life) {
    life.Draining? || life.Dropped?
  }

  ghost predicate TruthfulReplies(ids: nat -> Id, replies: map<nat, Reply>, work: Work, over: bool) {
    forall k :: k in replies && replies[k].Value? ==>
      Truthful(work, ids(k), replies[k].outcome) || (over && replies[k].outcome == Failed(Unavailable))
  }

  /**
   What a call may have returned: the peer's answer on record; a timeout of its
   own; an error found before its request was sent; or that the session closed.
   */
  predicate Explained(work: Work, id: Id, o: Outcome, withdrawn: bool, over: bool) {
    || Truthful(work, id, o)
    || o == Failed(TimedOut)
    || (withdrawn && o.Failed? && (o.error.FrameTooLarge? || o.error.Unencodable? || o.error.Unavailable?))
    || (over && o == Failed(Unavailable))
  }

  ghost predicate TruthfulReturns(ids: nat -> Id, calls: map<nat, Call>, work: Work, withdrawn: multiset<Id>, over: bool) {
    forall k :: k in calls && calls[k].phase.Returned? ==>
      Explained(work, ids(k), calls[k].phase.outcome, withdrawn[ids(k)] >= 1, over)
  }

  /** A reply channel was hung up only on a call that had left, or with the driver itself. */
  ghost predicate HungUp(calls: map<nat, Call>, replies: map<nat, Reply>, life: Life) {
    forall k :: k in replies && replies[k].Hung? ==> life.Dropped? || (k in calls && HasLeft(calls[k].phase))
  }

  /** What a requester's callers were told agrees with what the responder did. */
  ghost predicate Told(p: Peer, work: Work) {
    && TruthfulReplies(p.desk.ids, p.driver.replies, work, Over(p.life))
    && TruthfulReturns(p.desk.ids, p.desk.calls, work, p.ledger.withdrawn, Over(p.life))
    && HungUp(p.desk.calls, p.driver.replies, p.life)
  }

  /** Every request run or refused at the responder was asked, in those words, by the requester. */
  ghost predicate RanAsAsked(p: Peer, q: Peer) {
    && (forall id :: id in q.work.ran ==>
          id in p.desk.asked && p.desk.asked[id] == q.work.ran[id].ask && Serving(q, id) + p.ledger.consumed[id] >= 1)
    && (forall id :: id in q.work.denied ==>
          id in p.desk.asked && p.desk.asked[id] == q.work.denied[id].ask && Serving(q, id) + p.ledger.consumed[id] >= 1)
  }

  // ---------------------------------------------------------------------
  // Growing the record

  lemma GrowsFrames(w: Work, w': Work, s: seq<Frame>)
    requires Grows(w, w') && TruthfulFrames(w, s)
    ensures TruthfulFrames(w', s)
  {
  }

  lemma GrowsTold(p: Peer, w: Work, w': Work)
    requires Grows(w, w') && Told(p, w)
    ensures Told(p, w')
  {
  }

  // ---------------------------------------------------------------------
  // The responder's own steps

  lemma SettleAnswers(p: Peer, task: nat, outcome: Outcome, fits: bool)
    requires AnswersInv(p) && p.life.Running? && Tracked(p.driver.tracking, p.driver.maxInFlight)
    requires task in p.driver.tracking.tasks
    ensures var p' := DoSettle(p, task, outcome, fits); AnswersInv(p') && Grows(p.work, p'.work)
  {
    hide OnSettled, DoSettle, Untrack, Tracked, AnswerFrame, AnswerIn, Truthful, TruthfulFrames;
    var id := SettleShape(p, task, outcome, fits);
    var p' := DoSettle(p, task, outcome, fits);
    var f := AnswerFrame(id, Fitted(outcome, fits));
    GrowsFrames(p.work, p'.work, p.link);
    GrowsFrames(p.work, p'.work, p.driver.outbox);
    TruthfulAnswer(p'.work, p.driver.outbox, id, outcome, fits);
  }

  /** A joined handler, field by field: its outcome recorded, its request no longer active, its answer enqueued. */
  lemma SettleShape(p: Peer, task: nat, outcome: Outcome, fits: bool) returns (id: Id)
    requires Tracked(p.driver.tracking, p.driver.maxInFlight) && task in p.driver.tracking.tasks
    ensures var p' := DoSettle(p, task, outcome, fits);
            && id in p.driver.tracking.active
            && p'.work == p.work.(settled := p.work.settled[id := Result(outcome, fits)])
            && p'.driver.outbox == p.driver.outbox + [AnswerFrame(id, Fitted(outcome, fits))]
            && p'.link == p.link && p'.life == p.life
            && p'.driver.tracking.active.Keys == p.driver.tracking.active.Keys - {id}
  {
    id := p.driver.tracking.byTask[task];
    UntrackKeeps(p.driver.tracking, p.driver.maxInFlight, task);
    hide Tracked, AnswerFrame, Fitted;
  }

  lemma TruthfulAnswer(work: Work, s: seq<Frame>, id: Id, outcome: Outcome, fits: bool)
    requires TruthfulFrames(work, s) && id in work.settled && work.settled[id] == Result(outcome, fits)
    ensures TruthfulFrames(work, s + [AnswerFrame(id, Fitted(outcome, fits))])
  {
    var f := AnswerFrame(id, Fitted(outcome, fits));
    assert Truthful(work, id, AnswerIn(f));
  }

  /** A step that leaves the record alone, and sends at most a frame that answers nothing. */
  lemma QuietAnswers(p: Peer, p': Peer, f: Frame)
    requires AnswersInv(p) && p'.work == p.work
    requires p'.link == p.link && Adds(p.driver, p'.driver, f) && AnswerOf(f) == None
    requires p'.life.Opening? || p'.life.Running? ==>
        (p.life.Opening? || p.life.Running?) && p'.driver.tracking.active.Keys == p.driver.tracking.active.Keys
    ensures AnswersInv(p')
  {
  }

  lemma OpenAnswers(p: Peer, sent: bool)
    requires AnswersInv(p) && p.life.Opening?
    ensures AnswersInv(DoOpen(p, sent)) && DoOpen(p, sent).work == p.work
  {
    hide Truthful;
  }

  lemma TakeCommandAnswers(p: Peer)
    requires AnswersInv(p) && p.life.Running? && SendsOnly(p.commands) && p.commands != []
    ensures AnswersInv(DoTakeCommand(p)) && DoTakeCommand(p).work == p.work
  {
    CommandAdds(p.driver, p.commands[0]);
    TakeCommandFlow(p, p.desk.ids(0));
    hide AnswersInv, SendsOnly, OnCommand, SameFlow;
    QuietAnswers(p, DoTakeCommand(p), Added(p.driver, OnCommand(p.driver, p.commands[0]).0));
  }

  lemma LoopsAnswers(p: Peer, l: LoopStep)
    requires CanLoop(p, l) && AnswersInv(p) && TrackedWhileRunning(p) && SendsOnly(p.commands)
    ensures AnswersInv(Loops(p, l)) && Grows(p.work, Loops(p, l).work)
  {
    hide AnswersInv, SendsOnly, Tracked, DoSettle, DoTakeCommand, DoOpen;
    match l
    case Settle(task, outcome, fits) => SettleAnswers(p, task, outcome, fits);
    case TakeCommand => TakeCommandAnswers(p);
    case Open(sent) => OpenAnswers(p, sent);
    case _ => QuietAnswers(p, Loops(p, l), Ping);
  }

  lemma WritesAnswers(p: Peer, w: WriterStep)
    requires CanWrite(p, w) && AnswersInv(p)
    ensures AnswersInv(Writes(p, w)) && Writes(p, w).work == p.work
  {
    hide FailedReplies, HungReplies, Truthful;
  }

  lemma ActAnswers(p: Peer, a: Action)
    requires Can(p, a) && AnswersInv(p) && Sound(p)
    ensures AnswersInv(Act(p, a)) && Grows(p.work, Act(p, a).work)
  {
    hide Calls, Loops, Writes, DeskOrder, SendsOnly, Tracked, Truthful;
    match a
    case Caller(c) =>
      CallsFrame(p, c);
    case Loop(l) => LoopsAnswers(p, l);
    case Writer(w) => WritesAnswers(p, w);
  }

  /** A frame arrives: a run may start, under an id never run before. */
  lemma AcceptAnswers(p: Peer, f: Frame, task: nat)
    requires p.life.Running? && AnswersInv(p) && TrackedWhileRunning(p) && task !in p.driver.tracking.tasks
    requires f.Req? && Route(p.driver, f.id, f.name) == None && f.id !in p.work.ran && f.id !in p.work.denied
    ensures var p' := Receive(p, f, task); AnswersInv(p') && Grows(p.work, p'.work)
  {
    hide Receive, Route, Tracked, TruthfulFrames, Admissible, FirstFailed;
    RouteChecks(p.driver, f.id, f.name);
    AcceptShape(p, f, task);
    var p' := Receive(p, f, task);
    GrowsFrames(p.work, p'.work, p.link);
    GrowsFrames(p.work, p'.work, p.driver.outbox);
  }

  /** An accepted request, field by field: its run recorded, its id active. */
  lemma AcceptShape(p: Peer, f: Frame, task: nat)
    requires f.Req? && Route(p.driver, f.id, f.name) == None
    ensures var p' := Receive(p, f, task);
            && p'.driver.outbox == p.driver.outbox && p'.link == p.link && p'.life == p.life
            && p'.driver.tracking.active == p.driver.tracking.active[f.id := ActiveRequest(f.name, false)]
            && p'.work == p.work.(ran := p.work.ran[f.id := Admission(Ask(f.name, f.params), p.driver)])
  {
    hide Route;
  }

  /** A refused request, field by field: its refusal recorded and enqueued. */
  lemma DenyShape(p: Peer, f: Frame, task: nat)
    requires f.Req? && Route(p.driver, f.id, f.name).Some?
    ensures var p' := Receive(p, f, task); var why := Route(p.driver, f.id, f.name).value;
            && p'.driver.outbox == p.driver.outbox + [Err(f.id, Refused(why))] && p'.link == p.link && p'.life == p.life
            && p'.driver.tracking == p.driver.tracking
            && p'.work == p.work.(denied := p.work.denied[f.id := Denial(why, Ask(f.name, f.params), p.driver)])
  {
    hide Route;
  }

  lemma DenyAnswers(p: Peer, f: Frame, task: nat)
    requires p.life.Running? && AnswersInv(p)
    requires f.Req? && Route(p.driver, f.id, f.name).Some? && f.id !in p.work.ran && f.id !in p.work.denied
    ensures var p' := Receive(p, f, task); AnswersInv(p') && Grows(p.work, p'.work)
  {
    hide Receive, Route, TruthfulFrames, Admissible, FirstFailed;
    RouteChecks(p.driver, f.id, f.name);
    DenyShape(p, f, task);
    var p' := Receive(p, f, task);
    GrowsFrames(p.work, p'.work, p.link);
    GrowsFrames(p.work, p'.work, p.driver.outbox);
    TruthfulRefusal(p'.work, p.driver.outbox, f.id, Route(p.driver, f.id, f.name).value);
  }

  lemma TruthfulRefusal(work: Work, s: seq<Frame>, id: Id, why: Refusal)
    requires TruthfulFrames(work, s) && id in work.denied && work.denied[id].why == why
    ensures TruthfulFrames(work, s + [Err(id, Refused(why))])
  {
    var f := Err(id, Refused(why));
    assert Truthful(work, id, AnswerIn(f));
  }

  /** Any other frame answers nothing and leaves the record of runs and refusals alone. */
  lemma OtherShape(p: Peer, f: Frame, task: nat)
    requires !f.Req?
    ensures var p' := Receive(p, f, task);
            && (p'.driver.outbox == p.driver.outbox || p'.driver.outbox == p.driver.outbox + [Pong])
            && p'.link == p.link && (p'.life.Running? || p'.life.Opening? ==> p'.life == p.life)
            && p'.driver.tracking.active.Keys == p.driver.tracking.active.Keys
            && p'.work == p.work.(cancels := p'.work.cancels) && p.work.cancels <= p'.work.cancels
  {
    OtherFrame(p.driver, f, task);
    hide OnFrame, Route;
  }

  lemma OtherFrame(d: Driver, f: Frame, task: nat)
    requires !f.Req?
    ensures var d' := OnFrame(d, f, task).0;
            && (d'.outbox == d.outbox || d'.outbox == d.outbox + [Pong])
            && d'.tracking.active.Keys == d.tracking.active.Keys
  {
  }

  lemma OtherAnswers(p: Peer, f: Frame, task: nat)
    requires p.life.Running? && AnswersInv(p) && !f.Req?
    ensures var p' := Receive(p, f, task); AnswersInv(p') && Grows(p.work, p'.work)
  {
    hide Receive, TruthfulFrames, Admissible, FirstFailed;
    OtherShape(p, f, task);
    var p' := Receive(p, f, task);
    GrowsFrames(p.work, p'.work, p.link);
    GrowsFrames(p.work, p'.work, p.driver.outbox);
    PongAnswersNothing(p'.work, p.driver.outbox);
  }

  lemma PongAnswersNothing(work: Work, s: seq<Frame>)
    requires TruthfulFrames(work, s)
    ensures TruthfulFrames(work, s + [Pong])
  {
    hide Truthful;
  }

  lemma ReceiveAnswers(p: Peer, f: Frame, task: nat)
    requires p.life.Running? && AnswersInv(p) && TrackedWhileRunning(p) && task !in p.driver.tracking.tasks
    requires f.Req? ==> f.id !in p.work.ran && f.id !in p.work.denied
    ensures var p' := Receive(p, f, task); AnswersInv(p') && Grows(p.work, p'.work)
  {
    hide Receive, AnswersInv, Tracked, Route;
    if !f.Req? {
      OtherAnswers(p, f, task);
    } else if Route(p.driver, f.id, f.name) == None {
      AcceptAnswers(p, f, task);
    } else {
      DenyAnswers(p, f, task);
    }
  }

  // ---------------------------------------------------------------------
  // What callers are told

  lemma PhaseTold(desk: Desk, k: nat, phase: Phase, work: Work, withdrawn: multiset<Id>, over: bool)
    requires k in desk.calls && TruthfulReturns(desk.ids, desk.calls, work, withdrawn, over)
    requires phase.Returned? ==> Explained(work, desk.ids(k), phase.outcome, withdrawn[desk.ids(k)] >= 1, over)
    ensures TruthfulReturns(desk.ids, WithPhase(desk, k, phase).calls, work, withdrawn, over)
  {
    hide Explained;
  }

  lemma MoreWithdrawn(desk: Desk, work: Work, withdrawn: multiset<Id>, id: Id, over: bool)
    requires TruthfulReturns(desk.ids, desk.calls, work, withdrawn, over)
    ensures TruthfulReturns(desk.ids, desk.calls, work, Add(withdrawn, Some(id)), over)
  {
    hide Truthful;
  }

  /** A call that takes its reply returns what the reply says; one hung up says the session closed. */
  lemma ReplyExplained(p: Peer, k: nat, work: Work)
    requires Told(p, work) && InPhase(p.desk, k, false) && k in p.driver.replies
    ensures Explained(work, p.desk.ids(k), ReplyOutcome(p.driver.replies[k]), p.ledger.withdrawn[p.desk.ids(k)] >= 1, Over(p.life))
  {
    hide Truthful;
  }

  lemma WithdrawTold(p: Peer, k: nat, error: RemoteError, work: Work)
    requires CanCall(p, Withdraw(k, error)) && Told(p, work)
    ensures var p' := Calls(p, Withdraw(k, error));
            TruthfulReturns(p.desk.ids, p'.desk.calls, work, p'.ledger.withdrawn, Over(p.life)) && p'.desk.ids == p.desk.ids
  {
    hide Truthful, TruthfulReturns;
    var id := p.desk.ids(k);
    MoreWithdrawn(p.desk, work, p.ledger.withdrawn, id, Over(p.life));
    PhaseTold(p.desk, k, Returned(Failed(error)), work, Add(p.ledger.withdrawn, Some(id)), Over(p.life));
  }

  lemma CallsReturns(p: Peer, c: CallerStep, work: Work)
    requires CanCall(p, c) && Told(p, work)
    ensures var p' := Calls(p, c);
            TruthfulReturns(p.desk.ids, p'.desk.calls, work, p'.ledger.withdrawn, Over(p.life)) && p'.desk.ids == p.desk.ids
  {
    hide TruthfulReturns, TruthfulReplies, HungUp, Truthful;
    var w, over := p.ledger.withdrawn, Over(p.life);
    match c
    case Submit(k) => PhaseTold(p.desk, k, Awaiting(false), work, w, over);
    case Withdraw(k, error) => WithdrawTold(p, k, error, work);
    case UserCancel(k) => PhaseTold(p.desk, k, Awaiting(true), work, w, over);
    case Timeout(k) => PhaseTold(p.desk, k, Returned(Failed(TimedOut)), work, w, over);
    case Abandon(k) => PhaseTold(p.desk, k, Abandoned, work, w, over);
    case TakeReply(k) =>
      ReplyExplained(p, k, work);
      PhaseTold(p.desk, k, Returned(ReplyOutcome(p.driver.replies[k])), work, w, over);
    case Start(ask) => StartTold(p, ask, work, w, over);
    case Post(_) =>
  }

  lemma StartTold(p: Peer, ask: Ask, work: Work, withdrawn: multiset<Id>, over: bool)
    requires TruthfulReturns(p.desk.ids, p.desk.calls, work, withdrawn, over)
    ensures TruthfulReturns(p.desk.ids, DoStart(p, ask).desk.calls, work, withdrawn, over)
  {
    hide Explained;
  }

  lemma CallsTold(p: Peer, c: CallerStep, work: Work)
    requires CanCall(p, c) && Told(p, work) && DeskOrder(p.desk)
    ensures Told(Calls(p, c), work)
  {
    hide Calls, CanCall, TruthfulReturns, TruthfulReplies, DeskOrder;
    CallsLater(p, c);
    CallsFrame(p, c);
    CallsReturns(p, c, work);
  }

  /** Calls that have left stay left. */
  ghost predicate StayLeft(calls: map<nat, Call>, calls': map<nat, Call>) {
    forall k :: k in calls && HasLeft(calls[k].phase) ==> k in calls' && HasLeft(calls'[k].phase)
  }

  lemma PhaseLater(desk: Desk, k: nat, phase: Phase)
    requires k in desk.calls && (HasLeft(desk.calls[k].phase) ==> HasLeft(phase))
    ensures StayLeft(desk.calls, WithPhase(desk, k, phase).calls)
  {
  }

  lemma CallsLater(p: Peer, c: CallerStep)
    requires CanCall(p, c) && DeskOrder(p.desk)
    ensures StayLeft(p.desk.calls, Calls(p, c).desk.calls)
  {
    hide DeskOrder, StayLeft;
    match c
    case Start(ask) => StartStays(p.desk, ask);
    case Submit(k) => PhaseLater(p.desk, k, Awaiting(false));
    case Withdraw(k, error) => PhaseLater(p.desk, k, Returned(Failed(error)));
    case UserCancel(k) => PhaseLater(p.desk, k, Awaiting(true));
    case Timeout(k) => PhaseLater(p.desk, k, Returned(Failed(TimedOut)));
    case Abandon(k) => PhaseLater(p.desk, k, Abandoned);
    case TakeReply(k) => PhaseLater(p.desk, k, Returned(ReplyOutcome(p.driver.replies[k])));
    case Post(_) => SameStays(p.desk.calls);
  }

  lemma StartStays(desk: Desk, ask: Ask)
    requires DeskOrder(desk)
    ensures StayLeft(desk.calls, desk.calls[desk.sequence + 1 := Call(ask, Drafting)])
  {
  }

  lemma SameStays(calls: map<nat, Call>)
    ensures StayLeft(calls, calls)
  {
  }

  /** What a step may add to the replies: that the session closed, once it has. */
  ghost predicate OnlyUnavailable(p: Peer, p': Peer) {
    && p'.desk == p.desk && p'.ledger.withdrawn == p.ledger.withdrawn && (Over(p.life) ==> Over(p'.life))
    && (forall k :: k in p'.driver.replies && p'.driver.replies[k].Value? ==>
          || (Over(p'.life) && p'.driver.replies[k].outcome == Failed(Unavailable))
          || (k in p.driver.replies && p'.driver.replies[k] == p.driver.replies[k]))
    && HungUp(p'.desk.calls, p'.driver.replies, p'.life)
  }

  lemma UnavailableTold(p: Peer, p': Peer, work: Work)
    requires Told(p, work) && OnlyUnavailable(p, p')
    ensures Told(p', work)
  {
    hide Truthful;
  }

  lemma LoopsOnlyUnavailable(p: Peer, l: LoopStep)
    requires CanLoop(p, l) && HungUp(p.desk.calls, p.driver.replies, p.life) && CallsInv(p) && DeskOrder(p.desk)
    ensures OnlyUnavailable(p, Loops(p, l))
  {
    LoopsWithdrawn(p, l);
    if l.TakeCommand? {
      TakeHungUp(p);
      hide DoTakeCommand, CallsInv, DeskOrder;
    } else {
      QuietLoop(p, l);
      hide Loops, CallsInv, DeskOrder;
    }
  }

  lemma LoopsWithdrawn(p: Peer, l: LoopStep)
    requires CanLoop(p, l)
    ensures Loops(p, l).ledger.withdrawn == p.ledger.withdrawn && Loops(p, l).desk == p.desk
    ensures Over(p.life) ==> Loops(p, l).life == p.life
    ensures p.life.Dropped? ==> Loops(p, l).life.Dropped?
  {
    hide OnCommand, OnSettled, OnTick;
  }

  /** A release in the queue is for a call that has left. */
  lemma ReleasedHasLeft(p: Peer, id: Id)
    requires CallsInv(p) && DeskOrder(p.desk) && CancelRequest(id, false) in p.commands && id in p.driver.pending
    ensures var k := p.driver.pending[id].reply; k in p.desk.calls && HasLeft(p.desk.calls[k].phase)
  {
    hide Owed, NoLeak, NoLeakQueued, GenuineReplies;
    assert Genuine(p.desk.ids, p.desk.calls, CancelRequest(id, false));
  }

  /** What a command does to the replies: it may hang up the one it releases. */
  lemma CommandReplies(p: Peer)
    requires p.life.Running? && p.commands != []
    ensures var c := p.commands[0]; var p' := DoTakeCommand(p);
            && p'.desk == p.desk && !p'.life.Dropped?
            && p'.driver.replies ==
               if c.CancelRequest? && !c.forget && c.id in p.driver.pending
               then p.driver.replies[p.driver.pending[c.id].reply := Hung] else p.driver.replies
  {
  }

  /** A command hangs up a reply only for a call that has left. */
  lemma TakeHungUp(p: Peer)
    requires p.life.Running? && p.commands != [] && HungUp(p.desk.calls, p.driver.replies, p.life) && CallsInv(p) && DeskOrder(p.desk)
    ensures var p' := DoTakeCommand(p);
            && (forall k :: k in p'.driver.replies && p'.driver.replies[k].Value? ==>
                  k in p.driver.replies && p'.driver.replies[k] == p.driver.replies[k])
            && HungUp(p'.desk.calls, p'.driver.replies, p'.life)
  {
    hide CallsInv, DeskOrder, DoTakeCommand;
    var c := p.commands[0];
    CommandReplies(p);
    if c.CancelRequest? && !c.forget && c.id in p.driver.pending {
      assert c == CancelRequest(c.id, false);
      ReleasedHasLeft(p, c.id);
    }
  }

  lemma {:induction false} HungOnly(commands: seq<Command>, replies: map<nat, Reply>, k: nat)
    requires k in HungReplies(commands, replies) && HungReplies(commands, replies)[k].Value?
    ensures k in replies && HungReplies(commands, replies)[k] == replies[k]
  {
    if commands != [] {
      HungOnly(commands[1..], replies, k);
    }
  }

  lemma WritesOnlyUnavailable(p: Peer, w: WriterStep)
    requires CanWrite(p, w) && HungUp(p.desk.calls, p.driver.replies, p.life)
    ensures OnlyUnavailable(p, Writes(p, w))
  {
    match w
    case Drop => DropOnlyUnavailable(p);
    case Flush(farewell) => FlushOnlyUnavailable(p, farewell);
    case _ =>
  }

  lemma DropOnlyUnavailable(p: Peer)
    requires p.life.Draining?
    ensures OnlyUnavailable(p, DoDrop(p))
  {
    hide HungReplies, Tally;
    forall k | k in DoDrop(p).driver.replies && DoDrop(p).driver.replies[k].Value?
      ensures k in p.driver.replies && DoDrop(p).driver.replies[k] == p.driver.replies[k]
    {
      HungOnly(p.commands, p.driver.replies, k);
    }
  }

  lemma FlushOnlyUnavailable(p: Peer, farewell: bool)
    requires p.life.Flushing? && HungUp(p.desk.calls, p.driver.replies, p.life)
    ensures OnlyUnavailable(p, DoFlush(p, farewell))
  {
    hide Channels;
  }

  lemma ActTold(p: Peer, a: Action, work: Work)
    requires Can(p, a) && Told(p, work) && CallsInv(p) && DeskOrder(p.desk)
    ensures Told(Act(p, a), work)
  {
    hide Calls, Loops, Writes, TruthfulReplies, TruthfulReturns, OnlyUnavailable, CallsInv, DeskOrder;
    match a
    case Caller(c) => CallsTold(p, c, work);
    case Loop(l) =>
      LoopsOnlyUnavailable(p, l);
      UnavailableTold(p, Loops(p, l), work);
    case Writer(w) =>
      WritesOnlyUnavailable(p, w);
      UnavailableTold(p, Writes(p, w), work);
  }

  /** Receiving, as far as replies go: an answer to a pending call is its reply, and nothing else changes one. */
  lemma ReplyShape(p: Peer, f: Frame, task: nat)
    requires p.life.Running?
    ensures var p' := Receive(p, f, task);
            && p'.desk == p.desk && p'.ledger.withdrawn == p.ledger.withdrawn && !p'.life.Dropped? && !Over(p'.life)
            && p'.driver.replies ==
               if AnswerOf(f).Some? && f.id in p.driver.pending
               then p.driver.replies[p.driver.pending[f.id].reply := Value(AnswerIn(f))] else p.driver.replies
  {
    hide Route;
  }

  lemma ReceiveTold(p: Peer, f: Frame, task: nat, work: Work)
    requires Told(p, work) && p.life.Running?
    requires AnswerOf(f).Some? ==> Truthful(work, f.id, AnswerIn(f))
    requires AnswerOf(f).Some? && f.id in p.driver.pending ==> p.desk.ids(p.driver.pending[f.id].reply) == f.id
    ensures Told(Receive(p, f, task), work)
  {
    ReplyShape(p, f, task);
    hide Receive, Truthful, AnswerIn;
  }
}
