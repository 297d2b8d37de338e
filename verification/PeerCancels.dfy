/**
 Cancellation from end to end. A cancel never overtakes its request, so a
 request active at the responder is marked cancelled exactly when its cancel has
 been delivered; and a cancel a caller asked for is on its way, delivered, or
 lost with the session.
 */
module PeerCancels {
  import opened Wrappers
  import opened Frames
  import opened Session
  import opened SessionEffects
  import opened Peers
  import opened PeerTokens
  import opened PeerHandshake
  import opened PeerTheorems

  // ---------------------------------------------------------------------
  // The trail of requests and cancels on their way out

  datatype Mark = Asks(id: Id) | Cancels(id: Id)

  function FrameMark(f: Frame): seq<Mark> {
    match f
    case Req(id, _, _) => [Asks(id)]
    case Cancel(id) => [Cancels(id)]
    case _ => []
  }

  function CommandMark(c: Command): seq<Mark> {
    match c
    case Request(id, _, _, _) => [Asks(id)]
    case CancelRequest(id, _) => [Cancels(id)]
    case Send(f) => FrameMark(f)
    case CloseSession(_) => []
  }

  function OnFrames(s: seq<Frame>): seq<Mark> {
    if s == [] then [] else FrameMark(s[0]) + OnFrames(s[1..])
  }

  function OnCommands(s: seq<Command>): seq<Mark> {
    if s == [] then [] else CommandMark(s[0]) + OnCommands(s[1..])
  }

  /** Oldest first: on the link, waiting to be written, and queued for the driver. */
  function Trail(p: Peer): seq<Mark> {
    OnFrames(p.link) + OnFrames(p.driver.outbox) + OnCommands(p.commands)
  }

  /** No request behind its own cancel. */
  predicate Ordered(t: seq<Mark>) {
    forall i, j :: 0 <= i < j < |t| && t[i].Cancels? ==> t[j] != Asks(t[i].id)
  }

  /** The id was handed out and its call is past drafting. */
  predicate Away(desk: Desk, id: Id) {
    id in desk.asked && id !in desk.drafts
  }

  /** A call whose user cancelled it, or that was abandoned. */
  predicate LetGo(phase: Phase) {
    phase == Awaiting(true) || phase.Abandoned?
  }

  ghost predicate Trailing(p: Peer) {
    Ordered(Trail(p)) && forall id :: Cancels(id) in Trail(p) ==> Away(p.desk, id)
  }

  /** A delivered cancel is of a request that is not on its way any more. */
  ghost predicate NeverOvertaken(desk: Desk, t: seq<Mark>, cancels: set<Id>) {
    forall id :: id in cancels ==> Away(desk, id) && Asks(id) !in t
  }

  /** An active request is marked just when its cancel was delivered. */
  ghost predicate MarkedExactly(active: map<Id, ActiveRequest>, cancels: set<Id>) {
    forall id :: id in active ==> (active[id].cancelled <==> id in cancels)
  }

  /** The cancel of a call let go is on its way, delivered, or lost with the session. */
  ghost predicate OnItsWay(p: Peer, cancels: set<Id>) {
    forall k :: k in p.desk.calls && LetGo(p.desk.calls[k].phase) ==>
      Cancels(p.desk.ids(k)) in Trail(p) || p.desk.ids(k) in cancels || p.sendFailed || p.life.Dropped?
  }

  ghost predicate CancelInv(p: Peer, q: Peer) {
    && Trailing(p)
    && NeverOvertaken(p.desk, Trail(p), q.work.cancels)
    && MarkedExactly(q.driver.tracking.active, q.work.cancels)
    && OnItsWay(p, q.work.cancels)
  }

  // ---------------------------------------------------------------------
  // Trails

  lemma {:induction false} FramesConcat(a: seq<Frame>, b: seq<Frame>)
    ensures OnFrames(a + b) == OnFrames(a) + OnFrames(b)
  {
    hide FrameMark;
    if a == [] {
      assert a + b == b;
    } else {
      assert (a + b)[1..] == a[1..] + b;
      FramesConcat(a[1..], b);
      Regroup(FrameMark(a[0]), OnFrames(a[1..]), OnFrames(b));
    }
  }

  lemma {:induction false} CommandsConcat(a: seq<Command>, b: seq<Command>)
    ensures OnCommands(a + b) == OnCommands(a) + OnCommands(b)
  {
    hide CommandMark;
    if a == [] {
      assert a + b == b;
    } else {
      assert (a + b)[1..] == a[1..] + b;
      CommandsConcat(a[1..], b);
      Regroup(CommandMark(a[0]), OnCommands(a[1..]), OnCommands(b));
    }
  }

  lemma FramesMore(s: seq<Frame>, f: Frame)
    ensures OnFrames(s + [f]) == OnFrames(s) + FrameMark(f)
  {
    FramesConcat(s, [f]);
    assert [f][1..] == [] && FrameMark(f) + [] == FrameMark(f);
  }

  lemma CommandsMore(s: seq<Command>, c: Command)
    ensures OnCommands(s + [c]) == OnCommands(s) + CommandMark(c)
  {
    CommandsConcat(s, [c]);
    assert [c][1..] == [] && CommandMark(c) + [] == CommandMark(c);
  }

  /** Taking a stretch out leaves what is left in order. */
  lemma OrderedWithout(a: seq<Mark>, b: seq<Mark>, c: seq<Mark>)
    requires Ordered(a + b + c)
    ensures Ordered(a + c)
  {
    var t, u := a + b + c, a + c;
    forall i, j | 0 <= i < j < |u| && u[i].Cancels? ensures u[j] != Asks(u[i].id) {
      var i', j' := if i < |a| then i else i + |b|, if j < |a| then j else j + |b|;
      assert t[i'] == u[i] && t[j'] == u[j];
    }
  }

  lemma OrderedMore(t: seq<Mark>, m: Mark)
    requires Ordered(t) && (m.Asks? ==> Cancels(m.id) !in t)
    ensures Ordered(t + [m])
  {
    var u := t + [m];
    forall i, j | 0 <= i < j < |u| && u[i].Cancels? ensures u[j] != Asks(u[i].id) {
      assert u[i] == t[i];
      assert u[i] in t;
    }
  }

  // ---------------------------------------------------------------------
  // What a step does to its own trail

  lemma SameParts(p: Peer, p': Peer)
    requires OnFrames(p'.link) == OnFrames(p.link) && OnFrames(p'.driver.outbox) == OnFrames(p.driver.outbox)
    requires OnCommands(p'.commands) == OnCommands(p.commands)
    ensures Trail(p') == Trail(p)
  {
  }

  lemma PostTrail(p: Peer, p': Peer, c: Command)
    requires p'.link == p.link && p'.driver.outbox == p.driver.outbox && p'.commands == p.commands + [c]
    ensures Trail(p') == Trail(p) + CommandMark(c)
  {
    CommandsMore(p.commands, c);
    Regroup(OnFrames(p.link) + OnFrames(p.driver.outbox), OnCommands(p.commands), CommandMark(c));
    hide OnFrames, OnCommands, CommandMark;
  }

  /** A command leaves the queue and its frame joins the outbox: the trail is the same. */
  lemma TakeTrail(p: Peer)
    requires p.commands != []
    ensures Trail(DoTakeCommand(p)) == Trail(p)
  {
    hide OnFrames;
    var c, d' := p.commands[0], OnCommand(p.driver, p.commands[0]).0;
    TakenFrame(p.driver, c);
    var l, o, rest := OnFrames(p.link), OnFrames(p.driver.outbox), OnCommands(p.commands[1..]);
    assert OnCommands(p.commands) == CommandMark(c) + rest;
    hide OnCommand, OnCommands, CommandMark;
    Regroup(l, o, CommandMark(c));
    Regroup(l + o, CommandMark(c), rest);
  }

  lemma TakenFrame(d: Driver, c: Command)
    ensures OnFrames(OnCommand(d, c).0.outbox) == OnFrames(d.outbox) + CommandMark(c)
  {
    hide OnFrames;
    match c
    case Request(id, name, params, _) => FramesMore(d.outbox, Req(id, name, params));
    case CancelRequest(id, _) => FramesMore(d.outbox, Cancel(id));
    case Send(f) => FramesMore(d.outbox, f);
    case CloseSession(_) => assert OnFrames(d.outbox) + [] == OnFrames(d.outbox);
  }

  /** Frames that neither ask nor cancel leave no mark. */
  lemma UnmarkedMore(s: seq<Frame>, f: Frame)
    requires !f.Req? && !f.Cancel?
    ensures OnFrames(s + [f]) == OnFrames(s)
  {
    FramesMore(s, f);
    assert OnFrames(s) + [] == OnFrames(s);
  }

  lemma SettleTrail(p: Peer, task: nat, outcome: Outcome, fits: bool)
    ensures Trail(DoSettle(p, task, outcome, fits)) == Trail(p)
  {
    SettledAdds(p.driver, task, outcome, fits);
    var d' := OnSettled(p.driver, task, outcome, fits);
    var f := Added(p.driver, d');
    if d'.outbox != p.driver.outbox {
      assert !f.Cancel?;
      UnmarkedMore(p.driver.outbox, f);
    }
    hide OnFrames, OnCommands, OnSettled;
  }

  lemma LoopsTrail(p: Peer, l: LoopStep)
    requires CanLoop(p, l) && (p.life.Opening? ==> p.link == [])
    ensures Trail(Loops(p, l)) == Trail(p)
  {
    hide OnCommands, DoTakeCommand, DoSettle;
    match l
    case TakeCommand => TakeTrail(p);
    case Settle(task, outcome, fits) => SettleTrail(p, task, outcome, fits);
    case LivenessTick => UnmarkedMore(p.driver.outbox, Ping);
    case Open(_) => assert [HelloFrame(p.driver.hello)][1..] == [];
    case _ =>
  }

  // ---------------------------------------------------------------------
  // The requester acts

  /** What a caller's step adds to the trail. */
  function CallMark(p: Peer, c: CallerStep): seq<Mark> {
    match c
    case Submit(k) => [Asks(p.desk.ids(k))]
    case UserCancel(k) => if p.life.Dropped? then [] else [Cancels(p.desk.ids(k))]
    case Timeout(k) => if p.life.Dropped? then [] else [Cancels(p.desk.ids(k))]
    case Abandon(k) => if p.life.Dropped? then [] else [Cancels(p.desk.ids(k))]
    case _ => []
  }

  lemma CallsTrail(p: Peer, c: CallerStep)
    requires CanCall(p, c)
    ensures Trail(Calls(p, c)) == Trail(p) + CallMark(p, c)
  {
    CallsFrame(p, c);
    var p' := Calls(p, c);
    hide OnFrames, OnCommands;
    if p'.commands == p.commands {
      assert Trail(p) + [] == Trail(p);
    } else {
      var last := p'.commands[|p.commands|];
      assert p'.commands == p.commands + [last] && CommandMark(last) == CallMark(p, c);
      hide Calls, Trail, CommandMark, CallMark;
      PostTrail(p, p', last);
    }
  }

  /** Ids already away stay away, and a call let go has its id away. */
  lemma CallsAway(p: Peer, c: CallerStep)
    requires CanCall(p, c) && DeskOrder(p.desk)
    ensures forall id :: Away(p.desk, id) ==> Away(Calls(p, c).desk, id)
    ensures forall m :: m in CallMark(p, c) && m.Cancels? ==> Away(Calls(p, c).desk, m.id)
    ensures forall m :: m in CallMark(p, c) && m.Asks? ==> !Away(p.desk, m.id)
  {
    hide HasCall;
    if c.Start? {
      NewId(p.desk);
    }
  }

  lemma CallsLetGo(p: Peer, c: CallerStep)
    requires CanCall(p, c) && DeskOrder(p.desk)
    ensures Calls(p, c).desk.ids == p.desk.ids && Calls(p, c).sendFailed == p.sendFailed && Calls(p, c).life == p.life
    ensures forall k :: k in Calls(p, c).desk.calls && LetGo(Calls(p, c).desk.calls[k].phase) ==>
              || (k in p.desk.calls && LetGo(p.desk.calls[k].phase))
              || Cancels(p.desk.ids(k)) in CallMark(p, c) || p.life.Dropped?
  {
    hide DeskOrder;
    CallsFrame(p, c);
  }

  /** A step that adds marks in order, or none, and leaves ids away keeps the requester's half. */
  lemma MoreKeeps(p: Peer, p': Peer, more: seq<Mark>, cancels: set<Id>)
    requires Trailing(p) && NeverOvertaken(p.desk, Trail(p), cancels) && OnItsWay(p, cancels)
    requires Trail(p') == Trail(p) + more && |more| <= 1
    requires forall id :: Away(p.desk, id) ==> Away(p'.desk, id)
    requires forall m :: m in more && m.Cancels? ==> Away(p'.desk, m.id)
    requires forall m :: m in more && m.Asks? ==> !Away(p.desk, m.id)
    requires p'.desk.ids == p.desk.ids && p'.sendFailed == p.sendFailed && (p.life.Dropped? ==> p'.life.Dropped?)
    requires forall k :: k in p'.desk.calls && LetGo(p'.desk.calls[k].phase) ==>
               || (k in p.desk.calls && LetGo(p.desk.calls[k].phase))
               || Cancels(p.desk.ids(k)) in more || p.life.Dropped?
    ensures Trailing(p') && NeverOvertaken(p'.desk, Trail(p'), cancels) && OnItsWay(p', cancels)
  {
    hide Trail, Away, LetGo;
    if more == [] {
      assert Trail(p') == Trail(p);
    } else {
      assert more == [more[0]] && more[0] in more;
      hide Ordered;
      OrderedMore(Trail(p), more[0]);
    }
  }

  lemma CallsKeepTrail(p: Peer, c: CallerStep, cancels: set<Id>)
    requires CanCall(p, c) && DeskOrder(p.desk)
    requires Trailing(p) && NeverOvertaken(p.desk, Trail(p), cancels) && OnItsWay(p, cancels)
    ensures var p' := Calls(p, c); Trailing(p') && NeverOvertaken(p'.desk, Trail(p'), cancels) && OnItsWay(p', cancels)
  {
    CallsTrail(p, c);
    CallsAway(p, c);
    CallsLetGo(p, c);
    hide Calls, CanCall, DeskOrder, Trail, Trailing, NeverOvertaken, OnItsWay, Away, LetGo;
    MoreKeeps(p, Calls(p, c), CallMark(p, c), cancels);
  }

  lemma LoopsKeepTrail(p: Peer, l: LoopStep, cancels: set<Id>)
    requires CanLoop(p, l) && (p.life.Opening? ==> p.link == [])
    requires Trailing(p) && NeverOvertaken(p.desk, Trail(p), cancels) && OnItsWay(p, cancels)
    ensures var p' := Loops(p, l); Trailing(p') && NeverOvertaken(p'.desk, Trail(p'), cancels) && OnItsWay(p', cancels)
  {
    LoopsTrail(p, l);
    LoopsDesk(p, l, p.desk.ids(0));
    LoopsLosses(p, l);
    hide Loops, Trail, Trailing, NeverOvertaken, OnItsWay, Away, LetGo, DeskBalance;
    assert Trail(p) + [] == Trail(p);
    MoreKeeps(p, Loops(p, l), [], cancels);
  }

  /** A stretch of the trail is lost, and with it the session's promise to deliver. */
  lemma LessKeeps(p: Peer, p': Peer, a: seq<Mark>, b: seq<Mark>, c: seq<Mark>, cancels: set<Id>)
    requires Trailing(p) && NeverOvertaken(p.desk, Trail(p), cancels)
    requires Trail(p) == a + b + c && Trail(p') == a + c && p'.desk == p.desk
    ensures Trailing(p') && NeverOvertaken(p'.desk, Trail(p'), cancels)
  {
    hide Trail, Away;
    OrderedWithout(a, b, c);
    hide Ordered;
    assert forall m :: m in a + c ==> m in a + b + c;
  }

  lemma LoseTrail(p: Peer)
    requires p.driver.outbox != []
    ensures var f := p.driver.outbox[0];
            var a, b, c := OnFrames(p.link), FrameMark(f), OnFrames(p.driver.outbox[1..]) + OnCommands(p.commands);
            Trail(p) == a + b + c && Trail(DoLose(p)) == a + c
  {
    var f, rest, l, o := p.driver.outbox[0], p.driver.outbox[1..], OnFrames(p.link), OnCommands(p.commands);
    assert OnFrames(p.driver.outbox) == FrameMark(f) + OnFrames(rest);
    hide OnFrames, OnCommands, FrameMark;
    Regroup(l, FrameMark(f), OnFrames(rest));
    Regroup(l + FrameMark(f), OnFrames(rest), o);
    Regroup(l, OnFrames(rest), o);
  }

  lemma TransmitTrail(p: Peer)
    requires p.driver.outbox != []
    ensures OnFrames(p.link + [p.driver.outbox[0]]) + OnFrames(p.driver.outbox[1..]) == OnFrames(p.link) + OnFrames(p.driver.outbox)
  {
    var f, rest := p.driver.outbox[0], p.driver.outbox[1..];
    assert OnFrames(p.driver.outbox) == FrameMark(f) + OnFrames(rest);
    FramesMore(p.link, f);
    hide OnFrames, FrameMark;
    Regroup(OnFrames(p.link), FrameMark(f), OnFrames(rest));
  }

  /** Writing and closing keep the trail; only a refused frame and a dropped queue shorten it. */
  lemma WritesKeepTrail(p: Peer, w: WriterStep, cancels: set<Id>)
    requires CanWrite(p, w)
    requires Trailing(p) && NeverOvertaken(p.desk, Trail(p), cancels) && OnItsWay(p, cancels)
    ensures var p' := Writes(p, w); Trailing(p') && NeverOvertaken(p'.desk, Trail(p'), cancels) && OnItsWay(p', cancels)
  {
    var p' := Writes(p, w);
    hide OnFrames, OnCommands, Trailing, NeverOvertaken, Away, LetGo, Ordered, FailedReplies, HungReplies;
    match w
    case Transmit =>
      TransmitTrail(p);
      SteadyKeeps(p, p', cancels);
    case Lose =>
      LoseTrail(p);
      var f := p.driver.outbox[0];
      LessKeeps(p, p', OnFrames(p.link), FrameMark(f), OnFrames(p.driver.outbox[1..]) + OnCommands(p.commands), cancels);
    case Flush(farewell) =>
      if p'.link != p.link {
        UnmarkedMore(p.link, Close(p.life.reason.code));
      }
      SteadyKeeps(p, p', cancels);
    case Drop =>
      var a, b := OnFrames(p.link) + OnFrames(p.driver.outbox), OnCommands(p.commands);
      NoCommands();
      assert a + b + [] == a + b && a + [] == a;
      LessKeeps(p, p', a, b, [], cancels);
  }

  lemma NoCommands()
    ensures OnCommands([]) == []
  {
  }

  lemma SteadyKeeps(p: Peer, p': Peer, cancels: set<Id>)
    requires Trailing(p) && NeverOvertaken(p.desk, Trail(p), cancels) && OnItsWay(p, cancels)
    requires Trail(p') == Trail(p) && p'.desk == p.desk && p'.sendFailed == p.sendFailed && (p.life.Dropped? ==> p'.life.Dropped?)
    ensures Trailing(p') && NeverOvertaken(p'.desk, Trail(p'), cancels) && OnItsWay(p', cancels)
  {
    hide Trail, Ordered, Away, LetGo;
  }

  // ---------------------------------------------------------------------
  // The responder

  /** Its own steps mark and unmark nothing. */
  lemma ActMarks(p: Peer, a: Action)
    requires Can(p, a) && MarkedExactly(p.driver.tracking.active, p.work.cancels)
    ensures MarkedExactly(Act(p, a).driver.tracking.active, Act(p, a).work.cancels)
  {
    ActRan(p, a);
    hide Calls, Loops, Writes, MarkedExactly, Within;
    match a
    case Caller(c) => CallsFrame(p, c);
    case Loop(l) =>
      LoopsActive(p, l);
      FewerMarked(p.driver.tracking.active, Loops(p, l).driver.tracking.active, p.work.cancels);
    case Writer(w) =>
      WritesActive(p, w);
      FewerMarked(p.driver.tracking.active, Writes(p, w).driver.tracking.active, p.work.cancels);
  }

  ghost predicate Within(active': map<Id, ActiveRequest>, active: map<Id, ActiveRequest>) {
    forall id :: id in active' ==> id in active && active'[id] == active[id]
  }

  lemma FewerMarked(active: map<Id, ActiveRequest>, active': map<Id, ActiveRequest>, cancels: set<Id>)
    requires MarkedExactly(active, cancels) && Within(active', active)
    ensures MarkedExactly(active', cancels)
  {
  }

  lemma LoopsActive(p: Peer, l: LoopStep)
    requires CanLoop(p, l)
    ensures Within(Loops(p, l).driver.tracking.active, p.driver.tracking.active)
  {
    hide OnCommand, OnSettled, OnTick;
    match l
    case TakeCommand => CommandTracking(p.driver, p.commands[0]);
    case Settle(task, outcome, fits) => SettledTracking(p.driver, task, outcome, fits);
    case LivenessTick => TickTracking(p.driver);
    case _ =>
  }

  lemma CommandTracking(d: Driver, c: Command)
    ensures OnCommand(d, c).0.tracking == d.tracking
  {
  }

  lemma SettledTracking(d: Driver, task: nat, outcome: Outcome, fits: bool)
    ensures Within(OnSettled(d, task, outcome, fits).tracking.active, d.tracking.active)
  {
    hide AnswerFrame, Fitted;
  }

  lemma TickTracking(d: Driver)
    ensures OnTick(d).0.tracking == d.tracking
  {
  }

  lemma WritesActive(p: Peer, w: WriterStep)
    requires CanWrite(p, w)
    ensures Within(Writes(p, w).driver.tracking.active, p.driver.tracking.active)
  {
    hide FailedReplies, HungReplies;
    match w
    case Flush(farewell) => assert Writes(p, w).driver.tracking.active == map[];
    case _ =>
  }

  /** A frame taken in marks a request just when it is the cancel of it. */
  lemma ReceiveMarks(p: Peer, f: Frame, task: nat)
    requires MarkedExactly(p.driver.tracking.active, p.work.cancels) && (f.Req? ==> f.id !in p.work.cancels)
    ensures MarkedExactly(Receive(p, f, task).driver.tracking.active, Receive(p, f, task).work.cancels)
  {
    RecordShape(p, f, task);
    var p' := Receive(p, f, task);
    var d' := OnFrame(p.driver, f, task).0;
    assert p'.driver.tracking == d'.tracking;
    hide Receive;
    if f.Req? {
      RoutesExactly(p.driver, f.id, f.name, task);
      hide Route, Admissible, FirstFailed;
    } else {
      FrameActive(p.driver, f, task);
      hide OnFrame;
    }
  }

  lemma FrameActive(d: Driver, f: Frame, task: nat)
    requires !f.Req?
    ensures OnFrame(d, f, task).0.tracking.active ==
            if f.Cancel? && f.id in d.tracking.active
            then d.tracking.active[f.id := d.tracking.active[f.id].(cancelled := true)] else d.tracking.active
  {
  }

  // ---------------------------------------------------------------------
  // Delivery

  /** The head of the link leaves the trail. */
  lemma SentTrail(p: Peer)
    requires p.link != []
    ensures Trail(p) == FrameMark(p.link[0]) + Trail(Sent(p))
  {
    var f, rest, o, c := p.link[0], p.link[1..], OnFrames(p.driver.outbox), OnCommands(p.commands);
    assert OnFrames(p.link) == FrameMark(f) + OnFrames(rest);
    hide OnFrames, OnCommands, FrameMark;
    Regroup(FrameMark(f), OnFrames(rest), o);
    Regroup(FrameMark(f), OnFrames(rest) + o, c);
  }

  /** What the sender keeps once a frame of its own is taken in. */
  lemma SentKeepsTrail(p: Peer, cancels: set<Id>, cancels': set<Id>)
    requires p.link != [] && Trailing(p) && NeverOvertaken(p.desk, Trail(p), cancels) && OnItsWay(p, cancels)
    requires cancels' == cancels + if p.link[0].Cancel? then {p.link[0].id} else {}
    ensures var p' := Sent(p); Trailing(p') && NeverOvertaken(p'.desk, Trail(p'), cancels') && OnItsWay(p', cancels')
  {
    SentTrail(p);
    var f, t := p.link[0], Trail(Sent(p));
    hide Trail, Away, LetGo, Ordered;
    PopOrdered(FrameMark(f), t);
    assert forall m :: m in FrameMark(f) + t <==> m in FrameMark(f) || m in t;
    if f.Cancel? {
      PopCancel(f.id, t);
    }
  }

  lemma PopOrdered(h: seq<Mark>, t: seq<Mark>)
    requires Ordered(h + t)
    ensures Ordered(t)
  {
    assert [] + h + t == h + t && [] + t == t;
    OrderedWithout([], h, t);
  }

  lemma PopCancel(id: Id, t: seq<Mark>)
    requires Ordered([Cancels(id)] + t)
    ensures Asks(id) !in t
  {
    var u := [Cancels(id)] + t;
    forall j | 0 <= j < |t| ensures t[j] != Asks(id) {
      assert u[0] == Cancels(id) && u[j + 1] == t[j];
    }
  }

  /** Receiving adds no request and no cancel to the receiver's own trail. */
  lemma ReceiveTrail(p: Peer, f: Frame, task: nat)
    ensures Trail(Receive(p, f, task)) == Trail(p)
  {
    ReceiveShape(p, f, task);
    FrameAdds(p.driver, f, task);
    var d' := OnFrame(p.driver, f, task).0;
    var g := Added(p.driver, d');
    NeverCancels(p.driver, f, task);
    hide OnFrame, Receive, OnFrames, OnCommands;
    if d'.outbox != p.driver.outbox {
      UnmarkedMore(p.driver.outbox, g);
    }
  }

  lemma NeverCancels(d: Driver, f: Frame, task: nat)
    ensures !Added(d, OnFrame(d, f, task).0).Cancel?
  {
    hide Route;
  }

  lemma ReceiveCancels(q: Peer, p: Peer, task: nat)
    requires CanReceive(q, p, task) && CancelInv(p, q) && CancelInv(q, p)
    ensures var q' := Receive(q, p.link[0], task); CancelInv(Sent(p), q') && CancelInv(q', Sent(p))
  {
    var f := p.link[0];
    var q', p' := Receive(q, f, task), Sent(p);
    RecordShape(q, f, task);
    RecordedCancels(q.work, q.driver, f);
    SentTrail(p);
    assert f.Req? ==> Asks(f.id) in Trail(p);
    ReceiveTrail(q, f, task);
    ReceiveFrame(q, f, task);
    hide Trail, Receive, Recorded, Trailing, OnItsWay;
    ReceiveMarks(q, f, task);
    hide MarkedExactly;
    SentKeepsTrail(p, q.work.cancels, q'.work.cancels);
    hide NeverOvertaken;
    SteadyKeeps(q, q', p.work.cancels);
  }

  lemma RecordedCancels(work: Work, d: Driver, f: Frame)
    ensures Recorded(work, d, f).cancels == work.cancels + if f.Cancel? then {f.id} else {}
  {
    hide Route;
  }

  lemma ActCancels(p: Peer, a: Action, q: Peer)
    requires Can(p, a) && Sound(p) && CancelInv(p, q) && CancelInv(q, p)
    ensures CancelInv(Act(p, a), q) && CancelInv(q, Act(p, a))
  {
    ActRan(p, a);
    ActMarks(p, a);
    hide Calls, Loops, Writes, Trail, Trailing, NeverOvertaken, MarkedExactly, OnItsWay, DeskOrder;
    match a
    case Caller(c) => CallsKeepTrail(p, c, q.work.cancels);
    case Loop(l) => LoopsKeepTrail(p, l, q.work.cancels);
    case Writer(w) => WritesKeepTrail(p, w, q.work.cancels);
  }

  // ---------------------------------------------------------------------
  // Every run

  ghost predicate BothCancel(s: System) {
    CancelInv(s.a, s.b) && CancelInv(s.b, s.a)
  }

  lemma NextCancels(s: System, m: Move)
    requires Inv(s) && BothCancel(s) && Enabled(s, m)
    ensures BothCancel(Next(s, m))
  {
    hide CancelInv, Can, Act, Receive, Linked, Sound, LossesExplained;
    match m
    case AtA(a) => ActCancels(s.a, a, s.b);
    case AtB(a) => ActCancels(s.b, a, s.a);
    case ToA(task) => ReceiveCancels(s.a, s.b, task);
    case ToB(task) => ReceiveCancels(s.b, s.a, task);
  }

  lemma FreshCancels(p: Peer, q: Peer)
    requires Fresh(p) && Fresh(q)
    ensures CancelInv(p, q)
  {
    assert Trail(p) == [];
  }

  lemma {:induction false} RunCancels(s: System, moves: seq<Move>, s': System)
    requires Run(s, moves, s')
    ensures BothCancel(s')
    decreases |moves|
  {
    if moves == [] {
      FreshCancels(s.a, s.b);
      FreshCancels(s.b, s.a);
      hide CancelInv, Fresh;
    } else {
      hide Inv, BothCancel, Next, Enabled;
      var last := |moves| - 1;
      var before: System :| Run(s, moves[..last], before) && Enabled(before, moves[last]) && s' == Next(before, moves[last]);
      RunInv(s, moves[..last], before);
      RunCancels(s, moves[..last], before);
      NextCancels(before, moves[last]);
    }
  }

  /**
   In any run, a request active at its responder is marked cancelled if and only
   if its cancel has been delivered there; a cancel never arrives before its
   request; and the cancel of a call its user cancelled, or abandoned, is on its
   way, delivered, or lost with a frame the transport refused or with the session.
   */
  lemma CancelsReach(s: System, moves: seq<Move>, s': System)
    requires Run(s, moves, s')
    ensures MarkedExactly(s'.a.driver.tracking.active, s'.a.work.cancels)
    ensures MarkedExactly(s'.b.driver.tracking.active, s'.b.work.cancels)
    ensures NeverOvertaken(s'.a.desk, Trail(s'.a), s'.b.work.cancels) && NeverOvertaken(s'.b.desk, Trail(s'.b), s'.a.work.cancels)
    ensures OnItsWay(s'.a, s'.b.work.cancels) && OnItsWay(s'.b, s'.a.work.cancels)
  {
    RunCancels(s, moves, s');
    hide Run, MarkedExactly, NeverOvertaken, OnItsWay, Trailing, Trail;
  }
}
