/**
 The handshake between two sessions: hello is first on each link and alone of
 its kind, both sides derive the same minor, and a request is only ever sent
 for a name that minor allows.
 */
module PeerHandshake {
  import opened Wrappers
  import opened Frames
  import opened Versions
  import opened Session
  import opened Peers
  import opened PeerTokens

  ghost predicate NoHello(s: seq<Frame>) {
    forall f :: f in s ==> !f.HelloFrame?
  }

  /** What is on its way from `p` to `q`: exactly one hello, first, until `q` has it. */
  ghost predicate HelloFirst(p: Peer, q: Peer) {
    && NoHello(p.driver.outbox)
    && (!p.helloSent ==> p.driver.outbox == [] && !p.life.Running? && forall f :: f in p.link ==> f.Close?)
    && (p.helloSent && !q.heard ==> p.link != [] && p.link[0] == HelloFrame(p.driver.hello) && NoHello(p.link[1..]))
    && (q.heard ==> p.helloSent && NoHello(p.link))
    && (p.life.Opening? ==> !p.helloSent)
  }

  /** What `p` knows of `q`, given the hello `q` sends. */
  ghost predicate Informed(p: Peer, hello: Hello) {
    && (!p.heard ==> p.driver.remote == None)
    && (!p.heard && (p.life.Opening? || p.life.Running?) ==> p.driver.state == Handshaking && p.driver.ready == None)
    && (p.heard && p.life.Running? ==> p.driver.state == Ready && p.driver.remote.Some?)
    && (p.life.Opening? ==> !p.heard)
    && (p.driver.state == Ready ==> p.driver.remote.Some?)
    && (p.driver.remote.Some? ==>
          && Negotiate(p.driver.hello.protocol, hello.protocol) == Compatible(p.driver.remote.value.effectiveMinor)
          && p.driver.remote.value.limits == hello.limits)
    && (p.driver.ready.Some? && p.driver.ready.value.ReadyOk? ==> p.driver.remote == Some(p.driver.ready.value.remote))
  }

  /** Every name asked for is one the negotiated minor allows. */
  ghost predicate AskedAllowed(p: Peer) {
    forall id :: id in p.desk.asked ==>
      p.driver.remote.Some? && MayAsk(p.desk.asked[id].name, p.driver.remote.value.effectiveMinor)
  }

  /** A request frame carries what its id was handed out for. */
  ghost predicate TrueRequests(asked: map<Id, Ask>, s: seq<Frame>) {
    forall f :: f in s && f.Req? ==> f.id in asked && asked[f.id] == Ask(f.name, f.params)
  }

  ghost predicate RequestsSent(p: Peer) {
    TrueRequests(p.desk.asked, p.link) && TrueRequests(p.desk.asked, p.driver.outbox)
  }

  /** Queued requests carry what their id was handed out for. */
  ghost predicate RequestsQueued(p: Peer) {
    forall c :: c in p.commands && c.Request? ==> c.id in p.desk.asked && p.desk.asked[c.id] == Ask(c.name, c.params)
  }

  /** What a driver step may add to the outbox: nothing, or one frame. */
  ghost predicate Adds(d: Driver, d': Driver, f: Frame) {
    d'.outbox == d.outbox || d'.outbox == d.outbox + [f]
  }

  function Added(d: Driver, d': Driver): Frame {
    if |d'.outbox| > |d.outbox| then d'.outbox[|d.outbox|] else Ping
  }

  lemma CommandAdds(d: Driver, c: Command)
    requires c.Send? ==> c.frame.Evt? || c.frame.Ping?
    ensures var d' := OnCommand(d, c).0; var f := Added(d, d');
            && Adds(d, d', f) && !f.HelloFrame? && AnswerOf(f) == None
            && (f.Req? ==> c == Request(f.id, f.name, f.params, c.reply))
            && d'.hello == d.hello && d'.remote == d.remote && d'.ready == d.ready && d'.state == d.state
  {
  }

  lemma SettledAdds(d: Driver, task: nat, outcome: Outcome, fits: bool)
    ensures var d' := OnSettled(d, task, outcome, fits); var f := Added(d, d');
            && Adds(d, d', f) && !f.HelloFrame? && !f.Req?
            && d'.hello == d.hello && d'.remote == d.remote && d'.ready == d.ready && d'.state == d.state
  {
  }

  lemma FrameAdds(d: Driver, f: Frame, task: nat)
    ensures var d' := OnFrame(d, f, task).0; var g := Added(d, d');
            && Adds(d, d', g) && !g.HelloFrame? && !g.Req?
            && (AnswerOf(g).Some? ==> g.Err? && g.error.Refused?)
            && d'.hello == d.hello
            && (!f.HelloFrame? ==> d'.remote == d.remote && d'.ready == d.ready && d'.state == d.state)
  {
    hide Negotiate, Route, Untrack, Track;
  }

  // ---------------------------------------------------------------------
  // Handshake state that no step but a hello changes

  ghost predicate SameShake(p: Peer, p': Peer) {
    && p'.driver.hello == p.driver.hello && p'.driver.remote == p.driver.remote
    && p'.driver.state == p.driver.state && p'.driver.ready == p.driver.ready
    && p'.helloSent == p.helloSent && p'.heard == p.heard && p'.life == p.life
  }

  /** Teardown has begun, or a later part of it runs. */
  ghost predicate Ended(p: Peer, p': Peer) {
    && p'.driver.hello == p.driver.hello && p'.driver.remote == p.driver.remote
    && p'.driver.state == Closed && p'.helloSent == p.helloSent && p'.heard == p.heard
    && !p'.life.Opening? && !p'.life.Running?
    && (p'.driver.ready == p.driver.ready || (p'.driver.ready.Some? && p'.driver.ready.value.ReadyFailed?))
  }

  /** A closing peer's state is `Closed`. */
  ghost predicate ClosedWhenEnding(p: Peer) {
    !p.life.Opening? && !p.life.Running? ==> p.driver.state == Closed
  }

  lemma LoopsShake(p: Peer, l: LoopStep)
    requires CanLoop(p, l) && SendsOnly(p.commands)
    ensures var p' := Loops(p, l);
            || SameShake(p, p') || Ended(p, p')
            || (l == Open(true) && p'.driver == p.driver && p'.heard == p.heard && p'.life.Running? && p'.helloSent)
  {
    match l
    case TakeCommand =>
      CommandAdds(p.driver, p.commands[0]);
      hide OnCommand;
    case Settle(task, outcome, fits) =>
      SettledAdds(p.driver, task, outcome, fits);
      hide OnSettled;
    case _ =>
  }

  lemma WritesShake(p: Peer, w: WriterStep)
    requires CanWrite(p, w) && ClosedWhenEnding(p)
    ensures SameShake(p, Writes(p, w)) || Ended(p, Writes(p, w))
  {
    hide FailedReplies, HungReplies;
  }

  lemma ActInformed(p: Peer, a: Action, hello: Hello)
    requires Can(p, a) && Informed(p, hello) && ClosedWhenEnding(p) && SendsOnly(p.commands)
    ensures Informed(Act(p, a), hello) && ClosedWhenEnding(Act(p, a))
    ensures Act(p, a).driver.hello == p.driver.hello && Act(p, a).heard == p.heard
    ensures Act(p, a).driver.remote == p.driver.remote
    ensures p.helloSent ==> Act(p, a).helloSent
  {
    hide SendsOnly, Calls, Loops, Writes, Negotiate;
    match a
    case Caller(c) => CallsFrame(p, c);
    case Loop(l) => LoopsShake(p, l);
    case Writer(w) => WritesShake(p, w);
  }

  /** The first hello makes the receiver ready, or ends it; a second never comes. */
  lemma ReceiveInformed(p: Peer, f: Frame, task: nat, hello: Hello)
    requires p.life.Running? && Informed(p, hello) && ClosedWhenEnding(p)
    requires f.HelloFrame? ==> f.hello == hello && !p.heard
    ensures Informed(Receive(p, f, task), hello) && ClosedWhenEnding(Receive(p, f, task))
    ensures Receive(p, f, task).driver.hello == p.driver.hello
    ensures Receive(p, f, task).helloSent == p.helloSent
    ensures p.driver.remote.Some? ==> Receive(p, f, task).driver.remote == p.driver.remote
    ensures Receive(p, f, task).heard == (p.heard || f.HelloFrame?)
  {
    hide Negotiate;
    if !f.HelloFrame? {
      FrameAdds(p.driver, f, task);
      hide OnFrame, Route;
    }
  }

  // ---------------------------------------------------------------------
  // What travels

  /** A loop step leaves the link alone and adds at most one frame to the outbox. */
  ghost predicate LoopAdds(p: Peer, p': Peer, f: Frame) {
    && p'.link == p.link && p'.desk == p.desk && p'.helloSent == p.helloSent
    && Adds(p.driver, p'.driver, f) && !f.HelloFrame?
    && (p'.driver.outbox != p.driver.outbox ==> p.life.Running?)
    && (f.Req? ==> exists reply :: Request(f.id, f.name, f.params, reply) in p.commands)
    && (p'.life.Running? ==> p.life.Running?)
    && (forall c :: c in p'.commands ==> c in p.commands)
  }

  lemma LoopsAdd(p: Peer, l: LoopStep) returns (f: Frame)
    requires CanLoop(p, l) && l != Open(true) && SendsOnly(p.commands)
    ensures LoopAdds(p, Loops(p, l), f)
  {
    hide OnCommand, OnSettled;
    f := Added(p.driver, Loops(p, l).driver);
    match l
    case TakeCommand => CommandAdds(p.driver, p.commands[0]);
    case Settle(task, outcome, fits) => SettledAdds(p.driver, task, outcome, fits);
    case _ =>
  }

  lemma LoopsHelloFirst(p: Peer, l: LoopStep, q: Peer)
    requires CanLoop(p, l) && SendsOnly(p.commands) && HelloFirst(p, q)
    requires p.life.Opening? ==> p.link == []
    ensures HelloFirst(Loops(p, l), q)
  {
    if l == Open(true) {
      var p' := Loops(p, l);
      assert p'.link == [HelloFrame(p.driver.hello)] && p'.link[1..] == [];
      assert p'.driver == p.driver;
      hide Loops;
    } else {
      var f := LoopsAdd(p, l);
      LoopsShake(p, l);
      hide Loops, SendsOnly;
    }
  }

  lemma WritesHelloFirst(p: Peer, w: WriterStep, q: Peer)
    requires CanWrite(p, w) && HelloFirst(p, q)
    ensures HelloFirst(Writes(p, w), q)
  {
    var p' := Writes(p, w);
    assert p'.link == p.link || (|p.link| < |p'.link| && p'.link == p.link + [p'.link[|p.link|]]);
    if p.link != [] && p'.link != p.link {
      assert p'.link[1..] == p.link[1..] + [p'.link[|p.link|]];
    }
    hide FailedReplies, HungReplies;
  }

  lemma ActHelloFirst(p: Peer, a: Action, q: Peer)
    requires Can(p, a) && HelloFirst(p, q) && SendsOnly(p.commands) && (p.life.Opening? ==> p.link == [])
    ensures HelloFirst(Act(p, a), q)
  {
    match a
    case Caller(c) =>
      CallsFrame(p, c);
      hide Calls;
    case Loop(l) => LoopsHelloFirst(p, l, q);
    case Writer(w) => WritesHelloFirst(p, w, q);
    hide HelloFirst;
  }

  /** The frame `p` takes off the link leaves no hello behind it, and was the hello if `p` had none yet. */
  lemma TakenHello(p: Peer, q: Peer, task: nat)
    requires CanReceive(p, q, task) && HelloFirst(q, p)
    ensures NoHello(q.link[1..])
    ensures q.link[0].HelloFrame? ==> !p.heard && q.link[0].hello == q.driver.hello
    ensures q.helloSent ==> p.heard || q.link[0].HelloFrame?
    ensures forall f :: f in q.link[1..] ==> f in q.link
  {
    assert q.link[0] in q.link;
    assert forall f :: f in q.link[1..] ==> f in q.link;
  }

  lemma ReceiveHelloFirst(p: Peer, q: Peer, task: nat)
    requires CanReceive(p, q, task) && HelloFirst(q, p) && HelloFirst(p, q)
    ensures var p' := Receive(p, q.link[0], task); HelloFirst(Sent(q), p') && HelloFirst(p', Sent(q))
  {
    var f := q.link[0];
    var p' := Receive(p, f, task);
    TakenHello(p, q, task);
    FrameAdds(p.driver, f, task);
    assert p'.driver.outbox == OnFrame(p.driver, f, task).0.outbox && p'.link == p.link;
    assert p'.heard == (p.heard || f.HelloFrame?) && p'.helloSent == p.helloSent && p'.driver.hello == p.driver.hello;
    assert p'.life.Running? || p'.life.Flushing?;
    assert Sent(q).link == q.link[1..];
    assert q.helloSent || !f.HelloFrame? by { assert f in q.link; }
    hide OnFrame, Receive;
  }

  // ---------------------------------------------------------------------
  // Requests

  ghost predicate RequestsInv(p: Peer) {
    AskedAllowed(p) && RequestsSent(p) && RequestsQueued(p)
  }

  /** A question once handed out keeps its id. */
  lemma TrueRequestsGrow(asked: map<Id, Ask>, id: Id, ask: Ask, s: seq<Frame>)
    requires TrueRequests(asked, s) && id !in asked
    ensures TrueRequests(asked[id := ask], s)
  {
  }

  lemma NewId(desk: Desk)
    requires DeskOrder(desk)
    ensures desk.ids(desk.sequence + 1) !in desk.asked
  {
  }

  lemma StartRequests(p: Peer, ask: Ask, hello: Hello)
    requires CanCall(p, Start(ask)) && RequestsInv(p) && DeskOrder(p.desk) && Informed(p, hello)
    ensures RequestsInv(DoStart(p, ask))
  {
    hide MayAsk;
    var id := p.desk.ids(p.desk.sequence + 1);
    var p' := DoStart(p, ask);
    NewId(p.desk);
    assert p'.desk.asked == p.desk.asked[id := ask] && p'.commands == p.commands && p'.driver == p.driver;
    assert p'.link == p.link;
    hide DeskOrder, DoStart;
    TrueRequestsGrow(p.desk.asked, id, ask, p.link);
    TrueRequestsGrow(p.desk.asked, id, ask, p.driver.outbox);
    hide TrueRequests;
  }

  lemma SubmitRequests(p: Peer, k: nat)
    requires InPhase(p.desk, k, true) && RequestsInv(p) && DeskOrder(p.desk)
    ensures RequestsInv(DoSubmit(p, k))
  {
    assert p.desk.asked[p.desk.ids(k)] == p.desk.calls[k].ask;
    hide DeskOrder, MayAsk;
  }

  /** The other calls hand out no id and queue no request. */
  lemma CallsQuiet(p: Peer, c: CallerStep)
    requires CanCall(p, c) && !c.Start? && !c.Submit?
    ensures Calls(p, c).desk.asked == p.desk.asked
    ensures forall r :: r in Calls(p, c).commands && r.Request? ==> r in p.commands
  {
  }

  lemma CallsRequests(p: Peer, c: CallerStep, hello: Hello)
    requires CanCall(p, c) && RequestsInv(p) && DeskOrder(p.desk) && Informed(p, hello)
    ensures RequestsInv(Calls(p, c))
  {
    if c.Start? {
      StartRequests(p, c.ask, hello);
    } else if c.Submit? {
      SubmitRequests(p, c.k);
    } else {
      CallsQuiet(p, c);
      CallsFrame(p, c);
      hide Calls, CanCall, DeskOrder, Informed, MayAsk;
    }
  }

  lemma LoopsRequests(p: Peer, l: LoopStep)
    requires CanLoop(p, l) && RequestsInv(p) && SendsOnly(p.commands)
    ensures RequestsInv(Loops(p, l))
  {
    LoopsShake(p, l);
    if l == Open(true) {
      hide MayAsk;
    } else {
      var f := LoopsAdd(p, l);
      hide Loops, MayAsk, SendsOnly;
    }
  }

  lemma WritesRequests(p: Peer, w: WriterStep)
    requires CanWrite(p, w) && RequestsInv(p)
    ensures RequestsInv(Writes(p, w))
  {
    hide FailedReplies, HungReplies, MayAsk;
  }

  lemma ActRequests(p: Peer, a: Action, hello: Hello)
    requires Can(p, a) && RequestsInv(p) && SendsOnly(p.commands) && DeskOrder(p.desk) && Informed(p, hello)
    ensures RequestsInv(Act(p, a))
  {
    hide RequestsInv, SendsOnly, DeskOrder, Informed, Calls, Loops, Writes;
    match a
    case Caller(c) => CallsRequests(p, c, hello);
    case Loop(l) => LoopsRequests(p, l);
    case Writer(w) => WritesRequests(p, w);
  }

  lemma ReceiveRequests(p: Peer, f: Frame, task: nat, hello: Hello)
    requires p.life.Running? && RequestsInv(p) && Informed(p, hello) && ClosedWhenEnding(p)
    requires f.HelloFrame? ==> f.hello == hello && !p.heard
    ensures RequestsInv(Receive(p, f, task))
  {
    hide Receive, OnFrame, Informed, MayAsk, Route;
    FrameAdds(p.driver, f, task);
    ReceiveInformed(p, f, task, hello);
    ReceiveShape(p, f, task);
  }

  /** What receiving leaves alone, and where its frames go. */
  lemma ReceiveShape(p: Peer, f: Frame, task: nat)
    ensures var p' := Receive(p, f, task);
            && p'.link == p.link && p'.desk == p.desk && p'.commands == p.commands
            && p'.driver.outbox == OnFrame(p.driver, f, task).0.outbox
  {
    hide OnFrame, Route;
  }

  /**
   Between two sessions running this code, an inbound request is never refused
   because the handshake is incomplete, because its id is already in flight, or
   because its name is reserved: only the in-flight ceiling and a missing
   handler remain.
   */
  lemma RequestWelcome(p: Peer, q: Peer, task: nat)
    requires CanReceive(q, p, task) && p.link[0].Req?
    requires HelloFirst(p, q) && Informed(q, p.driver.hello) && Informed(p, q.driver.hello) && RequestsInv(p)
    requires p.link[0].id !in q.driver.tracking.active
    ensures var refusal := Route(q.driver, p.link[0].id, p.link[0].name);
            refusal == None || refusal == Some(InFlightLimit) || refusal == Some(NoHandler)
  {
    var f := p.link[0];
    NegotiateSymmetric(p.driver.hello.protocol, q.driver.hello.protocol);
    TakenHello(q, p, task);
    assert f in p.link;
  }
}
