/**
 Two sessions joined by two FIFO links, as a step system. Callers, the driver
 loops, the writer tasks, the wire and the teardown all move independently, one
 step at a time; every interleaving is a run.
 */
module Peers {
  import opened Wrappers
  import opened Tokens
  import opened Frames
  import opened Versions
  import opened Session

  datatype Ask = Ask(name: string, params: Json)

  /** Where one `request_with` call stands. */
  datatype Phase = Drafting | Awaiting(cancelSent: bool) | Returned(outcome: Outcome) | Abandoned

  datatype Call = Call(ask: Ask, phase: Phase)

  /**
   The caller side of a session. Call number `k` is the k-th id handed out; it
   asks under `ids(k)` and listens on reply channel `k`.
   */
  datatype Desk = Desk(
    ids: nat -> Id,
    sequence: nat,
    calls: map<nat, Call>,
    asked: map<Id, Ask>,
    drafts: set<Id>)

  /** How far a session has come; from the end of its loop on, why it ended. */
  datatype Life =
    | Opening
    | Running
    | Flushing(reason: Teardown)
    | Draining(reason: Teardown)
    | Dropped(reason: Teardown)

  /**
   What became of request tokens that left the desk. `taken` counts every id
   that did; the rest say where some of them ended: answered, withdrawn before
   sending, lost on this side's way out, or (for the peer's requests) an answer
   this side owed and lost.
   */
  datatype Ledger = Ledger(
    taken: multiset<Id>,
    consumed: multiset<Id>,
    withdrawn: multiset<Id>,
    lost: multiset<Id>,
    forfeited: multiset<Id>)

  /** A request taken in: what it asked, and the driver as it was then. */
  datatype Admission = Admission(ask: Ask, at: Driver)

  datatype Denial = Denial(why: Refusal, ask: Ask, at: Driver)

  /** How a handler ended, and whether its result fitted a frame. */
  datatype Result = Result(outcome: Outcome, fits: bool)

  /** What became of the peer's requests on this side: run and settled, or refused; and which were cancelled. */
  datatype Work = Work(
    ran: map<Id, Admission>,
    settled: map<Id, Result>,
    denied: map<Id, Denial>,
    cancels: set<Id>)

  datatype Peer = Peer(
    desk: Desk,
    commands: seq<Command>,
    driver: Driver,
    life: Life,
    helloSent: bool,
    heard: bool,
    sendFailed: bool,
    link: seq<Frame>,
    ledger: Ledger,
    work: Work)

  function RequestOf(c: Command): Option<Id> {
    if c.Request? then Some(c.id) else None
  }

  function Add(m: multiset<Id>, t: Option<Id>): multiset<Id> {
    if t.Some? then m[t.value := m[t.value] + 1] else m
  }

  /** What callers of the session handle do. Call numbers are `k`. */
  datatype CallerStep =
    | Start(ask: Ask)
    | Submit(k: nat)
    | Withdraw(k: nat, error: RemoteError)
    | UserCancel(k: nat)
    | Timeout(k: nat)
    | Abandon(k: nat)
    | TakeReply(k: nat)
    | Post(command: Command)

  /** What the driver's loop does, inbound frames apart. */
  datatype LoopStep =
    | SetHandlers(handlers: set<string>)
    | Open(sent: bool)
    | TakeCommand
    | Settle(task: nat, outcome: Outcome, fits: bool)
    | LivenessTick
    | Break(reason: Teardown)

  /** What the writer task and the rest of teardown do. */
  datatype WriterStep =
    | Transmit
    | Lose
    | Flush(farewell: bool)
    | Drop

  datatype Action = Caller(caller: CallerStep) | Loop(loop: LoopStep) | Writer(writer: WriterStep)

  // ---------------------------------------------------------------------
  // Steps

  function WithPhase(desk: Desk, k: nat, phase: Phase): Desk
    requires k in desk.calls
  {
    desk.(calls := desk.calls[k := desk.calls[k].(phase := phase)])
  }

  /** A send on the command channel: it fails once the driver has gone. */
  function Posted(p: Peer, c: Command): Peer {
    if p.life.Dropped? then p else p.(commands := p.commands + [c])
  }

  /** The first step of teardown: from here on the state is `Closed`. */
  function Ending(p: Peer, stop: Option<Teardown>): Peer {
    match stop
    case None => p
    case Some(reason) => p.(life := Flushing(reason), driver := p.driver.(state := Closed))
  }

  predicate InPhase(desk: Desk, k: nat, drafting: bool) {
    k in desk.calls && if drafting then desk.calls[k].phase.Drafting? else desk.calls[k].phase.Awaiting?
  }

  predicate CanCall(p: Peer, c: CallerStep) {
    match c
    case Start(ask) =>
      // A call passes `ready()` and both reserved-name checks before it takes an id.
      && p.driver.ready.Some? && p.driver.ready.value.ReadyOk?
      && MayAsk(ask.name, PROTOCOL_MINOR)
      && MayAsk(ask.name, p.driver.ready.value.remote.effectiveMinor)
    case Submit(k) => InPhase(p.desk, k, true) && !p.life.Dropped?
    case Withdraw(k, error) =>
      // The frame did not fit, would not encode, or found the driver gone.
      InPhase(p.desk, k, true) && (error.FrameTooLarge? || error.Unencodable? || error.Unavailable?)
    // The reply may have landed since the call last looked for it.
    case UserCancel(k) => InPhase(p.desk, k, false) && !p.desk.calls[k].phase.cancelSent
    case Timeout(k) => InPhase(p.desk, k, false)
    case Abandon(k) => InPhase(p.desk, k, false)
    case TakeReply(k) => InPhase(p.desk, k, false) && k in p.driver.replies
    case Post(c) => c.CloseSession? || (c.Send? && (c.frame.Evt? || c.frame.Ping?))
  }

  predicate CanLoop(p: Peer, l: LoopStep) {
    match l
    case SetHandlers(_) => true
    case Open(_) => p.life.Opening?
    case TakeCommand => p.life.Running? && p.commands != []
    case Settle(task, _, _) => p.life.Running? && task in p.driver.tracking.tasks
    case LivenessTick => p.life.Running?
    // A failed write, a handshake that took too long, a port that closed.
    case Break(reason) => p.life.Running? && !reason.PeerFrame?
  }

  predicate CanWrite(p: Peer, w: WriterStep) {
    match w
    case Transmit => (p.life.Running? || p.life.Flushing?) && p.driver.outbox != []
    case Lose => (p.life.Running? || p.life.Flushing?) && p.driver.outbox != []
    case Flush(_) => p.life.Flushing? && p.driver.outbox == []
    case Drop => p.life.Draining?
  }

  predicate Can(p: Peer, a: Action) {
    match a
    case Caller(c) => CanCall(p, c)
    case Loop(l) => CanLoop(p, l)
    case Writer(w) => CanWrite(p, w)
  }

  function ReplyOutcome(r: Reply): Outcome {
    match r
    case Value(outcome) => outcome
    case Hung => Failed(Unavailable)
  }

  function DoStart(p: Peer, ask: Ask): Peer {
    var k := p.desk.sequence + 1;
    var id := p.desk.ids(k);
    p.(desk := p.desk.(sequence := k,
                       calls := p.desk.calls[k := Call(ask, Drafting)],
                       asked := p.desk.asked[id := ask],
                       drafts := p.desk.drafts + {id}))
  }

  function DoSubmit(p: Peer, k: nat): Peer
    requires k in p.desk.calls
  {
    var ask, id := p.desk.calls[k].ask, p.desk.ids(k);
    p.(desk := WithPhase(p.desk, k, Awaiting(false)).(drafts := p.desk.drafts - {id}),
       commands := p.commands + [Request(id, ask.name, ask.params, k)])
  }

  function DoWithdraw(p: Peer, k: nat, error: RemoteError): Peer
    requires k in p.desk.calls
  {
    var id := p.desk.ids(k);
    p.(desk := WithPhase(p.desk, k, Returned(Failed(error))).(drafts := p.desk.drafts - {id}),
       ledger := p.ledger.(taken := Add(p.ledger.taken, Some(id)), withdrawn := Add(p.ledger.withdrawn, Some(id))))
  }

  /** A call that stops waiting: it lets go of its reply and asks the driver to forget it. */
  function DoLeave(p: Peer, k: nat, phase: Phase): Peer
    requires k in p.desk.calls
  {
    Posted(p.(desk := WithPhase(p.desk, k, phase)), CancelRequest(p.desk.ids(k), false))
  }

  function DoOpen(p: Peer, sent: bool): Peer {
    if sent then p.(life := Running, helloSent := true, link := [HelloFrame(p.driver.hello)])
    else Ending(p.(driver := SettleReady(p.driver, ReadyFailed(Unavailable))), Some(Local(RELEASED)))
  }

  function DoTakeCommand(p: Peer): Peer
    requires p.commands != []
  {
    var c := p.commands[0];
    var (driver, stop) := OnCommand(p.driver, c);
    Ending(p.(commands := p.commands[1..],
              driver := driver,
              ledger := p.ledger.(taken := Add(p.ledger.taken, RequestOf(c)))), stop)
  }

  function DoSettle(p: Peer, task: nat, outcome: Outcome, fits: bool): Peer {
    var t := p.driver.tracking;
    p.(driver := OnSettled(p.driver, task, outcome, fits),
       work := if task in t.byTask then p.work.(settled := p.work.settled[t.byTask[task] := Result(outcome, fits)]) else p.work)
  }

  function DoLose(p: Peer): Peer
    requires p.driver.outbox != []
  {
    var f := p.driver.outbox[0];
    p.(driver := p.driver.(outbox := p.driver.outbox[1..]),
       sendFailed := true,
       ledger := p.ledger.(lost := Add(p.ledger.lost, AskOf(f)), forfeited := Add(p.ledger.forfeited, AnswerOf(f))))
  }

  /** The port is told, `ready` is settled, every pending caller is failed, active handlers are let go. */
  ghost function DoFlush(p: Peer, farewell: bool): Peer
    requires p.life.Flushing?
  {
    var d := SettleReady(p.driver, ReadyFailure(p.life.reason));
    p.(life := Draining(p.life.reason),
       link := if farewell && p.life.reason.Local? then p.link + [Close(p.life.reason.code)] else p.link,
       ledger := p.ledger.(forfeited := p.ledger.forfeited + multiset(d.tracking.active.Keys)),
       driver := d.(pending := map[],
                    replies := FailedReplies(d.pending, d.replies),
                    tracking := d.tracking.(active := map[])))
  }

  /** Dropping the command queue drops the reply senders in it. */
  ghost function HungReplies(commands: seq<Command>, replies: map<nat, Reply>): map<nat, Reply> {
    if commands == [] then replies
    else
      var rest := HungReplies(commands[1..], replies);
      if commands[0].Request? then rest[commands[0].reply := Hung] else rest
  }

  ghost function DoDrop(p: Peer): Peer
    requires p.life.Draining?
  {
    var ids := Tally(RequestOf, p.commands);
    p.(life := Dropped(p.life.reason),
       commands := [],
       driver := p.driver.(replies := HungReplies(p.commands, p.driver.replies)),
       ledger := p.ledger.(taken := p.ledger.taken + ids, lost := p.ledger.lost + ids))
  }

  function Calls(p: Peer, c: CallerStep): Peer
    requires CanCall(p, c)
  {
    match c
    case Start(ask) => DoStart(p, ask)
    case Submit(k) => DoSubmit(p, k)
    case Withdraw(k, error) => DoWithdraw(p, k, error)
    case UserCancel(k) =>
      Posted(p.(desk := WithPhase(p.desk, k, Awaiting(true))), CancelRequest(p.desk.ids(k), true))
    case Timeout(k) => DoLeave(p, k, Returned(Failed(TimedOut)))
    case Abandon(k) => DoLeave(p, k, Abandoned)
    case TakeReply(k) => p.(desk := WithPhase(p.desk, k, Returned(ReplyOutcome(p.driver.replies[k]))))
    case Post(c) => Posted(p, c)
  }

  function Loops(p: Peer, l: LoopStep): Peer
    requires CanLoop(p, l)
  {
    match l
    case SetHandlers(hs) => p.(driver := p.driver.(handlers := hs))
    case Open(sent) => DoOpen(p, sent)
    case TakeCommand => DoTakeCommand(p)
    case Settle(task, outcome, fits) => DoSettle(p, task, outcome, fits)
    case LivenessTick => Ending(p.(driver := OnTick(p.driver).0), OnTick(p.driver).1)
    case Break(reason) => Ending(p, Some(reason))
  }

  ghost function Writes(p: Peer, w: WriterStep): Peer
    requires CanWrite(p, w)
  {
    match w
    case Transmit =>
      p.(link := p.link + [p.driver.outbox[0]], driver := p.driver.(outbox := p.driver.outbox[1..]))
    case Lose => DoLose(p)
    case Flush(farewell) => DoFlush(p, farewell)
    case Drop => DoDrop(p)
  }

  ghost function Act(p: Peer, a: Action): Peer
    requires Can(p, a)
  {
    match a
    case Caller(c) => Calls(p, c)
    case Loop(l) => Loops(p, l)
    case Writer(w) => Writes(p, w)
  }

  /** The record of a frame taken in by `d`. */
  function Recorded(work: Work, d: Driver, f: Frame): Work {
    match f
    case Req(id, name, params) =>
      (match Route(d, id, name)
       case None => work.(ran := work.ran[id := Admission(Ask(name, params), d)])
       case Some(why) => work.(denied := work.denied[id := Denial(why, Ask(name, params), d)]))
    case Cancel(id) => work.(cancels := work.cancels + {id})
    case _ => work
  }

  /** One frame off the wire reaches the driver. */
  function Receive(p: Peer, f: Frame, task: nat): Peer {
    var (driver, stop) := OnFrame(p.driver, f, task);
    Ending(p.(driver := driver,
              heard := p.heard || f.HelloFrame?,
              ledger := p.ledger.(consumed := Add(p.ledger.consumed, AnswerOf(f))),
              work := Recorded(p.work, p.driver, f)), stop)
  }

  function Sent(p: Peer): Peer
    requires p.link != []
  {
    p.(link := p.link[1..])
  }

  datatype System = System(a: Peer, b: Peer)

  datatype Move = AtA(action: Action) | AtB(action: Action) | ToA(task: nat) | ToB(task: nat)

  /** `p` can take the next frame `q` sent; a handler it spawns gets a task id not in use. */
  predicate CanReceive(p: Peer, q: Peer, task: nat) {
    p.life.Running? && q.link != [] && task !in p.driver.tracking.tasks
  }

  predicate Enabled(s: System, m: Move) {
    match m
    case AtA(a) => Can(s.a, a)
    case AtB(a) => Can(s.b, a)
    case ToA(task) => CanReceive(s.a, s.b, task)
    case ToB(task) => CanReceive(s.b, s.a, task)
  }

  ghost function Next(s: System, m: Move): System
    requires Enabled(s, m)
  {
    match m
    case AtA(a) => s.(a := Act(s.a, a))
    case AtB(a) => s.(b := Act(s.b, a))
    case ToA(task) => System(Receive(s.a, s.b.link[0], task), Sent(s.b))
    case ToB(task) => System(Sent(s.a), Receive(s.b, s.a.link[0], task))
  }

  /** A peer as `Session::open` leaves it. */
  ghost predicate Fresh(p: Peer) {
    && (forall i, j :: p.desk.ids(i) == p.desk.ids(j) ==> i == j)
    && p.desk.sequence == 0 && p.desk.calls == map[] && p.desk.asked == map[] && p.desk.drafts == {}
    && p.commands == [] && p.link == []
    && p.life == Opening && !p.helloSent && !p.heard && !p.sendFailed
    && p.ledger == Ledger(multiset{}, multiset{}, multiset{}, multiset{}, multiset{})
    && p.work == Work(map[], map[], map[], {})
    && p.driver == Driver(p.driver.hello, p.driver.maxInFlight, p.driver.handlers, Handshaking, None, None,
                          map[], map[], NO_TRACKING, false, [], [])
  }

  /** A run: a system as opened, then one enabled move after another. */
  ghost predicate Run(s: System, moves: seq<Move>, s': System)
    decreases |moves|
  {
    if moves == [] then Fresh(s.a) && Fresh(s.b) && s' == s
    else
      var last := |moves| - 1;
      exists before: System :: Run(s, moves[..last], before) && Enabled(before, moves[last]) && s' == Next(before, moves[last])
  }
}
