/**
 The session driver as functions on its state: what one inbound frame, one
 command, one settled handler or one liveness tick does. `SessionDriver` holds
 the same operations in the imperative form of the source, proved equal to these.
 */
module Session {
  import opened Wrappers
  import opened Tokens
  import opened Frames
  import opened Versions

  datatype State = Handshaking | Ready | Closed

  /** What the peer's hello announced, with the negotiated minor. */
  datatype Remote = Remote(effectiveMinor: nat, limits: Option<Limits>)

  datatype ReadyOutcome = ReadyOk(remote: Remote) | ReadyFailed(error: RemoteError)

  /** An outbound request awaiting its answer; `reply` names the caller's oneshot channel. */
  datatype PendingRequest = PendingRequest(name: string, reply: nat)

  /** What a oneshot reply channel ended with: a value, or a sender dropped unused. */
  datatype Reply = Value(outcome: Outcome) | Hung

  datatype ActiveRequest = ActiveRequest(name: string, cancelled: bool)

  /** The inbound requests being answered. */
  datatype Tracking = Tracking(
    tasks: set<nat>,
    active: map<Id, ActiveRequest>,
    byTask: map<nat, Id>,
    inFlight: int)

  datatype Command =
    | CloseSession(code: nat)
    | Request(id: Id, name: string, params: Json, reply: nat)
    | CancelRequest(id: Id, forget: bool)
    | Send(frame: Frame)

  datatype Teardown = Local(code: nat) | PeerFrame(code: nat) | PortClosed(code: nat)

  datatype Driver = Driver(
    hello: Hello,
    maxInFlight: nat,
    handlers: set<string>,
    state: State,
    remote: Option<Remote>,
    ready: Option<ReadyOutcome>,
    pending: map<Id, PendingRequest>,
    replies: map<nat, Reply>,
    tracking: Tracking,
    awaitingPong: bool,
    outbox: seq<Frame>,
    inbox: seq<Event>)

  const NO_TRACKING := Tracking({}, map[], map[], 0)

  function Enqueue(d: Driver, f: Frame): Driver {
    d.(outbox := d.outbox + [f])
  }

  /** Settles `ready` unless something already did. */
  function SettleReady(d: Driver, outcome: ReadyOutcome): Driver {
    if d.ready.Some? then d else d.(ready := Some(outcome))
  }

  /** The first refusal check an inbound request fails, in the order they are made. */
  function Route(d: Driver, id: Id, name: string): Option<Refusal> {
    if d.state != Ready || d.remote.None? then Some(NotReady)
    else if |d.tracking.active| >= d.maxInFlight then Some(InFlightLimit)
    else if id in d.tracking.active then Some(DuplicateId)
    else if !MayAsk(name, d.remote.value.effectiveMinor) then Some(ReservedMethod)
    else if name !in d.handlers then Some(NoHandler)
    else None
  }

  /** Adds one handler run, spawned as `task`, to the bookkeeping. */
  function Track(t: Tracking, id: Id, name: string, task: nat): Tracking {
    Tracking(t.tasks + {task}, t.active[id := ActiveRequest(name, false)], t.byTask[task := id], t.inFlight + 1)
  }

  function OnRequest(d: Driver, id: Id, name: string, task: nat): Driver {
    match Route(d, id, name)
    case Some(why) => Enqueue(d, Err(id, Refused(why)))
    case None => d.(tracking := Track(d.tracking, id, name, task))
  }

  function OnCancel(d: Driver, id: Id): Driver {
    if id in d.tracking.active then
      d.(tracking := d.tracking.(active := d.tracking.active[id := d.tracking.active[id].(cancelled := true)]))
    else d
  }

  /** Forgets one settled task, and the request it was answering if there is one. */
  function Untrack(t: Tracking, task: nat): Tracking {
    var rest := t.(tasks := t.tasks - {task}, inFlight := t.inFlight - 1);
    if task !in t.byTask then rest
    else rest.(byTask := t.byTask - {task}, active := t.active - {t.byTask[task]})
  }

  /** A successful result that will not fit the peer's limit is replaced by an error. */
  function Fitted(outcome: Outcome, fits: bool): Outcome {
    if outcome.Ok? && !fits then Failed(FrameTooLarge) else outcome
  }

  function OnSettled(d: Driver, task: nat, outcome: Outcome, fits: bool): Driver {
    var t := d.tracking;
    var rest := d.(tracking := Untrack(t, task));
    if task !in t.byTask || t.byTask[task] !in t.active then rest
    else Enqueue(rest, AnswerFrame(t.byTask[task], Fitted(outcome, fits)))
  }

  function OnResponse(d: Driver, id: Id, outcome: Outcome): Driver {
    if id !in d.pending then d
    else d.(pending := d.pending - {id}, replies := d.replies[d.pending[id].reply := Value(outcome)])
  }

  function OnHello(d: Driver, hello: Hello): (Driver, Option<Teardown>) {
    if d.state != Handshaking then (d, Some(Local(PROTOCOL_ERROR)))
    else
      match Negotiate(d.hello.protocol, hello.protocol)
      case Incompatible(code) => (SettleReady(d, ReadyFailed(Mismatch)), Some(Local(code)))
      case Compatible(minor) =>
        var remote := Remote(minor, hello.limits);
        (SettleReady(d.(state := Ready, remote := Some(remote)), ReadyOk(remote)), None)
  }

  /** Routes one inbound frame; `task` is the id a spawned handler would get. */
  function OnFrame(d: Driver, f: Frame, task: nat): (Driver, Option<Teardown>) {
    match f
    case HelloFrame(hello) => OnHello(d, hello)
    case Close(code) => (d, Some(PeerFrame(code)))
    case Req(id, name, _) => (OnRequest(d, id, name, task), None)
    case Res(id, result) => (OnResponse(d, id, Ok(result)), None)
    case Err(id, error) => (OnResponse(d, id, Failed(error)), None)
    case Evt(event) => (if d.state == Ready then d.(inbox := d.inbox + [event]) else d, None)
    case Cancel(id) => (OnCancel(d, id), None)
    case Ping => (Enqueue(d, Pong), None)
    case Pong => (d.(awaitingPong := false), None)
  }

  /** Removing a pending entry drops its reply sender, which hangs the channel up. */
  function Forget(d: Driver, id: Id): Driver {
    if id !in d.pending then d
    else d.(pending := d.pending - {id}, replies := d.replies[d.pending[id].reply := Hung])
  }

  function OnCommand(d: Driver, c: Command): (Driver, Option<Teardown>) {
    match c
    case CloseSession(code) => (d, Some(Local(code)))
    case Request(id, name, params, reply) =>
      (Enqueue(d.(pending := d.pending[id := PendingRequest(name, reply)]), Req(id, name, params)), None)
    case CancelRequest(id, forget) =>
      (Enqueue(if forget then d else Forget(d, id), Cancel(id)), None)
    case Send(frame) => (Enqueue(d, frame), None)
  }

  function OnTick(d: Driver): (Driver, Option<Teardown>) {
    if d.awaitingPong then (d, Some(Local(RELEASED)))
    else (Enqueue(d.(awaitingPong := true), Ping), None)
  }

  /** What `ready` fails with when a session ends unsettled. */
  function ReadyFailure(reason: Teardown): ReadyOutcome {
    ReadyFailed(if reason.code == PROTOCOL_MISMATCH then Mismatch else Unavailable)
  }

  /** The reply channels of the requests still pending. */
  ghost function Channels(pending: map<Id, PendingRequest>): set<nat> {
    set id | id in pending :: pending[id].reply
  }

  /** Every caller still pending is told the session closed. */
  ghost function FailedReplies(pending: map<Id, PendingRequest>, replies: map<nat, Reply>): map<nat, Reply> {
    replies + map k | k in Channels(pending) :: Value(Failed(Unavailable))
  }

  // ---------------------------------------------------------------------
  // The response guarantee, against any inbound frames whatsoever.

  /** Everything the driver's loop can be handed. */
  datatype Input =
    | Inbound(frame: Frame, task: nat)
    | Settled(task: nat, outcome: Outcome, fits: bool)
    | Cmd(command: Command)
    | Tick
    | Handlers(handlers: set<string>)

  /** `spawn` hands out an id no unjoined task holds, and only a spawned task can settle. */
  predicate Possible(d: Driver, i: Input) {
    match i
    case Inbound(_, task) => task !in d.tracking.tasks
    case Settled(task, _, _) => task in d.tracking.tasks
    case Cmd(c) => c.Send? ==> c.frame.Evt? || c.frame.Ping?
    case _ => true
  }

  function Step(d: Driver, i: Input): (Driver, Option<Teardown>) {
    match i
    case Inbound(frame, task) => OnFrame(d, frame, task)
    case Settled(task, outcome, fits) => (OnSettled(d, task, outcome, fits), None)
    case Cmd(c) => OnCommand(d, c)
    case Tick => OnTick(d)
    case Handlers(hs) => (d.(handlers := hs), None)
  }

  /** The loop: inputs are taken in turn until one of them breaks out of it. */
  ghost predicate Runs(d: Driver, inputs: seq<Input>, d': Driver)
    decreases |inputs|
  {
    if inputs == [] then d' == d
    else
      Possible(d, inputs[0]) &&
      var (next, stop) := Step(d, inputs[0]);
      if stop.Some? then |inputs| == 1 && d' == next else Runs(next, inputs[1..], d')
  }

  function InputAsk(i: Input): Option<Id> {
    if i.Inbound? then AskOf(i.frame) else None
  }

  /** Some unjoined task is answering `id`. */
  ghost predicate HasTask(byTask: map<nat, Id>, id: Id) {
    exists task :: task in byTask && byTask[task] == id
  }

  /** Tasks and active requests match one to one. */
  ghost predicate Matched(byTask: map<nat, Id>, active: set<Id>) {
    && (forall task :: task in byTask ==> byTask[task] in active)
    && (forall id :: id in active ==> HasTask(byTask, id))
    && (forall a, b :: a in byTask && b in byTask && byTask[a] == byTask[b] ==> a == b)
  }

  /**
   The three bookkeeping maps agree: every unjoined task answers exactly one
   active request, every active request has exactly one task, and the counter
   counts them, within the announced ceiling.
   */
  ghost predicate Tracked(t: Tracking, maxInFlight: nat) {
    && t.byTask.Keys == t.tasks
    && Matched(t.byTask, t.active.Keys)
    && |t.active| == |t.tasks| == t.inFlight <= maxInFlight
  }

  lemma MatchedAdd(byTask: map<nat, Id>, active: set<Id>, task: nat, id: Id)
    requires Matched(byTask, active) && task !in byTask && id !in active
    ensures Matched(byTask[task := id], active + {id})
  {
    var byTask' := byTask[task := id];
    assert byTask'[task] == id;
    forall other | other in active ensures HasTask(byTask', other) {
      var a :| a in byTask && byTask[a] == other;
      assert byTask'[a] == other;
    }
  }

  lemma MatchedRemove(byTask: map<nat, Id>, active: set<Id>, task: nat)
    requires Matched(byTask, active) && task in byTask
    ensures Matched(byTask - {task}, active - {byTask[task]})
  {
    var byTask' := byTask - {task};
    forall other | other in active && other != byTask[task] ensures HasTask(byTask', other) {
      var a :| a in byTask && byTask[a] == other;
      assert byTask'[a] == other;
    }
  }

  lemma TrackKeeps(t: Tracking, maxInFlight: nat, id: Id, name: string, task: nat)
    requires Tracked(t, maxInFlight) && task !in t.tasks && id !in t.active && |t.active| < maxInFlight
    ensures Tracked(Track(t, id, name, task), maxInFlight)
    ensures Track(t, id, name, task).active.Keys == t.active.Keys + {id}
  {
    hide Matched;
    MatchedAdd(t.byTask, t.active.Keys, task, id);
    assert Track(t, id, name, task).active.Keys == t.active.Keys + {id};
  }

  lemma UntrackKeeps(t: Tracking, maxInFlight: nat, task: nat)
    requires Tracked(t, maxInFlight) && task in t.tasks
    ensures t.byTask[task] in t.active
    ensures Tracked(Untrack(t, task), maxInFlight)
    ensures Untrack(t, task).active.Keys == t.active.Keys - {t.byTask[task]}
  {
    assert t.byTask[task] in t.active;
    hide Matched;
    MatchedRemove(t.byTask, t.active.Keys, task);
    assert Untrack(t, task).active.Keys == t.active.Keys - {t.byTask[task]};
  }

  lemma CancelKeeps(d: Driver, id: Id)
    requires Tracked(d.tracking, d.maxInFlight)
    ensures Tracked(OnCancel(d, id).tracking, d.maxInFlight)
    ensures OnCancel(d, id).tracking.active.Keys == d.tracking.active.Keys
  {
    assert OnCancel(d, id).tracking.active.Keys == d.tracking.active.Keys;
  }

  /** How often this driver has `id` in hand: once if it is active, and once per answer enqueued. */
  ghost function Accounted(d: Driver, id: Id): nat {
    (if id in d.tracking.active then 1 else 0) + Count(AnswerOf, d.outbox, id)
  }

  lemma EnqueueAccounts(d: Driver, f: Frame, key: Id)
    ensures Accounted(Enqueue(d, f), key) == Accounted(d, key) + One(AnswerOf(f), key)
  {
    CountAppend(AnswerOf, d.outbox, f, key);
  }

  lemma RequestAccounts(d: Driver, id: Id, name: string, task: nat, key: Id)
    requires Tracked(d.tracking, d.maxInFlight) && task !in d.tracking.tasks
    ensures Tracked(OnRequest(d, id, name, task).tracking, d.maxInFlight)
    ensures Accounted(OnRequest(d, id, name, task), key) == Accounted(d, key) + One(Some(id), key)
  {
    match Route(d, id, name)
    case Some(why) =>
      hide Tracked, Count, Route;
      EnqueueAccounts(d, Err(id, Refused(why)), key);
    case None =>
      hide Tracked, Count, MayAsk, Track, Accounted;
      TrackKeeps(d.tracking, d.maxInFlight, id, name, task);
      TrackAccounts(d, OnRequest(d, id, name, task), id, key);
  }

  /** An accepted request is in hand once more than before. */
  lemma TrackAccounts(d: Driver, now: Driver, id: Id, key: Id)
    requires now.outbox == d.outbox && id !in d.tracking.active
    requires now.tracking.active.Keys == d.tracking.active.Keys + {id}
    ensures Accounted(now, key) == Accounted(d, key) + One(Some(id), key)
  {
    hide Count;
    assert key in now.tracking.active <==> key in now.tracking.active.Keys;
    assert key in d.tracking.active <==> key in d.tracking.active.Keys;
  }

  lemma SettledAccounts(d: Driver, task: nat, outcome: Outcome, fits: bool, key: Id)
    requires Tracked(d.tracking, d.maxInFlight) && task in d.tracking.tasks
    ensures Tracked(OnSettled(d, task, outcome, fits).tracking, d.maxInFlight)
    ensures OnSettled(d, task, outcome, fits).maxInFlight == d.maxInFlight
    ensures Accounted(OnSettled(d, task, outcome, fits), key) == Accounted(d, key)
  {
    UntrackKeeps(d.tracking, d.maxInFlight, task);
    hide Matched, Count;
    var rest := d.(tracking := Untrack(d.tracking, task));
    EnqueueAccounts(rest, AnswerFrame(d.tracking.byTask[task], Fitted(outcome, fits)), key);
  }

  /** Commands and ticks only enqueue frames that answer nothing. */
  lemma CommandAccounts(d: Driver, c: Command, key: Id)
    requires c.Send? ==> c.frame.Evt? || c.frame.Ping?
    ensures Accounted(OnCommand(d, c).0, key) == Accounted(d, key)
    ensures OnCommand(d, c).0.tracking == d.tracking && OnCommand(d, c).0.maxInFlight == d.maxInFlight
  {
    hide Count;
    match c
    case CloseSession(_) =>
    case Request(id, name, params, reply) =>
      EnqueueAccounts(d.(pending := d.pending[id := PendingRequest(name, reply)]), Req(id, name, params), key);
    case CancelRequest(id, forget) => EnqueueAccounts(if forget then d else Forget(d, id), Cancel(id), key);
    case Send(frame) => EnqueueAccounts(d, frame, key);
  }

  lemma FrameAccounts(d: Driver, f: Frame, task: nat, key: Id)
    requires Tracked(d.tracking, d.maxInFlight) && task !in d.tracking.tasks
    ensures Tracked(OnFrame(d, f, task).0.tracking, d.maxInFlight) && OnFrame(d, f, task).0.maxInFlight == d.maxInFlight
    ensures Accounted(OnFrame(d, f, task).0, key) == Accounted(d, key) + One(AskOf(f), key)
  {
    hide Count, Tracked, Negotiate;
    match f
    case Req(id, name, _) => RequestAccounts(d, id, name, task, key);
    case Cancel(id) => CancelKeeps(d, id);
    case Ping => EnqueueAccounts(d, Pong, key);
    case _ =>
  }

  /** One step: what it asks is answered or active, and nothing else changes the balance. */
  lemma StepAccounts(d: Driver, i: Input, key: Id)
    requires Tracked(d.tracking, d.maxInFlight) && Possible(d, i)
    ensures Tracked(Step(d, i).0.tracking, d.maxInFlight) && Step(d, i).0.maxInFlight == d.maxInFlight
    ensures Accounted(Step(d, i).0, key) == Accounted(d, key) + One(InputAsk(i), key)
  {
    hide Tracked, Count, OnFrame, OnCommand, OnSettled;
    match i
    case Inbound(f, task) => FrameAccounts(d, f, task, key);
    case Settled(task, outcome, fits) => SettledAccounts(d, task, outcome, fits, key);
    case Cmd(c) => CommandAccounts(d, c, key);
    case Tick => EnqueueAccounts(d.(awaitingPong := true), Ping, key);
    case Handlers(_) =>
  }

  /**
   The response guarantee. Whatever frames arrive, conforming or not, at every
   point before teardown each request id has been asked exactly as often as it
   has been answered, plus once more if it is still active; and the in-flight
   bookkeeping is exact and within its ceiling.
   */
  lemma {:induction false} ResponseGuarantee(d: Driver, inputs: seq<Input>, d': Driver, id: Id)
    requires Tracked(d.tracking, d.maxInFlight) && Runs(d, inputs, d')
    ensures Tracked(d'.tracking, d.maxInFlight)
    ensures Accounted(d', id) == Accounted(d, id) + Count(InputAsk, inputs, id)
    decreases |inputs|
  {
    hide Tracked, Accounted, Step, Possible;
    if inputs != [] {
      StepAccounts(d, inputs[0], id);
      if Step(d, inputs[0]).1.None? {
        ResponseGuarantee(Step(d, inputs[0]).0, inputs[1..], d', id);
      } else {
        assert inputs[1..] == [];
      }
    }
  }

  /** The same, for a driver that starts with nothing in hand: every count, for every id. */
  lemma EveryRequestAnsweredOnce(d: Driver, inputs: seq<Input>, d': Driver, id: Id)
    requires d.tracking == NO_TRACKING && d.outbox == [] && Runs(d, inputs, d')
    ensures Count(InputAsk, inputs, id) == Count(AnswerOf, d'.outbox, id) + if id in d'.tracking.active then 1 else 0
    ensures d'.tracking.inFlight == |d'.tracking.tasks| == |d'.tracking.active| <= d.maxInFlight
    ensures Matched(d'.tracking.byTask, d'.tracking.active.Keys)
  {
    hide Runs;
    ResponseGuarantee(d, inputs, d', id);
  }

  /** For every id at once: `ask` is in hand once more than before, and every other id as often. */
  ghost predicate Balances(d: Driver, d': Driver, ask: Option<Id>) {
    forall key :: Accounted(d', key) == Accounted(d, key) + One(ask, key)
  }

  lemma StepBalances(d: Driver, i: Input)
    requires Tracked(d.tracking, d.maxInFlight) && Possible(d, i)
    ensures Tracked(Step(d, i).0.tracking, d.maxInFlight) && Step(d, i).0.maxInFlight == d.maxInFlight
    ensures Balances(d, Step(d, i).0, InputAsk(i))
  {
    hide Tracked, Possible, Step, Accounted, InputAsk;
    var some: Id :| true;
    StepAccounts(d, i, some);
    forall key ensures Accounted(Step(d, i).0, key) == Accounted(d, key) + One(InputAsk(i), key) {
      StepAccounts(d, i, key);
    }
  }

  // ---------------------------------------------------------------------
  // What happens once

  predicate IsHello(i: Input) {
    i.Inbound? && i.frame.HelloFrame?
  }

  /** Once the handshake is over it stays over, and what `ready` was settled with stays. */
  lemma StepSettled(d: Driver, i: Input)
    ensures d.state != Handshaking ==> Step(d, i).0.state == d.state && Step(d, i).0.remote == d.remote
    ensures d.ready.Some? ==> Step(d, i).0.ready == d.ready
    ensures IsHello(i) && Step(d, i).1.None? ==> d.state == Handshaking && Step(d, i).0.state == Ready
  {
    hide Route, Negotiate, Untrack;
  }

  /** After the handshake the next hello is the last input. */
  lemma {:induction false} LaterHelloEnds(d: Driver, inputs: seq<Input>, d': Driver, j: nat)
    requires Runs(d, inputs, d') && d.state != Handshaking && j < |inputs| && IsHello(inputs[j])
    ensures j == |inputs| - 1
    decreases |inputs|
  {
    hide Step, Possible;
    StepSettled(d, inputs[0]);
    if j > 0 {
      assert inputs[1..][j - 1] == inputs[j];
      LaterHelloEnds(Step(d, inputs[0]).0, inputs[1..], d', j - 1);
    }
  }

  /** In any run a second hello, whatever it says, is the last thing the loop takes in. */
  lemma {:induction false} SecondHelloEnds(d: Driver, inputs: seq<Input>, d': Driver, i: nat, j: nat)
    requires Runs(d, inputs, d') && i < j < |inputs| && IsHello(inputs[i]) && IsHello(inputs[j])
    ensures j == |inputs| - 1
    decreases |inputs|
  {
    hide Step, Possible;
    StepSettled(d, inputs[0]);
    assert inputs[1..][j - 1] == inputs[j];
    if i == 0 {
      LaterHelloEnds(Step(d, inputs[0]).0, inputs[1..], d', j - 1);
    } else {
      assert inputs[1..][i - 1] == inputs[i];
      SecondHelloEnds(Step(d, inputs[0]).0, inputs[1..], d', i - 1, j - 1);
    }
  }

  predicate IsPong(i: Input) {
    i.Inbound? && i.frame.Pong?
  }

  lemma StepAwaits(d: Driver, i: Input)
    ensures d.awaitingPong && !IsPong(i) ==> Step(d, i).0.awaitingPong
    ensures i.Tick? ==> Step(d, i).0.awaitingPong && (d.awaitingPong ==> Step(d, i).1.Some?)
  {
    hide Route, Negotiate, Untrack;
  }

  /** With a pong awaited, a tick before it comes is the last input. */
  lemma {:induction false} AwaitedTickEnds(d: Driver, inputs: seq<Input>, d': Driver, j: nat)
    requires Runs(d, inputs, d') && d.awaitingPong && j < |inputs| && inputs[j].Tick?
    requires forall k :: 0 <= k < j ==> !IsPong(inputs[k])
    ensures j == |inputs| - 1
    decreases |inputs|
  {
    hide Step, Possible, IsPong;
    StepAwaits(d, inputs[0]);
    if j > 0 {
      assert forall k :: 0 <= k < j - 1 ==> inputs[1..][k] == inputs[k + 1];
      AwaitedTickEnds(Step(d, inputs[0]).0, inputs[1..], d', j - 1);
    }
  }

  /** In any run two ticks with no pong between them end the loop at the second. */
  lemma {:induction false} UnansweredTickEnds(d: Driver, inputs: seq<Input>, d': Driver, i: nat, j: nat)
    requires Runs(d, inputs, d') && i < j < |inputs| && inputs[i].Tick? && inputs[j].Tick?
    requires forall k :: i < k < j ==> !IsPong(inputs[k])
    ensures j == |inputs| - 1
    decreases |inputs|
  {
    hide Step, Possible, IsPong;
    StepAwaits(d, inputs[0]);
    assert forall k :: 0 <= k < |inputs| - 1 ==> inputs[1..][k] == inputs[k + 1];
    if i == 0 {
      AwaitedTickEnds(Step(d, inputs[0]).0, inputs[1..], d', j - 1);
    } else {
      UnansweredTickEnds(Step(d, inputs[0]).0, inputs[1..], d', i - 1, j - 1);
    }
  }
}
