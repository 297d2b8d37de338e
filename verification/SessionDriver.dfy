/**
 The session driver in the form the source has it: fields updated in place by
 one routine per event, and the loop that calls them. Every routine keeps the
 bookkeeping exact and puts in hand what its event asks; the loop carries the
 response guarantee and the bound on a queued close; and once the session is
 torn down no caller is left waiting on it.
 */
module SessionDrivers {
  import opened Wrappers
  import opened Tokens
  import opened Frames
  import opened Versions
  import opened Session
  import opened SessionEffects
  import opened DriverLoop

  /** Failing one more entry extends the failed replies by its channel. */
  lemma FailOneMore(done: map<Id, PendingRequest>, replies: map<nat, Reply>, id: Id, request: PendingRequest)
    requires id !in done
    ensures FailedReplies(done[id := request], replies) == FailedReplies(done, replies)[request.reply := Value(Failed(Unavailable))]
  {
    assert Channels(done[id := request]) == Channels(done) + {request.reply} by {
      assert done[id := request][id].reply == request.reply;
      forall k | k in Channels(done) ensures k in Channels(done[id := request]) {
        var other :| other in done && done[other].reply == k;
        assert done[id := request][other].reply == k;
      }
    }
  }

  /** Some entries are dealt with, the others still to do. */
  ghost predicate Divided(done: map<Id, PendingRequest>, todo: map<Id, PendingRequest>, all: map<Id, PendingRequest>) {
    done.Keys !! todo.Keys && done + todo == all
  }

  lemma DealWithOne(done: map<Id, PendingRequest>, todo: map<Id, PendingRequest>, all: map<Id, PendingRequest>, id: Id)
    requires Divided(done, todo, all) && id in todo
    ensures Divided(done[id := todo[id]], todo - {id}, all) && id !in done
  {
    assert done[id := todo[id]] + (todo - {id}) == all;
  }

  lemma DividedEnds(all: map<Id, PendingRequest>)
    ensures Divided(map[], all, all)
    ensures forall done :: Divided(done, map[], all) ==> done == all
  {
    assert map[] + all == all;
    forall done | Divided(done, map[], all) ensures done == all {
      assert done + map[] == done;
    }
  }

  lemma NothingFailedYet(replies: map<nat, Reply>)
    ensures FailedReplies(map[], replies) == replies
  {
    assert Channels(map[]) == {};
  }

  /** What `closed()` reports. */
  datatype Closure = Closure(code: nat, fatal: bool, unfinished: nat)

  const FATAL: seq<nat> := [4401, 4403, 4409, 4426]

  /** A call that was pending has a reply once every pending call is failed. */
  /** A caller told that the session closed. */
  predicate Unanswered(replies: map<nat, Reply>, k: nat) {
    k in replies && replies[k] == Value(Failed(Unavailable))
  }

  lemma PendingReplied(pending: map<Id, PendingRequest>, replies: map<nat, Reply>)
    ensures forall id :: id in pending ==> Unanswered(FailedReplies(pending, replies), pending[id].reply)
  {
    forall id | id in pending ensures Unanswered(FailedReplies(pending, replies), pending[id].reply) {
      assert pending[id].reply in Channels(pending);
    }
  }

  lemma RequestBalances(d: Driver, id: Id, name: string, task: nat)
    requires Tracked(d.tracking, d.maxInFlight) && task !in d.tracking.tasks
    ensures Tracked(OnRequest(d, id, name, task).tracking, d.maxInFlight)
    ensures Balances(d, OnRequest(d, id, name, task), Some(id))
  {
    hide Tracked, OnRequest, Accounted;
    RequestAccounts(d, id, name, task, id);
    forall key ensures Accounted(OnRequest(d, id, name, task), key) == Accounted(d, key) + One(Some(id), key) {
      RequestAccounts(d, id, name, task, key);
    }
  }

  lemma SettledBalances(d: Driver, task: nat, outcome: Outcome, fits: bool)
    requires Tracked(d.tracking, d.maxInFlight) && task in d.tracking.tasks
    ensures Tracked(OnSettled(d, task, outcome, fits).tracking, d.maxInFlight)
    ensures Balances(d, OnSettled(d, task, outcome, fits), None)
  {
    hide Tracked, OnSettled, Balances;
    StepBalances(d, Settled(task, outcome, fits));
  }

  lemma FrameBalances(d: Driver, f: Frame, task: nat)
    requires Tracked(d.tracking, d.maxInFlight) && task !in d.tracking.tasks
    ensures Tracked(OnFrame(d, f, task).0.tracking, d.maxInFlight)
    ensures Balances(d, OnFrame(d, f, task).0, AskOf(f))
  {
    hide Tracked, OnFrame, Balances;
    StepBalances(d, Inbound(f, task));
  }

  lemma CancelBalances(d: Driver, id: Id)
    requires Tracked(d.tracking, d.maxInFlight)
    ensures Tracked(OnCancel(d, id).tracking, d.maxInFlight)
    ensures Balances(d, OnCancel(d, id), None)
  {
    CancelKeeps(d, id);
    hide Tracked, Count;
    assert forall key :: key in d.tracking.active <==> key in d.tracking.active.Keys;
  }

  /** What a turn takes in once the top of the loop has run. */
  ghost predicate PossibleInput(e: Engine, p: Poll) {
    InputOf(e, p).Some? ==> Possible(e.driver, InputOf(e, p).value)
  }

  class SessionDriver {
    const hello: Hello
    const maxInFlight: nat
    const livenessEnabled: bool
    var handlers: set<string>
    var state: State
    var remote: Option<Remote>
    var ready: Option<ReadyOutcome>
    var pending: map<Id, PendingRequest>
    var replies: map<nat, Reply>
    var tasks: set<nat>
    var active: map<Id, ActiveRequest>
    var byTask: map<nat, Id>
    var inFlight: int
    var awaitingPong: bool
    var liveness: bool
    var commands: seq<Command>
    var outbox: seq<Frame>
    var inbox: seq<Event>
    var closure: Option<Closure>

    function View(): Driver
      reads this
    {
      Driver(hello, maxInFlight, handlers, state, remote, ready, pending, replies,
             Tracking(tasks, active, byTask, inFlight), awaitingPong, outbox, inbox)
    }

    function EngineView(): Engine
      reads this
    {
      Engine(View(), commands, livenessEnabled, liveness)
    }

    /** Every unjoined task answers one active request, and the counter counts them, within the ceiling. */
    ghost predicate Valid()
      reads this
    {
      Tracked(Tracking(tasks, active, byTask, inFlight), maxInFlight)
    }

    constructor (hello: Hello, maxInFlight: nat, livenessEnabled: bool, handlers: set<string>)
      ensures View() == Driver(hello, maxInFlight, handlers, Handshaking, None, None, map[], map[], NO_TRACKING, false, [], [])
      ensures commands == [] && !liveness && this.livenessEnabled == livenessEnabled && closure.None?
      ensures Valid()
    {
      this.hello, this.maxInFlight, this.livenessEnabled, this.handlers := hello, maxInFlight, livenessEnabled, handlers;
      state, remote, ready := Handshaking, None, None;
      pending, replies := map[], map[];
      tasks, active, byTask, inFlight := {}, map[], map[], 0;
      awaitingPong, liveness, commands, outbox, inbox := false, false, [], [], [];
      closure := None;
    }

    method EnqueueFrame(f: Frame)
      modifies this`outbox
      ensures View() == Enqueue(old(View()), f)
    {
      outbox := outbox + [f];
    }

    method SettleReadyWith(outcome: ReadyOutcome)
      modifies this`ready
      ensures View() == SettleReady(old(View()), outcome) && ready.Some?
    {
      if ready.None? {
        ready := Some(outcome);
      }
    }

    method HandleHello(hello: Hello) returns (stop: Option<Teardown>)
      modifies this`state, this`remote, this`ready
      ensures (View(), stop) == OnHello(old(View()), hello)
      ensures Valid() == old(Valid()) && Balances(old(View()), View(), None)
      ensures old(state) != Handshaking ==> stop == Some(Local(PROTOCOL_ERROR)) && View() == old(View())
      ensures stop.None? <==> old(state) == Handshaking && hello.protocol.major == this.hello.protocol.major
      ensures stop.None? ==> state == Ready && remote.Some? && remote.value.limits == hello.limits
      ensures stop.None? ==>
        var minor := remote.value.effectiveMinor;
        && minor <= this.hello.protocol.minor && minor <= hello.protocol.minor
        && (minor == this.hello.protocol.minor || minor == hello.protocol.minor)
    {
      NegotiatesLower(this.hello.protocol, hello.protocol);
      if state != Handshaking {
        return Some(Local(PROTOCOL_ERROR));
      }
      match Negotiate(this.hello.protocol, hello.protocol) {
        case Incompatible(code) =>
          SettleReadyWith(ReadyFailed(Mismatch));
          stop := Some(Local(code));
        case Compatible(minor) =>
          var announced := Remote(minor, hello.limits);
          state := Ready;
          remote := Some(announced);
          SettleReadyWith(ReadyOk(announced));
          stop := None;
      }
    }

    /** The five refusal checks, in their order. */
    method FirstRefusal(id: Id, name: string) returns (why: Option<Refusal>)
      ensures why == Route(View(), id, name)
    {
      if state != Ready || remote.None? {
        return Some(NotReady);
      }
      if |active| >= maxInFlight {
        return Some(InFlightLimit);
      }
      if id in active {
        return Some(DuplicateId);
      }
      if IsReservedMethod(name) && !IsDefinedReservedMethod(name, remote.value.effectiveMinor) {
        return Some(ReservedMethod);
      }
      return if name !in handlers then Some(NoHandler) else None;
    }

    method Spawn(id: Id, name: string, task: nat)
      modifies this`tasks, this`active, this`byTask, this`inFlight
      ensures View() == old(View()).(tracking := Track(old(View()).tracking, id, name, task))
    {
      inFlight := inFlight + 1;
      tasks := tasks + {task};
      byTask := byTask[task := id];
      active := active[id := ActiveRequest(name, false)];
    }

    /** A request frame is refused or spawned; either way its id is in hand once more, and no other id is touched. */
    method HandleRequest(id: Id, name: string, task: nat)
      requires Valid() && task !in tasks
      modifies this`outbox, this`tasks, this`active, this`byTask, this`inFlight
      ensures View() == OnRequest(old(View()), id, name, task)
      ensures Valid() && Balances(old(View()), View(), Some(id))
      ensures Admissible(old(View()), id, name) ==>
                outbox == old(outbox) && active == old(active)[id := ActiveRequest(name, false)]
      ensures !Admissible(old(View()), id, name) ==>
                active == old(active) && exists why :: FirstFailed(old(View()), id, name, why) && outbox == old(outbox) + [Err(id, Refused(why))]
    {
      hide Tracked, Balances, Route, Track, Admissible, FirstFailed;
      RequestBalances(View(), id, name, task);
      RoutesExactly(View(), id, name, task);
      var why := FirstRefusal(id, name);
      if why.Some? {
        EnqueueFrame(Err(id, Refused(why.value)));
      } else {
        Spawn(id, name, task);
      }
    }

    method HandleCancel(id: Id)
      requires Valid()
      modifies this`active
      ensures View() == OnCancel(old(View()), id)
      ensures Valid() && Balances(old(View()), View(), None)
      ensures id in old(active) ==> active == old(active)[id := old(active)[id].(cancelled := true)]
      ensures id !in old(active) ==> active == old(active)
    {
      CancelBalances(View(), id);
      hide Tracked, Balances;
      if id in active {
        active := active[id := active[id].(cancelled := true)];
      }
    }

    /** The bookkeeping of one joined task: whose request it was answering, if it still was. */
    method Join(task: nat) returns (answering: Option<Id>)
      modifies this`tasks, this`active, this`byTask, this`inFlight
      ensures View() == old(View()).(tracking := Untrack(old(View()).tracking, task))
      ensures answering == if task in old(byTask) && old(byTask)[task] in old(active) then Some(old(byTask)[task]) else None
    {
      tasks := tasks - {task};
      inFlight := inFlight - 1;
      if task !in byTask {
        return None;
      }
      var id := byTask[task];
      byTask := byTask - {task};
      answering := if id in active then Some(id) else None;
      active := active - {id};
    }

    /** One joined handler: bookkeeping first, then the frame, an oversized result replaced. */
    method HandleSettled(task: nat, outcome: Outcome, fits: bool)
      requires Valid() && task in tasks
      modifies this`outbox, this`tasks, this`active, this`byTask, this`inFlight
      ensures View() == OnSettled(old(View()), task, outcome, fits)
      ensures Valid() && Balances(old(View()), View(), None)
      ensures |outbox| == |old(outbox)| + 1 && outbox[..|old(outbox)|] == old(outbox)
      ensures task in old(byTask) && Answers(outbox[|old(outbox)|], old(byTask)[task], outcome, fits)
    {
      assert task in byTask && byTask[task] in active;
      AnswersExactly(View(), task, outcome, fits);
      hide Tracked, Balances, Untrack, Answers;
      SettledBalances(View(), task, outcome, fits);
      var answering := Join(task);
      if answering.Some? {
        Respond(answering.value, outcome, fits);
      }
    }

    method Respond(id: Id, outcome: Outcome, fits: bool)
      modifies this`outbox
      ensures View() == Enqueue(old(View()), AnswerFrame(id, Fitted(outcome, fits)))
    {
      match outcome {
        case Ok(value) =>
          if fits {
            EnqueueFrame(Res(id, value));
          } else {
            EnqueueFrame(Err(id, FrameTooLarge));
          }
        case Failed(error) =>
          EnqueueFrame(Err(id, error));
      }
    }

    method HandleResponse(id: Id, outcome: Outcome)
      modifies this`pending, this`replies
      ensures View() == OnResponse(old(View()), id, outcome)
      ensures Valid() == old(Valid()) && Balances(old(View()), View(), None)
      ensures id !in pending && forall other :: other != id ==> (other in pending <==> other in old(pending))
      ensures replies == if id in old(pending) then old(replies)[old(pending)[id].reply := Value(outcome)] else old(replies)
    {
      if id in pending {
        var request := pending[id];
        pending := pending - {id};
        replies := replies[request.reply := Value(outcome)];
      }
    }

    method HandleFrame(f: Frame, task: nat) returns (stop: Option<Teardown>)
      requires Valid() && task !in tasks
      modifies this
      ensures (View(), stop) == OnFrame(old(View()), f, task)
      ensures Valid() && Balances(old(View()), View(), AskOf(f))
      ensures commands == old(commands) && liveness == old(liveness) && closure == old(closure)
    {
      hide Tracked, Balances, Route, OnHello, OnRequest, OnResponse, OnCancel;
      FrameBalances(View(), f, task);
      stop := None;
      match f {
        case HelloFrame(h) => stop := HandleHello(h);
        case Close(code) => stop := Some(PeerFrame(code));
        case Req(id, name, _) => HandleRequest(id, name, task);
        case Res(id, result) => HandleResponse(id, Ok(result));
        case Err(id, error) => HandleResponse(id, Failed(error));
        case Evt(event) =>
          if state == Ready {
            inbox := inbox + [event];
          }
        case Cancel(id) => HandleCancel(id);
        case Ping => EnqueueFrame(Pong);
        case Pong => awaitingPong := false;
      }
    }

    method HandleCommand(c: Command) returns (stop: Option<Teardown>)
      requires Valid() && (c.Send? ==> c.frame.Evt? || c.frame.Ping?)
      modifies this`pending, this`replies, this`outbox
      ensures (View(), stop) == OnCommand(old(View()), c)
      ensures Valid() && Balances(old(View()), View(), None)
    {
      StepBalances(View(), Cmd(c));
      hide Tracked, Balances;
      stop := None;
      match c {
        case CloseSession(code) => stop := Some(Local(code));
        case Request(id, name, params, reply) =>
          pending := pending[id := PendingRequest(name, reply)];
          EnqueueFrame(Req(id, name, params));
        case CancelRequest(id, forget) =>
          if !forget && id in pending {
            replies := replies[pending[id].reply := Hung];
            pending := pending - {id};
          }
          EnqueueFrame(Cancel(id));
        case Send(frame) => EnqueueFrame(frame);
      }
    }

    method HandleTick() returns (stop: Option<Teardown>)
      requires Valid()
      modifies this`awaitingPong, this`outbox
      ensures (View(), stop) == OnTick(old(View()))
      ensures Valid() && Balances(old(View()), View(), None)
      ensures awaitingPong && (old(awaitingPong) <==> stop.Some?)
      ensures outbox == if stop.Some? then old(outbox) else old(outbox) + [Ping]
    {
      StepBalances(View(), Tick);
      hide Tracked, Balances;
      if awaitingPong {
        return Some(Local(RELEASED));
      }
      awaitingPong := true;
      EnqueueFrame(Ping);
      stop := None;
    }

    /** One pending call fails; which one is up to the map. */
    method FailOne() returns (ghost id: Id)
      requires pending != map[]
      modifies this`pending, this`replies
      ensures id in old(pending) && pending == old(pending) - {id} && |pending| < |old(pending)|
      ensures replies == old(replies)[old(pending)[id].reply := Value(Failed(Unavailable))]
    {
      var next :| next in pending;
      id := next;
      replies := replies[pending[next].reply := Value(Failed(Unavailable))];
      assert pending.Keys - {next} < pending.Keys;
      pending := pending - {next};
    }

    /** Every pending call fails. */
    method FailPending()
      modifies this`pending, this`replies
      ensures pending == map[] && replies == FailedReplies(old(pending), old(replies))
    {
      ghost var before, given := pending, replies;
      ghost var done: map<Id, PendingRequest> := map[];
      hide FailedReplies, Divided;
      NothingFailedYet(given);
      DividedEnds(before);
      while pending != map[]
        invariant replies == FailedReplies(done, given)
        invariant Divided(done, pending, before)
        decreases |pending|
      {
        ghost var todo := pending;
        ghost var id := FailOne();
        DealWithOne(done, todo, before, id);
        FailOneMore(done, given, id, todo[id]);
        done := done[id := todo[id]];
      }
    }

    /**
     Teardown: the state closes, `ready` fails unless settled, every pending
     call fails, active handlers are let go, those that end within the grace
     are joined, and the closure is published with a count of the rest.
     */
    method TearDown(reason: Teardown, joins: seq<nat>)
      modifies this`state, this`ready, this`pending, this`replies, this`active, this`tasks, this`closure
      ensures state == Closed && ready ==
                if old(ready).Some? then old(ready) else Some(ReadyFailed(if reason.code == 4426 then Mismatch else Unavailable))
      ensures pending == map[] && replies == FailedReplies(old(pending), old(replies))
      ensures active == map[] && tasks == old(tasks) - (set t | t in joins)
      ensures closure == Some(Closure(reason.code, reason.code in FATAL, |tasks|))
      ensures forall id :: id in old(pending) ==> Unanswered(replies, old(pending)[id].reply)
    {
      hide FailedReplies;
      PendingReplied(pending, replies);
      state := Closed;
      SettleReadyWith(ReadyFailure(reason));
      FailPending();
      active := map[];
      DrainTasks(joins);
      closure := Some(Closure(reason.code, reason.code in FATAL, |tasks|));
    }

    /** Joins what ends within the grace; stops early once nothing is left. */
    method DrainTasks(joins: seq<nat>)
      modifies this`tasks
      ensures tasks == old(tasks) - (set t | t in joins)
    {
      var k := 0;
      while k < |joins| && tasks != {}
        invariant k <= |joins| && tasks == old(tasks) - (set t | t in joins[..k])
      {
        assert joins[..k + 1] == joins[..k] + [joins[k]];
        tasks := tasks - {joins[k]};
        k := k + 1;
      }
      assert joins[..|joins|] == joins;
      if k < |joins| {
        assert forall t :: t in joins[..k] ==> t in joins;
      }
    }

    /** The top of the loop. */
    method BeginTurn(p: Poll)
      modifies this`commands, this`liveness
      ensures EngineView() == Prepare(old(EngineView()), p)
    {
      commands := commands + p.posted;
      if !liveness && state == Ready && livenessEnabled {
        liveness := true;
      }
    }

    /** The branches in their biased order, the first ready one taken. */
    method TakeBranch(p: Poll) returns (stop: Option<Teardown>)
      requires Valid() && PossibleInput(EngineView(), p)
      modifies this
      ensures EngineView() == Take(old(EngineView()), p).0
      ensures stop == Take(old(EngineView()), p).1 && closure == old(closure)
    {
      hide Tracked, Balances, OnFrame, OnCommand, OnSettled;
      stop := None;
      if p.sendFailed {
        stop := Some(Local(RELEASED));
      } else if p.expired && state == Handshaking {
        SettleReadyWith(ReadyFailed(Unavailable));
        stop := Some(Local(PROTOCOL_ERROR));
      } else if p.tick && liveness {
        stop := HandleTick();
      } else {
        stop := TakeWork(p);
      }
    }

    /** The branches after the writer, the handshake deadline and the liveness tick. */
    method TakeWork(p: Poll) returns (stop: Option<Teardown>)
      requires Valid() && PossibleInput(EngineView(), p)
      requires !p.sendFailed && !(p.expired && state == Handshaking) && !(p.tick && liveness)
      modifies this
      ensures EngineView() == Take(old(EngineView()), p).0
      ensures stop == Take(old(EngineView()), p).1 && closure == old(closure)
    {
      hide Tracked, Balances, OnFrame, OnCommand, OnSettled, OnTick, SettleReady;
      stop := None;
      if p.settled.Some? && tasks != {} {
        HandleSettled(p.settled.value.0, p.settled.value.1, p.settled.value.2);
      } else if commands != [] {
        var c := commands[0];
        commands := commands[1..];
        stop := HandleCommand(c);
      } else if p.arrival.Some? {
        match p.arrival.value {
          case PortEnded(code) => stop := Some(PortClosed(code));
          case Item(frame, task) => stop := HandleFrame(frame, task);
        }
      }
    }

    /** One turn of the `select!`. */
    method Turn(p: Poll) returns (stop: Option<Teardown>)
      requires Valid() && PossibleTurn(EngineView(), p)
      modifies this
      ensures EngineView() == Iterate(old(EngineView()), p).0
      ensures stop == Iterate(old(EngineView()), p).1 && closure == old(closure)
      ensures Valid()
    {
      TurnTracked(EngineView(), p);
      hide Take, Tracked, Possible;
      BeginTurn(p);
      stop := TakeBranch(p);
    }

    /**
     The loop: turns until one of them gives a reason to stop, or nothing more
     is polled. Whatever it takes in, each id is in hand as often more as it was
     asked; and with a close queued behind `i` commands it takes in no frame and
     stops within `i` + tasks + 2 turns.
     */
    method Run(polls: seq<Poll>) returns (stop: Option<Teardown>, iterations: nat, ghost inputs: seq<Input>)
      requires Valid() && PossiblePolls(EngineView(), polls)
      modifies this
      ensures Valid() && closure == old(closure)
      ensures Drive(EngineView(), stop, inputs, iterations) == Driven(old(EngineView()), polls)
      ensures forall id :: Accounted(View(), id) == Accounted(old(View()), id) + Count(InputAsk, inputs, id)
      ensures forall i: nat :: CloseAt(old(EngineView()), i) ==>
                && (forall input :: input in inputs ==> !input.Inbound?)
                && iterations <= i + |old(tasks)| + 2
                && (|polls| >= i + |old(tasks)| + 2 ==> stop.Some?)
    {
      hide Tracked, Accounted, CloseAt, Iterate, PossibleTurn;
      ghost var start := EngineView();
      stop, iterations := None, 0;
      while stop.None? && iterations < |polls|
        invariant iterations <= |polls| && Valid() && closure == old(closure)
        invariant stop.None? ==> PossiblePolls(EngineView(), polls[iterations..])
        invariant stop.None? ==>
          var r := Driven(EngineView(), polls[iterations..]);
          Driven(start, polls) == r.(inputs := Driven(start, polls).inputs, iterations := r.iterations + iterations)
        invariant stop.Some? ==>
          var r := Driven(start, polls);
          EngineView() == r.engine && stop == r.stop && iterations == r.iterations
        decreases |polls| - iterations, stop.None?
      {
        assert polls[iterations..][1..] == polls[iterations + 1..];
        stop := Turn(polls[iterations]);
        iterations := iterations + 1;
      }
      inputs := Driven(start, polls).inputs;
      forall id ensures Accounted(View(), id) == Accounted(start.driver, id) + Count(InputAsk, inputs, id) {
        DrivenGuarantee(start, polls, id);
      }
      forall i: nat | CloseAt(start, i)
        ensures forall input :: input in inputs ==> !input.Inbound?
        ensures iterations <= i + |old(tasks)| + 2
        ensures |polls| >= i + |old(tasks)| + 2 ==> stop.Some?
      {
        CloseNotStarved(start, polls, i);
      }
    }

    /**
     The life of a session: the hello, the loop, and the teardown. Once it has
     ended nobody waits on it: `ready` is settled, no call is pending, and every
     call that was pending when the loop ended has its reply.
     */
    method Serve(helloSent: bool, polls: seq<Poll>, joins: seq<nat>) returns (stop: Option<Teardown>)
      requires Valid() && PossiblePolls(EngineView(), polls)
      modifies this
      ensures !helloSent ==> stop == Some(Local(RELEASED))
      ensures stop.Some? ==> state == Closed && ready.Some? && pending == map[] && active == map[]
      ensures stop.Some? ==> closure.Some? && closure.value.code == stop.value.code
      ensures stop.Some? ==>
        var left := if helloSent then Driven(old(EngineView()), polls).engine.driver.pending else old(pending);
        forall id :: id in left ==> Unanswered(replies, left[id].reply)
    {
      hide Tracked, Driven, PossiblePolls, FailedReplies;
      if !helloSent {
        SettleReadyWith(ReadyFailed(Unavailable));
        stop := Some(Local(RELEASED));
      } else {
        var turns: nat;
        ghost var inputs;
        stop, turns, inputs := Run(polls);
      }
      if stop.Some? {
        TearDown(stop.value, joins);
      }
    }
  }
}
