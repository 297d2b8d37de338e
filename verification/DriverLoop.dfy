/**
 The biased `select!` loop: which ready branch one iteration takes, and why a
 close cannot be held off by a peer that keeps sending.
 */
module DriverLoop {
  import opened Wrappers
  import opened Tokens
  import opened Frames
  import opened Session

  /** A port's next item. */
  datatype Arrival = Item(frame: Frame, task: nat) | PortEnded(code: nat)

  /** What is ready when one iteration polls its branches; `posted` reached the command queue before it did. */
  datatype Poll = Poll(
    posted: seq<Command>,
    sendFailed: bool,
    expired: bool,
    tick: bool,
    settled: Option<(nat, Outcome, bool)>,
    arrival: Option<Arrival>)

  /** The driver, its command queue, and the liveness interval once the handshake has built it. */
  datatype Engine = Engine(driver: Driver, commands: seq<Command>, livenessEnabled: bool, liveness: bool)

  datatype Branch = WriterFailed | Expired | Ticked | Joined | Commanded | Arrived | Idle

  /** The top of the loop: late posts are in the queue, and a ready session has its interval. */
  function Prepare(e: Engine, p: Poll): Engine {
    e.(commands := e.commands + p.posted,
       liveness := e.liveness || (e.driver.state == Ready && e.livenessEnabled))
  }

  /** The first ready branch, in source order. */
  function Choose(e: Engine, p: Poll): Branch {
    if p.sendFailed then WriterFailed
    else if p.expired && e.driver.state == Handshaking then Expired
    else if p.tick && e.liveness then Ticked
    else if p.settled.Some? && e.driver.tracking.tasks != {} then Joined
    else if e.commands != [] then Commanded
    else if p.arrival.Some? then Arrived
    else Idle
  }

  /** The input the chosen branch hands the driver, if it hands it one. */
  function InputOf(e: Engine, p: Poll): Option<Input> {
    match Choose(e, p)
    case Ticked => Some(Tick)
    case Joined => Some(Settled(p.settled.value.0, p.settled.value.1, p.settled.value.2))
    case Commanded => Some(Cmd(e.commands[0]))
    case Arrived => if p.arrival.value.Item? then Some(Inbound(p.arrival.value.frame, p.arrival.value.task)) else None
    case _ => None
  }

  /** Why a branch without an input ends the loop. */
  function StopOf(e: Engine, p: Poll): Option<Teardown> {
    match Choose(e, p)
    case WriterFailed => Some(Local(RELEASED))
    case Expired => Some(Local(PROTOCOL_ERROR))
    case Arrived => if p.arrival.value.PortEnded? then Some(PortClosed(p.arrival.value.code)) else None
    case _ => None
  }

  /** What the chosen branch does. */
  function Take(e: Engine, p: Poll): (Engine, Option<Teardown>) {
    match InputOf(e, p)
    case None =>
      var driver := if Choose(e, p) == Expired then SettleReady(e.driver, ReadyFailed(Unavailable)) else e.driver;
      (e.(driver := driver), StopOf(e, p))
    case Some(input) =>
      var (driver, stop) := Step(e.driver, input);
      var rest := if Choose(e, p) == Commanded then e.commands[1..] else e.commands;
      (e.(driver := driver, commands := rest), stop)
  }

  /** One iteration. */
  function Iterate(e: Engine, p: Poll): (Engine, Option<Teardown>) {
    Take(Prepare(e, p), p)
  }

  /** How a run of the loop went: where it is, why it stopped if it did, and what it took in. */
  datatype Drive = Drive(engine: Engine, stop: Option<Teardown>, inputs: seq<Input>, iterations: nat)

  function Driven(e: Engine, polls: seq<Poll>): Drive
    decreases |polls|
  {
    if polls == [] then Drive(e, None, [], 0)
    else
      var input := InputOf(Prepare(e, polls[0]), polls[0]);
      var taken := if input.Some? then [input.value] else [];
      var (next, stop) := Iterate(e, polls[0]);
      if stop.Some? then Drive(next, stop, taken, 1)
      else
        var rest := Driven(next, polls[1..]);
        rest.(inputs := taken + rest.inputs, iterations := rest.iterations + 1)
  }

  /** The inputs the loop takes are possible ones. */
  ghost predicate PossiblePolls(e: Engine, polls: seq<Poll>)
    decreases |polls|
  {
    polls != [] ==>
      && PossibleTurn(e, polls[0])
      && (Iterate(e, polls[0]).1.None? ==> PossiblePolls(Iterate(e, polls[0]).0, polls[1..]))
  }

  // ---------------------------------------------------------------------
  // The order of the branches

  /** The branches in the order they are polled. */
  const BRANCHES: seq<Branch> := [WriterFailed, Expired, Ticked, Joined, Commanded, Arrived]

  /** Whether a branch has something to do, on the engine as the turn finds it. */
  predicate IsReady(e: Engine, p: Poll, b: Branch) {
    match b
    case WriterFailed => p.sendFailed
    case Expired => p.expired && e.driver.state == Handshaking
    case Ticked => p.tick && (e.liveness || (e.livenessEnabled && e.driver.state == Ready))
    case Joined => p.settled.Some? && e.driver.tracking.tasks != {}
    case Commanded => e.commands != [] || p.posted != []
    case Arrived => p.arrival.Some?
    case Idle => true
  }

  /**
   A turn takes the first ready branch: nothing before it in the order was
   ready. So a frame is taken in only when no failure, deadline, tick, handler
   or command is waiting, and a turn is idle only when nothing is ready.
   */
  lemma FirstReadyTaken(e: Engine, p: Poll)
    ensures var b := Choose(Prepare(e, p), p);
            && IsReady(e, p, b)
            && (b == Idle ==> forall k :: 0 <= k < |BRANCHES| ==> !IsReady(e, p, BRANCHES[k]))
            && (forall k :: 0 <= k < |BRANCHES| && BRANCHES[k] == b ==> forall j :: 0 <= j < k ==> !IsReady(e, p, BRANCHES[j]))
  {
    assert BRANCHES[0] == WriterFailed && BRANCHES[1] == Expired && BRANCHES[2] == Ticked
        && BRANCHES[3] == Joined && BRANCHES[4] == Commanded && BRANCHES[5] == Arrived;
  }

  /** What each branch hands the driver or ends the loop with. */
  lemma BranchDoes(e: Engine, p: Poll)
    ensures var prepared := Prepare(e, p);
            match Choose(prepared, p)
            case WriterFailed => InputOf(prepared, p).None? && Iterate(e, p).1 == Some(Local(4000))
            case Expired =>
              && InputOf(prepared, p).None? && Iterate(e, p).1 == Some(Local(4400))
              && Iterate(e, p).0.driver.ready ==
                 if e.driver.ready.Some? then e.driver.ready else Some(ReadyFailed(Unavailable))
            case Ticked => InputOf(prepared, p) == Some(Tick)
            case Joined => InputOf(prepared, p) == Some(Settled(p.settled.value.0, p.settled.value.1, p.settled.value.2))
            case Commanded => InputOf(prepared, p) == Some(Cmd((e.commands + p.posted)[0]))
            case Arrived =>
              (match p.arrival.value
               case Item(frame, task) => InputOf(prepared, p) == Some(Inbound(frame, task))
               case PortEnded(code) => InputOf(prepared, p).None? && Iterate(e, p).1 == Some(PortClosed(code)))
            case Idle => InputOf(prepared, p).None? && Iterate(e, p) == (prepared, None)
  {
    hide Step;
  }

  // ---------------------------------------------------------------------
  // No command is lost or overtaken

  function CommandIn(i: Input): seq<Command> {
    if i.Cmd? then [i.command] else []
  }

  function Commands(inputs: seq<Input>): seq<Command> {
    if inputs == [] then [] else CommandIn(inputs[0]) + Commands(inputs[1..])
  }

  /** What was posted before each of the first `n` turns. */
  function Posts(polls: seq<Poll>, n: nat): seq<Command>
    requires n <= |polls|
  {
    if n == 0 then [] else polls[0].posted + Posts(polls[1..], n - 1)
  }

  lemma {:induction false} CommandsConcat(a: seq<Input>, b: seq<Input>)
    ensures Commands(a + b) == Commands(a) + Commands(b)
  {
    if a == [] {
      assert a + b == b;
    } else {
      hide CommandIn;
      assert (a + b)[1..] == a[1..] + b;
      CommandsConcat(a[1..], b);
      Regroup(CommandIn(a[0]), Commands(a[1..]), Commands(b));
    }
  }

  /** One turn: the command it takes and those left are those there were and those posted. */
  lemma TurnCommands(e: Engine, p: Poll)
    ensures var input := InputOf(Prepare(e, p), p);
            Commands(if input.Some? then [input.value] else []) + Iterate(e, p).0.commands == e.commands + p.posted
  {
    hide Step;
    var input := InputOf(Prepare(e, p), p);
    var all := e.commands + p.posted;
    if input.Some? {
      assert [input.value][1..] == [];
    }
    if input.Some? && input.value.Cmd? {
      assert all == [all[0]] + all[1..];
    }
  }

  /** Over any run of the loop: the commands taken, then those still queued, are those queued at first and every one posted, in order. */
  lemma {:induction false} CommandsInOrder(e: Engine, polls: seq<Poll>)
    ensures var r := Driven(e, polls);
            r.iterations <= |polls| && Commands(r.inputs) + r.engine.commands == e.commands + Posts(polls, r.iterations)
    decreases |polls|
  {
    hide Iterate, InputOf, Prepare;
    if polls == [] {
      assert [] + e.commands == e.commands + [];
    } else {
      var p := polls[0];
      var input := InputOf(Prepare(e, p), p);
      var taken := if input.Some? then [input.value] else [];
      var (next, stop) := Iterate(e, p);
      TurnCommands(e, p);
      if stop.Some? {
        assert Posts(polls, 1) == p.posted + [];
        assert p.posted + [] == p.posted;
      } else {
        CommandsInOrder(next, polls[1..]);
        var rest := Driven(next, polls[1..]);
        CommandsConcat(taken, rest.inputs);
        Regroup(Commands(taken), Commands(rest.inputs), rest.engine.commands);
        Regroup(Commands(taken), next.commands, Posts(polls[1..], rest.iterations));
        Regroup(e.commands, p.posted, Posts(polls[1..], rest.iterations));
      }
    }
  }

  // ---------------------------------------------------------------------
  // The response guarantee holds of the loop

  /** What the loop does to the driver is a run of the driver on the inputs it took; a handshake that expired settles `ready` and nothing else. */
  lemma {:induction false} DrivenRuns(e: Engine, polls: seq<Poll>) returns (d: Driver)
    requires PossiblePolls(e, polls)
    ensures Runs(e.driver, Driven(e, polls).inputs, d)
    ensures Driven(e, polls).engine.driver == d.(ready := Driven(e, polls).engine.driver.ready)
    decreases |polls|
  {
    hide Possible, Step, Choose;
    if polls == [] {
      d := e.driver;
    } else {
      var p := polls[0];
      var input := InputOf(Prepare(e, p), p);
      var (next, stop) := Iterate(e, p);
      if stop.Some? {
        d := if input.Some? then next.driver else e.driver;
      } else {
        d := DrivenRuns(next, polls[1..]);
        var rest := Driven(next, polls[1..]);
        if input.Some? {
          assert ([input.value] + rest.inputs)[1..] == rest.inputs;
        } else {
          assert [] + rest.inputs == rest.inputs;
        }
      }
    }
  }

  /** The loop keeps the bookkeeping exact, and answers or holds what it takes in, from any tracked state. */
  lemma DrivenGuarantee(e: Engine, polls: seq<Poll>, id: Id)
    requires PossiblePolls(e, polls) && Tracked(e.driver.tracking, e.driver.maxInFlight)
    ensures var r := Driven(e, polls);
            && Tracked(r.engine.driver.tracking, e.driver.maxInFlight)
            && Accounted(r.engine.driver, id) == Accounted(e.driver, id) + Count(InputAsk, r.inputs, id)
  {
    hide PossiblePolls, Driven, Runs, Count, Tracked;
    var d := DrivenRuns(e, polls);
    ResponseGuarantee(e.driver, Driven(e, polls).inputs, d, id);
  }

  /** What one turn takes in is possible. */
  ghost predicate PossibleTurn(e: Engine, p: Poll) {
    var input := InputOf(Prepare(e, p), p);
    input.Some? ==> Possible(e.driver, input.value)
  }

  lemma TurnTracked(e: Engine, p: Poll)
    requires PossibleTurn(e, p) && Tracked(e.driver.tracking, e.driver.maxInFlight)
    ensures Tracked(Iterate(e, p).0.driver.tracking, e.driver.maxInFlight)
  {
    hide Tracked, Step, Possible, Balances;
    var input := InputOf(Prepare(e, p), p);
    if input.Some? {
      StepBalances(e.driver, input.value);
    }
  }

  /** So every request frame the loop took in is answered once, or still active, whatever was ready when. */
  lemma LoopAnswersOnce(e: Engine, polls: seq<Poll>, id: Id)
    requires PossiblePolls(e, polls) && e.driver.tracking == NO_TRACKING && e.driver.outbox == []
    ensures var r := Driven(e, polls);
            Count(InputAsk, r.inputs, id)
            == Count(AnswerOf, r.engine.driver.outbox, id) + if id in r.engine.driver.tracking.active then 1 else 0
  {
    hide PossiblePolls, Driven, Runs, Count;
    var d := DrivenRuns(e, polls);
    EveryRequestAnsweredOnce(e.driver, Driven(e, polls).inputs, d, id);
  }

  // ---------------------------------------------------------------------
  // A close cannot be starved

  /** The most iterations that can still pass before the close at position `i` is taken. */
  ghost function Remaining(e: Engine, i: nat): nat {
    i + |e.driver.tracking.tasks| + if e.driver.awaitingPong then 0 else 1
  }

  ghost predicate CloseAt(e: Engine, i: nat) {
    i < |e.commands| && e.commands[i].CloseSession?
  }

  /** With a close queued, an iteration takes no inbound frame, and ends the loop or comes closer to the close. */
  lemma CloserToClose(e: Engine, p: Poll, i: nat)
    requires CloseAt(e, i)
    requires PossibleTurn(e, p)
    ensures var input := InputOf(Prepare(e, p), p); input.Some? ==> !input.value.Inbound?
    ensures var (next, stop) := Iterate(e, p);
            stop.None? ==> exists j :: CloseAt(next, j) && Remaining(next, j) < Remaining(e, i)
  {
    var prepared := Prepare(e, p);
    var (next, stop) := Iterate(e, p);
    assert prepared.commands[i] == e.commands[i];
    if stop.None? {
      match Choose(prepared, p) {
        case Ticked =>
          assert CloseAt(next, i) && Remaining(next, i) < Remaining(e, i);
        case Joined =>
          JoinShrinks(e.driver, p.settled.value.0, p.settled.value.1, p.settled.value.2);
          assert CloseAt(next, i) && Remaining(next, i) < Remaining(e, i);
        case Commanded =>
          CommandKeepsTasks(e.driver, prepared.commands[0]);
          assert i > 0;
          assert next.commands[i - 1] == prepared.commands[i];
          assert CloseAt(next, i - 1) && Remaining(next, i - 1) < Remaining(e, i);
      }
    }
  }

  lemma JoinShrinks(d: Driver, task: nat, outcome: Outcome, fits: bool)
    requires task in d.tracking.tasks
    ensures |OnSettled(d, task, outcome, fits).tracking.tasks| == |d.tracking.tasks| - 1
    ensures OnSettled(d, task, outcome, fits).awaitingPong == d.awaitingPong
  {
  }

  lemma CommandKeepsTasks(d: Driver, c: Command)
    ensures OnCommand(d, c).0.tracking == d.tracking && OnCommand(d, c).0.awaitingPong == d.awaitingPong
  {
  }

  /**
   A close is not starved. Once it is queued behind `i` commands the loop takes
   no further inbound frame, whatever the peer sends and whatever else is
   posted, and stops within `i` + outstanding handlers + 2 iterations.
   */
  lemma CloseNotStarved(e: Engine, polls: seq<Poll>, i: nat)
    requires CloseAt(e, i) && PossiblePolls(e, polls)
    ensures forall input :: input in Driven(e, polls).inputs ==> !input.Inbound?
    ensures Driven(e, polls).iterations <= i + |e.driver.tracking.tasks| + 2
    ensures |polls| >= i + |e.driver.tracking.tasks| + 2 ==> Driven(e, polls).stop.Some?
  {
    CloseWithin(e, polls, i);
  }

  lemma {:induction false} CloseWithin(e: Engine, polls: seq<Poll>, i: nat)
    requires CloseAt(e, i) && PossiblePolls(e, polls)
    ensures forall input :: input in Driven(e, polls).inputs ==> !input.Inbound?
    ensures Driven(e, polls).iterations <= Remaining(e, i) + 1
    ensures |polls| > Remaining(e, i) ==> Driven(e, polls).stop.Some?
    decreases |polls|
  {
    if polls != [] {
      CloserToClose(e, polls[0], i);
      var (next, stop) := Iterate(e, polls[0]);
      hide Iterate, InputOf, Prepare, Remaining, CloseAt;
      if stop.None? {
        var j :| CloseAt(next, j) && Remaining(next, j) < Remaining(e, i);
        CloseWithin(next, polls[1..], j);
      }
    }
  }
}
