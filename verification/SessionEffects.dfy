/**
 What each input of the driver does, stated on what callers and the peer can see:
 which requests are accepted and why the others are refused, what a handler's
 outcome is answered with, when a request is marked cancelled, what is sent and
 delivered in which order, and what ends the loop.
 */
module SessionEffects {
  import opened Wrappers
  import opened Frames
  import opened Versions
  import opened Session

  // ---------------------------------------------------------------------
  // Routing

  /** The order in which a request can fail. */
  const CHECKS: seq<Refusal> := [NotReady, InFlightLimit, DuplicateId, ReservedMethod, NoHandler]

  /** What a request must meet not to be refused for `why`. */
  predicate Meets(d: Driver, id: Id, name: string, why: Refusal) {
    match why
    case NotReady => d.state == Ready && d.remote.Some?
    case InFlightLimit => |d.tracking.active| < d.maxInFlight
    case DuplicateId => id !in d.tracking.active
    case ReservedMethod => d.remote.Some? && "rpc." <= name ==> name == "rpc.discover" && d.remote.value.effectiveMinor >= 1
    case NoHandler => name in d.handlers
  }

  predicate Admissible(d: Driver, id: Id, name: string) {
    forall why :: why in CHECKS ==> Meets(d, id, name, why)
  }

  /** `why` is the first check the request fails. */
  predicate FirstFailed(d: Driver, id: Id, name: string, why: Refusal) {
    exists k :: 0 <= k < |CHECKS| && CHECKS[k] == why && !Meets(d, id, name, why)
             && forall j :: 0 <= j < k ==> Meets(d, id, name, CHECKS[j])
  }

  lemma RouteChecks(d: Driver, id: Id, name: string)
    ensures Route(d, id, name).None? <==> Admissible(d, id, name)
    ensures Route(d, id, name).Some? ==> FirstFailed(d, id, name, Route(d, id, name).value)
  {
    assert CHECKS[0] == NotReady && CHECKS[1] == InFlightLimit && CHECKS[2] == DuplicateId
        && CHECKS[3] == ReservedMethod && CHECKS[4] == NoHandler;
    match Route(d, id, name)
    case None =>
    case Some(why) =>
      var k := match why case NotReady => 0 case InFlightLimit => 1 case DuplicateId => 2 case ReservedMethod => 3 case NoHandler => 4;
      assert CHECKS[k] == why && !Meets(d, id, name, why);
      assert forall j :: 0 <= j < k ==> Meets(d, id, name, CHECKS[j]);
  }

  /**
   A request frame starts a handler if and only if it meets all five checks, and
   then sends nothing; otherwise it starts none and is answered at once with the
   refusal of the first check it fails.
   */
  lemma RoutesExactly(d: Driver, id: Id, name: string, task: nat)
    ensures var d' := OnRequest(d, id, name, task);
            if Admissible(d, id, name) then
              && d'.outbox == d.outbox
              && d'.tracking.active == d.tracking.active[id := ActiveRequest(name, false)]
              && d'.tracking.byTask == d.tracking.byTask[task := id]
            else
              && d'.tracking == d.tracking
              && exists why :: FirstFailed(d, id, name, why) && d'.outbox == d.outbox + [Err(id, Refused(why))]
  {
    RouteChecks(d, id, name);
    hide Route, Admissible, FirstFailed;
    match Route(d, id, name)
    case None =>
    case Some(why) => assert FirstFailed(d, id, name, why);
  }

  // ---------------------------------------------------------------------
  // Answers

  /** The answer to a run: its value if it fits, an error in its place if it does not, or its own error. */
  predicate Answers(f: Frame, id: Id, outcome: Outcome, fits: bool) {
    match outcome
    case Ok(v) => f == if fits then Res(id, v) else Err(id, FrameTooLarge)
    case Failed(e) => f == Err(id, e)
  }

  /** A joined handler that was answering a request sends exactly one frame, the answer to it. */
  lemma AnswersExactly(d: Driver, task: nat, outcome: Outcome, fits: bool)
    requires task in d.tracking.byTask && d.tracking.byTask[task] in d.tracking.active
    ensures var d', id := OnSettled(d, task, outcome, fits), d.tracking.byTask[task];
            && |d'.outbox| == |d.outbox| + 1 && d'.outbox[..|d.outbox|] == d.outbox
            && Answers(d'.outbox[|d.outbox|], id, outcome, fits)
            && d'.tracking.active == d.tracking.active - {id}
  {
  }

  // ---------------------------------------------------------------------
  // Runs, state by state

  /** The driver after the first `k` inputs. */
  function StateAt(d: Driver, inputs: seq<Input>, k: nat): Driver
    requires k <= |inputs|
  {
    if k == 0 then d else Step(StateAt(d, inputs, k - 1), inputs[k - 1]).0
  }

  /** Every input was possible, and none has broken out of the loop. */
  predicate Alive(d: Driver, inputs: seq<Input>) {
    forall k :: 0 <= k < |inputs| ==>
      Possible(StateAt(d, inputs, k), inputs[k]) && Step(StateAt(d, inputs, k), inputs[k]).1.None?
  }

  lemma {:induction false} StateAfterFirst(d: Driver, inputs: seq<Input>, k: nat)
    requires inputs != [] && k < |inputs|
    ensures StateAt(Step(d, inputs[0]).0, inputs[1..], k) == StateAt(d, inputs, k + 1)
  {
    hide Step;
    if k > 0 {
      StateAfterFirst(d, inputs, k - 1);
    }
  }

  /** A run ends in the state after its last input. */
  lemma {:induction false} RunsState(d: Driver, inputs: seq<Input>, d': Driver)
    requires Runs(d, inputs, d')
    ensures d' == StateAt(d, inputs, |inputs|)
    decreases |inputs|
  {
    hide Step, Possible;
    if inputs != [] {
      var next := Step(d, inputs[0]).0;
      StateAfterFirst(d, inputs, |inputs| - 1);
      if Step(d, inputs[0]).1.None? {
        RunsState(next, inputs[1..], d');
      }
    }
  }

  // ---------------------------------------------------------------------
  // Cancellation

  predicate Cancelling(i: Input, id: Id) {
    i.Inbound? && i.frame == Cancel(id)
  }

  /** While a request stays active only a cancel of its id marks it, and nothing clears the mark. */
  lemma StepMarks(d: Driver, i: Input, id: Id)
    requires id in d.tracking.active && id in Step(d, i).0.tracking.active
    ensures Step(d, i).0.tracking.active[id].cancelled <==> d.tracking.active[id].cancelled || Cancelling(i, id)
  {
    match i
    case Inbound(f, task) => FrameMarks(d, f, task, id);
    case Settled(task, outcome, fits) => hide AnswerFrame, Fitted;
    case _ =>
  }

  lemma FrameMarks(d: Driver, f: Frame, task: nat, id: Id)
    requires id in d.tracking.active && id in OnFrame(d, f, task).0.tracking.active
    ensures OnFrame(d, f, task).0.tracking.active[id].cancelled <==> d.tracking.active[id].cancelled || f == Cancel(id)
  {
    hide Negotiate, MayAsk;
    if f.Req? && f.id == id {
      assert Route(d, id, f.name).Some?;
    }
  }

  lemma {:induction false} SpanMarks(d: Driver, inputs: seq<Input>, id: Id, lo: nat, hi: nat)
    requires lo <= hi <= |inputs|
    requires forall k :: lo <= k <= hi ==> id in StateAt(d, inputs, k).tracking.active
    ensures StateAt(d, inputs, hi).tracking.active[id].cancelled <==>
            StateAt(d, inputs, lo).tracking.active[id].cancelled
            || exists k :: lo <= k < hi && Cancelling(inputs[k], id)
    decreases hi
  {
    hide Step;
    if lo < hi {
      SpanMarks(d, inputs, id, lo, hi - 1);
      assert StateAt(d, inputs, hi) == Step(StateAt(d, inputs, hi - 1), inputs[hi - 1]).0;
      StepMarks(StateAt(d, inputs, hi - 1), inputs[hi - 1], id);
      hide Cancelling;
    }
  }

  /** Input `k` is a request frame that started the run `id` is still active under at the end. */
  predicate AcceptedAt(d: Driver, inputs: seq<Input>, id: Id, k: nat) {
    && k < |inputs| && inputs[k].Inbound? && inputs[k].frame.Req? && inputs[k].frame.id == id
    && id !in StateAt(d, inputs, k).tracking.active
    && forall j :: k < j <= |inputs| ==> id in StateAt(d, inputs, j).tracking.active
  }

  /** In any run, an active request is marked cancelled if and only if a cancel of its id came in after it was accepted. */
  lemma CancelledExactly(d: Driver, inputs: seq<Input>, d': Driver, id: Id, k: nat)
    requires Runs(d, inputs, d') && AcceptedAt(d, inputs, id, k)
    ensures id in d'.tracking.active
    ensures d'.tracking.active[id].cancelled <==> exists j :: k < j < |inputs| && Cancelling(inputs[j], id)
  {
    RunsState(d, inputs, d');
    var before, f := StateAt(d, inputs, k), inputs[k].frame;
    RoutesExactly(before, id, f.name, inputs[k].task);
    assert StateAt(d, inputs, k + 1) == OnRequest(before, id, f.name, inputs[k].task);
    hide Runs, StateAt, OnRequest, Admissible, FirstFailed;
    SpanMarks(d, inputs, id, k + 1, |inputs|);
  }

  // ---------------------------------------------------------------------
  // What is sent, besides answers

  /** The frames of a sequence that answer nothing. */
  function Unasked(s: seq<Frame>): seq<Frame> {
    if s == [] then []
    else Unasked(s[..|s| - 1]) + (if s[|s| - 1].Res? || s[|s| - 1].Err? then [] else [s[|s| - 1]])
  }

  /** What an input sends on its own account. */
  function Caused(i: Input): seq<Frame> {
    match i
    case Inbound(Ping, _) => [Pong]
    case Cmd(Request(id, name, params, _)) => [Req(id, name, params)]
    case Cmd(CancelRequest(id, _)) => [Cancel(id)]
    case Cmd(Send(f)) => [f]
    case Tick => [Ping]
    case _ => []
  }

  function CausedAll(inputs: seq<Input>): seq<Frame> {
    if inputs == [] then [] else CausedAll(inputs[..|inputs| - 1]) + Caused(inputs[|inputs| - 1])
  }

  lemma UnaskedMore(s: seq<Frame>, f: Frame)
    ensures Unasked(s + [f]) == Unasked(s) + if f.Res? || f.Err? then [] else [f]
  {
    assert (s + [f])[..|s|] == s;
  }

  predicate IsAnswer(f: Frame) {
    f.Res? || f.Err?
  }

  lemma StepOutbox(d: Driver, i: Input)
    requires Possible(d, i) && Step(d, i).1.None?
    ensures var before, after, more := d.outbox, Step(d, i).0.outbox, Caused(i);
            && |more| <= 1
            && (more != [] ==> !IsAnswer(more[0]) && after == before + [more[0]])
            && (more == [] && after != before ==>
                  |after| == |before| + 1 && after == before + [after[|before|]] && IsAnswer(after[|before|]))
  {
    hide Negotiate, MayAsk, Untrack;
  }

  /** One input sends at most one frame; if it is not an answer it is what that input causes. */
  lemma StepSends(d: Driver, i: Input)
    requires Possible(d, i) && Step(d, i).1.None?
    ensures Unasked(Step(d, i).0.outbox) == Unasked(d.outbox) + Caused(i)
  {
    var d' := Step(d, i).0;
    StepOutbox(d, i);
    hide Step, Caused, Possible, Unasked;
    assert Unasked(d.outbox) + [] == Unasked(d.outbox);
    if |d'.outbox| == |d.outbox| + 1 {
      UnaskedMore(d.outbox, d'.outbox[|d.outbox|]);
    }
  }

  /**
   Until something ends the loop, what is sent besides answers is exactly what
   the inputs call for, in their order: a pong for each ping, the request or the
   cancel of each command, each event, and a ping for each liveness tick.
   */
  lemma {:induction false} SendsInOrder(d: Driver, inputs: seq<Input>)
    requires Alive(d, inputs)
    ensures Unasked(StateAt(d, inputs, |inputs|).outbox) == Unasked(d.outbox) + CausedAll(inputs)
    decreases |inputs|
  {
    hide Step, Possible, Unasked, Caused;
    if inputs == [] {
      assert Unasked(d.outbox) + [] == Unasked(d.outbox);
    } else {
      var n := |inputs| - 1;
      AlivePrefix(d, inputs, n);
      SendsInOrder(d, inputs[..n]);
      SamePrefix(d, inputs, n, n);
      StepSends(StateAt(d, inputs, n), inputs[n]);
      Regroup(Unasked(d.outbox), CausedAll(inputs[..n]), Caused(inputs[n]));
    }
  }

  lemma AlivePrefix(d: Driver, inputs: seq<Input>, n: nat)
    requires Alive(d, inputs) && n <= |inputs|
    ensures Alive(d, inputs[..n])
  {
    hide Step, Possible, StateAt;
    forall k | 0 <= k < n
      ensures Possible(StateAt(d, inputs[..n], k), inputs[..n][k]) && Step(StateAt(d, inputs[..n], k), inputs[..n][k]).1.None?
    {
      SamePrefix(d, inputs, n, k);
    }
  }

  lemma {:induction false} SamePrefix(d: Driver, inputs: seq<Input>, n: nat, k: nat)
    requires k <= n <= |inputs|
    ensures StateAt(d, inputs[..n], k) == StateAt(d, inputs, k)
  {
    hide Step;
    if k > 0 {
      SamePrefix(d, inputs, n, k - 1);
    }
  }

  // ---------------------------------------------------------------------
  // What is delivered, and what is awaited

  /** The events among some inputs. */
  function Published(inputs: seq<Input>): seq<Event> {
    if inputs == [] then []
    else
      var last := inputs[|inputs| - 1];
      Published(inputs[..|inputs| - 1]) + if last.Inbound? && last.frame.Evt? then [last.frame.event] else []
  }

  lemma StepDelivers(d: Driver, i: Input)
    ensures Step(d, i).0.inbox == d.inbox + if i.Inbound? && i.frame.Evt? && d.state == Ready then [i.frame.event] else []
    ensures d.state != Handshaking ==> Step(d, i).0.state == d.state
  {
    hide Negotiate, Route, Untrack;
  }

  /** A ready session hands on every event it receives, in order; one that is not ready hands on none. */
  lemma {:induction false} DeliversInOrder(d: Driver, inputs: seq<Input>, k: nat)
    requires d.state != Handshaking && k <= |inputs|
    ensures StateAt(d, inputs, k).state == d.state
    ensures StateAt(d, inputs, k).inbox == d.inbox + if d.state == Ready then Published(inputs[..k]) else []
  {
    hide Step;
    if k == 0 {
      assert d.inbox + [] == d.inbox;
    } else {
      DeliversInOrder(d, inputs, k - 1);
      StepDelivers(StateAt(d, inputs, k - 1), inputs[k - 1]);
      assert inputs[..k][..k - 1] == inputs[..k - 1];
      var more := if inputs[k - 1].Inbound? && inputs[k - 1].frame.Evt? then [inputs[k - 1].frame.event] else [];
      Regroup(d.inbox, Published(inputs[..k - 1]), more);
      assert d.inbox + [] + [] == d.inbox + [];
    }
  }

  /** Before the handshake events are dropped. */
  lemma EarlyEventsDropped(d: Driver, i: Input)
    requires d.state == Handshaking
    ensures Step(d, i).0.inbox == d.inbox
  {
    StepDelivers(d, i);
  }

  /** A pong is awaited from a tick until one comes, and never otherwise. */
  lemma AwaitsExactly(d: Driver, i: Input)
    ensures Step(d, i).0.awaitingPong <==> i.Tick? || (d.awaitingPong && !IsPong(i))
  {
    hide Negotiate, Route, Untrack;
  }

  // ---------------------------------------------------------------------
  // Pending calls

  /** What an input settles the pending call under `id` with, if it settles it: its answer, or nothing for a call let go. */
  function Settlement(i: Input, id: Id): Option<Reply> {
    match i
    case Inbound(Res(key, v), _) => if key == id then Some(Value(Ok(v))) else None
    case Inbound(Err(key, e), _) => if key == id then Some(Value(Failed(e))) else None
    case Cmd(CancelRequest(key, false)) => if key == id then Some(Hung) else None
    case _ => None
  }

  /**
   A call is pending from its request until an answer to its id or its release,
   whichever comes first; its reply is then exactly that, and no input touches
   the entry or the reply of any other call. A later answer finds no entry.
   */
  lemma SettlesExactly(d: Driver, i: Input, id: Id)
    ensures var d' := Step(d, i).0;
            && (id in d'.pending <==>
                  (id in d.pending && Settlement(i, id).None?) || (i.Cmd? && i.command.Request? && i.command.id == id))
            && (i.Cmd? && i.command.Request? && i.command.id == id ==>
                  d'.pending[id] == PendingRequest(i.command.name, i.command.reply) && d'.replies == d.replies)
            && (id in d.pending && Settlement(i, id).Some? ==>
                  d'.replies == d.replies[d.pending[id].reply := Settlement(i, id).value])
            && (id in d.pending && id in d'.pending && !(i.Cmd? && i.command.Request?) ==> d'.pending[id] == d.pending[id])
  {
    hide Negotiate, Route, Untrack, Track, Fitted, AnswerFrame;
  }

  /** An input that settles no pending call leaves every reply as it was. */
  lemma RepliesUntouched(d: Driver, i: Input)
    requires forall id :: id in d.pending ==> Settlement(i, id).None?
    ensures Step(d, i).0.replies == d.replies
  {
    hide Negotiate, Route, Untrack, Track, Fitted, AnswerFrame;
    match i
    case Inbound(Res(key, v), _) => assert key in d.pending ==> Settlement(i, key).None?;
    case Inbound(Err(key, e), _) => assert key in d.pending ==> Settlement(i, key).None?;
    case Cmd(CancelRequest(key, false)) => assert key in d.pending ==> Settlement(i, key).None?;
    case _ =>
  }

  // ---------------------------------------------------------------------
  // The handshake

  /**
   Only a first hello changes what is known of the peer. It is admitted at the
   lower of the two minors, or fails `ready` when the majors differ; and `ready`
   keeps what first settled it.
   */
  lemma ReadyExactly(d: Driver, i: Input)
    ensures var d' := Step(d, i).0;
            if !IsHello(i) || d.state != Handshaking then d'.state == d.state && d'.remote == d.remote && d'.ready == d.ready
            else
              var mine, theirs := d.hello.protocol, i.frame.hello.protocol;
              if theirs.major != mine.major then
                && d'.state == Handshaking && d'.remote == d.remote
                && d'.ready == if d.ready.Some? then d.ready else Some(ReadyFailed(Mismatch))
              else
                && d'.state == Ready
                && d'.remote == Some(Remote(if mine.minor < theirs.minor then mine.minor else theirs.minor, i.frame.hello.limits))
                && d'.ready == if d.ready.Some? then d.ready else Some(ReadyOk(d'.remote.value))
  {
    NegotiatesLower(d.hello.protocol, if IsHello(i) then i.frame.hello.protocol else d.hello.protocol);
    hide Negotiate, Route, Untrack, Track, Fitted, AnswerFrame;
  }

  // ---------------------------------------------------------------------
  // What ends the loop

  /** The inputs that end the loop, each with its own reason, and no others. */
  lemma StopsExactly(d: Driver, i: Input)
    ensures Step(d, i).1 ==
            if i.Inbound? && i.frame.Close? then Some(PeerFrame(i.frame.code))
            else if i.Cmd? && i.command.CloseSession? then Some(Local(i.command.code))
            else if i.Tick? && d.awaitingPong then Some(Local(4000))
            else if IsHello(i) && d.state != Handshaking then Some(Local(4400))
            else if IsHello(i) && i.frame.hello.protocol.major != d.hello.protocol.major then Some(Local(4426))
            else None
  {
    hide Route, Untrack;
  }
}
