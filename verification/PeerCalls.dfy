/**
 What every caller can rely on: no pending entry outlives its caller, no call
 waits for an answer that cannot come, and no reply channel is used twice.
 */
module PeerCalls {
  import opened Wrappers
  import opened Tokens
  import opened Frames
  import opened Session
  import opened Peers
  import opened PeerTokens

  predicate IsAwaiting(calls: map<nat, Call>, k: nat) {
    k in calls && calls[k].phase.Awaiting?
  }

  /** The call that asked under `id` has stopped waiting. */
  ghost predicate Left(ids: nat -> Id, calls: map<nat, Call>, id: Id) {
    exists k :: k in calls && ids(k) == id && HasLeft(calls[k].phase)
  }

  predicate HasLeft(phase: Phase) {
    phase.Returned? || phase.Abandoned?
  }

  /** A queued command is what its caller queued. */
  ghost predicate Genuine(ids: nat -> Id, calls: map<nat, Call>, c: Command) {
    && (c.Request? ==>
          && c.reply in calls && c.id == ids(c.reply)
          && calls[c.reply].ask == Ask(c.name, c.params) && !calls[c.reply].phase.Drafting?)
    && (c.CancelRequest? && !c.forget ==> Left(ids, calls, c.id))
  }

  ghost predicate GenuineQueue(ids: nat -> Id, calls: map<nat, Call>, commands: seq<Command>) {
    forall c :: c in commands ==> Genuine(ids, calls, c)
  }

  /** A pending entry belongs to the call that asked under its id. */
  ghost predicate GenuinePending(ids: nat -> Id, calls: map<nat, Call>, pending: map<Id, PendingRequest>, taken: multiset<Id>) {
    forall id :: id in pending ==>
      var e := pending[id];
      e.reply in calls && ids(e.reply) == id && calls[e.reply].ask.name == e.name && taken[id] >= 1
  }

  /** A reply that has been given belongs to a call whose entry is gone. */
  ghost predicate GenuineReplies(ids: nat -> Id, calls: map<nat, Call>, pending: map<Id, PendingRequest>, replies: map<nat, Reply>, taken: multiset<Id>) {
    forall k :: k in replies ==> k in calls && ids(k) !in pending && taken[ids(k)] >= 1
  }

  ghost predicate Queued(commands: seq<Command>, k: nat) {
    exists c :: c in commands && c.Request? && c.reply == k
  }

  /** A waiting call has its reply, or a pending entry, or its request still queued. */
  ghost predicate Owed(ids: nat -> Id, calls: map<nat, Call>, commands: seq<Command>, pending: map<Id, PendingRequest>, replies: map<nat, Reply>) {
    forall k :: IsAwaiting(calls, k) ==> k in replies || ids(k) in pending || Queued(commands, k)
  }

  /** A pending entry has a waiting caller, or a queued cancel that will release it. */
  ghost predicate NoLeak(calls: map<nat, Call>, commands: seq<Command>, pending: map<Id, PendingRequest>) {
    forall id :: id in pending ==> IsAwaiting(calls, pending[id].reply) || CancelRequest(id, false) in commands
  }

  /** A queued request has a waiting caller, or a cancel queued behind it. */
  ghost predicate NoLeakQueued(calls: map<nat, Call>, commands: seq<Command>) {
    forall i :: 0 <= i < |commands| && commands[i].Request? ==>
      IsAwaiting(calls, commands[i].reply) || CancelRequest(commands[i].id, false) in commands[i + 1..]
  }

  ghost predicate CallsInv(p: Peer) {
    && GenuineQueue(p.desk.ids, p.desk.calls, p.commands)
    && GenuinePending(p.desk.ids, p.desk.calls, p.driver.pending, p.ledger.taken)
    && GenuineReplies(p.desk.ids, p.desk.calls, p.driver.pending, p.driver.replies, p.ledger.taken)
    && Owed(p.desk.ids, p.desk.calls, p.commands, p.driver.pending, p.driver.replies)
    && NoLeak(p.desk.calls, p.commands, p.driver.pending)
    && NoLeakQueued(p.desk.calls, p.commands)
    && (p.life.Draining? || p.life.Dropped? ==> p.driver.pending == map[])
    && (p.life.Dropped? ==> p.commands == [])
  }

  ghost predicate Balanced(p: Peer) {
    forall id :: DeskBalance(p, id)
  }

  /** A queued request has not been taken over yet. */
  lemma QueuedNotTaken(p: Peer, c: Command)
    requires Balanced(p) && c in p.commands && c.Request?
    ensures p.ledger.taken[c.id] == 0
  {
    CountMember(RequestOf, p.commands, c, c.id);
    assert DeskBalance(p, c.id);
  }

  // ---------------------------------------------------------------------
  // Callers

  /** Every call that has left stays left, and every submitted call keeps its question. */
  ghost predicate Later(calls: map<nat, Call>, calls': map<nat, Call>) {
    forall k :: k in calls ==>
      && k in calls' && calls'[k].ask == calls[k].ask
      && (HasLeft(calls[k].phase) ==> HasLeft(calls'[k].phase))
      && (!calls[k].phase.Drafting? ==> !calls'[k].phase.Drafting?)
  }

  lemma LaterGenuine(ids: nat -> Id, calls: map<nat, Call>, calls': map<nat, Call>, commands: seq<Command>)
    requires Later(calls, calls') && GenuineQueue(ids, calls, commands)
    ensures GenuineQueue(ids, calls', commands)
  {
    forall c | c in commands ensures Genuine(ids, calls', c) {
      assert Genuine(ids, calls, c);
      if c.CancelRequest? && !c.forget {
        var k :| k in calls && ids(k) == c.id && HasLeft(calls[k].phase);
        assert k in calls' && ids(k) == c.id && HasLeft(calls'[k].phase);
      }
    }
  }

  lemma LaterPending(p: Peer, calls': map<nat, Call>)
    requires Later(p.desk.calls, calls')
    requires GenuinePending(p.desk.ids, p.desk.calls, p.driver.pending, p.ledger.taken)
    requires GenuineReplies(p.desk.ids, p.desk.calls, p.driver.pending, p.driver.replies, p.ledger.taken)
    ensures GenuinePending(p.desk.ids, calls', p.driver.pending, p.ledger.taken)
    ensures GenuineReplies(p.desk.ids, calls', p.driver.pending, p.driver.replies, p.ledger.taken)
  {
  }

  lemma StartKeeps(p: Peer, ask: Ask)
    requires DeskOrder(p.desk) && CallsInv(p)
    ensures CallsInv(DoStart(p, ask))
  {
    hide DeskOrder, Queued, Later, GenuineQueue, GenuinePending, GenuineReplies, Owed, NoLeak, NoLeakQueued, IsAwaiting;
    var calls, calls' := p.desk.calls, DoStart(p, ask).desk.calls;
    StartLater(p.desk, ask);
    LaterGenuine(p.desk.ids, calls, calls', p.commands);
    LaterPending(p, calls');
    SameAwaiting(p, calls');
  }

  lemma StartLater(desk: Desk, ask: Ask)
    requires DeskOrder(desk)
    ensures var calls' := desk.calls[desk.sequence + 1 := Call(ask, Drafting)];
            Later(desk.calls, calls') && forall k :: IsAwaiting(calls', k) <==> IsAwaiting(desk.calls, k)
  {
  }

  lemma SameAwaiting(p: Peer, calls': map<nat, Call>)
    requires forall k :: IsAwaiting(calls', k) <==> IsAwaiting(p.desk.calls, k)
    requires Owed(p.desk.ids, p.desk.calls, p.commands, p.driver.pending, p.driver.replies)
    requires NoLeak(p.desk.calls, p.commands, p.driver.pending) && NoLeakQueued(p.desk.calls, p.commands)
    ensures Owed(p.desk.ids, calls', p.commands, p.driver.pending, p.driver.replies)
    ensures NoLeak(calls', p.commands, p.driver.pending) && NoLeakQueued(calls', p.commands)
  {
    hide IsAwaiting, Queued;
  }

  /** Appending to the queue, the caller's phase unchanged or moved on. */
  lemma PostKeeps(p: Peer, calls': map<nat, Call>, c: Command)
    requires CallsInv(p) && Later(p.desk.calls, calls') && Genuine(p.desk.ids, calls', c)
    requires forall k :: IsAwaiting(calls', k) ==> IsAwaiting(p.desk.calls, k) || (c.Request? && c.reply == k)
    requires forall k :: IsAwaiting(p.desk.calls, k) && !IsAwaiting(calls', k) ==> c == CancelRequest(p.desk.ids(k), false)
    requires c.Request? ==> IsAwaiting(calls', c.reply)
    requires !p.life.Dropped?
    ensures CallsInv(p.(desk := p.desk.(calls := calls'), commands := p.commands + [c]))
  {
    var ids, commands' := p.desk.ids, p.commands + [c];
    LaterGenuine(ids, p.desk.calls, calls', p.commands);
    LaterPending(p, calls');
    assert GenuineQueue(ids, calls', commands');
    assert Owed(ids, calls', commands', p.driver.pending, p.driver.replies) by {
      PostOwed(p, calls', c);
    }
    PostNoLeak(p, calls', c);
    hide GenuineQueue, GenuinePending, GenuineReplies, Owed, NoLeak, NoLeakQueued;
  }

  lemma PostOwed(p: Peer, calls': map<nat, Call>, c: Command)
    requires Owed(p.desk.ids, p.desk.calls, p.commands, p.driver.pending, p.driver.replies)
    requires forall k :: IsAwaiting(calls', k) ==> IsAwaiting(p.desk.calls, k) || (c.Request? && c.reply == k)
    ensures Owed(p.desk.ids, calls', p.commands + [c], p.driver.pending, p.driver.replies)
  {
    var commands' := p.commands + [c];
    forall k | IsAwaiting(calls', k)
      ensures k in p.driver.replies || p.desk.ids(k) in p.driver.pending || Queued(commands', k)
    {
      if Queued(p.commands, k) {
        var r :| r in p.commands && r.Request? && r.reply == k;
        assert r in commands';
      } else {
        assert c in commands';
      }
    }
  }

  lemma PostNoLeak(p: Peer, calls': map<nat, Call>, c: Command)
    requires GenuineQueue(p.desk.ids, p.desk.calls, p.commands)
    requires GenuinePending(p.desk.ids, p.desk.calls, p.driver.pending, p.ledger.taken)
    requires NoLeak(p.desk.calls, p.commands, p.driver.pending) && NoLeakQueued(p.desk.calls, p.commands)
    requires forall k :: IsAwaiting(p.desk.calls, k) && !IsAwaiting(calls', k) ==> c == CancelRequest(p.desk.ids(k), false)
    requires c.Request? ==> IsAwaiting(calls', c.reply)
    ensures NoLeak(calls', p.commands + [c], p.driver.pending) && NoLeakQueued(calls', p.commands + [c])
  {
    var commands' := p.commands + [c];
    assert c in commands';
    forall i | 0 <= i < |commands'| && commands'[i].Request?
      ensures IsAwaiting(calls', commands'[i].reply) || CancelRequest(commands'[i].id, false) in commands'[i + 1..]
    {
      if i < |p.commands| {
        assert Genuine(p.desk.ids, p.desk.calls, p.commands[i]);
        assert commands'[i + 1..] == p.commands[i + 1..] + [c];
      }
    }
  }

  /** A call moves on without posting anything: it had its reply, or nobody is left to post to. */
  lemma MoveOnKeeps(p: Peer, calls': map<nat, Call>)
    requires CallsInv(p) && Balanced(p) && Later(p.desk.calls, calls')
    requires forall k :: IsAwaiting(calls', k) ==> IsAwaiting(p.desk.calls, k)
    requires forall k :: IsAwaiting(p.desk.calls, k) && !IsAwaiting(calls', k) ==> k in p.driver.replies || p.life.Dropped?
    ensures CallsInv(p.(desk := p.desk.(calls := calls')))
  {
    LaterGenuine(p.desk.ids, p.desk.calls, calls', p.commands);
    LaterPending(p, calls');
    hide Queued;
    assert Owed(p.desk.ids, calls', p.commands, p.driver.pending, p.driver.replies);
    hide Owed;
    forall i | 0 <= i < |p.commands| && p.commands[i].Request?
      ensures IsAwaiting(calls', p.commands[i].reply) || CancelRequest(p.commands[i].id, false) in p.commands[i + 1..]
    {
      assert Genuine(p.desk.ids, p.desk.calls, p.commands[i]);
      QueuedNotTaken(p, p.commands[i]);
    }
    hide GenuineQueue, Balanced;
  }

  lemma InvIgnoresDesk(p: Peer, p': Peer)
    requires CallsInv(p)
    requires p'.desk.ids == p.desk.ids && p'.desk.calls == p.desk.calls && p'.commands == p.commands
    requires p'.driver.pending == p.driver.pending && p'.driver.replies == p.driver.replies
    requires p'.life == p.life
    requires forall id :: p.ledger.taken[id] <= p'.ledger.taken[id]
    ensures CallsInv(p')
  {
    hide Genuine, Queued;
  }

  lemma LeaveKeeps(p: Peer, k: nat, phase: Phase)
    requires CallsInv(p) && Balanced(p) && InPhase(p.desk, k, false) && HasLeft(phase)
    ensures CallsInv(DoLeave(p, k, phase))
  {
    hide CallsInv, Balanced;
    var calls' := WithPhase(p.desk, k, phase).calls;
    var c := CancelRequest(p.desk.ids(k), false);
    assert Later(p.desk.calls, calls');
    if p.life.Dropped? {
      MoveOnKeeps(p, calls');
    } else {
      assert k in calls' && HasLeft(calls'[k].phase);
      assert Genuine(p.desk.ids, calls', c);
      PostKeeps(p, calls', c);
    }
  }

  lemma SubmitKeeps(p: Peer, k: nat)
    requires CallsInv(p) && InPhase(p.desk, k, true) && !p.life.Dropped?
    ensures CallsInv(DoSubmit(p, k))
  {
    hide CallsInv;
    var calls' := WithPhase(p.desk, k, Awaiting(false)).calls;
    var ask := p.desk.calls[k].ask;
    PostKeeps(p, calls', Request(p.desk.ids(k), ask.name, ask.params, k));
    var p' := p.(desk := p.desk.(calls := calls'), commands := p.commands + [Request(p.desk.ids(k), ask.name, ask.params, k)]);
    InvIgnoresDesk(p', DoSubmit(p, k));
  }

  lemma UserCancelKeeps(p: Peer, k: nat)
    requires CallsInv(p) && Balanced(p) && InPhase(p.desk, k, false)
    ensures CallsInv(Posted(p.(desk := WithPhase(p.desk, k, Awaiting(true))), CancelRequest(p.desk.ids(k), true)))
  {
    hide CallsInv, Balanced;
    var calls' := WithPhase(p.desk, k, Awaiting(true)).calls;
    if p.life.Dropped? {
      MoveOnKeeps(p, calls');
    } else {
      PostKeeps(p, calls', CancelRequest(p.desk.ids(k), true));
    }
  }

  lemma WithdrawKeeps(p: Peer, k: nat, error: RemoteError)
    requires CallsInv(p) && Balanced(p) && InPhase(p.desk, k, true)
    ensures CallsInv(DoWithdraw(p, k, error))
  {
    var calls' := WithPhase(p.desk, k, Returned(Failed(error))).calls;
    MoveOnKeeps(p, calls');
    hide CallsInv;
    InvIgnoresDesk(p.(desk := p.desk.(calls := calls')), DoWithdraw(p, k, error));
  }

  lemma TakeReplyKeeps(p: Peer, k: nat)
    requires CanCall(p, TakeReply(k)) && CallsInv(p) && Balanced(p)
    ensures CallsInv(Calls(p, TakeReply(k)))
  {
    MoveOnKeeps(p, WithPhase(p.desk, k, Returned(ReplyOutcome(p.driver.replies[k]))).calls);
  }

  lemma PostCommandKeeps(p: Peer, c: Command)
    requires CallsInv(p) && !c.Request? && !c.CancelRequest?
    ensures CallsInv(Posted(p, c))
  {
    if !p.life.Dropped? {
      PostKeeps(p, p.desk.calls, c);
    }
  }

  lemma CallsKeep(p: Peer, c: CallerStep)
    requires CanCall(p, c) && DeskOrder(p.desk) && Balanced(p) && CallsInv(p)
    ensures CallsInv(Calls(p, c))
  {
    hide DeskOrder, Balanced, CallsInv;
    match c
    case Start(ask) => StartKeeps(p, ask);
    case Submit(k) => SubmitKeeps(p, k);
    case Withdraw(k, error) => WithdrawKeeps(p, k, error);
    case UserCancel(k) => UserCancelKeeps(p, k);
    case Timeout(k) => LeaveKeeps(p, k, Returned(Failed(TimedOut)));
    case Abandon(k) => LeaveKeeps(p, k, Abandoned);
    case TakeReply(k) => TakeReplyKeeps(p, k);
    case Post(c) => PostCommandKeeps(p, c);
  }

  // ---------------------------------------------------------------------
  // The driver

  /** An answer, or a cancel, settles one entry: its caller is owed nothing more. */
  lemma SettleEntryKeeps(p: Peer, id: Id, reply: Reply)
    requires CallsInv(p) && DeskOrder(p.desk) && id in p.driver.pending
    ensures CallsInv(p.(driver := p.driver.(pending := p.driver.pending - {id},
                                            replies := p.driver.replies[p.driver.pending[id].reply := reply])))
    ensures p.driver.pending[id].reply !in p.driver.replies
  {
    var pending' := p.driver.pending - {id};
    var replies' := p.driver.replies[p.driver.pending[id].reply := reply];
    SettleEntryOwed(p, id, reply);
    hide GenuineQueue, NoLeakQueued, Owed;
  }

  lemma SettleEntryOwed(p: Peer, id: Id, reply: Reply)
    requires Owed(p.desk.ids, p.desk.calls, p.commands, p.driver.pending, p.driver.replies) && DeskOrder(p.desk)
    requires GenuinePending(p.desk.ids, p.desk.calls, p.driver.pending, p.ledger.taken) && id in p.driver.pending
    ensures Owed(p.desk.ids, p.desk.calls, p.commands, p.driver.pending - {id},
                 p.driver.replies[p.driver.pending[id].reply := reply])
  {
    hide Queued;
  }

  lemma ResponseKeeps(p: Peer, id: Id, outcome: Outcome)
    requires CallsInv(p) && DeskOrder(p.desk)
    ensures CallsInv(p.(driver := OnResponse(p.driver, id, outcome)))
    ensures p.driver.replies.Keys <= OnResponse(p.driver, id, outcome).replies.Keys
    ensures forall k :: k in p.driver.replies ==> OnResponse(p.driver, id, outcome).replies[k] == p.driver.replies[k]
  {
    if id in p.driver.pending {
      SettleEntryKeeps(p, id, Value(outcome));
    }
    hide CallsInv, DeskOrder;
  }

  /** Dropping the head of the queue, when it is not a request and no entry needs it any more. */
  lemma PopKeeps(p: Peer)
    requires CallsInv(p) && p.commands != [] && !p.commands[0].Request?
    requires var c := p.commands[0]; c.CancelRequest? && !c.forget ==> c.id !in p.driver.pending
    ensures CallsInv(p.(commands := p.commands[1..]))
  {
    var c, commands' := p.commands[0], p.commands[1..];
    forall k | Queued(p.commands, k) ensures Queued(commands', k) {
      var r :| r in p.commands && r.Request? && r.reply == k;
      assert r in commands';
    }
    forall i | 0 <= i < |commands'| && commands'[i].Request?
      ensures IsAwaiting(p.desk.calls, commands'[i].reply) || CancelRequest(commands'[i].id, false) in commands'[i + 1..]
    {
      assert commands'[i] == p.commands[i + 1];
      assert commands'[i + 1..] == p.commands[i + 2..];
    }
    assert forall x :: x in p.commands && x != c ==> x in commands';
    hide Queued, Genuine;
  }

  lemma TakeRequestKeeps(p: Peer)
    requires CallsInv(p) && Balanced(p) && DeskOrder(p.desk) && p.commands != [] && p.commands[0].Request?
    requires p.life.Running?
    ensures CallsInv(DoTakeCommand(p)) && RepliesKept(p, DoTakeCommand(p))
  {
    var c := p.commands[0];
    QueuedNotTaken(p, c);
    assert Genuine(p.desk.ids, p.desk.calls, c);
    var p' := DoTakeCommand(p);
    assert p'.driver.pending == p.driver.pending[c.id := PendingRequest(c.name, c.reply)];
    assert p'.driver.replies == p.driver.replies && p'.life == p.life && p'.desk == p.desk;
    assert p'.ledger.taken == Add(p.ledger.taken, Some(c.id));
    assert p'.commands == p.commands[1..];
    hide OnCommand, DoTakeCommand, Balanced;
    TakeRequestQueue(p);
    assert GenuinePending(p'.desk.ids, p'.desk.calls, p'.driver.pending, p'.ledger.taken);
    assert GenuineReplies(p'.desk.ids, p'.desk.calls, p'.driver.pending, p'.driver.replies, p'.ledger.taken);
  }

  lemma TakeRequestQueue(p: Peer)
    requires CallsInv(p) && DeskOrder(p.desk) && p.commands != [] && p.commands[0].Request?
    ensures var c := p.commands[0]; var commands' := p.commands[1..];
            var pending' := p.driver.pending[c.id := PendingRequest(c.name, c.reply)];
            && GenuineQueue(p.desk.ids, p.desk.calls, commands')
            && Owed(p.desk.ids, p.desk.calls, commands', pending', p.driver.replies)
            && NoLeak(p.desk.calls, commands', pending')
            && NoLeakQueued(p.desk.calls, commands')
  {
    var c, commands' := p.commands[0], p.commands[1..];
    assert Genuine(p.desk.ids, p.desk.calls, c);
    forall k | Queued(p.commands, k) && k != c.reply ensures Queued(commands', k) {
      var r :| r in p.commands && r.Request? && r.reply == k;
      assert r in commands';
    }
    forall i | 0 <= i < |commands'| && commands'[i].Request?
      ensures IsAwaiting(p.desk.calls, commands'[i].reply) || CancelRequest(commands'[i].id, false) in commands'[i + 1..]
    {
      assert commands'[i] == p.commands[i + 1];
      assert commands'[i + 1..] == p.commands[i + 2..];
    }
    assert forall x :: x in p.commands && x != c ==> x in commands';
    hide Queued, Genuine, GenuinePending, GenuineReplies;
  }

  /** The state a step leaves, as far as callers can tell. */
  ghost predicate SameCalls(p: Peer, p': Peer) {
    && p'.desk == p.desk && p'.commands == p.commands
    && p'.driver.pending == p.driver.pending && p'.driver.replies == p.driver.replies
    && (p'.life.Draining? || p'.life.Dropped? ==> p.life == p'.life)
  }

  lemma SameCallsKeeps(p: Peer, p': Peer)
    requires CallsInv(p) && SameCalls(p, p') && p'.ledger.taken == p.ledger.taken
    ensures CallsInv(p')
  {
    hide GenuineQueue, GenuinePending, GenuineReplies, Owed, NoLeak, NoLeakQueued;
  }

  /** No reply already given is ever replaced. */
  ghost predicate RepliesKept(p: Peer, p': Peer) {
    forall k :: k in p.driver.replies ==> k in p'.driver.replies && p'.driver.replies[k] == p.driver.replies[k]
  }

  lemma TakeCancelKeeps(p: Peer, id: Id)
    requires CallsInv(p) && DeskOrder(p.desk) && p.commands != [] && p.commands[0] == CancelRequest(id, false)
    requires p.life.Running?
    ensures CallsInv(DoTakeCommand(p)) && RepliesKept(p, DoTakeCommand(p))
  {
    var mid := p.(driver := Forget(p.driver, id));
    ForgetKeeps(p, id);
    hide CallsInv, DeskOrder;
    PopKeeps(mid);
    assert DoTakeCommand(p).driver == Enqueue(mid.driver, Cancel(id));
    hide Forget;
    SameCallsKeeps(mid.(commands := p.commands[1..]), DoTakeCommand(p));
  }

  lemma ForgetKeeps(p: Peer, id: Id)
    requires CallsInv(p) && DeskOrder(p.desk)
    ensures var mid := p.(driver := Forget(p.driver, id));
            CallsInv(mid) && id !in mid.driver.pending && RepliesKept(p, mid)
  {
    hide CallsInv, DeskOrder;
    if id in p.driver.pending {
      SettleEntryKeeps(p, id, Hung);
    }
  }

  lemma TakeOtherKeeps(p: Peer)
    requires CallsInv(p) && p.commands != [] && !p.commands[0].Request? && p.life.Running?
    requires p.commands[0].CancelRequest? ==> p.commands[0].forget
    ensures CallsInv(DoTakeCommand(p)) && RepliesKept(p, DoTakeCommand(p))
  {
    hide CallsInv;
    PopKeeps(p);
    SameCallsKeeps(p.(commands := p.commands[1..]), DoTakeCommand(p));
  }

  lemma LoopsKeep(p: Peer, l: LoopStep)
    requires CanLoop(p, l) && DeskOrder(p.desk) && Balanced(p) && CallsInv(p)
    ensures CallsInv(Loops(p, l)) && RepliesKept(p, Loops(p, l))
  {
    if l.TakeCommand? {
      hide DeskOrder, Balanced, CallsInv, OnCommand, DoTakeCommand, RepliesKept;
      var c := p.commands[0];
      if c.Request? {
        TakeRequestKeeps(p);
      } else if c.CancelRequest? && !c.forget {
        TakeCancelKeeps(p, c.id);
      } else {
        TakeOtherKeeps(p);
      }
    } else {
      hide DeskOrder, Balanced, CallsInv, Loops;
      QuietLoop(p, l);
      SameCallsKeeps(p, Loops(p, l));
    }
  }

  /** Only a command touches the pending calls and their replies. */
  lemma QuietLoop(p: Peer, l: LoopStep)
    requires CanLoop(p, l) && !l.TakeCommand?
    ensures SameCalls(p, Loops(p, l)) && Loops(p, l).ledger.taken == p.ledger.taken
  {
    hide OnSettled, OnTick, DoTakeCommand;
    if l.Settle? {
      QuietSettle(p.driver, l.task, l.outcome, l.fits);
    } else if l.LivenessTick? {
      QuietTick(p.driver);
    }
  }

  lemma QuietSettle(d: Driver, task: nat, outcome: Outcome, fits: bool)
    ensures var now := OnSettled(d, task, outcome, fits); now.pending == d.pending && now.replies == d.replies
  {
  }

  lemma QuietTick(d: Driver)
    ensures OnTick(d).0.pending == d.pending && OnTick(d).0.replies == d.replies
  {
  }

  lemma FlushReplies(p: Peer)
    requires CallsInv(p) && DeskOrder(p.desk)
    ensures var replies' := FailedReplies(p.driver.pending, p.driver.replies);
            && GenuineReplies(p.desk.ids, p.desk.calls, map[], replies', p.ledger.taken)
            && Owed(p.desk.ids, p.desk.calls, p.commands, map[], replies')
            && (forall k :: k in p.driver.replies ==> replies'[k] == p.driver.replies[k])
  {
    forall k
      ensures k in Channels(p.driver.pending) <==> k in p.desk.calls && p.desk.ids(k) in p.driver.pending
      ensures k in Channels(p.driver.pending) ==> p.ledger.taken[p.desk.ids(k)] >= 1
    {
      ChannelOwner(p, k);
    }
    hide Queued, GenuineQueue, NoLeakQueued, NoLeak, Channels, DeskOrder, GenuinePending;
  }

  /** Teardown answers every pending entry, so every caller still waiting has a reply. */
  lemma FlushKeeps(p: Peer, farewell: bool)
    requires CallsInv(p) && DeskOrder(p.desk) && p.life.Flushing?
    ensures CallsInv(DoFlush(p, farewell)) && RepliesKept(p, DoFlush(p, farewell))
  {
    FlushReplies(p);
    assert GenuinePending(p.desk.ids, p.desk.calls, map[], p.ledger.taken);
    assert NoLeak(p.desk.calls, p.commands, map[]);
    hide DeskOrder, GenuineQueue, GenuinePending, GenuineReplies, Owed, NoLeak, NoLeakQueued, FailedReplies;
  }

  /** A pending channel is a call's own. */
  lemma ChannelOwner(p: Peer, k: nat)
    requires DeskOrder(p.desk) && GenuinePending(p.desk.ids, p.desk.calls, p.driver.pending, p.ledger.taken)
    ensures k in Channels(p.driver.pending) <==> k in p.desk.calls && p.desk.ids(k) in p.driver.pending
    ensures k in Channels(p.driver.pending) ==> p.ledger.taken[p.desk.ids(k)] >= 1
  {
    if k in p.desk.calls && p.desk.ids(k) in p.driver.pending {
      assert p.driver.pending[p.desk.ids(k)].reply == k;
    }
  }

  /** Which channels the dropped queue hangs up. */
  lemma {:induction false} HungKeys(commands: seq<Command>, replies: map<nat, Reply>, k: nat)
    ensures k in HungReplies(commands, replies) <==> k in replies || Queued(commands, k)
    ensures k in replies && !Queued(commands, k) ==> HungReplies(commands, replies)[k] == replies[k]
  {
    if commands != [] {
      HungKeys(commands[1..], replies, k);
      if Queued(commands, k) {
        var c :| c in commands && c.Request? && c.reply == k;
        assert c == commands[0] || c in commands[1..];
      }
      if Queued(commands[1..], k) {
        var c :| c in commands[1..] && c.Request? && c.reply == k;
        assert c in commands;
      }
    }
  }

  lemma DropKeeps(p: Peer)
    requires CallsInv(p) && Balanced(p) && p.life.Draining?
    ensures CallsInv(DoDrop(p)) && RepliesKept(p, DoDrop(p))
  {
    var p' := DoDrop(p);
    forall k
      ensures k in p'.driver.replies <==> k in p.driver.replies || Queued(p.commands, k)
      ensures k in p.driver.replies ==> p'.driver.replies[k] == p.driver.replies[k]
      ensures Queued(p.commands, k) ==> k in p.desk.calls && p'.ledger.taken[p.desk.ids(k)] >= 1
    {
      HungKeys(p.commands, p.driver.replies, k);
      if Queued(p.commands, k) {
        var c :| c in p.commands && c.Request? && c.reply == k;
        assert Genuine(p.desk.ids, p.desk.calls, c);
        QueuedNotTaken(p, c);
        CountMember(RequestOf, p.commands, c, c.id);
        TallyCounts(RequestOf, p.commands, c.id);
      }
    }
    hide Queued, Balanced, HungReplies;
  }

  lemma WritesKeep(p: Peer, w: WriterStep)
    requires CanWrite(p, w) && DeskOrder(p.desk) && Balanced(p) && CallsInv(p)
    ensures CallsInv(Writes(p, w)) && RepliesKept(p, Writes(p, w))
  {
    hide DeskOrder, Balanced, CallsInv, DoFlush, DoDrop;
    match w
    case Flush(farewell) => FlushKeeps(p, farewell);
    case Drop => DropKeeps(p);
    case _ => SameCallsKeeps(p, Writes(p, w));
  }

  /** Only an answer touches the pending calls and their replies. */
  lemma QuietFrame(d: Driver, f: Frame, task: nat)
    requires !f.Res? && !f.Err?
    ensures OnFrame(d, f, task).0.pending == d.pending && OnFrame(d, f, task).0.replies == d.replies
  {
    hide Route;
  }

  /** Receiving moves nothing of the caller's but what the frame settles. */
  lemma ReceiveCalls(p: Peer, mid: Peer, f: Frame, task: nat)
    requires p.life.Running? && mid == p.(driver := mid.driver)
    requires mid.driver.pending == OnFrame(p.driver, f, task).0.pending && mid.driver.replies == OnFrame(p.driver, f, task).0.replies
    ensures SameCalls(mid, Receive(p, f, task)) && Receive(p, f, task).ledger.taken == mid.ledger.taken
  {
    hide OnFrame, Route;
  }

  lemma AnswerKeeps(p: Peer, f: Frame, id: Id, outcome: Outcome, task: nat)
    requires CallsInv(p) && DeskOrder(p.desk) && p.life.Running?
    requires OnFrame(p.driver, f, task).0 == OnResponse(p.driver, id, outcome)
    ensures CallsInv(Receive(p, f, task)) && RepliesKept(p, Receive(p, f, task))
  {
    hide CallsInv, DeskOrder, OnFrame, OnResponse, Receive;
    var mid := p.(driver := OnResponse(p.driver, id, outcome));
    ResponseKeeps(p, id, outcome);
    ReceiveCalls(p, mid, f, task);
    SameCallsKeeps(mid, Receive(p, f, task));
  }

  lemma ReceiveKeeps(p: Peer, f: Frame, task: nat)
    requires CallsInv(p) && DeskOrder(p.desk) && p.life.Running?
    ensures CallsInv(Receive(p, f, task)) && RepliesKept(p, Receive(p, f, task))
  {
    hide CallsInv, DeskOrder, Receive, Route, OnHello, OnRequest, OnCancel, OnResponse, RepliesKept;
    match f
    case Res(id, result) => AnswerKeeps(p, f, id, Ok(result), task);
    case Err(id, error) => AnswerKeeps(p, f, id, Failed(error), task);
    case _ => OtherKeeps(p, f, task);
  }

  lemma OtherKeeps(p: Peer, f: Frame, task: nat)
    requires CallsInv(p) && p.life.Running? && !f.Res? && !f.Err?
    ensures CallsInv(Receive(p, f, task)) && RepliesKept(p, Receive(p, f, task))
  {
    hide CallsInv, OnFrame, Receive;
    QuietFrame(p.driver, f, task);
    ReceiveCalls(p, p, f, task);
    SameCallsKeeps(p, Receive(p, f, task));
  }

  lemma ActKeepsCalls(p: Peer, a: Action)
    requires Can(p, a) && DeskOrder(p.desk) && Balanced(p) && CallsInv(p)
    ensures CallsInv(Act(p, a)) && RepliesKept(p, Act(p, a))
  {
    hide DeskOrder, Balanced, CallsInv, Loops, Writes;
    match a
    case Caller(c) =>
      CallsKeep(p, c);
      CallsFrame(p, c);
    case Loop(l) => LoopsKeep(p, l);
    case Writer(w) => WritesKeep(p, w);
  }
}
