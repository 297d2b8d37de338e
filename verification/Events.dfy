/**
 Event emission: any number of emitters number their events per stream key under
 one lock. The steps of different emitters interleave in any order.
 */
module Events {
  import opened Wrappers
  import opened Frames

  datatype Input = Input(topic: string, payload: Json, streamId: Option<string>, end: bool)

  datatype Result = Emitted | NotSent | TooManyKeys | TooLarge

  /** An `emit` call between two of its effects. */
  datatype Emitter =
    | Checked(input: Input)
    | Holding(input: Input, number: nat)
    | Posted(input: Input, number: nat)
    | Over(input: Input, result: Result)

  /** `authors` says which call put each event of the wire there. */
  datatype Streams = Streams(
    sequences: map<string, nat>,
    holder: Option<nat>,
    emitters: seq<Emitter>,
    wire: seq<Event>,
    authors: seq<nat>)

  /** The stream key: the stream id, or else the topic. */
  function KeyOf(topic: string, streamId: Option<string>): string {
    if streamId.Some? then streamId.value else topic
  }

  function Key(e: Event): string {
    KeyOf(e.topic, e.streamId)
  }

  function InputKey(i: Input): string {
    KeyOf(i.topic, i.streamId)
  }

  function Framed(i: Input, number: nat): Event {
    Event(i.topic, number, i.streamId, i.payload, i.end)
  }

  function NumberFor(sequences: map<string, nat>, key: string): nat {
    if key in sequences then sequences[key] else 0
  }

  function Committed(sequences: map<string, nat>, i: Input, number: nat): map<string, nat> {
    if i.end then sequences - {InputKey(i)} else sequences[InputKey(i) := number + 1]
  }

  // ---------------------------------------------------------------------
  // Steps

  datatype Step =
    | Begin(input: Input, ready: bool)
    | Lock(i: nat)
    | Post(i: nat, fits: bool, alive: bool)
    | Commit(i: nat)

  predicate Enabled(s: Streams, step: Step) {
    match step
    case Begin(_, _) => true
    case Lock(i) => i < |s.emitters| && s.emitters[i].Checked? && s.holder.None?
    case Post(i, _, _) => i < |s.emitters| && s.emitters[i].Holding?
    case Commit(i) => i < |s.emitters| && s.emitters[i].Posted?
  }

  /** The call returns, and the lock goes with it. */
  function Returned(s: Streams, i: nat, r: Result): Streams
    requires i < |s.emitters|
  {
    s.(emitters := s.emitters[i := Over(s.emitters[i].input, r)], holder := None)
  }

  function Next(max: nat, s: Streams, step: Step): Streams
    requires Enabled(s, step)
  {
    match step
    case Begin(input, ready) => s.(emitters := s.emitters + [if ready then Checked(input) else Over(input, NotSent)])
    case Lock(i) =>
      var input := s.emitters[i].input;
      var key := InputKey(input);
      if key !in s.sequences && |s.sequences| >= max then Returned(s, i, TooManyKeys)
      else s.(holder := Some(i), emitters := s.emitters[i := Holding(input, NumberFor(s.sequences, key))])
    case Post(i, fits, alive) =>
      var input, number := s.emitters[i].input, s.emitters[i].number;
      if !fits then Returned(s, i, TooLarge)
      else if !alive then Returned(s, i, NotSent)
      else s.(wire := s.wire + [Framed(input, number)], authors := s.authors + [i], emitters := s.emitters[i := Posted(input, number)])
    case Commit(i) =>
      var input, number := s.emitters[i].input, s.emitters[i].number;
      Returned(s.(sequences := Committed(s.sequences, input, number)), i, Emitted)
  }

  predicate Run(max: nat, s: Streams, steps: seq<Step>, s': Streams)
    decreases |steps|
  {
    if steps == [] then s == s'
    else Enabled(s, steps[0]) && Run(max, Next(max, s, steps[0]), steps[1..], s')
  }

  predicate Initial(s: Streams) {
    s.sequences == map[] && s.holder.None? && s.emitters == [] && s.wire == [] && s.authors == []
  }

  // ---------------------------------------------------------------------
  // The specification: numbering read off the wire alone

  /** How many events a key has had since its last end. */
  function SinceEnd(wire: seq<Event>, key: string): nat {
    if wire == [] then 0
    else
      var init, last := wire[..|wire| - 1], wire[|wire| - 1];
      if Key(last) != key then SinceEnd(init, key) else if last.end then 0 else SinceEnd(init, key) + 1
  }

  predicate Numbered(wire: seq<Event>) {
    forall k :: 0 <= k < |wire| ==> wire[k].number == SinceEnd(wire[..k], Key(wire[k]))
  }

  /**
   Which events share a numbering, from their fields alone: two with stream ids
   by their ids, whatever the topics; two without by their topics; and one of
   each if the id is the topic.
   */
  predicate Shares(a: Event, b: Event) {
    match (a.streamId, b.streamId)
    case (Some(x), Some(y)) => x == y
    case (None, None) => a.topic == b.topic
    case (Some(x), None) => x == b.topic
    case (None, Some(y)) => a.topic == y
  }

  /** How many events shared a numbering with `e` since the last that ended it. */
  function Preceding(wire: seq<Event>, e: Event): nat {
    if wire == [] then 0
    else
      var init, last := wire[..|wire| - 1], wire[|wire| - 1];
      if !Shares(last, e) then Preceding(init, e) else if last.end then 0 else Preceding(init, e) + 1
  }

  /** Every event carries the number of those that came before it in its numbering. */
  predicate CountedOff(wire: seq<Event>) {
    forall k :: 0 <= k < |wire| ==> wire[k].number == Preceding(wire[..k], wire[k])
  }

  lemma SharesByKey(a: Event, b: Event)
    ensures Shares(a, b) <==> Key(a) == Key(b)
  {
  }

  lemma {:induction false} PrecedingByKey(wire: seq<Event>, e: Event)
    ensures Preceding(wire, e) == SinceEnd(wire, Key(e))
  {
    hide Key, Shares;
    if wire != [] {
      SharesByKey(wire[|wire| - 1], e);
      PrecedingByKey(wire[..|wire| - 1], e);
    }
  }

  lemma NumberedCountsOff(wire: seq<Event>)
    requires Numbered(wire)
    ensures CountedOff(wire)
  {
    hide SinceEnd, Preceding;
    forall k | 0 <= k < |wire| ensures wire[k].number == Preceding(wire[..k], wire[k]) {
      PrecedingByKey(wire[..k], wire[k]);
    }
  }

  /** The counters are the open keys and their numbers. */
  ghost predicate Tracks(sequences: map<string, nat>, wire: seq<Event>) {
    forall key :: (key in sequences <==> SinceEnd(wire, key) > 0) && NumberFor(sequences, key) == SinceEnd(wire, key)
  }

  // ---------------------------------------------------------------------
  // What every step keeps

  predicate Busy(e: Emitter) {
    e.Holding? || e.Posted?
  }

  /** Only the holder of the lock is inside. */
  predicate Exclusive(holder: Option<nat>, emitters: seq<Emitter>) {
    && (holder.Some? ==> holder.value < |emitters|)
    && forall i :: 0 <= i < |emitters| ==> (Busy(emitters[i]) <==> holder == Some(i))
  }

  /** What the holder is about to do agrees with the counters and the wire. */
  ghost predicate Inside(max: nat, sequences: map<string, nat>, wire: seq<Event>, e: Emitter) {
    match e
    case Holding(input, number) =>
      && Tracks(sequences, wire)
      && number == NumberFor(sequences, InputKey(input))
      && (InputKey(input) in sequences || |sequences| < max)
    case Posted(input, number) =>
      && wire != [] && wire[|wire| - 1] == Framed(input, number)
      && Tracks(sequences, wire[..|wire| - 1])
      && number == NumberFor(sequences, InputKey(input))
      && (InputKey(input) in sequences || |sequences| < max)
    case _ => Tracks(sequences, wire)
  }

  ghost predicate Inv(max: nat, s: Streams) {
    && Exclusive(s.holder, s.emitters)
    && Numbered(s.wire)
    && |s.sequences| <= max
    && if s.holder.Some? then Inside(max, s.sequences, s.wire, s.emitters[s.holder.value]) else Tracks(s.sequences, s.wire)
  }

  lemma NumberedMore(wire: seq<Event>, e: Event)
    requires Numbered(wire) && e.number == SinceEnd(wire, Key(e))
    ensures Numbered(wire + [e])
  {
    hide SinceEnd;
    var now := wire + [e];
    assert forall k :: 0 <= k <= |wire| ==> now[..k] == wire[..k];
    assert wire[..|wire|] == wire;
    forall k | 0 <= k < |now|
      ensures now[k].number == SinceEnd(now[..k], Key(now[k]))
    {
      if k < |wire| {
        assert now[k] == wire[k];
      }
    }
  }

  /** Committing an event already on the wire brings the counters up to it. */
  lemma CommitTracks(sequences: map<string, nat>, wire: seq<Event>, i: Input, number: nat)
    requires Tracks(sequences, wire) && number == NumberFor(sequences, InputKey(i))
    ensures Tracks(Committed(sequences, i, number), wire + [Framed(i, number)])
  {
    var now := wire + [Framed(i, number)];
    assert now[..|now| - 1] == wire;
    var after := Committed(sequences, i, number);
    forall key
      ensures (key in after <==> SinceEnd(now, key) > 0) && NumberFor(after, key) == SinceEnd(now, key)
    {
      assert NumberFor(sequences, key) == SinceEnd(wire, key);
    }
  }

  lemma CommitSize(max: nat, sequences: map<string, nat>, i: Input, number: nat)
    requires |sequences| <= max && (InputKey(i) in sequences || |sequences| < max)
    ensures |Committed(sequences, i, number)| <= max
  {
    var key := InputKey(i);
    if i.end {
      assert Committed(sequences, i, number).Keys <= sequences.Keys;
      SubsetSize(Committed(sequences, i, number).Keys, sequences.Keys);
    } else {
      assert Committed(sequences, i, number).Keys == sequences.Keys + {key};
    }
  }

  lemma SubsetSize(a: set<string>, b: set<string>)
    requires a <= b
    ensures |a| <= |b|
  {
    assert a + (b - a) == b;
  }

  lemma NextKeeps(max: nat, s: Streams, step: Step)
    requires Inv(max, s) && Enabled(s, step)
    ensures Inv(max, Next(max, s, step))
  {
    hide Tracks, Numbered, SinceEnd, KeyOf;
    match step
    case Begin(_, _) =>
    case Lock(_) =>
    case Post(i, fits, alive) =>
      if fits && alive {
        var e := s.emitters[i];
        var evt := Framed(e.input, e.number);
        TrackedNumber(s.sequences, s.wire, Key(evt));
        NumberedMore(s.wire, evt);
        assert (s.wire + [evt])[..|s.wire|] == s.wire;
      }
    case Commit(i) =>
      var e := s.emitters[i];
      var init := s.wire[..|s.wire| - 1];
      CommitTracks(s.sequences, init, e.input, e.number);
      CommitSize(max, s.sequences, e.input, e.number);
      assert init + [Framed(e.input, e.number)] == s.wire;
  }

  lemma TrackedNumber(sequences: map<string, nat>, wire: seq<Event>, key: string)
    requires Tracks(sequences, wire)
    ensures NumberFor(sequences, key) == SinceEnd(wire, key)
  {
  }

  // ---------------------------------------------------------------------
  // Every run

  lemma {:induction false} RunKeeps(max: nat, s: Streams, steps: seq<Step>, s': Streams)
    requires Inv(max, s) && Run(max, s, steps, s')
    ensures Inv(max, s')
    decreases |steps|
  {
    hide Inv, Next, Enabled;
    if steps != [] {
      NextKeeps(max, s, steps[0]);
      RunKeeps(max, Next(max, s, steps[0]), steps[1..], s');
    }
  }

  /**
   In any interleaving, every event on the wire carries the number of events
   before it that share its numbering, counted since the last of them that ended
   it, and no more keys are open than the session allows.
   */
  lemma EventsNumbered(max: nat, s: Streams, steps: seq<Step>, s': Streams)
    requires Initial(s) && Run(max, s, steps, s')
    ensures CountedOff(s'.wire)
    ensures |s'.sequences| <= max
    ensures s'.holder.None? ==> Tracks(s'.sequences, s'.wire)
  {
    assert Inv(max, s);
    RunKeeps(max, s, steps, s');
    NumberedCountsOff(s'.wire);
    hide Run, Numbered, Tracks, CountedOff;
  }

  /** A call that has put its event on the wire. */
  predicate HasEmitted(e: Emitter) {
    e.Posted? || (e.Over? && e.result == Emitted)
  }

  function Emission(e: Emitter): nat {
    if HasEmitted(e) then 1 else 0
  }

  function Emissions(emitters: seq<Emitter>): nat {
    if emitters == [] then 0 else Emission(emitters[0]) + Emissions(emitters[1..])
  }

  lemma {:induction false} EmissionsAt(emitters: seq<Emitter>, i: nat, e: Emitter)
    requires i < |emitters|
    ensures Emissions(emitters[i := e]) == Emissions(emitters) - Emission(emitters[i]) + Emission(e)
  {
    var now := emitters[i := e];
    if i == 0 {
      assert now[1..] == emitters[1..];
    } else {
      assert now[1..] == emitters[1..][i - 1 := e];
      EmissionsAt(emitters[1..], i - 1, e);
    }
  }

  lemma {:induction false} EmissionsMore(emitters: seq<Emitter>, e: Emitter)
    ensures Emissions(emitters + [e]) == Emissions(emitters) + Emission(e)
  {
    if emitters == [] {
      assert emitters + [e] == [e] && [e][1..] == [];
    } else {
      assert (emitters + [e])[1..] == emitters[1..] + [e];
      EmissionsMore(emitters[1..], e);
    }
  }

  lemma NextEmits(max: nat, s: Streams, step: Step)
    requires Enabled(s, step)
    ensures var now := Next(max, s, step);
            |now.wire| - |s.wire| == Emissions(now.emitters) - Emissions(s.emitters) && s.wire <= now.wire
  {
    hide Emissions;
    var now := Next(max, s, step);
    match step
    case Begin(input, ready) => EmissionsMore(s.emitters, now.emitters[|s.emitters|]);
    case Lock(i) => EmissionsAt(s.emitters, i, now.emitters[i]);
    case Post(i, _, _) => EmissionsAt(s.emitters, i, now.emitters[i]);
    case Commit(i) => EmissionsAt(s.emitters, i, now.emitters[i]);
  }

  /**
   Over any run, one event on the wire for each call that emitted and none for
   any other: a call refused or unsent has added nothing from beginning to end,
   and the counters, which are read off the wire, are as if it had not been made.
   */
  lemma {:induction false} UnsentAddsNothing(max: nat, s: Streams, steps: seq<Step>, s': Streams)
    requires Run(max, s, steps, s') && |s.wire| == Emissions(s.emitters)
    ensures |s'.wire| == Emissions(s'.emitters) && s.wire <= s'.wire
    decreases |steps|
  {
    hide Next, Enabled, Emissions;
    if steps != [] {
      NextEmits(max, s, steps[0]);
      UnsentAddsNothing(max, Next(max, s, steps[0]), steps[1..], s');
    }
  }

  /** An event carries what its call was given. */
  predicate Carries(e: Event, i: Input) {
    e.topic == i.topic && e.streamId == i.streamId && e.payload == i.payload && e.end == i.end
  }

  /** Every event on the wire is the one its call was given, and no call has two. */
  predicate Authored(emitters: seq<Emitter>, wire: seq<Event>, authors: seq<nat>) {
    && |authors| == |wire|
    && (forall k :: 0 <= k < |wire| ==>
          authors[k] < |emitters| && HasEmitted(emitters[authors[k]]) && Carries(wire[k], emitters[authors[k]].input))
    && (forall j, k :: 0 <= j < k < |authors| ==> authors[j] != authors[k])
  }

  lemma NextAuthored(max: nat, s: Streams, step: Step)
    requires Enabled(s, step) && Authored(s.emitters, s.wire, s.authors)
    ensures var now := Next(max, s, step); Authored(now.emitters, now.wire, now.authors)
  {
    hide KeyOf;
  }

  /** Over any run every event sent carries the topic, stream id, payload and end of the call that emitted it. */
  lemma {:induction false} EventsAuthored(max: nat, s: Streams, steps: seq<Step>, s': Streams)
    requires Run(max, s, steps, s') && Authored(s.emitters, s.wire, s.authors)
    ensures Authored(s'.emitters, s'.wire, s'.authors)
    decreases |steps|
  {
    hide Next, Enabled, Authored;
    if steps != [] {
      NextAuthored(max, s, steps[0]);
      EventsAuthored(max, Next(max, s, steps[0]), steps[1..], s');
    }
  }

  /** In one numbering, wire order is number order: an event counts up from every earlier one since its last end. */
  lemma OrderAgrees(wire: seq<Event>, i: nat, j: nat)
    requires CountedOff(wire) && i < j < |wire| && Shares(wire[i], wire[j])
    requires forall k :: i <= k < j && Shares(wire[k], wire[j]) ==> !wire[k].end
    ensures wire[i].number < wire[j].number
  {
    hide Shares;
    CountsUp(wire, i, j, wire[j]);
    PrecedingShared(wire[..i], wire[i], wire[j]);
  }

  lemma {:induction false} CountsUp(wire: seq<Event>, i: nat, j: nat, e: Event)
    requires i < j <= |wire| && Shares(wire[i], e)
    requires forall k :: i <= k < j && Shares(wire[k], e) ==> !wire[k].end
    ensures Preceding(wire[..j], e) > Preceding(wire[..i], e)
    decreases j
  {
    hide Shares;
    assert wire[..j][..j - 1] == wire[..j - 1];
    if i + 1 < j {
      CountsUp(wire, i, j - 1, e);
    }
  }

  /** Events that share a numbering are preceded by the same events. */
  lemma PrecedingShared(wire: seq<Event>, a: Event, b: Event)
    requires Shares(a, b)
    ensures Preceding(wire, a) == Preceding(wire, b)
  {
    SharesByKey(a, b);
    PrecedingByKey(wire, a);
    PrecedingByKey(wire, b);
  }

  /**
   What each step of a call decides. Under the lock it is refused exactly when
   its numbering is not open and no more may be; a call let through is posted
   exactly when its frame fits and the driver is there.
   */
  lemma CallDecides(max: nat, s: Streams, input: Input, ready: bool, i: nat, fits: bool, alive: bool)
    requires Inv(max, s) && i < |s.emitters|
    ensures var begun := Next(max, s, Begin(input, ready)).emitters;
            |begun| == |s.emitters| + 1 && begun[|s.emitters|] == if ready then Checked(input) else Over(input, NotSent)
    ensures Enabled(s, Lock(i)) ==>
              var now := Next(max, s, Lock(i)).emitters[i];
              var refused := Preceding(s.wire, Framed(s.emitters[i].input, 0)) == 0 && |s.sequences| >= max;
              if refused then now.Over? && now.result == TooManyKeys else now.Holding?
    ensures Enabled(s, Post(i, fits, alive)) ==>
              var now := Next(max, s, Post(i, fits, alive)).emitters[i];
              if !fits then now.Over? && now.result == TooLarge
              else if !alive then now.Over? && now.result == NotSent
              else now.Posted?
  {
    if Enabled(s, Lock(i)) {
      PrecedingByKey(s.wire, Framed(s.emitters[i].input, 0));
    }
    hide Numbered, SinceEnd, KeyOf, Preceding;
  }

  // ---------------------------------------------------------------------
  // The call, as code

  class EventSequences {
    const max: nat
    var sequences: map<string, nat>
    var wire: seq<Event>

    ghost predicate Valid()
      reads this
    {
      |sequences| <= max && Numbered(wire) && Tracks(sequences, wire)
    }

    constructor (max: nat)
      ensures Valid() && this.max == max && wire == []
    {
      this.max := max;
      sequences, wire := map[], [];
    }

    /** The whole of `emit`, which holds the lock from its first look at the counters to its last. */
    method Emit(input: Input, ready: bool, fits: bool, alive: bool) returns (r: Result)
      requires Valid()
      modifies this
      ensures Valid()
      ensures r == Emitted ==> |wire| == |old(wire)| + 1 && wire[..|old(wire)|] == old(wire)
      ensures r == Emitted ==> var e := wire[|old(wire)|]; Carries(e, input) && e.number == Preceding(old(wire), e)
      ensures r != Emitted ==> wire == old(wire) && sequences == old(sequences)
      ensures r == TooManyKeys <==> ready && Preceding(old(wire), Framed(input, 0)) == 0 && |old(sequences)| >= max
      ensures r == Emitted <==> ready && fits && alive && r != TooManyKeys
    {
      var key := InputKey(input);
      PrecedingByKey(wire, Framed(input, 0));
      PrecedingByKey(wire, Framed(input, NumberFor(sequences, key)));
      hide KeyOf, Numbered, SinceEnd, Preceding;
      if !ready {
        return NotSent;
      }
      if key !in sequences && |sequences| >= max {
        return TooManyKeys;
      }
      var number := NumberFor(sequences, key);
      if !fits {
        return TooLarge;
      }
      if !alive {
        return NotSent;
      }
      NumberedMore(wire, Framed(input, number));
      CommitTracks(sequences, wire, input, number);
      CommitSize(max, sequences, input, number);
      wire := wire + [Framed(input, number)];
      if input.end {
        sequences := sequences - {key};
      } else {
        sequences := sequences[key := number + 1];
      }
      return Emitted;
    }
  }
}
