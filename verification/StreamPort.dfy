/**
 The receive half of the NDJSON port: frames decoded from a byte stream, then
 exactly one closure, then nothing. A `recv` call may be dropped at either of
 its awaits, and loses nothing by it.
 */
module StreamPort {
  import opened Wrappers
  import opened Frames
  import opened Lines
  import opened LineDecoders

  datatype Closure =
    | Closed(failed: bool)
    | ProtocolError(error: CodecError, code: nat)

  datatype Inbound = FrameIn(frame: Frame) | ClosedIn(closure: Closure)

  /** One completed read. No bytes is the end of the file. */
  datatype Event = Arrived(bytes: seq<Byte>) | Broken

  /** A read, and whether the farewell it may call for completes before the call is dropped. */
  datatype Wake = Wake(event: Event, finishes: bool)

  datatype Answer = Gave(item: Option<Inbound>) | Dropped

  // ---------------------------------------------------------------------
  // The port, as a value

  datatype Rx = Rx(decoder: Decoder, pending: seq<Frame>, closure: Option<Closure>, terminal: bool)

  const OPENED := Rx(FRESH, [], None, false)

  datatype Received = Received(port: Rx, answer: Answer, used: nat)

  /** What a completed read does, up to the await that follows it. */
  function Handle(c: Codec, p: Rx, e: Event): Rx {
    match e
    case Broken => p.(closure := Some(Closed(true)))
    case Arrived(bytes) =>
      if bytes == [] then p.(closure := Some(Closed(false)))
      else
        var o := Pushed(c, p.decoder, bytes);
        p.(decoder := o.next,
           pending := p.pending + o.reading.frames,
           closure := if o.reading.error.Some? then Some(Refusal(o.reading.error.value)) else p.closure)
  }

  function Refusal(e: CodecError): Closure {
    ProtocolError(e, CloseCodeFor(e))
  }

  /** One `recv`, given the reads that complete while it runs. When they run out it is dropped while reading. */
  function Recv(c: Codec, p: Rx, wakes: seq<Wake>): (r: Received)
    ensures r.used <= |wakes|
    decreases |wakes|
  {
    if p.pending != [] then Received(p.(pending := p.pending[1..]), Gave(Some(FrameIn(p.pending[0]))), 0)
    else if p.closure.Some? then
      Received(p.(closure := None, terminal := true), Gave(Some(ClosedIn(p.closure.value))), 0)
    else if p.terminal then Received(p, Gave(None), 0)
    else if wakes == [] then Received(p, Dropped, 0)
    else
      var q := Handle(c, p, wakes[0].event);
      if q.closure.Some? && !wakes[0].finishes then Received(q, Dropped, 1)
      else
        var r := Recv(c, q, wakes[1..]);
        r.(used := r.used + 1)
  }

  // ---------------------------------------------------------------------
  // What a port should hand out, from its reads alone

  predicate Ends(e: Event) {
    e.Broken? || e.bytes == []
  }

  /** The bytes read before the stream ended. */
  function Input(events: seq<Event>): seq<Byte> {
    if events == [] || Ends(events[0]) then [] else events[0].bytes + Input(events[1..])
  }

  /** How the transport ended, if it did. */
  function Ending(events: seq<Event>): seq<Inbound> {
    if events == [] then []
    else if Ends(events[0]) then [ClosedIn(Closed(events[0].Broken?))]
    else Ending(events[1..])
  }

  function Framed(frames: seq<Frame>): seq<Inbound> {
    seq(|frames|, i requires 0 <= i < |frames| => FrameIn(frames[i]))
  }

  /** The frames before the first refusal, and one closure: the refusal, or else the end of the transport. */
  function Expected(c: Codec, events: seq<Event>): seq<Inbound> {
    var r := Stream(c, Input(events));
    Framed(r.frames) + (if r.error.Some? then [ClosedIn(Refusal(r.error.value))] else Ending(events))
  }

  // ---------------------------------------------------------------------
  // Runs of calls

  /** What has happened to a port: its reads, and what its calls answered. */
  datatype History = History(port: Rx, events: seq<Event>, answers: seq<Answer>)

  function Events(wakes: seq<Wake>): seq<Event> {
    seq(|wakes|, i requires 0 <= i < |wakes| => wakes[i].event)
  }

  function Called(c: Codec, h: History, wakes: seq<Wake>): History {
    var r := Recv(c, h.port, wakes);
    History(r.port, h.events + Events(wakes[..r.used]), h.answers + [r.answer])
  }

  /** Any number of calls, each with the reads that complete while it runs. */
  function Serve(c: Codec, h: History, calls: seq<seq<Wake>>): History
    decreases |calls|
  {
    if calls == [] then h else Serve(c, Called(c, h, calls[0]), calls[1..])
  }

  const BEGUN := History(OPENED, [], [])

  /** What the answers handed out, in order. */
  function Given(answers: seq<Answer>): seq<Inbound> {
    if answers == [] then []
    else
      var last := answers[|answers| - 1];
      Given(answers[..|answers| - 1]) + Handed(last)
  }

  /** What is decoded or recorded but not handed out yet. */
  function Owed(p: Rx): seq<Inbound> {
    Framed(p.pending) + (if p.closure.Some? then [ClosedIn(p.closure.value)] else [])
  }

  /** A port still reading: nothing has ended its stream. */
  predicate StillOpen(c: Codec, d: Decoder, events: seq<Event>) {
    && Ending(events) == []
    && Stream(c, Input(events)).error.None?
    && d == Decoder(Cut(Input(events)).tail, None)
  }

  predicate Kept(c: Codec, p: Rx, events: seq<Event>, given: seq<Inbound>) {
    && given + Owed(p) == Expected(c, events)
    && (!p.terminal && p.closure.None? ==> StillOpen(c, p.decoder, events))
    && (p.terminal ==> Owed(p) == [])
    && (p.terminal || p.closure.Some? ==> Over(c, events))
  }

  /** Something has ended the stream, so one closure is expected. */
  predicate Over(c: Codec, events: seq<Event>) {
    Stream(c, Input(events)).error.Some? || Ending(events) != []
  }

  // ---------------------------------------------------------------------
  // Reads add to what is expected

  lemma {:induction false} InputMore(events: seq<Event>, e: Event)
    requires Ending(events) == []
    ensures Input(events + [e]) == Input(events) + (if Ends(e) then [] else e.bytes)
    ensures Ending(events + [e]) == (if Ends(e) then [ClosedIn(Closed(e.Broken?))] else [])
  {
    if events == [] {
      assert events + [e] == [e];
    } else {
      assert (events + [e])[1..] == events[1..] + [e];
      InputMore(events[1..], e);
      assert events[0].bytes + (Input(events[1..]) + (if Ends(e) then [] else e.bytes))
          == Input(events) + (if Ends(e) then [] else e.bytes);
    }
  }

  lemma FramedConcat(a: seq<Frame>, b: seq<Frame>)
    ensures Framed(a + b) == Framed(a) + Framed(b)
  {
  }

  /** What an open port that owes nothing has handed out: every frame of its input. */
  lemma AllGiven(c: Codec, p: Rx, events: seq<Event>, given: seq<Inbound>)
    requires Kept(c, p, events, given) && p.pending == [] && p.closure.None? && !p.terminal
    ensures given == Framed(Stream(c, Input(events)).frames)
    ensures StillOpen(c, p.decoder, events)
  {
    hide Stream, Cut, Input, Ending;
    assert Framed([]) == [];
    assert given == given + Owed(p) == Framed(Stream(c, Input(events)).frames) + [];
  }

  lemma EndKeeps(c: Codec, p: Rx, events: seq<Event>, given: seq<Inbound>, e: Event)
    requires Kept(c, p, events, given) && p.pending == [] && p.closure.None? && !p.terminal && Ends(e)
    ensures Kept(c, Handle(c, p, e), events + [e], given)
  {
    hide Stream, Cut, Input, Ending, Framed;
    AllGiven(c, p, events, given);
    InputMore(events, e);
    assert Input(events) + [] == Input(events);
    assert Framed([]) == [];
    assert Owed(Handle(c, p, e)) == Ending(events + [e]);
  }

  lemma BytesKeep(c: Codec, p: Rx, events: seq<Event>, given: seq<Inbound>, e: Event)
    requires Kept(c, p, events, given) && p.pending == [] && p.closure.None? && !p.terminal && !Ends(e)
    ensures Kept(c, Handle(c, p, e), events + [e], given)
  {
    hide Stream, Cut, Input, Ending, Framed;
    AllGiven(c, p, events, given);
    InputMore(events, e);
    var was := Input(events);
    StreamConcat(c, was, e.bytes);
    CutConcat(was, e.bytes);
    var more := Stream(c, Cut(was).tail + e.bytes);
    FramedConcat(Stream(c, was).frames, more.frames);
    assert [] + more.frames == more.frames;
  }

  /** A read while the port is open adds exactly what it decodes. */
  lemma HandleKeeps(c: Codec, p: Rx, events: seq<Event>, given: seq<Inbound>, e: Event)
    requires Kept(c, p, events, given) && p.pending == [] && p.closure.None? && !p.terminal
    ensures Kept(c, Handle(c, p, e), events + [e], given)
  {
    hide Kept, Handle;
    if Ends(e) {
      EndKeeps(c, p, events, given, e);
    } else {
      BytesKeep(c, p, events, given, e);
    }
  }

  /** What an answer hands out. */
  function Handed(a: Answer): seq<Inbound> {
    if a.Gave? && a.item.Some? then [a.item.value] else []
  }

  /** Handing out a decoded frame or the closure takes it off what is owed. */
  lemma GiveKeeps(c: Codec, p: Rx, q: Rx, item: Inbound, events: seq<Event>, given: seq<Inbound>)
    requires Kept(c, p, events, given) && Owed(p) == [item] + Owed(q) && q.decoder == p.decoder
    requires q.terminal == (p.terminal || p.closure != q.closure)
    requires q.closure == p.closure || (q.closure.None? && Owed(q) == [])
    ensures Kept(c, q, events, given + [item])
  {
    hide Owed, Expected, StillOpen, Over;
    Regroup(given, [item], Owed(q));
    assert Owed(p) != [];
  }

  /** A call that needs no read answers at once, or is dropped having done nothing. */
  lemma AnswerKeeps(c: Codec, p: Rx, events: seq<Event>, given: seq<Inbound>)
    requires Kept(c, p, events, given)
    ensures var r := Recv(c, p, []);
            Kept(c, r.port, events, given + Handed(r.answer)) && (r.answer == Gave(None) ==> r.port.terminal)
  {
    hide Kept;
    var r := Recv(c, p, []);
    if p.pending != [] {
      assert p.pending == [p.pending[0]] + p.pending[1..];
      FramedConcat([p.pending[0]], p.pending[1..]);
      assert Owed(p) == [FrameIn(p.pending[0])] + Owed(r.port);
      GiveKeeps(c, p, r.port, FrameIn(p.pending[0]), events, given);
    } else if p.closure.Some? {
      assert Owed(p) == [ClosedIn(p.closure.value)] && Owed(r.port) == [];
      GiveKeeps(c, p, r.port, ClosedIn(p.closure.value), events, given);
    } else {
      assert given + [] == given;
    }
  }

  /** A call, dropped or not, keeps what is owed in step with what was read. */
  lemma {:induction false} RecvKeeps(c: Codec, p: Rx, wakes: seq<Wake>, events: seq<Event>, given: seq<Inbound>)
    requires Kept(c, p, events, given)
    ensures var r := Recv(c, p, wakes);
            && Kept(c, r.port, events + Events(wakes[..r.used]), given + Handed(r.answer))
            && (r.answer == Gave(None) ==> r.port.terminal)
    decreases |wakes|
  {
    hide Handle, Kept;
    var r := Recv(c, p, wakes);
    if p.pending != [] || p.closure.Some? || p.terminal || wakes == [] {
      assert events + Events(wakes[..0]) == events;
      AnswerKeeps(c, p, events, given);
    } else {
      var e := wakes[0].event;
      HandleKeeps(c, p, events, given, e);
      var q := Handle(c, p, e);
      if q.closure.Some? && !wakes[0].finishes {
        assert Events(wakes[..1]) == [e];
        assert given + [] == given;
      } else {
        RecvKeeps(c, q, wakes[1..], events + [e], given);
        EventsFirst(wakes, r.used);
        Regroup(events, [e], Events(wakes[1..][..r.used - 1]));
      }
    }
  }

  lemma EventsFirst(wakes: seq<Wake>, used: nat)
    requires 1 <= used <= |wakes|
    ensures Events(wakes[..used]) == [wakes[0].event] + Events(wakes[1..][..used - 1])
  {
  }

  // ---------------------------------------------------------------------
  // Whole runs

  predicate Faithful(c: Codec, h: History) {
    && Kept(c, h.port, h.events, Given(h.answers))
    && (Gave(None) in h.answers ==> h.port.terminal)
  }

  lemma CalledKeeps(c: Codec, h: History, wakes: seq<Wake>)
    requires Faithful(c, h)
    ensures Faithful(c, Called(c, h, wakes))
  {
    var r := Recv(c, h.port, wakes);
    RecvKeeps(c, h.port, wakes, h.events, Given(h.answers));
    var now := h.answers + [r.answer];
    assert now[..|now| - 1] == h.answers;
    assert h.port.terminal ==> h.port.pending == [] by {
      assert h.port.pending != [] ==> Owed(h.port) != [];
    }
    hide Kept;
  }

  lemma {:induction false} ServeKeeps(c: Codec, h: History, calls: seq<seq<Wake>>)
    requires Faithful(c, h)
    ensures Faithful(c, Serve(c, h, calls))
    decreases |calls|
  {
    hide Faithful, Called;
    if calls != [] {
      CalledKeeps(c, h, calls[0]);
      ServeKeeps(c, Called(c, h, calls[0]), calls[1..]);
    }
  }

  lemma {:induction false} EndingLast(events: seq<Event>)
    ensures |Ending(events)| <= 1 && (Ending(events) != [] ==> Ending(events)[0].ClosedIn?)
  {
    if events != [] {
      EndingLast(events[1..]);
    }
  }

  /** What is expected is frames, and after them at most one closure: one exactly when the stream is over. */
  lemma OneClosure(c: Codec, events: seq<Event>)
    ensures var x := Expected(c, events);
            && (forall i :: 0 <= i < |x| - 1 ==> x[i].FrameIn?)
            && (Over(c, events) <==> x != [] && x[|x| - 1].ClosedIn?)
  {
    EndingLast(events);
    hide Stream, Input, Ending;
  }

  /**
   Over any run of calls, some dropped at an await: what was handed out, then
   what is still owed, is what the bytes read so far mean. A `None` says that
   all of it was handed out, the one closure last.
   */
  lemma PortDelivers(c: Codec, calls: seq<seq<Wake>>)
    ensures var h := Serve(c, BEGUN, calls);
            var given := Given(h.answers);
            && given + Owed(h.port) == Expected(c, h.events)
            && (forall i :: 0 <= i < |given| - 1 ==> given[i].FrameIn?)
            && (given != [] && given[|given| - 1].ClosedIn? ==> given == Expected(c, h.events))
            && (Gave(None) in h.answers ==> given == Expected(c, h.events) && Over(c, h.events))
  {
    hide Serve, Expected, Over, StillOpen, Given, Owed;
    BegunFaithful(c);
    ServeKeeps(c, BEGUN, calls);
    var h := Serve(c, BEGUN, calls);
    OneClosure(c, h.events);
    PrefixCloses(Given(h.answers), Owed(h.port), Expected(c, h.events));
  }

  lemma BegunFaithful(c: Codec)
    ensures Faithful(c, BEGUN)
  {
    assert Expected(c, []) == [];
  }

  /** The items before the last of a sequence that closes at most at its end. */
  lemma PrefixCloses(given: seq<Inbound>, owed: seq<Inbound>, all: seq<Inbound>)
    requires given + owed == all && forall i :: 0 <= i < |all| - 1 ==> all[i].FrameIn?
    ensures forall i :: 0 <= i < |given| - 1 ==> given[i].FrameIn?
    ensures given != [] && given[|given| - 1].ClosedIn? ==> given == all
    ensures owed == [] ==> given == all
  {
    assert forall i :: 0 <= i < |given| ==> given[i] == all[i];
    if given != [] && given[|given| - 1].ClosedIn? {
      assert all[|given| - 1].ClosedIn?;
      assert |given| == |all|;
    }
  }

  /** Once a closure has been handed out, nothing is left to read or to hand out. */
  lemma ClosedIsTerminal(c: Codec, p: Rx, events: seq<Event>, given: seq<Inbound>)
    requires Kept(c, p, events, given) && given != [] && given[|given| - 1].ClosedIn?
    ensures p.terminal && p.pending == [] && p.closure.None?
  {
    OneClosure(c, events);
    PrefixCloses(given, Owed(p), Expected(c, events));
    hide Expected, Stream, Input, Ending;
    assert |given + Owed(p)| == |given| + |Owed(p)|;
    assert |Owed(p)| == 0;
  }

  /** After any run, once a caller has been given the closure every call answers `None` and reads nothing more. */
  lemma SilentAfterClosed(c: Codec, calls: seq<seq<Wake>>, wakes: seq<Wake>)
    ensures var h := Serve(c, BEGUN, calls);
            var given := Given(h.answers);
            given != [] && given[|given| - 1].ClosedIn? ==>
              Called(c, h, wakes) == History(h.port, h.events, h.answers + [Gave(None)])
  {
    hide Serve, Kept, Given, Called;
    BegunFaithful(c);
    ServeKeeps(c, BEGUN, calls);
    var h := Serve(c, BEGUN, calls);
    var given := Given(h.answers);
    if given != [] && given[|given| - 1].ClosedIn? {
      ClosedIsTerminal(c, h.port, h.events, given);
      TerminalAnswers(c, h, wakes);
    }
  }

  lemma TerminalAnswers(c: Codec, h: History, wakes: seq<Wake>)
    requires h.port.terminal && h.port.pending == [] && h.port.closure.None?
    ensures Called(c, h, wakes) == History(h.port, h.events, h.answers + [Gave(None)])
  {
    hide Handle;
    assert Events(wakes[..0]) == [];
  }

  // ---------------------------------------------------------------------
  // The port itself

  class NdjsonRx {
    const decoder: LineDecoder
    var pending: seq<Frame>
    var closure: Option<Closure>
    var terminal: bool

    function View(): Rx
      reads this, decoder
    {
      Rx(decoder.View(), pending, closure, terminal)
    }

    ghost predicate Valid()
      reads this, decoder
    {
      decoder.Valid()
    }

    constructor (limit: nat, parse: seq<Byte> -> Parsed)
      requires limit >= MIN_MAX_FRAME_BYTES
      ensures Valid() && View() == OPENED && decoder.codec == Codec(limit, IsBlank, parse) && fresh(decoder)
    {
      decoder := new LineDecoder(limit, parse);
      pending := [];
      closure := None;
      terminal := false;
    }

    /** The body of the loop past its three returns. The closure is recorded before the await it may lead to. */
    method OnRead(e: Event)
      requires Valid()
      modifies this, decoder
      ensures Valid()
      ensures View() == Handle(decoder.codec, old(View()), e)
    {
      match e
      case Broken => closure := Some(Closed(true));
      case Arrived(bytes) =>
        if bytes == [] {
          closure := Some(Closed(false));
        } else {
          var frames, error := decoder.Push(bytes);
          pending := pending + frames;
          if error.Some? {
            closure := Some(ProtocolError(error.value, CloseCodeFor(error.value)));
          }
        }
    }

    method Receive(wakes: seq<Wake>) returns (answer: Answer, used: nat)
      requires Valid()
      modifies this, decoder
      ensures Valid()
      ensures Received(View(), answer, used) == Recv(decoder.codec, old(View()), wakes)
    {
      hide Handle;
      used := 0;
      while true
        invariant Valid() && used <= |wakes|
        invariant var r := Recv(decoder.codec, View(), wakes[used..]);
                  Recv(decoder.codec, old(View()), wakes) == r.(used := r.used + used)
        decreases |wakes| - used
      {
        ghost var left := wakes[used..];
        if pending != [] {
          answer := Gave(Some(FrameIn(pending[0])));
          pending := pending[1..];
          return;
        }
        if closure.Some? {
          answer := Gave(Some(ClosedIn(closure.value)));
          closure, terminal := None, true;
          return;
        }
        if terminal {
          return Gave(None), used;
        }
        if used == |wakes| {
          return Dropped, used;
        }
        assert left[1..] == wakes[used + 1..];
        OnRead(wakes[used].event);
        used := used + 1;
        if closure.Some? && !wakes[used - 1].finishes {
          return Dropped, used;
        }
      }
    }
  }
}
