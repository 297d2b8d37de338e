/**
 The chunk reassemblers, Rust and TypeScript: whole runs of messages go in,
 frames come out, and the two refuse and accept alike.
 */
module ChunkReassemblers {
  import opened Wrappers
  import Frames
  import opened Lines
  import opened LineDecoders
  import opened Chunks
  import opened ChunkEncoder

  // ---------------------------------------------------------------------
  // Feeding a reassembler

  datatype Feeding = Feeding(next: Assembly, reading: Reading)

  /** Messages in order up to the first refusal, which closes the transport. */
  function Feed(c: Codec, a: Assembly, ms: seq<Message>): Feeding
    decreases |ms|
  {
    if ms == [] then Feeding(a, Reading([], None))
    else
      var step := Accept(c, a, ms[0]);
      match step.progress
      case Faulted(e) => Feeding(step.next, Reading([], Some(e)))
      case Waiting => Feed(c, step.next, ms[1..])
      case Reassembled(f) =>
        var rest := Feed(c, step.next, ms[1..]);
        Feeding(rest.next, Then(Reading([f], None), rest.reading))
  }

  lemma {:induction false} FeedConcat(c: Codec, a: Assembly, ms: seq<Message>, more: seq<Message>)
    ensures var first := Feed(c, a, ms);
            Feed(c, a, ms + more) ==
            if first.reading.error.Some? then first
            else
              var rest := Feed(c, first.next, more);
              Feeding(rest.next, Then(first.reading, rest.reading))
    decreases |ms|
  {
    hide Accept;
    if ms == [] {
      assert ms + more == more;
      var r := Feed(c, a, more).reading;
      assert [] + r.frames == r.frames;
    } else {
      assert (ms + more)[1..] == ms[1..] + more;
      var step := Accept(c, a, ms[0]);
      if !step.progress.Faulted? {
        FeedConcat(c, step.next, ms[1..], more);
        if step.progress.Reassembled? {
          var first := Feed(c, step.next, ms[1..]);
          var rest := Feed(c, first.next, more);
          ThenAssociates(Reading([step.progress.frame], None), first.reading, rest.reading);
        }
      }
    }
  }

  /** A run's messages after its first few are a partial run with it. */
  lemma RunPrefix(limit: nat, count: nat, ms: seq<Message>, k: nat)
    requires Run(limit, count, ms) && k <= |ms|
    ensures Run(limit, count, ms[..k])
  {
    hide InRun, Payloads;
    assert ms == ms[..k] + ms[k..];
    PayloadsConcat(ms[..k], ms[k..]);
    assert forall i :: 0 <= i < k ==> ms[..k][i] == ms[i];
  }

  /** The rest of a run, fed to a reassembler that holds its beginning, yields the line's own verdict. */
  lemma {:induction false} FeedRun(c: Codec, count: nat, ms: seq<Message>, k: nat)
    requires Run(c.limit, count, ms) && k < |ms| == count
    ensures var line := Payloads(ms);
            Feed(c, Held(count, ms[..k]), ms[k..]) ==
            Feeding(IDLE, match DecodeLine(c, line)
                          case Decoded(f) => Reading([f], None)
                          case Rejected(e) => Reading([], Some(e)))
    decreases |ms| - k
  {
    hide Accept, Run, Payloads, InRun, Headed, DecodeLine;
    RunPrefix(c.limit, count, ms, k);
    RunPrefix(c.limit, count, ms, k + 1);
    NextOf(ms, k);
    CountAt(c.limit, count, ms, k);
    AcceptsRuns(c, count, ms[..k], ms[k]);
    if k + 1 < count {
      FeedRun(c, count, ms, k + 1);
    } else {
      assert ms[..k + 1] == ms && ms[k + 1..] == [];
    }
  }

  lemma NextOf(ms: seq<Message>, k: nat)
    requires k < |ms|
    ensures ms[..k] + [ms[k]] == ms[..k + 1] && ms[k..][1..] == ms[k + 1..]
  {
  }

  lemma CountAt(limit: nat, count: nat, ms: seq<Message>, k: nat)
    requires Run(limit, count, ms) && k < |ms|
    ensures Headed(ms[k]) && CountOf(ms[k]) == count
  {
    assert InRun(limit, count, k, ms[k]);
  }

  // ---------------------------------------------------------------------
  // The round trip

  /** The messages of several frames, one run after another. */
  function AllChunks(lines: seq<seq<Byte>>, capacity: nat): seq<Message>
    requires capacity > 0
  {
    if lines == [] then []
    else Sliced(lines[0], 0, ChunksFor(lines[0], capacity), capacity) + AllChunks(lines[1..], capacity)
  }

  lemma OneFrame(c: Codec, line: seq<Byte>, frame: Frames.Frame, capacity: nat)
    requires c.limit >= MIN_MAX_FRAME_BYTES && capacity >= MIN_NONFINAL_PAYLOAD_BYTES && c.blank([])
    requires Carries(c, line, frame) && Numbered(line, capacity)
    ensures Feed(c, IDLE, Sliced(line, 0, ChunksFor(line, capacity), capacity)) == Feeding(IDLE, Reading([frame], None))
  {
    assert DecodeLine(c, line) == Decoded(frame);
    hide DecodeLine, Feed, Sliced, ChunksFor, Payloads, Run, Numbered, InRun;
    var ms := Sliced(line, 0, ChunksFor(line, capacity), capacity);
    EncodesRun(line, capacity, c.limit);
    FeedRun(c, CountFor(ms), ms, 0);
    assert ms[0..] == ms && ms[..0] == [];
  }

  /**
   Main result: any number of frames, each split under the sender's ceiling and
   sent one run after another, come out of a receiver whose limit admits them,
   in order, with nothing refused and nothing left behind.
   */
  lemma {:induction false} ChunkRoundTrip(c: Codec, lines: seq<seq<Byte>>, frames: seq<Frames.Frame>, capacity: nat)
    requires c.limit >= MIN_MAX_FRAME_BYTES && capacity >= MIN_NONFINAL_PAYLOAD_BYTES && c.blank([])
    requires |lines| == |frames|
    requires forall i :: 0 <= i < |lines| ==> Carries(c, lines[i], frames[i]) && Numbered(lines[i], capacity)
    ensures Feed(c, IDLE, AllChunks(lines, capacity)) == Feeding(IDLE, Reading(frames, None))
  {
    if lines != [] {
      hide Carries, Numbered, Sliced, ChunksFor;
      var first := Sliced(lines[0], 0, ChunksFor(lines[0], capacity), capacity);
      assert Carries(c, lines[0], frames[0]);
      OneFrame(c, lines[0], frames[0], capacity);
      ChunkRoundTrip(c, lines[1..], frames[1..], capacity);
      FeedConcat(c, IDLE, first, AllChunks(lines[1..], capacity));
      hide Feed;
      assert frames == [frames[0]] + frames[1..];
    }
  }

  // ---------------------------------------------------------------------
  // The Rust class

  class ChunkReassembler {
    const codec: Codec
    var count: Option<U32>
    var nextIndex: U32
    var buffer: seq<Byte>

    function View(): Assembly
      reads this
    {
      Assembly(count, nextIndex, buffer)
    }

    /** The next index is one the count allows, so that the index after it fits in 32 bits too. */
    ghost predicate Valid()
      reads this
    {
      if count.None? then nextIndex == 0 else nextIndex < count.value
    }

    constructor (limit: nat, parse: seq<Byte> -> Parsed)
      requires limit >= MIN_MAX_FRAME_BYTES
      ensures Valid() && View() == IDLE && codec == Codec(limit, IsBlank, parse)
    {
      codec := Codec(limit, IsBlank, parse);
      count, nextIndex, buffer := None, 0, [];
    }

    method Reset()
      modifies this
      ensures Valid() && View() == IDLE
    {
      count, nextIndex, buffer := None, 0, [];
    }

    method Push(m: Message) returns (progress: Progress)
      requires Valid()
      modifies this
      ensures Valid()
      ensures Step(View(), progress) == Accept(codec, old(View()), m)
    {
      progress := Decode(m);
      if progress.Faulted? {
        Reset();
      }
    }

    /** The checks and the update. A refused message leaves the state for `Push` to reset. */
    method Decode(m: Message) returns (progress: Progress)
      requires Valid()
      modifies this
      ensures var step := Accept(codec, old(View()), m);
              progress == step.progress && (!progress.Faulted? ==> View() == step.next && Valid())
    {
      if m != [] && m[0] != CHUNK_FORMAT_VERSION {
        return Faulted(CodecError(ChunkVersion, false));
      }
      if |m| < CHUNK_HEADER_BYTES {
        return Faulted(CodecError(ChunkHeader, false));
      }
      var index, total, payload := IndexOf(m), CountOf(m), PayloadOf(m);
      hide IndexOf, CountOf, MaxChunksFor;
      if total == 0 || total > MaxChunksFor(codec.limit) {
        return Faulted(CodecError(ChunkCount, false));
      }
      if count.Some? && total != count.value {
        return Faulted(CodecError(ChunkCount, false));
      }
      if index != nextIndex {
        return Faulted(CodecError(ChunkIndex, false));
      }
      if payload == [] {
        return Faulted(CodecError(ChunkDribble, false));
      }
      var following: U32 := index + 1;
      var final := following == total;
      if !final && |payload| < MIN_NONFINAL_PAYLOAD_BYTES {
        return Faulted(CodecError(ChunkDribble, false));
      }
      if |buffer| + |payload| > codec.limit {
        return Faulted(CodecError(TooLarge, false));
      }
      if count.None? {
        count := Some(total);
      }
      buffer := buffer + payload;
      if !final {
        nextIndex := following;
        return Waiting;
      }
      var line := buffer;
      Reset();
      match DecodeLine(codec, line)
      case Decoded(frame) => progress := Reassembled(frame);
      case Rejected(e) => progress := Faulted(e);
    }
  }

  // ---------------------------------------------------------------------
  // The TypeScript class

  /** `decodeLine`: a blank record has a refusal of its own here. */
  function DecodeLineTs(c: Codec, line: seq<Byte>): Parsed {
    var content := StripCr(line);
    if |content| > c.limit then Rejected(TOO_LARGE)
    else if IsBlankTs(content) then Rejected(CodecError(Empty, false))
    else c.parse(content)
  }

  /** Its checks, in its order: the header, then the size, then the payload. The bound is not saturated. */
  function AcceptTs(c: Codec, a: Assembly, m: Message): Step {
    if |m| < CHUNK_HEADER_BYTES then Fault(ChunkHeader)
    else if m[0] != CHUNK_FORMAT_VERSION then Fault(ChunkVersion)
    else
      var index, count, payload := IndexOf(m), CountOf(m), PayloadOf(m);
      if count < 1 || count > DivCeil(c.limit, MIN_NONFINAL_PAYLOAD_BYTES) then Fault(ChunkCount)
      else if index != a.next then Fault(ChunkIndex)
      else if a.count.Some? && count != a.count.value then Fault(ChunkCount)
      else if |a.buffer| + |payload| > c.limit then Fault(TooLarge)
      else if payload == [] then Fault(Empty)
      else if index + 1 != count && |payload| < MIN_NONFINAL_PAYLOAD_BYTES then Fault(ChunkDribble)
      else if index + 1 != count then Step(Assembly(Some(count), index + 1, a.buffer + payload), Waiting)
      else
        match DecodeLineTs(c, a.buffer + payload)
        case Decoded(f) => Step(IDLE, Reassembled(f))
        case Rejected(e) => Step(IDLE, Faulted(e))
  }

  lemma {:induction false} JoinedMore(parts: seq<seq<Byte>>, part: seq<Byte>)
    ensures Joined(parts + [part]) == Joined(parts) + part
  {
    if parts == [] {
      assert [part][1..] == [] && part + [] == part;
    } else {
      assert (parts + [part])[1..] == parts[1..] + [part];
      JoinedMore(parts[1..], part);
    }
  }

  /** Copies the parts one after another into a line of their total size. */
  method ConcatParts(parts: seq<seq<Byte>>, size: nat) returns (line: array<Byte>)
    requires size == |Joined(parts)|
    ensures fresh(line) && line[..] == Joined(parts)
  {
    line := new Byte[size](_ => 0);
    var offset: nat := 0;
    for k := 0 to |parts|
      invariant fresh(line) && line.Length == size && offset <= size
      invariant line[..offset] + Joined(parts[k..]) == Joined(parts)
    {
      ghost var done := line[..offset];
      var part := parts[k];
      assert parts[k..][1..] == parts[k + 1..];
      assert offset + |part| <= size by {
        assert |done + Joined(parts[k..])| == size;
      }
      forall i | 0 <= i < |part| {
        line[offset + i] := part[i];
      }
      assert line[..offset + |part|] == done + part;
      offset := offset + |part|;
    }
  }

  class PartsReassembler {
    const codec: Codec
    const maxChunks: nat
    var expectedIndex: nat
    var count: nat
    var size: nat
    var parts: seq<seq<Byte>>

    function View(): Assembly
      reads this
    {
      Assembly(if count == 0 then None else Some(count), expectedIndex, Joined(parts))
    }

    ghost predicate Valid()
      reads this
    {
      size == |Joined(parts)| && maxChunks == DivCeil(codec.limit, MIN_NONFINAL_PAYLOAD_BYTES)
    }

    constructor (limit: nat, parse: seq<Byte> -> Parsed)
      requires limit >= MIN_MAX_FRAME_BYTES
      ensures Valid() && View() == IDLE && codec == Codec(limit, IsBlankTs, parse)
    {
      codec := Codec(limit, IsBlankTs, parse);
      maxChunks := DivCeil(limit, MIN_NONFINAL_PAYLOAD_BYTES);
      expectedIndex, count, size, parts := 0, 0, 0, [];
    }

    method Reset()
      modifies this
      ensures View() == IDLE && size == 0
    {
      expectedIndex, count, size, parts := 0, 0, 0, [];
    }

    method Push(m: Message) returns (progress: Progress)
      requires Valid()
      modifies this
      ensures Valid()
      ensures Step(View(), progress) == AcceptTs(codec, old(View()), m)
    {
      progress := Take(m);
      if progress.Faulted? {
        Reset();
      }
    }

    method ReadHeader(m: Message) returns (fault: Option<CodecError>, index: nat, total: nat)
      requires Valid()
      ensures fault.None? ==> Headed(m) && index == IndexOf(m) && total == CountOf(m)
      ensures fault.None? ==> 1 <= total <= maxChunks && index == expectedIndex && (count != 0 ==> total == count)
      ensures fault.Some? ==> AcceptTs(codec, View(), m) == Step(IDLE, Faulted(fault.value))
    {
      index, total, fault := 0, 0, None;
      if |m| < CHUNK_HEADER_BYTES {
        fault := Some(CodecError(ChunkHeader, false));
        return;
      }
      if m[0] != CHUNK_FORMAT_VERSION {
        fault := Some(CodecError(ChunkVersion, false));
        return;
      }
      index, total := IndexOf(m), CountOf(m);
      hide IndexOf, CountOf, DivCeil, DecodeLineTs;
      if total < 1 || total > maxChunks {
        fault := Some(CodecError(ChunkCount, false));
      } else if index != expectedIndex {
        fault := Some(CodecError(ChunkIndex, false));
      } else if count != 0 && total != count {
        fault := Some(CodecError(ChunkCount, false));
      }
    }

    method Take(m: Message) returns (progress: Progress)
      requires Valid()
      modifies this
      ensures var step := AcceptTs(codec, old(View()), m);
              progress == step.progress && (!progress.Faulted? ==> View() == step.next && Valid())
    {
      var fault, index, total := ReadHeader(m);
      if fault.Some? {
        return Faulted(fault.value);
      }
      hide IndexOf, CountOf, DivCeil, DecodeLineTs, Joined;
      var payload := PayloadOf(m);
      var now := size + |payload|;
      if now > codec.limit {
        return Faulted(CodecError(TooLarge, false));
      }
      if payload == [] {
        return Faulted(CodecError(Empty, false));
      }
      var final := index == total - 1;
      if !final && |payload| < MIN_NONFINAL_PAYLOAD_BYTES {
        return Faulted(CodecError(ChunkDribble, false));
      }
      JoinedMore(parts, payload);
      count, size, expectedIndex, parts := total, now, index + 1, parts + [payload];
      if !final {
        return Waiting;
      }
      var line := ConcatParts(parts, size);
      ghost var whole := Joined(parts);
      Reset();
      assert line[..] == whole;
      match DecodeLineTs(codec, line[..])
      case Decoded(frame) => progress := Reassembled(frame);
      case Rejected(e) => progress := Faulted(e);
    }
  }

  // ---------------------------------------------------------------------
  // The two agree

  /** The same step, up to the kind of a refusal. */
  predicate Alike(a: Step, b: Step) {
    a.next == b.next && if a.progress.Faulted? then b.progress.Faulted? else a.progress == b.progress
  }

  /** A whitespace line with a vertical tab in it is not JSON. */
  predicate RefusesOdd(parse: seq<Byte> -> Parsed, line: seq<Byte>) {
    Odd(line) ==> parse(StripCr(line)).Rejected?
  }

  lemma DecodedAlike(limit: nat, parse: seq<Byte> -> Parsed, line: seq<Byte>)
    requires limit >= MIN_MAX_FRAME_BYTES && RefusesOdd(parse, line)
    ensures var rust := DecodeLine(Codec(limit, IsBlank, parse), line);
            var ts := DecodeLineTs(Codec(limit, IsBlankTs, parse), line);
            if rust.Decoded? then ts == rust else ts.Rejected?
  {
  }

  lemma AcceptedAlike(limit: nat, parse: seq<Byte> -> Parsed, a: Assembly, m: Message)
    requires limit >= MIN_MAX_FRAME_BYTES
    requires Headed(m) ==> RefusesOdd(parse, a.buffer + PayloadOf(m))
    ensures Alike(Accept(Codec(limit, IsBlank, parse), a, m), AcceptTs(Codec(limit, IsBlankTs, parse), a, m))
  {
    if Headed(m) {
      DecodedAlike(limit, parse, a.buffer + PayloadOf(m));
    }
    hide IndexOf, CountOf, DivCeil, DecodeLineTs, DecodeLine, RefusesOdd;
  }

  function StateTs(c: Codec, history: seq<Message>): Assembly {
    if history == [] then IDLE
    else AcceptTs(c, StateTs(c, history[..|history| - 1]), history[|history| - 1]).next
  }

  /** Main result: after any messages, both runtimes take the next one alike: the same frame, or both refuse. */
  lemma {:induction false} ReassembleAlike(limit: nat, parse: seq<Byte> -> Parsed, history: seq<Message>, m: Message)
    requires limit >= MIN_MAX_FRAME_BYTES
    requires forall line :: RefusesOdd(parse, line)
    ensures var rust := Codec(limit, IsBlank, parse);
            var ts := Codec(limit, IsBlankTs, parse);
            && State(rust, history) == StateTs(ts, history)
            && Alike(Accept(rust, State(rust, history), m), AcceptTs(ts, StateTs(ts, history), m))
  {
    hide Accept, AcceptTs, RefusesOdd;
    var rust := Codec(limit, IsBlank, parse);
    if history != [] {
      ReassembleAlike(limit, parse, history[..|history| - 1], history[|history| - 1]);
    }
    AcceptedAlike(limit, parse, State(rust, history), m);
  }
}
