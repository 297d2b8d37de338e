/**
 WebSocket chunk framing: a frame's line split across binary messages, each a
 nine-byte header (version, index, count) and a slice of the line.
 */
module Chunks {
  import opened Wrappers
  import opened Frames
  import opened Lines

  const CHUNK_HEADER_BYTES: nat := 9
  const CHUNK_FORMAT_VERSION: Byte := 1
  const MIN_MAX_MESSAGE_BYTES: nat := 2048
  const MIN_NONFINAL_PAYLOAD_BYTES: nat := 1024
  const U32_MAX: nat := 0xFFFF_FFFF

  type U32 = n: nat | n <= 0xFFFF_FFFF

  type Message = seq<Byte>

  function Min(a: nat, b: nat): nat {
    if a < b then a else b
  }

  function DivCeil(n: nat, d: nat): nat
    requires d > 0
  {
    (n + d - 1) / d
  }

  /** The most chunks a frame under this limit may take, saturated at what a header can say. */
  function MaxChunksFor(limit: nat): U32 {
    Min(DivCeil(limit, MIN_NONFINAL_PAYLOAD_BYTES), U32_MAX)
  }

  /** The bound is the least number of 1024-byte payloads that hold a frame of the limit, if a header can say it. */
  lemma MaxChunksExact(limit: nat)
    ensures MaxChunksFor(limit) < U32_MAX ==> limit <= MaxChunksFor(limit) * 1024 < limit + 1024
    ensures limit <= 2147483647 ==> MaxChunksFor(limit) < U32_MAX
  {
  }

  // ---------------------------------------------------------------------
  // Messages

  function BigEndian(n: U32): (b: seq<Byte>)
    ensures |b| == 4
  {
    [n / 0x100_0000, n / 0x1_0000 % 0x100, n / 0x100 % 0x100, n % 0x100]
  }

  function FromBigEndian(b: seq<Byte>): U32
    requires |b| == 4
  {
    b[0] as int * 0x100_0000 + b[1] as int * 0x1_0000 + b[2] as int * 0x100 + b[3] as int
  }

  /** The bytes of a number, taken off one at a time. */
  lemma BytesOf(n: nat, a: nat, b: nat, c: nat, d: nat)
    requires n == a * 0x100_0000 + b * 0x1_0000 + c * 0x100 + d && b < 0x100 && c < 0x100 && d < 0x100
    ensures n / 0x100_0000 == a && n / 0x1_0000 == a * 0x100 + b && n / 0x100 == (a * 0x100 + b) * 0x100 + c && n % 0x100 == d
  {
  }

  lemma BigEndianBack(n: U32)
    ensures FromBigEndian(BigEndian(n)) == n
  {
    var high := n / 0x100;
    var higher := high / 0x100;
    BytesOf(n, higher / 0x100, higher % 0x100, high % 0x100, n % 0x100);
  }

  predicate Headed(m: Message) {
    |m| >= CHUNK_HEADER_BYTES && m[0] == CHUNK_FORMAT_VERSION
  }

  function IndexOf(m: Message): U32
    requires Headed(m)
  {
    FromBigEndian(m[1..5])
  }

  function CountOf(m: Message): U32
    requires Headed(m)
  {
    FromBigEndian(m[5..9])
  }

  function PayloadOf(m: Message): seq<Byte> {
    if |m| < CHUNK_HEADER_BYTES then [] else m[CHUNK_HEADER_BYTES..]
  }

  function Chunk(index: U32, count: U32, payload: seq<Byte>): Message {
    [CHUNK_FORMAT_VERSION] + BigEndian(index) + BigEndian(count) + payload
  }

  lemma ChunkReads(index: U32, count: U32, payload: seq<Byte>)
    ensures var m := Chunk(index, count, payload);
            && Headed(m) && IndexOf(m) == index && CountOf(m) == count && PayloadOf(m) == payload
            && |m| == 9 + |payload| && m[0] == 1 && m[9..] == payload
            && index == m[1] as int * 16777216 + m[2] as int * 65536 + m[3] as int * 256 + m[4] as int
            && count == m[5] as int * 16777216 + m[6] as int * 65536 + m[7] as int * 256 + m[8] as int
  {
    var m := Chunk(index, count, payload);
    assert m[1..5] == BigEndian(index) && m[5..9] == BigEndian(count);
    BigEndianBack(index);
    BigEndianBack(count);
    hide BigEndian;
  }

  // ---------------------------------------------------------------------
  // Runs: what the transport specification allows

  /** The line carried so far. */
  function Payloads(ms: seq<Message>): seq<Byte> {
    if ms == [] then [] else Payloads(ms[..|ms| - 1]) + PayloadOf(ms[|ms| - 1])
  }

  /** The `i`th message of a run of `count`. */
  predicate InRun(limit: nat, count: nat, i: nat, m: Message) {
    && Headed(m)
    && CountOf(m) == count && 1 <= count <= MaxChunksFor(limit)
    && IndexOf(m) == i && i < count
    && PayloadOf(m) != []
    && (i < count - 1 ==> |PayloadOf(m)| >= MIN_NONFINAL_PAYLOAD_BYTES)
  }

  /** A run as far as it has come: contiguous from zero, one count, every payload big enough, all within the limit. */
  predicate Run(limit: nat, count: nat, ms: seq<Message>) {
    && (forall i :: 0 <= i < |ms| ==> InRun(limit, count, i, ms[i]))
    && |Payloads(ms)| <= limit
  }

  /** A run under way, or none. */
  predicate Partial(limit: nat, count: nat, ms: seq<Message>) {
    Run(limit, count, ms) && (ms != [] ==> |ms| < count)
  }

  lemma PayloadsMore(ms: seq<Message>, m: Message)
    ensures Payloads(ms + [m]) == Payloads(ms) + PayloadOf(m)
  {
    assert (ms + [m])[..|ms|] == ms;
  }

  lemma {:induction false} PayloadsConcat(a: seq<Message>, b: seq<Message>)
    ensures Payloads(a + b) == Payloads(a) + Payloads(b)
    decreases |b|
  {
    if b == [] {
      assert a + b == a;
    } else {
      var init, last := b[..|b| - 1], b[|b| - 1];
      PayloadsConcat(a, init);
      PayloadsMore(init, last);
      PayloadsMore(a + init, last);
      hide Payloads, PayloadOf;
      assert init + [last] == b;
      Regroup(a, init, [last]);
      Regroup(Payloads(a), Payloads(init), PayloadOf(last));
    }
  }

  // ---------------------------------------------------------------------
  // The Rust reassembler, as a value

  datatype Assembly = Assembly(count: Option<nat>, next: nat, buffer: seq<Byte>)

  const IDLE := Assembly(None, 0, [])

  datatype Progress = Waiting | Reassembled(frame: Frame) | Faulted(error: CodecError)

  datatype Step = Step(next: Assembly, progress: Progress)

  function Fault(kind: ErrorKind): Step {
    Step(IDLE, Faulted(CodecError(kind, false)))
  }

  function Conclude(c: Codec, line: seq<Byte>): Step {
    match DecodeLine(c, line)
    case Decoded(f) => Step(IDLE, Reassembled(f))
    case Rejected(e) => Step(IDLE, Faulted(e))
  }

  /** One message: refused, in the source's order of checks, or taken. A refusal resets. */
  function Accept(c: Codec, a: Assembly, m: Message): Step {
    if m != [] && m[0] != CHUNK_FORMAT_VERSION then Fault(ChunkVersion)
    else if |m| < CHUNK_HEADER_BYTES then Fault(ChunkHeader)
    else
      var index, count, payload := IndexOf(m), CountOf(m), PayloadOf(m);
      if count == 0 || count > MaxChunksFor(c.limit) then Fault(ChunkCount)
      else if a.count.Some? && count != a.count.value then Fault(ChunkCount)
      else if index != a.next then Fault(ChunkIndex)
      else if payload == [] then Fault(ChunkDribble)
      else if index + 1 != count && |payload| < MIN_NONFINAL_PAYLOAD_BYTES then Fault(ChunkDribble)
      else if |a.buffer + payload| > c.limit then Fault(TooLarge)
      else if index + 1 != count then Step(Assembly(Some(count), index + 1, a.buffer + payload), Waiting)
      else Conclude(c, a.buffer + payload)
  }

  /** What the reassembler holds after these messages of a run. */
  function Held(count: nat, ms: seq<Message>): Assembly {
    if ms == [] then IDLE else Assembly(Some(count), |ms|, Payloads(ms))
  }

  // ---------------------------------------------------------------------
  // Exactly the runs are accepted

  /** What one more message adds to a run: its own shape, and the total size. */
  lemma RunMore(limit: nat, count: nat, ms: seq<Message>, m: Message)
    requires Partial(limit, count, ms)
    ensures Run(limit, count, ms + [m]) <==>
            InRun(limit, count, |ms|, m) && |Payloads(ms)| + |PayloadOf(m)| <= limit
  {
    hide InRun, Payloads, PayloadOf;
    var all := ms + [m];
    PayloadsMore(ms, m);
    assert all[|ms|] == m && forall i :: 0 <= i < |ms| ==> all[i] == ms[i];
  }

  /**
   The exact language of the reassembler. Holding a partial run, it takes a
   message just when the run goes on with it, decodes the line just when that
   message is the last one, and refuses everything else, going back to idle.
   */
  lemma AcceptsRuns(c: Codec, count: nat, ms: seq<Message>, m: Message)
    requires Partial(c.limit, count, ms)
    requires ms == [] && Headed(m) ==> count == CountOf(m)
    ensures var step := Accept(c, Held(count, ms), m);
            if !Run(c.limit, count, ms + [m]) then step.next == IDLE && step.progress.Faulted?
            else if |ms| + 1 < count then step == Step(Held(count, ms + [m]), Waiting)
            else step == Conclude(c, Payloads(ms + [m]))
  {
    hide Run, MaxChunksFor, IndexOf, CountOf, PayloadOf, Payloads, Conclude;
    HeldShape(c.limit, count, ms);
    RunMore(c.limit, count, ms, m);
    if Headed(m) {
      PayloadsMore(ms, m);
      AcceptsNext(c, count, ms, m);
    }
  }

  lemma HeldShape(limit: nat, count: nat, ms: seq<Message>)
    requires Partial(limit, count, ms)
    ensures Held(count, ms).next == |ms| && Held(count, ms).buffer == Payloads(ms)
    ensures Held(count, ms).count == if ms == [] then None else Some(count)
    ensures ms != [] ==> |ms| < count
  {
  }

  /** A message with a header, judged by its index, count and payload alone. */
  lemma AcceptsNext(c: Codec, count: nat, ms: seq<Message>, m: Message)
    requires Partial(c.limit, count, ms) && Headed(m)
    requires ms == [] ==> count == CountOf(m)
    ensures var step := Accept(c, Held(count, ms), m);
            var line := Payloads(ms) + PayloadOf(m);
            if !(InRun(c.limit, count, |ms|, m) && |line| <= c.limit) then step.next == IDLE && step.progress.Faulted?
            else if |ms| + 1 < count then step == Step(Assembly(Some(count), |ms| + 1, line), Waiting)
            else step == Conclude(c, line)
  {
    HeldShape(c.limit, count, ms);
    hide Partial, MaxChunksFor, IndexOf, CountOf, PayloadOf, Payloads, Conclude, Held;
  }

  // ---------------------------------------------------------------------
  // Any messages at all

  /** The reassembler's state after a whole history of messages. */
  function State(c: Codec, history: seq<Message>): Assembly {
    if history == [] then IDLE
    else Accept(c, State(c, history[..|history| - 1]), history[|history| - 1]).next
  }

  /** The count a run is bound to: its first message's. */
  function CountFor(ms: seq<Message>): nat {
    if ms != [] && Headed(ms[0]) then CountOf(ms[0]) else 0
  }

  /** The messages of a history since the last complete or broken run. */
  function Since(limit: nat, history: seq<Message>): seq<Message> {
    if history == [] then []
    else
      var ms := Since(limit, history[..|history| - 1]) + [history[|history| - 1]];
      if Partial(limit, CountFor(ms), ms) then ms else []
  }

  predicate WholeRun(limit: nat, ms: seq<Message>) {
    ms != [] && Run(limit, CountFor(ms), ms) && |ms| == CountFor(ms)
  }

  lemma SincePartial(limit: nat, history: seq<Message>)
    ensures var ms := Since(limit, history); Partial(limit, CountFor(ms), ms)
  {
    assert Payloads([]) == [];
  }

  /** After any messages, the reassembler holds the run they leave under way, and nothing else. */
  lemma {:induction false} HoldsSince(c: Codec, history: seq<Message>)
    ensures var ms := Since(c.limit, history);
            && Partial(c.limit, CountFor(ms), ms)
            && State(c, history) == Held(CountFor(ms), ms)
  {
    SincePartial(c.limit, history);
    if history != [] {
      var init, m := history[..|history| - 1], history[|history| - 1];
      var was := Since(c.limit, init);
      HoldsSince(c, init);
      FirstCount(was, m);
      AcceptsRuns(c, CountFor(was + [m]), was, m);
      hide Accept, Run, Conclude, Held, Payloads;
    }
  }

  lemma FirstCount(ms: seq<Message>, m: Message)
    ensures ms != [] ==> CountFor(ms + [m]) == CountFor(ms)
    ensures ms == [] && Headed(m) ==> CountFor(ms + [m]) == CountOf(m)
  {
  }

  /** Main result: a message completes a frame just when, with those since idle, it is a whole run whose line decodes. */
  lemma ReassemblesExactly(c: Codec, history: seq<Message>, m: Message)
    ensures var ms := Since(c.limit, history) + [m];
            var progress := Accept(c, State(c, history), m).progress;
            && (progress.Waiting? <==> Partial(c.limit, CountFor(ms), ms))
            && (WholeRun(c.limit, ms) ==> progress == Conclude(c, Payloads(ms)).progress)
            && (progress.Reassembled? ==> WholeRun(c.limit, ms))
  {
    var was := Since(c.limit, history);
    HoldsSince(c, history);
    FirstCount(was, m);
    AcceptsRuns(c, CountFor(was + [m]), was, m);
    hide Accept, Run, Held, State, Since, Payloads;
  }

  /** What it holds is bounded by the frame limit, in bytes and in messages. */
  lemma {:induction false} PartialBounded(limit: nat, count: nat, ms: seq<Message>)
    requires Partial(limit, count, ms)
    ensures |ms| * MIN_NONFINAL_PAYLOAD_BYTES <= |Payloads(ms)| <= limit
    ensures |ms| <= MaxChunksFor(limit)
  {
    if ms != [] {
      var init, m := ms[..|ms| - 1], ms[|ms| - 1];
      assert InRun(limit, count, |ms| - 1, m);
      assert |PayloadOf(m)| >= MIN_NONFINAL_PAYLOAD_BYTES;
      assert forall i :: 0 <= i < |init| ==> InRun(limit, count, i, init[i]) by {
        assert forall i :: 0 <= i < |init| ==> init[i] == ms[i];
      }
      PartialBounded(limit, count, init);
    }
  }

  /** So is its state after any messages: idle and empty, or part of a run whose next index its count allows. */
  lemma StateBounded(c: Codec, history: seq<Message>)
    ensures var a := State(c, history);
            if a.count.None? then a == IDLE
            else
              && 1 <= a.next < a.count.value <= MaxChunksFor(c.limit)
              && a.next * MIN_NONFINAL_PAYLOAD_BYTES <= |a.buffer| <= c.limit
  {
    var ms := Since(c.limit, history);
    HoldsSince(c, history);
    PartialBounded(c.limit, CountFor(ms), ms);
    assert ms != [] ==> InRun(c.limit, CountFor(ms), 0, ms[0]);
    hide State, Since, Payloads, MaxChunksFor, CountOf, IndexOf, PayloadOf;
  }
}
