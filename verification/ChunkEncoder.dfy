/**
 Splitting a frame's line into chunk messages, and reading any number of frames
 back from the messages of all of them.
 */
module ChunkEncoder {
  import opened Lines
  import opened Chunks

  datatype Encoded = Bytes(bytes: seq<Byte>) | Unencodable(error: CodecError)

  datatype Messages = Messages(messages: seq<Message>) | Refused(error: CodecError)

  /** `encode_frame_bytes`, past validation and serialisation: the limit's floor, and the limit. */
  function EncodeFrameBytes(text: Encoded, limit: nat): Encoded {
    if limit < MIN_MAX_FRAME_BYTES then Unencodable(CodecError(Schema, false))
    else if text.Unencodable? then text
    else if |text.bytes| > limit then Unencodable(TOO_LARGE)
    else text
  }

  /** Slices of a line, numbered from `index`, each filled but the last. */
  function Sliced(line: seq<Byte>, index: nat, count: U32, capacity: nat): (ms: seq<Message>)
    requires index <= count
    ensures |ms| == count - index
    decreases count - index
  {
    if index == count then []
    else
      var n := Min(capacity, |line|);
      [Chunk(index, count, line[..n])] + Sliced(line[n..], index + 1, count, capacity)
  }

  /** How many messages a line takes, saturated at what a header can say. */
  function ChunksFor(line: seq<Byte>, capacity: nat): U32
    requires capacity > 0
  {
    var n := DivCeil(|line|, capacity);
    Min(if n < 1 then 1 else n, U32_MAX)
  }

  // ---------------------------------------------------------------------
  // Arithmetic of the count

  /** A quotient rounded up: enough, and no more than enough. */
  lemma CeilFits(n: nat, d: nat)
    requires d > 0
    ensures n <= DivCeil(n, d) * d < n + d
  {
    var q := DivCeil(n, d);
    assert n + d - 1 == q * d + (n + d - 1) % d;
  }

  lemma CeilAtMost(n: nat, d: nat, k: nat)
    requires d > 0
    ensures DivCeil(n, d) <= k <==> n <= k * d
  {
    CeilFits(n, d);
    var q := DivCeil(n, d);
    if q <= k {
      assert q * d <= k * d;
    } else {
      assert k + 1 <= q;
      assert (k + 1) * d <= q * d;
      assert (k + 1) * d == k * d + d;
    }
  }

  /** A message that holds more than the least payload needs no more messages than the least payload does. */
  lemma CountWithin(line: seq<Byte>, capacity: nat, limit: nat)
    requires |line| <= limit && limit >= 1 && capacity >= MIN_NONFINAL_PAYLOAD_BYTES
    ensures ChunksFor(line, capacity) <= MaxChunksFor(limit)
  {
    var k := DivCeil(limit, MIN_NONFINAL_PAYLOAD_BYTES);
    CeilFits(limit, MIN_NONFINAL_PAYLOAD_BYTES);
    assert k * MIN_NONFINAL_PAYLOAD_BYTES <= k * capacity;
    CeilAtMost(|line|, capacity, k);
  }

  // ---------------------------------------------------------------------
  // The encoder

  /** Where the slice with this index starts. */
  function Offset(index: nat, capacity: nat): nat {
    index * capacity
  }

  /** Every slice starts within the line, and where the one before it ended. */
  lemma OffsetFits(line: seq<Byte>, index: nat, capacity: nat, count: U32)
    requires capacity > 0 && index < count == ChunksFor(line, capacity)
    ensures Offset(index, capacity) <= |line|
    ensures index + 1 < count ==> Offset(index + 1, capacity) <= |line|
    ensures Offset(index + 1, capacity) == Offset(index, capacity) + capacity
  {
    CeilAtMost(|line|, capacity, index);
    CeilAtMost(|line|, capacity, index + 1);
    hide DivCeil;
    assert (index + 1) * capacity == index * capacity + capacity;
  }

  /** The slices from an index on, cut from the whole line. */
  function Rest(line: seq<Byte>, index: nat, count: U32, capacity: nat): seq<Message>
    requires index <= count
  {
    if index == count || Offset(index, capacity) > |line| then []
    else Sliced(line[Offset(index, capacity)..], index, count, capacity)
  }

  lemma RestEnds(line: seq<Byte>, count: U32, capacity: nat)
    ensures Rest(line, 0, count, capacity) == Sliced(line, 0, count, capacity)
    ensures Rest(line, count, count, capacity) == []
  {
    OffsetStep(0, capacity);
    hide Offset;
    assert line[0..] == line;
  }

  /** The step of the loop. */
  lemma RestStep(line: seq<Byte>, index: nat, capacity: nat, count: U32)
    requires capacity > 0 && index < count == ChunksFor(line, capacity)
    ensures Offset(index, capacity) <= |line|
    ensures var start := Offset(index, capacity);
            Rest(line, index, count, capacity) ==
            [Chunk(index, count, line[start..Min(start + capacity, |line|)])] + Rest(line, index + 1, count, capacity)
  {
    OffsetFits(line, index, capacity, count);
    hide Chunk, Offset, ChunksFor;
    var start := Offset(index, capacity);
    var n := Min(capacity, |line[start..]|);
    assert line[start..][..n] == line[start..Min(start + capacity, |line|)];
    assert line[start..][n..] == line[start + n..];
  }

  /** `encode_chunks`. The count refusal is in the code; `CountWithin` shows that no line within the limit meets it. */
  method EncodeChunks(text: Encoded, maxMessageBytes: nat, limit: nat) returns (r: Messages)
    ensures maxMessageBytes < MIN_MAX_MESSAGE_BYTES ==> r == Refused(CodecError(ChunkHeader, false))
    ensures maxMessageBytes >= MIN_MAX_MESSAGE_BYTES ==>
              var capacity := maxMessageBytes - CHUNK_HEADER_BYTES;
              match EncodeFrameBytes(text, limit)
              case Unencodable(e) => r == Refused(e)
              case Bytes(line) =>
                var count := ChunksFor(line, capacity);
                r == if count > MaxChunksFor(limit) then Refused(CodecError(ChunkCount, false))
                     else Messages(Sliced(line, 0, count, capacity))
    ensures r.Messages? ==> Filled(r.messages, maxMessageBytes)
  {
    if maxMessageBytes < MIN_MAX_MESSAGE_BYTES {
      return Refused(CodecError(ChunkHeader, false));
    }
    var encoded := EncodeFrameBytes(text, limit);
    if encoded.Unencodable? {
      return Refused(encoded.error);
    }
    var line := encoded.bytes;
    var capacity := maxMessageBytes - CHUNK_HEADER_BYTES;
    var count := ChunksFor(line, capacity);
    if count > MaxChunksFor(limit) {
      return Refused(CodecError(ChunkCount, false));
    }
    var messages := Slices(line, count, capacity);
    FillsMessages(line, capacity);
    return Messages(messages);
  }

  /** No message is over the ceiling, and all but the last are at it. */
  predicate Filled(ms: seq<Message>, ceiling: nat) {
    forall i :: 0 <= i < |ms| ==> |ms[i]| <= ceiling && (i + 1 < |ms| ==> |ms[i]| == ceiling)
  }

  lemma FilledMore(m: Message, rest: seq<Message>, ceiling: nat)
    requires Filled(rest, ceiling) && |m| <= ceiling && (rest != [] ==> |m| == ceiling)
    ensures Filled([m] + rest, ceiling)
  {
    var ms := [m] + rest;
    forall i | 0 <= i < |ms|
      ensures |ms[i]| <= ceiling && (i + 1 < |ms| ==> |ms[i]| == ceiling)
    {
      if i > 0 {
        assert ms[i] == rest[i - 1];
      }
    }
  }

  lemma {:induction false} SlicedFilled(line: seq<Byte>, index: nat, count: U32, capacity: nat)
    requires index < count && Offset(count - index - 1, capacity) <= |line|
    ensures Filled(Sliced(line, index, count, capacity), 9 + capacity)
    decreases count - index
  {
    hide Chunk, Filled, Offset, Headed, PayloadOf, IndexOf, CountOf;
    var n := Min(capacity, |line|);
    var rest := Sliced(line[n..], index + 1, count, capacity);
    ChunkReads(index, count, line[..n]);
    OffsetStep(0, capacity);
    if index + 1 < count {
      OffsetStep(count - index - 2, capacity);
      SlicedFilled(line[n..], index + 1, count, capacity);
    } else {
      NoneFilled(9 + capacity);
    }
    FilledMore(Chunk(index, count, line[..n]), rest, 9 + capacity);
  }

  lemma NoneFilled(ceiling: nat)
    ensures Filled([], ceiling)
  {
  }

  /** Every message but the last is filled to the ceiling the encoder was given. */
  lemma FillsMessages(line: seq<Byte>, capacity: nat)
    requires capacity > 0
    ensures Filled(Sliced(line, 0, ChunksFor(line, capacity), capacity), 9 + capacity)
  {
    var count := ChunksFor(line, capacity);
    assert count >= 1;
    OffsetFits(line, count - 1, capacity, count);
    hide Offset, ChunksFor, Filled, Sliced;
    SlicedFilled(line, 0, count, capacity);
  }

  /** The encoder's loop: `count` messages, each a slice found by its index. */
  method Slices(line: seq<Byte>, count: U32, capacity: nat) returns (messages: seq<Message>)
    requires capacity > 0 && count == ChunksFor(line, capacity)
    ensures messages == Sliced(line, 0, count, capacity)
  {
    hide Rest, Sliced, Chunk, ChunksFor, Offset;
    messages := [];
    RestEnds(line, count, capacity);
    for index := 0 to count
      invariant messages + Rest(line, index, count, capacity) == Sliced(line, 0, count, capacity)
    {
      RestStep(line, index, capacity, count);
      var start := Offset(index, capacity);
      var end := Min(start + capacity, |line|);
      messages := messages + [Chunk(index, count, line[start..end])];
    }
  }

  // ---------------------------------------------------------------------
  // What the messages carry

  lemma OffsetStep(k: nat, capacity: nat)
    ensures Offset(k + 1, capacity) == Offset(k, capacity) + capacity
    ensures Offset(0, capacity) == 0
  {
  }

  lemma PayloadsOne(m: Message, ms: seq<Message>)
    ensures Payloads([m] + ms) == PayloadOf(m) + Payloads(ms)
  {
    PayloadsConcat([m], ms);
    assert [m][..0] == [];
    assert Payloads([m]) == [] + PayloadOf(m);
  }

  lemma NoPayloads()
    ensures Payloads([]) == []
  {
  }

  /** The messages carry as much of the line as they can hold, in order. */
  lemma {:induction false} SlicedCarries(line: seq<Byte>, index: nat, count: U32, capacity: nat)
    requires index <= count
    ensures Payloads(Sliced(line, index, count, capacity)) == line[..Min(|line|, Offset(count - index, capacity))]
    decreases count - index
  {
    hide Chunk, Headed, PayloadOf, Payloads, Offset;
    if index < count {
      var n := Min(capacity, |line|);
      var rest := line[n..];
      SlicedCarries(rest, index + 1, count, capacity);
      ChunkReads(index, count, line[..n]);
      OffsetStep(count - index - 1, capacity);
      var ms := Sliced(rest, index + 1, count, capacity);
      PayloadsOne(Chunk(index, count, line[..n]), ms);
      assert line[..n] + rest[..Min(|rest|, Offset(count - index - 1, capacity))]
          == line[..Min(|line|, Offset(count - index, capacity))];
    } else {
      OffsetStep(0, capacity);
      NoPayloads();
    }
  }

  /** Filled slices, and a last one that is not empty, are the messages of a run. */
  lemma {:induction false} SlicedRun(line: seq<Byte>, index: nat, count: U32, capacity: nat, limit: nat)
    requires index < count <= MaxChunksFor(limit) && capacity >= MIN_NONFINAL_PAYLOAD_BYTES
    requires Offset(count - index - 1, capacity) < |line|
    ensures InRunFrom(limit, count, index, Sliced(line, index, count, capacity))
    decreases count - index
  {
    hide Chunk, InRun, InRunFrom, MaxChunksFor, Offset;
    var n := Min(capacity, |line|);
    var rest := Sliced(line[n..], index + 1, count, capacity);
    OffsetStep(0, capacity);
    if index + 1 < count {
      OffsetStep(count - index - 2, capacity);
      SlicedRun(line[n..], index + 1, count, capacity, limit);
    } else {
      NoneInRun(limit, count, index + 1);
    }
    ChunkInRun(limit, count, index, line[..n]);
    InRunMore(limit, count, index, Chunk(index, count, line[..n]), rest);
  }

  predicate InRunFrom(limit: nat, count: nat, index: nat, ms: seq<Message>) {
    forall i :: 0 <= i < |ms| ==> InRun(limit, count, index + i, ms[i])
  }

  lemma NoneInRun(limit: nat, count: nat, index: nat)
    ensures InRunFrom(limit, count, index, [])
  {
  }

  lemma InRunMore(limit: nat, count: nat, index: nat, m: Message, rest: seq<Message>)
    requires InRun(limit, count, index, m) && InRunFrom(limit, count, index + 1, rest)
    ensures InRunFrom(limit, count, index, [m] + rest)
  {
    hide InRun;
    var ms := [m] + rest;
    forall i | 0 <= i < |ms|
      ensures InRun(limit, count, index + i, ms[i])
    {
      if i > 0 {
        assert InRun(limit, count, index + 1 + (i - 1), rest[i - 1]);
      }
    }
  }

  lemma ChunkInRun(limit: nat, count: U32, index: nat, payload: seq<Byte>)
    requires index < count <= MaxChunksFor(limit) && payload != []
    requires index + 1 < count ==> |payload| >= MIN_NONFINAL_PAYLOAD_BYTES
    ensures InRun(limit, count, index, Chunk(index, count, payload))
  {
    ChunkReads(index, count, payload);
    hide Chunk, MaxChunksFor, IndexOf, CountOf, PayloadOf, Headed;
  }

  /** A line the header's count can number. */
  predicate Numbered(line: seq<Byte>, capacity: nat) {
    |line| <= Offset(U32_MAX, capacity)
  }

  /**
   The encoder's messages are a whole run that carries the line, for every
   line within a limit, just when the header's 32-bit count can number its
   slices. A longer one loses its end, though every message is well formed.
   */
  lemma EncodesRun(line: seq<Byte>, capacity: nat, limit: nat)
    requires capacity >= MIN_NONFINAL_PAYLOAD_BYTES && 1 <= |line| <= limit
    ensures var ms := Sliced(line, 0, ChunksFor(line, capacity), capacity);
            && (forall i :: 0 <= i < |ms| ==> InRun(limit, |ms|, i, ms[i]))
            && (Payloads(ms) == line <==> Numbered(line, capacity))
            && (Numbered(line, capacity) ==> WholeRun(limit, ms))
  {
    var count := ChunksFor(line, capacity);
    var ms := Sliced(line, 0, count, capacity);
    hide Sliced, InRun, Payloads, ChunksFor, MaxChunksFor, Offset, Numbered, Headed;
    CountWithin(line, capacity, limit);
    LastSlice(line, capacity);
    SlicedCarries(line, 0, count, capacity);
    SlicedRun(line, 0, count, capacity, limit);
    FirstInRun(limit, count, ms);
    if Numbered(line, capacity) {
      assert line[..|line|] == line;
    } else {
      assert |line[..Offset(count, capacity)]| < |line|;
    }
  }

  lemma FirstInRun(limit: nat, count: nat, ms: seq<Message>)
    requires ms != [] && InRun(limit, count, 0, ms[0])
    ensures CountFor(ms) == count
  {
  }

  /** The last message has something to carry, and the others leave room for no more than it holds. */
  lemma LastSlice(line: seq<Byte>, capacity: nat)
    requires capacity > 0 && line != []
    ensures var count := ChunksFor(line, capacity);
            Offset(count - 1, capacity) < |line| && (|line| <= Offset(count, capacity) <==> Numbered(line, capacity))
  {
    var count := ChunksFor(line, capacity);
    CeilAtMost(|line|, capacity, count - 1);
    CeilAtMost(|line|, capacity, count);
    CeilAtMost(|line|, capacity, U32_MAX);
    CeilAtMost(|line|, capacity, 0);
    hide DivCeil;
  }

  /** The shortest line too long to number: every message is well formed, none is refused, and its last byte is gone. */
  lemma LongLineLosesItsEnd(line: seq<Byte>, capacity: nat, limit: nat)
    requires capacity >= MIN_NONFINAL_PAYLOAD_BYTES && |line| == Offset(U32_MAX, capacity) + 1 <= limit
    ensures var ms := Sliced(line, 0, ChunksFor(line, capacity), capacity);
            && ChunksFor(line, capacity) <= MaxChunksFor(limit)
            && (forall i :: 0 <= i < |ms| ==> InRun(limit, |ms|, i, ms[i]))
            && Payloads(ms) == line[..|line| - 1] != line
  {
    hide Sliced, ChunksFor, MaxChunksFor, Offset, InRun, Payloads, Numbered;
    CountWithin(line, capacity, limit);
    EncodesRun(line, capacity, limit);
    LongLineCarries(line, capacity);
  }

  lemma LongLineCarries(line: seq<Byte>, capacity: nat)
    requires capacity > 0 && |line| == Offset(U32_MAX, capacity) + 1
    ensures Payloads(Sliced(line, 0, ChunksFor(line, capacity), capacity)) == line[..|line| - 1] != line
  {
    hide Sliced, ChunksFor, Offset, Payloads;
    SaturatedCount(line, capacity);
    SlicedCarries(line, 0, U32_MAX, capacity);
    AllButLast(line, Offset(U32_MAX, capacity));
  }

  lemma AllButLast(line: seq<Byte>, n: nat)
    requires |line| == n + 1
    ensures line[..Min(|line|, n)] == line[..|line| - 1] != line
  {
    assert |line[..n]| == n;
  }

  lemma SaturatedCount(line: seq<Byte>, capacity: nat)
    requires capacity > 0 && |line| > Offset(U32_MAX, capacity)
    ensures ChunksFor(line, capacity) == U32_MAX
  {
    CeilAtMost(|line|, capacity, U32_MAX);
    hide DivCeil;
  }
}
