/**
 The streaming NDJSON decoders, Rust and TypeScript. Bytes arrive in pieces of
 any size; whatever the pieces, what comes out is what the whole stream means.
 */
module LineDecoders {
  import opened Wrappers
  import opened Frames
  import opened Lines

  // ---------------------------------------------------------------------
  // One decoder, as a value

  datatype Decoder = Decoder(buffer: seq<Byte>, failure: Option<CodecError>)

  datatype Outcome = Outcome(next: Decoder, reading: Reading)

  const FRESH := Decoder([], None)

  /** What a decoder holds between calls: part of one line, never more than a carriage return past the limit. */
  predicate Sound(c: Codec, d: Decoder) {
    d.failure.None? ==> LF !in d.buffer && |StripCr(d.buffer)| <= c.limit
  }

  function Pushed(c: Codec, d: Decoder, bytes: seq<Byte>): Outcome {
    if d.failure.Some? then Outcome(d, Reading([], d.failure))
    else
      var r := Stream(c, d.buffer + bytes);
      Outcome(if r.error.Some? then Decoder([], r.error) else Decoder(Cut(d.buffer + bytes).tail, None), r)
  }

  function Finished(c: Codec, d: Decoder): Outcome {
    if d.failure.Some? then Outcome(d, Reading([], d.failure))
    else
      var r := Read(c, [d.buffer]);
      Outcome(Decoder([], r.error), r)
  }

  /** Pushing pieces in order, up to the first refusal. */
  function Fed(c: Codec, d: Decoder, pieces: seq<seq<Byte>>): Outcome
    decreases |pieces|
  {
    if pieces == [] then Outcome(d, Reading([], d.failure))
    else
      var p := Pushed(c, d, pieces[0]);
      if p.reading.error.Some? then p
      else
        var rest := Fed(c, p.next, pieces[1..]);
        Outcome(rest.next, Then(p.reading, rest.reading))
  }

  /** Everything a fresh decoder yields for a stream that arrives in these pieces and then ends. */
  function Drained(c: Codec, pieces: seq<seq<Byte>>): Reading {
    var fed := Fed(c, FRESH, pieces);
    Then(fed.reading, Finished(c, fed.next).reading)
  }

  function Joined(pieces: seq<seq<Byte>>): seq<Byte> {
    if pieces == [] then [] else pieces[0] + Joined(pieces[1..])
  }

  // ---------------------------------------------------------------------
  // Any split means the same

  /** A sound decoder's buffer says nothing yet. */
  lemma QuietBuffer(c: Codec, d: Decoder)
    requires Sound(c, d) && d.failure.None?
    ensures Cut(d.buffer) == Cuts([], d.buffer)
    ensures Stream(c, d.buffer) == Reading([], None)
  {
    assert forall i :: 0 <= i < |d.buffer| ==> d.buffer[i] != LF;
  }

  /** Every push leaves the decoder sound, and its buffer within one byte of the limit. */
  lemma PushSound(c: Codec, d: Decoder, bytes: seq<Byte>)
    requires Sound(c, d)
    ensures Sound(c, Pushed(c, d, bytes).next)
    ensures Pushed(c, d, bytes).next.failure == Pushed(c, d, bytes).reading.error
    ensures d.failure.Some? ==> Pushed(c, d, bytes) == Outcome(d, Reading([], d.failure))
    ensures d.failure.None? ==> |Pushed(c, d, bytes).next.buffer| <= c.limit + 1
  {
    CutNoLf(d.buffer + bytes);
    hide Cut, Read;
  }

  /** Pieces fed to a decoder mean what its buffer followed by all of them means. */
  lemma {:induction false} FedStream(c: Codec, d: Decoder, pieces: seq<seq<Byte>>)
    requires Sound(c, d) && d.failure.None?
    ensures var all := d.buffer + Joined(pieces); var fed := Fed(c, d, pieces);
            && Sound(c, fed.next)
            && fed.reading == Stream(c, all)
            && fed.next == (if fed.reading.error.Some? then Decoder([], fed.reading.error) else Decoder(Cut(all).tail, None))
    decreases |pieces|
  {
    if pieces == [] {
      QuietBuffer(c, d);
      assert d.buffer + Joined(pieces) == d.buffer;
      hide Cut, Read;
    } else {
      hide Cut, Read, StripCr;
      var rest := Joined(pieces[1..]);
      var here := d.buffer + pieces[0];
      assert d.buffer + Joined(pieces) == here + rest;
      PushSound(c, d, pieces[0]);
      StreamConcat(c, here, rest);
      CutConcat(here, rest);
      if Stream(c, here).error.None? {
        FedStream(c, Decoder(Cut(here).tail, None), pieces[1..]);
      }
    }
  }

  /** The main result: however a stream is split, the frames and the first refusal are the same. */
  lemma SplitIndependent(c: Codec, pieces: seq<seq<Byte>>)
    ensures Drained(c, pieces) == Whole(c, Joined(pieces))
  {
    var all := Joined(pieces);
    assert [] + all == all && all + [] == all;
    FedStream(c, FRESH, pieces);
    StreamConcat(c, all, []);
    if Stream(c, all).error.None? {
      var tail := Cut(all).tail;
      CutNoLf(all);
      assert tail + [] == tail;
      QuietBuffer(c, Decoder(tail, None));
      assert [] + [tail] == [tail];
    }
    hide Cut, Read, StripCr;
  }

  /** A whole stream in one push, and the same stream in any pieces, yield the same. */
  lemma SplitLikeWhole(c: Codec, pieces: seq<seq<Byte>>)
    ensures Drained(c, pieces) == Drained(c, [Joined(pieces)])
  {
    var all := Joined(pieces);
    SplitIndependent(c, pieces);
    SplitIndependent(c, [all]);
    assert Joined([all][1..]) == [] && all + [] == all;
    hide Drained, Whole;
  }

  // ---------------------------------------------------------------------
  // What was written is what is read

  /** A record's text: one line, within the limit, that parses to its frame. */
  predicate Carries(c: Codec, text: seq<Byte>, frame: Frame) {
    LF !in text && |text| <= c.limit && StripCr(text) == text && Weigh(c, text) == Deliver(frame)
  }

  /** Records on the wire, each ended by a line feed. */
  function Lined(texts: seq<seq<Byte>>): seq<Byte> {
    if texts == [] then [] else texts[0] + [LF] + Lined(texts[1..])
  }

  /** A record as a peer may end it: with a carriage return before its line feed, or without. */
  predicate Ends(line: seq<Byte>, text: seq<Byte>) {
    line == text || line == text + [13]
  }

  lemma {:induction false} LinedCut(texts: seq<seq<Byte>>)
    requires forall i :: 0 <= i < |texts| ==> LF !in texts[i]
    ensures Cut(Lined(texts)) == Cuts(texts, [])
  {
    if texts != [] {
      CutLine(texts[0], Lined(texts[1..]));
      LinedCut(texts[1..]);
      assert texts == [texts[0]] + texts[1..];
      hide Cut;
    }
  }

  /** However it is ended, a record is its frame. */
  lemma JudgeCarried(c: Codec, line: seq<Byte>, text: seq<Byte>, frame: Frame)
    requires Carries(c, text, frame) && Ends(line, text)
    ensures LF !in line && Judge(c, line) == Deliver(frame)
  {
    StripsOne(text);
    hide Weigh;
  }

  lemma {:induction false} ReadCarried(c: Codec, lines: seq<seq<Byte>>, texts: seq<seq<Byte>>, frames: seq<Frame>)
    requires |lines| == |texts| == |frames|
    requires forall i :: 0 <= i < |texts| ==> Carries(c, texts[i], frames[i]) && Ends(lines[i], texts[i])
    ensures Read(c, lines) == Reading(frames, None) && forall i :: 0 <= i < |lines| ==> LF !in lines[i]
  {
    hide Carries, Ends, Judge;
    if lines != [] {
      assert Carries(c, texts[0], frames[0]);
      JudgeCarried(c, lines[0], texts[0], frames[0]);
      ReadCarried(c, lines[1..], texts[1..], frames[1..]);
      assert frames == [frames[0]] + frames[1..];
      assert forall i :: 1 <= i < |lines| ==> lines[i] == lines[1..][i - 1];
    }
  }

  /**
   Frames written one to a line, each line ended by a line feed with or without a
   carriage return before it, are read back in order, with nothing refused,
   however the bytes were split.
   */
  lemma RoundTrip(c: Codec, lines: seq<seq<Byte>>, texts: seq<seq<Byte>>, frames: seq<Frame>, pieces: seq<seq<Byte>>)
    requires |lines| == |texts| == |frames| && c.blank([])
    requires forall i :: 0 <= i < |texts| ==> Carries(c, texts[i], frames[i]) && Ends(lines[i], texts[i])
    requires Joined(pieces) == Lined(lines)
    ensures Drained(c, pieces) == Reading(frames, None)
  {
    hide Cut, Read, Drained, Carries, Ends;
    SplitIndependent(c, pieces);
    ReadCarried(c, lines, texts, frames);
    LinedCut(lines);
    ReadConcat(c, lines, [[]]);
    LastLine(c, []);
  }

  // ---------------------------------------------------------------------
  // Where the two runtimes differ

  /** A line of whitespace with a vertical tab in it: the one line only the Rust decoder reads. */
  predicate Odd(line: seq<Byte>) {
    IsBlankTs(StripCr(line)) && !IsBlank(StripCr(line))
  }

  predicate NoneOdd(lines: seq<seq<Byte>>) {
    lines == [] || (!Odd(lines[0]) && NoneOdd(lines[1..]))
  }

  /** How a single line is judged on each side. */
  lemma JudgedAlike(limit: nat, parse: seq<Byte> -> Parsed, line: seq<Byte>)
    requires Odd(line) ==> parse(StripCr(line)).Rejected?
    ensures var rust := Judge(Codec(limit, IsBlank, parse), line); var ts := Judge(Codec(limit, IsBlankTs, parse), line);
            if Odd(line) then rust.Refuse? && !ts.Deliver? else rust == ts
  {
  }

  /**
   With one parser, which refuses a vertical tab as JSON does, the lines the
   Rust decoder accepts are those the TypeScript decoder accepts that hold no
   such line, and then both read the same frames.
   */
  lemma {:induction false} RuntimesAgree(limit: nat, parse: seq<Byte> -> Parsed, lines: seq<seq<Byte>>)
    requires forall line :: line in lines && Odd(line) ==> parse(StripCr(line)).Rejected?
    ensures var rust := Read(Codec(limit, IsBlank, parse), lines);
            var ts := Read(Codec(limit, IsBlankTs, parse), lines);
            && (rust.error.None? <==> ts.error.None? && NoneOdd(lines))
            && (NoneOdd(lines) ==> rust == ts)
            && rust.frames <= ts.frames
  {
    hide Odd, Judge;
    if lines != [] {
      JudgedAlike(limit, parse, lines[0]);
      RuntimesAgree(limit, parse, lines[1..]);
    }
  }

  /** The records of a stream: its lines, and what its end leaves unterminated. */
  function Records(s: seq<Byte>): seq<seq<Byte>> {
    Cut(s).lines + [Cut(s).tail]
  }

  /** The same for one stream, however it is split for each: accepted alike, and read alike, unless a record is odd. */
  lemma StreamsAgree(limit: nat, parse: seq<Byte> -> Parsed, pieces: seq<seq<Byte>>, others: seq<seq<Byte>>)
    requires Joined(pieces) == Joined(others)
    requires forall line :: line in Records(Joined(pieces)) && Odd(line) ==> parse(StripCr(line)).Rejected?
    ensures var rust := Drained(Codec(limit, IsBlank, parse), pieces);
            var ts := Drained(Codec(limit, IsBlankTs, parse), others);
            var plain := NoneOdd(Records(Joined(pieces)));
            && (rust.error.None? <==> ts.error.None? && plain)
            && (plain ==> rust == ts)
            && rust.frames <= ts.frames
  {
    hide Drained, Odd, NoneOdd, Read, Cut;
    SplitIndependent(Codec(limit, IsBlank, parse), pieces);
    SplitIndependent(Codec(limit, IsBlankTs, parse), others);
    RuntimesAgree(limit, parse, Records(Joined(pieces)));
  }

  /** The line they differ on: a vertical tab alone is skipped by one and refused by the other. */
  lemma VerticalTabDiffers(limit: nat, parse: seq<Byte> -> Parsed)
    requires limit >= 1 && parse([11]).Rejected?
    ensures var line: seq<Byte> := [11];
            && Read(Codec(limit, IsBlank, parse), [line]).error == Some(parse(line).error)
            && Read(Codec(limit, IsBlankTs, parse), [line]) == Reading([], None)
  {
    var line: seq<Byte> := [11];
    LastLine(Codec(limit, IsBlank, parse), line);
    LastLine(Codec(limit, IsBlankTs, parse), line);
    hide Read;
    assert StripCr(line) == line && line[0] == 11;
  }

  // ---------------------------------------------------------------------
  // Reading one line off the front, as both loops do

  lemma StreamStep(c: Codec, s: seq<Byte>, n: nat)
    requires n < |s| && n == FirstLf(s, 0)
    ensures Cut(s).tail == Cut(s[n + 1..]).tail
    ensures Stream(c, s) == Following(Judge(c, s[..n]), Stream(c, s[n + 1..]))
  {
    hide Judge, Cut, StripCr, Read, Then, Following;
    var rest := Cut(s[n + 1..]);
    CutFirst(s, n);
    ReadFirst(c, s[..n], rest.lines);
    FollowingThen(Judge(c, s[..n]), Read(c, rest.lines),
                  if |StripCr(rest.tail)| > c.limit then Reading([], Some(TOO_LARGE)) else Reading([], None));
  }

  lemma ThenAssociates(a: Reading, b: Reading, d: Reading)
    ensures Then(Then(a, b), d) == Then(a, Then(b, d))
  {
    assert a.frames + b.frames + d.frames == a.frames + (b.frames + d.frames);
  }

  /** A search that resumes past bytes known to hold no line feed finds the first one. */
  lemma ResumeAt(s: seq<Byte>, searched: nat)
    requires searched <= |s| && LF !in s[..searched]
    ensures FirstLf(s, searched) == FirstLf(s, 0)
  {
    assert forall i :: 0 <= i < searched ==> s[..searched][i] == s[i];
    FirstLfAt(s, 0, FirstLf(s, searched));
  }

  /** One turn of a decoding loop: `frames` came from the lines before `left`. */
  lemma OneLine(c: Codec, all: seq<Byte>, left: seq<Byte>, n: nat, frames: seq<Frame>)
    requires n < |left| && n == FirstLf(left, 0)
    requires Stream(c, all) == Then(Reading(frames, None), Stream(c, left))
    ensures Cut(left).tail == Cut(left[n + 1..]).tail
    ensures Stream(c, all) ==
            match Judge(c, left[..n])
            case Skip => Then(Reading(frames, None), Stream(c, left[n + 1..]))
            case Refuse(e) => Reading(frames, Some(e))
            case Deliver(f) => Then(Reading(frames + [f], None), Stream(c, left[n + 1..]))
  {
    hide Judge, Stream, Cut;
    StreamStep(c, left, n);
    match Judge(c, left[..n])
    case Deliver(f) => Regroup(frames, [f], Stream(c, left[n + 1..]).frames);
    case _ =>
  }

  /** A search that starts where the last line ended. */
  lemma SearchFrom(s: seq<Byte>, from: nat)
    requires from <= |s|
    ensures var n := FirstLf(s, from);
            && FirstLf(s[from..], 0) == n - from
            && s[from..][..n - from] == s[from..n]
            && (n < |s| ==> s[from..][n - from + 1..] == s[n + 1..])
  {
    FirstLfAt(s[from..], 0, FirstLf(s, from) - from);
  }

  /** What holds no line feed is a partial line. */
  lemma LastPart(s: seq<Byte>)
    requires FirstLf(s, 0) == |s|
    ensures Cut(s) == Cuts([], s)
    ensures forall c: Codec :: Read(c, []) == Reading([], None)
  {
  }

  /** The unterminated record at the end of a stream, read on its own. */
  lemma LastLine(c: Codec, line: seq<Byte>)
    ensures Read(c, [line]) ==
            match Judge(c, line)
            case Skip => Reading([], None)
            case Refuse(e) => Reading([], Some(e))
            case Deliver(f) => Reading([f], None)
  {
    assert [line][1..] == [];
  }

  // ---------------------------------------------------------------------
  // The Rust decoder

  class LineDecoder {
    const codec: Codec
    var buffer: seq<Byte>
    var failure: Option<CodecError>

    function View(): Decoder
      reads this
    {
      Decoder(buffer, failure)
    }

    ghost predicate Valid()
      reads this
    {
      codec.limit >= MIN_MAX_FRAME_BYTES && Sound(codec, View())
    }

    /** The source panics on a limit below the floor. */
    constructor (limit: nat, parse: seq<Byte> -> Parsed)
      requires limit >= MIN_MAX_FRAME_BYTES
      ensures Valid() && View() == FRESH && codec == Codec(limit, IsBlank, parse)
    {
      codec := Codec(limit, IsBlank, parse);
      buffer := [];
      failure := None;
    }

    method Push(bytes: seq<Byte>) returns (frames: seq<Frame>, error: Option<CodecError>)
      requires Valid()
      modifies this
      ensures Valid()
      ensures Outcome(View(), Reading(frames, error)) == Pushed(codec, old(View()), bytes)
    {
      hide Cut, Read, StripCr, IsBlank;
      PushSound(codec, View(), bytes);
      frames, error := [], None;
      if failure.Some? {
        error := failure;
        return;
      }
      buffer := buffer + bytes;
      ghost var all := buffer;
      var consumed := 0;
      while error.None? && FirstLf(buffer, consumed) < |buffer|
        invariant consumed <= |buffer| && buffer == all && failure == old(failure)
        invariant error.None? ==> Stream(codec, all) == Then(Reading(frames, None), Stream(codec, all[consumed..]))
        invariant error.None? ==> Cut(all).tail == Cut(all[consumed..]).tail
        invariant error.Some? ==> Stream(codec, all) == Reading(frames, error)
        decreases |buffer| - consumed
      {
        var end := FirstLf(buffer, consumed);
        var line := buffer[consumed..end];
        SearchFrom(all, consumed);
        OneLine(codec, all, all[consumed..], end - consumed, frames);
        consumed := end + 1;
        var content := StripCr(line);
        if |content| > codec.limit {
          error := Some(TOO_LARGE);
        } else if !codec.blank(content) {
          match DecodeLine(codec, line)
          case Decoded(frame) => frames := frames + [frame];
          case Rejected(refusal) => error := Some(refusal);
        }
      }
      buffer := buffer[consumed..];
      if error.None? {
        SearchFrom(all, consumed);
        LastPart(buffer);
        if |StripCr(buffer)| > codec.limit {
          error := Some(TOO_LARGE);
        }
      }
      if error.Some? {
        failure := error;
        buffer := [];
      }
    }

    method Finish() returns (frames: seq<Frame>, error: Option<CodecError>)
      requires Valid()
      modifies this
      ensures Valid()
      ensures Outcome(View(), Reading(frames, error)) == Finished(codec, old(View()))
    {
      frames, error := [], None;
      if failure.Some? {
        error := failure;
        return;
      }
      LastLine(codec, buffer);
      var line := buffer;
      buffer := [];
      if !codec.blank(StripCr(line)) {
        match DecodeLine(codec, line)
        case Decoded(frame) => frames := [frame];
        case Rejected(refusal) =>
          failure := Some(refusal);
          error := failure;
      }
    }
  }

  // ---------------------------------------------------------------------
  // The TypeScript decoder

  /** It remembers how far it has searched for a line feed, and resumes there. */
  class ResumingDecoder {
    const codec: Codec
    var pending: seq<Byte>
    var searched: nat
    var refusal: Option<CodecError>

    /** A refused decoder never looks at its bytes again. */
    function View(): Decoder
      reads this
    {
      if refusal.Some? then Decoder([], refusal) else Decoder(pending, None)
    }

    ghost predicate Valid()
      reads this
    {
      && codec.limit >= MIN_MAX_FRAME_BYTES
      && Sound(codec, View())
      && (refusal.None? ==> searched == |pending|)
    }

    /** The source refuses a limit below the floor. */
    constructor (limit: nat, parse: seq<Byte> -> Parsed)
      requires limit >= MIN_MAX_FRAME_BYTES
      ensures Valid() && View() == FRESH && codec == Codec(limit, IsBlankTs, parse)
    {
      codec := Codec(limit, IsBlankTs, parse);
      pending := [];
      searched := 0;
      refusal := None;
    }

    method Push(bytes: seq<Byte>) returns (frames: seq<Frame>, error: Option<CodecError>)
      requires Valid()
      modifies this
      ensures Valid()
      ensures Outcome(View(), Reading(frames, error)) == Pushed(codec, old(View()), bytes)
    {
      hide Cut, Read, StripCr, Stream, IsBlankTs;
      PushSound(codec, View(), bytes);
      if refusal.Some? {
        return [], refusal;
      }
      pending := pending + bytes;
      frames, error := Drain(false);
    }

    method Finish() returns (frames: seq<Frame>, error: Option<CodecError>)
      requires Valid()
      modifies this
      ensures Valid()
      ensures Outcome(View(), Reading(frames, error)) == Finished(codec, old(View()))
    {
      if refusal.Some? {
        return [], refusal;
      }
      QuietBuffer(codec, View());
      frames, error := Drain(true);
      hide Cut, Read, StripCr, Stream, IsBlankTs;
    }

    /** Cuts and decodes the buffered lines. What was searched before holds no line feed, so nothing is missed. */
    method Drain(final: bool) returns (frames: seq<Frame>, error: Option<CodecError>)
      requires codec.limit >= MIN_MAX_FRAME_BYTES && refusal.None?
      requires searched <= |pending| && LF !in pending[..searched]
      requires final ==> Sound(codec, View())
      modifies this
      ensures var all := old(pending);
              var r := if final then Then(Stream(codec, all), Read(codec, [Cut(all).tail])) else Stream(codec, all);
              && Reading(frames, error) == r
              && View() == Decoder(if final || r.error.Some? then [] else Cut(all).tail, r.error)
      ensures refusal.None? ==> searched == |pending|
    {
      hide Cut, Read, StripCr, IsBlankTs;
      frames, error := [], None;
      ghost var all := pending;
      ResumeAt(pending, searched);
      if final {
        QuietBuffer(codec, View());
      }
      while FirstLf(pending, searched) < |pending|
        invariant refusal.None? && error.None? && searched <= |pending|
        invariant FirstLf(pending, searched) == FirstLf(pending, 0)
        invariant Stream(codec, all) == Then(Reading(frames, None), Stream(codec, pending))
        invariant Cut(all).tail == Cut(pending).tail
        decreases |pending|
      {
        var newline := FirstLf(pending, searched);
        var record := pending[..newline];
        OneLine(codec, all, pending, newline, frames);
        pending := pending[newline + 1..];
        searched := 0;
        var content := StripCr(record);
        if |content| > codec.limit {
          error := Refuse();
          return;
        }
        frames, error := Consume(content, frames);
        if error.Some? {
          return;
        }
      }
      searched := |pending|;
      LastPart(pending);
      if final {
        LastLine(codec, pending);
        var rest := StripCr(pending);
        pending, searched := [], 0;
        frames, error := Consume(rest, frames);
        return;
      }
      if |StripCr(pending)| > codec.limit {
        error := Refuse();
      }
    }

    /** Decodes one record already cut and stripped, or latches its refusal. */
    method Consume(content: seq<Byte>, frames: seq<Frame>) returns (more: seq<Frame>, error: Option<CodecError>)
      modifies `refusal
      ensures |content| <= codec.limit ==>
                match Weigh(codec, content)
                case Skip => more == frames && error.None?
                case Deliver(f) => more == frames + [f] && error.None?
                case Refuse(e) => more == frames && error == Some(e)
      ensures refusal == if error.Some? then error else old(refusal)
    {
      more, error := frames, None;
      if !codec.blank(content) {
        if |content| > codec.limit {
          error := Some(TOO_LARGE);
        } else {
          match codec.parse(content)
          case Decoded(frame) => more := frames + [frame];
          case Rejected(e) => error := Some(e);
        }
        if error.Some? {
          refusal := error;
        }
      }
    }

    method Refuse() returns (error: Option<CodecError>)
      modifies this
      ensures error == refusal == Some(TOO_LARGE) && pending == [] && searched == 0
    {
      error := Some(TOO_LARGE);
      refusal, pending, searched := error, [], 0;
    }
  }
}
