/**
 NDJSON records: what a byte stream means, stated on the whole stream at once.
 Cut it at every line feed, strip one carriage return from each line, and stop
 at the first line that is refused. "JSON text to frame" is a parameter.
 */
module Lines {
  import opened Wrappers
  import opened Frames

  type Byte = b: int | 0 <= b < 256

  const LF: Byte := 10
  const CR: Byte := 13

  const MIN_MAX_FRAME_BYTES: nat := 4096
  const DEFAULT_MAX_FRAME_BYTES: nat := 16 * 1024 * 1024

  datatype ErrorKind =
    | InvalidJson
    | Schema
    | TooLarge
    | ChunkVersion
    | ChunkHeader
    | ChunkCount
    | ChunkIndex
    | ChunkDribble
    | Empty

  /** A codec refusal: its kind, and whether the refused record called itself a hello. */
  datatype CodecError = CodecError(kind: ErrorKind, onHello: bool)

  datatype Parsed = Decoded(frame: Frame) | Rejected(error: CodecError)

  const TOO_LARGE := CodecError(TooLarge, false)

  /** The close code a refusal maps to: an unreadable hello is a version mismatch. */
  function CloseCodeFor(e: CodecError): nat {
    if e.kind == Schema && e.onHello then PROTOCOL_MISMATCH else PROTOCOL_ERROR
  }

  /** One decoder's configuration: its frame limit, which lines it ignores, and how it reads the others. */
  datatype Codec = Codec(limit: nat, blank: seq<Byte> -> bool, parse: seq<Byte> -> Parsed)

  function StripCr(line: seq<Byte>): seq<Byte> {
    if line != [] && line[|line| - 1] == CR then line[..|line| - 1] else line
  }

  /** Rust's `is_ascii_whitespace`: space, tab, line feed, form feed, carriage return. */
  predicate IsBlank(line: seq<Byte>) {
    forall i :: 0 <= i < |line| ==> line[i] in [32, 9, 10, 12, 13]
  }

  /** The TypeScript pattern, which counts a vertical tab too. */
  predicate IsBlankTs(line: seq<Byte>) {
    forall i :: 0 <= i < |line| ==> line[i] in [32, 9, 10, 11, 12, 13]
  }

  /** `decode_line`: one record, without its terminator. A blank one is refused here. */
  function DecodeLine(c: Codec, line: seq<Byte>): Parsed {
    var content := StripCr(line);
    if c.limit < MIN_MAX_FRAME_BYTES then Rejected(CodecError(Schema, false))
    else if |content| > c.limit then Rejected(TOO_LARGE)
    else if c.blank(content) then Rejected(CodecError(Schema, false))
    else c.parse(content)
  }

  // ---------------------------------------------------------------------
  // The specification

  /** A stream cut at its line feeds: the complete lines, and what follows the last one. */
  datatype Cuts = Cuts(lines: seq<seq<Byte>>, tail: seq<Byte>)

  /** Where the first line feed at or after `from` is; the length when there is none. */
  function FirstLf(s: seq<Byte>, from: nat): (n: nat)
    requires from <= |s|
    ensures from <= n <= |s|
    ensures n < |s| ==> s[n] == LF
    ensures forall i :: from <= i < n ==> s[i] != LF
    decreases |s| - from
  {
    if from == |s| || s[from] == LF then from else FirstLf(s, from + 1)
  }

  function Cut(s: seq<Byte>): Cuts {
    var n := FirstLf(s, 0);
    if n == |s| then Cuts([], s)
    else
      var rest := Cut(s[n + 1..]);
      Cuts([s[..n]] + rest.lines, rest.tail)
  }

  datatype Verdict = Skip | Deliver(frame: Frame) | Refuse(error: CodecError)

  /** What a line amounts to, its terminator stripped and its size allowed. */
  function Weigh(c: Codec, content: seq<Byte>): Verdict {
    if c.blank(content) then Skip
    else
      match c.parse(content)
      case Decoded(f) => Deliver(f)
      case Rejected(e) => Refuse(e)
  }

  /** What one line amounts to: size first, then blankness, then its contents. */
  function Judge(c: Codec, line: seq<Byte>): Verdict {
    var content := StripCr(line);
    if |content| > c.limit then Refuse(TOO_LARGE) else Weigh(c, content)
  }

  /** Frames up to the first refusal, and that refusal. */
  datatype Reading = Reading(frames: seq<Frame>, error: Option<CodecError>)

  function Read(c: Codec, lines: seq<seq<Byte>>): Reading {
    if lines == [] then Reading([], None)
    else
      match Judge(c, lines[0])
      case Skip => Read(c, lines[1..])
      case Refuse(e) => Reading([], Some(e))
      case Deliver(f) =>
        var rest := Read(c, lines[1..]);
        rest.(frames := [f] + rest.frames)
  }

  /** A reading, then what follows it if it was not refused. */
  function Then(r: Reading, next: Reading): Reading {
    if r.error.Some? then r else Reading(r.frames + next.frames, next.error)
  }

  /** What a stream that may go on means so far: its complete lines, and a last partial line already too long. */
  function Stream(c: Codec, s: seq<Byte>): Reading {
    var cuts := Cut(s);
    Then(Read(c, cuts.lines), if |StripCr(cuts.tail)| > c.limit then Reading([], Some(TOO_LARGE)) else Reading([], None))
  }

  /** What a whole stream means: its complete lines, and the record its end leaves unterminated. */
  function Whole(c: Codec, s: seq<Byte>): Reading {
    Read(c, Cut(s).lines + [Cut(s).tail])
  }

  // ---------------------------------------------------------------------
  // Cutting

  /** A place that holds a line feed with none before it is the first one. */
  lemma FirstLfAt(s: seq<Byte>, from: nat, n: nat)
    requires from <= n <= |s|
    requires n < |s| ==> s[n] == LF
    requires forall i :: from <= i < n ==> s[i] != LF
    ensures FirstLf(s, from) == n
  {
  }

  /** No line and no tail holds a line feed. */
  lemma {:induction false} CutNoLf(s: seq<Byte>)
    ensures LF !in Cut(s).tail
    ensures forall line :: line in Cut(s).lines ==> LF !in line
    ensures Cut(s).lines == [] <==> LF !in s
  {
    var n := FirstLf(s, 0);
    if n < |s| {
      assert s[n] == LF;
      CutNoLf(s[n + 1..]);
    }
  }

  /** Cutting a line, its feed and the rest. */
  lemma CutLine(line: seq<Byte>, rest: seq<Byte>)
    requires LF !in line
    ensures Cut(line + [LF] + rest) == Cuts([line] + Cut(rest).lines, Cut(rest).tail)
  {
    var s := line + [LF] + rest;
    FirstLfAt(s, 0, |line|);
    assert s[..|line|] == line && s[|line| + 1..] == rest;
  }

  /** Cutting can stop at any byte and go on from the tail. */
  lemma {:induction false} CutConcat(s: seq<Byte>, t: seq<Byte>)
    ensures var a := Cut(s); var b := Cut(a.tail + t);
            Cut(s + t) == Cuts(a.lines + b.lines, b.tail)
  {
    var n := FirstLf(s, 0);
    var b := Cut(Cut(s).tail + t);
    if n == |s| {
      assert [] + b.lines == b.lines;
    } else {
      FirstLfAt(s + t, 0, n);
      CutFirst(s, n);
      CutFirst(s + t, n);
      Suffix(s, t, n);
      CutConcat(s[n + 1..], t);
      hide Cut, FirstLf;
      Regroup([s[..n]], Cut(s[n + 1..]).lines, b.lines);
    }
  }

  lemma CutFirst(s: seq<Byte>, n: nat)
    requires n < |s| && n == FirstLf(s, 0)
    ensures Cut(s) == Cuts([s[..n]] + Cut(s[n + 1..]).lines, Cut(s[n + 1..]).tail)
  {
  }

  lemma Suffix(s: seq<Byte>, t: seq<Byte>, n: nat)
    requires n < |s|
    ensures (s + t)[..n] == s[..n] && (s + t)[n + 1..] == s[n + 1..] + t
  {
  }

  /** What a line amounts to, and then what follows it. */
  function Following(v: Verdict, rest: Reading): Reading {
    match v
    case Skip => rest
    case Refuse(e) => Reading([], Some(e))
    case Deliver(f) => Reading([f] + rest.frames, rest.error)
  }

  lemma ReadFirst(c: Codec, line: seq<Byte>, rest: seq<seq<Byte>>)
    ensures Read(c, [line] + rest) == Following(Judge(c, line), Read(c, rest))
  {
    hide Judge;
    assert ([line] + rest)[1..] == rest;
  }

  lemma FollowingThen(v: Verdict, rest: Reading, last: Reading)
    ensures Then(Following(v, rest), last) == Following(v, Then(rest, last))
  {
    match v
    case Deliver(f) => Regroup([f], rest.frames, last.frames);
    case _ =>
  }

  lemma {:induction false} ReadConcat(c: Codec, lines: seq<seq<Byte>>, more: seq<seq<Byte>>)
    ensures Read(c, lines + more) == Then(Read(c, lines), Read(c, more))
  {
    if lines == [] {
      var r := Read(c, more);
      assert lines + more == more && [] + r.frames == r.frames;
    } else {
      hide Read, Then, Following, Judge;
      var first, rest := lines[0], lines[1..];
      assert lines == [first] + rest;
      Regroup([first], rest, more);
      ReadFirst(c, first, rest);
      ReadFirst(c, first, rest + more);
      ReadConcat(c, rest, more);
      FollowingThen(Judge(c, first), Read(c, rest), Read(c, more));
    }
  }

  /** A partial line too long already is too long however it ends. */
  lemma PartialTooLong(limit: nat, tail: seq<Byte>, more: seq<Byte>)
    requires |StripCr(tail)| > limit
    ensures |StripCr(tail + more)| > limit
  {
    if more == [] {
      assert tail + more == tail;
    }
  }

  /** The first piece of `tail + t`, complete or not, begins with `tail`. */
  lemma FirstPiece(tail: seq<Byte>, t: seq<Byte>) returns (more: seq<Byte>)
    requires LF !in tail
    ensures var b := Cut(tail + t); (if b.lines != [] then b.lines[0] else b.tail) == tail + more
  {
    var n := FirstLf(tail + t, 0);
    assert forall i :: 0 <= i < |tail| ==> (tail + t)[i] == tail[i] != LF;
    more := (tail + t)[|tail|..n];
    assert tail + more == (tail + t)[..n];
  }

  /** A partial line too long is what the rest of the stream stops at. */
  lemma RefusedTail(c: Codec, tail: seq<Byte>, t: seq<Byte>)
    requires |StripCr(tail)| > c.limit && LF !in tail
    ensures Stream(c, tail + t) == Reading([], Some(TOO_LARGE)) == Whole(c, tail + t)
  {
    var more := FirstPiece(tail, t);
    PartialTooLong(c.limit, tail, more);
    var b := Cut(tail + t);
    hide Cut;
    if b.lines != [] {
      assert (b.lines + [b.tail])[0] == b.lines[0];
    } else {
      assert b.lines + [b.tail] == [b.tail];
    }
  }

  /** How a stream goes on from where it was cut: refused already, it means what it meant. */
  lemma StreamConcat(c: Codec, s: seq<Byte>, t: seq<Byte>)
    ensures Stream(c, s).error.Some? ==> Stream(c, s + t) == Stream(c, s) == Whole(c, s + t)
    ensures Stream(c, s).error.None? ==> Stream(c, s + t) == Then(Stream(c, s), Stream(c, Cut(s).tail + t))
    ensures Stream(c, s).error.None? ==> Whole(c, s + t) == Then(Stream(c, s), Whole(c, Cut(s).tail + t))
  {
    hide Cut, Read, StripCr;
    var a := Cut(s);
    var b := Cut(a.tail + t);
    CutConcat(s, t);
    CutNoLf(s);
    ReadConcat(c, a.lines, b.lines);
    ReadConcat(c, a.lines, b.lines + [b.tail]);
    assert a.lines + b.lines + [b.tail] == a.lines + (b.lines + [b.tail]);
    if Read(c, a.lines).error.None? && |StripCr(a.tail)| > c.limit {
      RefusedTail(c, a.tail, t);
    }
  }

  // ---------------------------------------------------------------------
  // Terminators, blank lines and close codes

  /** One carriage return is stripped, and no more. */
  lemma StripsOne(line: seq<Byte>)
    ensures StripCr(line + [13]) == line
    ensures line == [] || line[|line| - 1] != 13 ==> StripCr(line) == line
  {
    assert (line + [13])[..|line|] == line;
  }

  /** A line ended by a carriage return and a line feed is judged as the line before them. */
  lemma CrLfLikeLf(c: Codec, line: seq<Byte>)
    requires line == [] || line[|line| - 1] != 13
    ensures Judge(c, line + [13]) == Judge(c, line)
  {
    StripsOne(line);
    hide StripCr, Weigh;
  }

  /** White space as each runtime counts it, byte by byte. */
  lemma BlankBytes(line: seq<Byte>)
    ensures IsBlank(line) <==> forall b :: b in line ==> b == 9 || b == 10 || b == 12 || b == 13 || b == 32
    ensures IsBlankTs(line) <==> forall b :: b in line ==> 9 <= b <= 13 || b == 32
  {
    assert forall i :: 0 <= i < |line| ==> line[i] in line;
  }

  /** A blank line of any length within the limit changes nothing, wherever it comes; any other line is delivered or refused. */
  lemma BlankIgnored(c: Codec, before: seq<seq<Byte>>, line: seq<Byte>, after: seq<seq<Byte>>)
    requires |StripCr(line)| <= c.limit
    ensures c.blank(StripCr(line)) ==> Read(c, before + ([line] + after)) == Read(c, before + after)
    ensures Judge(c, line).Skip? <==> c.blank(StripCr(line))
  {
    if c.blank(StripCr(line)) {
      ReadConcat(c, before, [line] + after);
      ReadConcat(c, before, after);
      ReadFirst(c, line, after);
    }
    hide Read, StripCr;
  }

  /** A schema refusal of a hello is a version mismatch; every other refusal is a protocol error. */
  lemma RefusalCodes(e: CodecError)
    ensures CloseCodeFor(e) == if e.kind.Schema? && e.onHello then 4426 else 4400
  {
  }
}
