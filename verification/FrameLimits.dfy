/**
 The frame limit two sessions agree on: each narrows its own ceiling, announces
 it when it is below the default, and sends within the lower of the two.
 */
module FrameLimits {
  import opened Wrappers
  import Frames
  import Lines
  import LineDecoders
  import Chunks
  import ChunkEncoder
  import ChunkReassemblers
  import Peers
  import Session
  import PeerTheorems

  const MIN_FRAME: nat := Lines.MIN_MAX_FRAME_BYTES
  const DEFAULT_FRAME: nat := Lines.DEFAULT_MAX_FRAME_BYTES
  const MAX_ANNOUNCED_FRAME_BYTES: nat := 2147483647
  const MIN_ANNOUNCED_IN_FLIGHT: nat := 1
  const MAX_ANNOUNCED_IN_FLIGHT: nat := 2147483647
  const DEFAULT_MAX_IN_FLIGHT: nat := 256

  /** What one side sets: the session option and the port's own ceiling, either of which may be absent. */
  datatype Ceilings = Ceilings(session: Option<nat>, port: Option<nat>)

  /** The source panics on a ceiling below the floor. */
  predicate Allowed(c: Ceilings) {
    (c.session.Some? ==> c.session.value >= MIN_FRAME) && (c.port.Some? ==> c.port.value >= MIN_FRAME)
  }

  function Lower(a: nat, b: nat): nat {
    if a <= b then a else b
  }

  /** A session option narrows the port's ceiling, and never replaces it. */
  function LocalMax(c: Ceilings): nat {
    match (c.session, c.port)
    case (Some(s), Some(p)) => Lower(s, p)
    case (Some(only), None) => only
    case (None, Some(only)) => only
    case (None, None) => DEFAULT_FRAME
  }

  /** What the hello announces: nothing that is the default. */
  function Announced(local: nat, inFlight: nat): Option<Frames.Limits> {
    var frame := if local < DEFAULT_FRAME then Some(local) else None;
    var flight := if inFlight != DEFAULT_MAX_IN_FLIGHT then Some(inFlight) else None;
    if frame.None? && flight.None? then None else Some(Frames.Limits(frame, flight))
  }

  /** The lower of this side's ceiling and what the peer announced, or the default. */
  function SendLimit(local: nat, remote: Option<Frames.Limits>): nat {
    var theirs := if remote.Some? && remote.value.maxFrameBytes.Some? then remote.value.maxFrameBytes.value else DEFAULT_FRAME;
    Lower(local, theirs)
  }

  /** What the peer announced, as far as this side has heard. */
  function Heard(remote: Option<Session.Remote>): Option<Frames.Limits> {
    if remote.Some? then remote.value.limits else None
  }

  /** `check_range`: an absent ceiling is always fine. */
  predicate InRange(value: Option<nat>, minimum: nat, maximum: nat) {
    value.Some? ==> minimum <= value.value <= maximum
  }

  /** `validate_limits`: both ceilings, when the hello announces any. */
  predicate ValidAnnouncement(limits: Option<Frames.Limits>) {
    limits.Some? ==>
      && InRange(limits.value.maxFrameBytes, MIN_FRAME, MAX_ANNOUNCED_FRAME_BYTES)
      && InRange(limits.value.maxInFlight, MIN_ANNOUNCED_IN_FLIGHT, MAX_ANNOUNCED_IN_FLIGHT)
  }

  datatype Fit = Fits | FrameTooLarge | Internal

  /** `assert_fits`, on the text a frame encodes to. */
  function AssertFits(text: ChunkEncoder.Encoded, limit: nat): Fit {
    match ChunkEncoder.EncodeFrameBytes(text, limit)
    case Bytes(_) => Fits
    case Unencodable(e) => if e.kind == Lines.TooLarge then FrameTooLarge else Internal
  }

  /**
   What a side with allowed ceilings announces is valid just when its in-flight
   ceiling is in range: the frame ceiling it announces always is.
   */
  lemma AnnouncesValidly(c: Ceilings, inFlight: nat)
    requires Allowed(c)
    ensures ValidAnnouncement(Announced(LocalMax(c), inFlight)) <==>
            1 <= inFlight <= 2147483647
  {
  }

  /** An in-flight ceiling the session options accept, and no hello may carry. */
  lemma TooManyInFlight(c: Ceilings)
    requires Allowed(c)
    ensures !ValidAnnouncement(Announced(LocalMax(c), 2147483648))
  {
    AnnouncesValidly(c, 2147483648);
  }

  /** `remote_max_in_flight`: what the peer announced, or the default. */
  function HeardInFlight(remote: Option<Frames.Limits>): nat {
    if remote.Some? && remote.value.maxInFlight.Some? then remote.value.maxInFlight.value else DEFAULT_MAX_IN_FLIGHT
  }

  /** In any run a ready session knows exactly how many requests its peer answers at once. */
  lemma InFlightHeard(s: Peers.System, moves: seq<Peers.Move>, s': Peers.System, local: nat, inFlight: nat)
    requires Peers.Run(s, moves, s') && s'.a.driver.state == Session.Ready
    requires s'.b.driver.hello.limits == Announced(local, inFlight)
    ensures HeardInFlight(Heard(s'.a.driver.remote)) == inFlight
  {
    PeerTheorems.ReadyKnows(s, moves, s');
    hide Peers.Run;
  }

  lemma LimitOf(mine: Ceilings, theirs: Ceilings, inFlight: nat)
    ensures SendLimit(LocalMax(mine), Announced(LocalMax(theirs), inFlight))
         == Lower(Lower(LocalMax(mine), LocalMax(theirs)), DEFAULT_FRAME)
  {
  }

  /**
   In any run of two sessions, once both are ready they send within the same
   limit: the lowest of both ceilings and the default, at least the floor and
   never above what either port accepts.
   */
  lemma SameSendLimit(s: Peers.System, moves: seq<Peers.Move>, s': Peers.System, a: Ceilings, b: Ceilings, na: nat, nb: nat)
    requires Peers.Run(s, moves, s') && s'.a.driver.state == Session.Ready && s'.b.driver.state == Session.Ready
    requires Allowed(a) && s'.a.driver.hello.limits == Announced(LocalMax(a), na)
    requires Allowed(b) && s'.b.driver.hello.limits == Announced(LocalMax(b), nb)
    ensures var limit := SendLimit(LocalMax(a), Heard(s'.a.driver.remote));
            && limit == SendLimit(LocalMax(b), Heard(s'.b.driver.remote))
            && Agreed(limit, a, b)
  {
    PeerTheorems.SameMinor(s, moves, s');
    hide Peers.Run, LocalMax, SendLimit, Announced, Agreed;
    LimitOf(a, b, nb);
    LimitOf(b, a, na);
    LowestAgreed(a, b);
    LowestAgreed(b, a);
  }

  /** The lowest of what was set on either side and the default: no lower than the floor, no higher than any of them, and one of them. */
  predicate Agreed(limit: nat, a: Ceilings, b: Ceilings) {
    && 4096 <= limit <= 16777216
    && (a.port.Some? ==> limit <= a.port.value)
    && (b.port.Some? ==> limit <= b.port.value)
    && (a.session.Some? ==> limit <= a.session.value)
    && (b.session.Some? ==> limit <= b.session.value)
    && (limit == 16777216 || Some(limit) in [a.session, a.port, b.session, b.port])
  }

  lemma LowestAgreed(a: Ceilings, b: Ceilings)
    requires Allowed(a) && Allowed(b)
    ensures Agreed(Lower(Lower(LocalMax(a), LocalMax(b)), DEFAULT_FRAME), a, b)
    ensures Lower(Lower(LocalMax(a), LocalMax(b)), DEFAULT_FRAME) == Lower(Lower(LocalMax(b), LocalMax(a)), DEFAULT_FRAME)
  {
  }

  /** The size check passes a text exactly when it is within the limit, and blames its size exactly when it is not. */
  lemma FitsExactly(text: seq<Lines.Byte>, limit: nat)
    requires limit >= 4096
    ensures AssertFits(ChunkEncoder.Bytes(text), limit) == if |text| <= limit then Fits else FrameTooLarge
  {
  }

  /** JSON and the schema refuse for reasons of their own, never for size or chunking. */
  predicate Reads(c: Lines.Codec, line: seq<Lines.Byte>) {
    c.parse(line).Rejected? ==> c.parse(line).error.kind in {Lines.InvalidJson, Lines.Schema}
  }

  /** A text within a limit is within every wider one, as a line and as a run of chunks. */
  lemma FitsWithin(text: seq<Lines.Byte>, limit: nat, c: Lines.Codec, capacity: nat)
    requires 1 <= |text| <= limit <= c.limit && limit <= DEFAULT_FRAME && c.limit >= MIN_FRAME
    requires Reads(c, Lines.StripCr(text)) && capacity >= Chunks.MIN_NONFINAL_PAYLOAD_BYTES
    ensures Lines.Judge(c, text).Refuse? ==> Lines.Judge(c, text).error.kind in {Lines.InvalidJson, Lines.Schema}
    ensures var ms := ChunkEncoder.Sliced(text, 0, ChunkEncoder.ChunksFor(text, capacity), capacity);
            var fed := ChunkReassemblers.Feed(c, Chunks.IDLE, ms);
            && fed.next == Chunks.IDLE
            && (fed.reading.error.Some? ==> fed.reading.error.value.kind in {Lines.InvalidJson, Lines.Schema})
  {
    var ms := ChunkEncoder.Sliced(text, 0, ChunkEncoder.ChunksFor(text, capacity), capacity);
    ChunkEncoder.EncodesRun(text, capacity, c.limit);
    EnoughNumbers(text, capacity);
    ChunkReassemblers.FeedRun(c, Chunks.CountFor(ms), ms, 0);
    assert ms[0..] == ms && ms[..0] == [];
    hide ChunkReassemblers.Feed, ChunkEncoder.Sliced, ChunkEncoder.ChunksFor, ChunkEncoder.Numbered;
    hide Chunks.Payloads, Chunks.InRun, Chunks.CountFor;
  }

  /**
   In any run, a text that passes a ready session's size check is one the peer's
   port never refuses for its size: not as a line, and not as chunks, whatever
   the sender's message ceiling. The peer need not be ready yet.
   */
  lemma FitsThePeer(s: Peers.System, moves: seq<Peers.Move>, s': Peers.System, p: Peers.Peer, q: Peers.Peer,
                    mine: Ceilings, theirs: Ceilings, inFlight: nat,
                    text: ChunkEncoder.Encoded, c: Lines.Codec, capacity: nat)
    requires Peers.Run(s, moves, s') && ((p == s'.a && q == s'.b) || (p == s'.b && q == s'.a))
    requires p.driver.state == Session.Ready
    requires Allowed(theirs) && q.driver.hello.limits == Announced(LocalMax(theirs), inFlight)
    requires theirs.port == Some(c.limit)
    requires AssertFits(text, SendLimit(LocalMax(mine), Heard(p.driver.remote))).Fits?
    requires text.Bytes? && text.bytes != [] && Reads(c, Lines.StripCr(text.bytes))
    requires capacity >= Chunks.MIN_NONFINAL_PAYLOAD_BYTES
    ensures Lines.Judge(c, text.bytes).Refuse? ==> Lines.Judge(c, text.bytes).error.kind in {Lines.InvalidJson, Lines.Schema}
    ensures var ms := ChunkEncoder.Sliced(text.bytes, 0, ChunkEncoder.ChunksFor(text.bytes, capacity), capacity);
            var fed := ChunkReassemblers.Feed(c, Chunks.IDLE, ms);
            && fed.next == Chunks.IDLE
            && (fed.reading.error.Some? ==> fed.reading.error.value.kind in {Lines.InvalidJson, Lines.Schema})
  {
    hide Peers.Run, ChunkReassemblers.Feed, ChunkEncoder.Sliced, ChunkEncoder.ChunksFor, Lines.Judge, Reads;
    PeerTheorems.ReadyKnows(s, moves, s');
    var limit := SendLimit(LocalMax(mine), Heard(p.driver.remote));
    LimitOf(mine, theirs, inFlight);
    FitsWithin(text.bytes, limit, c, capacity);
  }

  /** Any line up to the largest limit a peer can announce has few enough slices for the header's count. */
  lemma EnoughNumbers(line: seq<Lines.Byte>, capacity: nat)
    requires |line| <= MAX_ANNOUNCED_FRAME_BYTES && capacity >= 1
    ensures ChunkEncoder.Numbered(line, capacity)
  {
    assert Chunks.U32_MAX * 1 <= Chunks.U32_MAX * capacity;
  }
}
