/**
 The frame vocabulary of wire 1: identifiers, the error kinds a requester can
 see, and the nine frame types. JSON values stay abstract; error texts and
 detail maps are reduced to their kind.
 */
module Frames {
  import opened Wrappers

  /** A JSON value. Nothing in the session looks inside one. */
  type Json(==, !new, 0)

  type Id(==, !new, 0)

  datatype Version = Version(major: nat, minor: nat)

  /** `hello.limits`: an absent member is the default, never a zero. */
  datatype Limits = Limits(maxFrameBytes: Option<nat>, maxInFlight: Option<nat>)

  datatype Hello = Hello(protocol: Version, limits: Option<Limits>)

  /** The five checks an inbound request can fail before any handler runs. */
  datatype Refusal = NotReady | InFlightLimit | DuplicateId | ReservedMethod | NoHandler

  datatype RemoteError =
    | Refused(why: Refusal)
    | HandlerError(detail: Json)
    | Panicked
    | FrameTooLarge
    | Unencodable
    | Unavailable
    | TimedOut
    | Mismatch

  /** What a handler, and later a caller, ends with. */
  datatype Outcome = Ok(value: Json) | Failed(error: RemoteError)

  datatype Event = Event(topic: string, number: nat, streamId: Option<string>, payload: Json, end: bool)

  datatype Frame =
    | HelloFrame(hello: Hello)
    | Req(id: Id, name: string, params: Json)
    | Res(id: Id, result: Json)
    | Err(id: Id, error: RemoteError)
    | Evt(event: Event)
    | Cancel(id: Id)
    | Ping
    | Pong
    | Close(code: nat)

  const RELEASED: nat := 4000
  const PROTOCOL_ERROR: nat := 4400
  const PROTOCOL_MISMATCH: nat := 4426

  /** The request id a frame asks under. */
  function AskOf(f: Frame): Option<Id> {
    if f.Req? then Some(f.id) else None
  }

  /** The request id a frame answers. */
  function AnswerOf(f: Frame): Option<Id> {
    if f.Res? || f.Err? then Some(f.id) else None
  }

  /** The frame that carries an outcome back to the requester. */
  function AnswerFrame(id: Id, outcome: Outcome): (f: Frame)
    ensures AnswerOf(f) == Some(id) && AskOf(f) == None
  {
    match outcome
    case Ok(value) => Res(id, value)
    case Failed(error) => Err(id, error)
  }
}
