/** Version negotiation and the reserved `rpc.` namespace. */
module Versions {
  import opened Frames

  const PROTOCOL_MINOR: nat := 1
  const RPC_DISCOVER_MINOR: nat := 1

  datatype Negotiation = Compatible(effectiveMinor: nat) | Incompatible(closeCode: nat)

  function Negotiate(local: Version, remote: Version): Negotiation {
    if local.major != remote.major then Incompatible(PROTOCOL_MISMATCH)
    else Compatible(if local.minor <= remote.minor then local.minor else remote.minor)
  }

  predicate IsReservedMethod(name: string) {
    "rpc." <= name
  }

  predicate IsDefinedReservedMethod(name: string, effectiveMinor: nat) {
    name == "rpc.discover" && effectiveMinor >= RPC_DISCOVER_MINOR
  }

  /** A name this session may ask for at `effectiveMinor`. */
  predicate MayAsk(name: string, effectiveMinor: nat) {
    IsReservedMethod(name) ==> IsDefinedReservedMethod(name, effectiveMinor)
  }

  /**
   Sessions are compatible just when their majors are equal, and then run at the
   lower of their two minors; otherwise the connection closes with 4426.
   */
  lemma NegotiatesLower(a: Version, b: Version)
    ensures Negotiate(a, b).Compatible? <==> a.major == b.major
    ensures Negotiate(a, b).Compatible? ==>
              var minor := Negotiate(a, b).effectiveMinor;
              minor <= a.minor && minor <= b.minor && (minor == a.minor || minor == b.minor)
    ensures Negotiate(a, b).Incompatible? ==> Negotiate(a, b).closeCode == 4426
  {
  }

  /** Both sides of a connection derive the same answer, so they run at the same minor. */
  lemma NegotiateSymmetric(a: Version, b: Version)
    ensures Negotiate(a, b) == Negotiate(b, a)
  {
  }
}
