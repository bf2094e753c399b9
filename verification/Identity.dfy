/** Identities, bounds and time shared by every component. Numeric identities
    are naturals; textual identities (slugs) are strings. */
module Identity {

  const U64_MAX: nat := 0xFFFF_FFFF_FFFF_FFFF
  const I64_MAX: int := 0x7FFF_FFFF_FFFF_FFFF
  const I64_MIN: int := -0x8000_0000_0000_0000

  type U64 = x: nat | x <= 0xFFFF_FFFF_FFFF_FFFF

  type ResourceId = string
  type DomainId = string
  type GroupId = string

  type DrainId = nat
  type DrainSetId = nat
  type ObligationId = nat
  type AuthorityId = nat
  type Generation = nat
  type EvidenceSeq = nat

  /** Nanoseconds since the epoch. Zero is the "never" sentinel of the records. */
  type Time = int

  datatype Option<+T> = None | Some(value: T)

  datatype TargetKind = Port | Link | Switch | Path | Service | Resource

  /** What is drained: kind, resource and failure domain. Two targets may name
      the same resource under different kinds or domains. */
  datatype Target = Target(kind: TargetKind, id: ResourceId, domain: DomainId)

  /** Addition that sticks at the ends of the signed 64-bit range. */
  function SaturatingAdd(base: Time, delta: int): (r: Time)
    ensures I64_MIN <= base + delta <= I64_MAX ==> r == base + delta
    ensures I64_MIN <= r <= I64_MAX
  {
    if base + delta > I64_MAX then I64_MAX
    else if base + delta < I64_MIN then I64_MIN
    else base + delta
  }
}
