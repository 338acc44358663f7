/**
 * Account identifiers. A QMailAccountId wraps an unsigned 64-bit value and
 * is valid when that value is not 0; the default id is 0.
 */
module AccountIds {

  type Uint64 = x: int | 0 <= x < 0x1_0000_0000_0000_0000

  const InvalidId: Uint64 := 0

  predicate IsValid(id: Uint64) {
    id != 0
  }

  /** The C++ conversion of a quint64 to a 32-bit int: keep the low 32 bits, read as two's complement. */
  function ToInt32(x: Uint64): (r: int)
    ensures -0x8000_0000 <= r < 0x8000_0000
    ensures (x - r) % 0x1_0000_0000 == 0
    ensures x < 0x8000_0000 ==> r == x
  {
    var low := x % 0x1_0000_0000;
    if low < 0x8000_0000 then low else low - 0x1_0000_0000
  }

  /**
   * accountId() as written: -1 for an invalid id, otherwise the id's
   * toULongLong() returned through the int result type.
   */
  function AccountIdAsWritten(id: Uint64): (r: int)
    ensures !IsValid(id) ==> r == -1
    ensures IsValid(id) && id < 0x8000_0000 ==> r == id
    ensures -0x8000_0000 <= r < 0x8000_0000
  {
    if IsValid(id) then ToInt32(id) else -1
  }

  /** A valid id whose low 32 bits are all ones comes back as the -1 that signals "no id". */
  lemma AccountIdSentinelCollision()
    ensures IsValid(0xFFFF_FFFF) && AccountIdAsWritten(0xFFFF_FFFF) == -1
    ensures IsValid(0x1_0000_0000) && AccountIdAsWritten(0x1_0000_0000) == 0
  {
  }

  /** accountId() as intended: the id itself, or -1 exactly when there is none. */
  function AccountIdIntended(id: Uint64): (r: int)
    ensures r == -1 <==> !IsValid(id)
    ensures IsValid(id) ==> r == id
  {
    if IsValid(id) then id else -1
  }

  /** The intended result tells ids apart, so -1 identifies the invalid id alone. */
  lemma AccountIdIntendedInjective(a: Uint64, b: Uint64)
    ensures AccountIdIntended(a) == AccountIdIntended(b) <==> a == b
  {
  }

  /** The two agree on every id that fits in a non-negative int. */
  lemma AccountIdAgreesInRange(id: Uint64)
    requires id < 0x8000_0000
    ensures AccountIdAsWritten(id) == AccountIdIntended(id)
  {
  }
}
