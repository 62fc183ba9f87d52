/** Machine words and checked arithmetic of the Solidity 0.4 contracts, plus
    the Option and Result wrappers the other modules return. */
module Evm {

  /** 2^256: one more than the largest `uint256`. */
  const UINT256_MODULUS: nat := 0x1_0000000000000000000000000000000000000000000000000000000000000000

  /** 2^160: one more than the largest `address`. */
  const ADDRESS_LIMIT: nat := 0x1_0000000000000000000000000000000000000000

  type Uint256 = x: nat | x < UINT256_MODULUS
  type Uint8 = x: nat | x < 256
  type Bytes32 = Uint256
  type Address = a: nat | a < ADDRESS_LIMIT

  /** `address(0)`, the null address. */
  const NULL_ADDRESS: Address := 0

  /** No address occurs twice in the list. */
  predicate NoDuplicates(s: seq<Address>)
  {
    forall i, j :: 0 <= i < j < |s| ==> s[i] != s[j]
  }

  datatype Option<+T> = None | Some(value: T)

  datatype Result<+T, +E> = Success(value: T) | Failure(error: E)

  /** The unchecked `*` of solc 0.4.18: the product truncated to 256 bits. */
  function WrappingMul(a: Uint256, b: Uint256): (r: Uint256)
    ensures a * b < UINT256_MODULUS ==> r == a * b
    ensures (a * b - r) % UINT256_MODULUS == 0
  {
    ModularRepresentative(a * b);
    (a * b) % UINT256_MODULUS
  }

  lemma ModularRepresentative(x: nat)
    ensures (x - x % UINT256_MODULUS) % UINT256_MODULUS == 0
  {
    var q := x / UINT256_MODULUS;
    assert x - x % UINT256_MODULUS == q * UINT256_MODULUS;
  }

  /** SafeMath `add`: the unchecked sum `c`, which must not be below `a`
      (an `assert`); the check is passed exactly by sums that fit in 256 bits. */
  function SafeAdd(a: Uint256, b: Uint256): (r: Option<Uint256>)
    ensures r.Some? <==> a + b < UINT256_MODULUS
    ensures r.Some? ==> r.value == a + b && r.value - b == a
  {
    var c := (a + b) % UINT256_MODULUS;
    if c >= a then Some(c) else None
  }

  /** SafeMath `sub`: aborts (an `assert` failure) when `b > a`. */
  function SafeSub(a: Uint256, b: Uint256): (r: Option<Uint256>)
    ensures r.Some? <==> b <= a
    ensures r.Some? ==> r.value + b == a
  {
    if b <= a then Some(a - b) else None
  }

  /** `sub` undoes `add` and `add` undoes `sub`, whenever the first step succeeds. */
  lemma SafeAddSubRoundTrip(a: Uint256, b: Uint256)
    ensures SafeAdd(a, b).Some? ==> SafeSub(SafeAdd(a, b).value, b) == Some(a)
    ensures SafeSub(a, b).Some? ==> SafeAdd(SafeSub(a, b).value, b) == Some(a)
  {
  }
}
