/** The loan-to-value decision engine: a contract without storage whose
    `computeLTV` is one uint256 expression and whose `evaluate` compares it
    with a ceiling, emitting `LogError` when the ceiling is exceeded. Being
    stateless, it is modelled by functions only. */
module LTVDecisionEngine {
  import opened Evm

  /** The contract's `Errors` enum, in declaration order. */
  datatype Errors =
    | INVALID_CREDITOR_SIGNATURE
    | INVALID_PRINCIPAL_PRICE_SIGNATURE
    | INVALID_COLLATERAL_PRICE_SIGNATURE
    | AGREEMENT_EXPIRED
    | LTV_EXCEEDS_MAX

  /** `uint8(e)`: the position of an enum value in the declaration. */
  function ErrorIndex(e: Errors): (i: Uint8)
    ensures i < 5
    ensures e == LTV_EXCEEDS_MAX <==> i == 4
  {
    match e
    case INVALID_CREDITOR_SIGNATURE => 0
    case INVALID_PRINCIPAL_PRICE_SIGNATURE => 1
    case INVALID_COLLATERAL_PRICE_SIGNATURE => 2
    case AGREEMENT_EXPIRED => 3
    case LTV_EXCEEDS_MAX => 4
  }

  /** `event LogError(uint8 errorIndex)`. */
  datatype Event = LogError(errorIndex: Uint8)

  /** The way a call can abort: solc guards `/` with the `invalid` opcode. */
  datatype Abort = DivisionByZero

  /** What a completed `evaluate` call returns and emits. */
  datatype Decision = Decision(accepted: bool, events: seq<Event>)

  /** `collateralTokenPrice * collateralAmount / principalTokenPrice * principalAmount`,
      left to right, with unchecked (wrapping) multiplications. When nothing
      wraps, dividing before the last multiplication gives at most the exact
      `c * ca * pa / p`, and falls short of it by less than `principalAmount`. */
  function ComputeLTV(
    principalTokenPrice: Uint256,
    collateralTokenPrice: Uint256,
    principalAmount: Uint256,
    collateralAmount: Uint256
  ): (r: Result<Uint256, Abort>)
    ensures r.Failure? <==> principalTokenPrice == 0
    ensures r.Success? && NoWrap(principalTokenPrice, collateralTokenPrice, principalAmount, collateralAmount) ==>
              var exact := collateralTokenPrice * collateralAmount * principalAmount / principalTokenPrice;
              && r.value <= exact
              && (principalAmount > 0 ==> exact < r.value + principalAmount)
  {
    if principalTokenPrice == 0 then Failure(DivisionByZero)
    else
      var collateralValue := WrappingMul(collateralTokenPrice, collateralAmount);
      NoWrapTruncation(principalTokenPrice, collateralTokenPrice, principalAmount, collateralAmount);
      Success(WrappingMul(collateralValue / principalTokenPrice, principalAmount))
  }

  /** The mathematical value of the expression when neither product wraps. */
  predicate NoWrap(
    principalTokenPrice: Uint256,
    collateralTokenPrice: Uint256,
    principalAmount: Uint256,
    collateralAmount: Uint256
  )
    requires principalTokenPrice > 0
  {
    && collateralTokenPrice * collateralAmount < UINT256_MODULUS
    && (collateralTokenPrice * collateralAmount / principalTokenPrice) * principalAmount < UINT256_MODULUS
  }

  /** Without wrap-around, the divide-first value against the exact quotient. */
  lemma NoWrapTruncation(
    principalTokenPrice: Uint256,
    collateralTokenPrice: Uint256,
    principalAmount: Uint256,
    collateralAmount: Uint256
  )
    requires principalTokenPrice > 0
    ensures NoWrap(principalTokenPrice, collateralTokenPrice, principalAmount, collateralAmount) ==>
              var x := collateralTokenPrice * collateralAmount;
              var ltv := WrappingMul(WrappingMul(collateralTokenPrice, collateralAmount) / principalTokenPrice,
                                     principalAmount);
              var exact := collateralTokenPrice * collateralAmount * principalAmount / principalTokenPrice;
              && ltv == (x / principalTokenPrice) * principalAmount
              && ltv <= exact
              && (principalAmount > 0 ==> exact < ltv + principalAmount)
  {
    if NoWrap(principalTokenPrice, collateralTokenPrice, principalAmount, collateralAmount) {
      var x := collateralTokenPrice * collateralAmount;
      assert WrappingMul(collateralTokenPrice, collateralAmount) == x;
      assert x * principalAmount == collateralTokenPrice * collateralAmount * principalAmount;
      TruncationBound(x, principalTokenPrice, principalAmount);
    }
  }

  /** `(x / p) * pa` against `(x * pa) / p`, on unbounded naturals. */
  lemma TruncationBound(x: nat, p: nat, pa: nat)
    requires p > 0
    ensures (x / p) * pa <= x * pa / p
    ensures pa > 0 ==> x * pa / p < (x / p) * pa + pa
  {
    TruncationBelow(x, p, pa);
    if pa > 0 {
      TruncationWithin(x, p, pa);
    }
  }

  lemma TruncationBelow(x: nat, p: nat, pa: nat)
    requires p > 0
    ensures (x / p) * pa <= x * pa / p
  {
    var q, s := x / p, x % p;
    ScaledQuotient(q, s, x, p, pa);
  }

  lemma TruncationWithin(x: nat, p: nat, pa: nat)
    requires p > 0 && pa > 0
    ensures x * pa / p < (x / p) * pa + pa
  {
    var q, s := x / p, x % p;
    ScaledQuotient(q, s, x, p, pa);
    RemainderShare(s, p, pa);
  }

  /** With `x == q * p + s`, scaling by `pa` splits the quotient into `q * pa` and the remainder's share. */
  lemma ScaledQuotient(q: nat, s: nat, x: nat, p: nat, pa: nat)
    requires p > 0 && x == q * p + s
    ensures x * pa / p == q * pa + s * pa / p
  {
    Regroup(q, p, s, pa);
    DivAddMultiple(q * pa, s * pa, p);
  }

  /** The remainder's share is less than `pa`. */
  lemma RemainderShare(s: nat, p: nat, pa: nat)
    requires s < p && pa > 0
    ensures s * pa / p < pa
  {
    MulStrict(s, p, pa);
    DivBelow(s * pa, p, pa);
  }

  lemma Regroup(q: nat, p: nat, s: nat, pa: nat)
    ensures (q * p + s) * pa == (q * pa) * p + s * pa
  {
  }

  lemma MulStrict(s: nat, p: nat, pa: nat)
    requires s < p && pa > 0
    ensures s * pa < p * pa
  {
    assert p * pa == s * pa + (p - s) * pa;
  }

  lemma DivAddMultiple(a: nat, b: nat, p: nat)
    requires p > 0
    ensures (a * p + b) / p == a + b / p
  {
    var d, r := b / p, b % p;
    assert b == d * p + r;
    assert a * p + b == (a + d) * p + r by {
      assert a * p + d * p == (a + d) * p;
    }
    DivUnique(a * p + b, a + d, r, p);
  }

  lemma DivUnique(x: nat, k: nat, r: nat, p: nat)
    requires p > 0 && r < p && x == k * p + r
    ensures x / p == k
  {
    var q, s := x / p, x % p;
    assert x == q * p + s && s < p;
    if q > k {
      MulStep(k, q - k, p);
      assert false;
    } else if q < k {
      MulStep(q, k - q, p);
      assert false;
    }
  }

  lemma MulStep(k: nat, g: nat, p: nat)
    requires g >= 1
    ensures (k + g) * p >= k * p + p
  {
    assert (k + g) * p == k * p + g * p;
  }

  lemma DivBelow(y: nat, p: nat, bound: nat)
    requires p > 0 && y < p * bound
    ensures y / p < bound
  {
  }

  /** `evaluate`: only the LTV comparison is performed; the creditor and
      price-feed signature checks and the expiry check exist only as comments,
      so those four parameters are unused. */
  function Evaluate(
    priceFeedOperator: Address,
    creditor: Address,
    principalTokenPrice: Uint256,
    collateralTokenPrice: Uint256,
    principalAmount: Uint256,
    collateralAmount: Uint256,
    maxLTV: Uint256,
    creditorSignature: Bytes32,
    expirationTimestamp: Uint256
  ): (r: Result<Decision, Abort>)
    ensures r.Failure? <==> principalTokenPrice == 0
    ensures r.Success? ==>
              var ltv := ComputeLTV(principalTokenPrice, collateralTokenPrice, principalAmount, collateralAmount).value;
              && (r.value.accepted <==> ltv <= maxLTV)
              && (!r.value.accepted ==> r.value.events == [LogError(ErrorIndex(LTV_EXCEEDS_MAX))])
              && (r.value.accepted ==> r.value.events == [])
  {
    match ComputeLTV(principalTokenPrice, collateralTokenPrice, principalAmount, collateralAmount)
    case Failure(e) => Failure(e)
    case Success(givenLTV) =>
      if givenLTV > maxLTV then Success(Decision(false, [LogError(ErrorIndex(LTV_EXCEEDS_MAX))]))
      else Success(Decision(true, []))
  }

  /** A rejection emits exactly one event, `LogError(4)`. */
  lemma RejectionLogsIndexFour(
    priceFeedOperator: Address, creditor: Address,
    principalTokenPrice: Uint256, collateralTokenPrice: Uint256,
    principalAmount: Uint256, collateralAmount: Uint256,
    maxLTV: Uint256, creditorSignature: Bytes32, expirationTimestamp: Uint256
  )
    requires principalTokenPrice > 0
    ensures var r := Evaluate(priceFeedOperator, creditor, principalTokenPrice, collateralTokenPrice,
                              principalAmount, collateralAmount, maxLTV, creditorSignature, expirationTimestamp);
            !r.value.accepted ==> r.value.events == [LogError(4)]
  {
  }

  /** The verdict does not depend on the price-feed operator, the creditor,
      the creditor's signature or the expiration timestamp. */
  lemma EvaluateIgnoresUncheckedInputs(
    operator1: Address, creditor1: Address, signature1: Bytes32, expiration1: Uint256,
    operator2: Address, creditor2: Address, signature2: Bytes32, expiration2: Uint256,
    principalTokenPrice: Uint256, collateralTokenPrice: Uint256,
    principalAmount: Uint256, collateralAmount: Uint256, maxLTV: Uint256
  )
    ensures Evaluate(operator1, creditor1, principalTokenPrice, collateralTokenPrice,
                     principalAmount, collateralAmount, maxLTV, signature1, expiration1)
         == Evaluate(operator2, creditor2, principalTokenPrice, collateralTokenPrice,
                     principalAmount, collateralAmount, maxLTV, signature2, expiration2)
  {
  }

  /** Raising the ceiling never turns an acceptance into a rejection. */
  lemma EvaluateMonotoneInCeiling(
    priceFeedOperator: Address, creditor: Address,
    principalTokenPrice: Uint256, collateralTokenPrice: Uint256,
    principalAmount: Uint256, collateralAmount: Uint256,
    maxLTV: Uint256, higherMaxLTV: Uint256,
    creditorSignature: Bytes32, expirationTimestamp: Uint256
  )
    requires principalTokenPrice > 0 && maxLTV <= higherMaxLTV
    ensures Evaluate(priceFeedOperator, creditor, principalTokenPrice, collateralTokenPrice,
                     principalAmount, collateralAmount, maxLTV, creditorSignature, expirationTimestamp).value.accepted
        ==> Evaluate(priceFeedOperator, creditor, principalTokenPrice, collateralTokenPrice,
                     principalAmount, collateralAmount, higherMaxLTV, creditorSignature, expirationTimestamp).value.accepted
  {
  }

  /** The worked example: ((50 * 20) / 100) * 10 = 100; a ceiling of 50
      rejects it with `LogError(4)`, a ceiling of 150 and a ceiling of exactly
      100 accept it silently. */
  lemma WorkedExample(operator: Address, creditor: Address, signature: Bytes32, expiration: Uint256)
    ensures ComputeLTV(100, 50, 10, 20) == Success(100)
    ensures Evaluate(operator, creditor, 100, 50, 10, 20, 50, signature, expiration)
         == Success(Decision(false, [LogError(4)]))
    ensures Evaluate(operator, creditor, 100, 50, 10, 20, 150, signature, expiration)
         == Success(Decision(true, []))
    ensures Evaluate(operator, creditor, 100, 50, 10, 20, 100, signature, expiration)
         == Success(Decision(true, []))
  {
  }

  /** Division before multiplication: with a principal price of 3, a collateral
      value of 1 and a principal amount of 3 the LTV is 0, not 1. */
  lemma DivisionFirstExample()
    ensures ComputeLTV(3, 1, 3, 1) == Success(0)
  {
  }

  /** The multiplications wrap: a collateral value of exactly 2^256 reads as 0,
      so even a ceiling of 0 accepts. */
  lemma WrapAroundExample(operator: Address, creditor: Address, signature: Bytes32, expiration: Uint256)
    ensures ComputeLTV(1, 0x1_00000000000000000000000000000000, 1, 0x1_00000000000000000000000000000000) == Success(0)
    ensures Evaluate(operator, creditor, 1, 0x1_00000000000000000000000000000000, 1,
                     0x1_00000000000000000000000000000000, 0, signature, expiration).value.accepted
  {
  }
}
