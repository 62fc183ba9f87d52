/** The creditor proxy: it fills a debt offer that a creditor has signed.
    One fill takes `principalAmount + creditorFee` from the creditor through
    the token transfer proxy, passes it on to the debt kernel, hands the
    newly issued debt token to the creditor and records the offer as
    filled. A paused proxy refuses every fill; an offer that fails a business
    rule is answered with a `LogError` event and changes nothing else. */
module Proxy {
  import opened Evm
  import opened Balances
  import Token

  /** An (r, s, v) signature over a commitment hash. */
  datatype Signature = Signature(v: Uint8, r: Bytes32, s: Bytes32)

  /** A signed debt offer as the proxy receives it. The principal token is
      the one token this proxy is bound to. */
  datatype DebtOffer = DebtOffer(
    kernelVersion: Address,
    creditor: Address,
    repaymentRouterVersion: Address,
    debtor: Address,
    underwriter: Address,
    termsContract: Address,
    relayer: Address,
    underwriterRiskRating: Uint256,
    principalAmount: Uint256,
    underwriterFee: Uint256,
    relayerFee: Uint256,
    creditorFee: Uint256,
    debtorFee: Uint256,
    expirationTimestampInSec: Uint256,
    salt: Uint256,
    termsContractParameters: Bytes32,
    creditorSignature: Signature
  )

  /** The creditor's commitment hash, standing for the keccak256 digest: a
      value determined by exactly the nine fields the creditor's signature
      commits to. */
  datatype CommitmentHash = CommitmentHash(
    creditor: Address,
    repaymentRouterVersion: Address,
    creditorFee: Uint256,
    underwriter: Address,
    underwriterRiskRating: Uint256,
    termsContract: Address,
    termsContractParameters: Bytes32,
    expirationTimestampInSec: Uint256,
    salt: Uint256
  )

  /** The hash names the creditor, the address its signature must recover
      to and the one `LogError` and `LogDebtOfferFilled` report. */
  function CreditorCommitmentHash(o: DebtOffer): (h: CommitmentHash)
    ensures h.creditor == o.creditor
  {
    CommitmentHash(o.creditor, o.repaymentRouterVersion, o.creditorFee, o.underwriter,
                   o.underwriterRiskRating, o.termsContract, o.termsContractParameters,
                   o.expirationTimestampInSec, o.salt)
  }

  /** Two offers share a commitment hash exactly when they agree on all nine
      committed fields: changing any one of them makes a different hash. */
  lemma CommitmentHashCommits(o1: DebtOffer, o2: DebtOffer)
    ensures CreditorCommitmentHash(o1) == CreditorCommitmentHash(o2) <==>
              && o1.creditor == o2.creditor
              && o1.repaymentRouterVersion == o2.repaymentRouterVersion
              && o1.creditorFee == o2.creditorFee
              && o1.underwriter == o2.underwriter
              && o1.underwriterRiskRating == o2.underwriterRiskRating
              && o1.termsContract == o2.termsContract
              && o1.termsContractParameters == o2.termsContractParameters
              && o1.expirationTimestampInSec == o2.expirationTimestampInSec
              && o1.salt == o2.salt
  {
  }

  /** Unforgeability, as far as consent needs it: one signature never
      recovers to the creditor named in each of two different commitment
      hashes. It may recover to arbitrary addresses over other hashes. */
  ghost predicate ConsentsToOneCommitment(recover: (CommitmentHash, Signature) -> Address)
  {
    forall h1: CommitmentHash, h2: CommitmentHash, s: Signature ::
      && h1.creditor != NULL_ADDRESS && recover(h1, s) == h1.creditor
      && h2.creditor != NULL_ADDRESS && recover(h2, s) == h2.creditor
      ==> h1 == h2
  }

  /** The agreement id the kernel issues for an offer, standing for the
      issuance hash; it is also the id of the debt token. */
  datatype AgreementId = AgreementId(
    repaymentRouterVersion: Address,
    debtor: Address,
    underwriter: Address,
    underwriterRiskRating: Uint256,
    termsContract: Address,
    termsContractParameters: Bytes32,
    salt: Uint256
  )

  /** The agreement is the debtor's: the id names the debtor and the terms. */
  function AgreementIdOf(o: DebtOffer): (id: AgreementId)
    ensures id.debtor == o.debtor && id.termsContract == o.termsContract && id.salt == o.salt
  {
    AgreementId(o.repaymentRouterVersion, o.debtor, o.underwriter, o.underwriterRiskRating,
                o.termsContract, o.termsContractParameters, o.salt)
  }

  /** The creditor's side of an offer (who lends, the creditor fee, the
      signature) does not enter the agreement id: two creditors' offers on the
      same agreement issue the same debt token, so only one of them can fill. */
  lemma AgreementIdIgnoresCreditorTerms(o: DebtOffer, creditor: Address, creditorFee: Uint256, signature: Signature)
    ensures AgreementIdOf(o.(creditor := creditor, creditorFee := creditorFee, creditorSignature := signature))
         == AgreementIdOf(o)
  {
  }

  /** The business failures reported through `LogError`. */
  datatype ErrorCode =
    | DEBT_OFFER_CANCELLED
    | DEBT_OFFER_ALREADY_FILLED
    | DEBT_OFFER_NON_CONSENSUAL
    | CREDITOR_BALANCE_OR_ALLOWANCE_INSUFFICIENT

  datatype Log =
    | LogDebtOfferFilled(proxy: Address, creditor: Address, creditorCommitmentHash: CommitmentHash,
                         agreementId: AgreementId)
    | LogError(proxy: Address, errorCode: ErrorCode, creditor: Address,
               creditorCommitmentHash: CommitmentHash)
    | Pause
    | Unpause

  /** Why a transaction reverts, undoing all its effects. */
  datatype Revert =
    | NotOwner
    | WhenNotPaused  // the `whenNotPaused` modifier fails: the proxy is paused
    | WhenPaused     // the `whenPaused` modifier fails: the proxy is not paused
    | ArithmeticOverflow
    | NullIssuanceHash

  datatype Status = Done | Reverted(reason: Revert)

  /** What `fillDebtOffer` ends in: the agreement id of a fill, an error code
      logged instead of a fill, or a revert. */
  datatype FillOutcome =
    | Filled(agreementId: AgreementId)
    | Error(code: ErrorCode)
    | Aborted(reason: Revert)

  /** The token movement of a fill: `total` goes from the creditor to the
      proxy and from the proxy on to the kernel. */
  function Relayed(m: Table, creditor: Address, proxy: Address, kernel: Address, total: Uint256): (r: Table)
    requires Sum(m) < UINT256_MODULUS && total <= BalanceOf(m, creditor) && proxy != kernel
  {
    RelayFits(m, creditor, proxy, kernel, total);
    Token.Moved(Token.Moved(m, creditor, proxy, total), proxy, kernel, total)
  }

  /** Both legs of the relay stay within the balances' 256 bits. */
  lemma RelayFits(m: Table, creditor: Address, proxy: Address, kernel: Address, total: Uint256)
    requires Sum(m) < UINT256_MODULUS && total <= BalanceOf(m, creditor) && proxy != kernel
    ensures creditor != proxy ==> BalanceOf(m, proxy) + total < UINT256_MODULUS
    ensures var received := Token.Moved(m, creditor, proxy, total);
            && Sum(received) == Sum(m)
            && total <= BalanceOf(received, proxy)
            && BalanceOf(received, kernel) + total < UINT256_MODULUS
  {
    if creditor != proxy {
      TwoBalancesAtMostSum(m, creditor, proxy);
    }
    var received := Token.Moved(m, creditor, proxy, total);
    Token.MovedPreservesSum(m, creditor, proxy, total);
    TwoBalancesAtMostSum(received, proxy, kernel);
  }

  /** The relayed payment debits the creditor by `total` (unless the creditor
      is the kernel), leaves the proxy where it was (unless the creditor is the
      proxy), credits the kernel, touches nobody else and conserves the sum. */
  lemma RelayedEffect(m: Table, creditor: Address, proxy: Address, kernel: Address, total: Uint256)
    requires Sum(m) < UINT256_MODULUS && total <= BalanceOf(m, creditor) && proxy != kernel
    ensures var r := Relayed(m, creditor, proxy, kernel, total);
            && (creditor != kernel ==> BalanceOf(r, creditor) == BalanceOf(m, creditor) - total)
            && (creditor != proxy ==> BalanceOf(r, proxy) == BalanceOf(m, proxy))
            && (creditor != kernel ==> BalanceOf(r, kernel) == BalanceOf(m, kernel) + total)
            && (forall a :: a != creditor && a != proxy && a != kernel ==> BalanceOf(r, a) == BalanceOf(m, a))
            && Sum(r) == Sum(m)
  {
    RelayFits(m, creditor, proxy, kernel, total);
    Token.MovedPreservesSum(Token.Moved(m, creditor, proxy, total), proxy, kernel, total);
  }

  class CreditorProxy {
    const self: Address
    const kernel: Address
    const transferProxy: Address
    /** ecrecover: the signer of a hash, as recovered from a signature. */
    const recover: (CommitmentHash, Signature) -> Address
    const token: Token.DummyToken
    var owner: Address
    var paused: bool
    var filled: set<CommitmentHash>
    var cancelled: set<CommitmentHash>
    /** The debt token's `ownerOf`, for the tokens issued through this proxy. */
    var debtTokenOwner: map<AgreementId, Address>
    var logs: seq<Log>

    /** The token keeps its supply invariant, a hash is never both filled and
        cancelled, and there are as many debt tokens as filled offers. */
    ghost predicate Valid()
      reads this, token
    {
      && token.Valid()
      && self != kernel
      && filled !! cancelled
      && |filled| == |debtTokenOwner|
    }

    constructor(self: Address, kernel: Address, transferProxy: Address,
                recover: (CommitmentHash, Signature) -> Address,
                token: Token.DummyToken, sender: Address)
      requires token.Valid() && self != kernel
      ensures this.self == self && this.kernel == kernel && this.transferProxy == transferProxy
      ensures this.recover == recover && this.token == token
      ensures owner == sender && !paused
      ensures filled == {} && cancelled == {} && debtTokenOwner == map[] && logs == []
      ensures Valid()
    {
      this.self := self;
      this.kernel := kernel;
      this.transferProxy := transferProxy;
      this.recover := recover;
      this.token := token;
      owner := sender;
      paused := false;
      filled := {};
      cancelled := {};
      debtTokenOwner := map[];
      logs := [];
    }

    /** Whether the creditor's signature recovers to the creditor. */
    predicate Consensual(o: DebtOffer): (b: bool)
      ensures b <==> recover(CreditorCommitmentHash(o), o.creditorSignature) == o.creditor
    {
      recover(CreditorCommitmentHash(o), o.creditorSignature) == o.creditor
    }

    /** Consent is a matter of the commitment hash and the signature alone:
        an offer that differs from a consensual one only in fields outside the
        commitment is consensual as well. */
    lemma ConsensualDependsOnlyOnCommitment(o1: DebtOffer, o2: DebtOffer)
      requires CreditorCommitmentHash(o1) == CreditorCommitmentHash(o2)
      requires o1.creditorSignature == o2.creditorSignature
      ensures Consensual(o1) <==> Consensual(o2)
    {
    }

    /** The non-consensual cases: an offer that reuses the signature of a
        consensual offer but differs from it in any one committed field is not
        consensual, provided no signature consents to two commitments. */
    lemma TamperedOfferNonConsensual(signed: DebtOffer, tampered: DebtOffer)
      requires ConsentsToOneCommitment(recover)
      requires Consensual(signed) && signed.creditor != NULL_ADDRESS
      requires tampered.creditorSignature == signed.creditorSignature && tampered.creditor != NULL_ADDRESS
      requires || tampered.creditor != signed.creditor
               || tampered.repaymentRouterVersion != signed.repaymentRouterVersion
               || tampered.creditorFee != signed.creditorFee
               || tampered.underwriter != signed.underwriter
               || tampered.underwriterRiskRating != signed.underwriterRiskRating
               || tampered.termsContract != signed.termsContract
               || tampered.termsContractParameters != signed.termsContractParameters
               || tampered.expirationTimestampInSec != signed.expirationTimestampInSec
               || tampered.salt != signed.salt
      ensures !Consensual(tampered)
    {
      CommitmentHashCommits(signed, tampered);
    }

    /** `pause`: owner only, and only while not paused. */
    method PauseProxy(sender: Address) returns (r: Status)
      requires Valid()
      modifies this
      ensures Valid()
      ensures r == Done <==> sender == old(owner) && !old(paused)
      ensures sender != old(owner) ==> r == Reverted(NotOwner)
      ensures r.Reverted? ==> unchanged(this)
      ensures r == Done ==>
                && paused && logs == old(logs) + [Pause]
                && owner == old(owner) && filled == old(filled) && cancelled == old(cancelled)
                && debtTokenOwner == old(debtTokenOwner)
    {
      if sender != owner {
        return Reverted(NotOwner);
      }
      if paused {
        return Reverted(WhenNotPaused);
      }
      paused := true;
      logs := logs + [Pause];
      r := Done;
    }

    /** `unpause`: owner only, and only while paused. */
    method UnpauseProxy(sender: Address) returns (r: Status)
      requires Valid()
      modifies this
      ensures Valid()
      ensures r == Done <==> sender == old(owner) && old(paused)
      ensures sender != old(owner) ==> r == Reverted(NotOwner)
      ensures r.Reverted? ==> unchanged(this)
      ensures r == Done ==>
                && !paused && logs == old(logs) + [Unpause]
                && owner == old(owner) && filled == old(filled) && cancelled == old(cancelled)
                && debtTokenOwner == old(debtTokenOwner)
    {
      if sender != owner {
        return Reverted(NotOwner);
      }
      if !paused {
        return Reverted(WhenPaused);
      }
      paused := false;
      logs := logs + [Unpause];
      r := Done;
    }

    /** `fillDebtOffer`. The checks run in this order: paused (revert),
        already filled, cancelled, not consensual, `principal + creditorFee`
        overflowing (revert), creditor balance or allowance short, agreement
        already issued (revert). A logged error changes only the log. */
    method FillDebtOffer(offer: DebtOffer) returns (r: FillOutcome)
      requires Valid()
      modifies this, token
      ensures Valid()
      ensures var h, total := CreditorCommitmentHash(offer), offer.principalAmount + offer.creditorFee;
              && (old(paused) ==> r == Aborted(WhenNotPaused))
              && (r == Error(DEBT_OFFER_ALREADY_FILLED) <==> !old(paused) && h in old(filled))
              && (r == Error(DEBT_OFFER_CANCELLED) <==>
                    !old(paused) && h !in old(filled) && h in old(cancelled))
              && (r == Error(DEBT_OFFER_NON_CONSENSUAL) <==>
                    !old(paused) && h !in old(filled) && h !in old(cancelled) && !Consensual(offer))
              && (r == Aborted(ArithmeticOverflow) <==>
                    !old(paused) && h !in old(filled) && h !in old(cancelled) && Consensual(offer)
                    && total >= UINT256_MODULUS)
              && (r == Error(CREDITOR_BALANCE_OR_ALLOWANCE_INSUFFICIENT) <==>
                    !old(paused) && h !in old(filled) && h !in old(cancelled) && Consensual(offer)
                    && total < UINT256_MODULUS
                    && (total > old(token.BalanceOf(offer.creditor))
                        || total > old(token.Allowance(offer.creditor, transferProxy))))
              && (r == Aborted(NullIssuanceHash) <==>
                    !old(paused) && h !in old(filled) && h !in old(cancelled) && Consensual(offer)
                    && total <= old(token.BalanceOf(offer.creditor))
                    && total <= old(token.Allowance(offer.creditor, transferProxy))
                    && AgreementIdOf(offer) in old(debtTokenOwner))
              && (r.Filled? <==>
                    !old(paused) && h !in old(filled) && h !in old(cancelled) && Consensual(offer)
                    && total <= old(token.BalanceOf(offer.creditor))
                    && total <= old(token.Allowance(offer.creditor, transferProxy))
                    && AgreementIdOf(offer) !in old(debtTokenOwner))
      ensures r.Aborted? ==> unchanged(this, token)
      ensures r.Error? ==>
                && unchanged(token)
                && logs == old(logs) + [LogError(self, r.code, offer.creditor, CreditorCommitmentHash(offer))]
                && owner == old(owner) && paused == old(paused) && filled == old(filled)
                && cancelled == old(cancelled) && debtTokenOwner == old(debtTokenOwner)
      ensures r.Filled? ==>
                var h, total, aid := CreditorCommitmentHash(offer), offer.principalAmount + offer.creditorFee, AgreementIdOf(offer);
                && r.agreementId == aid
                && aid in debtTokenOwner && debtTokenOwner[aid] == offer.creditor
                && (offer.creditor != kernel ==>
                      token.BalanceOf(offer.creditor) == old(token.BalanceOf(offer.creditor)) - total)
                && (offer.creditor != self ==> token.BalanceOf(self) == old(token.BalanceOf(self)))
                && Sum(token.balances) == old(Sum(token.balances))
                && debtTokenOwner == old(debtTokenOwner)[aid := offer.creditor]
                && filled == old(filled) + {h}
                && logs == old(logs) + [LogDebtOfferFilled(self, offer.creditor, h, aid)]
                && owner == old(owner) && paused == old(paused) && cancelled == old(cancelled)
                && old(Sum(token.balances)) < UINT256_MODULUS
                && token.balances == Relayed(old(token.balances), offer.creditor, self, kernel, total)
                && token.allowed == old(token.allowed)[(offer.creditor, transferProxy) :=
                                                         old(token.Allowance(offer.creditor, transferProxy)) - total]
                && token.owner == old(token.owner) && token.totalSupply == old(token.totalSupply)
                && token.name == old(token.name) && token.symbol == old(token.symbol)
                && token.decimals == old(token.decimals)
    {
      if paused {
        return Aborted(WhenNotPaused);
      }
      var h := CreditorCommitmentHash(offer);
      var code: Option<ErrorCode> := None;
      if h in filled {
        code := Some(DEBT_OFFER_ALREADY_FILLED);
      } else if h in cancelled {
        code := Some(DEBT_OFFER_CANCELLED);
      } else if !Consensual(offer) {
        code := Some(DEBT_OFFER_NON_CONSENSUAL);
      }
      if code.None? {
        var sum := SafeAdd(offer.principalAmount, offer.creditorFee);
        if sum.None? {
          return Aborted(ArithmeticOverflow);
        }
        var total := sum.value;
        assert total == offer.principalAmount + offer.creditorFee;
        if total > token.BalanceOf(offer.creditor) || total > token.Allowance(offer.creditor, transferProxy) {
          code := Some(CREDITOR_BALANCE_OR_ALLOWANCE_INSUFFICIENT);
        } else {
          var aid := AgreementIdOf(offer);
          if aid in debtTokenOwner {
            return Aborted(NullIssuanceHash);
          }
          r := Relay(offer, total, aid);
          return;
        }
      }
      logs := logs + [LogError(self, code.value, offer.creditor, h)];
      r := Error(code.value);
    }

    /** The payment of a fill: the transfer proxy pulls `total` from the
        creditor to the proxy, and the proxy passes it on to the kernel. */
    method Pay(creditor: Address, total: Uint256)
      requires Valid()
      requires total <= token.BalanceOf(creditor) && total <= token.Allowance(creditor, transferProxy)
      modifies token
      ensures Valid()
      ensures old(Sum(token.balances)) < UINT256_MODULUS
      ensures token.balances == Relayed(old(token.balances), creditor, self, kernel, total)
      ensures token.allowed == old(token.allowed)[(creditor, transferProxy) :=
                                                   old(token.Allowance(creditor, transferProxy)) - total]
      ensures token.owner == old(token.owner) && token.totalSupply == old(token.totalSupply)
      ensures token.name == old(token.name) && token.symbol == old(token.symbol)
      ensures token.decimals == old(token.decimals)
    {
      ghost var before := token.balances;
      assert Sum(before) < UINT256_MODULUS;
      var pulled := token.TransferFrom(transferProxy, creditor, self, total);
      assert pulled == Token.Done;
      assert token.BalanceOf(self) >= total;
      var forwarded := token.Transfer(self, kernel, total);
      assert forwarded == Token.Done;
    }

    /** The effects of a fill that passed every check. */
    method Relay(offer: DebtOffer, total: Uint256, aid: AgreementId) returns (r: FillOutcome)
      requires Valid()
      requires CreditorCommitmentHash(offer) !in filled && CreditorCommitmentHash(offer) !in cancelled
      requires total <= token.BalanceOf(offer.creditor) && total <= token.Allowance(offer.creditor, transferProxy)
      requires aid !in debtTokenOwner
      modifies this, token
      ensures Valid()
      ensures r == Filled(aid)
      ensures var h := CreditorCommitmentHash(offer);
              && (offer.creditor != kernel ==>
                    token.BalanceOf(offer.creditor) == old(token.BalanceOf(offer.creditor)) - total)
              && (offer.creditor != self ==> token.BalanceOf(self) == old(token.BalanceOf(self)))
              && Sum(token.balances) == old(Sum(token.balances))
              && debtTokenOwner == old(debtTokenOwner)[aid := offer.creditor]
              && filled == old(filled) + {h}
              && logs == old(logs) + [LogDebtOfferFilled(self, offer.creditor, h, aid)]
              && owner == old(owner) && paused == old(paused) && cancelled == old(cancelled)
              && old(Sum(token.balances)) < UINT256_MODULUS
              && token.balances == Relayed(old(token.balances), offer.creditor, self, kernel, total)
              && token.allowed == old(token.allowed)[(offer.creditor, transferProxy) :=
                                                       old(token.Allowance(offer.creditor, transferProxy)) - total]
              && token.owner == old(token.owner) && token.totalSupply == old(token.totalSupply)
              && token.name == old(token.name) && token.symbol == old(token.symbol)
              && token.decimals == old(token.decimals)
    {
      var h := CreditorCommitmentHash(offer);
      ghost var before := token.balances;
      Pay(offer.creditor, total);
      RelayedEffect(before, offer.creditor, self, kernel, total);
      debtTokenOwner := debtTokenOwner[aid := offer.creditor];
      filled := filled + {h};
      logs := logs + [LogDebtOfferFilled(self, offer.creditor, h, aid)];
      r := Filled(aid);
    }
  }

  // Fills replayed from the proxy's integration tests. Address 100 is the
  // contract owner, 102 the debtor, 103 the creditor; 200, 201 and 202 are the
  // proxy, the kernel and the token transfer proxy.

  /** The signature the test creditor's key made over its one offer. */
  const CREDITOR_SIGNATURE := Signature(27, 1, 2)

  /** ecrecover for a creditor key that signed exactly the hash `signed`:
      that signature over that hash recovers to the hash's creditor, and every
      other pair recovers to the null address. */
  function SignerOf(signed: CommitmentHash): (recover: (CommitmentHash, Signature) -> Address)
    ensures ConsentsToOneCommitment(recover)
    ensures recover(signed, CREDITOR_SIGNATURE) == signed.creditor
  {
    (h, s) => RecoveredSigner(signed, h, s)
  }

  function RecoveredSigner(signed: CommitmentHash, h: CommitmentHash, s: Signature): Address
  {
    if h == signed && s == CREDITOR_SIGNATURE then h.creditor else NULL_ADDRESS
  }

  /** An offer on the tests' default terms: underwriter 301 and relayer 303
      with fees of 15, a debtor fee of 10 and a risk rating of 135. */
  function Offer(creditor: Address, debtor: Address, principalAmount: Uint256, creditorFee: Uint256,
                 salt: Uint256, signature: Signature): DebtOffer
  {
    DebtOffer(201, creditor, 300, debtor, 301, 302, 303, 135, principalAmount, 15, 15,
              creditorFee, 10, 2592000, salt, 7, signature)
  }

  /** An offer with no principal and no fees whatsoever, no underwriter, no
      relayer and a zero risk rating. */
  function BareOffer(creditor: Address, debtor: Address, salt: Uint256, signature: Signature): DebtOffer
  {
    DebtOffer(201, creditor, 300, debtor, NULL_ADDRESS, 302, NULL_ADDRESS, 0, 0, 0, 0,
              0, 0, 2592000, salt, 7, signature)
  }

  /** The tests' balance set-up: the token owner sets the creditor's balance
      to `amount` and the creditor approves the transfer proxy for it. */
  method FundedToken(owner: Address, creditor: Address, amount: Uint256) returns (token: Token.DummyToken)
    requires owner != creditor && creditor != 200
    ensures fresh(token) && token.Valid()
    ensures token.BalanceOf(creditor) == amount && token.Allowance(creditor, 202) == amount
    ensures token.BalanceOf(200) == 0
  {
    token := new Token.DummyToken(owner, "Augur", "REP", 18, 0, []);
    var status := token.SetBalance(owner, creditor, amount);
    assert status == Token.Done;
    status := token.Approve(creditor, 202, amount);
  }

  /** A consensual offer backed by exactly `principal + creditorFee` fills:
      the creditor ends at 0, the proxy's balance stays put, the creditor owns
      the debt token and the last log is the fill. Replaying the offer logs
      `DEBT_OFFER_ALREADY_FILLED`. */
  method ScenarioValidFill()
  {
    var owner, debtor, creditor := 100, 102, 103;
    var token := FundedToken(owner, creditor, 12);
    var offer := Offer(creditor, debtor, 10, 2, 1, CREDITOR_SIGNATURE);
    var h, aid := CreditorCommitmentHash(offer), AgreementIdOf(offer);
    var proxy := new CreditorProxy(200, 201, 202, SignerOf(h), token, owner);

    var outcome := proxy.FillDebtOffer(offer);
    assert outcome == Filled(aid);
    assert token.BalanceOf(creditor) == 0;
    assert token.BalanceOf(200) == 0;
    assert proxy.debtTokenOwner[aid] == creditor;
    assert proxy.logs[|proxy.logs| - 1] == LogDebtOfferFilled(200, creditor, h, aid);

    outcome := proxy.FillDebtOffer(offer);
    assert outcome == Error(DEBT_OFFER_ALREADY_FILLED);
    assert proxy.logs[|proxy.logs| - 1] == LogError(200, DEBT_OFFER_ALREADY_FILLED, creditor, h);
  }

  /** A paused proxy reverts the fill; once unpaused, the same offer fills. */
  method ScenarioPausedFill()
  {
    var owner, attacker, debtor, creditor := 100, 101, 102, 103;
    var token := new Token.DummyToken(owner, "Augur", "REP", 18, 1000, [creditor]);
    var status := token.Approve(creditor, 202, 1000);
    var offer := Offer(creditor, debtor, 10, 2, 1, CREDITOR_SIGNATURE);
    var proxy := new CreditorProxy(200, 201, 202, SignerOf(CreditorCommitmentHash(offer)), token, owner);

    var toggled := proxy.PauseProxy(attacker);
    assert toggled == Reverted(NotOwner);
    toggled := proxy.PauseProxy(owner);
    assert toggled == Done;
    var outcome := proxy.FillDebtOffer(offer);
    assert outcome == Aborted(WhenNotPaused);
    toggled := proxy.UnpauseProxy(owner);
    assert toggled == Done;
    outcome := proxy.FillDebtOffer(offer);
    assert outcome.Filled?;
    assert token.BalanceOf(creditor) == 988;
  }

  /** An offer with no principal and no fees, whose creditor is also its
      debtor, fills without moving any tokens. */
  method ScenarioZeroAmounts()
  {
    var owner, creditor := 100, 103;
    var token := new Token.DummyToken(owner, "Augur", "REP", 18, 1000, [owner]);
    assert token.BalanceOf(creditor) == 0 && token.BalanceOf(owner) == 1000;
    var offer := BareOffer(creditor, creditor, 2, CREDITOR_SIGNATURE);
    var proxy := new CreditorProxy(200, 201, 202, SignerOf(CreditorCommitmentHash(offer)), token, owner);
    var outcome := proxy.FillDebtOffer(offer);
    assert outcome == Filled(AgreementIdOf(offer));
    assert token.BalanceOf(creditor) == 0 && token.BalanceOf(owner) == 1000;
    assert proxy.debtTokenOwner[AgreementIdOf(offer)] == creditor;
  }

  /** A forged signature, the creditor's signature on an offer with another
      terms contract or another salt, and a short allowance are logged, not
      filled. */
  method ScenarioRejectedOffers()
  {
    var owner, debtor, creditor := 100, 102, 103;
    var token := new Token.DummyToken(owner, "Augur", "REP", 18, 1000, [creditor]);
    var status := token.Approve(creditor, 202, 11);
    var offer := Offer(creditor, debtor, 10, 2, 1, CREDITOR_SIGNATURE);
    var proxy := new CreditorProxy(200, 201, 202, SignerOf(CreditorCommitmentHash(offer)), token, owner);

    var forged := offer.(creditorSignature := Signature(28, 5, 5));
    var outcome := proxy.FillDebtOffer(forged);
    assert outcome == Error(DEBT_OFFER_NON_CONSENSUAL);

    var malicious := offer.(termsContract := 999);
    proxy.TamperedOfferNonConsensual(offer, malicious);
    outcome := proxy.FillDebtOffer(malicious);
    assert outcome == Error(DEBT_OFFER_NON_CONSENSUAL);

    var resalted := offer.(salt := 2);
    proxy.TamperedOfferNonConsensual(offer, resalted);
    outcome := proxy.FillDebtOffer(resalted);
    assert outcome == Error(DEBT_OFFER_NON_CONSENSUAL);

    outcome := proxy.FillDebtOffer(offer);
    assert outcome == Error(CREDITOR_BALANCE_OR_ALLOWANCE_INSUFFICIENT);
    assert token.BalanceOf(creditor) == 1000 && proxy.filled == {};
  }
}
