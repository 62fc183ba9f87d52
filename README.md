# Debt-agreement core of the Dharma "charta" contracts, in Dafny

This project models four parts of the Dharma protocol contracts (Solidity 0.4.18) and proves their properties:

- **LTV decision engine** (`ltv_decision_engine.dfy`, module `LTVDecisionEngine`). `computeLTV` computes `collateralTokenPrice * collateralAmount / principalTokenPrice * principalAmount` with unchecked 256-bit multiplications. `evaluate` compares that value with a ceiling `maxLTV` and emits `LogError(4)` when the ceiling is exceeded. The contract has no storage, so the model is functions only.
- **DummyToken** (`dummy_token.dfy`, module `Token`). An EIP-20 test token. Its constructor splits the supply evenly among the initial holders. Its owner-only `setBalance` overwrites one balance and moves the total supply by the difference, using SafeMath. The token is a class with a balances map and a supply counter. The class invariant says the balances never add up to more than the supply.
- **DebtRegistry** (`debt_registry.dfy`, module `Registry`). It has:
  - an owner;
  - two ordered agent lists, one of insert agents and one of edit agents;
  - a table of debt entries keyed by their entry hash.

  Insert agents add entries and edit agents change an entry's creditor. Only the owner manages the agents and the ownership.
- **CreditorProxy fill** (`creditor_proxy.dfy`, module `Proxy`). `fillDebtOffer` takes a debt offer signed by a creditor.
  - While the proxy is paused, the call reverts.
  - If a business rule fails, the proxy logs `LogError(proxy, code, creditor, commitmentHash)` and changes nothing else.
  - Otherwise the proxy:
    - pulls `principalAmount + creditorFee` from the creditor through the token transfer proxy;
    - passes that sum on to the debt kernel;
    - makes the creditor the owner of the new debt token;
    - marks the offer as filled;
    - logs `LogDebtOfferFilled(proxy, creditor, commitmentHash, agreementId)`.

Shared pieces:

- `evm.dfy` (module `Evm`) has the `uint256`, `uint8` and `address` ranges, wrapping multiplication, SafeMath `add`/`sub`, and the `Option` and `Result` types.
- `balances.dfy` (module `Balances`) has the balance table (`mapping(address => uint256)`, which reads 0 where nothing is stored) and the ghost sum of its balances.

Reverts are explicit outcomes (`Status`, `Result`, `FillOutcome`). A reverted call leaves the state unchanged (`unchanged(this)`), which matches the EVM rolling back a failed transaction. The caller's address (`msg.sender`) is an explicit parameter.

The first two components are modelled from their Solidity source. The registry and proxy contract bodies are not part of this model: their behaviour is modelled from what their tests assert, and each choice the tests leave open is listed under "Left out".

- `computeLTV` uses unchecked `*` and `/`: its multiplications wrap modulo 2^256, and only a zero `principalTokenPrice` aborts, through the division-by-zero guard. `ComputeLTV` models exactly that, and `WrapAroundExample` shows a wrapped product accepted against a ceiling of 0.
- The registry's event names are those the registry's tests decode: `LogAddAuthorizedInsertAgent` and its siblings.

## Model

| member | source | states |
|---|---|---|
| Evm.WrappingMul | artifacts/ts/LTVDecisionEngine.ts:110 | solc 0.4.18's unchecked `*`: the exact product when it fits in 256 bits, and otherwise a value congruent to it modulo 2^256 |
| Evm.SafeAdd | artifacts/ts/DummyToken.ts:1931-1933 | SafeMath `add` computes the sum modulo 2^256 and asserts it is not below `a`; that check passes exactly when the true sum fits in 256 bits, and then the result is the true sum |
| Evm.SafeAddSubRoundTrip | artifacts/ts/DummyToken.ts:1761-1763 | SafeMath `sub` undoes a successful `add` and `add` undoes a successful `sub`, for all operands |
| LTVDecisionEngine.ErrorIndex | artifacts/ts/LTVDecisionEngine.ts:182-231 | `uint8(Errors.x)` is below 5, and it is 4 exactly for `LTV_EXCEEDS_MAX`, the fifth enum value |
| LTVDecisionEngine.ComputeLTV | artifacts/ts/LTVDecisionEngine.ts:1174-1300 | `computeLTV` aborts exactly when `principalTokenPrice` is 0; when neither product wraps, dividing before the last multiplication gives at most the exact `c*ca*pa / p` and falls short of it by less than `principalAmount` |
| LTVDecisionEngine.Evaluate | artifacts/ts/LTVDecisionEngine.ts:769-1002 | `evaluate` returns false exactly when `computeLTV > maxLTV` (so equality accepts); a rejection emits exactly `[LogError(uint8(LTV_EXCEEDS_MAX))]` and an acceptance emits nothing; a zero principal price aborts |
| LTVDecisionEngine.RejectionLogsIndexFour | artifacts/ts/LTVDecisionEngine.ts:822-966 | a rejecting `evaluate` emits one event, whose `errorIndex` is 4 |
| LTVDecisionEngine.EvaluateIgnoresUncheckedInputs | artifacts/ts/LTVDecisionEngine.ts:622-768 | the outcome of `evaluate` does not depend on `priceFeedOperator`, `creditor`, `creditorSignature` or `expirationTimestamp` (those checks exist only as comments) |
| LTVDecisionEngine.EvaluateMonotoneInCeiling | artifacts/ts/LTVDecisionEngine.ts:769-1002 | raising `maxLTV` never turns an acceptance into a rejection |
| LTVDecisionEngine.WorkedExample | artifacts/ts/LTVDecisionEngine.ts:110 | `computeLTV(100, 50, 10, 20) = 100`; a ceiling of 50 rejects it with `LogError(4)`, and ceilings of 150 and of exactly 100 accept it with no event |
| LTVDecisionEngine.DivisionFirstExample | artifacts/ts/LTVDecisionEngine.ts:1174-1300 | the division truncates before the last multiplication: `computeLTV(3, 1, 3, 1) = 0`, not 1 |
| LTVDecisionEngine.WrapAroundExample | artifacts/ts/LTVDecisionEngine.ts:110 | a collateral value of exactly 2^256 wraps to 0, so even `maxLTV = 0` accepts |
| Token.DistributionShares | artifacts/ts/DummyToken.ts:1319-1432 | after construction, every listed holder has `totalSupply / n` and every other address has 0 |
| Token.HolderCount | artifacts/ts/DummyToken.ts:1093-1441 | a holder list names at most as many distinct holders as it has entries, and exactly as many when it has no duplicates |
| Token.DistributionWithinSupply | artifacts/ts/DummyToken.ts:1093-1441 | the constructor's balances add up to at most the supply, because a duplicated holder is assigned rather than credited twice; for distinct holders they add up to exactly `supply - supply % n`, so the remainder goes to nobody |
| Token.SupplyAfterSetBalance | artifacts/ts/DummyToken.ts:1655-2044 | `setBalance`'s supply update through `sub`/`add` succeeds exactly when `supply - old + value` lies in `[0, 2^256)`, and then equals it |
| Token.CoveredSetBalanceOnlyOverflows | artifacts/ts/DummyToken.ts:1761-1763 | while the balances add up to at most the supply, the `sub` branch never underflows; only the `add` branch can abort |
| Token.SetBalanceConservesSurplus | artifacts/ts/DummyToken.ts:1655-2044 | a successful `setBalance` keeps `totalSupply - Σ balances` unchanged |
| Token.Moved | artifacts/ts/DummyToken.ts:86 | an EIP-20 transfer debits the sender and credits the receiver by the value, and leaves every other balance (or a self-transfer) unchanged |
| Token.MovedPreservesSum | artifacts/ts/DummyToken.ts:230 | a transfer conserves the sum of all balances |
| Token.CoveredCreditFits | artifacts/ts/DummyToken.ts:230 | while the balances add up to at most the supply, crediting a transfer cannot overflow the receiver's balance |
| Token.DummyToken.constructor | artifacts/ts/DummyToken.ts:973-1023 | the constructor stores name, symbol, decimals and supply, makes the deployer the owner, and leaves the balances equal to the even distribution, with the supply invariant established |
| Token.DummyToken.SetBalance | artifacts/ts/DummyToken.ts:1453-2138 | an owner-only call: a non-owner reverts with nothing changed. It succeeds exactly when the supply update neither underflows nor overflows, and then sets the target's balance to `value` and moves the supply by `value - old`, with no other balance touched. The surplus and the supply invariant are preserved, and a repeat of the same call changes nothing |
| Token.DummyToken.BalanceWithinSupply | artifacts/ts/DummyToken.ts:165 | while the supply invariant holds, no account's balance exceeds `totalSupply` |
| Token.DummyToken.Approve | artifacts/ts/DummyToken.ts:45 | EIP-20 `approve` sets the allowance of `(sender, spender)` to `value` and nothing else |
| Token.DummyToken.Transfer | artifacts/ts/DummyToken.ts:230 | EIP-20 `transfer` succeeds exactly when the sender's balance covers the value, moves it, and keeps the supply invariant and the sum |
| Token.DummyToken.TransferFrom | artifacts/ts/DummyToken.ts:86 | EIP-20 `transferFrom` succeeds exactly when both the balance and the allowance cover the value, moves it, and reduces the allowance by it |
| Registry.HashOf | test/ts/debt_registry.ts:96-124 | the entry hash fixes the version, the terms contract and its parameters of the entry it keys |
| Registry.HashOfInjective | test/ts/debt_registry.ts:447-453 | two inserts produce the same hash exactly when they carry the same fields and salt |
| Registry.Without | test/ts/debt_registry.ts:389-444 | revocation leaves exactly the other agents on the list and never makes it longer |
| Registry.WithoutAbsent | test/ts/debt_registry.ts:389-444 | revoking an agent who is not listed leaves the list as it was |
| Registry.WithoutLastAdded | test/ts/debt_registry.ts:389-444 | revoking the agent just added restores the list from before the addition |
| Registry.WithoutNoDuplicates | test/ts/debt_registry.ts:389-444 | revocation keeps the list free of duplicates and shortens it by one |
| Registry.DebtRegistry.constructor | test/ts/debt_registry.ts:131-141 | a fresh registry is owned by its deployer and has no agents and no entries |
| Registry.DebtRegistry.GetAuthorizedInsertAgents | test/ts/debt_registry.ts:143-185 | the insert-agent list never holds an agent twice |
| Registry.DebtRegistry.GetAuthorizedEditAgents | test/ts/debt_registry.ts:264-305 | the edit-agent list never holds an agent twice |
| Registry.DebtRegistry.Get | test/ts/debt_registry.ts:193-223 | `get` succeeds exactly for an inserted hash and returns the stored `[version, creditor, termsContract, termsContractParameters]`, whose fixed fields match the hash; otherwise NotFound |
| Registry.DebtRegistry.GetTermsContractParametersHash | test/ts/debt_registry.ts:220-223 | it returns the hash of the stored parameters exactly for an inserted hash |
| Registry.DebtRegistry.AddAuthorizedInsertAgent | test/ts/debt_registry.ts:143-185 | an owner-only call: the new agent is appended at the end of the insert list and logged; a non-owner reverts with nothing changed |
| Registry.DebtRegistry.AddAuthorizedEditAgent | test/ts/debt_registry.ts:264-305 | an owner-only call: the new agent is appended at the end of the edit list and logged; a non-owner reverts with nothing changed |
| Registry.DebtRegistry.RevokeInsertAgentAuthorization | test/ts/debt_registry.ts:389-444 | an owner-only call: the agent is taken off the insert list, the others keep their order, the revocation is logged, and afterwards the agent is not listed |
| Registry.DebtRegistry.RevokeEditAgentAuthorization | test/ts/debt_registry.ts:389-444 | an owner-only call: the agent is taken off the edit list, the others keep their order, the revocation is logged, and afterwards the agent is not listed |
| Registry.DebtRegistry.Insert | test/ts/debt_registry.ts:188-223 | `insert` succeeds exactly for an insert agent with a non-null creditor and a hash not yet stored. It stores the entry under its hash, logs `LogInsertEntry` and returns the hash. A non-agent, a null creditor and a collision revert with nothing changed |
| Registry.DebtRegistry.ModifyCreditor | test/ts/debt_registry.ts:314-375 | `modifyCreditor` succeeds exactly for an edit agent on a stored hash with a non-null new creditor. Only that entry's creditor changes, and `(hash, old, new)` is logged. Otherwise it reverts with nothing changed: insert agents and others are Unauthorized, and a never-inserted hash is NotFound |
| Registry.DebtRegistry.TransferOwnership | test/ts/debt_registry.ts:464-493 | only the owner may transfer ownership, and afterwards `owner` is the new owner; other callers revert with nothing changed |
| Proxy.CreditorCommitmentHash | test/ts/integration/creditor_proxy.ts:502-504 | the creditor commitment hash names the offer's creditor, the address the signature must recover to |
| Proxy.AgreementIdOf | test/ts/integration/creditor_proxy.ts:319-325 | the agreement id under which the debt token is issued names the offer's debtor, terms contract and salt |
| Proxy.AgreementIdIgnoresCreditorTerms | test/ts/integration/creditor_proxy.ts:319-325 | the agreement id does not depend on the creditor, the creditor fee or the creditor's signature |
| Proxy.CreditorProxy.TamperedOfferNonConsensual | test/ts/integration/creditor_proxy.ts:490-536 | an offer that reuses a consensual offer's signature but differs in any one of the nine committed fields is not consensual, so its fill logs `DEBT_OFFER_NON_CONSENSUAL`; this holds when no signature recovers to the named creditor of two different commitment hashes |
| Proxy.SignerOf | test/ts/integration/creditor_proxy.ts:490-536 | the tests' creditor key: its signature recovers to the creditor over the one hash it signed, so it consents to no other commitment |
| Proxy.CreditorProxy.ConsensualDependsOnlyOnCommitment | test/ts/integration/creditor_proxy.ts:464-536 | two offers with the same commitment hash and signature are both consensual or both not |
| Proxy.CommitmentHashCommits | test/ts/integration/creditor_proxy.ts:464-536 | two offers share a creditor commitment hash exactly when they agree on the nine committed fields the non-consensual cases list |
| Proxy.RelayFits | test/ts/integration/creditor_proxy.ts:309-330 | neither leg of the fill's payment (creditor to proxy, proxy to kernel) overflows a balance |
| Proxy.RelayedEffect | test/ts/integration/creditor_proxy.ts:309-330 | the fill's payment debits the creditor by exactly `principal + creditorFee` and leaves the proxy's balance as it was, and credits the kernel by the same amount; it touches no one else and conserves the sum of balances |
| Proxy.CreditorProxy.constructor | test/ts/integration/creditor_proxy.ts:169-197 | a fresh proxy is unpaused, nothing is filled or cancelled, no debt token is issued and the log is empty |
| Proxy.CreditorProxy.PauseProxy | test/ts/integration/creditor_proxy.ts:368-401 | the owner can pause an unpaused proxy; any other call reverts with nothing changed |
| Proxy.CreditorProxy.UnpauseProxy | test/ts/integration/creditor_proxy.ts:368-401 | the owner can unpause a paused proxy; any other call reverts with nothing changed |
| Proxy.CreditorProxy.FillDebtOffer | test/ts/integration/creditor_proxy.ts:368-536 | `fillDebtOffer` reverts while paused. Each error code is produced exactly under its condition: already filled, cancelled, non-consensual, balance or allowance short. A `principal + creditorFee` overflow reverts, and so does an agreement id that already owns a debt token, each exactly under its condition. An error logs `LogError(proxy, code, creditor, hash)` and changes nothing else. It fills exactly when every check passes, including a balance and allowance equal to the sum. A fill debits the creditor by `principal + creditorFee`, leaves the proxy's balance and the token supply unchanged, gives the creditor the debt token, marks the hash filled, and logs `LogDebtOfferFilled(proxy, creditor, hash, agreementId)` last. It preserves the invariant that there are as many debt tokens as filled offers |
| Proxy.CreditorProxy.Pay | test/ts/integration/creditor_proxy.ts:309-330 | the fill's payment: the token's balances become exactly the two moves creditor→proxy→kernel, the creditor's allowance to the transfer proxy drops by the total, and the token's supply invariant and other fields are kept |
| Proxy.CreditorProxy.Relay | test/ts/integration/creditor_proxy.ts:309-360 | the effects of a fill that passed its checks: the two token transfers, the debt-token owner, the filled mark and the last log |
| Proxy.FundedToken | test/ts/integration/creditor_proxy.ts:199-235 | the tests' set-up: the token owner's `setBalance` and the creditor's `approve` give the creditor a balance and an allowance of exactly the requested amount |

## Left out

- keccak256 is not computed. Entry, parameter, commitment and issuance hashes are datatypes built from the hashed fields, so they are injective by construction. The field order of the real digests is not part of this model.
- ecrecover is not computed. The proxy holds a recovery function, `recover`, as an opaque parameter, and an offer counts as consensual when it recovers to the offer's creditor. Debtor and underwriter signatures are not checked, because their checks belong to the kernel.
- Proxy.CreditorProxy.TamperedOfferNonConsensual takes as a hypothesis that no signature recovers to the named creditor of two different commitment hashes. Real ecrecover gives some address for any hash; the negligible chance that it is the creditor named in a second hash is not modelled.
- The commitment hash covers the nine fields that the non-consensual test cases name. Fields outside that list are not protected by it.
- The multisig and timelock that drive `pause`/`unpause` are not modelled. They appear as owner-only toggles of a `paused` flag.
- The debt kernel, the repayment router, the terms contracts and the token and contract registries are not part of this model. A fill credits the whole `principal + creditorFee` to the kernel's address. The kernel's split among debtor, underwriter and relayer is not modelled, nor are the fee tests, whose bodies are empty.
- The events the token, the registry and the debt token emit during a fill are not modelled. Only the proxy's own log is. The empty "Logs Emitted" test stubs assert nothing either.
- No cancel operation is modelled. The `cancelled` set starts empty, and the check against it is kept.
- The proxy does not check an offer's expiry, because that check belongs to the kernel. The expiry field is part of the commitment hash only.
- Proxy.CreditorProxy.FillDebtOffer: the tests fix no order among its checks, because the invalid-offer test bodies are empty. The model's order is: paused, already filled, cancelled, non-consensual, the `principalAmount + creditorFee` overflow, balance or allowance short, and the agreement already issued.
- Proxy.CreditorProxy.FillDebtOffer reverts when `principalAmount + creditorFee` overflows 256 bits. No test shows this case; it is the model's choice, as SafeMath `add` would do.
- Proxy.AgreementIdOf: the agreement id's field set is the model's choice. It covers repayment router, debtor, underwriter, risk rating, terms contract, its parameters and salt, and leaves out the creditor, the creditor fee and the creditor's signature. The tests only show that the debt token is issued under the offer's agreement id.
- Registry.HashOf: the entry hash's field set is the model's choice. It covers version, creditor, terms contract, parameters and salt, the five arguments the tests pass to `insert` (test/ts/debt_registry.ts:110-116).
- A fill whose agreement id already owns a debt token reverts. This stands for the kernel returning `NULL_ISSUANCE_HASH`, whose test body is empty.
- A proxy holds a single principal token, so the offer's `principalToken` field is not modelled.
- The proxy's ownership transfer and the `contractRegistry` pointer are not modelled.
- Token.DummyToken.Approve, Token.DummyToken.Transfer and Token.DummyToken.TransferFrom inherit their code from OpenZeppelin's `StandardToken`, whose bodies are abstracted to EIP-20: they return true or revert. Events, `mint` and `finishMinting` are not modelled.
- Registry.DebtRegistry: the contract body is not part of this model, so the following choices are the model's own, consistent with every assertion in the tests:
  - adding an agent already on a list and revoking an agent who is not on it are no-ops;
  - revocation keeps the order of the remaining agents;
  - a null creditor and a null new owner are refused;
  - `get` of a never-inserted hash reports NotFound.
- Registry.DebtRegistry events carry no emitting-contract address.
- Test plumbing is not modelled: web3, ABI decoding, chai and block time. `Units.ether` amounts are replaced by small concrete numbers in the scenario methods.
