/** DummyToken: an EIP-20 test token whose constructor spreads the supply
    evenly over a list of holders and whose owner may overwrite any balance
    with `setBalance`, shifting the total supply by the difference. */
module Token {
  import opened Evm
  import opened Balances

  datatype Revert =
    | NotOwner               // the `onlyOwner` modifier
    | SafeMathAbort          // SafeMath `sub`/`add` hit its `assert`
    | InsufficientBalance    // EIP-20: the sender's balance is too small
    | InsufficientAllowance  // EIP-20: the spender was not authorised for that much

  datatype Status = Done | Reverted(reason: Revert)

  /** What the constructor's loop leaves in `balances`: every listed holder
      is assigned (not credited) `supply / n`; with no holders nothing is set. */
  function Distribution(holders: seq<Address>, supply: Uint256): Table
  {
    if |holders| == 0 then map[]
    else map a | a in holders :: supply / |holders|
  }

  /** A listed holder gets one share however often it is listed; everybody
      else keeps a zero balance. */
  lemma DistributionShares(holders: seq<Address>, supply: Uint256, a: Address)
    ensures a in holders ==> BalanceOf(Distribution(holders, supply), a) == supply / |holders|
    ensures a !in holders ==> BalanceOf(Distribution(holders, supply), a) == 0
  {
  }

  /** The accounts named in a holder list. */
  function Holders(s: seq<Address>): set<Address>
  {
    set a | a in s
  }

  lemma {:induction false} HolderCount(s: seq<Address>)
    ensures |Holders(s)| <= |s|
    ensures NoDuplicates(s) ==> |Holders(s)| == |s|
  {
    if s != [] {
      var all, rest := Holders(s), Holders(s[1..]);
      HolderCount(s[1..]);
      assert all == {s[0]} + rest;
      if s[0] in rest {
        assert all == rest;
      } else {
        assert |all| == |rest| + 1;
      }
      if NoDuplicates(s) {
        assert s[0] !in rest;
        assert NoDuplicates(s[1..]) by {
          forall i, j | 0 <= i < j < |s[1..]| ensures s[1..][i] != s[1..][j] {
            assert s[1..][i] == s[i + 1] && s[1..][j] == s[j + 1];
          }
        }
        assert |all| == |rest| + 1 == |s[1..]| + 1 == |s|;
      }
    }
  }

  /** The constructor never hands out more than the total supply; with
      distinct holders exactly the remainder `supply % n` belongs to nobody. */
  lemma DistributionWithinSupply(holders: seq<Address>, supply: Uint256)
    ensures Sum(Distribution(holders, supply)) <= supply
    ensures NoDuplicates(holders) && |holders| > 0 ==>
              Sum(Distribution(holders, supply)) == supply - supply % |holders|
  {
    var m := Distribution(holders, supply);
    if |holders| > 0 {
      SumConstant(m, supply / |holders|);
      assert m.Keys == Holders(holders);
      HolderCount(holders);
      ShareArithmetic(|m|, |holders|, supply);
    }
  }

  lemma ShareArithmetic(k: nat, n: nat, supply: nat)
    requires 0 < n && k <= n
    ensures k * (supply / n) <= supply
    ensures n * (supply / n) == supply - supply % n
  {
    var share := supply / n;
    assert n * share == k * share + (n - k) * share;
  }

  /** The table after `value` moves from `from` to `to`. */
  function Moved(m: Table, from: Address, to: Address, value: Uint256): (r: Table)
    requires value <= BalanceOf(m, from)
    requires from != to ==> BalanceOf(m, to) + value < UINT256_MODULUS
    ensures from != to ==> BalanceOf(r, from) == BalanceOf(m, from) - value
    ensures from != to ==> BalanceOf(r, to) == BalanceOf(m, to) + value
    ensures forall a :: a != from && a != to ==> BalanceOf(r, a) == BalanceOf(m, a)
    ensures from == to ==> forall a :: BalanceOf(r, a) == BalanceOf(m, a)
  {
    var debited := m[from := BalanceOf(m, from) - value];
    debited[to := BalanceOf(debited, to) + value]
  }

  /** A transfer neither creates nor destroys tokens. */
  lemma MovedPreservesSum(m: Table, from: Address, to: Address, value: Uint256)
    requires value <= BalanceOf(m, from)
    requires from != to ==> BalanceOf(m, to) + value < UINT256_MODULUS
    ensures Sum(Moved(m, from, to, value)) == Sum(m)
  {
    var debited := m[from := BalanceOf(m, from) - value];
    DebitThenCreditSum(m, debited, from, to, value);
  }

  lemma DebitThenCreditSum(m: Table, debited: Table, from: Address, to: Address, value: Uint256)
    requires value <= BalanceOf(m, from) && debited == m[from := BalanceOf(m, from) - value]
    requires BalanceOf(debited, to) + value < UINT256_MODULUS
    ensures Sum(debited[to := BalanceOf(debited, to) + value]) == Sum(m)
  {
    DebitSum(m, from, value);
    CreditSum(debited, to, value);
  }

  lemma CreditSum(m: Table, to: Address, value: Uint256)
    requires BalanceOf(m, to) + value < UINT256_MODULUS
    ensures Sum(m[to := BalanceOf(m, to) + value]) == Sum(m) + value
  {
    SumUpdate(m, to, BalanceOf(m, to) + value);
  }

  lemma DebitSum(m: Table, from: Address, value: Uint256)
    requires value <= BalanceOf(m, from)
    ensures Sum(m[from := BalanceOf(m, from) - value]) + value == Sum(m)
  {
    SumUpdate(m, from, BalanceOf(m, from) - value);
  }

  /** When the balances are covered by a supply that fits in 256 bits, a
      credit to a second account cannot overflow. */
  lemma CoveredCreditFits(m: Table, supply: Uint256, from: Address, to: Address, value: Uint256)
    requires Sum(m) <= supply && value <= BalanceOf(m, from) && from != to
    ensures BalanceOf(m, to) + value < UINT256_MODULUS
  {
    TwoBalancesAtMostSum(m, from, to);
  }

  /** `setBalance`'s new supply: `sub(currBalance.sub(value))` when the
      balance falls, `add(value.sub(currBalance))` otherwise. */
  function SupplyAfterSetBalance(supply: Uint256, current: Uint256, value: Uint256): (r: Option<Uint256>)
    ensures r.Some? <==> 0 <= supply - current + value < UINT256_MODULUS
    ensures r.Some? ==> r.value == supply - current + value
  {
    if value < current then
      match SafeSub(current, value)
      case Some(decrease) => SafeSub(supply, decrease)
      case None => None
    else
      match SafeSub(value, current)
      case Some(increase) => SafeAdd(supply, increase)
      case None => None
  }

  /** While the supply covers the balances the decreasing branch never
      underflows: `setBalance` by the owner aborts only on overflow. */
  lemma CoveredSetBalanceOnlyOverflows(m: Table, supply: Uint256, target: Address, value: Uint256)
    requires Sum(m) <= supply
    ensures SupplyAfterSetBalance(supply, BalanceOf(m, target), value).None?
        <==> supply - BalanceOf(m, target) + value >= UINT256_MODULUS
  {
    BalanceAtMostSum(m, target);
  }

  /** `totalSupply_ - Σ balances` is the same before and after a `setBalance`. */
  lemma SetBalanceConservesSurplus(m: Table, supply: Uint256, target: Address, value: Uint256)
    requires SupplyAfterSetBalance(supply, BalanceOf(m, target), value).Some?
    ensures SupplyAfterSetBalance(supply, BalanceOf(m, target), value).value - Sum(m[target := value])
         == supply - Sum(m)
  {
    SumUpdate(m, target, value);
  }

  predicate SameBalances(m1: Table, m2: Table)
  {
    forall a :: BalanceOf(m1, a) == BalanceOf(m2, a)
  }

  class DummyToken {
    var owner: Address
    var name: string
    var symbol: string
    var decimals: Uint256
    var totalSupply: Uint256
    var balances: Table
    /** `allowed[holder][spender]`, keyed by the pair. */
    var allowed: map<(Address, Address), Uint256>

    /** The supply covers every balance. */
    ghost predicate Valid()
      reads this
    {
      Sum(balances) <= totalSupply
    }

    /** `totalSupply_` minus the sum of all balances: the part of the supply
        nobody holds. */
    ghost function Surplus(): int
      reads this
    {
      totalSupply - Sum(balances)
    }

    /** EIP-20 `balanceOf`: the stored balance, 0 for an account never written. */
    function BalanceOf(a: Address): (balance: Uint256)
      reads this
      ensures a !in balances ==> balance == 0
      ensures a in balances ==> balance == balances[a]
    {
      Balances.BalanceOf(balances, a)
    }

    /** While the supply covers the balances, no account holds more than the
        supply. */
    lemma BalanceWithinSupply(a: Address)
      requires Valid()
      ensures BalanceOf(a) <= totalSupply
    {
      BalanceAtMostSum(balances, a);
    }

    /** EIP-20 `allowance`: 0 for a pair never approved. */
    function Allowance(holder: Address, spender: Address): (remaining: Uint256)
      reads this
      ensures (holder, spender) !in allowed ==> remaining == 0
      ensures (holder, spender) in allowed ==> remaining == allowed[(holder, spender)]
    {
      if (holder, spender) in allowed then allowed[(holder, spender)] else 0
    }

    /** The constructor; `sender` becomes the owner, as `Ownable` does. */
    constructor (sender: Address, name: string, symbol: string, decimals: Uint256,
                 totalSupply: Uint256, initialBalanceHolders: seq<Address>)
      ensures owner == sender && this.name == name && this.symbol == symbol
      ensures this.decimals == decimals && this.totalSupply == totalSupply
      ensures balances == Distribution(initialBalanceHolders, totalSupply)
      ensures allowed == map[]
      ensures Valid()
    {
      owner := sender;
      this.name := name;
      this.symbol := symbol;
      this.decimals := decimals;
      this.totalSupply := totalSupply;
      balances := map[];
      allowed := map[];
      new;
      var numInitialBalanceHolders := |initialBalanceHolders|;
      var i := 0;
      while i < numInitialBalanceHolders
        invariant 0 <= i <= numInitialBalanceHolders
        invariant owner == sender && this.name == name && this.symbol == symbol
        invariant this.decimals == decimals && this.totalSupply == totalSupply && allowed == map[]
        invariant balances == map a | a in initialBalanceHolders[..i] :: totalSupply / numInitialBalanceHolders
      {
        var account := initialBalanceHolders[i];
        balances := balances[account := this.totalSupply / numInitialBalanceHolders];
        assert initialBalanceHolders[..i + 1] == initialBalanceHolders[..i] + [account];
        i := i + 1;
      }
      assert initialBalanceHolders[..numInitialBalanceHolders] == initialBalanceHolders;
      DistributionWithinSupply(initialBalanceHolders, totalSupply);
    }

    /** `setBalance(_target, _value)`, owner only. */
    method SetBalance(sender: Address, target: Address, value: Uint256) returns (r: Status)
      modifies this
      ensures sender != old(owner) ==> r == Reverted(NotOwner)
      ensures r == Done <==>
                sender == old(owner) && SupplyAfterSetBalance(old(totalSupply), old(BalanceOf(target)), value).Some?
      ensures r.Reverted? ==> unchanged(this)
      ensures r == Done ==>
                && totalSupply == old(totalSupply) - old(BalanceOf(target)) + value
                && balances == old(balances)[target := value]
                && owner == old(owner) && allowed == old(allowed)
                && name == old(name) && symbol == old(symbol) && decimals == old(decimals)
      ensures Surplus() == old(Surplus())
      ensures old(Valid()) ==> Valid()
      ensures old(BalanceOf(target)) == value ==>
                totalSupply == old(totalSupply) && SameBalances(balances, old(balances))
    {
      if sender != owner {
        return Reverted(NotOwner);
      }
      var currBalance := BalanceOf(target);
      var newSupply := SupplyAfterSetBalance(totalSupply, currBalance, value);
      if newSupply.None? {
        return Reverted(SafeMathAbort);
      }
      SetBalanceConservesSurplus(balances, totalSupply, target, value);
      totalSupply := newSupply.value;
      balances := balances[target := value];
      r := Done;
    }

    /** EIP-20 `approve`: the allowance is set, not added to. */
    method Approve(sender: Address, spender: Address, value: Uint256) returns (r: Status)
      modifies this
      ensures r == Done
      ensures allowed == old(allowed)[(sender, spender) := value]
      ensures Allowance(sender, spender) == value
      ensures owner == old(owner) && totalSupply == old(totalSupply) && balances == old(balances)
      ensures name == old(name) && symbol == old(symbol) && decimals == old(decimals)
    {
      allowed := allowed[(sender, spender) := value];
      r := Done;
    }

    /** EIP-20 `transfer` from `sender` to `to`. */
    method Transfer(sender: Address, to: Address, value: Uint256) returns (r: Status)
      requires Valid()
      modifies this
      ensures Valid()
      ensures r == Done <==> value <= old(BalanceOf(sender))
      ensures r.Reverted? ==> unchanged(this)
      ensures r == Done ==>
                && old(sender != to ==> BalanceOf(to) + value < UINT256_MODULUS)
                && balances == Moved(old(balances), sender, to, value)
                && Sum(balances) == old(Sum(balances))
                && owner == old(owner) && totalSupply == old(totalSupply) && allowed == old(allowed)
                && name == old(name) && symbol == old(symbol) && decimals == old(decimals)
    {
      if value > BalanceOf(sender) {
        return Reverted(InsufficientBalance);
      }
      if sender != to {
        CoveredCreditFits(balances, totalSupply, sender, to, value);
      }
      MovedPreservesSum(balances, sender, to, value);
      balances := Moved(balances, sender, to, value);
      r := Done;
    }

    /** EIP-20 `transferFrom`: `spender` moves `value` from `from` to `to`
        against the allowance `from` granted it. */
    method TransferFrom(spender: Address, from: Address, to: Address, value: Uint256) returns (r: Status)
      requires Valid()
      modifies this
      ensures Valid()
      ensures r == Done <==> value <= old(BalanceOf(from)) && value <= old(Allowance(from, spender))
      ensures r.Reverted? ==> unchanged(this)
      ensures r == Done ==>
                && old(from != to ==> BalanceOf(to) + value < UINT256_MODULUS)
                && balances == Moved(old(balances), from, to, value)
                && Sum(balances) == old(Sum(balances))
                && allowed == old(allowed)[(from, spender) := old(Allowance(from, spender)) - value]
                && owner == old(owner) && totalSupply == old(totalSupply)
                && name == old(name) && symbol == old(symbol) && decimals == old(decimals)
    {
      if value > BalanceOf(from) {
        return Reverted(InsufficientBalance);
      }
      var allowance := Allowance(from, spender);
      if value > allowance {
        return Reverted(InsufficientAllowance);
      }
      if from != to {
        CoveredCreditFits(balances, totalSupply, from, to, value);
      }
      MovedPreservesSum(balances, from, to, value);
      balances := Moved(balances, from, to, value);
      allowed := allowed[(from, spender) := allowance - value];
      r := Done;
    }
  }

  /** Two identical `setBalance` calls: the second changes nothing. */
  method SetBalanceTwice(token: DummyToken, sender: Address, target: Address, value: Uint256)
    modifies token
  {
    var first := token.SetBalance(sender, target, value);
    if first == Done {
      var supply, table := token.totalSupply, token.balances;
      var second := token.SetBalance(sender, target, value);
      assert second == Done;
      assert token.totalSupply == supply && SameBalances(token.balances, table);
    }
  }

  /** The constructor with a duplicated holder and with no holder at all. */
  method ConstructorScenario(deployer: Address, holder: Address, other: Address)
    requires holder != other
  {
    var t := new DummyToken(deployer, "Dummy", "DUM", 18, 10, [holder, other, holder]);
    assert t.BalanceOf(holder) == 3 && t.BalanceOf(other) == 3;
    assert t.owner == deployer && t.totalSupply == 10;
    var empty := new DummyToken(deployer, "Dummy", "DUM", 18, 10, []);
    assert empty.balances == map[] && empty.totalSupply == 10;
  }
}
