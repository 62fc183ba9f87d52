/** The balance table of an ERC-20 token (`mapping (address => uint256)`)
    and its total, the quantity every supply invariant is about. */
module Balances {
  import opened Evm

  type Table = map<Address, Uint256>

  /** A Solidity mapping reads 0 at a key that was never written. */
  function BalanceOf(m: Table, a: Address): Uint256
  {
    if a in m then m[a] else 0
  }

  /** The sum of all balances in the table. */
  ghost function Sum(m: Table): nat
    decreases |m|
  {
    if m == map[] then 0
    else
      var k :| k in m;
      m[k] + Sum(m - {k})
  }

  /** Sum does not depend on the key it happens to pick first. */
  lemma {:induction false} SumRemove(m: Table, k: Address)
    requires k in m
    ensures Sum(m) == m[k] + Sum(m - {k})
    decreases |m|
  {
    var j :| j in m && Sum(m) == m[j] + Sum(m - {j});
    if j != k {
      var mj, mk := m - {j}, m - {k};
      assert k in mj && j in mk;
      SumRemove(mj, k);
      SumRemove(mk, j);
      assert mj - {k} == mk - {j};
    }
  }

  /** Overwriting one balance shifts the sum by the difference. */
  lemma SumUpdate(m: Table, k: Address, v: Uint256)
    ensures Sum(m[k := v]) == Sum(m) - BalanceOf(m, k) + v
  {
    var m' := m[k := v];
    SumRemove(m', k);
    if k in m {
      SumRemove(m, k);
      assert m' - {k} == m - {k};
    } else {
      assert m' - {k} == m;
    }
  }

  /** No single balance exceeds the sum. */
  lemma BalanceAtMostSum(m: Table, k: Address)
    ensures BalanceOf(m, k) <= Sum(m)
  {
    if k in m {
      SumRemove(m, k);
    }
  }

  /** Two distinct balances together do not exceed the sum. */
  lemma TwoBalancesAtMostSum(m: Table, j: Address, k: Address)
    requires j != k
    ensures BalanceOf(m, j) + BalanceOf(m, k) <= Sum(m)
  {
    if j in m {
      SumRemove(m, j);
      BalanceAtMostSum(m - {j}, k);
      assert BalanceOf(m - {j}, k) == BalanceOf(m, k);
    } else {
      BalanceAtMostSum(m, k);
    }
  }

  /** A table in which every listed holder has the same balance `c`. */
  lemma {:induction false} SumConstant(m: Table, c: Uint256)
    requires forall a :: a in m ==> m[a] == c
    ensures Sum(m) == |m| * c
    decreases |m|
  {
    if m != map[] {
      var k :| k in m;
      var rest := m - {k};
      SumRemove(m, k);
      SumConstant(rest, c);
      assert |rest| == |m| - 1;
      assert |m| * c == (|rest| + 1) * c == |rest| * c + c;
    }
  }
}
