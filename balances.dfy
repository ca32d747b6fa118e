/** Accounts, amounts and the balance table of the ERC20Token ledger.

    A Solidity `mapping` reads an absent key as zero, so every lookup here
    goes through `Get`. The sum of a balance table is what the ledger keeps
    equal to its fixed total supply; `Move` is the debit-then-credit step
    that both `transfer` and `transferFrom` perform, and `MoveConserves`
    is the reason the sum never changes. */
module Balances {

  /** An account: a 160-bit address, equal to another only when bit-identical. */
  newtype Addr = a: int | 0 <= a < 0x1_0000_0000_0000_0000_0000_0000_0000_0000_0000_0000

  /** 2^256: every amount the contract stores or accepts is a `uint256`. */
  const UINT256_LIMIT: nat := 0x1_0000_0000_0000_0000_0000_0000_0000_0000_0000_0000_0000_0000_0000_0000_0000_0000

  type Uint256 = x: nat | x < UINT256_LIMIT

  /** The value read for a key: the stored one, or zero for a key never written. */
  function Get<K>(m: map<K, Uint256>, k: K): Uint256
  {
    if k in m then m[k] else 0
  }

  /** Some key of a non-empty table (the one `Sum` peels off first). */
  ghost function Pick(m: map<Addr, Uint256>): (k: Addr)
    requires m != map[]
    ensures k in m
  {
    assert m.Keys != {} by {
      assert |m| != 0;
    }
    var k :| k in m.Keys; k
  }

  /** The sum of all balances in a table. */
  ghost function Sum(m: map<Addr, Uint256>): nat
    decreases |m|
  {
    if m == map[] then 0
    else
      var k := Pick(m);
      var rest := m - {k};
      assert |rest| < |m|;
      var first: nat := m[k];
      first + Sum(rest)
  }

  /** The sum unfolded once: the picked balance plus the sum of the rest. */
  lemma SumPick(m: map<Addr, Uint256>)
    requires m != map[]
    ensures Sum(m) == m[Pick(m)] + Sum(m - {Pick(m)})
  {
  }

  /** Whichever key is taken out first, the sum is that balance plus the sum of the rest. */
  lemma {:induction false} SumRemove(m: map<Addr, Uint256>, k: Addr)
    requires k in m
    ensures Sum(m) == m[k] + Sum(m - {k})
    decreases |m|
  {
    assert m != map[] by {
      assert k in m.Keys;
    }
    var j := Pick(m);
    SumPick(m);
    if j != k {
      assert (m - {j}).Keys == m.Keys - {j};
      assert (m - {k}).Keys == m.Keys - {k};
      SumRemove(m - {j}, k);
      SumRemove(m - {k}, j);
      assert m - {j} - {k} == m - {k} - {j};
    }
  }

  /** Overwriting one entry changes the sum by exactly the difference at that key. */
  lemma {:induction false} SumUpdate(m: map<Addr, Uint256>, k: Addr, v: Uint256)
    ensures Sum(m[k := v]) + Get(m, k) == Sum(m) + v
  {
    SumRemove(m[k := v], k);
    if k in m {
      SumRemove(m, k);
      assert m[k := v] - {k} == m - {k};
    } else {
      assert m[k := v] - {k} == m;
    }
  }

  /** Two different accounts together never hold more than the whole table. */
  lemma {:induction false} TwoBalancesAtMostSum(m: map<Addr, Uint256>, x: Addr, y: Addr)
    requires x != y
    ensures Get(m, x) + Get(m, y) <= Sum(m)
  {
    var rest := m;
    if x in m {
      SumRemove(m, x);
      rest := m - {x};
    }
    assert Get(rest, y) == Get(m, y);
    if y in rest {
      SumRemove(rest, y);
    }
  }

  /** No single account holds more than the whole table. */
  lemma {:induction false} BalanceAtMostSum(m: map<Addr, Uint256>, x: Addr)
    ensures Get(m, x) <= Sum(m)
  {
    if x in m {
      SumRemove(m, x);
    }
  }

  /** The table after `amount` is debited from `from` and then credited to
      `to`. The debit needs `from` to hold at least `amount`; the credit
      must fit in a `uint256` (`CreditFits` shows it always does while the
      whole table sums below 2^256). A self-transfer leaves every balance
      as it was. */
  function Move(b: map<Addr, Uint256>, from: Addr, to: Addr, amount: Uint256): (b': map<Addr, Uint256>)
    requires amount <= Get(b, from)
    requires from != to ==> Get(b, to) + amount < UINT256_LIMIT
    ensures from != to ==> Get(b', from) == Get(b, from) - amount
    ensures from != to ==> Get(b', to) == Get(b, to) + amount
    ensures from == to ==> Get(b', from) == Get(b, from)
    ensures forall a :: a != from && a != to ==> Get(b', a) == Get(b, a)
  {
    var debited := b[from := Get(b, from) - amount];
    debited[to := Get(debited, to) + amount]
  }

  /** While the whole table sums below 2^256, crediting an account with an
      amount debited from another one cannot overflow a `uint256`. */
  lemma {:induction false} CreditFits(b: map<Addr, Uint256>, from: Addr, to: Addr, amount: nat)
    requires amount <= Get(b, from)
    requires Sum(b) < UINT256_LIMIT
    ensures from != to ==> Get(b, to) + amount < UINT256_LIMIT
  {
    if from != to {
      TwoBalancesAtMostSum(b, from, to);
    }
  }

  /** Conservation: moving value between accounts leaves the sum of all balances unchanged. */
  lemma {:induction false} MoveConserves(b: map<Addr, Uint256>, from: Addr, to: Addr, amount: Uint256)
    requires amount <= Get(b, from)
    requires from != to ==> Get(b, to) + amount < UINT256_LIMIT
    ensures Sum(Move(b, from, to, amount)) == Sum(b)
  {
    var debited := b[from := Get(b, from) - amount];
    SumUpdate(b, from, Get(b, from) - amount);
    CreditSum(debited, to, amount);
  }

  /** Crediting one account raises the sum by exactly the credited amount. */
  lemma {:induction false} CreditSum(m: map<Addr, Uint256>, to: Addr, amount: nat)
    requires Get(m, to) + amount < UINT256_LIMIT
    ensures Sum(m[to := Get(m, to) + amount]) == Sum(m) + amount
  {
    SumUpdate(m, to, Get(m, to) + amount);
  }

  /** A table holding everything in one account sums to that account's balance. */
  lemma {:induction false} SumSingleton(owner: Addr, v: Uint256)
    ensures Sum(map[owner := v]) == v
  {
    var m := map[owner := v];
    SumRemove(m, owner);
    assert m - {owner} == map[];
  }
}
