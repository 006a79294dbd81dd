/** Sums of balances over a shard, and what each storage rule does to balances and sums. */
module Totals {
  import opened Bytes
  import opened Results
  import opened Keys
  import opened Tokens
  import opened Storage

  function Held(acc: Account, k: bytes): int {
    if k in acc.tokens then acc.tokens[k].value else 0
  }

  ghost function SumOver(accounts: map<Address, Account>, dom: set<Address>, k: bytes): int
    requires dom <= accounts.Keys
  {
    if dom == {} then 0
    else
      var a :| a in dom;
      Held(accounts[a], k) + SumOver(accounts, dom - {a}, k)
  }

  /** The sum of all balances of a key in a shard. */
  ghost function Total(s: ShardState, k: bytes): int {
    SumOver(s.accounts, s.accounts.Keys, k)
  }

  lemma {:induction false} SumRemove(accounts: map<Address, Account>, dom: set<Address>, a: Address, k: bytes)
    requires dom <= accounts.Keys && a in dom
    ensures SumOver(accounts, dom, k) == Held(accounts[a], k) + SumOver(accounts, dom - {a}, k)
  {
    var b :| b in dom && SumOver(accounts, dom, k) == Held(accounts[b], k) + SumOver(accounts, dom - {b}, k);
    if a != b {
      SumRemove(accounts, dom - {b}, a, k);
      SumRemove(accounts, dom - {a}, b, k);
      assert dom - {b} - {a} == dom - {a} - {b};
    }
  }

  lemma {:induction false} SumSame(m: map<Address, Account>, n: map<Address, Account>, dom: set<Address>, k: bytes)
    requires dom <= m.Keys && dom <= n.Keys
    requires forall a :: a in dom ==> Held(m[a], k) == Held(n[a], k)
    ensures SumOver(m, dom, k) == SumOver(n, dom, k)
  {
    if dom != {} {
      var a :| a in dom;
      SumRemove(m, dom, a, k);
      SumRemove(n, dom, a, k);
      SumSame(m, n, dom - {a}, k);
    }
  }

  /** Replacing one account changes a sum by what that account holds. */
  lemma UpdateTotal(s: ShardState, s': ShardState, a: Address, acc: Account, k: bytes)
    requires s'.accounts == s.accounts[a := acc]
    ensures Total(s', k) == Total(s, k) - Balance(s, a, k) + Held(acc, k)
  {
    var rest := s.accounts.Keys - {a};
    SumRemove(s'.accounts, s'.accounts.Keys, a, k);
    assert s'.accounts.Keys - {a} == rest;
    SumSame(s.accounts, s'.accounts, rest, k);
    if a in s.accounts {
      SumRemove(s.accounts, s.accounts.Keys, a, k);
    } else {
      assert s.accounts.Keys == rest;
    }
  }

  ghost predicate NonNegative(s: ShardState) {
    forall a, k :: Balance(s, a, k) >= 0
  }

  lemma {:induction false} SumCovers(s: ShardState, dom: set<Address>, a: Address, k: bytes)
    requires NonNegative(s) && dom <= s.accounts.Keys
    ensures SumOver(s.accounts, dom, k) >= 0
    ensures a in dom ==> SumOver(s.accounts, dom, k) >= Balance(s, a, k)
  {
    if dom != {} {
      var b := if a in dom then a else var b :| b in dom; b;
      SumRemove(s.accounts, dom, b, k);
      SumCovers(s, dom - {b}, a, k);
      assert Balance(s, b, k) >= 0;
    }
  }

  /** A sum covers each of its balances. */
  lemma TotalCovers(s: ShardState, a: Address, k: bytes)
    requires NonNegative(s)
    ensures Total(s, k) >= Balance(s, a, k) >= 0
  {
    SumCovers(s, s.accounts.Keys, a, k);
    assert a !in s.accounts ==> Balance(s, a, k) == 0;
  }

  /** From s to s' one balance changes by d, and nothing else does. */
  ghost predicate Adds(s: ShardState, s': ShardState, a: Address, k: bytes, d: int) {
    (forall b, q :: Balance(s', b, q) == Balance(s, b, q) + if b == a && q == k then d else 0) &&
    (forall q :: Total(s', q) == Total(s, q) + if q == k then d else 0)
  }

  function Value(e: Option<DCToken>): int {
    match e
    case Some(t) => t.value
    case None => 0
  }

  lemma PutAdds(s: ShardState, a: Address, k: bytes, e: Option<DCToken>)
    ensures Adds(s, Put(s, a, k, e), a, k, Value(e) - Balance(s, a, k))
  {
    var s' := Put(s, a, k, e);
    forall q
      ensures Total(s', q) == Total(s, q) + if q == k then Value(e) - Balance(s, a, k) else 0
    {
      UpdateTotal(s, s', a, s'.accounts[a], q);
    }
  }

  /** The nonces and the roles of every account are the same. */
  ghost predicate SameBooks(s: ShardState, s': ShardState) {
    forall a :: AccountAt(s', a).nonces == AccountAt(s, a).nonces && AccountAt(s', a).roles == AccountAt(s, a).roles
  }

  lemma PutBooks(s: ShardState, a: Address, k: bytes, e: Option<DCToken>)
    ensures SameBooks(s, Put(s, a, k, e))
  {
  }

  /** Every record but that of k is the same. */
  ghost predicate SameRecordsBut(s: ShardState, s': ShardState, k: bytes) {
    forall q :: q != k ==> (q in s'.system <==> q in s.system) && (q in s.system ==> s'.system[q] == s.system[q])
  }

  /** A save sets one balance, and touches at most the record of the same key. */
  lemma SaveTokenEffect(cfg: Config, s: ShardState, sender: Address, a: Address, token: bytes, nonce: nat,
                        t: DCToken, mustUpdate: bool, ret: bool)
    requires SaveToken(cfg, s, sender, a, token, nonce, t, mustUpdate, ret).Ok?
    ensures var s' := SaveToken(cfg, s, sender, a, token, nonce, t, mustUpdate, ret).value;
            var k := KeyOf(token, nonce);
            && Adds(s, s', a, k, (if t.value > 0 then t.value else 0) - Balance(s, a, k))
            && s'.settings == s.settings && SameBooks(s, s') && SameRecordsBut(s, s', k)
  {
    var k := KeyOf(token, nonce);
    var s1 := Record(cfg, s, sender, a, k, nonce, t, mustUpdate).value;
    assert s1.accounts == s.accounts && s1.settings == s.settings && SameRecordsBut(s, s1, k);
    SameAccounts(s, s1);
    PutAdds(s1, a, k, Kept(cfg, t));
    assert Value(Kept(cfg, t)) == if t.value > 0 then t.value else 0;
  }

  lemma AddToBalanceEffect(cfg: Config, s: ShardState, a: Address, k: bytes, v: int, ret: bool)
    requires AddToBalance(cfg, s, a, k, v, ret).Ok?
    ensures var s' := AddToBalance(cfg, s, a, k, v, ret).value;
            Adds(s, s', a, k, v) && s'.settings == s.settings && SameBooks(s, s') && s'.system == s.system &&
            Balance(s', a, k) >= 0
  {
    hide CheckFrozeAndPause, NoProperties, SameBooks, Total;
    var t := ReadData(s, a, k);
    var u := t.(value := t.value + v);
    PutAdds(s, a, k, if u.value == 0 && NoProperties(u.properties) then None else Some(u));
    PutBooks(s, a, k, if u.value == 0 && NoProperties(u.properties) then None else Some(u));
  }

  /** Liquidity changes only the record of its key. */
  lemma AddLiquidityEffect(cfg: Config, s: ShardState, token: bytes, nonce: nat, v: int)
    requires AddLiquidity(cfg, s, token, nonce, v).Ok?
    ensures var s' := AddLiquidity(cfg, s, token, nonce, v).value;
            s'.accounts == s.accounts && s'.settings == s.settings && SameRecordsBut(s, s', KeyOf(token, nonce))
  {
  }

  lemma SameAccounts(s: ShardState, s': ShardState)
    requires s'.accounts == s.accounts
    ensures forall q :: Total(s', q) == Total(s, q)
    ensures forall b, q :: Balance(s', b, q) == Balance(s, b, q)
    ensures SameBooks(s, s')
  {
  }
}
