/** What transfers and deliveries do to balances, for whole lists and any repetition of tokens in them. */
module Moves {
  import opened Bytes
  import opened Results
  import opened Keys
  import opened Tokens
  import opened Storage
  import opened Transfers
  import opened Totals

  /** The sum of the amounts listed for a key. */
  function Amount(ts: seq<Triple>, k: bytes): nat {
    if ts == [] then 0
    else
      var t := ts[|ts| - 1];
      Amount(ts[..|ts| - 1], k) + if KeyOf(t.token, t.nonce) == k then FromBytes(t.payload) else 0
  }

  lemma AmountSnoc(ts: seq<Triple>)
    requires ts != []
    ensures forall k :: Amount(ts, k) == Amount(ts[..|ts| - 1], k) + Amount([ts[|ts| - 1]], k)
  {
    assert [ts[|ts| - 1]][..0] == [];
  }

  /** The listed amounts left the sender and, in the same shard, reached the destination; nothing else changed. */
  ghost predicate Moved(s: ShardState, s': ShardState, snd: Address, dst: Address, here: bool, ts: seq<Triple>) {
    (forall b, q :: Balance(s', b, q) == Balance(s, b, q) - (if b == snd then Amount(ts, q) else 0)
                                                         + (if here && b == dst then Amount(ts, q) else 0)) &&
    (forall q :: Total(s', q) == Total(s, q) - if here then 0 else Amount(ts, q))
  }

  lemma MovedSnoc(s: ShardState, s1: ShardState, s2: ShardState, snd: Address, dst: Address, here: bool,
      ts: seq<Triple>)
    requires ts != []
    requires Moved(s, s1, snd, dst, here, ts[..|ts| - 1]) && Moved(s1, s2, snd, dst, here, [ts[|ts| - 1]])
    ensures Moved(s, s2, snd, dst, here, ts)
  {
    AmountSnoc(ts);
    forall q
      ensures Total(s2, q) == Total(s, q) - if here then 0 else Amount(ts, q)
    {
      assert Total(s2, q) == Total(s1, q) - if here then 0 else Amount([ts[|ts| - 1]], q);
      assert Total(s1, q) == Total(s, q) - if here then 0 else Amount(ts[..|ts| - 1], q);
    }
  }

  lemma ReadValue(cfg: Config, s: ShardState, a: Address, token: bytes, nonce: nat)
    ensures Read(cfg, s, a, token, nonce).0.value == Balance(s, a, KeyOf(token, nonce))
  {
  }

  lemma AddsKeepsNonNegative(s: ShardState, s': ShardState, a: Address, k: bytes, d: int)
    requires NonNegative(s) && Adds(s, s', a, k, d) && Balance(s, a, k) + d >= 0
    ensures NonNegative(s')
  {
  }

  lemma DebitEffect(cfg: Config, s: ShardState, snd: Address, token: bytes, nonce: nat, v: nat, short: Error, ret: bool)
    requires NonNegative(s) && Debit(cfg, s, snd, token, nonce, v, short, ret).Ok?
    ensures var (s1, t) := Debit(cfg, s, snd, token, nonce, v, short, ret).value;
            var k := KeyOf(token, nonce);
            && Adds(s, s1, snd, k, 0 - v) && NonNegative(s1) && t.value == v <= Balance(s, snd, k)
            && s1.settings == s.settings && SameBooks(s, s1) && SameRecordsBut(s, s1, k)
  {
    hide SaveToken;
    var t := ReadOnSender(cfg, s, snd, token, nonce).value;
    ReadValue(cfg, s, snd, token, nonce);
    SaveTokenEffect(cfg, s, snd, snd, token, nonce, t.(value := t.value - v), false, ret);
    AddsKeepsNonNegative(s, Debit(cfg, s, snd, token, nonce, v, short, ret).value.0, snd, KeyOf(token, nonce), 0 - v);
  }

  lemma AddToDestinationEffect(cfg: Config, s: ShardState, snd: Address, dst: Address, t: DCToken,
                               token: bytes, nonce: nat, ret: bool)
    requires NonNegative(s) && t.value >= 0 && AddToDestination(cfg, s, snd, dst, t, token, nonce, ret).Ok?
    ensures var (s2, u) := AddToDestination(cfg, s, snd, dst, t, token, nonce, ret).value;
            var k := KeyOf(token, nonce);
            && Adds(s, s2, dst, k, t.value) && NonNegative(s2) && u == t.(value := t.value + Balance(s, dst, k))
            && s2.settings == s.settings && SameBooks(s, s2) && SameRecordsBut(s, s2, k)
  {
    hide SaveToken, AddLiquidity, CheckFrozeAndPause;
    var current := Read(cfg, s, dst, token, nonce).0;
    ReadValue(cfg, s, dst, token, nonce);
    var sum := t.(value := t.value + current.value);
    assert Balance(s, dst, KeyOf(token, nonce)) >= 0;
    SaveTokenEffect(cfg, s, snd, dst, token, nonce, sum, false, ret);
    var s1 := SaveToken(cfg, s, snd, dst, token, nonce, sum, false, ret).value;
    var s2 := AddToDestination(cfg, s, snd, dst, t, token, nonce, ret).value.0;
    if !cfg.SameShard(snd, dst) {
      AddLiquidityEffect(cfg, s1, token, nonce, t.value);
      SameAccounts(s1, s2);
    }
    AddsKeepsNonNegative(s, s2, dst, KeyOf(token, nonce), t.value);
  }

  lemma HandEffect(cfg: Config, s: ShardState, snd: Address, dst: Address, token: bytes, nonce: nat, t: DCToken,
      ret: bool)
    requires NonNegative(s) && t.value >= 0 && Hand(cfg, s, snd, dst, token, nonce, t, ret).Ok?
    ensures var (s2, u) := Hand(cfg, s, snd, dst, token, nonce, t, ret).value;
            var k := KeyOf(token, nonce);
            && Adds(s, s2, dst, k, if cfg.Here(dst) then t.value else 0) && NonNegative(s2)
            && (!cfg.Here(dst) ==> u == t)
            && s2.settings == s.settings && SameBooks(s, s2) && SameRecordsBut(s, s2, k)
  {
    hide AddToDestination, AddLiquidity;
    if cfg.Here(dst) {
      AddToDestinationEffect(cfg, s, snd, dst, t, token, nonce, ret);
    } else {
      AddLiquidityEffect(cfg, s, token, nonce, -t.value);
      SameAccounts(s, AddLiquidity(cfg, s, token, nonce, -t.value).value);
    }
  }

  lemma TransferOneEffect(cfg: Config, s: ShardState, snd: Address, dst: Address, t: Triple, ret: bool)
    requires NonNegative(s) && snd != dst && TransferOne(cfg, s, snd, dst, t, ret).Ok?
    ensures var s' := TransferOne(cfg, s, snd, dst, t, ret).value.0;
            Moved(s, s', snd, dst, cfg.Here(dst), [t]) && NonNegative(s') && s'.settings == s.settings &&
              SameBooks(s, s')
  {
    hide Debit, Hand, CheckLimited, Amount, FromBytes, KeyOf, Balance, Total;
    var v := FromBytes(t.payload);
    DebitEffect(cfg, s, snd, t.token, t.nonce, v, InsufficientQuantityDCT, ret);
    var (s1, sent) := Debit(cfg, s, snd, t.token, t.nonce, v, InsufficientQuantityDCT, ret).value;
    HandEffect(cfg, s1, snd, dst, t.token, t.nonce, sent, ret);
    OneAmount(t);
  }

  lemma OneAmount(t: Triple)
    ensures forall q :: Amount([t], q) == if KeyOf(t.token, t.nonce) == q then FromBytes(t.payload) else 0
  {
    assert [t][..0] == [];
  }

  /** A whole list moves, per key, exactly the sum of its amounts. */
  lemma {:induction false} TransferAllEffect(cfg: Config, s: ShardState, snd: Address, dst: Address, ts: seq<Triple>,
      ret: bool)
    requires NonNegative(s) && snd != dst && TransferAll(cfg, s, snd, dst, ts, ret).Ok?
    ensures var s' := TransferAll(cfg, s, snd, dst, ts, ret).value.0;
            Moved(s, s', snd, dst, cfg.Here(dst), ts) && NonNegative(s') && s'.settings == s.settings &&
              SameBooks(s, s')
  {
    if ts != [] {
      var n := |ts| - 1;
      TransferAllEffect(cfg, s, snd, dst, ts[..n], ret);
      var s1 := TransferAll(cfg, s, snd, dst, ts[..n], ret).value.0;
      TransferOneEffect(cfg, s1, snd, dst, ts[n], ret);
      MovedSnoc(s, s1, TransferOne(cfg, s1, snd, dst, ts[n], ret).value.0, snd, dst, cfg.Here(dst), ts);
    } else {
      assert forall q :: Amount(ts, q) == 0;
    }
  }

  /** A successful list was covered, per key, by what the sender held at the start. */
  lemma TransferAllCovered(cfg: Config, s: ShardState, snd: Address, dst: Address, ts: seq<Triple>, ret: bool, k: bytes)
    requires NonNegative(s) && snd != dst && TransferAll(cfg, s, snd, dst, ts, ret).Ok?
    ensures Amount(ts, k) <= Balance(s, snd, k)
  {
    TransferAllEffect(cfg, s, snd, dst, ts, ret);
    assert Balance(TransferAll(cfg, s, snd, dst, ts, ret).value.0, snd, k) >= 0;
  }
}
