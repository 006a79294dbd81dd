/**
 * The liquidity counter: with both storage flags on, a shard's record of a token counts what the shard's accounts hold.
 */
module Liquidity {
  import opened Bytes
  import opened Results
  import opened Keys
  import opened Tokens
  import opened Storage
  import opened Transfers
  import opened Totals
  import opened Moves

  /** Records in the system account, metadata with every message. */
  predicate EraA(cfg: Config) {
    cfg.flags.saveToSystem && cfg.flags.sendAlways && cfg.flags.checkTransfer
  }

  ghost predicate IsNftKey(k: bytes) {
    exists t, n: nat :: ValidToken(t) && n > 0 && k == KeyOf(t, n)
  }

  lemma PlainKey(t: bytes)
    ensures KeyOf(t, 0) == t
    ensures ValidToken(t) ==> !IsNftKey(t)
  {
    assert KeyOf(t, 0) == t;
    forall u, n: nat | ValidToken(t) && ValidToken(u) && n > 0
      ensures t != KeyOf(u, n)
    {
      if t == KeyOf(u, n) {
        KeyOfInjective(t, 0, u, n);
      }
    }
  }

  /** The record of k counts the balances of k up to d; no record means that they add up to d. */
  ghost predicate Backed(s: ShardState, k: bytes, d: int) {
    (k !in s.system ==> Total(s, k) == d) &&
    (k in s.system && s.system[k].reserved != [] ==> s.system[k].value + d == Total(s, k))
  }

  ghost predicate Described(s: ShardState) {
    forall q :: q in s.system ==> s.system[q].metadata.Some?
  }

  /** A shard in the middle of an operation on k that has moved d more than it has counted. */
  ghost predicate SoundBut(s: ShardState, k: bytes, d: int) {
    NonNegative(s) && Described(s) && forall q :: IsNftKey(q) ==> Backed(s, q, if q == k then d else 0)
  }

  /** The invariant between operations. */
  ghost predicate Sound(s: ShardState) {
    NonNegative(s) && Described(s) && forall q :: IsNftKey(q) ==> Backed(s, q, 0)
  }

  /** A new record starts at zero where the balances add up to d; an overwritten one stops counting. */
  lemma RecordSound(cfg: Config, s: ShardState, sender: Address, a: Address, k: bytes, nonce: nat, t: DCToken,
      mustUpdate: bool, d: int)
    requires EraA(cfg) && SoundBut(s, k, d) && Record(cfg, s, sender, a, k, nonce, t, mustUpdate).Ok?
    ensures SoundBut(Record(cfg, s, sender, a, k, nonce, t, mustUpdate).value, k, d)
  {
    var s1 := Record(cfg, s, sender, a, k, nonce, t, mustUpdate).value;
    SameAccounts(s, s1);
    forall q | IsNftKey(q)
      ensures Backed(s1, q, if q == k then d else 0)
    {
      assert Backed(s, q, if q == k then d else 0);
    }
  }

  lemma PutSound(s: ShardState, a: Address, k: bytes, e: Option<DCToken>, d: int)
    requires SoundBut(s, k, d) && Value(e) >= 0
    ensures SoundBut(Put(s, a, k, e), k, d + Value(e) - Balance(s, a, k))
  {
    var s' := Put(s, a, k, e);
    PutAdds(s, a, k, e);
    AddsKeepsNonNegative(s, s', a, k, Value(e) - Balance(s, a, k));
    forall q | IsNftKey(q)
      ensures Backed(s', q, if q == k then d + Value(e) - Balance(s, a, k) else 0)
    {
      assert Backed(s, q, if q == k then d else 0);
      assert Total(s', q) == Total(s, q) + if q == k then Value(e) - Balance(s, a, k) else 0;
    }
  }

  lemma SaveSound(cfg: Config, s: ShardState, sender: Address, a: Address, token: bytes, nonce: nat,
                  t: DCToken, mustUpdate: bool, ret: bool, d: int)
    requires EraA(cfg) && SoundBut(s, KeyOf(token, nonce), d)
    requires SaveToken(cfg, s, sender, a, token, nonce, t, mustUpdate, ret).Ok?
    ensures var k := KeyOf(token, nonce);
            SoundBut(SaveToken(cfg, s, sender, a, token, nonce, t, mustUpdate, ret).value, k,
                     d + (if t.value > 0 then t.value else 0) - Balance(s, a, k))
  {
    var k := KeyOf(token, nonce);
    var s1 := Record(cfg, s, sender, a, k, nonce, t, mustUpdate).value;
    RecordSound(cfg, s, sender, a, k, nonce, t, mustUpdate, d);
    assert Balance(s1, a, k) == Balance(s, a, k);
    PutSound(s1, a, k, Kept(cfg, t), d);
  }

  lemma LiquiditySound(cfg: Config, s: ShardState, token: bytes, nonce: nat, v: int, d: int)
    requires EraA(cfg) && ValidToken(token) && SoundBut(s, KeyOf(token, nonce), d)
    requires AddLiquidity(cfg, s, token, nonce, v).Ok?
    ensures SoundBut(AddLiquidity(cfg, s, token, nonce, v).value, KeyOf(token, nonce), d - v)
  {
    var k := KeyOf(token, nonce);
    var s' := AddLiquidity(cfg, s, token, nonce, v).value;
    PlainKey(token);
    AddLiquidityEffect(cfg, s, token, nonce, v);
    SameAccounts(s, s');
    forall q | IsNftKey(q)
      ensures Backed(s', q, if q == k then d - v else 0)
    {
      assert Backed(s, q, if q == k then d else 0);
    }
  }

  lemma SoundIsSoundBut(s: ShardState, k: bytes)
    ensures Sound(s) <==> SoundBut(s, k, 0)
  {
    if SoundBut(s, k, 0) {
      forall q | IsNftKey(q)
        ensures Backed(s, q, 0)
      {
        assert Backed(s, q, if q == k then 0 else 0);
      }
    }
  }

  /** Metadata is available wherever a token is held. */
  lemma HeldIsRecorded(s: ShardState, a: Address, k: bytes)
    requires Sound(s) && IsNftKey(k) && Balance(s, a, k) > 0
    ensures k in s.system && s.system[k].metadata.Some?
    ensures s.system[k].reserved != [] ==> s.system[k].value >= Balance(s, a, k)
  {
    TotalCovers(s, a, k);
    assert Backed(s, k, 0);
  }

  /** The liquidity update of a covered debit cannot fail. */
  lemma DebitedLiquiditySucceeds(cfg: Config, s: ShardState, a: Address, token: bytes, nonce: nat, v: nat, short: Error,
      ret: bool)
    requires EraA(cfg) && Sound(s) && ValidToken(token) && nonce > 0 && v > 0
    requires Debit(cfg, s, a, token, nonce, v, short, ret).Ok?
    ensures AddLiquidity(cfg, Debit(cfg, s, a, token, nonce, v, short, ret).value.0, token, nonce, 0 - v).Ok?
  {
    var k := KeyOf(token, nonce);
    var s1 := Debit(cfg, s, a, token, nonce, v, short, ret).value.0;
    DebitEffect(cfg, s, a, token, nonce, v, short, ret);
    assert IsNftKey(k);
    HeldIsRecorded(s, a, k);
    assert s1.system == s.system;
  }

  lemma DebitSound(cfg: Config, s: ShardState, snd: Address, token: bytes, nonce: nat, v: nat, short: Error, ret: bool)
    requires EraA(cfg) && Sound(s) && Debit(cfg, s, snd, token, nonce, v, short, ret).Ok?
    ensures SoundBut(Debit(cfg, s, snd, token, nonce, v, short, ret).value.0, KeyOf(token, nonce), 0 - v)
  {
    hide SaveToken;
    var t := ReadOnSender(cfg, s, snd, token, nonce).value;
    ReadValue(cfg, s, snd, token, nonce);
    SoundIsSoundBut(s, KeyOf(token, nonce));
    SaveSound(cfg, s, snd, snd, token, nonce, t.(value := t.value - v), false, ret, 0);
  }

  /** A credit in the sender's shard restores the count; from another shard it is counted on arrival. */
  lemma AddToDestinationSound(cfg: Config, s: ShardState, snd: Address, dst: Address, t: DCToken,
                              token: bytes, nonce: nat, ret: bool, d: int)
    requires EraA(cfg) && ValidToken(token) && t.value >= 0
    requires SoundBut(s, KeyOf(token, nonce), d) && AddToDestination(cfg, s, snd, dst, t, token, nonce, ret).Ok?
    ensures SoundBut(AddToDestination(cfg, s, snd, dst, t, token, nonce, ret).value.0, KeyOf(token, nonce),
                     d + if cfg.SameShard(snd, dst) then t.value else 0)
  {
    hide SaveToken, AddLiquidity, CheckFrozeAndPause;
    var k := KeyOf(token, nonce);
    var current := Read(cfg, s, dst, token, nonce).0;
    ReadValue(cfg, s, dst, token, nonce);
    assert Balance(s, dst, k) >= 0;
    var sum := t.(value := t.value + current.value);
    SaveSound(cfg, s, snd, dst, token, nonce, sum, false, ret, d);
    var s1 := SaveToken(cfg, s, snd, dst, token, nonce, sum, false, ret).value;
    if !cfg.SameShard(snd, dst) {
      LiquiditySound(cfg, s1, token, nonce, t.value, d + t.value);
    }
  }

  /** The second half of a send leaves nothing uncounted. */
  lemma HandSound(cfg: Config, s: ShardState, snd: Address, dst: Address, token: bytes, nonce: nat, t: DCToken,
      ret: bool)
    requires EraA(cfg) && ValidToken(token) && cfg.Here(snd) && t.value >= 0
    requires SoundBut(s, KeyOf(token, nonce), 0 - t.value) && Hand(cfg, s, snd, dst, token, nonce, t, ret).Ok?
    ensures Sound(Hand(cfg, s, snd, dst, token, nonce, t, ret).value.0)
  {
    hide AddToDestination, AddLiquidity;
    if cfg.Here(dst) {
      AddToDestinationSound(cfg, s, snd, dst, t, token, nonce, ret, 0 - t.value);
    } else {
      LiquiditySound(cfg, s, token, nonce, -t.value, 0 - t.value);
    }
    SoundIsSoundBut(Hand(cfg, s, snd, dst, token, nonce, t, ret).value.0, KeyOf(token, nonce));
  }

  /** A balance of a plain token is not counted. */
  lemma AddToBalanceSound(cfg: Config, s: ShardState, a: Address, token: bytes, v: int, ret: bool)
    requires EraA(cfg) && Sound(s) && ValidToken(token) && AddToBalance(cfg, s, a, token, v, ret).Ok?
    ensures Sound(AddToBalance(cfg, s, a, token, v, ret).value)
  {
    var s' := AddToBalance(cfg, s, a, token, v, ret).value;
    AddToBalanceEffect(cfg, s, a, token, v, ret);
    AddsKeepsNonNegative(s, s', a, token, v);
    PlainKey(token);
    forall q | IsNftKey(q)
      ensures Backed(s', q, 0)
    {
      assert Backed(s, q, 0);
      assert Total(s', q) == Total(s, q) + if q == token then v else 0;
    }
  }
}
