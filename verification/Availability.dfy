/**
 * Without the liquidity counter records stay for ever, and every holder of a token has its record in the same shard.
 */
module Availability {
  import opened Bytes
  import opened Results
  import opened Keys
  import opened Tokens
  import opened Storage
  import opened Transfers
  import opened Totals
  import opened Moves
  import opened Liquidity

  /** Records in the system account, metadata sent to each shard once. */
  predicate EraB(cfg: Config) {
    cfg.flags.saveToSystem && !cfg.flags.sendAlways
  }

  /** An NFT entry without a record is an empty one that a freeze left behind. */
  ghost predicate Documented(s: ShardState) {
    forall a, q :: IsNftKey(q) && Entry(s, a, q).Some? && q !in s.system ==>
      Entry(s, a, q).value.value == 0 && IsFrozen(Entry(s, a, q).value.properties)
  }

  ghost predicate Available(s: ShardState) {
    NonNegative(s) && Described(s) && Documented(s)
  }

  /** No record is lost. */
  ghost predicate KeepsRecords(s: ShardState, s': ShardState) {
    s.system.Keys <= s'.system.Keys
  }

  lemma RecordKeeps(cfg: Config, s: ShardState, sender: Address, a: Address, k: bytes, nonce: nat, t: DCToken,
      mustUpdate: bool)
    requires EraB(cfg) && Available(s) && Record(cfg, s, sender, a, k, nonce, t, mustUpdate).Ok?
    ensures var s1 := Record(cfg, s, sender, a, k, nonce, t, mustUpdate).value;
            Available(s1) && KeepsRecords(s, s1) && (nonce > 0 && t.metadata.Some? ==> k in s1.system)
  {
    var s1 := Record(cfg, s, sender, a, k, nonce, t, mustUpdate).value;
    assert s1.accounts == s.accounts;
    assert forall b, q :: Entry(s1, b, q) == Entry(s, b, q);
    assert forall b, q :: Balance(s1, b, q) == Balance(s, b, q);
  }

  lemma PutKeeps(s: ShardState, a: Address, k: bytes, e: Option<DCToken>)
    requires Available(s) && Value(e) >= 0
    requires e.Some? && IsNftKey(k) && k !in s.system ==> e.value.value == 0 && IsFrozen(e.value.properties)
    ensures Available(Put(s, a, k, e))
  {
    var s' := Put(s, a, k, e);
    PutAdds(s, a, k, e);
    AddsKeepsNonNegative(s, s', a, k, Value(e) - Balance(s, a, k));
    assert forall b, q :: Entry(s', b, q) == if b == a && q == k then e else Entry(s, b, q);
  }

  /** A save keeps every holder documented if the token brings metadata or its record is here. */
  lemma SaveKeeps(cfg: Config, s: ShardState, sender: Address, a: Address, token: bytes, nonce: nat,
                  t: DCToken, mustUpdate: bool, ret: bool)
    requires EraB(cfg) && Available(s) && ValidToken(token)
    requires SaveToken(cfg, s, sender, a, token, nonce, t, mustUpdate, ret).Ok?
    requires t.value > 0 && nonce > 0 ==> t.metadata.Some? || KeyOf(token, nonce) in s.system
    ensures var s' := SaveToken(cfg, s, sender, a, token, nonce, t, mustUpdate, ret).value;
            && Available(s') && KeepsRecords(s, s')
            && (nonce > 0 && t.metadata.Some? ==> KeyOf(token, nonce) in s'.system)
  {
    var k := KeyOf(token, nonce);
    RecordKeeps(cfg, s, sender, a, k, nonce, t, mustUpdate);
    PlainKey(token);
    PutKeeps(Record(cfg, s, sender, a, k, nonce, t, mustUpdate).value, a, k, Kept(cfg, t));
  }

  /** What a holder reads carries the metadata. */
  lemma ReadIsDescribed(cfg: Config, s: ShardState, a: Address, token: bytes, nonce: nat)
    requires cfg.flags.saveToSystem && Described(s) && nonce > 0 && KeyOf(token, nonce) in s.system &&
      Entry(s, a, KeyOf(token, nonce)).Some?
    ensures Read(cfg, s, a, token, nonce).0.metadata.Some?
  {
  }

  lemma DebitKeeps(cfg: Config, s: ShardState, snd: Address, token: bytes, nonce: nat, v: nat, short: Error, ret: bool)
    requires EraB(cfg) && Available(s) && ValidToken(token) && Debit(cfg, s, snd, token, nonce, v, short, ret).Ok?
    ensures var (s1, sent) := Debit(cfg, s, snd, token, nonce, v, short, ret).value;
            Available(s1) && KeepsRecords(s, s1) &&
              (nonce > 0 && sent.metadata.Some? ==> KeyOf(token, nonce) in s1.system)
  {
    hide SaveToken;
    var t := ReadOnSender(cfg, s, snd, token, nonce).value;
    ReadValue(cfg, s, snd, token, nonce);
    assert nonce > 0 ==> IsNftKey(KeyOf(token, nonce));
    SaveKeeps(cfg, s, snd, snd, token, nonce, t.(value := t.value - v), false, ret);
  }

  lemma AddToDestinationKeeps(cfg: Config, s: ShardState, snd: Address, dst: Address, t: DCToken,
                              token: bytes, nonce: nat, ret: bool)
    requires EraB(cfg) && Available(s) && ValidToken(token)
    requires nonce > 0 && t.value > 0 ==> t.metadata.Some? || KeyOf(token, nonce) in s.system
    requires t.value >= 0 && AddToDestination(cfg, s, snd, dst, t, token, nonce, ret).Ok?
    ensures var s' := AddToDestination(cfg, s, snd, dst, t, token, nonce, ret).value.0;
            && Available(s') && KeepsRecords(s, s')
            && (nonce > 0 && t.metadata.Some? ==> KeyOf(token, nonce) in s'.system)
  {
    hide SaveToken, CheckFrozeAndPause;
    var sum := t.(value := t.value + Read(cfg, s, dst, token, nonce).0.value);
    ReadValue(cfg, s, dst, token, nonce);
    assert nonce > 0 ==> IsNftKey(KeyOf(token, nonce));
    SaveKeeps(cfg, s, snd, dst, token, nonce, sum, false, ret);
  }

  lemma AddToBalanceKeeps(cfg: Config, s: ShardState, a: Address, token: bytes, v: int, ret: bool)
    requires Available(s) && ValidToken(token) && AddToBalance(cfg, s, a, token, v, ret).Ok?
    ensures var s' := AddToBalance(cfg, s, a, token, v, ret).value;
            Available(s') && s'.system == s.system
  {
    PlainKey(token);
    var t := ReadData(s, a, token);
    var u := t.(value := t.value + v);
    PutKeeps(s, a, token, if u.value == 0 && NoProperties(u.properties) then None else Some(u));
  }
}
