/** The split between accounts and the system account, seen from outside: a simple store of tokens. */
module SplitStorage {
  import opened Bytes
  import opened Results
  import opened Keys
  import opened Tokens
  import opened Storage
  import opened Totals
  import opened Locks

  /** The metadata that a read of a key finds after a save. */
  function MetaDataAfter(s: ShardState, k: bytes, t: DCToken, mustUpdate: bool): Option<MetaData> {
    if mustUpdate || k !in s.system then t.metadata else s.system[k].metadata
  }

  /** What was saved is what is read back. */
  lemma SaveThenRead(cfg: Config, s: ShardState, sender: Address, a: Address, token: bytes, nonce: nat, t: DCToken,
      mustUpdate: bool, ret: bool)
    requires cfg.flags.saveToSystem && nonce > 0 && t.value > 0 && t.metadata.Some?
    requires SaveToken(cfg, s, sender, a, token, nonce, t, mustUpdate, ret).Ok?
    ensures var s' := SaveToken(cfg, s, sender, a, token, nonce, t, mustUpdate, ret).value;
            Read(cfg, s', a, token, nonce)
              == (DCToken(t.kind, t.value, t.properties, MetaDataAfter(s, KeyOf(token, nonce), t, mustUpdate), []),
                false)
  {
    hide CheckProperties;
  }

  /** Before the split the account keeps the whole token, and the system account nothing. */
  lemma SaveThenReadUnsplit(cfg: Config, s: ShardState, sender: Address, a: Address, token: bytes, nonce: nat,
      t: DCToken, mustUpdate: bool, ret: bool)
    requires !cfg.flags.saveToSystem && t.value > 0
    requires SaveToken(cfg, s, sender, a, token, nonce, t, mustUpdate, ret).Ok?
    ensures var s' := SaveToken(cfg, s, sender, a, token, nonce, t, mustUpdate, ret).value;
            Read(cfg, s', a, token, nonce) == (t, false) && s'.system == s.system
  {
    hide CheckProperties;
  }

  /** A new record counts, unless the account still has the token with its metadata and such tokens are left out. */
  lemma NewRecordCounts(cfg: Config, s: ShardState, sender: Address, a: Address, token: bytes, nonce: nat, t: DCToken,
      mustUpdate: bool, ret: bool)
    requires cfg.flags.saveToSystem && cfg.flags.sendAlways && nonce > 0 && t.metadata.Some?
    requires KeyOf(token, nonce) !in s.system && SaveToken(cfg, s, sender, a, token, nonce, t, mustUpdate, ret).Ok?
    ensures var s', k := SaveToken(cfg, s, sender, a, token, nonce, t, mustUpdate, ret).value, KeyOf(token, nonce);
            k in s'.system && (s'.system[k].reserved == [] <==>
              cfg.flags.fixOldLiquidity && Entry(s, a, k).Some? && Entry(s, a, k).value.metadata.Some?)
  {
    hide CheckProperties;
  }

  lemma SaveRecords(cfg: Config, s: ShardState, sender: Address, a: Address, token: bytes, nonce: nat, t: DCToken,
      mustUpdate: bool, ret: bool)
    requires SaveToken(cfg, s, sender, a, token, nonce, t, mustUpdate, ret).Ok?
    ensures var s', k := SaveToken(cfg, s, sender, a, token, nonce, t, mustUpdate, ret).value, KeyOf(token, nonce);
            && SameRecordsBut(s, s', k)
            && (cfg.flags.saveToSystem && nonce > 0 && t.metadata.Some? ==>
                k in s'.system && s'.system[k].metadata == MetaDataAfter(s, k, t, mustUpdate))
  {
    hide CheckProperties;
    SaveTokenEffect(cfg, s, sender, a, token, nonce, t, mustUpdate, ret);
  }

  /** Two reads that agree on everything but the metadata. */
  predicate SameHolding(x: (DCToken, bool), y: (DCToken, bool)) {
    x.1 == y.1 && x.0.kind == y.0.kind && x.0.value == y.0.value && x.0.properties == y.0.properties
  }

  /** Every other account's holding is as it was, and so is the metadata of every other token. */
  lemma SaveLeavesOthers(cfg: Config, s: ShardState, sender: Address, a: Address, token: bytes, nonce: nat, t: DCToken,
      mustUpdate: bool, ret: bool, b: Address, other: bytes, m: nat)
    requires ValidToken(token) && ValidToken(other) && (b, other, m) != (a, token, nonce)
    requires SaveToken(cfg, s, sender, a, token, nonce, t, mustUpdate, ret).Ok?
    ensures var s' := SaveToken(cfg, s, sender, a, token, nonce, t, mustUpdate, ret).value;
            && SameHolding(Read(cfg, s', b, other, m), Read(cfg, s, b, other, m))
            && ((other, m) != (token, nonce) ==> Read(cfg, s', b, other, m) == Read(cfg, s, b, other, m))
            && ((other, m) == (token, nonce) && nonce > 0 && cfg.flags.saveToSystem && t.metadata.Some? &&
                !Read(cfg, s, b, other, m).1 && MetaDataAfter(s, KeyOf(token, nonce), t, mustUpdate).Some? ==>
                Read(cfg, s', b, other, m).0.metadata == MetaDataAfter(s, KeyOf(token, nonce), t, mustUpdate))
  {
    hide SaveToken;
    SaveTouchesOne(cfg, s, sender, a, token, nonce, t, mustUpdate, ret);
    SaveRecords(cfg, s, sender, a, token, nonce, t, mustUpdate, ret);
    if KeyOf(other, m) == KeyOf(token, nonce) {
      KeyOfInjective(other, m, token, nonce);
    }
  }
}
