/** The storage rules of one shard: how token entries and system records are read and written. */
module Storage {
  import opened Bytes
  import opened Results
  import opened Keys
  import opened Tokens

  predicate IsFrozen(properties: bytes) {
    |properties| == 2 && properties[0] % 2 == 1
  }

  /** GetDCTNFTTokenOnDestination: the token, and whether the account has no entry for it. */
  function Read(cfg: Config, s: ShardState, a: Address, token: bytes, nonce: nat): (DCToken, bool) {
    var k := KeyOf(token, nonce);
    match Entry(s, a, k)
    case None => (NO_TOKEN, true)
    case Some(t) =>
      if cfg.flags.saveToSystem && nonce != 0 && k in s.system && s.system[k].metadata.Some?
      then (t.(metadata := s.system[k].metadata), false)
      else (t, false)
  }

  /** GetDCTNFTTokenOnSender */
  function ReadOnSender(cfg: Config, s: ShardState, a: Address, token: bytes, nonce: nat): Result<DCToken> {
    var (t, isNew) := Read(cfg, s, a, token, nonce);
    if isNew then Err(NewNFTDataOnSenderAddress) else Ok(t)
  }

  /** checkFrozeAndPause */
  function CheckFrozeAndPause(cfg: Config, s: ShardState, a: Address, k: bytes, t: DCToken, ret: bool): Result<()> {
    if ret || a == cfg.systemContract then Ok(())
    else if IsFrozen(t.properties) then Err(DCTIsFrozenForAccount)
    else if SettingsOf(s, k).paused then Err(DCTTokenIsPaused)
    else Ok(())
  }

  /** checkCollectionIsFrozenForAccount */
  function CheckCollection(cfg: Config, s: ShardState, a: Address, token: bytes, nonce: nat, ret: bool): Result<()> {
    if !cfg.flags.checkFrozenCollection || nonce == 0 || ret then Ok(())
    else
      match Entry(s, a, token)
      case Some(t) => Need(!IsFrozen(t.properties), DCTIsFrozenForAccount)
      case None => Ok(())
  }

  /** checkFrozenPauseProperties */
  function CheckProperties(cfg: Config, s: ShardState, a: Address, token: bytes, nonce: nat, t: DCToken,
      ret: bool): Result<()> {
    var _ :- CheckFrozeAndPause(cfg, s, a, token, t, ret);
    var _ :- CheckFrozeAndPause(cfg, s, a, KeyOf(token, nonce), t, ret);
    CheckCollection(cfg, s, a, token, nonce, ret)
  }

  /** AddToLiquiditySystemAcc */
  function AddLiquidity(cfg: Config, s: ShardState, token: bytes, nonce: nat, v: int): Result<ShardState> {
    var k := KeyOf(token, nonce);
    if !cfg.flags.saveToSystem || !cfg.flags.sendAlways || nonce == 0 then Ok(s)
    else if k !in s.system then Err(NilDCTData)
    else
      var r := s.system[k];
      if r.reserved == [] then Ok(s)
      else if cfg.flags.fixOldLiquidity && r.value == 0 && v < 0 then Ok(PutSystem(s, k, Some(r.(reserved := []))))
      else if r.value + v < 0 then Err(InvalidLiquidityForDCT)
      else if r.value + v == 0 then Ok(PutSystem(s, k, None))
      else Ok(PutSystem(s, k, Some(r.(value := r.value + v))))
  }

  function Zeros(n: nat): bytes {
    seq(n, i => 0)
  }

  /** Sets the flag of a shard; the metachain has none. */
  function MarkShard(properties: bytes, shard: nat): Result<bytes> {
    if shard == METACHAIN then Ok(properties)
    else if shard < |properties| then Ok(properties[shard := EXISTS_ON_SHARD])
    else Err(IndexOutOfRange)
  }

  /** An entry from before the split keeps its metadata on the account. */
  predicate IsOldEntry(s: ShardState, a: Address, k: bytes) {
    Entry(s, a, k).Some? && Entry(s, a, k).value.metadata.Some?
  }

  /** The record that saveDCTMetaDataToSystemAccount builds; user is absent when a failed delivery is recorded. */
  function NewRecord(cfg: Config, s: ShardState, user: Option<Address>, senderShard: nat, k: bytes,
      t: DCToken): Result<DCToken> {
    var record := DCToken(t.kind, 0, Zeros(cfg.numShards), t.metadata, []);
    if cfg.flags.sendAlways then
      if k in s.system then Ok(record)
      else if !cfg.flags.fixOldLiquidity then Ok(record.(properties := [], reserved := [1]))
      else if user.None? then Err(NilUserAccount)
      else Ok(record.(properties := [], reserved := if IsOldEntry(s, user.value, k) then [] else [1]))
    else
      var p :- MarkShard(record.properties, cfg.self);
      var q :- MarkShard(p, senderShard);
      Ok(record.(properties := q))
  }

  /** saveDCTMetaDataToSystemAccount */
  function SaveMetaData(cfg: Config, s: ShardState, user: Option<Address>, senderShard: nat, k: bytes, nonce: nat,
                        t: DCToken, mustUpdate: bool): Result<ShardState> {
    if nonce == 0 || t.metadata.None? || (!mustUpdate && k in s.system) then Ok(s)
    else
      var record :- NewRecord(cfg, s, user, senderShard, k, t);
      Ok(PutSystem(s, k, Some(record)))
  }

  /** What an account keeps of a saved token; nothing for an amount that is not positive. */
  function Kept(cfg: Config, t: DCToken): Option<DCToken> {
    if t.value <= 0 then None
    else if !cfg.flags.saveToSystem then Some(t)
    else Some(DCToken(t.kind, t.value, t.properties, None, []))
  }

  /** The system account's half of a save. */
  function Record(cfg: Config, s: ShardState, sender: Address, a: Address, k: bytes, nonce: nat, t: DCToken,
      mustUpdate: bool): Result<ShardState> {
    if cfg.flags.saveToSystem then SaveMetaData(cfg, s, Some(a), cfg.shardOf(sender), k, nonce, t, mustUpdate)
      else Ok(s)
  }

  /** SaveDCTNFTToken */
  function SaveToken(cfg: Config, s: ShardState, sender: Address, a: Address, token: bytes, nonce: nat,
                     t: DCToken, mustUpdate: bool, ret: bool): Result<ShardState> {
    var k := KeyOf(token, nonce);
    var _ :- CheckProperties(cfg, s, a, token, nonce, t, ret);
    var s1 :- Record(cfg, s, sender, a, k, nonce, t, mustUpdate);
    Ok(Put(s1, a, k, Kept(cfg, t)))
  }

  /** WasAlreadySentToDestinationShardAndUpdateState */
  function WasAlreadySent(cfg: Config, s: ShardState, token: bytes, nonce: nat, dst: Address): Result<(ShardState,
      bool)> {
    var k, d := KeyOf(token, nonce), cfg.shardOf(dst);
    if !cfg.flags.saveToSystem then Ok((s, false))
    else if nonce == 0 || d == cfg.self then Ok((s, true))
    else if cfg.flags.sendAlways then Ok((s, false))
    else if d == METACHAIN then Ok((s, true))
    else if k !in s.system then Ok((s, false))
    else
      var r := s.system[k];
      var p := if |r.properties| < cfg.numShards then r.properties + Zeros(cfg.numShards - |r.properties|)
        else r.properties;
      if d >= |p| then Err(IndexOutOfRange)
      else if p[d] > 0 then Ok((s, true))
      else Ok((PutSystem(s, k, Some(r.(properties := p[d := EXISTS_ON_SHARD]))), false))
  }

  /** arePropertiesEmpty */
  predicate NoProperties(p: bytes) {
    forall i :: 0 <= i < |p| ==> p[i] == 0
  }

  /** saveDCTData */
  function SaveData(s: ShardState, a: Address, k: bytes, t: DCToken): ShardState {
    Put(s, a, k, if t.value == 0 && NoProperties(t.properties) then None else Some(t))
  }

  /** getDCTDataFromKey */
  function ReadData(s: ShardState, a: Address, k: bytes): DCToken {
    match Entry(s, a, k)
    case Some(t) => t
    case None => NO_TOKEN
  }

  /** addToDCTBalance */
  function AddToBalance(cfg: Config, s: ShardState, a: Address, k: bytes, v: int, ret: bool): Result<ShardState> {
    var t := ReadData(s, a, k);
    var _ :- Need(t.kind == FUNGIBLE, OnlyFungibleTokensHaveBalanceTransfer);
    var _ :- CheckFrozeAndPause(cfg, s, a, k, t, ret);
    var _ :- Need(t.value + v >= 0, InsufficientFunds);
    Ok(SaveData(s, a, k, t.(value := t.value + v)))
  }
}
