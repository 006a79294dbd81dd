/**
 * The state of one shard as the functions of the library change it, entry by entry, and its storage rules as they run.
 */
module Ledger {
  import opened Bytes
  import opened Results
  import opened Wire
  import opened Keys
  import opened Tokens
  import opened Storage
  import opened Transfers
  import opened Messages

  /** A method ends as its specification says; after an error the caller throws the state away. */
  predicate Done(spec: Result<ShardState>, r: Result<()>, after: ShardState) {
    match spec
    case Ok(s) => r == Ok(()) && after == s
    case Err(error) => r == Err(error)
  }

  predicate Ran<T(==)>(spec: Result<(ShardState, T)>, r: Result<T>, after: ShardState) {
    match spec
    case Ok((s, value)) => r == Ok(value) && after == s
    case Err(error) => r == Err(error)
  }

  class ShardLedger {
    const cfg: Config
    var accounts: map<Address, Account>
    var system: Store
    var settings: map<bytes, bytes>
    var transferAddresses: map<bytes, seq<Address>>

    function State(): ShardState
      reads this
    {
      ShardState(accounts, system, settings, transferAddresses)
    }

    constructor (cfg: Config)
      ensures this.cfg == cfg && State() == EMPTY_SHARD
    {
      this.cfg := cfg;
      accounts, system, settings, transferAddresses := map[], map[], map[], map[];
    }

    // ---- the accounts ----

    method SaveEntry(a: Address, k: bytes, e: Option<DCToken>)
      modifies this`accounts
      ensures State() == Put(old(State()), a, k, e)
    {
      var acc := if a in accounts then accounts[a] else NO_ACCOUNT;
      var tokens := if e.Some? then acc.tokens[k := e.value] else acc.tokens - {k};
      accounts := accounts[a := acc.(tokens := tokens)];
    }

    method SaveOnSystem(k: bytes, e: Option<DCToken>)
      modifies this`system
      ensures State() == PutSystem(old(State()), k, e)
    {
      system := if e.Some? then system[k := e.value] else system - {k};
    }

    method SaveLatestNonce(a: Address, token: bytes, nonce: nat)
      modifies this`accounts
      ensures State() == PutNonce(old(State()), a, token, nonce)
    {
      var acc := if a in accounts then accounts[a] else NO_ACCOUNT;
      accounts := accounts[a := acc.(nonces := acc.nonces[token := nonce])];
    }

    method SaveRoles(a: Address, token: bytes, roles: seq<bytes>)
      modifies this`accounts
      ensures State() == PutRoles(old(State()), a, token, roles)
    {
      var acc := if a in accounts then accounts[a] else NO_ACCOUNT;
      accounts := accounts[a := acc.(roles := acc.roles[token := roles])];
    }

    /** What an account holds under a key. */
    method Retrieve(a: Address, k: bytes) returns (e: Option<DCToken>)
      ensures e == Entry(State(), a, k)
    {
      e := None;
      if a in accounts && k in accounts[a].tokens {
        e := Some(accounts[a].tokens[k]);
      }
    }

    // ---- dctDataStorage ----

    /** GetDCTNFTTokenOnDestination */
    method GetOnDestination(a: Address, token: bytes, nonce: nat) returns (t: DCToken, isNew: bool)
      ensures (t, isNew) == Read(cfg, State(), a, token, nonce)
    {
      var k := KeyOf(token, nonce);
      var e := Retrieve(a, k);
      if e.None? {
        return NO_TOKEN, true;
      }
      t, isNew := e.value, false;
      if !cfg.flags.saveToSystem || nonce == 0 {
        return;
      }
      if k in system && system[k].metadata.Some? {
        t := t.(metadata := system[k].metadata);
      }
    }

    /** GetDCTNFTTokenOnSender */
    method GetOnSender(a: Address, token: bytes, nonce: nat) returns (r: Result<DCToken>)
      ensures r == ReadOnSender(cfg, State(), a, token, nonce)
    {
      var t, isNew := GetOnDestination(a, token, nonce);
      r := if isNew then Err(NewNFTDataOnSenderAddress) else Ok(t);
    }

    /** checkFrozenPauseProperties */
    method CheckFrozenPauseProperties(a: Address, token: bytes, nonce: nat, t: DCToken, ret: bool)
        returns (r: Result<()>)
      ensures r == CheckProperties(cfg, State(), a, token, nonce, t, ret)
    {
      r := CheckFrozeAndPause(cfg, State(), a, token, t, ret);
      if r.Err? {
        return;
      }
      r := CheckFrozeAndPause(cfg, State(), a, KeyOf(token, nonce), t, ret);
      if r.Err? {
        return;
      }
      if !cfg.flags.checkFrozenCollection || nonce == 0 || ret {
        return;
      }
      var collection := Retrieve(a, token);
      if collection.Some? && IsFrozen(collection.value.properties) {
        r := Err(DCTIsFrozenForAccount);
      }
    }

    /** AddToLiquiditySystemAcc */
    method AddToLiquidity(token: bytes, nonce: nat, v: int) returns (r: Result<()>)
      modifies this`system
      ensures Done(AddLiquidity(cfg, old(State()), token, nonce, v), r, State())
    {
      if !cfg.flags.saveToSystem || !cfg.flags.sendAlways || nonce == 0 {
        return Ok(());
      }
      var k := KeyOf(token, nonce);
      if k !in system {
        return Err(NilDCTData);
      }
      var record := system[k];
      if |record.reserved| == 0 {
        return Ok(());
      }
      if cfg.flags.fixOldLiquidity && record.value == 0 && v < 0 {
        record := record.(reserved := []);
        SaveOnSystem(k, Some(record));
        return Ok(());
      }
      record := record.(value := record.value + v);
      if record.value < 0 {
        return Err(InvalidLiquidityForDCT);
      }
      SaveOnSystem(k, if record.value == 0 then None else Some(record));
      r := Ok(());
    }

    /** saveDCTMetaDataToSystemAccount with setReservedToNilForOldToken */
    method SaveMetaDataOnSystem(user: Option<Address>, senderShard: nat, k: bytes, nonce: nat, t: DCToken,
        mustUpdate: bool) returns (r: Result<()>)
      modifies this`system
      ensures Done(SaveMetaData(cfg, old(State()), user, senderShard, k, nonce, t, mustUpdate), r, State())
    {
      if nonce == 0 || t.metadata.None? {
        return Ok(());
      }
      if !mustUpdate && k in system {
        return Ok(());
      }
      var record := DCToken(t.kind, 0, Zeros(cfg.numShards), t.metadata, []);
      if k !in system && cfg.flags.sendAlways {
        record := record.(properties := [], reserved := [1]);
        if cfg.flags.fixOldLiquidity {
          if user.None? {
            return Err(NilUserAccount);
          }
          var old_ := Retrieve(user.value, k);
          if old_.Some? && old_.value.metadata.Some? {
            record := record.(reserved := []);
          }
        }
      }
      if !cfg.flags.sendAlways {
        if cfg.self != METACHAIN {
          if cfg.self >= |record.properties| {
            return Err(IndexOutOfRange);
          }
          record := record.(properties := record.properties[cfg.self := EXISTS_ON_SHARD]);
        }
        if senderShard != METACHAIN {
          if senderShard >= |record.properties| {
            return Err(IndexOutOfRange);
          }
          record := record.(properties := record.properties[senderShard := EXISTS_ON_SHARD]);
        }
      }
      SaveOnSystem(k, Some(record));
      r := Ok(());
    }

    /** SaveDCTNFTToken */
    method SaveNFT(sender: Address, a: Address, token: bytes, nonce: nat, t: DCToken, mustUpdate: bool, ret: bool)
        returns (r: Result<()>)
      modifies this`system, this`accounts
      ensures Done(SaveToken(cfg, old(State()), sender, a, token, nonce, t, mustUpdate, ret), r, State())
    {
      hide CheckProperties, SaveMetaData;
      r := CheckFrozenPauseProperties(a, token, nonce, t, ret);
      if r.Err? {
        return;
      }
      var k := KeyOf(token, nonce);
      if cfg.flags.saveToSystem {
        r := SaveMetaDataOnSystem(Some(a), cfg.shardOf(sender), k, nonce, t, mustUpdate);
        if r.Err? {
          return;
        }
      }
      if t.value <= 0 {
        SaveEntry(a, k, None);
      } else if !cfg.flags.saveToSystem {
        SaveEntry(a, k, Some(t));
      } else {
        SaveEntry(a, k, Some(DCToken(t.kind, t.value, t.properties, None, [])));
      }
      r := Ok(());
    }

    /** WasAlreadySentToDestinationShardAndUpdateState */
    method WasSent(token: bytes, nonce: nat, dst: Address) returns (r: Result<bool>)
      modifies this`system
      ensures Ran(WasAlreadySent(cfg, old(State()), token, nonce, dst), r, State())
    {
      if !cfg.flags.saveToSystem {
        return Ok(false);
      }
      var d := cfg.shardOf(dst);
      if nonce == 0 || d == cfg.self {
        return Ok(true);
      }
      if cfg.flags.sendAlways {
        return Ok(false);
      }
      if d == METACHAIN {
        return Ok(true);
      }
      var k := KeyOf(token, nonce);
      if k !in system {
        return Ok(false);
      }
      var record := system[k];
      var properties := Extended(record.properties);
      if d >= |properties| {
        return Err(IndexOutOfRange);
      }
      if properties[d] > 0 {
        return Ok(true);
      }
      SaveOnSystem(k, Some(record.(properties := properties[d := EXISTS_ON_SHARD])));
      r := Ok(false);
    }

    /** The properties, copied to a longer slice where there are more shards than flags. */
    method Extended(properties: bytes) returns (longer: bytes)
      ensures longer == if |properties| < cfg.numShards then properties + Zeros(cfg.numShards - |properties|)
        else properties
    {
      if |properties| >= cfg.numShards {
        return properties;
      }
      var slice := new byte[cfg.numShards](i => 0);
      for i := 0 to |properties|
        invariant slice[..i] == properties[..i]
        invariant forall j :: i <= j < cfg.numShards ==> slice[j] == 0
      {
        slice[i] := properties[i];
      }
      longer := slice[..];
      assert longer[..|properties|] == properties && longer[|properties|..] == Zeros(cfg.numShards - |properties|);
    }

    /** addMetaDataToSystemAccountFromMultiTransfer, its loop */
    method SaveMetaDataOf(sndShard: nat, args: seq<bytes>, n: nat) returns (r: Result<()>)
      requires 1 + 3 * n <= |args|
      modifies this`system
      ensures Done(RecordTriples(cfg, old(State()), sndShard, TriplesFrom(args, 1, n)), r, State())
    {
      hide RecordTriples, RecordTriple, SaveMetaData, ReadUint64, TriplesFrom;
      ghost var ts := TriplesFrom(args, 1, n);
      NothingToRecord(cfg, State(), sndShard, ts);
      for i := 0 to n
        invariant RecordTriples(cfg, old(State()), sndShard, ts[..i]) == Ok(State())
      {
        RecordStep(cfg, old(State()), State(), sndShard, args, n, i);
        var tokenStart := 1 + i * ARGS_PER_TRANSFER;
        var token, nonce, payload := args[tokenStart], ReadUint64(args[tokenStart + 1]), args[tokenStart + 2];
        if nonce > 0 && |payload| > MAX_LENGTH_FOR_VALUE {
          var carried := cfg.unmarshal(payload);
          if carried.None? {
            return Err(UnmarshalFailed);
          }
          var saved := SaveMetaDataOnSystem(None, sndShard, KeyOf(token, nonce), nonce, carried.value, true);
          if saved.Err? {
            return saved;
          }
        }
      }
      WholeList(ts, n);
      r := Ok(());
    }

    /** SaveNFTMetaDataToSystemAccount */
    method SaveFailedMetaData(snd: Address, rcv: Address, data: bytes) returns (r: Result<()>)
      modifies this`system
      ensures Done(RecordFailed(cfg, old(State()), snd, rcv, data), r, State())
    {
      hide RecordTriples, SaveMetaData, ParseData, ReadUint64, TriplesFrom;
      if !cfg.flags.saveToSystem || cfg.flags.sendAlways {
        return Ok(());
      }
      var sndShard, dstShard := cfg.shardOf(snd), cfg.shardOf(rcv);
      if sndShard == dstShard || cfg.self != dstShard {
        return Ok(());
      }
      var parsed := ParseCallData(data);
      if parsed.Err? {
        return Ok(());
      }
      var (function_, args) := parsed.value;
      if |args| < 4 {
        return Ok(());
      }
      if function_ == NFT_TRANSFER {
        if args[3] == [0] {
          return Ok(());
        }
        var carried := cfg.unmarshal(args[3]);
        if carried.None? {
          return Err(UnmarshalFailed);
        }
        var nonce := ReadUint64(args[1]);
        r := SaveMetaDataOnSystem(None, sndShard, KeyOf(args[0], nonce), nonce, carried.value, true);
      } else if function_ == MULTI_TRANSFER {
        var n := ReadUint64(args[0]);
        if n == 0 || |args| < (n * ARGS_PER_TRANSFER + 1) % U64 {
          return Err(InvalidArguments);
        }
        if 1 + 3 * n > |args| {
          return Err(IndexOutOfRange);
        }
        r := SaveMetaDataOf(sndShard, args, n);
      } else {
        r := Ok(());
      }
    }

    // ---- balances of plain tokens ----

    /** saveDCTData */
    method SaveDCTData(a: Address, k: bytes, t: DCToken)
      modifies this`accounts
      ensures State() == SaveData(old(State()), a, k, t)
    {
      if t.value == 0 && NoProperties(t.properties) {
        SaveEntry(a, k, None);
      } else {
        SaveEntry(a, k, Some(t));
      }
    }

    /** addToDCTBalance */
    method AddToDCTBalance(a: Address, k: bytes, v: int, ret: bool) returns (r: Result<()>)
      modifies this`accounts
      ensures Done(AddToBalance(cfg, old(State()), a, k, v, ret), r, State())
    {
      var e := Retrieve(a, k);
      var t := if e.Some? then e.value else NO_TOKEN;
      if t.kind != FUNGIBLE {
        return Err(OnlyFungibleTokensHaveBalanceTransfer);
      }
      r := CheckFrozeAndPause(cfg, State(), a, k, t, ret);
      if r.Err? {
        return;
      }
      t := t.(value := t.value + v);
      if t.value < 0 {
        return Err(InsufficientFunds);
      }
      SaveDCTData(a, k, t);
      r := Ok(());
    }
  }

  lemma NothingToRecord(cfg: Config, s: ShardState, sndShard: nat, ts: seq<Triple>)
    ensures RecordTriples(cfg, s, sndShard, ts[..0]) == Ok(s)
  {
  }

  lemma WholeList(ts: seq<Triple>, n: nat)
    requires n == |ts|
    ensures ts[..n] == ts
  {
  }

  /** One transfer of a failed message; an error is the error of the whole list. */
  lemma RecordStep(cfg: Config, s: ShardState, s1: ShardState, sndShard: nat, args: seq<bytes>, n: nat, i: nat)
    requires i < n && 1 + 3 * n <= |args|
    requires RecordTriples(cfg, s, sndShard, TriplesFrom(args, 1, n)[..i]) == Ok(s1)
    ensures var ts := TriplesFrom(args, 1, n);
            var k, nonce, payload := KeyOf(args[1 + i * 3], ReadUint64(args[2 + i * 3])), ReadUint64(args[2 + i * 3]),
              args[3 + i * 3];
            if nonce == 0 || |payload| <= MAX_LENGTH_FOR_VALUE then RecordTriples(cfg, s, sndShard, ts[..i + 1])
              == Ok(s1)
            else match cfg.unmarshal(payload)
              case None => RecordTriples(cfg, s, sndShard, ts) == Err(UnmarshalFailed)
              case Some(carried) =>
                match SaveMetaData(cfg, s1, None, sndShard, k, nonce, carried, true)
                case Ok(s2) => RecordTriples(cfg, s, sndShard, ts[..i + 1]) == Ok(s2)
                case Err(error) => RecordTriples(cfg, s, sndShard, ts) == Err(error)
  {
    hide SaveMetaData, ReadUint64, KeyOf;
    var ts := TriplesFrom(args, 1, n);
    assert ts[..i + 1][..i] == ts[..i];
    assert ts[i] == TripleAt(args, 1 + 3 * i);
    RecordErrorsStay(cfg, s, sndShard, ts, i + 1);
  }

  lemma {:induction false} RecordErrorsStay(cfg: Config, s: ShardState, sndShard: nat, ts: seq<Triple>, i: nat)
    requires i <= |ts|
    ensures RecordTriples(cfg, s, sndShard, ts[..i]).Err? ==>
      RecordTriples(cfg, s, sndShard, ts) == RecordTriples(cfg, s, sndShard, ts[..i])
  {
    hide RecordTriple;
    if i == |ts| {
      assert ts[..i] == ts;
    } else {
      assert ts[..|ts| - 1][..i] == ts[..i];
      RecordErrorsStay(cfg, s, sndShard, ts[..|ts| - 1], i);
    }
  }
}
