/** Which calls are accepted: for each function the exact condition, on the call and on the state it finds. */
module Acceptance {
  import opened Bytes
  import opened Results
  import opened Keys
  import opened Tokens
  import opened Storage
  import opened Transfers
  import opened Supply
  import opened Roles
  import opened Handoff
  import opened Operations
  import opened Totals
  import opened Moves
  import opened Liquidity
  import opened Availability
  import opened Invariants
  import opened OperationsKeep
  import opened Locks
  import opened Limits

  /** Neither the entry nor its token, nor this nonce of it, is locked for the account. */
  predicate Open(cfg: Config, s: ShardState, a: Address, token: bytes, nonce: nat, properties: bytes, ret: bool) {
    ret || a == cfg.systemContract ||
    (!IsFrozen(properties) && !SettingsOf(s, token).paused && !SettingsOf(s, KeyOf(token, nonce)).paused)
  }

  /** The account's collection is not frozen, where that counts. */
  predicate CollectionOpen(cfg: Config, s: ShardState, a: Address, token: bytes, nonce: nat, ret: bool) {
    ret || nonce == 0 || !cfg.flags.checkFrozenCollection || !FrozenAt(s, a, token)
  }

  predicate Unlocked(cfg: Config, s: ShardState, a: Address, token: bytes, nonce: nat, properties: bytes, ret: bool) {
    Open(cfg, s, a, token, nonce, properties, ret) && CollectionOpen(cfg, s, a, token, nonce, ret)
  }

  predicate Has(s: ShardState, a: Address, token: bytes, role: bytes) {
    role in RolesOf(s, a, token)
  }

  /** The shard of an account, with its own place among the flags. */
  predicate Located(cfg: Config, a: Address) {
    cfg.Here(a) && cfg.self < cfg.numShards
  }

  // ---- saving and counting ----

  /** A save of an account of this shard succeeds exactly where nothing is locked. */
  lemma SaveAccepted(cfg: Config, s: ShardState, sender: Address, a: Address, token: bytes, nonce: nat, t: DCToken,
      mustUpdate: bool, ret: bool)
    requires cfg.self < cfg.numShards && (cfg.shardOf(sender) < cfg.numShards || cfg.shardOf(sender) == METACHAIN)
    ensures SaveToken(cfg, s, sender, a, token, nonce, t, mustUpdate, ret).Ok? <==>
              Unlocked(cfg, s, a, token, nonce, t.properties, ret)
  {
  }

  /** The record that a save leaves for a token with metadata. */
  lemma SaveRecords(cfg: Config, s: ShardState, sender: Address, a: Address, token: bytes, nonce: nat, t: DCToken,
      mustUpdate: bool, ret: bool)
    requires SaveToken(cfg, s, sender, a, token, nonce, t, mustUpdate, ret).Ok?
    ensures var s', k := SaveToken(cfg, s, sender, a, token, nonce, t, mustUpdate, ret).value, KeyOf(token, nonce);
            && (cfg.flags.saveToSystem && nonce > 0 && t.metadata.Some? ==> k in s'.system)
            && (t.metadata.None? ==> s'.system == s.system)
            && (k in s.system && !mustUpdate ==> s'.system == s.system)
            && (k in s'.system && s'.system != s.system ==> s'.system[k].value == 0)
  {
    hide CheckProperties;
  }

  /** What is counted has a record, and the record stays at or above zero. */
  predicate Countable(cfg: Config, s: ShardState, token: bytes, nonce: nat, v: int) {
    cfg.flags.saveToSystem && cfg.flags.sendAlways && nonce > 0 ==>
      var k := KeyOf(token, nonce);
      k in s.system &&
      (s.system[k].reserved != [] ==>
         s.system[k].value + v >= 0 || (cfg.flags.fixOldLiquidity && s.system[k].value == 0))
  }

  lemma CountAccepted(cfg: Config, s: ShardState, token: bytes, nonce: nat, v: int)
    ensures AddLiquidity(cfg, s, token, nonce, v).Ok? <==> Countable(cfg, s, token, nonce, v)
  {
  }

  // ---- creating ----

  /** The account that is to create: the caller, or the one that a contract names last. */
  predicate NamesCreator(call: Call, creator: Address) {
    if call.callType == ExecOnDestByCaller then
      |call.args| >= 8 && creator == call.args[|call.args| - 1] && |creator| == |call.caller| && creator != call.caller
    else |call.args| >= 7 && creator == call.caller
  }

  /** The bytes that storing is paid for. */
  lemma {:induction false} TotalLengthAdds(args: seq<bytes>, more: seq<bytes>, b: bytes)
    ensures TotalLength([b]) == |b| && TotalLength(args + more) == TotalLength(args) + TotalLength(more)
  {
    assert [b][1..] == [];
    if args == [] {
      assert args + more == more;
    } else {
      TotalLengthAdds(args[1..], more, b);
      assert (args + more)[1..] == args[1..] + more;
    }
  }

  lemma CreatorAccepted(call: Call, creator: Address)
    ensures Creator(call).Ok? && Creator(call).value.0 == creator <==> NamesCreator(call, creator)
  {
  }

  /** What a create asks for. */
  predicate MayCreate(cfg: Config, s: ShardState, call: Call, creator: Address) {
    && call.callValue == 0 && call.caller == call.recipient && NamesCreator(call, creator)
    && Has(s, creator, call.args[0], ROLE_NFT_CREATE)
    && FromBytes(call.args[1]) > 0
    && (FromBytes(call.args[1]) > 1 ==> Has(s, creator, call.args[0], ROLE_NFT_ADD_QUANTITY))
    && (cfg.flags.valueLength ==> |call.args[1]| <= 32)
    && ReadUint64(call.args[3]) % U32 <= 10000
    && call.gasProvided >= cfg.costs.nftCreate
    && call.gasProvided >= (TotalLength(call.args) * cfg.costs.storePerByte + cfg.costs.nftCreate) % U64
  }

  /** A plan is accepted exactly if the call may create; it is for the next nonce, and describes what the call names. */
  lemma PlanAccepted(cfg: Config, s: ShardState, call: Call, creator: Address)
    ensures PlanCreate(cfg, s, call).Ok? && PlanCreate(cfg, s, call).value.creator == creator <==>
              MayCreate(cfg, s, call, creator)
    ensures MayCreate(cfg, s, call, creator) ==>
              var c := PlanCreate(cfg, s, call).value;
              var uris := if call.callType == ExecOnDestByCaller then call.args[6..|call.args| - 1] else call.args[6..];
              && c.token == call.args[0] && c.quantity == FromBytes(call.args[1])
              && c.nonce == (LatestNonce(s, creator, call.args[0]) + 1) % U64
              && c.created.kind == NON_FUNGIBLE && c.created.value == c.quantity && c.created.properties == []
              && c.created.metadata.Some?
              && var m := c.created.metadata.value;
              && m.nonce == c.nonce && m.name == call.args[2] && m.creator == call.caller
              && m.royalties == ReadUint64(call.args[3]) % U32 && m.hash == call.args[4]
              && m.attributes == call.args[5] && m.uris == uris
  {
    hide FromBytes, ReadUint64, TotalLength, RolesOf, LatestNonce;
    CreatorAccepted(call, creator);
  }

  /**
   * A create is accepted exactly if the call may create and nothing is locked; then the creator holds the quantity of
   * the next nonce, and the record describes what the call names.
   */
  lemma CreateAccepted(cfg: Config, s: ShardState, call: Call, creator: Address)
    requires Storing(cfg) && Inv(cfg, s) && Located(cfg, creator)
    ensures MayCreate(cfg, s, call, creator) ==>
              var n := (LatestNonce(s, creator, call.args[0]) + 1) % U64;
              (Create(cfg, s, call).Ok? <==> Unlocked(cfg, s, creator, call.args[0], n, [], call.ret))
    ensures Create(cfg, s, call).Ok? ==> exists a :: MayCreate(cfg, s, call, a)
    ensures Create(cfg, s, call).Ok? && MayCreate(cfg, s, call, creator) ==>
              var s', c := Create(cfg, s, call).value, PlanCreate(cfg, s, call).value;
              var k := KeyOf(c.token, c.nonce);
              && Entry(s', creator, k) == Some(DCToken(NON_FUNGIBLE, c.quantity, [], None, []))
              && (c.nonce > 0 ==>
                  k in s'.system && s'.system[k].kind == NON_FUNGIBLE &&
                    s'.system[k].metadata == c.created.metadata)
              && LatestNonce(s', creator, c.token) == c.nonce
  {
    hide SaveToken, AddLiquidity, FromBytes, ReadUint64, TotalLength, RolesOf, Unlocked;
    if PlanCreate(cfg, s, call).Ok? {
      PlanAccepted(cfg, s, call, PlanCreate(cfg, s, call).value.creator);
    }
    PlanAccepted(cfg, s, call, creator);
    if MayCreate(cfg, s, call, creator) {
      var c := PlanCreate(cfg, s, call).value;
      SaveAccepted(cfg, s, creator, creator, c.token, c.nonce, c.created, true, call.ret);
      var saved := SaveToken(cfg, s, creator, creator, c.token, c.nonce, c.created, true, call.ret);
      if saved.Ok? {
        NewIsSaved(cfg, s, creator, c.token, c.nonce, c.created, call.ret);
        CountAccepted(cfg, saved.value, c.token, c.nonce, c.quantity);
        if Create(cfg, s, call).Ok? {
          CountKeeps(cfg, saved.value, c.token, c.nonce, c.quantity);
        }
      }
    }
  }

  lemma NewIsSaved(cfg: Config, s: ShardState, a: Address, token: bytes, nonce: nat, t: DCToken, ret: bool)
    requires cfg.flags.saveToSystem && t.value > 0 && t.metadata.Some?
    requires SaveToken(cfg, s, a, a, token, nonce, t, true, ret).Ok?
    ensures var s', k := SaveToken(cfg, s, a, a, token, nonce, t, true, ret).value, KeyOf(token, nonce);
            && Entry(s', a, k) == Some(DCToken(t.kind, t.value, t.properties, None, []))
            && (nonce > 0 ==>
                k in s'.system && s'.system[k].kind == t.kind && s'.system[k].metadata == t.metadata &&
                  s'.system[k].value == 0)
  {
    hide CheckProperties;
  }

  lemma CountKeeps(cfg: Config, s: ShardState, token: bytes, nonce: nat, v: int)
    requires AddLiquidity(cfg, s, token, nonce, v).Ok? && v > 0
    ensures var s' := AddLiquidity(cfg, s, token, nonce, v).value;
            && s'.accounts == s.accounts
            && forall k :: k in s.system && s.system[k].value >= 0 ==>
                 k in s'.system && s'.system[k].metadata == s.system[k].metadata &&
                   s'.system[k].kind == s.system[k].kind
  {
  }

  // ---- adding, burning, updating ----

  predicate OwnCall(call: Call, cost: nat) {
    call.callValue == 0 && |call.args| >= 3 && call.caller == call.recipient && call.gasProvided >= cost
  }

  /** The token that a call names, and what its caller has of it. */
  predicate Holds(s: ShardState, call: Call)
    requires |call.args| >= 2
  {
    ReadUint64(call.args[1]) > 0 && Entry(s, call.caller, KeyOf(call.args[0], ReadUint64(call.args[1]))).Some?
  }

  function PropertiesOf(s: ShardState, a: Address, k: bytes): bytes {
    match Entry(s, a, k)
    case Some(t) => t.properties
    case None => []
  }

  lemma ReadAccepted(cfg: Config, s: ShardState, a: Address, token: bytes, nonce: nat)
    ensures var r, k := ReadOnSender(cfg, s, a, token, nonce), KeyOf(token, nonce);
            && (r.Ok? <==> Entry(s, a, k).Some?)
            && (r.Ok? ==> r.value.properties == PropertiesOf(s, a, k) && r.value.value == Balance(s, a, k))
  {
  }

  /** What an added quantity asks for; where liquidity is counted there is a record to count it on. */
  predicate MayAdd(cfg: Config, s: ShardState, call: Call) {
    && OwnCall(call, cfg.costs.addQuantity) && Has(s, call.caller, call.args[0], ROLE_NFT_ADD_QUANTITY)
    && Holds(s, call) && (cfg.flags.valueLength ==> |call.args[2]| <= 32)
    && var k := KeyOf(call.args[0], ReadUint64(call.args[1]));
    && Unlocked(cfg, s, call.caller, call.args[0], ReadUint64(call.args[1]), PropertiesOf(s, call.caller, k), call.ret)
    && (cfg.flags.sendAlways ==> k in s.system || Entry(s, call.caller, k).value.metadata.Some?)
  }

  lemma AddQuantityAccepted(cfg: Config, s: ShardState, call: Call)
    requires Storing(cfg) && Inv(cfg, s) && Located(cfg, call.caller) && ValidToken(TokenArg(call))
    ensures AddQuantity(cfg, s, call).Ok? <==> MayAdd(cfg, s, call)
  {
    hide SaveToken, AddLiquidity, Read, FromBytes, RolesOf, Unlocked, Entry, KeyOf, Inv;
    if |call.args| >= 3 {
      var a, token, nonce, v := call.caller, call.args[0], ReadUint64(call.args[1]), FromBytes(call.args[2]);
      ReadAccepted(cfg, s, a, token, nonce);
      if ReadOnSender(cfg, s, a, token, nonce).Ok? && nonce > 0 {
        var t := ReadOnSender(cfg, s, a, token, nonce).value;
        var u := t.(value := t.value + v);
        SaveAccepted(cfg, s, a, a, token, nonce, u, false, call.ret);
        if SaveToken(cfg, s, a, a, token, nonce, u, false, call.ret).Ok? {
          AddedIsCountable(cfg, s, a, token, nonce, v, call.ret);
          CountAccepted(cfg, SaveToken(cfg, s, a, a, token, nonce, u, false, call.ret).value, token, nonce, v);
        }
      }
    }
  }

  lemma AddedIsCountable(cfg: Config, s: ShardState, a: Address, token: bytes, nonce: nat, v: nat, ret: bool)
    requires Storing(cfg) && Inv(cfg, s) && ValidToken(token) && nonce > 0 && ReadOnSender(cfg, s, a, token, nonce).Ok?
    requires var t := ReadOnSender(cfg, s, a, token, nonce).value;
             SaveToken(cfg, s, a, a, token, nonce, t.(value := t.value + v), false, ret).Ok?
    ensures var t := ReadOnSender(cfg, s, a, token, nonce).value;
            var s1 := SaveToken(cfg, s, a, a, token, nonce, t.(value := t.value + v), false, ret).value;
            Countable(cfg, s1, token, nonce, v) <==>
              (cfg.flags.sendAlways ==>
                 KeyOf(token, nonce) in s.system || Entry(s, a, KeyOf(token, nonce)).value.metadata.Some?)
  {
    hide SaveToken, KeyOf;
    var t := ReadOnSender(cfg, s, a, token, nonce).value;
    var k := KeyOf(token, nonce);
    SaveRecords(cfg, s, a, a, token, nonce, t.(value := t.value + v), false, ret);
    if cfg.flags.sendAlways {
      CountIsTotal(s, token, nonce);
    }
  }

  /** In a sound shard a count is a sum of balances. */
  lemma CountIsTotal(s: ShardState, token: bytes, nonce: nat)
    requires Sound(s) && ValidToken(token) && nonce > 0
    ensures var k := KeyOf(token, nonce);
            && (k in s.system && s.system[k].reserved != [] ==> s.system[k].value == Total(s, k))
            && Total(s, k) >= 0 && (k !in s.system ==> Total(s, k) == 0)
  {
    var k := KeyOf(token, nonce);
    assert IsNftKey(k);
    assert Backed(s, k, 0);
    TotalCovers(s, [], k);
  }

  /** What a burn asks for: the role, or a token that everybody may burn, and a balance that covers the amount. */
  predicate MayBurn(cfg: Config, s: ShardState, call: Call) {
    && OwnCall(call, cfg.costs.burn)
    && (SettingsOf(s, call.args[0]).burnForAll || Has(s, call.caller, call.args[0], ROLE_NFT_BURN))
    && Holds(s, call)
    && var k := KeyOf(call.args[0], ReadUint64(call.args[1]));
    && FromBytes(call.args[2]) <= Balance(s, call.caller, k)
    && Unlocked(cfg, s, call.caller, call.args[0], ReadUint64(call.args[1]), PropertiesOf(s, call.caller, k), call.ret)
    && (cfg.flags.sendAlways ==> k in s.system || Entry(s, call.caller, k).value.metadata.Some?)
  }

  lemma DebitAccepted(cfg: Config, s: ShardState, a: Address, token: bytes, nonce: nat, v: nat, short: Error, ret: bool)
    requires Located(cfg, a)
    ensures Debit(cfg, s, a, token, nonce, v, short, ret).Ok? <==>
              Entry(s, a, KeyOf(token, nonce)).Some? && v <= Balance(s, a, KeyOf(token, nonce)) &&
              Unlocked(cfg, s, a, token, nonce, PropertiesOf(s, a, KeyOf(token, nonce)), ret)
  {
    hide SaveToken, Read, Unlocked, Entry, KeyOf;
    ReadAccepted(cfg, s, a, token, nonce);
    if ReadOnSender(cfg, s, a, token, nonce).Ok? {
      var t := ReadOnSender(cfg, s, a, token, nonce).value;
      SaveAccepted(cfg, s, a, a, token, nonce, t.(value := t.value - v), false, ret);
    }
  }

  lemma DebitedIsCountable(cfg: Config, s: ShardState, a: Address, token: bytes, nonce: nat, v: nat, short: Error,
      ret: bool)
    requires Storing(cfg) && Inv(cfg, s) && ValidToken(token) && nonce > 0
    requires Debit(cfg, s, a, token, nonce, v, short, ret).Ok?
    ensures Entry(s, a, KeyOf(token, nonce)).Some?
    ensures Countable(cfg, Debit(cfg, s, a, token, nonce, v, short, ret).value.0, token, nonce, 0 - v) <==>
              (cfg.flags.sendAlways ==>
                 KeyOf(token, nonce) in s.system || Entry(s, a, KeyOf(token, nonce)).value.metadata.Some?)
  {
    hide SaveToken, KeyOf;
    var t := ReadOnSender(cfg, s, a, token, nonce).value;
    var k := KeyOf(token, nonce);
    SaveRecords(cfg, s, a, a, token, nonce, t.(value := t.value - v), false, ret);
    if cfg.flags.sendAlways {
      CountIsTotal(s, token, nonce);
      TotalCovers(s, a, k);
    }
  }

  lemma BurnAccepted(cfg: Config, s: ShardState, call: Call)
    requires Storing(cfg) && Inv(cfg, s) && Located(cfg, call.caller) && ValidToken(TokenArg(call))
    ensures Burn(cfg, s, call).Ok? <==> MayBurn(cfg, s, call)
  {
    hide Debit, AddLiquidity, Read, FromBytes, RolesOf, Unlocked, Entry, KeyOf, Inv, Countable;
    if |call.args| >= 3 {
      var a, token, nonce, v := call.caller, call.args[0], ReadUint64(call.args[1]), FromBytes(call.args[2]);
      ReadAccepted(cfg, s, a, token, nonce);
      DebitAccepted(cfg, s, a, token, nonce, v, InvalidNFTQuantity, call.ret);
      if Debit(cfg, s, a, token, nonce, v, InvalidNFTQuantity, call.ret).Ok? && nonce > 0 {
        DebitedIsCountable(cfg, s, a, token, nonce, v, InvalidNFTQuantity, call.ret);
        CountAccepted(cfg, Debit(cfg, s, a, token, nonce, v, InvalidNFTQuantity, call.ret).value.0, token, nonce,
          -(v as int));
      }
    }
  }

  /** The metadata that an account reads for a key. */
  function MetaDataAt(s: ShardState, a: Address, k: bytes): Option<MetaData> {
    if k in s.system && s.system[k].metadata.Some? then s.system[k].metadata
    else match Entry(s, a, k) case Some(t) => t.metadata case None => None
  }

  /** What an update asks for: its role, and a token with metadata. */
  predicate MayUpdate(cfg: Config, s: ShardState, call: Call, role: bytes, cost: nat) {
    && OwnCall(call, cost) && Has(s, call.caller, call.args[0], role)
    && call.gasProvided >= (cost + TotalLength(call.args[2..]) * cfg.costs.storePerByte) % U64
    && Holds(s, call)
    && var k := KeyOf(call.args[0], ReadUint64(call.args[1]));
    && MetaDataAt(s, call.caller, k).Some?
    && Unlocked(cfg, s, call.caller, call.args[0], ReadUint64(call.args[1]), PropertiesOf(s, call.caller, k), call.ret)
  }

  /** An accepted update replaces the metadata on record, and no balance. */
  lemma UpdateAccepted(cfg: Config, s: ShardState, call: Call, role: bytes, cost: nat, update: MetaData -> MetaData)
    requires cfg.flags.saveToSystem && NonNegative(s) && Located(cfg, call.caller)
    ensures UpdateMetaData(cfg, s, call, role, cost, update).Ok? <==> MayUpdate(cfg, s, call, role, cost)
    ensures MayUpdate(cfg, s, call, role, cost) ==>
              var s', k := UpdateMetaData(cfg, s, call, role, cost, update).value,
                KeyOf(call.args[0], ReadUint64(call.args[1]));
              && k in s'.system
              && s'.system[k].metadata == Some(update(MetaDataAt(s, call.caller, k).value))
              && forall b, q :: Balance(s', b, q) == Balance(s, b, q)
  {
    hide SaveToken, FromBytes, RolesOf, Unlocked, KeyOf, TotalLength;
    if |call.args| >= 3 {
      var a, token, nonce := call.caller, call.args[0], ReadUint64(call.args[1]);
      ReadAccepted(cfg, s, a, token, nonce);
      if ReadOnSender(cfg, s, a, token, nonce).Ok? && ReadOnSender(cfg, s, a, token, nonce).value.metadata.Some? {
        var t := ReadOnSender(cfg, s, a, token, nonce).value;
        var u := t.(metadata := Some(update(t.metadata.value)));
        SaveAccepted(cfg, s, a, a, token, nonce, u, true, call.ret);
        if SaveToken(cfg, s, a, a, token, nonce, u, true, call.ret).Ok? && nonce > 0 {
          UpdateIsSaved(cfg, s, a, token, nonce, u, call.ret);
        }
      }
    }
  }

  lemma UpdateIsSaved(cfg: Config, s: ShardState, a: Address, token: bytes, nonce: nat, t: DCToken, ret: bool)
    requires cfg.flags.saveToSystem && NonNegative(s) && nonce > 0 && t.metadata.Some?
    requires t.value == Balance(s, a, KeyOf(token, nonce))
    requires SaveToken(cfg, s, a, a, token, nonce, t, true, ret).Ok?
    ensures var s', k := SaveToken(cfg, s, a, a, token, nonce, t, true, ret).value, KeyOf(token, nonce);
            && k in s'.system && s'.system[k].metadata == t.metadata
            && forall b, q :: Balance(s', b, q) == Balance(s, b, q)
  {
    hide CheckProperties;
    assert Balance(s, a, KeyOf(token, nonce)) >= 0;
  }

  /** An added URI stands behind the others; nothing else of the metadata changes. */
  lemma AddUriAccepted(cfg: Config, s: ShardState, call: Call)
    requires cfg.flags.saveToSystem && NonNegative(s) && Located(cfg, call.caller)
    ensures AddUri(cfg, s, call).Ok? <==> MayUpdate(cfg, s, call, ROLE_NFT_ADD_URI, cfg.costs.addUri)
    ensures AddUri(cfg, s, call).Ok? ==>
              var s', k := AddUri(cfg, s, call).value, KeyOf(call.args[0], ReadUint64(call.args[1]));
              var m := MetaDataAt(s, call.caller, k).value;
              k in s'.system && s'.system[k].metadata == Some(MetaData(m.nonce, m.name, m.creator, m.royalties, m.hash,
                m.uris + call.args[2..], m.attributes))
  {
    hide UpdateMetaData, MayUpdate, MetaDataAt;
    var uris := if |call.args| >= 2 then call.args[2..] else [];
    UpdateAccepted(cfg, s, call, ROLE_NFT_ADD_URI, cfg.costs.addUri, (m: MetaData) => m.(uris := m.uris + uris));
    MayUpdateNames(cfg, s, call, ROLE_NFT_ADD_URI, cfg.costs.addUri);
  }

  lemma MayUpdateNames(cfg: Config, s: ShardState, call: Call, role: bytes, cost: nat)
    ensures MayUpdate(cfg, s, call, role, cost) ==>
              OwnCall(call, cost) && MetaDataAt(s, call.caller, KeyOf(call.args[0], ReadUint64(call.args[1]))).Some?
  {
  }

  /** Updated attributes replace the old ones; nothing else of the metadata changes. */
  lemma UpdateAttributesAccepted(cfg: Config, s: ShardState, call: Call)
    requires cfg.flags.saveToSystem && NonNegative(s) && Located(cfg, call.caller)
    ensures UpdateAttributes(cfg, s, call).Ok? <==>
              |call.args| == 3 &&
                MayUpdate(cfg, s, call, ROLE_NFT_UPDATE_ATTRIBUTES, cfg.costs.updateAttributes)
    ensures UpdateAttributes(cfg, s, call).Ok? ==>
              var s', k := UpdateAttributes(cfg, s, call).value, KeyOf(call.args[0], ReadUint64(call.args[1]));
              var m := MetaDataAt(s, call.caller, k).value;
              k in s'.system && s'.system[k].metadata == Some(MetaData(m.nonce, m.name, m.creator, m.royalties, m.hash,
                m.uris, call.args[2]))
  {
    hide UpdateMetaData, MayUpdate, MetaDataAt;
    MayUpdateNames(cfg, s, call, ROLE_NFT_UPDATE_ATTRIBUTES, cfg.costs.updateAttributes);
    if |call.args| == 3 {
      var attributes := call.args[2];
      UpdateAccepted(cfg, s, call, ROLE_NFT_UPDATE_ATTRIBUTES, cfg.costs.updateAttributes,
        (m: MetaData) => m.(attributes := attributes));
    }
  }

  // ---- plain tokens ----

  /** An account's balance of a plain token may change by v. */
  predicate MayChange(cfg: Config, s: ShardState, a: Address, k: bytes, v: int, ret: bool) {
    && (Entry(s, a, k).Some? ==> Entry(s, a, k).value.kind == FUNGIBLE)
    && (ret || a == cfg.systemContract || (!FrozenAt(s, a, k) && !SettingsOf(s, k).paused))
    && Balance(s, a, k) + v >= 0
  }

  lemma BalanceAccepted(cfg: Config, s: ShardState, a: Address, k: bytes, v: int, ret: bool)
    ensures AddToBalance(cfg, s, a, k, v, ret).Ok? <==> MayChange(cfg, s, a, k, v, ret)
    ensures AddToBalance(cfg, s, a, k, v, ret).Ok? ==>
              match Entry(AddToBalance(cfg, s, a, k, v, ret).value, a, k)
              case Some(t) =>
                t.kind == FUNGIBLE && t.value == Balance(s, a, k) + v && t.properties == PropertiesOf(s, a, k)
              case None => Balance(s, a, k) + v == 0 && forall x :: x in PropertiesOf(s, a, k) ==> x == 0
  {
  }

  predicate LocalCall(call: Call, cost: nat) {
    call.callValue == 0 && |call.args| >= 2 && call.caller == call.recipient && FromBytes(call.args[1]) > 0 &&
    call.gasProvided >= cost
  }

  lemma LocalMintAccepted(cfg: Config, s: ShardState, call: Call)
    ensures LocalMint(cfg, s, call).Ok? <==>
              && LocalCall(call, cfg.costs.localMint) && Has(s, call.caller, call.args[0], ROLE_LOCAL_MINT)
              && |call.args[1]| <= cfg.maxMintLength
              && MayChange(cfg, s, call.caller, call.args[0], FromBytes(call.args[1]), call.ret)
  {
    hide AddToBalance, FromBytes, RolesOf, MayChange;
    if |call.args| >= 2 {
      BalanceAccepted(cfg, s, call.caller, call.args[0], FromBytes(call.args[1]), call.ret);
    }
  }

  lemma LocalBurnAccepted(cfg: Config, s: ShardState, call: Call)
    ensures LocalBurn(cfg, s, call).Ok? <==>
              && LocalCall(call, cfg.costs.localBurn)
              && (SettingsOf(s, call.args[0]).burnForAll || Has(s, call.caller, call.args[0], ROLE_LOCAL_BURN))
              && MayChange(cfg, s, call.caller, call.args[0], -(FromBytes(call.args[1]) as int), call.ret)
  {
    hide AddToBalance, FromBytes, RolesOf, MayChange;
    if |call.args| >= 2 {
      BalanceAccepted(cfg, s, call.caller, call.args[0], -(FromBytes(call.args[1]) as int), call.ret);
    }
  }

  // ---- calls of the system contract ----

  predicate SystemCall(cfg: Config, call: Call) {
    call.callValue == 0 && |call.args| == 1 && call.caller == cfg.systemContract
  }

  lemma FreezeAccepted(cfg: Config, s: ShardState, call: Call, on: bool)
    ensures ToggleFreeze(cfg, s, call, on).Ok? <==> SystemCall(cfg, call)
  {
  }

  /** A wipe is accepted on a frozen entry, where what the extractor reads can be counted down. */
  lemma WipeAccepted(cfg: Config, s: ShardState, call: Call)
    ensures Wipe(cfg, s, call).Ok? <==>
              && SystemCall(cfg, call) && FrozenAt(s, call.recipient, call.args[0])
              && (cfg.flags.wipeLiquidity ==>
                  var (token, nonce) := ExtractTokenAndNonce(call.args[0]);
                  Countable(cfg, s, token, nonce, -Balance(s, call.recipient, call.args[0])))
  {
    hide AddLiquidity, ExtractTokenAndNonce;
    if |call.args| == 1 {
      var a, k := call.recipient, call.args[0];
      var (token, nonce) := ExtractTokenAndNonce(k);
      CountAccepted(cfg, Put(s, a, k, None), token, nonce, -ReadData(s, a, k).value);
    }
  }

  /** A hand-on is accepted from the system contract alone, and names an address; a hand-off from anybody else. */
  lemma HandOffAccepted(cfg: Config, s: ShardState, call: Call)
    ensures GiveUp(cfg, s, call).Ok? <==>
              call.callValue == 0 && |call.args| == 2 && call.caller == cfg.systemContract &&
              |call.args[1]| == |call.caller|
    ensures Receive(cfg, s, call).Ok? <==>
              call.callValue == 0 && |call.args| == 2 && call.caller != cfg.systemContract
  {
    hide TakeOver, DeleteCreateRole, PutNonce, HandoffMessage, ReadUint64, LatestNonce;
  }

  lemma AddressesAccepted(cfg: Config, s: ShardState, call: Call, set_: bool, max: nat)
    ensures SetAddresses(cfg, s, call, set_, max).Ok? <==>
              && Addressed(cfg, call)
              && (set_ ==> |AddAll(AddressesOf(s, call.args[0]), call.args[1..])| <= max)
  {
    hide AddAll, DeleteRoles, IsSystemAccount;
  }
}
