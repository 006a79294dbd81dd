/** The settings of a token: over every run of operations each one is what it was last set to, and nothing else is. */
module GlobalSettings {
  import opened Bytes
  import opened Results
  import opened Keys
  import opened Tokens
  import opened Storage
  import opened Transfers
  import opened Supply
  import opened Roles
  import opened Handoff
  import opened Operations
  import opened OperationsKeep
  import opened Locks

  // ---- how they are stored ----

  /** Settings are read back as they were stored, and so are two bytes that set no other bit. */
  lemma SettingsRoundTrip(x: Settings, b: bytes)
    ensures SettingsFromBytes(SettingsBytes(x)) == x
    ensures x.paused <==> SettingsBytes(x)[0] % 2 == 1
    ensures x.limitedTransfer <==> SettingsBytes(x)[0] in {2, 3, 6, 7}
    ensures x.burnForAll <==> SettingsBytes(x)[0] >= 4
    ensures SettingsBytes(SettingsFromBytes(b)) == b <==> |b| == 2 && b[0] < 8 && b[1] == 0
  {
    var y := SettingsFromBytes(b);
    if |b| == 2 && b[0] < 8 && b[1] == 0 {
      assert b[0] == b[0] % 2 + 2 * (b[0] / 2 % 2) + 4 * (b[0] / 4 % 2);
      assert SettingsBytes(y)[0] == b[0];
      assert SettingsBytes(y) == b;
    }
  }

  // ---- one call ----

  function Get(x: Settings, which: Setting): bool {
    match which
    case Pause => x.paused
    case LimitTransfer => x.limitedTransfer
    case BurnForAll => x.burnForAll
  }

  /** The one argument of a call of the system contract to the system account. */
  predicate Accepted(cfg: Config, call: Call) {
    call.callValue == 0 && |call.args| == 1 && call.caller == cfg.systemContract && IsSystemAccount(call.recipient)
  }

  /** A call that is accepted sets one setting of one token. */
  lemma ToggleSets(cfg: Config, s: ShardState, call: Call, which: Setting, on: bool, other: Setting, token: bytes)
    ensures ToggleSetting(cfg, s, call, which, on).Ok? <==> Accepted(cfg, call)
    ensures Accepted(cfg, call) ==>
              var s' := ToggleSetting(cfg, s, call, which, on).value;
              && s' == s.(settings := s'.settings)
              && Get(SettingsOf(s', token), other)
                 == if other == which && token == call.args[0] then on else Get(SettingsOf(s, token), other)
  {
    hide SettingsBytes, SettingsFromBytes, IsSystemAccount;
    if Accepted(cfg, call) {
      var s' := ToggleSetting(cfg, s, call, which, on).value;
      SettingsRoundTrip(Toggled(SettingsOf(s, call.args[0]), which, on), []);
    }
  }

  /** From s to s' one setting of one token is set, and no other setting of any token changes. */
  ghost predicate Sets(s: ShardState, s': ShardState, token: bytes, which: Setting, on: bool) {
    forall other, t ::
      Get(SettingsOf(s', t), other) == if other == which && t == token then on else Get(SettingsOf(s, t), other)
  }

  lemma ToggleSetsOne(cfg: Config, s: ShardState, call: Call, which: Setting, on: bool)
    ensures ToggleSetting(cfg, s, call, which, on).Ok? <==> Accepted(cfg, call)
    ensures Accepted(cfg, call) ==>
              |call.args| == 1 && Sets(s, ToggleSetting(cfg, s, call, which, on).value, call.args[0], which, on)
  {
    hide ToggleSetting, SettingsOf, Get;
    ToggleSets(cfg, s, call, which, on, which, []);
    if Accepted(cfg, call) {
      var s' := ToggleSetting(cfg, s, call, which, on).value;
      forall other, t
        ensures Get(SettingsOf(s', t), other)
                == if other == which && t == call.args[0] then on else Get(SettingsOf(s, t), other)
      {
        ToggleSets(cfg, s, call, which, on, other, t);
      }
    }
  }

  /** Freezing sets the entry's lock, and leaves every balance and every other entry alone. */
  lemma FreezeSets(cfg: Config, s: ShardState, call: Call, on: bool)
    requires ToggleFreeze(cfg, s, call, on).Ok?
    ensures var s' := ToggleFreeze(cfg, s, call, on).value;
            && FrozenAt(s', call.recipient, call.args[0]) == on
            && s' == s.(accounts := s'.accounts)
            && (forall b, k :: Balance(s', b, k) == Balance(s, b, k))
            && (forall b, k :: b != call.recipient || k != call.args[0] ==> Entry(s', b, k) == Entry(s, b, k))
  {
    assert FreezeBytes(on)[0] == if on then 1 else 0;
  }

  // ---- the other operations ----

  lemma NftWorkKeepsSettings(cfg: Config, s: ShardState, op: Op)
    requires op.AddingQuantity? || op.Burning? || op.Creating?
    requires Apply(cfg, s, op).Ok?
    ensures Apply(cfg, s, op).value.settings == s.settings
  {
    hide SaveToken, AddLiquidity, Read, CheckOwnCall;
    var call := op.call;
    if op.Creating? {
      var c := PlanCreate(cfg, s, call).value;
      SaveTouchesOne(cfg, s, c.creator, c.creator, c.token, c.nonce, c.created, true, call.ret);
      var s1 := SaveToken(cfg, s, c.creator, c.creator, c.token, c.nonce, c.created, true, call.ret).value;
      LiquidityKeepsEntries(cfg, s1, c.token, c.nonce, c.quantity);
    } else {
      var a, token, nonce, v := call.caller, call.args[0], ReadUint64(call.args[1]), FromBytes(call.args[2]);
      var t := ReadOnSender(cfg, s, a, token, nonce).value;
      var d: int := if op.Burning? then -(v as int) else v;
      var u := t.(value := t.value + d);
      SaveTouchesOne(cfg, s, a, a, token, nonce, u, false, call.ret);
      LiquidityKeepsEntries(cfg, SaveToken(cfg, s, a, a, token, nonce, u, false, call.ret).value, token, nonce, d);
    }
  }

  lemma UpdateKeepsSettings(cfg: Config, s: ShardState, call: Call, role: bytes, cost: nat,
      update: MetaData -> MetaData)
    requires UpdateMetaData(cfg, s, call, role, cost, update).Ok?
    ensures UpdateMetaData(cfg, s, call, role, cost, update).value.settings == s.settings
  {
    hide SaveToken;
    var a, token, nonce := call.caller, call.args[0], ReadUint64(call.args[1]);
    var t := ReadOnSender(cfg, s, a, token, nonce).value;
    SaveTouchesOne(cfg, s, a, a, token, nonce, t.(metadata := Some(update(t.metadata.value))), true, call.ret);
  }

  lemma WipeKeepsSettings(cfg: Config, s: ShardState, call: Call)
    requires Wipe(cfg, s, call).Ok?
    ensures Wipe(cfg, s, call).value.settings == s.settings
  {
    hide AddLiquidity, ExtractTokenAndNonce;
    var a, k := call.recipient, call.args[0];
    if cfg.flags.wipeLiquidity {
      LiquidityKeepsEntries(cfg, Put(s, a, k, None), ExtractTokenAndNonce(k).0, ExtractTokenAndNonce(k).1,
        -ReadData(s, a, k).value);
    }
  }

  /** No other operation touches a setting. */
  lemma OperationsKeepSettings(cfg: Config, s: ShardState, op: Op)
    requires !op.Toggling? && Apply(cfg, s, op).Ok?
    ensures Apply(cfg, s, op).value.settings == s.settings
  {
    hide Create, AddQuantity, Burn, UpdateMetaData, Wipe, SetRoles, SetAddresses, GiveUp, Receive, FromBytes;
    if TouchesNoToken(op) {
      OtherOperationsKeepSettings(cfg, s, op);
    }
    match op
    case Creating(_) => NftWorkKeepsSettings(cfg, s, op);
    case AddingQuantity(_) => NftWorkKeepsSettings(cfg, s, op);
    case Burning(_) => NftWorkKeepsSettings(cfg, s, op);
    case AddingUri(call) =>
      var uris := if |call.args| >= 2 then call.args[2..] else [];
      UpdateKeepsSettings(cfg, s, call, ROLE_NFT_ADD_URI, cfg.costs.addUri, (m: MetaData) => m.(uris := m.uris + uris));
    case UpdatingAttributes(call) =>
      var attributes := call.args[2];
      UpdateKeepsSettings(cfg, s, call, ROLE_NFT_UPDATE_ATTRIBUTES, cfg.costs.updateAttributes,
        (m: MetaData) => m.(attributes := attributes));
    case Wiping(call) => WipeKeepsSettings(cfg, s, call);
    case _ =>
  }

  // ---- runs ----

  /** Failed operations leave the shard as it was. */
  function ApplyAll(cfg: Config, s: ShardState, ops: seq<Op>): ShardState {
    if ops == [] then s
    else
      var s1 := ApplyAll(cfg, s, ops[..|ops| - 1]);
      match Apply(cfg, s1, ops[|ops| - 1])
      case Ok(s2) => s2
      case Err(_) => s1
  }

  /** What the last accepted call for one setting of a token says, or what it was. */
  function LastSet(cfg: Config, ops: seq<Op>, which: Setting, token: bytes, was: bool): bool {
    if ops == [] then was
    else
      var op := ops[|ops| - 1];
      if op.Toggling? && op.setting == which && Accepted(cfg, op.call) && op.call.args[0] == token then op.on
      else LastSet(cfg, ops[..|ops| - 1], which, token, was)
  }

  /** Over every run of operations each setting of each token is what it was last set to. */
  lemma {:induction false} SettingsAreLastSet(cfg: Config, s: ShardState, ops: seq<Op>, which: Setting, token: bytes)
    ensures Get(SettingsOf(ApplyAll(cfg, s, ops), token), which)
            == LastSet(cfg, ops, which, token, Get(SettingsOf(s, token), which))
  {
    hide Apply, Accepted, Get, SettingsOf;
    if ops != [] {
      var n := |ops| - 1;
      SettingsAreLastSet(cfg, s, ops[..n], which, token);
      OneOperation(cfg, ApplyAll(cfg, s, ops[..n]), ops[n], which, token);
    }
  }

  lemma OneOperation(cfg: Config, s: ShardState, op: Op, which: Setting, token: bytes)
    ensures Accepted(cfg, op.call) ==> |op.call.args| == 1
    ensures Get(SettingsOf(match Apply(cfg, s, op) case Ok(s') => s' case Err(_) => s, token), which)
            == if op.Toggling? && op.setting == which && Accepted(cfg, op.call) && op.call.args[0] == token then op.on
               else Get(SettingsOf(s, token), which)
  {
    hide Create, AddQuantity, Burn, AddUri, UpdateAttributes, LocalMint, LocalBurn, ToggleFreeze, Wipe, ToggleSetting,
        SetRoles, SetAddresses, GiveUp, Receive, Get;
    if op.Toggling? {
      ToggleSets(cfg, s, op.call, op.setting, op.on, which, token);
    } else if Apply(cfg, s, op).Ok? {
      OperationsKeepSettings(cfg, s, op);
    }
  }
}
