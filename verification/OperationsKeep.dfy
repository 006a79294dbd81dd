/** Every operation that stays inside a shard keeps the invariant, and changes the sums by exactly what it supplies. */
module OperationsKeep {
  import opened Bytes
  import opened Results
  import opened Keys
  import opened Tokens
  import opened Storage
  import opened Transfers
  import opened Supply
  import opened Roles
  import opened Handoff
  import opened Operations
  import opened Totals
  import opened Moves
  import opened Liquidity
  import opened Availability
  import opened Invariants

  /** Entries, sums and records are the same. */
  ghost predicate SameTokens(s: ShardState, s': ShardState) {
    (forall a, k :: Entry(s', a, k) == Entry(s, a, k)) && (forall k :: Total(s', k) == Total(s, k)) &&
    s'.system == s.system
  }

  lemma PutNonceTokens(s: ShardState, a: Address, token: bytes, nonce: nat)
    ensures SameTokens(s, PutNonce(s, a, token, nonce))
  {
    var s' := PutNonce(s, a, token, nonce);
    forall k
      ensures Total(s', k) == Total(s, k)
    {
      UpdateTotal(s, s', a, s'.accounts[a], k);
    }
  }

  lemma PutRolesTokens(s: ShardState, a: Address, token: bytes, roles: seq<bytes>)
    ensures SameTokens(s, PutRoles(s, a, token, roles))
  {
    var s' := PutRoles(s, a, token, roles);
    forall k
      ensures Total(s', k) == Total(s, k)
    {
      UpdateTotal(s, s', a, s'.accounts[a], k);
    }
  }

  lemma SameTokensInv(cfg: Config, s: ShardState, s': ShardState)
    requires Inv(cfg, s) && SameTokens(s, s')
    ensures Inv(cfg, s')
  {
    assert forall a, k :: Balance(s', a, k) == Balance(s, a, k);
    if cfg.flags.sendAlways {
      forall q | IsNftKey(q)
        ensures Backed(s', q, 0)
      {
        assert Backed(s, q, 0);
      }
    }
  }

  lemma TakeOverTokens(s: ShardState, a: Address, token: bytes, nonce: nat)
    ensures SameTokens(s, TakeOver(s, a, token, nonce))
  {
    var s1 := PutNonce(s, a, token, nonce);
    PutNonceTokens(s, a, token, nonce);
    PutRolesTokens(s1, a, token, RolesOf(s1, a, token) + [ROLE_NFT_CREATE]);
  }

  lemma GiveUpTokens(cfg: Config, s: ShardState, call: Call)
    requires GiveUp(cfg, s, call).Ok?
    ensures SameTokens(s, GiveUp(cfg, s, call).value.0)
  {
    var a, token := call.recipient, call.args[0];
    var s1 := PutNonce(s, a, token, 0);
    PutNonceTokens(s, a, token, 0);
    PutRolesTokens(s1, a, token, DeleteRoles(RolesOf(s1, a, token), [ROLE_NFT_CREATE]));
    TakeOverTokens(DeleteCreateRole(s1, a, token), call.args[1], token, LatestNonce(s, a, token));
  }

  lemma SetRolesTokens(cfg: Config, s: ShardState, call: Call, set_: bool)
    requires SetRoles(cfg, s, call, set_).Ok?
    ensures SameTokens(s, SetRoles(cfg, s, call, set_).value)
  {
    var a, token := call.recipient, call.args[0];
    var roles := NewRoles(s, call, set_);
    PutRolesTokens(s, a, token, roles);
    if ROLE_NFT_CREATE_MULTI_SHARD in call.args[1..] {
      PutNonceTokens(s, a, token, StartNonce(a));
      PutRolesTokens(PutNonce(s, a, token, StartNonce(a)), a, token, roles);
    }
  }

  function TokenArg(call: Call): bytes {
    if |call.args| > 0 then call.args[0] else []
  }

  /** A wipe names a token, or one nonce of it without a dash byte. */
  ghost predicate WipeArg(arg: bytes) {
    exists t, n: nat :: ValidToken(t) && n < U64 && DASH !in ToBytes(n) && arg == KeyOf(t, n)
  }

  /**
   * What is asked of an operation: valid tokens; where liquidity is counted, wipes that the extractor can read, with
   * their liquidity decrease switched on; where it is not, an added quantity meets the lock of a frozen entry: its call
   * carries no return-after-error flag, and its caller is not the system contract.
   */
  ghost predicate Permitted(cfg: Config, op: Op) {
    match op
    case Creating(call) => ValidToken(TokenArg(call))
    case AddingQuantity(call) => ValidToken(TokenArg(call)) &&
      (cfg.flags.sendAlways || (!call.ret && call.caller != cfg.systemContract))
    case Burning(call) => ValidToken(TokenArg(call))
    case AddingUri(call) => ValidToken(TokenArg(call))
    case UpdatingAttributes(call) => ValidToken(TokenArg(call))
    case Minting(call) => ValidToken(TokenArg(call))
    case BurningLocal(call) => ValidToken(TokenArg(call))
    case Wiping(call) => cfg.flags.sendAlways ==> WipeArg(TokenArg(call)) && cfg.flags.wipeLiquidity
    case _ => true
  }

  lemma SettleSound(s: ShardState, k: bytes, d: int)
    requires SoundBut(s, k, d)
    requires d == 0 || !IsNftKey(k) || (k in s.system && s.system[k].reserved == [])
    ensures Sound(s)
  {
    forall q | IsNftKey(q)
      ensures Backed(s, q, 0)
    {
      assert Backed(s, q, if q == k then d else 0);
    }
  }

  /** Storing a new token and counting it keeps the invariant, even over an old entry of the same key. */
  lemma SaveAndCountKeeps(cfg: Config, s: ShardState, a: Address, token: bytes, nonce: nat, t: DCToken, ret: bool)
    requires Storing(cfg) && Inv(cfg, s) && ValidToken(token) && t.metadata.Some? && t.value > 0
    requires SaveToken(cfg, s, a, a, token, nonce, t, true, ret).Ok?
    requires AddLiquidity(cfg, SaveToken(cfg, s, a, a, token, nonce, t, true, ret).value, token, nonce, t.value).Ok?
    ensures Inv(cfg, AddLiquidity(cfg, SaveToken(cfg, s, a, a, token, nonce, t, true, ret).value, token, nonce,
      t.value).value)
  {
    var k := KeyOf(token, nonce);
    var s1 := SaveToken(cfg, s, a, a, token, nonce, t, true, ret).value;
    if cfg.flags.sendAlways {
      var b := Balance(s, a, k);
      SoundIsSoundBut(s, k);
      SaveSound(cfg, s, a, a, token, nonce, t, true, ret, 0);
      LiquiditySound(cfg, s1, token, nonce, t.value, t.value - b);
      if b > 0 && nonce > 0 {
        HolderHasRecord(cfg, s, a, token, nonce);
      } else {
        PlainKey(token);
        assert b >= 0;
      }
      SettleSound(AddLiquidity(cfg, s1, token, nonce, t.value).value, k, 0 - b);
    } else {
      SaveKeeps(cfg, s, a, a, token, nonce, t, true, ret);
    }
  }

  lemma CreateKeeps(cfg: Config, s: ShardState, call: Call)
    requires Storing(cfg) && Inv(cfg, s) && ValidToken(TokenArg(call)) && Create(cfg, s, call).Ok?
    ensures Inv(cfg, Create(cfg, s, call).value)
  {
    var c := PlanCreate(cfg, s, call).value;
    var s1 := SaveToken(cfg, s, c.creator, c.creator, c.token, c.nonce, c.created, true, call.ret).value;
    var s2 := AddLiquidity(cfg, s1, c.token, c.nonce, c.quantity).value;
    SaveAndCountKeeps(cfg, s, c.creator, c.token, c.nonce, c.created, call.ret);
    PutNonceTokens(s2, c.creator, c.token, c.nonce);
    SameTokensInv(cfg, s2, PutNonce(s2, c.creator, c.token, c.nonce));
  }

  lemma AddQuantityKeeps(cfg: Config, s: ShardState, call: Call)
    requires Storing(cfg) && Inv(cfg, s) && Permitted(cfg, AddingQuantity(call)) && AddQuantity(cfg, s, call).Ok?
    ensures Inv(cfg, AddQuantity(cfg, s, call).value)
  {
    hide SaveToken, AddLiquidity, Read, Available;
    var a, token, nonce, v := call.caller, call.args[0], ReadUint64(call.args[1]), FromBytes(call.args[2]);
    var k := KeyOf(token, nonce);
    var t := ReadOnSender(cfg, s, a, token, nonce).value;
    ReadValue(cfg, s, a, token, nonce);
    InvBasics(cfg, s);
    var u := t.(value := t.value + v);
    var s1 := SaveToken(cfg, s, a, a, token, nonce, u, false, call.ret).value;
    if cfg.flags.sendAlways {
      SoundIsSoundBut(s, k);
      assert Balance(s, a, k) >= 0;
      SaveSound(cfg, s, a, a, token, nonce, u, false, call.ret, 0);
      LiquiditySound(cfg, s1, token, nonce, v, v);
      SoundIsSoundBut(AddLiquidity(cfg, s1, token, nonce, v).value, k);
    } else {
      AddedIsRecorded(cfg, s, a, token, nonce, v);
      SaveKeeps(cfg, s, a, a, token, nonce, u, false, call.ret);
      NothingCounted(cfg, s1, token, nonce, v);
    }
  }

  lemma NothingCounted(cfg: Config, s: ShardState, token: bytes, nonce: nat, v: int)
    requires !cfg.flags.sendAlways
    ensures AddLiquidity(cfg, s, token, nonce, v) == Ok(s)
  {
  }

  /** A quantity is only added to an entry that is not frozen, which has its record. */
  lemma AddedIsRecorded(cfg: Config, s: ShardState, a: Address, token: bytes, nonce: nat, v: nat)
    requires EraB(cfg) && Available(s) && ValidToken(token) && nonce > 0 && a != cfg.systemContract &&
      ReadOnSender(cfg, s, a, token, nonce).Ok?
    requires var t := ReadOnSender(cfg, s, a, token, nonce).value;
             SaveToken(cfg, s, a, a, token, nonce, t.(value := t.value + v), false, false).Ok?
    ensures KeyOf(token, nonce) in s.system
  {
    assert IsNftKey(KeyOf(token, nonce));
    assert !IsFrozen(ReadOnSender(cfg, s, a, token, nonce).value.properties);
  }

  /** A debit followed by its liquidity update keeps the invariant. */
  lemma DebitAndCountKeeps(cfg: Config, s: ShardState, a: Address, token: bytes, nonce: nat, v: nat, short: Error,
      ret: bool)
    requires Storing(cfg) && Inv(cfg, s) && ValidToken(token) && Debit(cfg, s, a, token, nonce, v, short, ret).Ok?
    requires AddLiquidity(cfg, Debit(cfg, s, a, token, nonce, v, short, ret).value.0, token, nonce, 0 - v).Ok?
    ensures Inv(cfg, AddLiquidity(cfg, Debit(cfg, s, a, token, nonce, v, short, ret).value.0, token, nonce,
      0 - v).value)
  {
    var s1 := Debit(cfg, s, a, token, nonce, v, short, ret).value.0;
    if cfg.flags.sendAlways {
      DebitSound(cfg, s, a, token, nonce, v, short, ret);
      LiquiditySound(cfg, s1, token, nonce, -(v as int), -(v as int));
      SoundIsSoundBut(AddLiquidity(cfg, s1, token, nonce, -(v as int)).value, KeyOf(token, nonce));
    } else {
      DebitKeeps(cfg, s, a, token, nonce, v, short, ret);
    }
  }

  lemma BurnKeeps(cfg: Config, s: ShardState, call: Call)
    requires Storing(cfg) && Inv(cfg, s) && ValidToken(TokenArg(call)) && Burn(cfg, s, call).Ok?
    ensures Inv(cfg, Burn(cfg, s, call).value)
  {
    hide Inv, Debit, AddLiquidity;
    DebitAndCountKeeps(cfg, s, call.caller, call.args[0], ReadUint64(call.args[1]), FromBytes(call.args[2]),
      InvalidNFTQuantity, call.ret);
  }

  lemma UpdateKeeps(cfg: Config, s: ShardState, call: Call, role: bytes, cost: nat, update: MetaData -> MetaData)
    requires Storing(cfg) && Inv(cfg, s) && ValidToken(TokenArg(call)) &&
      UpdateMetaData(cfg, s, call, role, cost, update).Ok?
    ensures Inv(cfg, UpdateMetaData(cfg, s, call, role, cost, update).value)
    ensures forall q :: Total(UpdateMetaData(cfg, s, call, role, cost, update).value, q) == Total(s, q)
  {
    var a, token, nonce := call.caller, call.args[0], ReadUint64(call.args[1]);
    var t := ReadOnSender(cfg, s, a, token, nonce).value;
    var u := t.(metadata := Some(update(t.metadata.value)));
    var k := KeyOf(token, nonce);
    ReadValue(cfg, s, a, token, nonce);
    InvBasics(cfg, s);
    assert Balance(s, a, k) >= 0;
    SaveTokenEffect(cfg, s, a, a, token, nonce, u, true, call.ret);
    if cfg.flags.sendAlways {
      SoundIsSoundBut(s, k);
      SaveSound(cfg, s, a, a, token, nonce, u, true, call.ret, 0);
      SoundIsSoundBut(SaveToken(cfg, s, a, a, token, nonce, u, true, call.ret).value, k);
    } else {
      SaveKeeps(cfg, s, a, a, token, nonce, u, true, call.ret);
    }
  }

  /** Freezing keeps every balance; an empty frozen entry may appear. */
  lemma FreezeKeeps(cfg: Config, s: ShardState, call: Call, on: bool)
    requires Storing(cfg) && Inv(cfg, s) && ToggleFreeze(cfg, s, call, on).Ok?
    ensures Inv(cfg, ToggleFreeze(cfg, s, call, on).value)
    ensures Adds(s, ToggleFreeze(cfg, s, call, on).value, call.recipient, call.args[0], 0)
  {
    var a, k := call.recipient, call.args[0];
    var t := ReadData(s, a, k).(properties := FreezeBytes(on));
    var e := if t.value == 0 && NoProperties(t.properties) then None else Some(t);
    assert on ==> t.properties[0] == 1;
    InvBasics(cfg, s);
    assert Balance(s, a, k) >= 0;
    PutAdds(s, a, k, e);
    if cfg.flags.sendAlways {
      SoundIsSoundBut(s, k);
      PutSound(s, a, k, e, 0);
      SoundIsSoundBut(Put(s, a, k, e), k);
    } else {
      PutKeeps(s, a, k, e);
    }
  }

  /** A wipe empties the entry, then counts down under the token and the nonce that it read. */
  lemma WipeIs(cfg: Config, s: ShardState, call: Call)
    requires Wipe(cfg, s, call).Ok?
    ensures |call.args| == 1
    ensures var a, k := call.recipient, call.args[0];
            var (t, n) := ExtractTokenAndNonce(k);
            Wipe(cfg, s, call) == if cfg.flags.wipeLiquidity then AddLiquidity(cfg, Put(s, a, k, None), t, n,
              -Balance(s, a, k)) else Ok(Put(s, a, k, None))
  {
    hide AddLiquidity, ExtractTokenAndNonce;
    assert ReadData(s, call.recipient, call.args[0]).value == Balance(s, call.recipient, call.args[0]);
  }

  lemma WipeAdds(cfg: Config, s: ShardState, call: Call)
    requires Wipe(cfg, s, call).Ok?
    ensures |call.args| == 1
    ensures Adds(s, Wipe(cfg, s, call).value, call.recipient, call.args[0], -Balance(s, call.recipient, call.args[0]))
  {
    hide AddLiquidity, ExtractTokenAndNonce, Wipe;
    WipeIs(cfg, s, call);
    var a, k := call.recipient, call.args[0];
    PutAdds(s, a, k, None);
    if cfg.flags.wipeLiquidity {
      var (t, n) := ExtractTokenAndNonce(k);
      AddLiquidityEffect(cfg, Put(s, a, k, None), t, n, -Balance(s, a, k));
      SameAccounts(Put(s, a, k, None), Wipe(cfg, s, call).value);
    }
  }

  /** Where liquidity is counted a permitted wipe takes its amount out of the count of the same token. */
  lemma WipeSound(cfg: Config, s: ShardState, call: Call)
    requires EraA(cfg) && Sound(s) && WipeArg(TokenArg(call)) && cfg.flags.wipeLiquidity && Wipe(cfg, s, call).Ok?
    ensures Sound(Wipe(cfg, s, call).value)
  {
    hide AddLiquidity, ExtractTokenAndNonce, Wipe;
    WipeIs(cfg, s, call);
    var a, k := call.recipient, call.args[0];
    var b := Balance(s, a, k);
    var t, n: nat :| ValidToken(t) && n < U64 && DASH !in ToBytes(n) && k == KeyOf(t, n);
    ExtractInvertsKey(t, n);
    SoundIsSoundBut(s, k);
    PutSound(s, a, k, None, 0);
    LiquiditySound(cfg, Put(s, a, k, None), t, n, -b, -b);
    SoundIsSoundBut(Wipe(cfg, s, call).value, k);
  }

  /** A wipe whose count goes elsewhere, or nowhere, leaves the record of the wiped key as it was. */
  lemma WipeElsewhere(cfg: Config, s: ShardState, call: Call, t: bytes, n: nat)
    requires ValidToken(t) && 0 < n < U64 && |call.args| == 1 && call.args[0] == KeyOf(t, n) && Wipe(cfg, s, call).Ok?
    requires DASH in ToBytes(n) || !cfg.flags.wipeLiquidity
    ensures SameRecord(s, Wipe(cfg, s, call).value, KeyOf(t, n))
  {
    hide AddLiquidity, ExtractTokenAndNonce, Wipe, ToBytes;
    WipeIs(cfg, s, call);
    var a, k := call.recipient, call.args[0];
    if cfg.flags.wipeLiquidity {
      PartsOfKey(t, n);
      ExtractInvertsKey(t, n);
      var (u, m) := ExtractTokenAndNonce(k);
      if m == 0 {
        PlainNonceUncounted(cfg, Put(s, a, k, None), u, -Balance(s, a, k));
      } else {
        if KeyOf(t, m) == KeyOf(t, n) {
          KeyOfInjective(t, m, t, n);
        }
        AddLiquidityEffect(cfg, Put(s, a, k, None), u, m, -Balance(s, a, k));
      }
    }
  }

  ghost predicate SameRecord(s: ShardState, s': ShardState, k: bytes) {
    (k in s'.system <==> k in s.system) && (k in s.system ==> s'.system[k] == s.system[k])
  }

  lemma PlainNonceUncounted(cfg: Config, s: ShardState, token: bytes, v: int)
    ensures AddLiquidity(cfg, s, token, 0, v) == Ok(s)
  {
  }

  /** Wiping a counted amount keeps the count exactly if the decrease is on and the nonce's bytes have no dash. */
  lemma WipeSoundExactly(cfg: Config, s: ShardState, call: Call, t: bytes, n: nat)
    requires EraA(cfg) && Sound(s) && ValidToken(t) && 0 < n < U64 && Wipe(cfg, s, call).Ok?
    requires |call.args| == 1 && call.args[0] == KeyOf(t, n) && Balance(s, call.recipient, KeyOf(t, n)) > 0
    requires KeyOf(t, n) in s.system && s.system[KeyOf(t, n)].reserved != []
    ensures Sound(Wipe(cfg, s, call).value) <==> cfg.flags.wipeLiquidity && DASH !in ToBytes(n)
  {
    hide AddLiquidity, ExtractTokenAndNonce, Wipe, ToBytes, Total;
    var s', k := Wipe(cfg, s, call).value, KeyOf(t, n);
    if cfg.flags.wipeLiquidity && DASH !in ToBytes(n) {
      WipeSound(cfg, s, call);
    } else {
      WipeElsewhere(cfg, s, call, t, n);
      WipeAdds(cfg, s, call);
      assert IsNftKey(k);
      assert Backed(s, k, 0) && !Backed(s', k, 0);
    }
  }

  lemma WipeKeeps(cfg: Config, s: ShardState, call: Call)
    requires Storing(cfg) && Inv(cfg, s) && Permitted(cfg, Wiping(call)) && Wipe(cfg, s, call).Ok?
    ensures Inv(cfg, Wipe(cfg, s, call).value)
  {
    hide Wipe, ExtractTokenAndNonce;
    WipeIs(cfg, s, call);
    if cfg.flags.sendAlways {
      WipeSound(cfg, s, call);
    } else {
      PutKeeps(s, call.recipient, call.args[0], None);
    }
  }

  lemma MintKeeps(cfg: Config, s: ShardState, call: Call)
    requires Storing(cfg) && Inv(cfg, s) && ValidToken(TokenArg(call)) && LocalMint(cfg, s, call).Ok?
    ensures Inv(cfg, LocalMint(cfg, s, call).value)
  {
    BalanceInv(cfg, s, call.caller, call.args[0], FromBytes(call.args[1]), call.ret);
  }

  lemma LocalBurnKeeps(cfg: Config, s: ShardState, call: Call)
    requires Storing(cfg) && Inv(cfg, s) && ValidToken(TokenArg(call)) && LocalBurn(cfg, s, call).Ok?
    ensures Inv(cfg, LocalBurn(cfg, s, call).value)
  {
    BalanceInv(cfg, s, call.caller, call.args[0], -(FromBytes(call.args[1]) as int), call.ret);
  }

  /** Every permitted operation of a shard keeps the invariant. */
  lemma ApplyKeeps(cfg: Config, s: ShardState, op: Op)
    requires Storing(cfg) && Inv(cfg, s) && Permitted(cfg, op) && Apply(cfg, s, op).Ok?
    ensures Inv(cfg, Apply(cfg, s, op).value)
  {
    hide Inv, Create, AddQuantity, Burn, UpdateMetaData, Wipe, ToggleFreeze, AddToBalance, SameTokens, GiveUp, Receive,
        SetRoles, SetAddresses, ToggleSetting;
    var s' := Apply(cfg, s, op).value;
    match op
    case Creating(call) => CreateKeeps(cfg, s, call);
    case AddingQuantity(call) => AddQuantityKeeps(cfg, s, call);
    case Burning(call) => BurnKeeps(cfg, s, call);
    case AddingUri(call) =>
      var uris := if |call.args| >= 2 then call.args[2..] else [];
      UpdateKeeps(cfg, s, call, ROLE_NFT_ADD_URI, cfg.costs.addUri, (m: MetaData) => m.(uris := m.uris + uris));
    case UpdatingAttributes(call) =>
      var attributes := call.args[2];
      UpdateKeeps(cfg, s, call, ROLE_NFT_UPDATE_ATTRIBUTES, cfg.costs.updateAttributes,
        (m: MetaData) => m.(attributes := attributes));
    case Minting(call) => MintKeeps(cfg, s, call);
    case BurningLocal(call) => LocalBurnKeeps(cfg, s, call);
    case Freezing(call, on) => FreezeKeeps(cfg, s, call, on);
    case Wiping(call) => WipeKeeps(cfg, s, call);
    case _ => OtherOperationsKeepTokens(cfg, s, op); SameTokensInv(cfg, s, s');
  }

  predicate TouchesNoToken(op: Op) {
    op.Toggling? || op.ChangingRoles? || op.ChangingAddresses? || op.GivingUpRole? || op.ReceivingRole?
  }

  lemma OtherOperationsKeepTokens(cfg: Config, s: ShardState, op: Op)
    requires TouchesNoToken(op) && Apply(cfg, s, op).Ok?
    ensures SameTokens(s, Apply(cfg, s, op).value)
  {
    hide GiveUp, SetRoles, TakeOver, SameTokens;
    var s' := Apply(cfg, s, op).value;
    match op
    case ChangingRoles(call, on) => SetRolesTokens(cfg, s, call, on);
    case GivingUpRole(call) => GiveUpTokens(cfg, s, call);
    case ReceivingRole(call) => TakeOverTokens(s, call.recipient, call.args[0], ReadUint64(call.args[1]));
    case _ => TokensOnly(s, s');
  }

  lemma TokensOnly(s: ShardState, s': ShardState)
    requires s'.accounts == s.accounts && s'.system == s.system
    ensures SameTokens(s, s')
  {
    SameAccounts(s, s');
    assert forall a, k :: Entry(s', a, k) == Entry(s, a, k);
  }
}
