/** Freezing and pausing: over every run of ordinary calls a locked balance stays what it is. */
module Locks {
  import opened Bytes
  import opened Results
  import opened Keys
  import opened Tokens
  import opened Storage
  import opened Transfers
  import opened Supply
  import opened Roles
  import opened Handoff
  import opened Operations
  import opened Liquidity
  import opened Invariants
  import opened OperationsKeep
  import opened Messages
  import opened Network
  import opened Sends
  import opened Deliveries
  import opened NetworkSafe

  predicate FrozenAt(s: ShardState, a: Address, k: bytes) {
    Entry(s, a, k).Some? && IsFrozen(Entry(s, a, k).value.properties)
  }

  /** The entry is frozen, its collection is, or the token is paused. */
  predicate Locked(cfg: Config, s: ShardState, a: Address, token: bytes, nonce: nat) {
    FrozenAt(s, a, KeyOf(token, nonce)) ||
    (nonce > 0 && cfg.flags.checkFrozenCollection && FrozenAt(s, a, token)) ||
    SettingsOf(s, token).paused
  }

  /** No locked entry of the account has changed, and no setting. */
  ghost predicate Steady(cfg: Config, s: ShardState, s': ShardState, a: Address, token: bytes) {
    s'.settings == s.settings &&
    forall n: nat :: Locked(cfg, s, a, token, n) ==> Entry(s', a, KeyOf(token, n)) == Entry(s, a, KeyOf(token, n))
  }

  /** What is locked stays locked. */
  lemma StaysLocked(cfg: Config, s: ShardState, s': ShardState, a: Address, token: bytes, nonce: nat)
    requires Steady(cfg, s, s', a, token) && Locked(cfg, s, a, token, nonce)
    ensures Locked(cfg, s', a, token, nonce)
  {
    PlainKey(token);
    assert FrozenAt(s, a, token) ==> Locked(cfg, s, a, token, 0);
  }

  lemma SteadyTrans(cfg: Config, s: ShardState, s1: ShardState, s2: ShardState, a: Address, token: bytes)
    requires Steady(cfg, s, s1, a, token) && Steady(cfg, s1, s2, a, token)
    ensures Steady(cfg, s, s2, a, token)
  {
    hide Locked, Entry;
    forall n: nat | Locked(cfg, s, a, token, n)
      ensures Entry(s2, a, KeyOf(token, n)) == Entry(s, a, KeyOf(token, n))
    {
      StaysLocked(cfg, s, s1, a, token, n);
    }
  }

  lemma SameAccountsSteady(cfg: Config, s: ShardState, s': ShardState, a: Address, token: bytes)
    requires s'.accounts == s.accounts && s'.settings == s.settings
    ensures Steady(cfg, s, s', a, token)
  {
  }

  /** A call cannot touch a locked entry: only one other entry changes, or the entry it names is not locked. */
  lemma OneEntrySteady(cfg: Config, s: ShardState, s': ShardState, a: Address, token: bytes, b: Address, other: bytes,
      nonce: nat)
    requires ValidToken(token) && ValidToken(other) && s'.settings == s.settings
    requires forall c, k :: c != b || k != KeyOf(other, nonce) ==> Entry(s', c, k) == Entry(s, c, k)
    requires !Locked(cfg, s, b, other, nonce) || (a != b)
    ensures Steady(cfg, s, s', a, token)
  {
    forall n: nat | Locked(cfg, s, a, token, n)
      ensures Entry(s', a, KeyOf(token, n)) == Entry(s, a, KeyOf(token, n))
    {
      if a == b && KeyOf(token, n) == KeyOf(other, nonce) {
        KeyOfInjective(token, n, other, nonce);
      }
    }
  }

  // ---- the storage rules ----

  lemma SaveTouchesOne(cfg: Config, s: ShardState, sender: Address, a: Address, token: bytes, nonce: nat, t: DCToken,
      mustUpdate: bool, ret: bool)
    requires SaveToken(cfg, s, sender, a, token, nonce, t, mustUpdate, ret).Ok?
    ensures var s' := SaveToken(cfg, s, sender, a, token, nonce, t, mustUpdate, ret).value;
            s'.settings == s.settings && forall c, k :: c != a || k != KeyOf(token, nonce) ==>
              Entry(s', c, k) == Entry(s, c, k)
  {
    hide CheckProperties;
  }

  lemma LiquidityKeepsEntries(cfg: Config, s: ShardState, token: bytes, nonce: nat, v: int)
    requires AddLiquidity(cfg, s, token, nonce, v).Ok?
    ensures var s' := AddLiquidity(cfg, s, token, nonce, v).value;
            s'.accounts == s.accounts && s'.settings == s.settings && forall c, k :: Entry(s', c, k) == Entry(s, c, k)
  {
  }

  /** Nobody but the system contract debits a locked entry. */
  lemma DebitSteady(cfg: Config, s: ShardState, snd: Address, token: bytes, nonce: nat, v: nat, short: Error,
      a: Address, mine: bytes)
    requires ValidToken(token) && ValidToken(mine) && a != cfg.systemContract &&
      Debit(cfg, s, snd, token, nonce, v, short, false).Ok?
    ensures Steady(cfg, s, Debit(cfg, s, snd, token, nonce, v, short, false).value.0, a, mine)
  {
    hide SaveToken;
    var t := ReadOnSender(cfg, s, snd, token, nonce).value;
    var u := t.(value := t.value - v);
    SaveTouchesOne(cfg, s, snd, snd, token, nonce, u, false, false);
    if a == snd {
      SaveIsUnlocked(cfg, s, snd, snd, token, nonce, u, false);
      ReadProperties(cfg, s, snd, token, nonce);
    }
    OneEntrySteady(cfg, s, Debit(cfg, s, snd, token, nonce, v, short, false).value.0, a, mine, snd, token, nonce);
  }

  /** A save that succeeds found neither the collection frozen nor the token paused. */
  lemma SaveIsUnlocked(cfg: Config, s: ShardState, sender: Address, a: Address, token: bytes, nonce: nat, t: DCToken,
      mustUpdate: bool)
    requires a != cfg.systemContract && SaveToken(cfg, s, sender, a, token, nonce, t, mustUpdate, false).Ok?
    ensures !IsFrozen(t.properties) && !SettingsOf(s, token).paused
    ensures nonce > 0 && cfg.flags.checkFrozenCollection ==> !FrozenAt(s, a, token)
  {
  }

  lemma ReadProperties(cfg: Config, s: ShardState, a: Address, token: bytes, nonce: nat)
    ensures FrozenAt(s, a, KeyOf(token, nonce)) <==> IsFrozen(Read(cfg, s, a, token, nonce).0.properties)
  {
  }

  lemma AddToDestinationSteady(cfg: Config, s: ShardState, snd: Address, dst: Address, t: DCToken, token: bytes,
      nonce: nat, a: Address, mine: bytes)
    requires ValidToken(token) && ValidToken(mine) && a != cfg.systemContract &&
      AddToDestination(cfg, s, snd, dst, t, token, nonce, false).Ok?
    ensures Steady(cfg, s, AddToDestination(cfg, s, snd, dst, t, token, nonce, false).value.0, a, mine)
  {
    hide SaveToken, AddLiquidity;
    var sum := t.(value := t.value + Read(cfg, s, dst, token, nonce).0.value);
    var s1 := SaveToken(cfg, s, snd, dst, token, nonce, sum, false, false).value;
    SaveTouchesOne(cfg, s, snd, dst, token, nonce, sum, false, false);
    if a == dst {
      SaveIsUnlocked(cfg, s, snd, dst, token, nonce, sum, false);
      ReadProperties(cfg, s, dst, token, nonce);
    }
    OneEntrySteady(cfg, s, s1, a, mine, dst, token, nonce);
    if !cfg.SameShard(snd, dst) {
      LiquidityKeepsEntries(cfg, s1, token, nonce, t.value);
    }
  }

  lemma HandSteady(cfg: Config, s: ShardState, snd: Address, dst: Address, token: bytes, nonce: nat, t: DCToken,
      a: Address, mine: bytes)
    requires ValidToken(token) && ValidToken(mine) && a != cfg.systemContract &&
      Hand(cfg, s, snd, dst, token, nonce, t, false).Ok?
    ensures Steady(cfg, s, Hand(cfg, s, snd, dst, token, nonce, t, false).value.0, a, mine)
  {
    hide AddToDestination, AddLiquidity;
    if cfg.Here(dst) {
      AddToDestinationSteady(cfg, s, snd, dst, t, token, nonce, a, mine);
    } else {
      LiquidityKeepsEntries(cfg, s, token, nonce, -t.value);
      SameAccountsSteady(cfg, s, Hand(cfg, s, snd, dst, token, nonce, t, false).value.0, a, mine);
    }
  }

  lemma BalanceSteady(cfg: Config, s: ShardState, b: Address, token: bytes, v: int, a: Address, mine: bytes)
    requires ValidToken(token) && ValidToken(mine) && a != cfg.systemContract &&
      AddToBalance(cfg, s, b, token, v, false).Ok?
    ensures Steady(cfg, s, AddToBalance(cfg, s, b, token, v, false).value, a, mine)
  {
    PlainKey(token);
    var s' := AddToBalance(cfg, s, b, token, v, false).value;
    assert forall c, k :: c != b || k != token ==> Entry(s', c, k) == Entry(s, c, k);
    OneEntrySteady(cfg, s, s', a, mine, b, token, 0);
  }

  // ---- transfers ----

  lemma {:induction false} TransferAllSteady(cfg: Config, s: ShardState, snd: Address, dst: Address, ts: seq<Triple>,
      a: Address, mine: bytes)
    requires ValidTriples(ts) && ValidToken(mine) && a != cfg.systemContract &&
      TransferAll(cfg, s, snd, dst, ts, false).Ok?
    ensures Steady(cfg, s, TransferAll(cfg, s, snd, dst, ts, false).value.0, a, mine)
  {
    hide Debit, Hand, Steady, ValidToken, CheckLimited;
    if ts == [] {
      SameAccountsSteady(cfg, s, s, a, mine);
    } else {
      var n := |ts| - 1;
      var t := ts[n];
      var s1 := TransferAll(cfg, s, snd, dst, ts[..n], false).value.0;
      TransferAllSteady(cfg, s, snd, dst, ts[..n], a, mine);
      var v := FromBytes(t.payload);
      var (s2, sent) := Debit(cfg, s1, snd, t.token, t.nonce, v, InsufficientQuantityDCT, false).value;
      DebitSteady(cfg, s1, snd, t.token, t.nonce, v, InsufficientQuantityDCT, a, mine);
      HandSteady(cfg, s2, snd, dst, t.token, t.nonce, sent, a, mine);
      SteadyTrans(cfg, s1, s2, Hand(cfg, s2, snd, dst, t.token, t.nonce, sent, false).value.0, a, mine);
      SteadyTrans(cfg, s, s1, Hand(cfg, s2, snd, dst, t.token, t.nonce, sent, false).value.0, a, mine);
    }
  }

  lemma SendSteady(cfg: Config, s: ShardState, kind: Kind, call: Call, a: Address, mine: bytes)
    requires PermittedSend(kind, call) && !call.ret && ValidToken(mine) && a != cfg.systemContract &&
      SendAt(cfg, s, kind, call).Ok?
    ensures Steady(cfg, s, SendAt(cfg, s, kind, call).value.0, a, mine)
  {
    hide TransferAll, PackAll, Debit, Hand, AddToBalance, Steady, ValidToken, MultiTransferOnSender,
        NftTransferOnSender, FungibleTransfer, WasAlreadySent;
    match kind
    case MultiNft =>
      var s1, sent, m := MultiSendSteps(cfg, s, call);
      var ts, dst := Requested(call), call.args[0];
      TransferAllSteady(cfg, s, call.caller, dst, ts, a, mine);
      PackAllKeepsAccounts(cfg, s1, dst, ts, sent, call.gasProvided - Times(|ts|, cfg.costs.multiTransfer));
      SameAccountsSteady(cfg, s1, m.state, a, mine);
      SteadyTrans(cfg, s, s1, m.state, a, mine);
    case SingleNft =>
      var s1, sent, s2, left, s3, p := NftSendSteps(cfg, s, call);
      var t, v, dst := RequestedNft(call), FromBytes(call.args[2]), call.args[3];
      DebitSteady(cfg, s, call.caller, t.token, t.nonce, v, InvalidNFTQuantity, a, mine);
      HandSteady(cfg, s1, call.caller, dst, t.token, t.nonce, sent, a, mine);
      SentKeepsAccounts(cfg, s2, t.token, t.nonce, dst);
      SameAccountsSteady(cfg, s2, s3, a, mine);
      SteadyTrans(cfg, s, s1, s2, a, mine);
      SteadyTrans(cfg, s, s2, s3, a, mine);
    case Fungible =>
      var here := cfg.Here(call.recipient);
      var s1 := FungibleSteps(cfg, s, call, true, here);
      var v: int := FromBytes(call.args[1]);
      BalanceSteady(cfg, s, call.caller, call.args[0], -v, a, mine);
      if here {
        BalanceSteady(cfg, s1, call.recipient, call.args[0], v, a, mine);
        SteadyTrans(cfg, s, s1, SendAt(cfg, s, kind, call).value.0, a, mine);
      }
  }

  lemma SentKeepsAccounts(cfg: Config, s: ShardState, token: bytes, nonce: nat, dst: Address)
    requires WasAlreadySent(cfg, s, token, nonce, dst).Ok?
    ensures var s' := WasAlreadySent(cfg, s, token, nonce, dst).value.0;
            s'.accounts == s.accounts && s'.settings == s.settings
  {
  }

  ghost predicate ValidItems(its: seq<Item>) {
    forall i :: 0 <= i < |its| ==> ValidToken(its[i].token)
  }

  lemma {:induction false} CreditAllSteady(cfg: Config, s: ShardState, snd: Address, dst: Address, its: seq<Item>,
      a: Address, mine: bytes)
    requires ValidItems(its) && ValidToken(mine) && a != cfg.systemContract &&
      CreditAll(cfg, s, snd, dst, its, false).Ok?
    ensures Steady(cfg, s, CreditAll(cfg, s, snd, dst, its, false).value, a, mine)
  {
    hide AddToDestination, AddToBalance, Steady, ValidToken;
    if its == [] {
      SameAccountsSteady(cfg, s, s, a, mine);
    } else {
      var n := |its| - 1;
      var it := its[n];
      var s1 := CreditAll(cfg, s, snd, dst, its[..n], false).value;
      CreditAllSteady(cfg, s, snd, dst, its[..n], a, mine);
      if it.nonce > 0 {
        AddToDestinationSteady(cfg, s1, snd, dst, it.carried, it.token, it.nonce, a, mine);
      } else {
        BalanceSteady(cfg, s1, dst, it.token, it.carried.value, a, mine);
      }
      SteadyTrans(cfg, s, s1, CreditAll(cfg, s, snd, dst, its, false).value, a, mine);
    }
  }

  // ---- operations ----

  /** The operations that neither lock nor unlock, nor create, nor wipe. */
  predicate Ordinary(op: Op) {
    !op.Creating? && !op.Wiping? && !op.Freezing? && !op.Toggling?
  }

  lemma SaveSteady(cfg: Config, s: ShardState, b: Address, token: bytes, nonce: nat, t: DCToken, mustUpdate: bool,
      a: Address, mine: bytes)
    requires ValidToken(token) && ValidToken(mine) && a != cfg.systemContract &&
      SaveToken(cfg, s, b, b, token, nonce, t, mustUpdate, false).Ok?
    requires t.properties == Read(cfg, s, b, token, nonce).0.properties
    ensures Steady(cfg, s, SaveToken(cfg, s, b, b, token, nonce, t, mustUpdate, false).value, a, mine)
  {
    hide SaveToken;
    SaveTouchesOne(cfg, s, b, b, token, nonce, t, mustUpdate, false);
    if a == b {
      SaveIsUnlocked(cfg, s, b, b, token, nonce, t, mustUpdate);
      ReadProperties(cfg, s, b, token, nonce);
    }
    OneEntrySteady(cfg, s, SaveToken(cfg, s, b, b, token, nonce, t, mustUpdate, false).value, a, mine, b, token, nonce);
  }

  lemma CountedSteady(cfg: Config, s: ShardState, s1: ShardState, token: bytes, nonce: nat, v: int, a: Address,
      mine: bytes)
    requires ValidToken(mine) && Steady(cfg, s, s1, a, mine) && AddLiquidity(cfg, s1, token, nonce, v).Ok?
    ensures Steady(cfg, s, AddLiquidity(cfg, s1, token, nonce, v).value, a, mine)
  {
    LiquidityKeepsEntries(cfg, s1, token, nonce, v);
  }

  lemma AddQuantitySteady(cfg: Config, s: ShardState, call: Call, a: Address, mine: bytes)
    requires ValidToken(TokenArg(call)) && !call.ret && ValidToken(mine) && a != cfg.systemContract &&
      AddQuantity(cfg, s, call).Ok?
    ensures Steady(cfg, s, AddQuantity(cfg, s, call).value, a, mine)
  {
    hide SaveToken, AddLiquidity, Steady, ValidToken;
    var b, token, nonce, v := call.caller, call.args[0], ReadUint64(call.args[1]), FromBytes(call.args[2]);
    var t := ReadOnSender(cfg, s, b, token, nonce).value;
    var u := t.(value := t.value + v);
    SaveSteady(cfg, s, b, token, nonce, u, false, a, mine);
    CountedSteady(cfg, s, SaveToken(cfg, s, b, b, token, nonce, u, false, false).value, token, nonce, v, a, mine);
  }

  lemma BurnSteady(cfg: Config, s: ShardState, call: Call, a: Address, mine: bytes)
    requires ValidToken(TokenArg(call)) && !call.ret && ValidToken(mine) && a != cfg.systemContract &&
      Burn(cfg, s, call).Ok?
    ensures Steady(cfg, s, Burn(cfg, s, call).value, a, mine)
  {
    hide Debit, AddLiquidity, Steady, ValidToken;
    var b, token, nonce, v := call.caller, call.args[0], ReadUint64(call.args[1]), FromBytes(call.args[2]);
    DebitSteady(cfg, s, b, token, nonce, v, InvalidNFTQuantity, a, mine);
    CountedSteady(cfg, s, Debit(cfg, s, b, token, nonce, v, InvalidNFTQuantity, false).value.0, token, nonce,
      -(v as int), a, mine);
  }

  lemma UpdateSteady(cfg: Config, s: ShardState, call: Call, role: bytes, cost: nat, update: MetaData -> MetaData,
      a: Address, mine: bytes)
    requires ValidToken(TokenArg(call)) && !call.ret && ValidToken(mine) && a != cfg.systemContract
    requires UpdateMetaData(cfg, s, call, role, cost, update).Ok?
    ensures Steady(cfg, s, UpdateMetaData(cfg, s, call, role, cost, update).value, a, mine)
  {
    hide SaveToken, Steady, ValidToken;
    var b, token, nonce := call.caller, call.args[0], ReadUint64(call.args[1]);
    var t := ReadOnSender(cfg, s, b, token, nonce).value;
    SaveSteady(cfg, s, b, token, nonce, t.(metadata := Some(update(t.metadata.value))), true, a, mine);
  }

  lemma MintSteady(cfg: Config, s: ShardState, op: Op, a: Address, mine: bytes)
    requires op.Minting? || op.BurningLocal?
    requires ValidToken(TokenArg(op.call)) && !op.call.ret && ValidToken(mine) && a != cfg.systemContract &&
      Apply(cfg, s, op).Ok?
    ensures Steady(cfg, s, Apply(cfg, s, op).value, a, mine)
  {
    hide AddToBalance, Steady, ValidToken;
    var call := op.call;
    var v: int := FromBytes(call.args[1]);
    BalanceSteady(cfg, s, call.caller, call.args[0], if op.Minting? then v else -v, a, mine);
  }

  lemma SameTokensSteady(cfg: Config, s: ShardState, s': ShardState, a: Address, token: bytes)
    requires SameTokens(s, s') && s'.settings == s.settings
    ensures Steady(cfg, s, s', a, token)
  {
  }

  lemma BooksKeepSettings(s: ShardState, a: Address, token: bytes, nonce: nat, roles: seq<bytes>)
    ensures PutNonce(s, a, token, nonce).settings == s.settings && PutRoles(s, a, token, roles).settings == s.settings
  {
  }

  lemma TakeOverKeepsSettings(s: ShardState, a: Address, token: bytes, nonce: nat)
    ensures TakeOver(s, a, token, nonce).settings == s.settings
  {
    hide PutNonce, PutRoles;
    var s1 := PutNonce(s, a, token, nonce);
    BooksKeepSettings(s, a, token, nonce, []);
    BooksKeepSettings(s1, a, token, nonce, RolesOf(s1, a, token) + [ROLE_NFT_CREATE]);
  }

  lemma GiveUpKeepsSettings(cfg: Config, s: ShardState, call: Call)
    requires GiveUp(cfg, s, call).Ok?
    ensures GiveUp(cfg, s, call).value.0.settings == s.settings
  {
    hide PutNonce, PutRoles, TakeOver, DeleteRoles, HandoffMessage, LatestNonce, RolesOf;
    var a, token := call.recipient, call.args[0];
    var s1 := PutNonce(s, a, token, 0);
    BooksKeepSettings(s, a, token, 0, []);
    BooksKeepSettings(s1, a, token, 0, DeleteRoles(RolesOf(s1, a, token), [ROLE_NFT_CREATE]));
    TakeOverKeepsSettings(DeleteCreateRole(s1, a, token), call.args[1], token, LatestNonce(s, a, token));
  }

  lemma SetRolesKeepsSettings(cfg: Config, s: ShardState, call: Call, on: bool)
    requires SetRoles(cfg, s, call, on).Ok?
    ensures SetRoles(cfg, s, call, on).value.settings == s.settings
  {
    hide NewRoles;
  }

  lemma OtherOperationsKeepSettings(cfg: Config, s: ShardState, op: Op)
    requires TouchesNoToken(op) && !op.Toggling? && Apply(cfg, s, op).Ok?
    ensures Apply(cfg, s, op).value.settings == s.settings
  {
    hide GiveUp, TakeOver, SetRoles, AddAll, DeleteRoles, AddressesOf, ReadUint64;
    match op
    case ChangingRoles(call, on) => SetRolesKeepsSettings(cfg, s, call, on);
    case GivingUpRole(call) => GiveUpKeepsSettings(cfg, s, call);
    case ReceivingRole(call) => TakeOverKeepsSettings(s, call.recipient, call.args[0], ReadUint64(call.args[1]));
    case _ =>
  }

  lemma ApplySteady(cfg: Config, s: ShardState, op: Op, a: Address, mine: bytes)
    requires Ordinary(op) && !op.call.ret && ValidToken(TokenArg(op.call)) && ValidToken(mine) &&
      a != cfg.systemContract && Apply(cfg, s, op).Ok?
    ensures Steady(cfg, s, Apply(cfg, s, op).value, a, mine)
  {
    hide AddQuantity, Burn, UpdateMetaData, LocalMint, LocalBurn, SetRoles, SetAddresses, GiveUp, Receive, Steady,
        ValidToken, SameTokens;
    if TouchesNoToken(op) {
      OtherOperationsKeepTokens(cfg, s, op);
      OtherOperationsKeepSettings(cfg, s, op);
      SameTokensSteady(cfg, s, Apply(cfg, s, op).value, a, mine);
    }
    match op
    case AddingQuantity(call) => AddQuantitySteady(cfg, s, call, a, mine);
    case Burning(call) => BurnSteady(cfg, s, call, a, mine);
    case AddingUri(call) =>
      var uris := if |call.args| >= 2 then call.args[2..] else [];
      UpdateSteady(cfg, s, call, ROLE_NFT_ADD_URI, cfg.costs.addUri, (m: MetaData) => m.(uris := m.uris + uris), a,
        mine);
    case UpdatingAttributes(call) =>
      var attributes := call.args[2];
      UpdateSteady(cfg, s, call, ROLE_NFT_UPDATE_ATTRIBUTES, cfg.costs.updateAttributes,
        (m: MetaData) => m.(attributes := attributes), a, mine);
    case Minting(call) => MintSteady(cfg, s, op, a, mine);
    case BurningLocal(call) => MintSteady(cfg, s, op, a, mine);
    case _ =>
  }

  // ---- runs of one shard ----

  datatype Action =
    | Transferring(kind: Kind, call: Call)
    | Delivering(m: Msg, gas: nat, callType: CallType, payable: bool)
    | Operating(op: Op)

  /** A call without the return flag, on valid tokens. */
  ghost predicate OrdinaryAction(cfg: Config, action: Action) {
    match action
    case Transferring(kind, call) => PermittedSend(kind, call) && !call.ret
    case Delivering(m, _, _, _) => !m.ret && Legible(cfg, m.data, ItemsIn(cfg, m)) && ValidItems(ItemsIn(cfg, m))
    case Operating(op) => Ordinary(op) && !op.call.ret && ValidToken(TokenArg(op.call))
  }

  function Act(cfg: Config, s: ShardState, action: Action): ShardState {
    match action
    case Transferring(kind, call) => (match SendAt(cfg, s, kind, call) case Ok((s', _)) => s' case Err(_) => s)
    case Delivering(m, gas, callType, payable) => OrSame(DeliverAt(cfg, s, m, gas, callType, payable), s)
    case Operating(op) => OrSame(Apply(cfg, s, op), s)
  }

  function ActAll(cfg: Config, s: ShardState, actions: seq<Action>): ShardState {
    if actions == [] then s else Act(cfg, ActAll(cfg, s, actions[..|actions| - 1]), actions[|actions| - 1])
  }

  lemma ActSteady(cfg: Config, s: ShardState, action: Action, a: Address, mine: bytes)
    requires OrdinaryAction(cfg, action) && ValidToken(mine) && a != cfg.systemContract
    ensures Steady(cfg, s, Act(cfg, s, action), a, mine)
  {
    hide SendAt, DeliverAt, Apply, Steady, ItemsIn, Legible;
    SameAccountsSteady(cfg, s, s, a, mine);
    match action
    case Transferring(kind, call) =>
      if SendAt(cfg, s, kind, call).Ok? {
        SendSteady(cfg, s, kind, call, a, mine);
      }
    case Delivering(m, gas, callType, payable) =>
      if DeliverAt(cfg, s, m, gas, callType, payable).Ok? {
        DeliversItems(cfg, s, m, gas, callType, payable, ItemsIn(cfg, m));
        CreditAllSteady(cfg, s, m.sender, m.receiver, ItemsIn(cfg, m), a, mine);
      }
    case Operating(op) =>
      if Apply(cfg, s, op).Ok? {
        ApplySteady(cfg, s, op, a, mine);
      }
  }

  /** Over every run of ordinary calls a locked entry keeps its lock and its balance. */
  lemma {:induction false} LockedOverRuns(cfg: Config, s: ShardState, actions: seq<Action>, a: Address, token: bytes,
      nonce: nat)
    requires ValidToken(token) && a != cfg.systemContract && Locked(cfg, s, a, token, nonce)
    requires forall i :: 0 <= i < |actions| ==> OrdinaryAction(cfg, actions[i])
    ensures var s' := ActAll(cfg, s, actions);
            Locked(cfg, s', a, token, nonce) &&
              Balance(s', a, KeyOf(token, nonce)) == Balance(s, a, KeyOf(token, nonce))
  {
    hide Act, Locked, OrdinaryAction;
    if actions != [] {
      var n := |actions| - 1;
      var s1 := ActAll(cfg, s, actions[..n]);
      LockedOverRuns(cfg, s, actions[..n], a, token, nonce);
      ActSteady(cfg, s1, actions[n], a, token);
      StaysLocked(cfg, s1, Act(cfg, s1, actions[n]), a, token, nonce);
    }
  }

  // ---- runs with creates ----

  /** The token is paused, or the account's collection is frozen and counts for the nonce. */
  predicate FirmlyLocked(cfg: Config, s: ShardState, a: Address, token: bytes, nonce: nat) {
    (FrozenAt(s, a, token) && (nonce == 0 || cfg.flags.checkFrozenCollection)) || SettingsOf(s, token).paused
  }

  ghost predicate FirmlySteady(cfg: Config, s: ShardState, s': ShardState, a: Address, token: bytes) {
    s'.settings == s.settings &&
    forall n: nat :: FirmlyLocked(cfg, s, a, token, n) ==> Entry(s', a, KeyOf(token, n)) == Entry(s, a, KeyOf(token, n))
  }

  lemma StaysFirmlyLocked(cfg: Config, s: ShardState, s': ShardState, a: Address, token: bytes, nonce: nat)
    requires FirmlySteady(cfg, s, s', a, token) && FirmlyLocked(cfg, s, a, token, nonce)
    ensures FirmlyLocked(cfg, s', a, token, nonce)
  {
    PlainKey(token);
    assert FrozenAt(s, a, token) ==> FirmlyLocked(cfg, s, a, token, 0);
  }

  lemma SteadyIsFirm(cfg: Config, s: ShardState, s': ShardState, a: Address, token: bytes)
    requires Steady(cfg, s, s', a, token)
    ensures FirmlySteady(cfg, s, s', a, token)
  {
    PlainKey(token);
    assert forall n: nat :: FirmlyLocked(cfg, s, a, token, n) ==> Locked(cfg, s, a, token, n);
  }

  /** A create finds a paused token and a frozen collection, and only those. */
  lemma CreateIsFirm(cfg: Config, s: ShardState, call: Call, a: Address, mine: bytes)
    requires Create(cfg, s, call).Ok? && PlanCreate(cfg, s, call).Ok? && PlanCreate(cfg, s, call).value.nonce > 0
    requires !call.ret && ValidToken(TokenArg(call)) && ValidToken(mine) && a != cfg.systemContract
    ensures FirmlySteady(cfg, s, Create(cfg, s, call).value, a, mine)
  {
    hide SaveToken, AddLiquidity, PlanCreate, ValidToken;
    var c := PlanCreate(cfg, s, call).value;
    var s1 := SaveToken(cfg, s, c.creator, c.creator, c.token, c.nonce, c.created, true, false).value;
    SaveTouchesOne(cfg, s, c.creator, c.creator, c.token, c.nonce, c.created, true, false);
    LiquidityKeepsEntries(cfg, s1, c.token, c.nonce, c.quantity);
    if a == c.creator {
      SaveIsUnlocked(cfg, s, c.creator, c.creator, c.token, c.nonce, c.created, true);
    }
    forall n: nat | FirmlyLocked(cfg, s, a, mine, n)
      ensures Entry(s1, a, KeyOf(mine, n)) == Entry(s, a, KeyOf(mine, n))
    {
      if a == c.creator && KeyOf(mine, n) == KeyOf(c.token, c.nonce) {
        KeyOfInjective(mine, n, c.token, c.nonce);
      }
    }
  }

  /** An ordinary call, or a create without the return flag whose nonce does not wrap around to 0. */
  ghost predicate OrdinaryOrCreate(cfg: Config, s: ShardState, action: Action) {
    OrdinaryAction(cfg, action) ||
    (action.Operating? && action.op.Creating? && !action.op.call.ret && ValidToken(TokenArg(action.op.call)) &&
      (Create(cfg, s, action.op.call).Ok? ==>
         PlanCreate(cfg, s, action.op.call).Ok? && PlanCreate(cfg, s, action.op.call).value.nonce > 0))
  }

  ghost predicate AllOrdinaryOrCreate(cfg: Config, s: ShardState, actions: seq<Action>) {
    actions == [] ||
    (var n := |actions| - 1;
     AllOrdinaryOrCreate(cfg, s, actions[..n]) &&
       OrdinaryOrCreate(cfg, ActAll(cfg, s, actions[..n]), actions[n]))
  }

  lemma ActIsFirm(cfg: Config, s: ShardState, action: Action, a: Address, mine: bytes)
    requires OrdinaryOrCreate(cfg, s, action) && ValidToken(mine) && a != cfg.systemContract
    ensures FirmlySteady(cfg, s, Act(cfg, s, action), a, mine)
  {
    hide SendAt, DeliverAt, Create, PlanCreate, OrdinaryAction, Steady, ValidToken;
    if OrdinaryAction(cfg, action) {
      ActSteady(cfg, s, action, a, mine);
      SteadyIsFirm(cfg, s, Act(cfg, s, action), a, mine);
    } else if Create(cfg, s, action.op.call).Ok? {
      CreateIsFirm(cfg, s, action.op.call, a, mine);
    }
  }

  /** Over every run, creates included, a paused token and a frozen collection keep their locks and their balances. */
  lemma {:induction false} FirmlyLockedOverRuns(cfg: Config, s: ShardState, actions: seq<Action>, a: Address,
      token: bytes, nonce: nat)
    requires ValidToken(token) && a != cfg.systemContract && FirmlyLocked(cfg, s, a, token, nonce)
    requires AllOrdinaryOrCreate(cfg, s, actions)
    ensures var s' := ActAll(cfg, s, actions);
            FirmlyLocked(cfg, s', a, token, nonce) &&
              Balance(s', a, KeyOf(token, nonce)) == Balance(s, a, KeyOf(token, nonce))
  {
    hide Act, FirmlyLocked, OrdinaryOrCreate;
    if actions != [] {
      var n := |actions| - 1;
      var s1 := ActAll(cfg, s, actions[..n]);
      FirmlyLockedOverRuns(cfg, s, actions[..n], a, token, nonce);
      ActIsFirm(cfg, s1, actions[n], a, token);
      StaysFirmlyLocked(cfg, s1, Act(cfg, s1, actions[n]), a, token, nonce);
    }
  }

  /** A wipe empties a frozen entry, and no other. */
  lemma OnlyWipeTakes(cfg: Config, s: ShardState, call: Call)
    requires Wipe(cfg, s, call).Ok?
    ensures FrozenAt(s, call.recipient, call.args[0])
    ensures forall b, k :: Entry(Wipe(cfg, s, call).value, b, k)
              == if b == call.recipient && k == call.args[0] then None else Entry(s, b, k)
  {
    hide AddLiquidity, ExtractTokenAndNonce;
    var a, k := call.recipient, call.args[0];
    var (token, nonce) := ExtractTokenAndNonce(k);
    if cfg.flags.wipeLiquidity {
      LiquidityKeepsEntries(cfg, Put(s, a, k, None), token, nonce, -ReadData(s, a, k).value);
    }
  }
}
