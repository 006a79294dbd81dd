/**
 * Which records count: over every run of era A a record counts what its shard holds, unless an update has rewritten it.
 */
module Counting {
  import opened Bytes
  import opened Results
  import opened Wire
  import opened Keys
  import opened Tokens
  import opened Storage
  import opened Transfers
  import opened Supply
  import opened Roles
  import opened Handoff
  import opened Operations
  import opened Totals
  import opened Moves
  import opened Liquidity
  import opened Availability
  import opened Invariants
  import opened OperationsKeep
  import opened Messages
  import opened Network
  import opened Sends
  import opened Deliveries
  import opened NetworkSafe
  import opened Runs

  /** No account keeps metadata. */
  ghost predicate Stripped(s: ShardState) {
    forall a, q :: Entry(s, a, q).Some? ==> Entry(s, a, q).value.metadata.None?
  }

  /** A rewritten record does not count; any other is a positive count, on which v may still have to be put. */
  predicate Pending(s: ShardState, k: bytes, rewritten: bool, v: int) {
    if rewritten then k in s.system && s.system[k].reserved == []
    else k in s.system ==>
      s.system[k].reserved != [] && (s.system[k].value > 0 || (s.system[k].value == 0 && v >= 0))
  }

  /** The same between operations, where nothing has to be put on. */
  ghost predicate Tally(s: ShardState, k: bytes, rewritten: bool) {
    Stripped(s) && forall v :: Pending(s, k, rewritten, v)
  }

  // ---- the storage rules ----

  lemma SameSystemTally(s: ShardState, s': ShardState, k: bytes, rewritten: bool)
    requires Tally(s, k, rewritten) && Stripped(s') && s'.system == s.system
    ensures Tally(s', k, rewritten)
  {
    forall v
      ensures Pending(s', k, rewritten, v)
    {
      assert Pending(s, k, rewritten, v);
    }
  }

  lemma SameTokensTally(s: ShardState, s': ShardState, k: bytes, rewritten: bool)
    requires Tally(s, k, rewritten) && SameTokens(s, s')
    ensures Tally(s', k, rewritten)
  {
    SameSystemTally(s, s', k, rewritten);
  }

  lemma PutStripped(s: ShardState, a: Address, q: bytes, e: Option<DCToken>)
    requires Stripped(s) && (e.Some? ==> e.value.metadata.None?)
    ensures Stripped(Put(s, a, q, e)) && Put(s, a, q, e).system == s.system
  {
    assert forall b, p :: Entry(Put(s, a, q, e), b, p) == if b == a && p == q then e else Entry(s, b, p);
  }

  lemma CountTally(cfg: Config, s: ShardState, token: bytes, nonce: nat, v: int, k: bytes, rewritten: bool)
    requires EraA(cfg) && Stripped(s) && AddLiquidity(cfg, s, token, nonce, v).Ok?
    requires if nonce > 0 && KeyOf(token, nonce) == k then Pending(s, k, rewritten, v) else Tally(s, k, rewritten)
    ensures Tally(AddLiquidity(cfg, s, token, nonce, v).value, k, rewritten)
  {
    var s' := AddLiquidity(cfg, s, token, nonce, v).value;
    assert forall a, q :: Entry(s', a, q) == Entry(s, a, q);
    forall u
      ensures Pending(s', k, rewritten, u)
    {
      if nonce == 0 || KeyOf(token, nonce) != k {
        assert Pending(s, k, rewritten, u);
      }
    }
  }

  /** The metadata that an account reads is that of the record. */
  lemma ReadIsRecorded(cfg: Config, s: ShardState, a: Address, token: bytes, nonce: nat)
    requires Stripped(s)
    ensures Read(cfg, s, a, token, nonce).0.metadata.Some? ==> nonce > 0 && KeyOf(token, nonce) in s.system
  {
    assert Entry(s, a, KeyOf(token, nonce)).Some? ==> Entry(s, a, KeyOf(token, nonce)).value.metadata.None?;
  }

  /** A save over a record that need not be updated leaves it alone; a new record starts a count. */
  lemma SaveTally(cfg: Config, s: ShardState, sender: Address, a: Address, token: bytes, nonce: nat, t: DCToken,
      ret: bool, k: bytes, rewritten: bool, v: int)
    requires EraA(cfg) && Tally(s, k, rewritten) && SaveToken(cfg, s, sender, a, token, nonce, t, false, ret).Ok?
    ensures var s' := SaveToken(cfg, s, sender, a, token, nonce, t, false, ret).value;
            && Stripped(s') && (v >= 0 ==> Pending(s', k, rewritten, v))
            && (nonce == 0 || KeyOf(token, nonce) != k ==> Tally(s', k, rewritten))
            && ((t.metadata.Some? ==> KeyOf(token, nonce) in s.system) ==>
                s'.system == s.system && Tally(s', k, rewritten))
  {
    hide CheckProperties;
    var q := KeyOf(token, nonce);
    var s1 := Record(cfg, s, sender, a, q, nonce, t, false).value;
    assert !IsOldEntry(s, a, q);
    assert forall b, p :: Entry(s1, b, p) == Entry(s, b, p);
    PutStripped(s1, a, q, Kept(cfg, t));
    assert forall u :: Pending(s, k, rewritten, u);
    assert Pending(s, k, rewritten, v) && Pending(s, k, rewritten, -1);
  }

  /** A save that must update a record makes it one that does not count. */
  lemma RewriteTally(cfg: Config, s: ShardState, a: Address, token: bytes, nonce: nat, t: DCToken, ret: bool, k: bytes,
      rewritten: bool, v: int)
    requires EraA(cfg) && Tally(s, k, rewritten) && SaveToken(cfg, s, a, a, token, nonce, t, true, ret).Ok?
    requires nonce > 0 && t.metadata.Some?
    ensures var s', q := SaveToken(cfg, s, a, a, token, nonce, t, true, ret).value, KeyOf(token, nonce);
            && Stripped(s') && (q != k ==> Tally(s', k, rewritten))
            && (q == k && k in s.system ==> Tally(s', k, true))
            && (q == k && k !in s.system && v >= 0 ==> !rewritten && Pending(s', k, false, v))
  {
    hide CheckProperties;
    var q := KeyOf(token, nonce);
    var s1 := Record(cfg, s, a, a, q, nonce, t, true).value;
    assert !IsOldEntry(s, a, q);
    assert forall b, p :: Entry(s1, b, p) == Entry(s, b, p);
    PutStripped(s1, a, q, Kept(cfg, t));
    assert Pending(s, k, rewritten, v) && Pending(s, k, rewritten, -1);
    assert forall u :: Pending(s, k, rewritten, u);
  }

  lemma BalanceTally(cfg: Config, s: ShardState, a: Address, q: bytes, v: int, ret: bool, k: bytes, rewritten: bool)
    requires Tally(s, k, rewritten) && AddToBalance(cfg, s, a, q, v, ret).Ok?
    ensures Tally(AddToBalance(cfg, s, a, q, v, ret).value, k, rewritten)
  {
    hide CheckFrozeAndPause, Pending;
    var t := ReadData(s, a, q).(value := ReadData(s, a, q).value + v);
    var e := if t.value == 0 && NoProperties(t.properties) then None else Some(t);
    assert Entry(s, a, q).Some? ==> Entry(s, a, q).value.metadata.None?;
    PutStripped(s, a, q, e);
    SameSystemTally(s, Put(s, a, q, e), k, rewritten);
  }

  // ---- transfers ----

  lemma DebitTally(cfg: Config, s: ShardState, snd: Address, token: bytes, nonce: nat, v: nat, short: Error, ret: bool,
      k: bytes, rewritten: bool)
    requires EraA(cfg) && Tally(s, k, rewritten) && Debit(cfg, s, snd, token, nonce, v, short, ret).Ok?
    ensures var (s1, sent) := Debit(cfg, s, snd, token, nonce, v, short, ret).value;
            Tally(s1, k, rewritten) && (sent.metadata.Some? ==> nonce > 0 && KeyOf(token, nonce) in s1.system)
  {
    hide SaveToken, Read, Tally;
    var t := ReadOnSender(cfg, s, snd, token, nonce).value;
    TallyStripped(s, k, rewritten);
    ReadIsRecorded(cfg, s, snd, token, nonce);
    SaveTally(cfg, s, snd, snd, token, nonce, t.(value := t.value - v), ret, k, rewritten, 0);
  }

  lemma TallyStripped(s: ShardState, k: bytes, rewritten: bool)
    requires Tally(s, k, rewritten)
    ensures Stripped(s) && forall v :: Pending(s, k, rewritten, v)
  {
  }

  /** A credit in the sender's shard finds the record; one from another shard may start a count. */
  lemma AddToDestinationTally(cfg: Config, s: ShardState, snd: Address, dst: Address, t: DCToken, token: bytes,
      nonce: nat, ret: bool, k: bytes, rewritten: bool)
    requires EraA(cfg) && Tally(s, k, rewritten) && t.value >= 0
    requires cfg.SameShard(snd, dst) && t.metadata.Some? ==> KeyOf(token, nonce) in s.system
    requires AddToDestination(cfg, s, snd, dst, t, token, nonce, ret).Ok?
    ensures Tally(AddToDestination(cfg, s, snd, dst, t, token, nonce, ret).value.0, k, rewritten)
  {
    hide SaveToken, AddLiquidity, Read, CheckFrozeAndPause, Tally;
    var sum := t.(value := t.value + Read(cfg, s, dst, token, nonce).0.value);
    SaveTally(cfg, s, snd, dst, token, nonce, sum, ret, k, rewritten, t.value);
    if !cfg.SameShard(snd, dst) {
      CountTally(cfg, SaveToken(cfg, s, snd, dst, token, nonce, sum, false, ret).value, token, nonce, t.value, k,
        rewritten);
    }
  }

  lemma HandTally(cfg: Config, s: ShardState, snd: Address, dst: Address, token: bytes, nonce: nat, t: DCToken,
      ret: bool, k: bytes, rewritten: bool)
    requires EraA(cfg) && Tally(s, k, rewritten) && cfg.Here(snd) && t.value >= 0
    requires t.metadata.Some? ==> KeyOf(token, nonce) in s.system
    requires Hand(cfg, s, snd, dst, token, nonce, t, ret).Ok?
    ensures Tally(Hand(cfg, s, snd, dst, token, nonce, t, ret).value.0, k, rewritten)
  {
    hide AddToDestination, AddLiquidity, Tally;
    if cfg.Here(dst) {
      AddToDestinationTally(cfg, s, snd, dst, t, token, nonce, ret, k, rewritten);
    } else {
      TallyStripped(s, k, rewritten);
      CountTally(cfg, s, token, nonce, -t.value, k, rewritten);
    }
  }

  lemma DebitCarries(cfg: Config, s: ShardState, snd: Address, token: bytes, nonce: nat, v: nat, short: Error,
      ret: bool)
    requires Debit(cfg, s, snd, token, nonce, v, short, ret).Ok?
    ensures Debit(cfg, s, snd, token, nonce, v, short, ret).value.1.value == v
  {
    hide SaveToken, Read;
  }

  lemma {:induction false} TransferAllTally(cfg: Config, s: ShardState, snd: Address, dst: Address, ts: seq<Triple>,
      ret: bool, k: bytes, rewritten: bool)
    requires EraA(cfg) && Tally(s, k, rewritten) && cfg.Here(snd) && TransferAll(cfg, s, snd, dst, ts, ret).Ok?
    ensures Tally(TransferAll(cfg, s, snd, dst, ts, ret).value.0, k, rewritten)
  {
    hide Debit, Hand, CheckLimited, Tally, FromBytes;
    if ts != [] {
      var n := |ts| - 1;
      var t, v := ts[n], FromBytes(ts[n].payload);
      TransferAllTally(cfg, s, snd, dst, ts[..n], ret, k, rewritten);
      var s1 := TransferAll(cfg, s, snd, dst, ts[..n], ret).value.0;
      var (s2, sent) := Debit(cfg, s1, snd, t.token, t.nonce, v, InsufficientQuantityDCT, ret).value;
      DebitTally(cfg, s1, snd, t.token, t.nonce, v, InsufficientQuantityDCT, ret, k, rewritten);
      DebitCarries(cfg, s1, snd, t.token, t.nonce, v, InsufficientQuantityDCT, ret);
      HandTally(cfg, s2, snd, dst, t.token, t.nonce, sent, ret, k, rewritten);
    }
  }

  lemma NothingMarkedInEraA(cfg: Config, s: ShardState, token: bytes, nonce: nat, dst: Address)
    requires EraA(cfg) && WasAlreadySent(cfg, s, token, nonce, dst).Ok?
    ensures WasAlreadySent(cfg, s, token, nonce, dst).value.0 == s
  {
  }

  lemma {:induction false} PackAllInEraA(cfg: Config, s: ShardState, dst: Address, ts: seq<Triple>, sent: seq<DCToken>,
      gas: nat)
    requires EraA(cfg) && |sent| == |ts| && PackAll(cfg, s, dst, ts, sent, gas).Ok?
    ensures PackAll(cfg, s, dst, ts, sent, gas).value.state == s
  {
    if ts != [] {
      PackAllInEraA(cfg, s, dst, ts[..|ts| - 1], sent[..|ts| - 1], gas);
      NothingMarkedInEraA(cfg, s, ts[|ts| - 1].token, ts[|ts| - 1].nonce, dst);
    }
  }

  lemma SendTally(cfg: Config, s: ShardState, kind: Kind, call: Call, k: bytes, rewritten: bool)
    requires EraA(cfg) && Tally(s, k, rewritten) && cfg.Here(call.caller) && PermittedSend(kind, call)
    requires SendAt(cfg, s, kind, call).Ok?
    ensures Tally(SendAt(cfg, s, kind, call).value.0, k, rewritten)
  {
    hide TransferAll, PackAll, Debit, Hand, AddToBalance, Tally, MultiTransferOnSender, NftTransferOnSender,
        FungibleTransfer, WasAlreadySent, FromBytes;
    match kind
    case MultiNft =>
      var s1, sent, m := MultiSendSteps(cfg, s, call);
      var ts, dst := Requested(call), call.args[0];
      TransferAllTally(cfg, s, call.caller, dst, ts, call.ret, k, rewritten);
      PackAllInEraA(cfg, s1, dst, ts, sent, call.gasProvided - Times(|ts|, cfg.costs.multiTransfer));
    case SingleNft =>
      var s1, sent, s2, left, s3, p := NftSendSteps(cfg, s, call);
      var t, v, dst := RequestedNft(call), FromBytes(call.args[2]), call.args[3];
      DebitTally(cfg, s, call.caller, t.token, t.nonce, v, InvalidNFTQuantity, call.ret, k, rewritten);
      DebitCarries(cfg, s, call.caller, t.token, t.nonce, v, InvalidNFTQuantity, call.ret);
      HandTally(cfg, s1, call.caller, dst, t.token, t.nonce, sent, call.ret, k, rewritten);
      NothingMarkedInEraA(cfg, s2, t.token, t.nonce, dst);
    case Fungible =>
      var here := cfg.Here(call.recipient);
      var s1 := FungibleSteps(cfg, s, call, true, here);
      var v: int := FromBytes(call.args[1]);
      BalanceTally(cfg, s, call.caller, call.args[0], -v, call.ret, k, rewritten);
      if here {
        BalanceTally(cfg, s1, call.recipient, call.args[0], v, call.ret, k, rewritten);
      }
  }

  lemma {:induction false} CreditAllTally(cfg: Config, s: ShardState, snd: Address, dst: Address, its: seq<Item>,
      ret: bool, k: bytes, rewritten: bool)
    requires EraA(cfg) && Tally(s, k, rewritten) && !cfg.SameShard(snd, dst)
    requires (forall i :: 0 <= i < |its| ==> its[i].carried.value >= 0) && CreditAll(cfg, s, snd, dst, its, ret).Ok?
    ensures Tally(CreditAll(cfg, s, snd, dst, its, ret).value, k, rewritten)
  {
    hide AddToDestination, AddToBalance, Tally;
    if its != [] {
      var n := |its| - 1;
      var it := its[n];
      CreditAllTally(cfg, s, snd, dst, its[..n], ret, k, rewritten);
      var s1 := CreditAll(cfg, s, snd, dst, its[..n], ret).value;
      if it.nonce > 0 {
        AddToDestinationTally(cfg, s1, snd, dst, it.carried, it.token, it.nonce, ret, k, rewritten);
      } else {
        BalanceTally(cfg, s1, dst, it.token, it.carried.value, ret, k, rewritten);
      }
    }
  }

  // ---- operations ----

  /** An operation that writes the record of k over an older one. */
  predicate Rewrites(cfg: Config, s: ShardState, op: Op, k: bytes) {
    Apply(cfg, s, op).Ok? &&
    match op
    case AddingUri(call) => |call.args| >= 2 && KeyOf(call.args[0], ReadUint64(call.args[1])) == k
    case UpdatingAttributes(call) => |call.args| >= 2 && KeyOf(call.args[0], ReadUint64(call.args[1])) == k
    case Creating(call) =>
      PlanCreate(cfg, s, call).Ok? && k in s.system &&
        KeyOf(PlanCreate(cfg, s, call).value.token, PlanCreate(cfg, s, call).value.nonce) == k
    case _ => false
  }

  lemma CreateTally(cfg: Config, s: ShardState, call: Call, k: bytes, rewritten: bool)
    requires EraA(cfg) && Tally(s, k, rewritten) && IsNftKey(k)
    requires Create(cfg, s, call).Ok? && ValidToken(TokenArg(call))
    ensures Tally(Create(cfg, s, call).value, k, rewritten || Rewrites(cfg, s, Creating(call), k))
  {
    hide SaveToken, AddLiquidity, PlanCreate, Tally, ValidToken;
    var c := PlanCreate(cfg, s, call).value;
    var q := KeyOf(c.token, c.nonce);
    var s1 := SaveToken(cfg, s, c.creator, c.creator, c.token, c.nonce, c.created, true, call.ret).value;
    var s2 := AddLiquidity(cfg, s1, c.token, c.nonce, c.quantity).value;
    var now := rewritten || Rewrites(cfg, s, Creating(call), k);
    TallyStripped(s, k, rewritten);
    PlainKey(c.token);
    if c.nonce == 0 {
      UnnumberedSaveTally(cfg, s, c.creator, c.token, c.created, call.ret, k, rewritten);
      TallyStripped(s1, k, rewritten);
    } else {
      RewriteTally(cfg, s, c.creator, c.token, c.nonce, c.created, call.ret, k, rewritten, c.quantity);
      if q == k && k in s.system {
        TallyStripped(s1, k, true);
      }
    }
    CountTally(cfg, s1, c.token, c.nonce, c.quantity, k, now);
    PutNonceTokens(s2, c.creator, c.token, c.nonce);
    SameTokensTally(s2, PutNonce(s2, c.creator, c.token, c.nonce), k, now);
  }

  /** A save under the nonce 0 writes no record. */
  lemma UnnumberedSaveTally(cfg: Config, s: ShardState, a: Address, token: bytes, t: DCToken, ret: bool, k: bytes,
      rewritten: bool)
    requires EraA(cfg) && Tally(s, k, rewritten) && SaveToken(cfg, s, a, a, token, 0, t, true, ret).Ok?
    ensures Tally(SaveToken(cfg, s, a, a, token, 0, t, true, ret).value, k, rewritten)
  {
    hide CheckProperties, Pending;
    PutStripped(s, a, KeyOf(token, 0), Kept(cfg, t));
    SameSystemTally(s, Put(s, a, KeyOf(token, 0), Kept(cfg, t)), k, rewritten);
  }

  lemma AddQuantityTally(cfg: Config, s: ShardState, call: Call, k: bytes, rewritten: bool)
    requires EraA(cfg) && Tally(s, k, rewritten) && AddQuantity(cfg, s, call).Ok?
    ensures Tally(AddQuantity(cfg, s, call).value, k, rewritten)
  {
    hide SaveToken, AddLiquidity, Read, Tally;
    var a, token, nonce, v := call.caller, call.args[0], ReadUint64(call.args[1]), FromBytes(call.args[2]);
    var t := ReadOnSender(cfg, s, a, token, nonce).value;
    var u := t.(value := t.value + v);
    TallyStripped(s, k, rewritten);
    ReadIsRecorded(cfg, s, a, token, nonce);
    SaveTally(cfg, s, a, a, token, nonce, u, call.ret, k, rewritten, v);
    CountTally(cfg, SaveToken(cfg, s, a, a, token, nonce, u, false, call.ret).value, token, nonce, v, k, rewritten);
  }

  lemma BurnTally(cfg: Config, s: ShardState, call: Call, k: bytes, rewritten: bool)
    requires EraA(cfg) && Tally(s, k, rewritten) && Burn(cfg, s, call).Ok?
    ensures Tally(Burn(cfg, s, call).value, k, rewritten)
  {
    hide Debit, AddLiquidity, Tally;
    var a, token, nonce, v := call.caller, call.args[0], ReadUint64(call.args[1]), FromBytes(call.args[2]);
    DebitTally(cfg, s, a, token, nonce, v, InvalidNFTQuantity, call.ret, k, rewritten);
    var s1 := Debit(cfg, s, a, token, nonce, v, InvalidNFTQuantity, call.ret).value.0;
    TallyStripped(s1, k, rewritten);
    CountTally(cfg, s1, token, nonce, -(v as int), k, rewritten);
  }

  lemma UpdateTally(cfg: Config, s: ShardState, call: Call, role: bytes, cost: nat, update: MetaData -> MetaData,
      k: bytes, rewritten: bool)
    requires EraA(cfg) && Tally(s, k, rewritten) && UpdateMetaData(cfg, s, call, role, cost, update).Ok?
    ensures |call.args| >= 2
    ensures Tally(UpdateMetaData(cfg, s, call, role, cost, update).value, k,
      rewritten || KeyOf(call.args[0], ReadUint64(call.args[1])) == k)
  {
    hide SaveToken, Read, Tally;
    var a, token, nonce := call.caller, call.args[0], ReadUint64(call.args[1]);
    var t := ReadOnSender(cfg, s, a, token, nonce).value;
    TallyStripped(s, k, rewritten);
    ReadIsRecorded(cfg, s, a, token, nonce);
    RewriteTally(cfg, s, a, token, nonce, t.(metadata := Some(update(t.metadata.value))), call.ret, k, rewritten, 0);
  }

  lemma WipeTally(cfg: Config, s: ShardState, call: Call, k: bytes, rewritten: bool)
    requires EraA(cfg) && Tally(s, k, rewritten) && Wipe(cfg, s, call).Ok?
    ensures Tally(Wipe(cfg, s, call).value, k, rewritten)
  {
    hide AddLiquidity, ExtractTokenAndNonce, Wipe, Pending, Tally, Stripped;
    WipeIs(cfg, s, call);
    var a, q := call.recipient, call.args[0];
    TallyStripped(s, k, rewritten);
    PutStripped(s, a, q, None);
    SameSystemTally(s, Put(s, a, q, None), k, rewritten);
    TallyStripped(Put(s, a, q, None), k, rewritten);
    if cfg.flags.wipeLiquidity {
      CountTally(cfg, Put(s, a, q, None), ExtractTokenAndNonce(q).0, ExtractTokenAndNonce(q).1, -Balance(s, a, q), k,
        rewritten);
    }
  }

  lemma FreezeTally(cfg: Config, s: ShardState, call: Call, on: bool, k: bytes, rewritten: bool)
    requires Tally(s, k, rewritten) && ToggleFreeze(cfg, s, call, on).Ok?
    ensures Tally(ToggleFreeze(cfg, s, call, on).value, k, rewritten)
  {
    hide Pending;
    var a, q := call.recipient, call.args[0];
    var t := ReadData(s, a, q).(properties := FreezeBytes(on));
    assert Entry(s, a, q).Some? ==> Entry(s, a, q).value.metadata.None?;
    PutStripped(s, a, q, if t.value == 0 && NoProperties(t.properties) then None else Some(t));
    SameSystemTally(s, ToggleFreeze(cfg, s, call, on).value, k, rewritten);
  }

  /** An operation leaves the record of k counting, or makes it one that does not count by rewriting it. */
  lemma ApplyTally(cfg: Config, s: ShardState, op: Op, k: bytes, rewritten: bool)
    requires EraA(cfg) && Tally(s, k, rewritten) && Apply(cfg, s, op).Ok? && IsNftKey(k) && Permitted(cfg, op)
    ensures Tally(Apply(cfg, s, op).value, k, rewritten || Rewrites(cfg, s, op, k))
  {
    hide Tally, Create, AddQuantity, Burn, UpdateMetaData, AddToBalance, Wipe, ToggleFreeze, SetRoles, SetAddresses,
        ToggleSetting, GiveUp, Receive, PlanCreate, FromBytes;
    if TouchesNoToken(op) {
      OtherOperationsKeepTokens(cfg, s, op);
      SameTokensTally(s, Apply(cfg, s, op).value, k, rewritten);
    }
    match op
    case Creating(call) => CreateTally(cfg, s, call, k, rewritten);
    case AddingQuantity(call) => AddQuantityTally(cfg, s, call, k, rewritten);
    case Burning(call) => BurnTally(cfg, s, call, k, rewritten);
    case AddingUri(call) =>
      var uris := if |call.args| >= 2 then call.args[2..] else [];
      UpdateTally(cfg, s, call, ROLE_NFT_ADD_URI, cfg.costs.addUri, (m: MetaData) => m.(uris := m.uris + uris), k,
        rewritten);
    case UpdatingAttributes(call) =>
      var attributes := call.args[2];
      UpdateTally(cfg, s, call, ROLE_NFT_UPDATE_ATTRIBUTES, cfg.costs.updateAttributes,
        (m: MetaData) => m.(attributes := attributes), k, rewritten);
    case Minting(call) =>
      BalanceTally(cfg, s, call.caller, call.args[0], FromBytes(call.args[1]), call.ret, k, rewritten);
    case BurningLocal(call) =>
      BalanceTally(cfg, s, call.caller, call.args[0], -(FromBytes(call.args[1]) as int), call.ret, k, rewritten);
    case Freezing(call, on) => FreezeTally(cfg, s, call, on, k, rewritten);
    case Wiping(call) => WipeTally(cfg, s, call, k, rewritten);
    case _ =>
  }

  // ---- runs ----

  /** At some time of the run an operation of shard j wrote the record of k over an older one. */
  predicate Rewritten(cfg: Config, events: seq<Event>, j: nat, k: bytes) {
    events != [] &&
    (var n := |events| - 1;
     var w, e := Run(cfg, Genesis(cfg), events[..n]), events[n];
     Rewritten(cfg, events[..n], j, k) ||
       (e.Local? && e.shard == j && j < |w.shards| && Rewrites(At(cfg, j), w.shards[j], e.op, k)))
  }

  lemma StepTally(cfg: Config, w: World, e: Event, j: nat, k: bytes, rewritten: bool)
    requires Environment(cfg) && EraA(cfg) && Safe(cfg, w) && Allowed(cfg, e) && IsNftKey(k)
    requires j < |w.shards| && Tally(w.shards[j], k, rewritten)
    ensures |Step(cfg, w, e).shards| == |w.shards|
    ensures Tally(Step(cfg, w, e).shards[j], k,
      rewritten || (e.Local? && e.shard == j && Rewrites(At(cfg, j), w.shards[j], e.op, k)))
  {
    hide Tally, Safe, Apply, SendAt, DeliverAt, Permitted, PermittedSend, RecordFailed, CreditAll, ItemsIn, Legible,
        Deliverable, IsFirst, Environment;
    match e
    case Local(i, op) =>
      if i == j && Apply(At(cfg, j), w.shards[j], op).Ok? {
        ApplyTally(At(cfg, j), w.shards[j], op, k, rewritten);
      } else if i == j {
        FailedRewritesNothing(At(cfg, j), w.shards[j], op, k);
      }
    case Send(kind, call) =>
      if cfg.shardOf(call.caller) == j && SendAt(At(cfg, j), w.shards[j], kind, call).Ok? {
        SendTally(At(cfg, j), w.shards[j], kind, call, k, rewritten);
      }
    case Deliver(i, gas, callType, payable) =>
      if i < |w.net| && IsFirst(cfg, w.net, i) && cfg.shardOf(w.net[i].receiver) == j {
        DeliveryTally(cfg, w, i, gas, callType, payable, k, rewritten);
      }
  }

  lemma FailedRewritesNothing(cfg: Config, s: ShardState, op: Op, k: bytes)
    requires Apply(cfg, s, op).Err?
    ensures !Rewrites(cfg, s, op, k)
  {
  }

  lemma DeliveryTally(cfg: Config, w: World, i: nat, gas: nat, callType: CallType, payable: bool, k: bytes,
      rewritten: bool)
    requires Environment(cfg) && EraA(cfg) && Safe(cfg, w) && i < |w.net| && IsFirst(cfg, w.net, i)
    requires var j := cfg.shardOf(w.net[i].receiver); j < |w.shards| && Tally(w.shards[j], k, rewritten)
    ensures var j := cfg.shardOf(w.net[i].receiver);
            Tally(Step(cfg, w, Deliver(i, gas, callType, payable)).shards[j], k, rewritten)
  {
    hide Tally, Safe, DeliverAt, CreditAll, ItemsIn, Items, Deliverable, IsFirst;
    var m := w.net[i];
    var j, its := cfg.shardOf(m.receiver), ItemsIn(cfg, m);
    var s := w.shards[j];
    if DeliverAt(At(cfg, j), s, m, gas, callType, payable).Ok? {
      ArrivesDeliverable(cfg, w, i);
      DeliverableAmounts(cfg, s.system.Keys, its);
      ItemsAt(cfg, j, m.data);
      DeliversItems(At(cfg, j), s, m, gas, callType, payable, its);
      CreditAllTally(At(cfg, j), s, m.sender, m.receiver, its, m.ret, k, rewritten);
    }
  }

  lemma {:induction false} RunTally(cfg: Config, events: seq<Event>, j: nat, k: bytes)
    requires Environment(cfg) && EraA(cfg) && AllAllowed(cfg, events) && IsNftKey(k) && j < cfg.numShards
    ensures var w := Run(cfg, Genesis(cfg), events);
            |w.shards| == cfg.numShards && Tally(w.shards[j], k, Rewritten(cfg, events, j, k))
  {
    hide Tally, Safe, Step, Allowed, Rewrites, Environment;
    if events == [] {
      assert Tally(EMPTY_SHARD, k, false) by {
        EmptyTally(k);
      }
    } else {
      var n := |events| - 1;
      RunTally(cfg, events[..n], j, k);
      RunIsSafe(cfg, events[..n]);
      StepTally(cfg, Run(cfg, Genesis(cfg), events[..n]), events[n], j, k, Rewritten(cfg, events[..n], j, k));
    }
  }

  lemma EmptyTally(k: bytes)
    ensures Tally(EMPTY_SHARD, k, false)
  {
  }

  /**
   * Over every run of era A: the record of an NFT that was rewritten never counts again; any other record is there
   * exactly while the shard holds some of the token, and counts exactly what it holds.
   */
  lemma CountedExactly(cfg: Config, events: seq<Event>, j: nat, token: bytes, nonce: nat)
    requires Environment(cfg) && EraA(cfg) && AllAllowed(cfg, events) && ValidToken(token) && nonce > 0
    requires j < cfg.numShards
    ensures j < |Run(cfg, Genesis(cfg), events).shards|
    ensures var s, k := Run(cfg, Genesis(cfg), events).shards[j], KeyOf(token, nonce);
            if Rewritten(cfg, events, j, k) then k in s.system && s.system[k].reserved == []
            else
              && (k in s.system <==> Total(s, k) > 0)
              && (k in s.system ==> s.system[k].reserved != [] && s.system[k].value == Total(s, k))
  {
    hide Run, Genesis, AllAllowed, Rewritten, Safe, Stripped, Total;
    var w, k := Run(cfg, Genesis(cfg), events), KeyOf(token, nonce);
    assert IsNftKey(k);
    RunTally(cfg, events, j, k);
    RunIsSafe(cfg, events);
    ShardInv(cfg, w, j);
    assert Backed(w.shards[j], k, 0);
    assert Pending(w.shards[j], k, Rewritten(cfg, events, j, k), -1);
  }
}
