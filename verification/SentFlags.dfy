/** Sending metadata once: which flags each operation sets on the records of a shard, and what they promise. */
module SentFlags {
  import opened Bytes
  import opened Results
  import opened Wire
  import opened Keys
  import opened Tokens
  import opened Storage
  import opened Transfers
  import opened Supply
  import opened Roles
  import opened Handoff
  import opened Operations
  import opened Moves
  import opened Availability
  import opened Invariants
  import opened OperationsKeep
  import opened Messages

  /** The record of k says that shard e has the metadata. */
  predicate Flagged(s: ShardState, k: bytes, e: nat) {
    k in s.system && e < |s.system[k].properties| && s.system[k].properties[e] > 0
  }

  function FlaggedFor(s: ShardState, e: nat): set<bytes> {
    set k | k in s.system && Flagged(s, k, e)
  }

  /** Apart from a shard's own flag, only the flags of shard x for the given keys are new. */
  ghost predicate NewFlags(self: nat, s: ShardState, s': ShardState, x: nat, keys: set<bytes>) {
    forall k, e :: e != self && Flagged(s', k, e) ==> Flagged(s, k, e) || (e == x && k in keys)
  }

  lemma NewFlagsRefl(self: nat, s: ShardState, x: nat)
    ensures NewFlags(self, s, s, x, {})
  {
  }

  lemma NewFlagsTrans(self: nat, s: ShardState, s1: ShardState, s2: ShardState, x: nat, keys: set<bytes>,
      more: set<bytes>)
    requires NewFlags(self, s, s1, x, keys) && NewFlags(self, s1, s2, x, more)
    ensures NewFlags(self, s, s2, x, keys + more)
  {
  }

  lemma SaveMetaDataFlags(cfg: Config, s: ShardState, user: Option<Address>, senderShard: nat, k: bytes, nonce: nat,
      t: DCToken, mustUpdate: bool)
    requires EraB(cfg) && SaveMetaData(cfg, s, user, senderShard, k, nonce, t, mustUpdate).Ok?
    ensures NewFlags(cfg.self, s, SaveMetaData(cfg, s, user, senderShard, k, nonce, t, mustUpdate).value, senderShard,
                     if nonce > 0 && t.metadata.Some? then {k} else {})
  {
  }

  /** A record that is saved after a failed delivery. */
  lemma SaveMetaDataKeeps(cfg: Config, s: ShardState, senderShard: nat, k: bytes, nonce: nat, t: DCToken)
    requires EraB(cfg) && Available(s) && cfg.self < cfg.numShards && senderShard < cfg.numShards
    ensures var r := SaveMetaData(cfg, s, None, senderShard, k, nonce, t, true);
            r.Ok? && Available(r.value) && KeepsRecords(s, r.value) &&
              (nonce > 0 && t.metadata.Some? ==> k in r.value.system)
  {
    var s1 := SaveMetaData(cfg, s, None, senderShard, k, nonce, t, true).value;
    assert s1.accounts == s.accounts;
    assert forall b, q :: Entry(s1, b, q) == Entry(s, b, q);
    assert forall b, q :: Balance(s1, b, q) == Balance(s, b, q);
  }

  lemma SaveTokenFlags(cfg: Config, s: ShardState, sender: Address, a: Address, token: bytes, nonce: nat,
                       t: DCToken, mustUpdate: bool, ret: bool)
    requires EraB(cfg) && SaveToken(cfg, s, sender, a, token, nonce, t, mustUpdate, ret).Ok?
    ensures NewFlags(cfg.self, s, SaveToken(cfg, s, sender, a, token, nonce, t, mustUpdate, ret).value,
      cfg.shardOf(sender),
                     if nonce > 0 && t.metadata.Some? then {KeyOf(token, nonce)} else {})
    ensures KeepsRecords(s, SaveToken(cfg, s, sender, a, token, nonce, t, mustUpdate, ret).value)
  {
    SaveMetaDataFlags(cfg, s, Some(a), cfg.shardOf(sender), KeyOf(token, nonce), nonce, t, mustUpdate);
  }

  // ---- credits ----

  lemma CreditFlags(cfg: Config, s: ShardState, snd: Address, dst: Address, it: Item, ret: bool)
    requires EraB(cfg) && Credit(cfg, s, snd, dst, it, ret).Ok?
    ensures NewFlags(cfg.self, s, Credit(cfg, s, snd, dst, it, ret).value, cfg.shardOf(snd), BroughtBy(it))
  {
    hide SaveToken;
    if it.nonce > 0 {
      var sum := it.carried.(value := it.carried.value + Read(cfg, s, dst, it.token, it.nonce).0.value);
      SaveTokenFlags(cfg, s, snd, dst, it.token, it.nonce, sum, false, ret);
    }
  }

  lemma {:induction false} CreditAllFlags(cfg: Config, s: ShardState, snd: Address, dst: Address, its: seq<Item>,
      ret: bool)
    requires EraB(cfg) && CreditAll(cfg, s, snd, dst, its, ret).Ok?
    ensures NewFlags(cfg.self, s, CreditAll(cfg, s, snd, dst, its, ret).value, cfg.shardOf(snd), Brought(its))
  {
    hide Credit, NewFlags;
    if its != [] {
      var n := |its| - 1;
      CreditAllFlags(cfg, s, snd, dst, its[..n], ret);
      var s1 := CreditAll(cfg, s, snd, dst, its[..n], ret).value;
      CreditFlags(cfg, s1, snd, dst, its[n], ret);
      NewFlagsTrans(cfg.self, s, s1, Credit(cfg, s1, snd, dst, its[n], ret).value, cfg.shardOf(snd), Brought(its[..n]),
        BroughtBy(its[n]));
    } else {
      NewFlagsRefl(cfg.self, s, cfg.shardOf(snd));
    }
  }

  // ---- operations of the shard itself ----

  /** No flag of another shard is new, and no record is lost. */
  ghost predicate OwnFlags(cfg: Config, s: ShardState, s': ShardState) {
    NewFlags(cfg.self, s, s', cfg.self, {}) && KeepsRecords(s, s')
  }

  lemma SameSystemOwnFlags(cfg: Config, s: ShardState, s': ShardState)
    requires s'.system == s.system
    ensures OwnFlags(cfg, s, s')
  {
  }

  lemma OwnSaveFlags(cfg: Config, s: ShardState, a: Address, token: bytes, nonce: nat, t: DCToken, mustUpdate: bool,
      ret: bool)
    requires EraB(cfg) && cfg.Here(a) && SaveToken(cfg, s, a, a, token, nonce, t, mustUpdate, ret).Ok?
    ensures OwnFlags(cfg, s, SaveToken(cfg, s, a, a, token, nonce, t, mustUpdate, ret).value)
  {
    hide SaveToken;
    SaveTokenFlags(cfg, s, a, a, token, nonce, t, mustUpdate, ret);
  }

  lemma DebitFlags(cfg: Config, s: ShardState, snd: Address, token: bytes, nonce: nat, v: nat, short: Error, ret: bool)
    requires EraB(cfg) && cfg.Here(snd) && Debit(cfg, s, snd, token, nonce, v, short, ret).Ok?
    ensures OwnFlags(cfg, s, Debit(cfg, s, snd, token, nonce, v, short, ret).value.0)
  {
    hide SaveToken, OwnFlags;
    var t := ReadOnSender(cfg, s, snd, token, nonce).value;
    OwnSaveFlags(cfg, s, snd, token, nonce, t.(value := t.value - v), false, ret);
  }

  lemma OwnFlagsTrans(cfg: Config, s: ShardState, s1: ShardState, s2: ShardState)
    requires OwnFlags(cfg, s, s1) && OwnFlags(cfg, s1, s2)
    ensures OwnFlags(cfg, s, s2)
  {
    NewFlagsTrans(cfg.self, s, s1, s2, cfg.self, {}, {});
  }

  /** The two halves of a send. */
  lemma HandFlags(cfg: Config, s: ShardState, snd: Address, dst: Address, token: bytes, nonce: nat, t: DCToken,
      ret: bool)
    requires EraB(cfg) && cfg.Here(snd) && Hand(cfg, s, snd, dst, token, nonce, t, ret).Ok?
    ensures OwnFlags(cfg, s, Hand(cfg, s, snd, dst, token, nonce, t, ret).value.0)
  {
    hide SaveToken;
    if cfg.Here(dst) {
      var sum := t.(value := t.value + Read(cfg, s, dst, token, nonce).0.value);
      SaveTokenFlags(cfg, s, snd, dst, token, nonce, sum, false, ret);
    }
  }

  lemma TransferOneFlags(cfg: Config, s: ShardState, snd: Address, dst: Address, t: Triple, ret: bool)
    requires EraB(cfg) && cfg.Here(snd) && TransferOne(cfg, s, snd, dst, t, ret).Ok?
    ensures OwnFlags(cfg, s, TransferOne(cfg, s, snd, dst, t, ret).value.0)
  {
    hide Debit, Hand, OwnFlags, CheckLimited;
    var v := FromBytes(t.payload);
    var (s1, sent) := Debit(cfg, s, snd, t.token, t.nonce, v, InsufficientQuantityDCT, ret).value;
    DebitFlags(cfg, s, snd, t.token, t.nonce, v, InsufficientQuantityDCT, ret);
    HandFlags(cfg, s1, snd, dst, t.token, t.nonce, sent, ret);
    OwnFlagsTrans(cfg, s, s1, Hand(cfg, s1, snd, dst, t.token, t.nonce, sent, ret).value.0);
  }

  lemma {:induction false} TransferAllFlags(cfg: Config, s: ShardState, snd: Address, dst: Address, ts: seq<Triple>,
      ret: bool)
    requires EraB(cfg) && cfg.Here(snd) && TransferAll(cfg, s, snd, dst, ts, ret).Ok?
    ensures OwnFlags(cfg, s, TransferAll(cfg, s, snd, dst, ts, ret).value.0)
  {
    hide TransferOne, OwnFlags;
    if ts != [] {
      var n := |ts| - 1;
      TransferAllFlags(cfg, s, snd, dst, ts[..n], ret);
      var s1 := TransferAll(cfg, s, snd, dst, ts[..n], ret).value.0;
      TransferOneFlags(cfg, s1, snd, dst, ts[n], ret);
      OwnFlagsTrans(cfg, s, s1, TransferOne(cfg, s1, snd, dst, ts[n], ret).value.0);
    } else {
      SameSystemOwnFlags(cfg, s, s);
    }
  }

  /** The account whose tokens an operation saves lives in this shard. */
  predicate ActsHere(cfg: Config, op: Op) {
    match op
    case Creating(call) => Creator(call).Ok? ==> cfg.Here(Creator(call).value.0)
    case AddingQuantity(call) => cfg.Here(call.caller)
    case Burning(call) => cfg.Here(call.caller)
    case AddingUri(call) => cfg.Here(call.caller)
    case UpdatingAttributes(call) => cfg.Here(call.caller)
    case _ => true
  }

  lemma UpdateFlags(cfg: Config, s: ShardState, call: Call, role: bytes, cost: nat, update: MetaData -> MetaData)
    requires EraB(cfg) && cfg.Here(call.caller) && UpdateMetaData(cfg, s, call, role, cost, update).Ok?
    ensures OwnFlags(cfg, s, UpdateMetaData(cfg, s, call, role, cost, update).value)
  {
    hide SaveToken, OwnFlags;
    var a, token, nonce := call.caller, call.args[0], ReadUint64(call.args[1]);
    var t := ReadOnSender(cfg, s, a, token, nonce).value;
    OwnSaveFlags(cfg, s, a, token, nonce, t.(metadata := Some(update(t.metadata.value))), true, call.ret);
  }

  lemma CreateFlags(cfg: Config, s: ShardState, call: Call)
    requires EraB(cfg) && ActsHere(cfg, Creating(call)) && Create(cfg, s, call).Ok?
    ensures OwnFlags(cfg, s, Create(cfg, s, call).value)
  {
    hide SaveToken, OwnFlags;
    var c := PlanCreate(cfg, s, call).value;
    OwnSaveFlags(cfg, s, c.creator, c.token, c.nonce, c.created, true, call.ret);
    var s1 := SaveToken(cfg, s, c.creator, c.creator, c.token, c.nonce, c.created, true, call.ret).value;
    SameSystemOwnFlags(cfg, s1, Create(cfg, s, call).value);
    OwnFlagsTrans(cfg, s, s1, Create(cfg, s, call).value);
  }

  lemma AddQuantityFlags(cfg: Config, s: ShardState, call: Call)
    requires EraB(cfg) && cfg.Here(call.caller) && AddQuantity(cfg, s, call).Ok?
    ensures OwnFlags(cfg, s, AddQuantity(cfg, s, call).value)
  {
    hide SaveToken, OwnFlags;
    var a, token, nonce := call.caller, call.args[0], ReadUint64(call.args[1]);
    var t := ReadOnSender(cfg, s, a, token, nonce).value;
    OwnSaveFlags(cfg, s, a, token, nonce, t.(value := t.value + FromBytes(call.args[2])), false, call.ret);
  }

  lemma BurnFlags(cfg: Config, s: ShardState, call: Call)
    requires EraB(cfg) && cfg.Here(call.caller) && Burn(cfg, s, call).Ok?
    ensures OwnFlags(cfg, s, Burn(cfg, s, call).value)
  {
    hide Debit, OwnFlags;
    DebitFlags(cfg, s, call.caller, call.args[0], ReadUint64(call.args[1]), FromBytes(call.args[2]), InvalidNFTQuantity,
      call.ret);
  }

  predicate SavesTokens(op: Op) {
    op.Creating? || op.AddingQuantity? || op.Burning? || op.AddingUri? || op.UpdatingAttributes?
  }

  lemma OtherOperationsKeepSystem(cfg: Config, s: ShardState, op: Op)
    requires EraB(cfg) && !SavesTokens(op) && Apply(cfg, s, op).Ok?
    ensures Apply(cfg, s, op).value.system == s.system
  {
    hide GiveUp, SetRoles, SetAddresses, Receive, ToggleSetting;
    if TouchesNoToken(op) {
      OtherOperationsKeepTokens(cfg, s, op);
    }
  }

  /** An operation of a shard claims nothing about the others. */
  lemma ApplyFlags(cfg: Config, s: ShardState, op: Op)
    requires EraB(cfg) && ActsHere(cfg, op) && Apply(cfg, s, op).Ok?
    ensures OwnFlags(cfg, s, Apply(cfg, s, op).value)
  {
    hide OwnFlags, Create, AddQuantity, Burn, UpdateMetaData;
    match op
    case Creating(call) => CreateFlags(cfg, s, call);
    case AddingQuantity(call) => AddQuantityFlags(cfg, s, call);
    case Burning(call) => BurnFlags(cfg, s, call);
    case AddingUri(call) =>
      var uris := if |call.args| >= 2 then call.args[2..] else [];
      UpdateFlags(cfg, s, call, ROLE_NFT_ADD_URI, cfg.costs.addUri, (m: MetaData) => m.(uris := m.uris + uris));
    case UpdatingAttributes(call) =>
      var attributes := call.args[2];
      UpdateFlags(cfg, s, call, ROLE_NFT_UPDATE_ATTRIBUTES, cfg.costs.updateAttributes,
        (m: MetaData) => m.(attributes := attributes));
    case _ =>
      OtherOperationsKeepSystem(cfg, s, op);
      SameSystemOwnFlags(cfg, s, Apply(cfg, s, op).value);
  }

  // ---- packing a message ----

  /**
   * What packing one transfer does: a flag that is set goes with the metadata, a bare amount only where the flag was
   * set.
   */
  lemma PayloadFlags(cfg: Config, s: ShardState, dst: Address, t: Triple, sent: DCToken, gas: nat)
    requires EraB(cfg) && cfg.GoodShards() && cfg.GoodMarshaller() && !cfg.Here(dst)
    requires SentFor(t, sent) && PayloadOf(cfg, s, dst, t, sent, gas).Ok?
    ensures var p := PayloadOf(cfg, s, dst, t, sent, gas).value;
            var it := ItemOf(cfg, Triple(t.token, t.nonce, p.payload));
            && it.Ok? && NewFlags(cfg.self, s, p.state, cfg.shardOf(dst), BroughtBy(it.value)) &&
              KeepsRecords(s, p.state)
            && (t.nonce > 0 && cfg.shardOf(dst) != METACHAIN ==>
                KeyOf(t.token, t.nonce) in FlaggedFor(s, cfg.shardOf(dst)) + BroughtBy(it.value))
  {
    hide FromBytes, ToBytes;
    FromToBytes(FromBytes(t.payload));
    assert cfg.unmarshal(cfg.marshal(sent)) == Some(sent);
    assert sent.metadata.Some? ==> |cfg.marshal(sent)| > MAX_LENGTH_FOR_VALUE;
    assert cfg.shardOf(dst) < cfg.numShards || cfg.shardOf(dst) == METACHAIN;
  }

  lemma FlaggedForGrows(self: nat, s: ShardState, s': ShardState, e: nat, keys: set<bytes>)
    requires NewFlags(self, s, s', e, keys) && e != self
    ensures FlaggedFor(s', e) <= FlaggedFor(s, e) + keys
  {
  }

  /** A packed message needs no record beyond the flagged ones and those it brings. */
  lemma {:induction false} PackAllFlags(cfg: Config, s: ShardState, dst: Address, ts: seq<Triple>, sent: seq<DCToken>,
      gas: nat, its: seq<Item>)
    requires EraB(cfg) && cfg.GoodShards() && cfg.GoodMarshaller() && !cfg.Here(dst)
    requires ValidTriples(ts) && AllSentFor(ts, sent) && PackAll(cfg, s, dst, ts, sent, gas).Ok?
    requires Reads(cfg, TriplesFrom(PackAll(cfg, s, dst, ts, sent, gas).value.args, 0, |ts|), its) && AllMatch(ts, its)
    requires forall i :: 0 <= i < |ts| ==> ts[i].nonce < U64
    ensures var s' := PackAll(cfg, s, dst, ts, sent, gas).value.state;
            && NewFlags(cfg.self, s, s', cfg.shardOf(dst), Brought(its)) && KeepsRecords(s, s')
            && (cfg.shardOf(dst) != METACHAIN ==> Deliverable(cfg, FlaggedFor(s, cfg.shardOf(dst)), its))
  {
    hide PayloadOf, ItemOf, NewFlags, NonceArg, ReadUint64, SentFor;
    if ts != [] {
      var n, d := |ts| - 1, cfg.shardOf(dst);
      var t := ts[n];
      var m := PackAll(cfg, s, dst, ts[..n], sent[..n], gas).value;
      var p := PayloadOf(cfg, m.state, dst, t, sent[n], m.gas).value;
      NonceRoundTrip(t.nonce);
      TriplesSnoc(m.args, t.token, NonceArg(t.nonce), p.payload, n);
      PackAllFlags(cfg, s, dst, ts[..n], sent[..n], gas, its[..n]);
      PayloadFlags(cfg, m.state, dst, t, sent[n], m.gas);
      SentAmount(t, sent[n]);
      assert ItemOf(cfg, Triple(t.token, t.nonce, p.payload)) == Ok(its[n]);
      FlaggedForGrows(cfg.self, s, m.state, d, Brought(its[..n]));
      NewFlagsTrans(cfg.self, s, m.state, p.state, d, Brought(its[..n]), BroughtBy(its[n]));
    } else {
      NewFlagsRefl(cfg.self, s, cfg.shardOf(dst));
    }
  }

  lemma SentAmount(t: Triple, sent: DCToken)
    requires SentFor(t, sent)
    ensures FromBytes(t.payload) > 0
  {
  }

  /** Every NFT that a list debits has its record in the sender's shard. */
  lemma {:induction false} TransferAllRecorded(cfg: Config, s: ShardState, snd: Address, dst: Address, ts: seq<Triple>,
      ret: bool)
    requires EraB(cfg) && Inv(cfg, s) && ValidTriples(ts) && cfg.Here(snd) && TransferAll(cfg, s, snd, dst, ts, ret).Ok?
    ensures forall i :: 0 <= i < |ts| && ts[i].nonce > 0 ==>
              KeyOf(ts[i].token, ts[i].nonce) in TransferAll(cfg, s, snd, dst, ts, ret).value.0.system
  {
    hide TransferOne, Inv;
    if ts != [] {
      var n := |ts| - 1;
      var s1 := TransferAll(cfg, s, snd, dst, ts[..n], ret).value.0;
      TransferAllRecorded(cfg, s, snd, dst, ts[..n], ret);
      TransferAllInv(cfg, s, snd, dst, ts[..n], ret);
      TransferOneFlags(cfg, s1, snd, dst, ts[n], ret);
      TransferOneHeld(cfg, s1, snd, dst, ts[n], ret);
    }
  }

  lemma TransferOneHeld(cfg: Config, s: ShardState, snd: Address, dst: Address, t: Triple, ret: bool)
    requires Inv(cfg, s) && ValidToken(t.token) && TransferOne(cfg, s, snd, dst, t, ret).Ok?
    ensures t.nonce > 0 ==> KeyOf(t.token, t.nonce) in s.system
  {
    InvBasics(cfg, s);
    DebitEffect(cfg, s, snd, t.token, t.nonce, FromBytes(t.payload), InsufficientQuantityDCT, ret);
    if t.nonce > 0 {
      HolderHasRecord(cfg, s, snd, t.token, t.nonce);
    }
  }

  // ---- recording a failed delivery ----

  /** What recording a failed delivery leaves: records for everything the message brought, and flags for its sender. */
  ghost predicate Recorded(cfg: Config, s: ShardState, r: Result<ShardState>, sndShard: nat, brought: set<bytes>) {
    r.Ok? && Available(r.value) && KeepsRecords(s, r.value) && brought <= r.value.system.Keys &&
    NewFlags(cfg.self, s, r.value, sndShard, brought)
  }

  lemma RecordOneKeeps(cfg: Config, s: ShardState, sndShard: nat, it: Item)
    requires EraB(cfg) && Available(s) && cfg.self < cfg.numShards && sndShard < cfg.numShards
    ensures Recorded(cfg, s,
      SaveMetaData(cfg, s, None, sndShard, KeyOf(it.token, it.nonce), it.nonce, it.carried, true), sndShard,
        BroughtBy(it))
  {
    SaveMetaDataKeeps(cfg, s, sndShard, KeyOf(it.token, it.nonce), it.nonce, it.carried);
    SaveMetaDataFlags(cfg, s, None, sndShard, KeyOf(it.token, it.nonce), it.nonce, it.carried, true);
  }

  lemma NothingRecorded(cfg: Config, s: ShardState, sndShard: nat)
    requires Available(s)
    ensures Recorded(cfg, s, Ok(s), sndShard, {})
  {
  }

  lemma RecordTripleKeeps(cfg: Config, s: ShardState, sndShard: nat, t: Triple, it: Item)
    requires EraB(cfg) && Available(s) && cfg.self < cfg.numShards && sndShard < cfg.numShards &&
      ItemOf(cfg, t) == Ok(it)
    ensures Recorded(cfg, s, RecordTriple(cfg, s, sndShard, t), sndShard, BroughtBy(it))
  {
    hide Recorded, Available, SaveMetaData;
    if t.nonce > 0 && |t.payload| > MAX_LENGTH_FOR_VALUE {
      RecordOneKeeps(cfg, s, sndShard, it);
    } else {
      NothingRecorded(cfg, s, sndShard);
    }
  }

  lemma RecordedTrans(cfg: Config, s: ShardState, s1: ShardState, r: Result<ShardState>, sndShard: nat,
      brought: set<bytes>, more: set<bytes>)
    requires Recorded(cfg, s, Ok(s1), sndShard, brought) && Recorded(cfg, s1, r, sndShard, more)
    ensures Recorded(cfg, s, r, sndShard, brought + more)
  {
    NewFlagsTrans(cfg.self, s, s1, r.value, sndShard, brought, more);
  }

  lemma RecordedAvailable(cfg: Config, s: ShardState, r: Result<ShardState>, sndShard: nat, brought: set<bytes>)
    requires Recorded(cfg, s, r, sndShard, brought)
    ensures r.Ok? && Available(r.value)
  {
  }

  lemma {:induction false} RecordTriplesKeeps(cfg: Config, s: ShardState, sndShard: nat, ts: seq<Triple>,
      its: seq<Item>)
    requires EraB(cfg) && Available(s) && cfg.self < cfg.numShards && sndShard < cfg.numShards && Reads(cfg, ts, its)
    ensures Recorded(cfg, s, RecordTriples(cfg, s, sndShard, ts), sndShard, Brought(its))
  {
    hide Recorded, Available, RecordTriple, ItemOf;
    if ts != [] {
      var n := |ts| - 1;
      RecordTriplesKeeps(cfg, s, sndShard, ts[..n], its[..n]);
      var r1 := RecordTriples(cfg, s, sndShard, ts[..n]);
      RecordedAvailable(cfg, s, r1, sndShard, Brought(its[..n]));
      RecordTripleKeeps(cfg, r1.value, sndShard, ts[n], its[n]);
      RecordedTrans(cfg, s, r1.value, RecordTriple(cfg, r1.value, sndShard, ts[n]), sndShard, Brought(its[..n]),
        BroughtBy(its[n]));
    } else {
      NothingRecorded(cfg, s, sndShard);
    }
  }

  /** Recording a message that can be read never fails, and keeps the metadata it brought. */
  lemma RecordFailedKeeps(cfg: Config, s: ShardState, snd: Address, rcv: Address, data: bytes, its: seq<Item>)
    requires EraB(cfg) && Available(s) && cfg.self < cfg.numShards && cfg.shardOf(snd) < cfg.numShards
    requires cfg.Here(rcv) && !cfg.SameShard(snd, rcv)
    requires Items(cfg, data) == Ok(its) && its != [] && ParseData(data).Ok? && |ParseData(data).value.1| < U64
    ensures Recorded(cfg, s, RecordFailed(cfg, s, snd, rcv, data), cfg.shardOf(snd), Brought(its))
  {
    hide Recorded, Available, RecordTriples, SaveMetaData, ItemOf, ParseData;
    FunctionNames();
    var sndShard := cfg.shardOf(snd);
    var (function_, args) := ParseData(data).value;
    if function_ == MULTI_TRANSFER && |args| >= 4 {
      var n := ReadUint64(args[0]);
      RecordTriplesKeeps(cfg, s, sndShard, TriplesFrom(args, 1, n), its);
    } else {
      assert its[..0] == [];
      assert Brought(its) == BroughtBy(its[0]);
      if function_ == NFT_TRANSFER && args[3] != [0] {
        RecordOneKeeps(cfg, s, sndShard, its[0]);
      } else {
        NothingRecorded(cfg, s, sndShard);
      }
    }
  }
}
