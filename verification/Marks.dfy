/**
 * Which flags are set: over every run of era B a record is flagged for its own shard, for the shard that brought its
 * metadata, and for those that the metadata was sent to since it was last written, and for no other.
 */
module Marks {
  import opened Bytes
  import opened Results
  import opened Wire
  import opened Keys
  import opened Tokens
  import opened Storage
  import opened Transfers
  import opened Supply
  import opened Roles
  import opened Handoff
  import opened Operations
  import opened Totals
  import opened Availability
  import opened Liquidity
  import opened Invariants
  import opened OperationsKeep
  import opened Messages
  import opened SentFlags
  import opened Network
  import opened Sends
  import opened Deliveries
  import opened NetworkSafe
  import opened Runs
  import opened Compact
  import opened Counting

  /** A shard of era B, with its place among the flags. */
  ghost predicate Placed(cfg: Config) {
    EraB(cfg) && cfg.GoodShards() && cfg.self < cfg.numShards
  }

  /** The record of k has the flags of these shards; without a shard there is no record. */
  ghost predicate Marked(s: ShardState, k: bytes, marks: set<nat>) {
    Stripped(s) && (k in s.system <==> marks != {}) && forall d: nat :: Flagged(s, k, d) <==> d in marks
  }

  lemma SameRecordMarked(s: ShardState, s': ShardState, k: bytes, marks: set<nat>)
    requires Marked(s, k, marks) && Stripped(s') && s'.system == s.system
    ensures Marked(s', k, marks)
  {
  }

  lemma MarkedStripped(s: ShardState, k: bytes, marks: set<nat>)
    requires Marked(s, k, marks)
    ensures Stripped(s) && (k in s.system <==> marks != {})
  {
  }

  // ---- saving ----

  /** Metadata that arrives makes a new record, and leaves one that is there alone. */
  function Brings(cfg: Config, sender: Address, marks: set<nat>, brings: bool): set<nat> {
    if brings && marks == {} then {cfg.self, cfg.shardOf(sender)} else marks
  }

  lemma WriteMarks(cfg: Config, s: ShardState, user: Option<Address>, senderShard: nat, q: bytes, nonce: nat,
      t: DCToken, mustUpdate: bool, k: bytes, marks: set<nat>)
    requires Placed(cfg) && senderShard < cfg.numShards && Marked(s, k, marks)
    ensures var r := SaveMetaData(cfg, s, user, senderShard, q, nonce, t, mustUpdate);
            var writes := q == k && nonce > 0 && t.metadata.Some? && (mustUpdate || marks == {});
            r.Ok? && r.value.accounts == s.accounts &&
              Marked(r.value, k, if writes then {cfg.self, senderShard} else marks)
  {
    var s' := SaveMetaData(cfg, s, user, senderShard, q, nonce, t, mustUpdate).value;
    assert forall a, p :: Entry(s', a, p) == Entry(s, a, p);
  }

  lemma SaveMarks(cfg: Config, s: ShardState, sender: Address, a: Address, token: bytes, nonce: nat, t: DCToken,
      mustUpdate: bool, ret: bool, k: bytes, marks: set<nat>)
    requires Placed(cfg) && cfg.shardOf(sender) < cfg.numShards && Marked(s, k, marks)
    requires SaveToken(cfg, s, sender, a, token, nonce, t, mustUpdate, ret).Ok?
    ensures var writes := KeyOf(token, nonce) == k && nonce > 0 && t.metadata.Some? && (mustUpdate || marks == {});
            Marked(SaveToken(cfg, s, sender, a, token, nonce, t, mustUpdate, ret).value, k,
              if writes then {cfg.self, cfg.shardOf(sender)} else marks)
  {
    hide CheckProperties, SaveMetaData, Marked;
    var q := KeyOf(token, nonce);
    WriteMarks(cfg, s, Some(a), cfg.shardOf(sender), q, nonce, t, mustUpdate, k, marks);
    var s1 := SaveMetaData(cfg, s, Some(a), cfg.shardOf(sender), q, nonce, t, mustUpdate).value;
    PutMarked(s1, a, q, Kept(cfg, t), k,
      if q == k && nonce > 0 && t.metadata.Some? && (mustUpdate || marks == {}) then {cfg.self, cfg.shardOf(sender)}
      else marks);
  }

  lemma PutMarked(s: ShardState, a: Address, q: bytes, e: Option<DCToken>, k: bytes, marks: set<nat>)
    requires Marked(s, k, marks) && (e.Some? ==> e.value.metadata.None?)
    ensures Marked(Put(s, a, q, e), k, marks)
  {
    PutStripped(s, a, q, e);
  }

  /** A save of what the shard read itself writes no record. */
  lemma OwnSaveMarks(cfg: Config, s: ShardState, a: Address, token: bytes, nonce: nat, t: DCToken, ret: bool, k: bytes,
      marks: set<nat>)
    requires Placed(cfg) && cfg.Here(a) && Marked(s, k, marks) && (t.metadata.Some? ==> KeyOf(token, nonce) in s.system)
    requires SaveToken(cfg, s, a, a, token, nonce, t, false, ret).Ok?
    ensures Marked(SaveToken(cfg, s, a, a, token, nonce, t, false, ret).value, k, marks)
  {
    hide SaveToken, Marked;
    MarkedStripped(s, k, marks);
    SaveMarks(cfg, s, a, a, token, nonce, t, false, ret, k, marks);
  }

  lemma BalanceMarks(cfg: Config, s: ShardState, a: Address, q: bytes, v: int, ret: bool, k: bytes, marks: set<nat>)
    requires Marked(s, k, marks) && AddToBalance(cfg, s, a, q, v, ret).Ok?
    ensures Marked(AddToBalance(cfg, s, a, q, v, ret).value, k, marks)
  {
    hide CheckFrozeAndPause, Marked;
    var t := ReadData(s, a, q).(value := ReadData(s, a, q).value + v);
    MarkedStripped(s, k, marks);
    assert Entry(s, a, q).Some? ==> Entry(s, a, q).value.metadata.None?;
    PutMarked(s, a, q, if t.value == 0 && NoProperties(t.properties) then None else Some(t), k, marks);
  }

  // ---- transfers ----

  lemma DebitMarks(cfg: Config, s: ShardState, snd: Address, token: bytes, nonce: nat, v: nat, short: Error, ret: bool,
      k: bytes, marks: set<nat>)
    requires Placed(cfg) && cfg.Here(snd) && Marked(s, k, marks) && Debit(cfg, s, snd, token, nonce, v, short, ret).Ok?
    ensures var (s1, sent) := Debit(cfg, s, snd, token, nonce, v, short, ret).value;
            Marked(s1, k, marks) && (sent.metadata.Some? ==> KeyOf(token, nonce) in s1.system)
  {
    hide Read, Marked, KeyOf, CheckProperties;
    var t := ReadOnSender(cfg, s, snd, token, nonce).value;
    MarkedStripped(s, k, marks);
    ReadIsRecorded(cfg, s, snd, token, nonce);
    OwnSaveMarks(cfg, s, snd, token, nonce, t.(value := t.value - v), ret, k, marks);
  }

  lemma AddToDestinationMarks(cfg: Config, s: ShardState, snd: Address, dst: Address, t: DCToken, token: bytes,
      nonce: nat, ret: bool, k: bytes, marks: set<nat>)
    requires Placed(cfg) && cfg.shardOf(snd) < cfg.numShards && Marked(s, k, marks)
    requires AddToDestination(cfg, s, snd, dst, t, token, nonce, ret).Ok?
    ensures Marked(AddToDestination(cfg, s, snd, dst, t, token, nonce, ret).value.0, k,
              Brings(cfg, snd, marks, KeyOf(token, nonce) == k && nonce > 0 && t.metadata.Some?))
  {
    hide SaveToken, Read, Marked, KeyOf;
    var sum := t.(value := t.value + Read(cfg, s, dst, token, nonce).0.value);
    SaveMarks(cfg, s, snd, dst, token, nonce, sum, false, ret, k, marks);
  }

  lemma HandMarks(cfg: Config, s: ShardState, snd: Address, dst: Address, token: bytes, nonce: nat, t: DCToken,
      ret: bool, k: bytes, marks: set<nat>)
    requires Placed(cfg) && cfg.Here(snd) && Marked(s, k, marks)
    requires t.metadata.Some? ==> KeyOf(token, nonce) in s.system
    requires Hand(cfg, s, snd, dst, token, nonce, t, ret).Ok?
    ensures Marked(Hand(cfg, s, snd, dst, token, nonce, t, ret).value.0, k, marks)
  {
    hide AddToDestination, Marked, KeyOf;
    MarkedStripped(s, k, marks);
    if cfg.Here(dst) {
      AddToDestinationMarks(cfg, s, snd, dst, t, token, nonce, ret, k, marks);
    }
  }

  lemma {:induction false} TransferAllMarks(cfg: Config, s: ShardState, snd: Address, dst: Address, ts: seq<Triple>,
      ret: bool, k: bytes, marks: set<nat>)
    requires Placed(cfg) && cfg.Here(snd) && Marked(s, k, marks) && TransferAll(cfg, s, snd, dst, ts, ret).Ok?
    ensures Marked(TransferAll(cfg, s, snd, dst, ts, ret).value.0, k, marks)
  {
    hide Debit, Hand, CheckLimited, Marked, FromBytes, Placed, KeyOf;
    if ts != [] {
      var n := |ts| - 1;
      var t, v := ts[n], FromBytes(ts[n].payload);
      TransferAllMarks(cfg, s, snd, dst, ts[..n], ret, k, marks);
      var s1 := TransferAll(cfg, s, snd, dst, ts[..n], ret).value.0;
      var (s2, sent) := Debit(cfg, s1, snd, t.token, t.nonce, v, InsufficientQuantityDCT, ret).value;
      DebitMarks(cfg, s1, snd, t.token, t.nonce, v, InsufficientQuantityDCT, ret, k, marks);
      HandMarks(cfg, s2, snd, dst, t.token, t.nonce, sent, ret, k, marks);
    }
  }

  // ---- sending ----

  /** Metadata on record that is sent to another shard is known there from then on. */
  function SentTo(cfg: Config, dst: Address, marks: set<nat>, sends: bool): set<nat> {
    if sends && marks != {} && !cfg.Here(dst) && cfg.shardOf(dst) != METACHAIN then marks + {cfg.shardOf(dst)}
    else marks
  }

  predicate Asks(ts: seq<Triple>, k: bytes) {
    exists i :: 0 <= i < |ts| && IsOf(ts[i], k)
  }

  lemma SentMarks(cfg: Config, s: ShardState, token: bytes, nonce: nat, dst: Address, k: bytes, marks: set<nat>)
    requires Placed(cfg) && Marked(s, k, marks) && WasAlreadySent(cfg, s, token, nonce, dst).Ok?
    ensures Marked(WasAlreadySent(cfg, s, token, nonce, dst).value.0, k,
              SentTo(cfg, dst, marks, nonce > 0 && KeyOf(token, nonce) == k))
  {
    var s' := WasAlreadySent(cfg, s, token, nonce, dst).value.0;
    assert forall a, p :: Entry(s', a, p) == Entry(s, a, p);
    assert cfg.shardOf(dst) < cfg.numShards || cfg.shardOf(dst) == METACHAIN;
  }

  lemma PayloadMarks(cfg: Config, s: ShardState, dst: Address, t: Triple, sent: DCToken, gas: nat, k: bytes,
      marks: set<nat>)
    requires Placed(cfg) && Marked(s, k, marks) && PayloadOf(cfg, s, dst, t, sent, gas).Ok?
    ensures Marked(PayloadOf(cfg, s, dst, t, sent, gas).value.state, k, SentTo(cfg, dst, marks, IsOf(t, k)))
  {
    hide WasAlreadySent, Marked, FromBytes, ToBytes, KeyOf;
    if t.nonce > 0 {
      SentMarks(cfg, s, t.token, t.nonce, dst, k, marks);
    }
  }

  lemma {:induction false} PackAllMarks(cfg: Config, s: ShardState, dst: Address, ts: seq<Triple>, sent: seq<DCToken>,
      gas: nat, k: bytes, marks: set<nat>)
    requires Placed(cfg) && Marked(s, k, marks) && |sent| == |ts| && PackAll(cfg, s, dst, ts, sent, gas).Ok?
    ensures Marked(PackAll(cfg, s, dst, ts, sent, gas).value.state, k, SentTo(cfg, dst, marks, Asks(ts, k)))
  {
    hide PayloadOf, Marked, Placed, NonceArg, IsOf;
    if ts != [] {
      var n := |ts| - 1;
      PackAllMarks(cfg, s, dst, ts[..n], sent[..n], gas, k, marks);
      var m := PackAll(cfg, s, dst, ts[..n], sent[..n], gas).value;
      PayloadMarks(cfg, m.state, dst, ts[n], sent[n], m.gas, k, SentTo(cfg, dst, marks, Asks(ts[..n], k)));
      AsksMore(ts, k);
    }
  }

  lemma AsksMore(ts: seq<Triple>, k: bytes)
    requires ts != []
    ensures Asks(ts, k) <==> Asks(ts[..|ts| - 1], k) || IsOf(ts[|ts| - 1], k)
  {
    hide IsOf;
    forall i | 0 <= i < |ts| - 1
      ensures ts[..|ts| - 1][i] == ts[i]
    {
    }
  }

  /** The NFTs that a transfer call names. */
  predicate Names(kind: Kind, call: Call, k: bytes) {
    match kind
    case Fungible => false
    case SingleNft => |call.args| >= 4 && IsOf(RequestedNft(call), k)
    case MultiNft => Asks(Requested(call), k)
  }

  lemma SendMarks(cfg: Config, s: ShardState, kind: Kind, call: Call, k: bytes, marks: set<nat>)
    requires Placed(cfg) && cfg.Here(call.caller) && Marked(s, k, marks) && |call.args| < U64
    requires SendAt(cfg, s, kind, call).Ok?
    ensures Marked(SendAt(cfg, s, kind, call).value.0, k,
              SentTo(cfg, Destination(kind, call), marks, Names(kind, call, k)))
  {
    hide TransferAll, PackAll, Debit, Hand, AddToBalance, Marked, MultiTransferOnSender, NftTransferOnSender,
        FungibleTransfer, WasAlreadySent, FromBytes, Placed, KeyOf;
    match kind
    case MultiNft =>
      var s1, sent, m := MultiSendSteps(cfg, s, call);
      var ts, dst := Requested(call), call.args[0];
      TransferAllMarks(cfg, s, call.caller, dst, ts, call.ret, k, marks);
      PackAllMarks(cfg, s1, dst, ts, sent, call.gasProvided - Times(|ts|, cfg.costs.multiTransfer), k, marks);
    case SingleNft =>
      var s1, sent, s2, left, s3, p := NftSendSteps(cfg, s, call);
      var t, v, dst := RequestedNft(call), FromBytes(call.args[2]), call.args[3];
      DebitMarks(cfg, s, call.caller, t.token, t.nonce, v, InvalidNFTQuantity, call.ret, k, marks);
      HandMarks(cfg, s1, call.caller, dst, t.token, t.nonce, sent, call.ret, k, marks);
      SentMarks(cfg, s2, t.token, t.nonce, dst, k, marks);
    case Fungible =>
      var here := cfg.Here(call.recipient);
      var s1 := FungibleSteps(cfg, s, call, true, here);
      var v: int := FromBytes(call.args[1]);
      BalanceMarks(cfg, s, call.caller, call.args[0], -v, call.ret, k, marks);
      if here {
        BalanceMarks(cfg, s1, call.recipient, call.args[0], v, call.ret, k, marks);
      }
  }

  // ---- deliveries ----

  lemma {:induction false} CreditAllMarks(cfg: Config, s: ShardState, snd: Address, dst: Address, its: seq<Item>,
      ret: bool, k: bytes, marks: set<nat>)
    requires Placed(cfg) && cfg.shardOf(snd) < cfg.numShards && Marked(s, k, marks)
    requires CreditAll(cfg, s, snd, dst, its, ret).Ok?
    ensures Marked(CreditAll(cfg, s, snd, dst, its, ret).value, k, Brings(cfg, snd, marks, k in Brought(its)))
  {
    hide AddToDestination, AddToBalance, Marked, KeyOf, Placed;
    if its != [] {
      var n := |its| - 1;
      var it, before := its[n], Brings(cfg, snd, marks, k in Brought(its[..n]));
      CreditAllMarks(cfg, s, snd, dst, its[..n], ret, k, marks);
      var s1 := CreditAll(cfg, s, snd, dst, its[..n], ret).value;
      if it.nonce > 0 {
        AddToDestinationMarks(cfg, s1, snd, dst, it.carried, it.token, it.nonce, ret, k, before);
      } else {
        BalanceMarks(cfg, s1, dst, it.token, it.carried.value, ret, k, before);
      }
    }
  }

  /** What a failed delivery brought is written anew. */
  function Rewritten(cfg: Config, snd: Address, marks: set<nat>, brings: bool): set<nat> {
    if brings then {cfg.self, cfg.shardOf(snd)} else marks
  }

  lemma RecordOneMarks(cfg: Config, s: ShardState, snd: Address, it: Item, k: bytes, marks: set<nat>)
    requires Placed(cfg) && cfg.shardOf(snd) < cfg.numShards && Marked(s, k, marks)
    ensures var q := KeyOf(it.token, it.nonce);
            var r := SaveMetaData(cfg, s, None, cfg.shardOf(snd), q, it.nonce, it.carried, true);
            r.Ok? && Marked(r.value, k, Rewritten(cfg, snd, marks, k in BroughtBy(it)))
  {
    hide SaveMetaData, Marked, KeyOf;
    WriteMarks(cfg, s, None, cfg.shardOf(snd), KeyOf(it.token, it.nonce), it.nonce, it.carried, true, k, marks);
  }

  lemma {:induction false} RecordTriplesMarks(cfg: Config, s: ShardState, snd: Address, ts: seq<Triple>, its: seq<Item>,
      k: bytes, marks: set<nat>)
    requires Placed(cfg) && cfg.shardOf(snd) < cfg.numShards && Marked(s, k, marks) && Reads(cfg, ts, its)
    ensures var r := RecordTriples(cfg, s, cfg.shardOf(snd), ts);
            r.Ok? && Marked(r.value, k, Rewritten(cfg, snd, marks, k in Brought(its)))
  {
    hide SaveMetaData, Marked, KeyOf, Placed;
    if ts != [] {
      var n := |ts| - 1;
      RecordTriplesMarks(cfg, s, snd, ts[..n], its[..n], k, marks);
      RecordOneMarks(cfg, RecordTriples(cfg, s, cfg.shardOf(snd), ts[..n]).value, snd, its[n], k,
        Rewritten(cfg, snd, marks, k in Brought(its[..n])));
    }
  }

  lemma RecordFailedMarks(cfg: Config, s: ShardState, m: Msg, its: seq<Item>, k: bytes, marks: set<nat>)
    requires Placed(cfg) && cfg.shardOf(m.sender) < cfg.numShards && Marked(s, k, marks)
    requires cfg.Here(m.receiver) && !cfg.SameShard(m.sender, m.receiver) && Legible(cfg, m.data, its)
    ensures var r := RecordFailed(cfg, s, m.sender, m.receiver, m.data);
            r.Ok? && Marked(r.value, k, Rewritten(cfg, m.sender, marks, k in Brought(its)))
  {
    hide Marked, RecordTriples, SaveMetaData, ItemOf, ParseData, KeyOf;
    FunctionNames();
    var (function_, args) := ParseData(m.data).value;
    if function_ == MULTI_TRANSFER && |args| >= 4 {
      RecordTriplesMarks(cfg, s, m.sender, TriplesFrom(args, 1, ReadUint64(args[0])), its, k, marks);
    } else {
      assert its[..0] == [];
      assert Brought(its) == BroughtBy(its[0]);
      if function_ == NFT_TRANSFER && args[3] != [0] {
        RecordOneMarks(cfg, s, m.sender, its[0], k, marks);
      }
    }
  }

  // ---- operations ----

  /** An operation that writes the record of k, over an older one or as the first. */
  predicate Writes(cfg: Config, s: ShardState, op: Op, k: bytes) {
    Apply(cfg, s, op).Ok? &&
    match op
    case AddingUri(call) => |call.args| >= 2 && KeyOf(call.args[0], ReadUint64(call.args[1])) == k
    case UpdatingAttributes(call) => |call.args| >= 2 && KeyOf(call.args[0], ReadUint64(call.args[1])) == k
    case Creating(call) =>
      PlanCreate(cfg, s, call).Ok? &&
        KeyOf(PlanCreate(cfg, s, call).value.token, PlanCreate(cfg, s, call).value.nonce) == k
    case _ => false
  }

  lemma CreateMarks(cfg: Config, s: ShardState, call: Call, k: bytes, marks: set<nat>)
    requires Placed(cfg) && Marked(s, k, marks) && Create(cfg, s, call).Ok? && IsNftKey(k)
    requires ValidToken(TokenArg(call)) && ActsHere(cfg, Creating(call))
    ensures Marked(Create(cfg, s, call).value, k, if Writes(cfg, s, Creating(call), k) then {cfg.self} else marks)
  {
    hide SaveToken, PlanCreate, Marked, ValidToken, KeyOf;
    var c := PlanCreate(cfg, s, call).value;
    var s1 := SaveToken(cfg, s, c.creator, c.creator, c.token, c.nonce, c.created, true, call.ret).value;
    PlanIsFor(cfg, s, call);
    PlainKey(c.token);
    SaveMarks(cfg, s, c.creator, c.creator, c.token, c.nonce, c.created, true, call.ret, k, marks);
    var now := if KeyOf(c.token, c.nonce) == k && c.nonce > 0 then {cfg.self} else marks;
    assert {cfg.self, cfg.shardOf(c.creator)} == {cfg.self};
    MarkedStripped(s1, k, now);
    PutNonceTokens(s1, c.creator, c.token, c.nonce);
    SameRecordMarked(s1, PutNonce(s1, c.creator, c.token, c.nonce), k, now);
  }

  lemma PlanIsFor(cfg: Config, s: ShardState, call: Call)
    requires PlanCreate(cfg, s, call).Ok?
    ensures var c := PlanCreate(cfg, s, call).value;
            c.token == TokenArg(call) && c.created.metadata.Some? && Creator(call).Ok? &&
              Creator(call).value.0 == c.creator
  {
    hide FromBytes, ReadUint64, TotalLength;
  }

  lemma AddQuantityMarks(cfg: Config, s: ShardState, call: Call, k: bytes, marks: set<nat>)
    requires Placed(cfg) && cfg.Here(call.caller) && Marked(s, k, marks) && AddQuantity(cfg, s, call).Ok?
    ensures Marked(AddQuantity(cfg, s, call).value, k, marks)
  {
    hide SaveToken, Read, Marked, KeyOf, FromBytes;
    var a, token, nonce, v := call.caller, call.args[0], ReadUint64(call.args[1]), FromBytes(call.args[2]);
    var t := ReadOnSender(cfg, s, a, token, nonce).value;
    MarkedStripped(s, k, marks);
    ReadIsRecorded(cfg, s, a, token, nonce);
    OwnSaveMarks(cfg, s, a, token, nonce, t.(value := t.value + v), call.ret, k, marks);
  }

  lemma UpdateMarks(cfg: Config, s: ShardState, call: Call, role: bytes, cost: nat, update: MetaData -> MetaData,
      k: bytes, marks: set<nat>)
    requires Placed(cfg) && cfg.Here(call.caller) && Marked(s, k, marks)
    requires UpdateMetaData(cfg, s, call, role, cost, update).Ok?
    ensures |call.args| >= 2
    ensures Marked(UpdateMetaData(cfg, s, call, role, cost, update).value, k,
              if KeyOf(call.args[0], ReadUint64(call.args[1])) == k then {cfg.self} else marks)
  {
    hide SaveToken, Read, Marked, KeyOf;
    var a, token, nonce := call.caller, call.args[0], ReadUint64(call.args[1]);
    var t := ReadOnSender(cfg, s, a, token, nonce).value;
    var u := t.(metadata := Some(update(t.metadata.value)));
    SaveMarks(cfg, s, a, a, token, nonce, u, true, call.ret, k, marks);
    assert {cfg.self, cfg.shardOf(a)} == {cfg.self};
  }

  lemma WipeMarks(cfg: Config, s: ShardState, call: Call, k: bytes, marks: set<nat>)
    requires Placed(cfg) && Marked(s, k, marks) && Wipe(cfg, s, call).Ok?
    ensures Marked(Wipe(cfg, s, call).value, k, marks)
  {
    hide ExtractTokenAndNonce, Wipe, Marked;
    WipeIs(cfg, s, call);
    PutMarked(s, call.recipient, call.args[0], None, k, marks);
  }

  lemma FreezeMarks(cfg: Config, s: ShardState, call: Call, on: bool, k: bytes, marks: set<nat>)
    requires Marked(s, k, marks) && ToggleFreeze(cfg, s, call, on).Ok?
    ensures Marked(ToggleFreeze(cfg, s, call, on).value, k, marks)
  {
    hide Marked;
    MarkedStripped(s, k, marks);
    var a, q := call.recipient, call.args[0];
    var t := ReadData(s, a, q).(properties := FreezeBytes(on));
    assert Entry(s, a, q).Some? ==> Entry(s, a, q).value.metadata.None?;
    PutMarked(s, a, q, if t.value == 0 && NoProperties(t.properties) then None else Some(t), k, marks);
  }

  lemma ApplyMarks(cfg: Config, s: ShardState, op: Op, k: bytes, marks: set<nat>)
    requires Placed(cfg) && Marked(s, k, marks) && Apply(cfg, s, op).Ok? && IsNftKey(k)
    requires Permitted(cfg, op) && ActsHere(cfg, op)
    ensures Marked(Apply(cfg, s, op).value, k, if Writes(cfg, s, op, k) then {cfg.self} else marks)
  {
    hide Marked, Create, AddQuantity, Burn, UpdateMetaData, AddToBalance, Wipe, ToggleFreeze, SetRoles, SetAddresses,
        ToggleSetting, GiveUp, Receive, PlanCreate, FromBytes, Placed, KeyOf;
    MarkedStripped(s, k, marks);
    if TouchesNoToken(op) {
      OtherOperationsKeepTokens(cfg, s, op);
      SameRecordMarked(s, Apply(cfg, s, op).value, k, marks);
    }
    match op
    case Creating(call) => CreateMarks(cfg, s, call, k, marks);
    case AddingQuantity(call) => AddQuantityMarks(cfg, s, call, k, marks);
    case Burning(call) => BurnMarks(cfg, s, call, k, marks);
    case AddingUri(call) =>
      var uris := if |call.args| >= 2 then call.args[2..] else [];
      UpdateMarks(cfg, s, call, ROLE_NFT_ADD_URI, cfg.costs.addUri, (m: MetaData) => m.(uris := m.uris + uris), k,
        marks);
    case UpdatingAttributes(call) =>
      var attributes := call.args[2];
      UpdateMarks(cfg, s, call, ROLE_NFT_UPDATE_ATTRIBUTES, cfg.costs.updateAttributes,
        (m: MetaData) => m.(attributes := attributes), k, marks);
    case Minting(call) =>
      BalanceMarks(cfg, s, call.caller, call.args[0], FromBytes(call.args[1]), call.ret, k, marks);
    case BurningLocal(call) =>
      BalanceMarks(cfg, s, call.caller, call.args[0], -(FromBytes(call.args[1]) as int), call.ret, k, marks);
    case Freezing(call, on) => FreezeMarks(cfg, s, call, on, k, marks);
    case Wiping(call) => WipeMarks(cfg, s, call, k, marks);
    case _ =>
  }

  lemma BurnMarks(cfg: Config, s: ShardState, call: Call, k: bytes, marks: set<nat>)
    requires Placed(cfg) && cfg.Here(call.caller) && Marked(s, k, marks) && Burn(cfg, s, call).Ok?
    ensures Marked(Burn(cfg, s, call).value, k, marks)
  {
    hide Debit, Marked, KeyOf, FromBytes;
    DebitMarks(cfg, s, call.caller, call.args[0], ReadUint64(call.args[1]), FromBytes(call.args[2]), InvalidNFTQuantity,
      call.ret, k, marks);
  }

  // ---- runs ----

  /** The shards that the record of k in shard j is flagged for, after one more event. */
  function MarksAfter(cfg: Config, w: World, e: Event, j: nat, k: bytes, marks: set<nat>): set<nat>
    requires j < |w.shards|
  {
    var here := At(cfg, j);
    match e
    case Local(i, op) => if i == j && Writes(here, w.shards[j], op, k) then {j} else marks
    case Send(kind, call) =>
      if here.Here(call.caller) && SendAt(here, w.shards[j], kind, call).Ok?
      then SentTo(here, Destination(kind, call), marks, Names(kind, call, k)) else marks
    case Deliver(i, gas, callType, payable) =>
      if i >= |w.net| || !IsFirst(cfg, w.net, i) || !here.Here(w.net[i].receiver) then marks
      else
        var m := w.net[i];
        var brings := k in Brought(ItemsIn(cfg, m));
        if DeliverAt(here, w.shards[j], m, gas, callType, payable).Ok? then Brings(here, m.sender, marks, brings)
        else Rewritten(here, m.sender, marks, brings)
  }

  /** The same after a run from empty shards. */
  function Marks(cfg: Config, events: seq<Event>, j: nat, k: bytes): set<nat> {
    if events == [] then {}
    else
      var w := Run(cfg, Genesis(cfg), events[..|events| - 1]);
      if j >= |w.shards| then {}
      else MarksAfter(cfg, w, events[|events| - 1], j, k, Marks(cfg, events[..|events| - 1], j, k))
  }

  lemma DeliveryMarks(cfg: Config, w: World, i: nat, gas: nat, callType: CallType, payable: bool, k: bytes,
      marks: set<nat>)
    requires Environment(cfg) && EraB(cfg) && Safe(cfg, w) && i < |w.net| && IsFirst(cfg, w.net, i)
    requires var j := cfg.shardOf(w.net[i].receiver); j < |w.shards| && Marked(w.shards[j], k, marks)
    ensures var j, e := cfg.shardOf(w.net[i].receiver), Deliver(i, gas, callType, payable);
            Marked(Step(cfg, w, e).shards[j], k, MarksAfter(cfg, w, e, j, k, marks))
  {
    hide Marked, NetSafe, SendersRecorded, DeliverAt, CreditAll, ItemsIn, Items, Deliverable, RecordFailed, Brought;
    var m := w.net[i];
    var j, its := cfg.shardOf(m.receiver), ItemsIn(cfg, m);
    var s := w.shards[j];
    ArrivesDeliverable(cfg, w, i);
    ItemsAt(cfg, j, m.data);
    if DeliverAt(At(cfg, j), s, m, gas, callType, payable).Ok? {
      DeliversItems(At(cfg, j), s, m, gas, callType, payable, its);
      CreditAllMarks(At(cfg, j), s, m.sender, m.receiver, its, m.ret, k, marks);
    } else {
      RecordFailedMarks(At(cfg, j), s, m, its, k, marks);
    }
  }

  lemma StepMarks(cfg: Config, w: World, e: Event, j: nat, k: bytes, marks: set<nat>)
    requires Environment(cfg) && EraB(cfg) && Safe(cfg, w) && Allowed(cfg, e) && IsNftKey(k)
    requires j < |w.shards| && Marked(w.shards[j], k, marks)
    ensures |Step(cfg, w, e).shards| == |w.shards|
    ensures Marked(Step(cfg, w, e).shards[j], k, MarksAfter(cfg, w, e, j, k, marks))
  {
    hide Marked, NetSafe, SendersRecorded, Apply, SendAt, DeliverAt, Permitted, RecordFailed, Writes, Names, ItemsIn,
        Brought, IsFirst, Destination, Inv;
    match e
    case Local(i, op) =>
      if i == j && Apply(At(cfg, j), w.shards[j], op).Ok? {
        ApplyMarks(At(cfg, j), w.shards[j], op, k, marks);
      } else if i == j {
        FailedWritesNothing(At(cfg, j), w.shards[j], op, k);
      }
    case Send(kind, call) =>
      if cfg.shardOf(call.caller) == j && SendAt(At(cfg, j), w.shards[j], kind, call).Ok? {
        SendMarks(At(cfg, j), w.shards[j], kind, call, k, marks);
      }
    case Deliver(i, gas, callType, payable) =>
      if i < |w.net| && IsFirst(cfg, w.net, i) && cfg.shardOf(w.net[i].receiver) == j {
        DeliveryMarks(cfg, w, i, gas, callType, payable, k, marks);
      }
  }

  lemma FailedWritesNothing(cfg: Config, s: ShardState, op: Op, k: bytes)
    requires Apply(cfg, s, op).Err?
    ensures !Writes(cfg, s, op, k)
  {
  }

  lemma EmptyMarked(k: bytes)
    ensures Marked(EMPTY_SHARD, k, {})
  {
  }

  lemma {:induction false} RunMarks(cfg: Config, events: seq<Event>, j: nat, k: bytes)
    requires Environment(cfg) && EraB(cfg) && AllAllowed(cfg, events) && IsNftKey(k) && j < cfg.numShards
    ensures var w := Run(cfg, Genesis(cfg), events);
            |w.shards| == cfg.numShards && Marked(w.shards[j], k, Marks(cfg, events, j, k))
  {
    hide Marked, Safe, Step, Allowed, MarksAfter, Environment;
    if events == [] {
      EmptyMarked(k);
    } else {
      var n := |events| - 1;
      RunMarks(cfg, events[..n], j, k);
      RunIsSafe(cfg, events[..n]);
      StepMarks(cfg, Run(cfg, Genesis(cfg), events[..n]), events[n], j, k, Marks(cfg, events[..n], j, k));
    }
  }

  /**
   * Over every run of era B a shard has a record of an NFT exactly if something wrote one, and it is flagged exactly
   * for the shards that the history names.
   */
  lemma FlaggedExactly(cfg: Config, events: seq<Event>, j: nat, token: bytes, nonce: nat)
    requires Environment(cfg) && EraB(cfg) && AllAllowed(cfg, events) && ValidToken(token) && nonce > 0
    requires j < cfg.numShards
    ensures j < |Run(cfg, Genesis(cfg), events).shards|
    ensures var s, k := Run(cfg, Genesis(cfg), events).shards[j], KeyOf(token, nonce);
            && (k in s.system <==> Marks(cfg, events, j, k) != {})
            && forall d: nat :: Flagged(s, k, d) <==> d in Marks(cfg, events, j, k)
  {
    hide Run, Genesis, AllAllowed, Marks, Stripped, Environment;
    assert IsNftKey(KeyOf(token, nonce));
    RunMarks(cfg, events, j, KeyOf(token, nonce));
  }
}
