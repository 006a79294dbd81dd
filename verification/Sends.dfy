/** What a sender's shard guarantees about the message it posts, and what a delivery does with it. */
module Sends {
  import opened Bytes
  import opened Results
  import opened Wire
  import opened Keys
  import opened Tokens
  import opened Storage
  import opened Transfers
  import opened Totals
  import opened Moves
  import opened Liquidity
  import opened Availability
  import opened Invariants
  import opened Messages
  import opened SentFlags
  import opened Network

  /** An item that carries an amount of an NFT, or its metadata. */
  predicate NamesKey(it: Item) {
    it.nonce > 0 && (it.carried.value > 0 || it.carried.metadata.Some?)
  }

  /** The keys of the NFTs in a list of items. */
  function NftKeys(its: seq<Item>): set<bytes> {
    set i | 0 <= i < |its| && NamesKey(its[i]) :: KeyOf(its[i].token, its[i].nonce)
  }

  /** The items can be read off the data. */
  ghost predicate Legible(cfg: Config, data: bytes, its: seq<Item>) {
    Items(cfg, data) == Ok(its) && its != [] && ParseData(data).Ok? && |ParseData(data).value.1| < U64
  }

  /** What a send to another shard leaves behind, for the shards and for the message. */
  ghost predicate Sent(cfg: Config, s: ShardState, s': ShardState, m: Msg, its: seq<Item>) {
    var d := cfg.shardOf(m.receiver);
    && Legible(cfg, m.data, its) && AllFurnished(cfg, its)
    && cfg.Here(m.sender) && d != cfg.self
    && (forall q :: Total(s', q) == Total(s, q) - Load(its, q))
    && Vouched(cfg, s, s', d, its)
  }

  /** What is asked of a transfer call: valid tokens, and argument lists that fit into memory. */
  ghost predicate PermittedSend(kind: Kind, call: Call) {
    |call.args| < U64 &&
    match kind
    case Fungible => |call.args| > 0 ==> ValidToken(call.args[0])
    case SingleNft => |call.args| > 0 ==> ValidToken(call.args[0])
    case MultiNft => ValidTriples(Requested(call))
  }

  lemma {:induction false} LoadIsAmount(ts: seq<Triple>, its: seq<Item>, q: bytes)
    requires AllMatch(ts, its)
    ensures Load(its, q) == Amount(ts, q)
  {
    if ts != [] {
      LoadIsAmount(ts[..|ts| - 1], its[..|its| - 1], q);
    }
  }

  lemma {:induction false} AllReady(cfg: Config, ts: seq<Triple>, its: seq<Item>, known: set<bytes>)
    requires cfg.flags.sendAlways && ValidTriples(ts) && AllMatch(ts, its) &&
      (forall i :: 0 <= i < |ts| ==> FromBytes(ts[i].payload) > 0)
    ensures Deliverable(cfg, known, its)
  {
    if its != [] {
      AllReady(cfg, ts[..|ts| - 1], its[..|its| - 1], known);
    }
  }

  lemma SameTotals(s: ShardState, s': ShardState)
    requires s'.accounts == s.accounts
    ensures forall q :: Total(s', q) == Total(s, q)
  {
  }

  /** FlaggedFor does not grow while a shard works for itself. */
  lemma OwnFlagsFlagged(cfg: Config, s: ShardState, s': ShardState, d: nat)
    requires OwnFlags(cfg, s, s') && d != cfg.self
    ensures FlaggedFor(s', d) <= FlaggedFor(s, d)
  {
  }

  lemma SentAmounts(ts: seq<Triple>, sent: seq<DCToken>)
    requires AllSentFor(ts, sent)
    ensures forall i :: 0 <= i < |ts| ==> FromBytes(ts[i].payload) > 0
  {
  }

  lemma MatchedKeys(ts: seq<Triple>, its: seq<Item>, keys: set<bytes>)
    requires AllMatch(ts, its) &&
      (forall i :: 0 <= i < |ts| && ts[i].nonce > 0 ==> KeyOf(ts[i].token, ts[i].nonce) in keys)
    ensures NftKeys(its) <= keys
  {
  }

  /** The part of a post that only matters where metadata is sent once. */
  ghost predicate Vouched(cfg: Config, s: ShardState, s': ShardState, d: nat, its: seq<Item>) {
    (d != METACHAIN ==> Deliverable(cfg, FlaggedFor(s, d), its)) &&
    (!cfg.flags.sendAlways ==>
      NewFlags(cfg.self, s, s', d, Brought(its)) && KeepsRecords(s, s') && NftKeys(its) <= s'.system.Keys)
  }

  /** A list of transfers of this shard, and what packing it does. */
  lemma MultiSentFlags(cfg: Config, s: ShardState, snd: Address, dst: Address, ts: seq<Triple>, ret: bool, gas: nat,
      its: seq<Item>)
    requires cfg.GoodMarshaller() && cfg.GoodShards() && Storing(cfg) && !cfg.flags.sendAlways && Inv(cfg, s)
    requires cfg.Here(snd) && !cfg.Here(dst) && ValidTriples(ts) && (forall i :: 0 <= i < |ts| ==> ts[i].nonce < U64)
    requires TransferAll(cfg, s, snd, dst, ts, ret).Ok?
    requires var (s1, sent) := TransferAll(cfg, s, snd, dst, ts, ret).value;
             && AllSentFor(ts, sent) && AllMatch(ts, its) && PackAll(cfg, s1, dst, ts, sent, gas).Ok?
             && Reads(cfg, TriplesFrom(PackAll(cfg, s1, dst, ts, sent, gas).value.args, 0, |ts|), its)
    ensures var (s1, sent) := TransferAll(cfg, s, snd, dst, ts, ret).value;
            Vouched(cfg, s, PackAll(cfg, s1, dst, ts, sent, gas).value.state, cfg.shardOf(dst), its)
  {
    hide TransferAll, PackAll, Inv, Deliverable, NewFlags, FlaggedFor, AllSentFor;
    var (s1, sent) := TransferAll(cfg, s, snd, dst, ts, ret).value;
    var s2, d := PackAll(cfg, s1, dst, ts, sent, gas).value.state, cfg.shardOf(dst);
    TransferAllFlags(cfg, s, snd, dst, ts, ret);
    TransferAllRecorded(cfg, s, snd, dst, ts, ret);
    PackAllFlags(cfg, s1, dst, ts, sent, gas, its);
    MatchedKeys(ts, its, s2.system.Keys);
    OwnFlagsFlagged(cfg, s, s1, d);
    if d != METACHAIN {
      DeliverableMonotone(cfg, FlaggedFor(s1, d), FlaggedFor(s, d), its);
    }
    OwnThenNew(cfg, s, s1, s2, d, Brought(its));
  }

  lemma OwnThenNew(cfg: Config, s: ShardState, s1: ShardState, s2: ShardState, d: nat, keys: set<bytes>)
    requires OwnFlags(cfg, s, s1) && NewFlags(cfg.self, s1, s2, d, keys)
    ensures NewFlags(cfg.self, s, s2, d, keys)
  {
  }

  /** A multi-transfer to another shard posts a message that this shard stands for. */
  lemma MultiSent(cfg: Config, s: ShardState, call: Call) returns (its: seq<Item>)
    requires cfg.GoodMarshaller() && cfg.GoodShards() && Storing(cfg) && Inv(cfg, s) && cfg.Here(call.caller) &&
      PermittedSend(MultiNft, call)
    requires SendAt(cfg, s, MultiNft, call).Ok? && SendAt(cfg, s, MultiNft, call).value.1.Some?
    ensures var (s', m) := SendAt(cfg, s, MultiNft, call).value;
            Inv(cfg, s') && Sent(cfg, s, s', m.value, its)
  {
    hide Times, TransferAll, PackAll, Inv, NewFlags, Deliverable, ItemsOf, MultiTransferOnSender, ParseData, Print,
        TriplesFrom, FlaggedFor, Load, NftKeys, Brought;
    var s1, sent, m := MultiSendSteps(cfg, s, call);
    var ts, n, dst := Requested(call), |Requested(call)|, call.args[0];
    var gas := call.gasProvided - Times(n, cfg.costs.multiTransfer);
    InvBasics(cfg, s);
    TransferAllInv(cfg, s, call.caller, dst, ts, call.ret);
    PackAllKeeps(cfg, s1, dst, ts, sent, gas);
    its := PackAllReads(cfg, s1, dst, ts, sent, gas);
    MultiMessageReads(cfg, m.args, call.args[2 + 3 * n..], n, its);
    MultiTotals(cfg, s, call.caller, dst, ts, call.ret, m.state, its);
    if cfg.flags.sendAlways {
      SentAmounts(ts, sent);
      AllReady(cfg, ts, its, FlaggedFor(s, cfg.shardOf(dst)));
    } else {
      MultiSentFlags(cfg, s, call.caller, dst, ts, call.ret, gas, its);
    }
  }

  lemma MultiTotals(cfg: Config, s: ShardState, snd: Address, dst: Address, ts: seq<Triple>, ret: bool, s': ShardState,
      its: seq<Item>)
    requires NonNegative(s) && snd != dst && !cfg.Here(dst) && TransferAll(cfg, s, snd, dst, ts, ret).Ok? &&
      AllMatch(ts, its)
    requires s'.accounts == TransferAll(cfg, s, snd, dst, ts, ret).value.0.accounts
    ensures forall q :: Total(s', q) == Total(s, q) - Load(its, q)
  {
    TransferAllEffect(cfg, s, snd, dst, ts, ret);
    SameTotals(TransferAll(cfg, s, snd, dst, ts, ret).value.0, s');
    forall q
      ensures Total(s', q) == Total(s, q) - Load(its, q)
    {
      LoadIsAmount(ts, its, q);
    }
  }

  // ---- one NFT ----

  lemma SingleLoad(it: Item, q: bytes)
    ensures Load([it], q) == if KeyOf(it.token, it.nonce) == q then it.carried.value else 0
    ensures Brought([it]) == BroughtBy(it)
    ensures NftKeys([it]) == if NamesKey(it) then {KeyOf(it.token, it.nonce)} else {}
  {
    assert [it][..0] == [];
    assert Load([it][..0], q) == 0;
    assert NamesKey(it) ==> NamesKey([it][0]) && KeyOf([it][0].token, [it][0].nonce) in NftKeys([it]);
  }

  lemma SingleDeliverable(cfg: Config, known: set<bytes>, it: Item)
    ensures Deliverable(cfg, known, [it]) <==> Ready(cfg, known, it)
  {
    assert [it][..0] == [];
    assert Deliverable(cfg, known, [it][..0]) && Brought([it][..0]) == {};
    assert known + {} == known;
  }

  /** The flag of a single transfer is set with the metadata, or was set before. */
  lemma WasAlreadySentFlags(cfg: Config, s: ShardState, token: bytes, nonce: nat, dst: Address, it: Item)
    requires EraB(cfg) && cfg.GoodShards() && !cfg.Here(dst) && nonce > 0 &&
      WasAlreadySent(cfg, s, token, nonce, dst).Ok?
    requires it.token == token && it.nonce == nonce
    requires !WasAlreadySent(cfg, s, token, nonce, dst).value.1 ==> it.carried.metadata.Some?
    ensures var (s3, already) := WasAlreadySent(cfg, s, token, nonce, dst).value;
            && NewFlags(cfg.self, s, s3, cfg.shardOf(dst), BroughtBy(it)) && KeepsRecords(s, s3)
            && (cfg.shardOf(dst) != METACHAIN ==>
              KeyOf(token, nonce) in FlaggedFor(s, cfg.shardOf(dst)) + BroughtBy(it))
  {
    assert cfg.shardOf(dst) < cfg.numShards || cfg.shardOf(dst) == METACHAIN;
  }

  lemma HandFar(cfg: Config, s: ShardState, snd: Address, dst: Address, token: bytes, nonce: nat, t: DCToken, ret: bool)
    requires !cfg.Here(dst) && Hand(cfg, s, snd, dst, token, nonce, t, ret).Ok?
    ensures Hand(cfg, s, snd, dst, token, nonce, t, ret).value.0.accounts == s.accounts
    ensures Hand(cfg, s, snd, dst, token, nonce, t, ret).value.1 == t
  {
  }

  /** The token that a debit leaves for the message is described exactly if its record is in this shard. */
  lemma DebitDescribes(cfg: Config, s: ShardState, snd: Address, token: bytes, nonce: nat, v: nat, short: Error,
      ret: bool)
    requires EraB(cfg) && Available(s) && ValidToken(token) && nonce > 0 &&
      Debit(cfg, s, snd, token, nonce, v, short, ret).Ok?
    ensures var (s1, sent) := Debit(cfg, s, snd, token, nonce, v, short, ret).value;
            sent.metadata.Some? <==> KeyOf(token, nonce) in s1.system
  {
    DebitKeeps(cfg, s, snd, token, nonce, v, short, ret);
  }

  /** Nothing is marked for a token without a record. */
  lemma NothingMarked(cfg: Config, s: ShardState, token: bytes, nonce: nat, dst: Address)
    requires WasAlreadySent(cfg, s, token, nonce, dst).Ok? && KeyOf(token, nonce) !in s.system
    ensures WasAlreadySent(cfg, s, token, nonce, dst).value.0 == s
  {
  }

  lemma HandFarKeepsSystem(cfg: Config, s: ShardState, snd: Address, dst: Address, token: bytes, nonce: nat, t: DCToken,
      ret: bool)
    requires !cfg.flags.sendAlways && !cfg.Here(dst) && Hand(cfg, s, snd, dst, token, nonce, t, ret).Ok?
    ensures Hand(cfg, s, snd, dst, token, nonce, t, ret).value.0 == s
  {
  }

  /**
   * An item that carries the sent token where the metadata was not sent before, and the amount alone or the token
   * elsewhere.
   */
  predicate Carries(it: Item, sent: DCToken, already: bool) {
    it.carried.value == sent.value && (it.carried.metadata.Some? || !already ==> it.carried == sent)
  }

  lemma NftSentFlags(cfg: Config, s: ShardState, snd: Address, dst: Address, t: Triple, sent: DCToken, ret: bool,
      it: Item)
    requires cfg.GoodShards() && Storing(cfg) && !cfg.flags.sendAlways && Inv(cfg, s) && cfg.Here(snd) && !cfg.Here(dst)
    requires ValidToken(t.token) && t.nonce > 0 && Matches(t, it)
    requires var v := FromBytes(t.payload);
             && Debit(cfg, s, snd, t.token, t.nonce, v, InvalidNFTQuantity, ret).Ok?
             && Debit(cfg, s, snd, t.token, t.nonce, v, InvalidNFTQuantity, ret).value.1 == sent
             && var s1 := Debit(cfg, s, snd, t.token, t.nonce, v, InvalidNFTQuantity, ret).value.0;
             && Hand(cfg, s1, snd, dst, t.token, t.nonce, sent, ret).Ok?
             && var s2 := Hand(cfg, s1, snd, dst, t.token, t.nonce, sent, ret).value.0;
             && WasAlreadySent(cfg, s2, t.token, t.nonce, dst).Ok?
             && Carries(it, sent, WasAlreadySent(cfg, s2, t.token, t.nonce, dst).value.1)
    ensures var s1 := Debit(cfg, s, snd, t.token, t.nonce, FromBytes(t.payload), InvalidNFTQuantity, ret).value.0;
            var s2 := Hand(cfg, s1, snd, dst, t.token, t.nonce, sent, ret).value.0;
            Vouched(cfg, s, WasAlreadySent(cfg, s2, t.token, t.nonce, dst).value.0, cfg.shardOf(dst), [it])
  {
    hide Inv, NewFlags, Debit, Hand, WasAlreadySent, FlaggedFor, Deliverable, Matches, Available;
    var v, d, k := FromBytes(t.payload), cfg.shardOf(dst), KeyOf(t.token, t.nonce);
    var s1 := Debit(cfg, s, snd, t.token, t.nonce, v, InvalidNFTQuantity, ret).value.0;
    var s2 := Hand(cfg, s1, snd, dst, t.token, t.nonce, sent, ret).value.0;
    var s3 := WasAlreadySent(cfg, s2, t.token, t.nonce, dst).value.0;
    SendInv(cfg, s, snd, dst, t.token, t.nonce, v, InvalidNFTQuantity, ret);
    InvIsAvailable(cfg, s);
    DebitDescribes(cfg, s, snd, t.token, t.nonce, v, InvalidNFTQuantity, ret);
    HandFarKeepsSystem(cfg, s1, snd, dst, t.token, t.nonce, sent, ret);
    DebitFlags(cfg, s, snd, t.token, t.nonce, v, InvalidNFTQuantity, ret);
    OwnFlagsFlagged(cfg, s, s2, d);
    SingleLoad(it, k);
    MatchedKey(t, it);
    if k in s2.system {
      WasAlreadySentFlags(cfg, s2, t.token, t.nonce, dst, it);
    } else {
      NothingMarked(cfg, s2, t.token, t.nonce, dst);
      NewFlagsRefl(cfg.self, s2, d);
    }
    OwnThenNew(cfg, s, s2, s3, d, BroughtBy(it));
    if d != METACHAIN {
      SingleDeliverable(cfg, FlaggedFor(s, d), it);
    }
  }

  lemma InvIsAvailable(cfg: Config, s: ShardState)
    requires !cfg.flags.sendAlways && Inv(cfg, s)
    ensures Available(s)
  {
  }

  lemma MatchedKey(t: Triple, it: Item)
    requires Matches(t, it)
    ensures it.token == t.token && it.nonce == t.nonce
  {
  }

  /** A single NFT transfer to another shard posts a message that this shard stands for. */
  lemma NftSent(cfg: Config, s: ShardState, call: Call) returns (its: seq<Item>)
    requires cfg.GoodMarshaller() && cfg.GoodShards() && Storing(cfg) && Inv(cfg, s) && cfg.Here(call.caller) &&
      PermittedSend(SingleNft, call)
    requires SendAt(cfg, s, SingleNft, call).Ok? && SendAt(cfg, s, SingleNft, call).value.1.Some?
    ensures var (s', m) := SendAt(cfg, s, SingleNft, call).value;
            Inv(cfg, s') && Sent(cfg, s, s', m.value, its)
  {
    hide Inv, NewFlags, Deliverable, NftTransferOnSender, ParseData, Print, FlaggedFor, Load, NftKeys, Brought, ItemsOf,
        Debit, WasAlreadySent, Vouched, Hand;
    var s1, sent, s2, left, s3, p := NftSendSteps(cfg, s, call);
    var t, v, dst := RequestedNft(call), FromBytes(call.args[2]), call.args[3];
    SendInv(cfg, s, call.caller, dst, t.token, t.nonce, v, InvalidNFTQuantity, call.ret);
    HandFar(cfg, s1, call.caller, dst, t.token, t.nonce, sent, call.ret);
    var packed := !WasAlreadySent(cfg, s2, t.token, t.nonce, dst).value.1 || left.value == 1;
    NftMessageReads(cfg, call, sent, packed);
    var it := SingleItem(t, sent, packed);
    its := [it];
    WasAlreadySentKeeps(cfg, s2, t.token, t.nonce, dst);
    NftTotals(cfg, s, call.caller, t, call.ret, s3, it);
    if cfg.flags.sendAlways {
      NeverSentBefore(cfg, s2, t.token, t.nonce, dst);
      SingleDeliverable(cfg, FlaggedFor(s, cfg.shardOf(dst)), it);
      assert Vouched(cfg, s, s3, cfg.shardOf(dst), its) by {
        AlwaysFlags(cfg, s, s3, cfg.shardOf(dst), its);
      }
    } else {
      NftSentFlags(cfg, s, call.caller, dst, t, sent, call.ret, it);
    }
  }

  lemma NeverSentBefore(cfg: Config, s: ShardState, token: bytes, nonce: nat, dst: Address)
    requires Storing(cfg) && cfg.flags.sendAlways && !cfg.Here(dst) && nonce > 0
    ensures WasAlreadySent(cfg, s, token, nonce, dst) == Ok((s, false))
  {
  }

  lemma AlwaysFlags(cfg: Config, s: ShardState, s': ShardState, d: nat, its: seq<Item>)
    requires cfg.flags.sendAlways && Deliverable(cfg, FlaggedFor(s, d), its)
    ensures Vouched(cfg, s, s', d, its)
  {
  }

  lemma NftTotals(cfg: Config, s: ShardState, snd: Address, t: Triple, ret: bool, s': ShardState, it: Item)
    requires Inv(cfg, s) && Debit(cfg, s, snd, t.token, t.nonce, FromBytes(t.payload), InvalidNFTQuantity, ret).Ok? &&
      Matches(t, it)
    requires s'.accounts == Debit(cfg, s, snd, t.token, t.nonce, FromBytes(t.payload), InvalidNFTQuantity,
      ret).value.0.accounts
    ensures forall q :: Total(s', q) == Total(s, q) - Load([it], q)
  {
    InvBasics(cfg, s);
    DebitEffect(cfg, s, snd, t.token, t.nonce, FromBytes(t.payload), InvalidNFTQuantity, ret);
    SameTotals(Debit(cfg, s, snd, t.token, t.nonce, FromBytes(t.payload), InvalidNFTQuantity, ret).value.0, s');
    forall q
      ensures Total(s', q) == Total(s, q) - Load([it], q)
    {
      SingleLoad(it, q);
    }
  }

  // ---- fungible tokens ----

  /** The steps of a fungible transfer at the sender's shard. */
  lemma FungibleSteps(cfg: Config, s: ShardState, call: Call, sndHere: bool, dstHere: bool) returns (s1: ShardState)
    requires FungibleTransfer(cfg, s, call, sndHere, dstHere).Ok?
    ensures |call.args| >= 2 && FromBytes(call.args[1]) > 0
    ensures var v: int := FromBytes(call.args[1]);
            && (if sndHere then AddToBalance(cfg, s, call.caller, call.args[0], -v, call.ret) else Ok(s)) == Ok(s1)
            && (if dstHere then AddToBalance(cfg, s1, call.recipient, call.args[0], v, call.ret) else Ok(s1))
               == Ok(FungibleTransfer(cfg, s, call, sndHere, dstHere).value.0)
  {
    var v: int := FromBytes(call.args[1]);
    s1 := if sndHere then AddToBalance(cfg, s, call.caller, call.args[0], -v, call.ret).value else s;
  }

  lemma FungibleMessageReads(cfg: Config, call: Call)
    requires |call.args| >= 2
    ensures ParseData(Print(DCT_TRANSFER, call.args)) == Ok((DCT_TRANSFER, call.args))
    ensures ItemsOf(cfg, DCT_TRANSFER, call.args)
      == Ok([Item(call.args[0], 0, NO_TOKEN.(value := FromBytes(call.args[1])))])
  {
    FunctionNames();
    ParsePrint(DCT_TRANSFER, call.args);
  }

  lemma FungibleSent(cfg: Config, s: ShardState, call: Call) returns (its: seq<Item>)
    requires Storing(cfg) && Inv(cfg, s) && cfg.Here(call.caller) && PermittedSend(Fungible, call)
    requires SendAt(cfg, s, Fungible, call).Ok? && SendAt(cfg, s, Fungible, call).value.1.Some?
    ensures var (s', m) := SendAt(cfg, s, Fungible, call).value;
            Inv(cfg, s') && Sent(cfg, s, s', m.value, its)
  {
    hide FungibleTransfer, AddToBalance, Inv, NewFlags, Deliverable, FlaggedFor, Brought, Load, NftKeys, Print,
        ParseData, ItemsOf, Vouched;
    var s' := FungibleSteps(cfg, s, call, true, false);
    var token := call.args[0];
    var v: int := FromBytes(call.args[1]);
    var it := Item(token, 0, NO_TOKEN.(value := v));
    its := [it];
    FungibleMessageReads(cfg, call);
    BalanceInv(cfg, s, call.caller, token, -v, call.ret);
    AddToBalanceEffect(cfg, s, call.caller, token, -v, call.ret);
    PlainKey(token);
    forall q
      ensures Total(s', q) == Total(s, q) - Load(its, q)
    {
      SingleLoad(it, q);
    }
    PlainFlags(cfg, s, s', cfg.shardOf(call.recipient), it);
  }

  lemma PlainFlags(cfg: Config, s: ShardState, s': ShardState, d: nat, it: Item)
    requires s'.system == s.system && it.nonce == 0 && ValidToken(it.token) && it.carried.value > 0
    ensures Vouched(cfg, s, s', d, [it])
  {
    SingleDeliverable(cfg, FlaggedFor(s, d), it);
    SingleLoad(it, it.token);
    SameSystemOwnFlags(cfg, s, s');
  }

  // ---- transfers inside a shard ----

  /** A transfer inside a shard moves no sum and claims nothing about other shards. */
  ghost predicate Stays(cfg: Config, s: ShardState, s': ShardState) {
    (forall q :: Total(s', q) == Total(s, q)) && (!cfg.flags.sendAlways ==> OwnFlags(cfg, s, s'))
  }

  lemma {:induction false} PackAllHere(cfg: Config, s: ShardState, dst: Address, ts: seq<Triple>, sent: seq<DCToken>,
      gas: nat)
    requires Storing(cfg) && cfg.Here(dst) && |sent| == |ts| && PackAll(cfg, s, dst, ts, sent, gas).Ok?
    ensures PackAll(cfg, s, dst, ts, sent, gas).value.state == s
  {
    if ts != [] {
      PackAllHere(cfg, s, dst, ts[..|ts| - 1], sent[..|ts| - 1], gas);
    }
  }

  lemma EmitsNothingFar(cfg: Config, call: Call, dst: Address, function_: bytes, args: seq<bytes>, minArgs: nat,
      gas: nat)
    ensures !cfg.Here(dst) ==> Emit(cfg, call, dst, function_, args, minArgs, gas).transfer.Some?
  {
  }

  lemma MultiStays(cfg: Config, s: ShardState, call: Call)
    requires Storing(cfg) && Inv(cfg, s) && cfg.Here(call.caller) && PermittedSend(MultiNft, call)
    requires SendAt(cfg, s, MultiNft, call).Ok? && SendAt(cfg, s, MultiNft, call).value.1.None?
    ensures var s' := SendAt(cfg, s, MultiNft, call).value.0;
            Inv(cfg, s') && Stays(cfg, s, s')
  {
    hide TransferAll, PackAll, Inv, OwnFlags, MultiTransferOnSender, TriplesFrom;
    var s1, sent, m := MultiSendSteps(cfg, s, call);
    var ts, n, dst := Requested(call), |Requested(call)|, call.args[0];
    InvBasics(cfg, s);
    TransferAllInv(cfg, s, call.caller, dst, ts, call.ret);
    TransferAllEffect(cfg, s, call.caller, dst, ts, call.ret);
    PackAllHere(cfg, s1, dst, ts, sent, call.gasProvided - Times(n, cfg.costs.multiTransfer));
    if !cfg.flags.sendAlways {
      TransferAllFlags(cfg, s, call.caller, dst, ts, call.ret);
    }
  }

  lemma NftStays(cfg: Config, s: ShardState, call: Call)
    requires Storing(cfg) && Inv(cfg, s) && cfg.Here(call.caller) && PermittedSend(SingleNft, call)
    requires SendAt(cfg, s, SingleNft, call).Ok? && SendAt(cfg, s, SingleNft, call).value.1.None?
    ensures var s' := SendAt(cfg, s, SingleNft, call).value.0;
            Inv(cfg, s') && Stays(cfg, s, s')
  {
    hide Inv, OwnFlags, NftTransferOnSender, Debit, Hand, Emit, ReadUint64, FromBytes;
    var s1, sent, s2, left, s3, p := NftSendSteps(cfg, s, call);
    var t, v, dst := RequestedNft(call), FromBytes(call.args[2]), call.args[3];
    EmitsNothingFar(cfg, call, dst, NFT_TRANSFER, call.args[..3] + [p.payload] + call.args[4..], MIN_ARGS_NFT_TRANSFER,
      p.gas);
    InvBasics(cfg, s);
    SendInv(cfg, s, call.caller, dst, t.token, t.nonce, v, InvalidNFTQuantity, call.ret);
    DebitEffect(cfg, s, call.caller, t.token, t.nonce, v, InvalidNFTQuantity, call.ret);
    HandEffect(cfg, s1, call.caller, dst, t.token, t.nonce, sent, call.ret);
    assert s3 == s2;
    if !cfg.flags.sendAlways {
      DebitFlags(cfg, s, call.caller, t.token, t.nonce, v, InvalidNFTQuantity, call.ret);
      HandFlags(cfg, s1, call.caller, dst, t.token, t.nonce, sent, call.ret);
      OwnFlagsTrans(cfg, s, s1, s2);
    }
  }

  lemma FungibleStays(cfg: Config, s: ShardState, call: Call)
    requires Storing(cfg) && Inv(cfg, s) && cfg.Here(call.caller) && PermittedSend(Fungible, call)
    requires SendAt(cfg, s, Fungible, call).Ok? && SendAt(cfg, s, Fungible, call).value.1.None?
    ensures var s' := SendAt(cfg, s, Fungible, call).value.0;
            Inv(cfg, s') && Stays(cfg, s, s')
  {
    hide FungibleTransfer, AddToBalance, Inv, OwnFlags;
    var s1 := FungibleSteps(cfg, s, call, true, true);
    var token := call.args[0];
    var v: int := FromBytes(call.args[1]);
    var s' := SendAt(cfg, s, Fungible, call).value.0;
    BalanceInv(cfg, s, call.caller, token, -v, call.ret);
    BalanceInv(cfg, s1, call.recipient, token, v, call.ret);
    AddToBalanceEffect(cfg, s, call.caller, token, -v, call.ret);
    AddToBalanceEffect(cfg, s1, call.recipient, token, v, call.ret);
    SameSystemOwnFlags(cfg, s, s');
  }

  // ---- sequential transfers in bulk ----

  lemma {:induction false} PackAllKeepsAccounts(cfg: Config, s: ShardState, dst: Address, ts: seq<Triple>,
      sent: seq<DCToken>, gas: nat)
    requires |sent| == |ts| && PackAll(cfg, s, dst, ts, sent, gas).Ok?
    ensures var s' := PackAll(cfg, s, dst, ts, sent, gas).value.state;
            s'.accounts == s.accounts && s'.settings == s.settings
  {
    if ts != [] {
      PackAllKeepsAccounts(cfg, s, dst, ts[..|ts| - 1], sent[..|ts| - 1], gas);
    }
  }

  /**
   * A multi-transfer moves, per key, exactly the sum of the listed amounts: from the sender, and to a destination of
   * this shard. No other balance changes, and each sum was covered by what the sender held at the start.
   */
  lemma SequentialEqualsBulk(cfg: Config, s: ShardState, call: Call)
    requires NonNegative(s) && |call.args| < U64 && MultiTransferOnSender(cfg, s, call).Ok?
    ensures var s', dst, ts := MultiTransferOnSender(cfg, s, call).value.0, call.args[0], Requested(call);
            && dst != call.caller
            && (forall a, k :: Balance(s', a, k) == Balance(s, a, k) - (if a == call.caller then Amount(ts, k) else 0)
                                                                   + (if cfg.Here(dst) && a == dst then Amount(ts, k)
                                                                     else 0))
            && (forall k :: Amount(ts, k) <= Balance(s, call.caller, k))
  {
    hide TransferAll, PackAll, MultiTransferOnSender, Requested, Balance;
    var s1, sent, m := MultiSendSteps(cfg, s, call);
    var ts, dst := Requested(call), call.args[0];
    TransferAllEffect(cfg, s, call.caller, dst, ts, call.ret);
    PackAllKeepsAccounts(cfg, s1, dst, ts, sent, call.gasProvided - Times(|ts|, cfg.costs.multiTransfer));
    SameAccounts(s1, m.state);
    forall k
      ensures Amount(ts, k) <= Balance(s, call.caller, k)
    {
      TransferAllCovered(cfg, s, call.caller, dst, ts, call.ret, k);
    }
  }
}
