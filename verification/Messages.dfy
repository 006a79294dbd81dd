/** The message codec: what a sender prints, a destination reads back, whichever form each amount travels in. */
module Messages {
  import opened Bytes
  import opened Results
  import opened Wire
  import opened Keys
  import opened Tokens
  import opened Storage
  import opened Transfers
  import opened Invariants

  /** The items of a transfer call at its destination; a single NFT transfer never names nonce zero. */
  function ItemsOf(cfg: Config, function_: bytes, args: seq<bytes>): Result<seq<Item>> {
    if function_ == MULTI_TRANSFER && |args| >= 4 then
      var ts :- ReadTriples(args, 1, ReadUint64(args[0]));
      if forall i :: 0 <= i < |ts| ==> ItemOf(cfg, ts[i]).Ok?
      then Ok(seq(|ts|, i requires 0 <= i < |ts| && ItemOf(cfg, ts[i]).Ok? => ItemOf(cfg, ts[i]).value))
      else Err(UnmarshalFailed)
    else if function_ == NFT_TRANSFER && |args| >= MIN_ARGS_NFT_TRANSFER && ReadUint64(args[1]) > 0 then
      var carried :- UnpackSingle(cfg, FromBytes(args[2]), args[3]);
      Ok([Item(args[0], ReadUint64(args[1]), carried)])
    else if function_ == DCT_TRANSFER && |args| >= MIN_ARGS_DCT_TRANSFER then
      Ok([Item(args[0], 0, NO_TOKEN.(value := FromBytes(args[1])))])
    else Err(NotDCTTransferInput)
  }

  /** The items of a message on the wire. */
  function Items(cfg: Config, data: bytes): Result<seq<Item>> {
    var (function_, args) :- ParseData(data);
    ItemsOf(cfg, function_, args)
  }

  /** An item is the transfer it was sent for. */
  ghost predicate Matches(t: Triple, it: Item) {
    it.token == t.token && it.nonce == t.nonce && it.carried.value == FromBytes(t.payload)
  }

  ghost predicate AllMatch(ts: seq<Triple>, its: seq<Item>) {
    |its| == |ts| && forall i :: 0 <= i < |ts| ==> Matches(ts[i], its[i])
  }

  /** An amount that comes without metadata is one of an NFT. */
  predicate BareIsNft(it: Item) {
    it.nonce > 0 && it.carried.metadata.None? ==> it.carried.kind == NON_FUNGIBLE && it.carried.properties == []
  }

  lemma FunctionNames()
    ensures MULTI_TRANSFER != [] && AT !in MULTI_TRANSFER && NFT_TRANSFER != [] && AT !in NFT_TRANSFER
    ensures DCT_TRANSFER != [] && AT !in DCT_TRANSFER
    ensures MULTI_TRANSFER != NFT_TRANSFER && MULTI_TRANSFER != DCT_TRANSFER && NFT_TRANSFER != DCT_TRANSFER
  {
    assert |MULTI_TRANSFER| == 19 && |NFT_TRANSFER| == 14 && |DCT_TRANSFER| == 11;
  }

  lemma NonceRoundTrip(nonce: nat)
    requires nonce < U64
    ensures ReadUint64(NonceArg(nonce)) == nonce
  {
    FromToBytes(nonce);
    assert [0 as byte][..0] == [];
    assert FromBytes([0 as byte]) == 0;
  }

  /** Either form of a payload reads back as the amount that was debited. */
  lemma PayloadReads(cfg: Config, s: ShardState, dst: Address, t: Triple, sent: DCToken, gas: nat)
    requires cfg.GoodMarshaller() && SentFor(t, sent) && PayloadOf(cfg, s, dst, t, sent, gas).Ok?
    ensures var p := PayloadOf(cfg, s, dst, t, sent, gas).value.payload;
            var it := ItemOf(cfg, Triple(t.token, t.nonce, p));
            it.Ok? && Matches(t, it.value) && BareIsNft(it.value) && (!cfg.Here(dst) ==> Furnished(cfg, it.value))
  {
    FromToBytes(FromBytes(t.payload));
    assert cfg.unmarshal(cfg.marshal(sent)) == Some(sent);
    assert sent.metadata.Some? ==> |cfg.marshal(sent)| > MAX_LENGTH_FOR_VALUE;
  }

  /** The arguments that a sender packs are read back, one by one, as the transfers that were debited. */
  lemma {:induction false} PackAllReads(cfg: Config, s: ShardState, dst: Address, ts: seq<Triple>, sent: seq<DCToken>,
      gas: nat) returns (its: seq<Item>)
    requires cfg.GoodMarshaller() && AllSentFor(ts, sent) && (forall i :: 0 <= i < |ts| ==> ts[i].nonce < U64)
    requires PackAll(cfg, s, dst, ts, sent, gas).Ok?
    ensures AllMatch(ts, its) && (!cfg.Here(dst) ==> AllFurnished(cfg, its)) && forall it :: it in its ==> BareIsNft(it)
    ensures Reads(cfg, TriplesFrom(PackAll(cfg, s, dst, ts, sent, gas).value.args, 0, |ts|), its)
  {
    hide PayloadOf, ItemOf, SentFor, NonceArg, ReadUint64, Furnished, BareIsNft;
    its := [];
    if ts != [] {
      var n := |ts| - 1;
      var t := ts[n];
      var before := PackAllReads(cfg, s, dst, ts[..n], sent[..n], gas);
      var m := PackAll(cfg, s, dst, ts[..n], sent[..n], gas).value;
      var p := PayloadOf(cfg, m.state, dst, t, sent[n], m.gas).value.payload;
      PayloadReads(cfg, m.state, dst, t, sent[n], m.gas);
      its := before + [ItemOf(cfg, Triple(t.token, t.nonce, p)).value];
      NonceRoundTrip(t.nonce);
      TriplesSnoc(m.args, t.token, NonceArg(t.nonce), p, n);
    }
  }

  lemma TriplesSnoc(args: seq<bytes>, token: bytes, nonce: bytes, payload: bytes, n: nat)
    requires |args| == 3 * n
    ensures TriplesFrom(args + [token, nonce, payload], 0, n + 1)
      == TriplesFrom(args, 0, n) + [Triple(token, ReadUint64(nonce), payload)]
  {
    var all := TriplesFrom(args + [token, nonce, payload], 0, n + 1);
    forall i | 0 <= i < n
      ensures all[i] == TriplesFrom(args, 0, n)[i]
    {
    }
  }

  lemma TriplesShift(head: seq<bytes>, args: seq<bytes>, tail: seq<bytes>, n: nat)
    requires 3 * n <= |args|
    ensures TriplesFrom(head + args + tail, |head|, n) == TriplesFrom(args, 0, n)
  {
    forall i | 0 <= i < n
      ensures TriplesFrom(head + args + tail, |head|, n)[i] == TriplesFrom(args, 0, n)[i]
    {
    }
  }

  /** The arguments of a call after its transfers: the contract function and its arguments. */
  function CallSuffix(args: seq<bytes>, start: nat): seq<bytes> {
    if start <= |args| then args[start..] else []
  }

  /** The transfers that a multi-transfer call asks for. */
  function Requested(call: Call): seq<Triple> {
    if |call.args| >= 2 && 2 + 3 * ReadUint64(call.args[1]) <= |call.args|
    then TriplesFrom(call.args, 2, ReadUint64(call.args[1]))
    else []
  }

  /** What the two shards agree on about a message: its items are the transfers, its suffix is the call. */
  ghost predicate Agrees(cfg: Config, data: bytes, function_: bytes, ts: seq<Triple>, start: nat, suffix: seq<bytes>,
      its: seq<Item>) {
    AllMatch(ts, its) && Items(cfg, data) == Ok(its) &&
    ParseData(data).Ok? && ParseData(data).value.0 == function_ && CallSuffix(ParseData(data).value.1, start) == suffix
  }

  /** The steps of a successful multi-transfer at the sender's shard. */
  lemma MultiSendSteps(cfg: Config, s: ShardState, call: Call) returns (s1: ShardState, sent: seq<DCToken>, m: Message)
    requires |call.args| < U64 && MultiTransferOnSender(cfg, s, call).Ok?
    ensures var n, dst, ts := |Requested(call)|, call.args[0], Requested(call);
            var cost := Times(n, cfg.costs.multiTransfer);
            && 0 < n < U64 && 2 + 3 * n <= |call.args| && dst != call.caller && ReadUint64(call.args[1]) == n
            && TransferAll(cfg, s, call.caller, dst, ts, call.ret) == Ok((s1, sent)) && cost <= call.gasProvided
            && PackAll(cfg, s1, dst, ts, sent, call.gasProvided - cost) == Ok(m)
            && MultiTransferOnSender(cfg, s, call).value
               == (m.state, Emit(cfg, call, dst, MULTI_TRANSFER, [ToBytes(n)] + m.args + call.args[2 + 3 * n..],
                 2 + 3 * n, m.gas))
  {
    hide TransferAll, PackAll, ReadUint64, TriplesFrom, CheckDestination, CheckBasic, Emit, Times, MinArgs;
    var n, dst := ReadUint64(call.args[1]), call.args[0];
    MinArgsFits(call.args, n, 2);
    OtherDestination(cfg, call, dst);
    s1, sent := TransferAll(cfg, s, call.caller, dst, Requested(call), call.ret).value.0,
      TransferAll(cfg, s, call.caller, dst, Requested(call), call.ret).value.1;
    m := PackAll(cfg, s1, dst, Requested(call), sent, call.gasProvided - Times(n, cfg.costs.multiTransfer)).value;
  }

  lemma MinArgsFits(args: seq<bytes>, n: nat, start: nat)
    ensures start + 3 * n <= |args| < U64 ==> MinArgs(n, start) == start + 3 * n
  {
  }

  lemma OtherDestination(cfg: Config, call: Call, dst: Address)
    ensures CheckDestination(cfg, call, dst).Ok? ==> dst != call.caller && |dst| == |call.caller|
  {
  }

  lemma MultiMessageReads(cfg: Config, margs: seq<bytes>, tail: seq<bytes>, n: nat, its: seq<Item>)
    requires 0 < n < U64 && |margs| == 3 * n && Reads(cfg, TriplesFrom(margs, 0, n), its)
    ensures var args := [ToBytes(n)] + margs + tail;
            && ParseData(Print(MULTI_TRANSFER, args)) == Ok((MULTI_TRANSFER, args))
            && ItemsOf(cfg, MULTI_TRANSFER, args) == Ok(its) && CallSuffix(args, 1 + 3 * n) == tail
  {
    var args := [ToBytes(n)] + margs + tail;
    FunctionNames();
    ParsePrint(MULTI_TRANSFER, args);
    FromToBytes(n);
    TriplesShift([ToBytes(n)], margs, tail, n);
    MessageReads(cfg, args, n, TriplesFrom(margs, 0, n), its);
  }

  /** A cross-shard multi-transfer reads back at its destination as the list that was debited, with the same call. */
  lemma MultiTransferRoundTrip(cfg: Config, s: ShardState, call: Call) returns (its: seq<Item>)
    requires cfg.GoodMarshaller() && Storing(cfg) && Inv(cfg, s) && cfg.Here(call.caller) && |call.args| < U64
    requires MultiTransferOnSender(cfg, s, call).Ok? && !cfg.Here(call.args[0]) && ValidTriples(Requested(call))
    ensures var (s', out) := MultiTransferOnSender(cfg, s, call).value;
            && out.transfer.Some? && out.transfer.value.recipient == call.args[0] &&
              out.transfer.value.sender == call.caller
            && Agrees(cfg, out.transfer.value.data, MULTI_TRANSFER, Requested(call), 1 + 3 * |Requested(call)|,
                      call.args[2 + 3 * |Requested(call)|..], its)
            && forall it :: it in its ==> BareIsNft(it)
  {
    hide MultiTransferOnSender, TransferAll, PackAll, Inv, TriplesFrom, PayloadOf, ItemsOf, Print, ParseData,
        CallSuffix;
    var s1, sent, m := MultiSendSteps(cfg, s, call);
    var ts, n, dst := Requested(call), |Requested(call)|, call.args[0];
    TransferAllInv(cfg, s, call.caller, dst, ts, call.ret);
    its := PackAllReads(cfg, s1, dst, ts, sent, call.gasProvided - Times(n, cfg.costs.multiTransfer));
    MultiMessageReads(cfg, m.args, call.args[2 + 3 * n..], n, its);
  }

  lemma MessageReads(cfg: Config, args: seq<bytes>, n: nat, ts: seq<Triple>, its: seq<Item>)
    requires 1 + 3 * n <= |args| && n > 0 && ReadUint64(args[0]) == n && TriplesFrom(args, 1, n) == ts &&
      Reads(cfg, ts, its)
    ensures ItemsOf(cfg, MULTI_TRANSFER, args) == Ok(its)
  {
    assert ItemsOf(cfg, MULTI_TRANSFER, args).Ok?;
    assert ItemsOf(cfg, MULTI_TRANSFER, args).value == its;
  }

  /** The transfer that a single NFT transfer call asks for. */
  function RequestedNft(call: Call): Triple
    requires |call.args| >= MIN_ARGS_NFT_TRANSFER
  {
    Triple(call.args[0], ReadUint64(call.args[1]), call.args[2])
  }

  /** The steps of a successful NFT transfer at the sender's shard. */
  lemma NftSendSteps(cfg: Config, s: ShardState, call: Call)
      returns (s1: ShardState, sent: DCToken, s2: ShardState, left: DCToken, s3: ShardState, p: Payload)
    requires NftTransferOnSender(cfg, s, call).Ok?
    ensures |call.args| >= MIN_ARGS_NFT_TRANSFER
    ensures var t, v, dst := RequestedNft(call), FromBytes(call.args[2]), call.args[3];
            && t.nonce > 0 && dst != call.caller && (cfg.flags.checkTransfer ==> v > 0) &&
              cfg.costs.nftTransfer <= call.gasProvided
            && Debit(cfg, s, call.caller, t.token, t.nonce, v, InvalidNFTQuantity, call.ret) == Ok((s1, sent))
            && Hand(cfg, s1, call.caller, dst, t.token, t.nonce, sent, call.ret) == Ok((s2, left))
            && WasAlreadySent(cfg, s2, t.token, t.nonce, dst).Ok? &&
              WasAlreadySent(cfg, s2, t.token, t.nonce, dst).value.0 == s3
            && (if !WasAlreadySent(cfg, s2, t.token, t.nonce, dst).value.1 || left.value == 1
                then Pack(cfg, s3, left, call.gasProvided - cfg.costs.nftTransfer) == Ok(p)
                else p == Payload(s3, [0], call.gasProvided - cfg.costs.nftTransfer, 0))
            && NftTransferOnSender(cfg, s, call).value
               == (p.state, Emit(cfg, call, dst, NFT_TRANSFER, call.args[..3] + [p.payload] + call.args[4..],
                 MIN_ARGS_NFT_TRANSFER, p.gas))
  {
    var t, v, dst := RequestedNft(call), FromBytes(call.args[2]), call.args[3];
    var gas := call.gasProvided - cfg.costs.nftTransfer;
    var debited := Debit(cfg, s, call.caller, t.token, t.nonce, v, InvalidNFTQuantity, call.ret).value;
    s1, sent := debited.0, debited.1;
    var handed := Hand(cfg, s1, call.caller, dst, t.token, t.nonce, sent, call.ret).value;
    s2, left := handed.0, handed.1;
    var already := WasAlreadySent(cfg, s2, t.token, t.nonce, dst).value;
    s3 := already.0;
    p := if !already.1 || left.value == 1 then Pack(cfg, s3, left, gas).value else Payload(s3, [0], gas, 0);
  }

  /** Either form of a single payload reads back as the amount. */
  function SingleItem(t: Triple, sent: DCToken, packed: bool): Item {
    Item(t.token, t.nonce, if packed then sent else NO_TOKEN.(kind := NON_FUNGIBLE, value := FromBytes(t.payload)))
  }

  lemma NftMessageReads(cfg: Config, call: Call, sent: DCToken, packed: bool)
    requires cfg.GoodMarshaller() && |call.args| >= MIN_ARGS_NFT_TRANSFER && ReadUint64(call.args[1]) > 0
    ensures var args := call.args[..3] + [if packed then cfg.marshal(sent) else [0]] + call.args[4..];
            && ParseData(Print(NFT_TRANSFER, args)) == Ok((NFT_TRANSFER, args)) && CallSuffix(args, 4) == call.args[4..]
            && ItemsOf(cfg, NFT_TRANSFER, args) == Ok([SingleItem(RequestedNft(call), sent, packed)])
  {
    var args := call.args[..3] + [if packed then cfg.marshal(sent) else [0]] + call.args[4..];
    FunctionNames();
    ParsePrint(NFT_TRANSFER, args);
    assert cfg.unmarshal(cfg.marshal(sent)) == Some(sent) && cfg.marshal(sent) != [0];
    assert args[0] == call.args[0] && args[1] == call.args[1] && args[2] == call.args[2];
  }

  /** A cross-shard NFT transfer reads back as the transfer that was debited, with the same call. */
  lemma NftTransferRoundTrip(cfg: Config, s: ShardState, call: Call) returns (its: seq<Item>)
    requires cfg.GoodMarshaller() && Storing(cfg) && Inv(cfg, s) && cfg.Here(call.caller)
    requires NftTransferOnSender(cfg, s, call).Ok? && !cfg.Here(call.args[3]) && ValidToken(call.args[0])
    ensures var (s', out) := NftTransferOnSender(cfg, s, call).value;
            && out.transfer.Some? && out.transfer.value.recipient == call.args[3] &&
              out.transfer.value.sender == call.caller
            && Agrees(cfg, out.transfer.value.data, NFT_TRANSFER, [RequestedNft(call)], 4, call.args[4..], its)
  {
    var s1, sent, s2, left, s3, p := NftSendSteps(cfg, s, call);
    var t, v, dst := RequestedNft(call), FromBytes(call.args[2]), call.args[3];
    SendInv(cfg, s, call.caller, dst, t.token, t.nonce, v, InvalidNFTQuantity, call.ret);
    assert left == sent;
    var packed := !WasAlreadySent(cfg, s2, t.token, t.nonce, dst).value.1 || left.value == 1;
    NftMessageReads(cfg, call, sent, packed);
    its := [SingleItem(t, sent, packed)];
  }

  // ---- recording the metadata of a failed delivery ----

  function RecordTriple(cfg: Config, s: ShardState, sndShard: nat, t: Triple): Result<ShardState> {
    if t.nonce > 0 && |t.payload| > MAX_LENGTH_FOR_VALUE then
      match cfg.unmarshal(t.payload)
      case Some(carried) => SaveMetaData(cfg, s, None, sndShard, KeyOf(t.token, t.nonce), t.nonce, carried, true)
      case None => Err(UnmarshalFailed)
    else Ok(s)
  }

  function RecordTriples(cfg: Config, s: ShardState, sndShard: nat, ts: seq<Triple>): Result<ShardState> {
    if ts == [] then Ok(s)
    else
      var s1 :- RecordTriples(cfg, s, sndShard, ts[..|ts| - 1]);
      RecordTriple(cfg, s1, sndShard, ts[|ts| - 1])
  }

  /** SaveNFTMetaDataToSystemAccount, for a transaction from one shard that another one executes. */
  function RecordFailed(cfg: Config, s: ShardState, snd: Address, rcv: Address, data: bytes): Result<ShardState> {
    if !cfg.flags.saveToSystem || cfg.flags.sendAlways || cfg.SameShard(snd, rcv) || !cfg.Here(rcv) then Ok(s)
    else
      var sndShard := cfg.shardOf(snd);
      match ParseData(data)
      case Err(_) => Ok(s)
      case Ok((function_, args)) =>
        if |args| < 4 then Ok(s)
        else if function_ == NFT_TRANSFER then
          if args[3] == [0] then Ok(s)
          else
            match cfg.unmarshal(args[3])
            case None => Err(UnmarshalFailed)
            case Some(carried) =>
              var nonce := ReadUint64(args[1]);
              SaveMetaData(cfg, s, None, sndShard, KeyOf(args[0], nonce), nonce, carried, true)
        else if function_ == MULTI_TRANSFER then
          var n := ReadUint64(args[0]);
          var _ :- Need(n > 0 && |args| >= MinArgs(n, 1), InvalidArguments);
          var ts :- ReadTriples(args, 1, n);
          RecordTriples(cfg, s, sndShard, ts)
        else Ok(s)
  }

  /** Nothing is recorded but in the receiver's shard, for a message from another one, where metadata is sent once. */
  lemma RecordsOnlyAtReceiver(cfg: Config, s: ShardState, snd: Address, rcv: Address, data: bytes)
    requires !cfg.flags.saveToSystem || cfg.flags.sendAlways || cfg.SameShard(snd, rcv) || !cfg.Here(rcv)
    ensures RecordFailed(cfg, s, snd, rcv, data) == Ok(s)
  {
    hide SaveMetaData, RecordTriples, ParseData;
  }
}
