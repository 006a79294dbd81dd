/** What the transfer parser reads is what a transfer does: to whose balance, by how much, and with which call. */
module ParsedTransfers {
  import opened Bytes
  import opened Results
  import opened Wire
  import opened Keys
  import opened Tokens
  import opened Storage
  import opened Transfers
  import opened Totals
  import opened Moves
  import opened Liquidity
  import opened Invariants
  import opened Messages
  import opened Locks
  import opened Sends
  import opened TransferParser

  /** The call part of a parse is the suffix of the arguments: a function and its arguments, or nothing. */
  predicate NamesCall(p: Parsed, suffix: seq<bytes>) {
    if suffix == [] then p.function_ == [] && p.args == [] else p.function_ == suffix[0] && p.args == suffix[1..]
  }

  /** The sum of the parsed amounts of a key. */
  function ParsedAmount(transfers: seq<Transfer>, q: bytes): int {
    if transfers == [] then 0
    else
      var t := transfers[|transfers| - 1];
      ParsedAmount(transfers[..|transfers| - 1], q) + if KeyOf(t.token, t.nonce) == q then t.value else 0
  }

  lemma OneParsedAmount(t: Transfer, q: bytes)
    ensures ParsedAmount([t], q) == if KeyOf(t.token, t.nonce) == q then t.value else 0
  {
    assert [t][..0] == [];
  }

  /** From s to s' the parsed amounts left the sender and, where it lives here, reached the receiver. */
  ghost predicate MovedAsParsed(s: ShardState, s': ShardState, snd: Address, p: Parsed, sndHere: bool, dstHere: bool) {
    forall b, q :: Balance(s', b, q) == Balance(s, b, q)
      - (if sndHere && b == snd then ParsedAmount(p.transfers, q) else 0)
      + (if dstHere && b == p.receiver then ParsedAmount(p.transfers, q) else 0)
  }

  // ---- the single NFT transfer ----

  /** The parse of an NFT transfer, in the sender's shard and of its message, is what the transfer did. */
  lemma NftParseIsTransfer(cfg: Config, s: ShardState, call: Call)
    requires NonNegative(s) && NftTransferOnSender(cfg, s, call).Ok?
    ensures |call.args| >= 4
    ensures var (s', out) := NftTransferOnSender(cfg, s, call).value;
            var p := ParseTransfers(cfg.unmarshal, call.caller, call.caller, NFT_TRANSFER, call.args);
            && p.Ok? && p.value.receiver == call.args[3] && NamesCall(p.value, call.args[4..])
            && |p.value.transfers| == 1 && p.value.transfers[0].kind == NON_FUNGIBLE && p.value.transfers[0].nonce > 0
            && MovedAsParsed(s, s', call.caller, p.value, true, cfg.Here(call.args[3]))
            && (!cfg.Here(call.args[3]) ==>
                out.transfer.Some? && ParseEmitted(cfg.unmarshal, out.transfer.value) == p)
  {
    hide NftTransferOnSender, Debit, Hand, WasAlreadySent, ParseData, FromBytes, ReadUint64, ParsedAmount, Balance,
        KeyOf, ParseEmitted, Emit, Total;
    var s1, sent, s2, left, s3, p := NftSendSteps(cfg, s, call);
    var t, v, dst := RequestedNft(call), FromBytes(call.args[2]), call.args[3];
    DebitEffect(cfg, s, call.caller, t.token, t.nonce, v, InvalidNFTQuantity, call.ret);
    HandEffect(cfg, s1, call.caller, dst, t.token, t.nonce, sent, call.ret);
    SentKeepsAccounts(cfg, s2, t.token, t.nonce, dst);
    SameAccounts(s2, s3);
    FunctionNames();
    forall q
      ensures ParsedAmount([Transfer(t.token, t.nonce, v, NON_FUNGIBLE)], q)
        == if KeyOf(t.token, t.nonce) == q then v else 0
    {
      OneParsedAmount(Transfer(t.token, t.nonce, v, NON_FUNGIBLE), q);
    }
    if !cfg.Here(dst) {
      NftParsesAgree(cfg, s, call);
    }
  }

  // ---- the fungible transfer ----

  /** The parse of a fungible transfer is what it does on either side. */
  lemma FungibleParseIsTransfer(cfg: Config, s: ShardState, call: Call, sndHere: bool, dstHere: bool)
    requires FungibleTransfer(cfg, s, call, sndHere, dstHere).Ok?
    ensures |call.args| >= 2
    ensures var s' := FungibleTransfer(cfg, s, call, sndHere, dstHere).value.0;
            var p := ParseTransfers(cfg.unmarshal, call.caller, call.recipient, DCT_TRANSFER, call.args);
            && p.Ok? && p.value.receiver == call.recipient && NamesCall(p.value, call.args[2..])
            && |p.value.transfers| == 1 && p.value.transfers[0].kind == FUNGIBLE && p.value.transfers[0].nonce == 0
            && p.value.transfers[0].value > 0
            && MovedAsParsed(s, s', call.caller, p.value, sndHere, dstHere)
  {
    hide FungibleTransfer, AddToBalance, FromBytes, ParsedAmount, Balance, Total;
    var s1 := FungibleSteps(cfg, s, call, sndHere, dstHere);
    var token, v: int := call.args[0], FromBytes(call.args[1]);
    PlainKey(token);
    if sndHere {
      AddToBalanceEffect(cfg, s, call.caller, token, -v, call.ret);
    }
    if dstHere {
      AddToBalanceEffect(cfg, s1, call.recipient, token, v, call.ret);
    }
    forall q
      ensures ParsedAmount([Transfer(token, 0, v, FUNGIBLE)], q) == if token == q then v else 0
    {
      OneParsedAmount(Transfer(token, 0, v, FUNGIBLE), q);
    }
  }

  // ---- the multi-transfer ----

  lemma {:induction false} ParsedIsAmount(unmarshal: Unmarshal, ts: seq<Triple>, q: bytes)
    ensures TransfersOf(unmarshal, ts, true).Ok?
    ensures ParsedAmount(TransfersOf(unmarshal, ts, true).value, q) == Amount(ts, q)
  {
    hide FromBytes;
    if ts != [] {
      var n := |ts| - 1;
      ParsedIsAmount(unmarshal, ts[..n], q);
      var transfers := TransfersOf(unmarshal, ts, true).value;
      assert transfers[..n] == TransfersOf(unmarshal, ts[..n], true).value;
    }
  }

  lemma TailIsCall(tail: seq<bytes>, transfers: seq<Transfer>, receiver: Address)
    ensures NamesCall(Parsed(transfers, receiver, CallFrom(tail, 0).0, CallFrom(tail, 0).1), tail)
  {
  }

  lemma MultiMoves(cfg: Config, s: ShardState, call: Call)
    requires NonNegative(s) && |call.args| < U64 && MultiTransferOnSender(cfg, s, call).Ok?
    ensures var s' := MultiTransferOnSender(cfg, s, call).value.0;
            Moved(s, s', call.caller, call.args[0], cfg.Here(call.args[0]), Requested(call))
  {
    hide MultiTransferOnSender, TransferAll, PackAll, Amount, Balance, Total, Times;
    var s1, sent, m := MultiSendSteps(cfg, s, call);
    var ts, dst := Requested(call), call.args[0];
    TransferAllEffect(cfg, s, call.caller, dst, ts, call.ret);
    PackAllKeepsAccounts(cfg, s1, dst, ts, sent, call.gasProvided - Times(|ts|, cfg.costs.multiTransfer));
    SameAccounts(s1, m.state);
  }

  lemma ParsedMoves(cfg: Config, s: ShardState, call: Call, p: Parsed)
    requires NonNegative(s) && |call.args| < U64 && MultiTransferOnSender(cfg, s, call).Ok?
    requires TransfersOf(cfg.unmarshal, Requested(call), true) == Ok(p.transfers) && p.receiver == call.args[0]
    ensures MovedAsParsed(s, MultiTransferOnSender(cfg, s, call).value.0, call.caller, p, true, cfg.Here(call.args[0]))
  {
    hide MultiTransferOnSender, Balance, Total, Amount, ParsedAmount, TransfersOf, Requested;
    MultiMoves(cfg, s, call);
    forall q
      ensures ParsedAmount(p.transfers, q) == Amount(Requested(call), q)
    {
      ParsedIsAmount(cfg.unmarshal, Requested(call), q);
    }
  }

  /** The parse of a multi-transfer's message is what the transfer did. */
  lemma MultiMessageParseIsTransfer(cfg: Config, s: ShardState, call: Call)
    requires cfg.GoodMarshaller() && Storing(cfg) && Inv(cfg, s) && cfg.Here(call.caller) && |call.args| < U64
    requires MultiTransferOnSender(cfg, s, call).Ok? && !cfg.Here(call.args[0]) && ValidTriples(Requested(call))
    ensures 2 + 3 * |Requested(call)| <= |call.args|
    ensures var (s', out) := MultiTransferOnSender(cfg, s, call).value;
            && out.transfer.Some?
            && var p := ParseEmitted(cfg.unmarshal, out.transfer.value);
            && p.Ok? && p.value.receiver == call.args[0]
            && NamesCall(p.value, call.args[2 + 3 * |Requested(call)|..])
            && MovedAsParsed(s, s', call.caller, p.value, true, false)
  {
    hide MultiTransferOnSender, TransfersOf, CallFrom, ParseEmitted, MovedAsParsed, Inv, NamesCall, Requested;
    InvBasics(cfg, s);
    EmittedParse(cfg, s, call);
    var p := ParseEmitted(cfg.unmarshal, MultiTransferOnSender(cfg, s, call).value.1.transfer.value).value;
    TailIsCall(call.args[2 + 3 * |Requested(call)|..], p.transfers, p.receiver);
    ParsedMoves(cfg, s, call, p);
  }

  /** The parse at the sender, in its parts. */
  lemma SenderParse(cfg: Config, s: ShardState, call: Call) returns (p: Parsed)
    requires |call.args| < U64 && MultiTransferOnSender(cfg, s, call).Ok? && FromBytes(call.args[0]) >= U64
    ensures 2 + 3 * |Requested(call)| <= |call.args|
    ensures ParseMulti(cfg.unmarshal, call.caller, call.args) == Ok(p) && p.receiver == call.args[0]
    ensures TransfersOf(cfg.unmarshal, Requested(call), true) == Ok(p.transfers)
    ensures NamesCall(p, call.args[2 + 3 * |Requested(call)|..])
  {
    hide MultiTransferOnSender, TransfersOf, CallFrom, NamesCall, FromBytes, ParseMulti, TransferAll, PackAll, Emit;
    var s1, sent, m := MultiSendSteps(cfg, s, call);
    DestinationIsDifferent(cfg, s, call);
    ParseAtSender(cfg.unmarshal, call);
    p := ParseMulti(cfg.unmarshal, call.caller, call.args).value;
    TailIsCall(call.args[2 + 3 * |Requested(call)|..], p.transfers, p.receiver);
  }

  /** The parse of a multi-transfer in its sender's shard is what it did, where the destination is a large number. */
  lemma MultiParseIsTransfer(cfg: Config, s: ShardState, call: Call)
    requires NonNegative(s) && |call.args| < U64 && MultiTransferOnSender(cfg, s, call).Ok?
    requires FromBytes(call.args[0]) >= U64
    ensures 2 + 3 * |Requested(call)| <= |call.args|
    ensures var s' := MultiTransferOnSender(cfg, s, call).value.0;
            var p := ParseTransfers(cfg.unmarshal, call.caller, call.caller, MULTI_TRANSFER, call.args);
            && p.Ok? && p.value.receiver == call.args[0]
            && NamesCall(p.value, call.args[2 + 3 * |Requested(call)|..])
            && MovedAsParsed(s, s', call.caller, p.value, true, cfg.Here(call.args[0]))
  {
    hide MultiTransferOnSender, TransfersOf, MovedAsParsed, NamesCall, FromBytes, ParseMulti, Requested;
    var p := SenderParse(cfg, s, call);
    FunctionNames();
    ParsedMoves(cfg, s, call, p);
  }
}
