/** Gas: what a transfer does not charge, it leaves or hands on. */
module Gas {
  import opened Bytes
  import opened Results
  import opened Wire
  import opened Tokens
  import opened Storage
  import opened Transfers
  import opened Invariants
  import opened Messages

  function GasLimit(out: Output): nat {
    if out.transfer.Some? then out.transfer.value.gasLimit else 0
  }

  /** The length of a list of marshalled tokens: the NFT payloads that are longer than any amount. */
  function Marshalled(ts: seq<Triple>): nat {
    if ts == [] then 0
    else
      var t := ts[|ts| - 1];
      Marshalled(ts[..|ts| - 1]) + if t.nonce > 0 && |t.payload| > MAX_LENGTH_FOR_VALUE then |t.payload| else 0
  }

  lemma Products(a: nat, b: nat, c: nat)
    ensures (a + b) * c == a * c + b * c && a * c >= 0 && b * c >= 0
  {
  }

  /** A product that does not fit 64 bits loses its multiples of 2^64. */
  lemma TimesWraps(a: nat, b: nat)
    ensures a * b == a * b / U64 * U64 + Times(a, b)
  {
  }

  /** Packing charges every marshalled byte once. */
  lemma {:induction false} PackAllGas(cfg: Config, s: ShardState, dst: Address, ts: seq<Triple>, sent: seq<DCToken>,
      gas: nat)
    requires |sent| == |ts| && PackAll(cfg, s, dst, ts, sent, gas).Ok?
    requires PackAll(cfg, s, dst, ts, sent, gas).value.copied * cfg.costs.dataCopyPerByte < U64
    ensures var m := PackAll(cfg, s, dst, ts, sent, gas).value;
            m.gas + m.copied * cfg.costs.dataCopyPerByte == gas
  {
    hide WasAlreadySent, FromBytes, ToBytes;
    if ts != [] {
      var n := |ts| - 1;
      var m := PackAll(cfg, s, dst, ts[..n], sent[..n], gas).value;
      var p := PayloadOf(cfg, m.state, dst, ts[n], sent[n], m.gas).value;
      Products(m.copied, p.copied, cfg.costs.dataCopyPerByte);
      PackAllGas(cfg, s, dst, ts[..n], sent[..n], gas);
      assert p.gas + p.copied * cfg.costs.dataCopyPerByte == m.gas;
    }
  }

  lemma PayloadCopied(cfg: Config, s: ShardState, dst: Address, t: Triple, sent: DCToken, gas: nat)
    requires cfg.GoodMarshaller() && SentFor(t, sent) && PayloadOf(cfg, s, dst, t, sent, gas).Ok?
    ensures var p := PayloadOf(cfg, s, dst, t, sent, gas).value;
            p.copied == if t.nonce > 0 && |p.payload| > MAX_LENGTH_FOR_VALUE then |p.payload| else 0
  {
    hide WasAlreadySent, FromBytes, ToBytes;
    assert sent.metadata.Some? ==> |cfg.marshal(sent)| > MAX_LENGTH_FOR_VALUE;
  }

  /** What was charged as copied is the length of the marshalled tokens in the message. */
  lemma {:induction false} PackAllCopies(cfg: Config, s: ShardState, dst: Address, ts: seq<Triple>, sent: seq<DCToken>,
      gas: nat)
    requires cfg.GoodMarshaller() && AllSentFor(ts, sent) && (forall i :: 0 <= i < |ts| ==> ts[i].nonce < U64)
    requires PackAll(cfg, s, dst, ts, sent, gas).Ok?
    ensures var m := PackAll(cfg, s, dst, ts, sent, gas).value;
            m.copied == Marshalled(TriplesFrom(m.args, 0, |ts|))
  {
    hide PayloadOf, SentFor, NonceArg, ReadUint64;
    if ts != [] {
      var n := |ts| - 1;
      PackAllCopies(cfg, s, dst, ts[..n], sent[..n], gas);
      var m := PackAll(cfg, s, dst, ts[..n], sent[..n], gas).value;
      var p := PayloadOf(cfg, m.state, dst, ts[n], sent[n], m.gas).value;
      PayloadCopied(cfg, m.state, dst, ts[n], sent[n], m.gas);
      NonceRoundTrip(ts[n].nonce);
      TriplesSnoc(m.args, ts[n].token, NonceArg(ts[n].nonce), p.payload, n);
    }
  }

  /** The bytes of marshalled tokens in the data of a multi-transfer. */
  function MarshalledIn(data: bytes): nat {
    match ParseData(data)
    case Ok((_, args)) =>
      if |args| > 0 && 1 + 3 * ReadUint64(args[0]) <= |args| then Marshalled(TriplesFrom(args, 1, ReadUint64(args[0])))
        else 0
    case Err(_) => 0
  }

  lemma MarshalledInMessage(margs: seq<bytes>, tail: seq<bytes>, n: nat)
    requires 0 < n < U64 && |margs| == 3 * n
    ensures MarshalledIn(Print(MULTI_TRANSFER, [ToBytes(n)] + margs + tail)) == Marshalled(TriplesFrom(margs, 0, n))
  {
    hide ParseData, Print, Marshalled, TriplesFrom;
    FunctionNames();
    ParsePrint(MULTI_TRANSFER, [ToBytes(n)] + margs + tail);
    FromToBytes(n);
    TriplesShift([ToBytes(n)], margs, tail, n);
  }

  /** What is emitted carries the gas that is left, or leaves it. */
  lemma EmitGas(cfg: Config, call: Call, dst: Address, function_: bytes, args: seq<bytes>, minArgs: nat, gas: nat)
    ensures var out := Emit(cfg, call, dst, function_, args, minArgs, gas);
            out.gasRemaining + GasLimit(out) == gas &&
              (!cfg.Here(dst) ==> out.transfer.Some? && out.transfer.value.data == Print(function_, args))
  {
    hide Print, IsCallAfter;
  }

  /** A multi-transfer accounts for all its gas: left, handed on, the cost of each transfer, and of each copied byte. */
  lemma MultiGasConserved(cfg: Config, s: ShardState, call: Call) returns (copied: nat)
    requires |call.args| < U64 && MultiTransferOnSender(cfg, s, call).Ok?
    ensures var out, n := MultiTransferOnSender(cfg, s, call).value.1, |Requested(call)|;
            n * cfg.costs.multiTransfer < U64 && copied * cfg.costs.dataCopyPerByte < U64 ==>
              out.gasRemaining + GasLimit(out) + n * cfg.costs.multiTransfer + copied * cfg.costs.dataCopyPerByte
                == call.gasProvided
    ensures cfg.GoodMarshaller() && Storing(cfg) && Inv(cfg, s) && cfg.Here(call.caller) &&
              !cfg.Here(call.args[0]) && ValidTriples(Requested(call)) ==>
              var out := MultiTransferOnSender(cfg, s, call).value.1;
              out.transfer.Some? && copied == MarshalledIn(out.transfer.value.data)
  {
    hide MultiTransferOnSender, TransferAll, PackAll, Inv, Print, MarshalledIn, Requested, Emit, GasLimit, ReadUint64,
        AllSentFor, ValidTriples;
    var s1, sent, m := MultiSendSteps(cfg, s, call);
    var ts, n, dst := Requested(call), |Requested(call)|, call.args[0];
    EmitGas(cfg, call, dst, MULTI_TRANSFER, [ToBytes(n)] + m.args + call.args[2 + 3 * n..], 2 + 3 * n, m.gas);
    var gas := call.gasProvided - Times(n, cfg.costs.multiTransfer);
    copied := m.copied;
    if n * cfg.costs.multiTransfer < U64 && copied * cfg.costs.dataCopyPerByte < U64 {
      PackAllGas(cfg, s1, dst, ts, sent, gas);
    }
    if cfg.GoodMarshaller() && Storing(cfg) && Inv(cfg, s) && cfg.Here(call.caller) && !cfg.Here(dst) &&
      ValidTriples(ts) {
      TransferAllInv(cfg, s, call.caller, dst, ts, call.ret);
      RequestedNonces(call);
      PackAllCopies(cfg, s1, dst, ts, sent, gas);
      MarshalledInMessage(m.args, call.args[2 + 3 * n..], n);
    }
  }

  lemma RequestedNonces(call: Call)
    ensures forall i :: 0 <= i < |Requested(call)| ==> Requested(call)[i].nonce < U64
  {
  }

  /** A single NFT transfer, which marshals its token or sends a zero byte instead. */
  lemma NftGasConserved(cfg: Config, s: ShardState, call: Call) returns (copied: nat)
    requires NftTransferOnSender(cfg, s, call).Ok?
    ensures var out := NftTransferOnSender(cfg, s, call).value.1;
            copied * cfg.costs.dataCopyPerByte < U64 ==>
              out.gasRemaining + GasLimit(out) + cfg.costs.nftTransfer + copied * cfg.costs.dataCopyPerByte
                == call.gasProvided
    ensures cfg.GoodMarshaller() && !cfg.Here(call.args[3]) ==>
              var out := NftTransferOnSender(cfg, s, call).value.1;
              && out.transfer.Some? && ParseData(out.transfer.value.data).Ok?
              && var args := ParseData(out.transfer.value.data).value.1;
              |args| >= 4 && copied == if args[3] == [0] then 0 else |args[3]|
  {
    hide NftTransferOnSender, Debit, Hand, WasAlreadySent, Print, ParseData, Emit;
    var s1, sent, s2, left, s3, p := NftSendSteps(cfg, s, call);
    EmitGas(cfg, call, call.args[3], NFT_TRANSFER, call.args[..3] + [p.payload] + call.args[4..], MIN_ARGS_NFT_TRANSFER,
      p.gas);
    copied := p.copied;
    FunctionNames();
    ParsePrint(NFT_TRANSFER, call.args[..3] + [p.payload] + call.args[4..]);
    assert cfg.GoodMarshaller() ==> cfg.marshal(left) != [0];
  }

  /** A fungible transfer at its sender's shard. */
  lemma FungibleGasConserved(cfg: Config, s: ShardState, call: Call, dstHere: bool)
    requires FungibleTransfer(cfg, s, call, true, dstHere).Ok?
    ensures var out := FungibleTransfer(cfg, s, call, true, dstHere).value.1;
            out.gasRemaining + GasLimit(out) + cfg.costs.dctTransfer == call.gasProvided
  {
    hide AddToBalance, CheckLimited, Print, FromBytes;
  }
}
