/** ParseDCTTransfers: what a transfer call moves, to whom, and which contract call follows. */
module TransferParser {
  import opened Bytes
  import opened Results
  import opened Wire
  import opened Tokens
  import opened Storage
  import opened Transfers
  import opened Invariants
  import opened Messages

  const MIN_ARGS_MULTI_TRANSFER := 4

  datatype Transfer = Transfer(token: bytes, nonce: nat, value: int, kind: nat)

  datatype Parsed = Parsed(transfers: seq<Transfer>, receiver: Address, function_: bytes, args: seq<bytes>)

  type Unmarshal = bytes -> Option<DCToken>

  /** createNewDCTTransfer */
  function TransferOf(unmarshal: Unmarshal, t: Triple, atSender: bool): Result<Transfer> {
    if t.nonce == 0 then Ok(Transfer(t.token, 0, FromBytes(t.payload), FUNGIBLE))
    else if atSender || |t.payload| <= MAX_LENGTH_FOR_VALUE then Ok(Transfer(t.token, t.nonce, FromBytes(t.payload),
      NON_FUNGIBLE))
    else
      match unmarshal(t.payload)
      case Some(carried) => Ok(Transfer(t.token, t.nonce, carried.value, NON_FUNGIBLE))
      case None => Err(UnmarshalFailed)
  }

  function TransfersOf(unmarshal: Unmarshal, ts: seq<Triple>, atSender: bool): (r: Result<seq<Transfer>>)
    ensures r.Ok? ==> |r.value| == |ts|
  {
    if ts == [] then Ok([])
    else
      var before :- TransfersOf(unmarshal, ts[..|ts| - 1], atSender);
      var last :- TransferOf(unmarshal, ts[|ts| - 1], atSender);
      Ok(before + [last])
  }

  /** The contract function and its arguments that stand behind the transfers. */
  function CallFrom(args: seq<bytes>, start: nat): (bytes, seq<bytes>) {
    (if start < |args| then args[start] else [], if start + 1 < |args| then args[start + 1..] else [])
  }

  /** A first argument is taken for an address if it is as long as one and no number of 64 bits. */
  predicate StartsWithAddress(receiver: Address, args: seq<bytes>)
    requires |args| > 0
  {
    |args[0]| == |receiver| && FromBytes(args[0]) >= U64
  }

  function ParseMulti(unmarshal: Unmarshal, receiver: Address, args: seq<bytes>): Result<Parsed> {
    var _ :- Need(|args| >= MIN_ARGS_MULTI_TRANSFER, NotEnoughArguments);
    var atSender := StartsWithAddress(receiver, args);
    var start := if atSender then 2 else 1;
    var n := ReadUint64(args[start - 1]);
    var minArgs := MinArgs(n, start);
    var _ :- Need(|args| >= minArgs, NotEnoughArguments);
    var ts :- ReadTriples(args, start, n);
    var transfers :- TransfersOf(unmarshal, ts, atSender);
    var (function_, callArgs) := CallFrom(args, minArgs);
    Ok(Parsed(transfers, if atSender then args[0] else receiver, function_, callArgs))
  }

  function ParseNft(sender: Address, receiver: Address, args: seq<bytes>): Result<Parsed> {
    var _ :- Need(|args| >= MIN_ARGS_NFT_TRANSFER, NotEnoughArguments);
    var (function_, callArgs) := CallFrom(args, MIN_ARGS_NFT_TRANSFER);
    var transfer := Transfer(args[0], ReadUint64(args[1]), FromBytes(args[2]), NON_FUNGIBLE);
    Ok(Parsed([transfer], if sender == receiver then args[3] else receiver, function_, callArgs))
  }

  function ParseFungible(receiver: Address, args: seq<bytes>): Result<Parsed> {
    var _ :- Need(|args| >= MIN_ARGS_DCT_TRANSFER, NotEnoughArguments);
    var (function_, callArgs) := CallFrom(args, MIN_ARGS_DCT_TRANSFER);
    Ok(Parsed([Transfer(args[0], 0, FromBytes(args[1]), FUNGIBLE)], receiver, function_, callArgs))
  }

  /** ParseDCTTransfers */
  function ParseTransfers(unmarshal: Unmarshal, sender: Address, receiver: Address, function_: bytes,
      args: seq<bytes>): Result<Parsed> {
    if function_ == DCT_TRANSFER then ParseFungible(receiver, args)
    else if function_ == NFT_TRANSFER then ParseNft(sender, receiver, args)
    else if function_ == MULTI_TRANSFER then ParseMulti(unmarshal, receiver, args)
    else Err(NotDCTTransferInput)
  }

  /** The parser applied to the data of an emitted transfer. */
  function ParseEmitted(unmarshal: Unmarshal, out: OutTransfer): Result<Parsed> {
    var (function_, args) :- ParseData(out.data);
    ParseTransfers(unmarshal, out.sender, out.recipient, function_, args)
  }

  // ---- agreement of the two shards ----

  /** The parser reads a transfer as its sender meant it. */
  lemma {:induction false} TransfersAtSender(unmarshal: Unmarshal, ts: seq<Triple>)
    ensures var r := TransfersOf(unmarshal, ts, true);
            r.Ok? && forall i :: 0 <= i < |ts| ==>
              r.value[i] == Transfer(ts[i].token, ts[i].nonce, FromBytes(ts[i].payload), if ts[i].nonce
                == 0 then FUNGIBLE else NON_FUNGIBLE)
  {
    if ts != [] {
      TransfersAtSender(unmarshal, ts[..|ts| - 1]);
    }
  }

  /** Whatever form the amounts travel in, the parser reads the same transfers off the message. */
  lemma {:induction false} TransfersAgree(cfg: Config, ts: seq<Triple>, packed: seq<Triple>, its: seq<Item>)
    requires Reads(cfg, packed, its) && AllMatch(ts, its)
    ensures TransfersOf(cfg.unmarshal, packed, false) == TransfersOf(cfg.unmarshal, ts, true)
  {
    if ts != [] {
      var n := |ts| - 1;
      TransfersAgree(cfg, ts[..n], packed[..n], its[..n]);
      assert ItemOf(cfg, packed[n]) == Ok(its[n]) && Matches(ts[n], its[n]);
    }
  }

  /** A list can be parsed exactly if each of its transfers can, and is then parsed one by one. */
  lemma {:induction false} TransfersOneByOne(unmarshal: Unmarshal, ts: seq<Triple>, atSender: bool)
    ensures var r := TransfersOf(unmarshal, ts, atSender);
            && (r.Ok? <==> forall i :: 0 <= i < |ts| ==> TransferOf(unmarshal, ts[i], atSender).Ok?)
            && (r.Ok? ==> forall i :: 0 <= i < |ts| ==> TransferOf(unmarshal, ts[i], atSender) == Ok(r.value[i]))
  {
    hide TransferOf;
    if ts != [] {
      var n := |ts| - 1;
      TransfersOneByOne(unmarshal, ts[..n], atSender);
      assert forall i :: 0 <= i < n ==> ts[..n][i] == ts[i];
    }
  }

  /** The i-th of the transfers that start at an argument has an amount that is bare, or that can be unmarshalled. */
  predicate Readable(unmarshal: Unmarshal, args: seq<bytes>, start: nat, i: nat, bare: bool)
    requires start + 3 * i + 2 < |args|
  {
    var nonce, payload := ReadUint64(args[start + 3 * i + 1]), args[start + 3 * i + 2];
    bare || nonce == 0 || |payload| <= MAX_LENGTH_FOR_VALUE || unmarshal(payload).Some?
  }

  /** It is parsed as its token, its nonce, and that amount. */
  ghost predicate ParsedAt(unmarshal: Unmarshal, args: seq<bytes>, start: nat, i: nat, bare: bool, t: Transfer)
    requires start + 3 * i + 2 < |args|
  {
    var nonce, payload := ReadUint64(args[start + 3 * i + 1]), args[start + 3 * i + 2];
    && t.token == args[start + 3 * i] && t.nonce == nonce
    && t.kind == (if nonce == 0 then FUNGIBLE else NON_FUNGIBLE)
    && if bare || nonce == 0 || |payload| <= MAX_LENGTH_FOR_VALUE then t.value == FromBytes(payload)
       else unmarshal(payload).Some? && t.value == unmarshal(payload).value.value
  }

  lemma ParsedAtExactly(unmarshal: Unmarshal, args: seq<bytes>, start: nat, n: nat, i: nat, bare: bool)
    requires start + 3 * n <= |args| && i < n
    ensures var r := TransferOf(unmarshal, TriplesFrom(args, start, n)[i], bare);
            && (r.Ok? <==> Readable(unmarshal, args, start, i, bare))
            && (r.Ok? ==> ParsedAt(unmarshal, args, start, i, bare, r.value))
  {
    hide FromBytes, ReadUint64;
  }

  /**
   * Any argument list: a first argument as long as the receiver's address and of more than 64 bits is the destination,
   * the next one is the count, and the list is parsed exactly if it is that long and each transfer can be read.
   */
  lemma MultiParsedExactly(unmarshal: Unmarshal, receiver: Address, args: seq<bytes>, bare: bool, start: nat)
    requires 4 <= |args| < U64 && bare == (|args[0]| == |receiver| && FromBytes(args[0]) >= U64)
    requires start == if bare then 2 else 1
    ensures var n, r := ReadUint64(args[start - 1]), ParseMulti(unmarshal, receiver, args);
            && (r.Ok? <==>
                start + 3 * n <= |args| && forall i :: 0 <= i < n ==> Readable(unmarshal, args, start, i, bare))
            && (r.Ok? ==>
                && r.value.receiver == (if bare then args[0] else receiver) && |r.value.transfers| == n
                && forall i :: 0 <= i < n ==> ParsedAt(unmarshal, args, start, i, bare, r.value.transfers[i]))
  {
    hide TransfersOf, TransferOf, CallFrom, FromBytes, ReadUint64, ParsedAt, Readable, MinArgs, TripleAt;
    var n := ReadUint64(args[start - 1]);
    MinArgsFits(args, n, start);
    if start + 3 * n <= |args| {
      var ts := TriplesFrom(args, start, n);
      TransfersOneByOne(unmarshal, ts, bare);
      forall i | 0 <= i < n
        ensures var r := TransferOf(unmarshal, ts[i], bare);
                && (r.Ok? <==> Readable(unmarshal, args, start, i, bare))
                && (r.Ok? ==> ParsedAt(unmarshal, args, start, i, bare, r.value))
      {
        ParsedAtExactly(unmarshal, args, start, n, i, bare);
      }
      ParseMultiIs(unmarshal, receiver, args);
    } else {
      TooShort(unmarshal, receiver, args, start, n);
    }
  }

  lemma TooShort(unmarshal: Unmarshal, receiver: Address, args: seq<bytes>, start: nat, n: nat)
    requires 4 <= |args| && start == StartOf(receiver, args) && n == ReadUint64(args[start - 1])
    requires start + 3 * n > |args|
    ensures ParseMulti(unmarshal, receiver, args).Err?
  {
    hide TransfersOf, CallFrom, FromBytes, ReadUint64, MinArgs;
  }

  /** Fewer arguments are refused. */
  lemma ShortListsAreRefused(unmarshal: Unmarshal, sender: Address, receiver: Address, function_: bytes,
      args: seq<bytes>)
    ensures var needed := if function_ == DCT_TRANSFER then 2 else 4;
            var known := function_ == DCT_TRANSFER || function_ == NFT_TRANSFER || function_ == MULTI_TRANSFER;
            && (!known || |args| < needed ==> ParseTransfers(unmarshal, sender, receiver, function_, args).Err?)
            && (function_ == DCT_TRANSFER || function_ == NFT_TRANSFER ==>
                (ParseTransfers(unmarshal, sender, receiver, function_, args).Ok? <==> |args| >= needed))
  {
    hide FromBytes, ReadUint64;
    FunctionNames();
  }

  function StartOf(receiver: Address, args: seq<bytes>): (start: nat)
    requires |args| > 0
    ensures start == 1 || start == 2
  {
    if StartsWithAddress(receiver, args) then 2 else 1
  }

  /** A parse in its parts, where the count is no larger than the list. */
  lemma ParseMultiIs(unmarshal: Unmarshal, receiver: Address, args: seq<bytes>)
    requires MIN_ARGS_MULTI_TRANSFER <= |args| < U64
    requires var start := StartOf(receiver, args); start + 3 * ReadUint64(args[start - 1]) <= |args|
    ensures var start := StartOf(receiver, args);
            var n := ReadUint64(args[start - 1]);
            ParseMulti(unmarshal, receiver, args) ==
              match TransfersOf(unmarshal, TriplesFrom(args, start, n), start == 2)
              case Ok(transfers) =>
                Ok(Parsed(transfers, if start == 2 then args[0]
                  else receiver, CallFrom(args, start + 3 * n).0, CallFrom(args, start + 3 * n).1))
              case Err(error) => Err(error)
  {
    hide TransfersOf, TriplesFrom, CallFrom, StartsWithAddress, ReadUint64;
  }

  /** The parse of the arguments that a sender's shard packs. */
  lemma ParsePacked(unmarshal: Unmarshal, receiver: Address, margs: seq<bytes>, tail: seq<bytes>, n: nat)
    requires 0 < n && |margs| == 3 * n && 3 * n + 1 + |tail| < U64
    ensures ParseMulti(unmarshal, receiver, [ToBytes(n)] + margs + tail) ==
              match TransfersOf(unmarshal, TriplesFrom(margs, 0, n), false)
              case Ok(transfers) => Ok(Parsed(transfers, receiver, CallFrom(tail, 0).0, CallFrom(tail, 0).1))
              case Err(error) => Err(error)
  {
    hide TransfersOf, TriplesFrom, ParseMulti, CallFrom, FromBytes, ToBytes;
    var args := [ToBytes(n)] + margs + tail;
    FromToBytes(n);
    TriplesShift([ToBytes(n)], margs, tail, n);
    CallBehind([ToBytes(n)] + margs, tail);
    ParseMultiIs(unmarshal, receiver, args);
  }

  lemma CallBehind(front: seq<bytes>, tail: seq<bytes>)
    ensures CallFrom(front + tail, |front|) == CallFrom(tail, 0)
  {
    if |tail| > 1 {
      assert (front + tail)[|front| + 1..] == tail[1..];
    }
  }

  /** The parse of a multi-transfer call in its sender's shard. */
  lemma ParseAtSender(unmarshal: Unmarshal, call: Call)
    requires 4 <= |call.args| < U64 && call.args[0] != call.caller && |call.args[0]| == |call.caller|
    requires var n := ReadUint64(call.args[1]); 0 < n && 2 + 3 * n <= |call.args|
    ensures TransfersOf(unmarshal, Requested(call), true).Ok?
    ensures var r := ParseMulti(unmarshal, call.caller, call.args);
            if FromBytes(call.args[0]) < U64 then r.Err? || r.value.receiver == call.caller
            else
              var tail := call.args[2 + 3 * ReadUint64(call.args[1])..];
              r == Ok(Parsed(TransfersOf(unmarshal, Requested(call), true).value, call.args[0], CallFrom(tail, 0).0,
                CallFrom(tail, 0).1))
  {
    hide TransfersOf, TriplesFrom, CallFrom, FromBytes, ReadUint64;
    TransfersAtSender(unmarshal, Requested(call));
    if FromBytes(call.args[0]) >= U64 {
      hide ParseMulti;
      var m := 2 + 3 * ReadUint64(call.args[1]);
      assert call.args[..m] + call.args[m..] == call.args;
      CallBehind(call.args[..m], call.args[m..]);
      ParseMultiIs(unmarshal, call.caller, call.args);
    }
  }

  /** The message of a multi-transfer is parsed as the transfers asked for, to the destination, with the call. */
  lemma EmittedParse(cfg: Config, s: ShardState, call: Call)
    requires cfg.GoodMarshaller() && Storing(cfg) && Inv(cfg, s) && cfg.Here(call.caller) && |call.args| < U64
    requires MultiTransferOnSender(cfg, s, call).Ok? && !cfg.Here(call.args[0]) && ValidTriples(Requested(call))
    ensures 2 + 3 * |Requested(call)| <= |call.args| && TransfersOf(cfg.unmarshal, Requested(call), true).Ok?
    ensures var out := MultiTransferOnSender(cfg, s, call).value.1.transfer;
            var tail := call.args[2 + 3 * |Requested(call)|..];
            out.Some? && ParseEmitted(cfg.unmarshal, out.value)
              == Ok(Parsed(TransfersOf(cfg.unmarshal, Requested(call), true).value, call.args[0], CallFrom(tail, 0).0,
                           CallFrom(tail, 0).1))
  {
    hide MultiTransferOnSender, TransferAll, PackAll, Inv, TriplesFrom, PayloadOf, ItemsOf, Print, ParseData,
        CallSuffix, TransfersOf, ParseMulti;
    var s1, sent, m := MultiSendSteps(cfg, s, call);
    var ts, n, dst := Requested(call), |Requested(call)|, call.args[0];
    var tail := call.args[2 + 3 * n..];
    TransferAllInv(cfg, s, call.caller, dst, ts, call.ret);
    var its := PackAllReads(cfg, s1, dst, ts, sent, call.gasProvided - Times(n, cfg.costs.multiTransfer));
    MultiMessageReads(cfg, m.args, tail, n, its);
    FunctionNames();
    TransfersAgree(cfg, ts, TriplesFrom(m.args, 0, n), its);
    TransfersAtSender(cfg.unmarshal, ts);
    ParsePacked(cfg.unmarshal, dst, m.args, tail, n);
  }

  /**
   * The parse of a multi-transfer and of the message it emits give the same receiver, transfers and call, exactly if
   * the destination's address is no number of 64 bits.
   */
  lemma MultiParsesAgree(cfg: Config, s: ShardState, call: Call)
    requires cfg.GoodMarshaller() && Storing(cfg) && Inv(cfg, s) && cfg.Here(call.caller) && |call.args| < U64
    requires MultiTransferOnSender(cfg, s, call).Ok? && !cfg.Here(call.args[0]) && ValidTriples(Requested(call))
    ensures var out := MultiTransferOnSender(cfg, s, call).value.1.transfer;
            var parsed := ParseTransfers(cfg.unmarshal, call.caller, call.caller, MULTI_TRANSFER, call.args);
            && out.Some? && ParseEmitted(cfg.unmarshal, out.value).Ok?
            && (parsed == ParseEmitted(cfg.unmarshal, out.value) <==> FromBytes(call.args[0]) >= U64)
  {
    hide MultiTransferOnSender, TransferAll, PackAll, Inv, TriplesFrom, ParseData, TransfersOf, ParseMulti, CallFrom,
        ParseEmitted;
    var s1, sent, m := MultiSendSteps(cfg, s, call);
    DestinationIsDifferent(cfg, s, call);
    EmittedParse(cfg, s, call);
    FunctionNames();
    ParseAtSender(cfg.unmarshal, call);
  }

  lemma DestinationIsDifferent(cfg: Config, s: ShardState, call: Call)
    requires MultiTransferOnSender(cfg, s, call).Ok?
    ensures |call.args| >= 4 && call.args[0] != call.caller && |call.args[0]| == |call.caller|
  {
  }

  /** The parse of a single NFT transfer and of the message it emits agree for every destination. */
  lemma NftParsesAgree(cfg: Config, s: ShardState, call: Call)
    requires NftTransferOnSender(cfg, s, call).Ok? && !cfg.Here(call.args[3])
    ensures var out := NftTransferOnSender(cfg, s, call).value.1.transfer;
            && out.Some?
            && ParseTransfers(cfg.unmarshal, call.caller, call.caller, NFT_TRANSFER, call.args)
              == ParseEmitted(cfg.unmarshal, out.value)
            && ParseEmitted(cfg.unmarshal, out.value).Ok?
  {
    hide NftTransferOnSender, Debit, Hand, WasAlreadySent, Pack, Print, ParseData;
    var s1, sent, s2, left, s3, p := NftSendSteps(cfg, s, call);
    var front, tail := call.args[..3] + [p.payload], call.args[4..];
    FunctionNames();
    ParsePrint(NFT_TRANSFER, front + tail);
    CallBehind(front, tail);
    CallBehind(call.args[..4], tail);
    assert call.args[..4] + tail == call.args;
  }

  // ---- the methods ----

  /** The loop that fills the list of transfers. */
  method ParseTransferList(unmarshal: Unmarshal, args: seq<bytes>, start: nat, n: nat, atSender: bool)
      returns (r: Result<seq<Transfer>>)
    requires start + 3 * n <= |args|
    ensures r == TransfersOf(unmarshal, TriplesFrom(args, start, n), atSender)
  {
    hide TransfersOf, TriplesFrom, TransferOf, TripleAt;
    ghost var ts := TriplesFrom(args, start, n);
    var transfers := new Transfer[n];
    NoTransfers(unmarshal, ts, atSender);
    for i := 0 to n
      invariant TransfersOf(unmarshal, ts[..i], atSender) == Ok(transfers[..i])
    {
      TransferStep(unmarshal, args, start, n, i, atSender);
      var transfer := TransferOf(unmarshal, TripleAt(args, start + i * ARGS_PER_TRANSFER), atSender);
      if transfer.Err? {
        return Err(transfer.error);
      }
      transfers[i] := transfer.value;
      assert transfers[..i + 1] == transfers[..i] + [transfer.value];
    }
    assert ts[..n] == ts && transfers[..n] == transfers[..];
    r := Ok(transfers[..]);
  }

  method ParseMultiTransfer(unmarshal: Unmarshal, receiver: Address, args: seq<bytes>) returns (r: Result<Parsed>)
    ensures r == ParseMulti(unmarshal, receiver, args)
  {
    hide FromBytes, Uint64, TransfersOf, TriplesFrom, TransferOf, TripleAt;
    if |args| < MIN_ARGS_MULTI_TRANSFER {
      return Err(NotEnoughArguments);
    }
    var numOfTransfer := FromBytes(args[0]);
    var startIndex, atSender := 1, false;
    var rcv, function_, callArgs := receiver, [], [];
    if |args[0]| == |receiver| && numOfTransfer >= U64 {
      rcv := args[0];
      numOfTransfer := FromBytes(args[1]);
      startIndex := 2;
      atSender := true;
    }
    var n := Uint64(numOfTransfer);
    var minLenArgs := (n * ARGS_PER_TRANSFER + startIndex) % U64;
    if |args| < minLenArgs {
      return Err(NotEnoughArguments);
    }
    if |args| > minLenArgs {
      function_ := args[minLenArgs];
    }
    if |args| > minLenArgs + 1 {
      callArgs := args[minLenArgs + 1..];
    }
    if startIndex + 3 * n > |args| {
      return Err(IndexOutOfRange);
    }
    var transfers := ParseTransferList(unmarshal, args, startIndex, n, atSender);
    if transfers.Err? {
      return Err(transfers.error);
    }
    r := Ok(Parsed(transfers.value, rcv, function_, callArgs));
  }

  lemma NoTransfers(unmarshal: Unmarshal, ts: seq<Triple>, atSender: bool)
    ensures TransfersOf(unmarshal, ts[..0], atSender) == Ok([])
  {
  }

  /** One transfer; an error is the error of the whole list. */
  lemma TransferStep(unmarshal: Unmarshal, args: seq<bytes>, start: nat, n: nat, i: nat, atSender: bool)
    requires start + 3 * n <= |args| && i < n
    ensures var ts := TriplesFrom(args, start, n);
            var transfer := TransferOf(unmarshal, TripleAt(args, start + 3 * i), atSender);
            TransfersOf(unmarshal, ts[..i], atSender).Ok? ==>
              if transfer.Ok? then TransfersOf(unmarshal, ts[..i + 1], atSender)
                == Ok(TransfersOf(unmarshal, ts[..i], atSender).value + [transfer.value])
              else TransfersOf(unmarshal, ts, atSender) == Err(transfer.error)
  {
    hide TransferOf, TripleAt;
    var ts := TriplesFrom(args, start, n);
    assert ts[i] == TripleAt(args, start + 3 * i);
    assert ts[..i + 1][..i] == ts[..i];
    if TransfersOf(unmarshal, ts[..i + 1], atSender).Err? {
      ParseErrorsStay(unmarshal, ts, i + 1, atSender);
    }
  }

  lemma {:induction false} ParseErrorsStay(unmarshal: Unmarshal, ts: seq<Triple>, n: nat, atSender: bool)
    requires n <= |ts| && TransfersOf(unmarshal, ts[..n], atSender).Err?
    ensures TransfersOf(unmarshal, ts, atSender) == TransfersOf(unmarshal, ts[..n], atSender)
  {
    if n == |ts| {
      assert ts[..n] == ts;
    } else {
      assert ts[..|ts| - 1][..n] == ts[..n];
      ParseErrorsStay(unmarshal, ts[..|ts| - 1], n, atSender);
    }
  }
}
