/** The contract call behind a transfer: where it is made, with which arguments, and with how much gas. */
module ContractCalls {
  import opened Bytes
  import opened Results
  import opened Wire
  import opened Tokens
  import opened Storage
  import opened Transfers
  import opened Invariants
  import opened Messages
  import opened Gas

  /** A call follows: there is something behind the transfers, and the destination is a contract that may be called. */
  predicate CallFollows(cfg: Config, call: Call, dst: Address, suffix: seq<bytes>) {
    suffix != [] && IsSmartContract(dst) && (call.ret ==> call.callType == AsynchronousCallBack) &&
    (cfg.flags.checkFunctionArgument ==> suffix[0] != [])
  }

  /** An output transfer that calls a contract: the suffix is the function and its arguments, and can be read back. */
  ghost predicate Invokes(out: OutTransfer, caller: Address, contract: Address, suffix: seq<bytes>, gas: nat)
    requires suffix != []
  {
    && out.sender == caller && out.recipient == contract && out.gasLimit == gas
    && (ParseData(out.data) == Ok((suffix[0], suffix[1..])) <==> suffix[0] != [] && AT !in suffix[0])
    && |suffix[0]| <= |out.data| && out.data[..|suffix[0]|] == suffix[0]
    && (|suffix| == 1 ==> out.data == suffix[0])
  }

  lemma {:induction false} JoinStarts(ts: seq<bytes>, sep: byte)
    requires |ts| > 0
    ensures |ts[0]| <= |Join(ts, sep)| && Join(ts, sep)[..|ts[0]|] == ts[0]
  {
  }

  lemma PrintInvokes(caller: Address, contract: Address, suffix: seq<bytes>, gas: nat)
    requires suffix != []
    ensures Invokes(OutTransfer(caller, contract, Print(suffix[0], suffix[1..]), gas), caller, contract, suffix, gas)
  {
    hide ParseData;
    ParsePrint(suffix[0], suffix[1..]);
    JoinStarts([suffix[0]] + HexAll(suffix[1..]), AT);
  }

  // ---- in the sender's shard ----

  /** What an output does about the call: in this shard it is made, to another one its gas goes with the message. */
  ghost predicate Forwards(cfg: Config, call: Call, dst: Address, suffix: seq<bytes>, out: Output) {
    if !cfg.Here(dst) then
      out.transfer.Some? && (if CallFollows(cfg, call, dst, suffix) then out.gasRemaining == 0 else GasLimit(out) == 0)
    else if CallFollows(cfg, call, dst, suffix) then
      out.gasRemaining == 0 && out.transfer.Some? &&
        Invokes(out.transfer.value, call.caller, dst, suffix, GasLimit(out))
    else out.transfer.None?
  }

  lemma EmitForwards(cfg: Config, call: Call, dst: Address, function_: bytes, args: seq<bytes>, minArgs: nat, gas: nat)
    requires minArgs <= |call.args|
    ensures Forwards(cfg, call, dst, call.args[minArgs..], Emit(cfg, call, dst, function_, args, minArgs, gas))
  {
    hide Print, IsSmartContract;
    var suffix := call.args[minArgs..];
    if suffix != [] {
      assert suffix[0] == call.args[minArgs] && suffix[1..] == call.args[minArgs + 1..];
      PrintInvokes(call.caller, dst, suffix, gas);
    }
  }

  lemma MultiSenderCalls(cfg: Config, s: ShardState, call: Call)
    requires |call.args| < U64 && MultiTransferOnSender(cfg, s, call).Ok?
    ensures 2 + 3 * |Requested(call)| <= |call.args|
    ensures Forwards(cfg, call, call.args[0], call.args[2 + 3 * |Requested(call)|..],
      MultiTransferOnSender(cfg, s, call).value.1)
  {
    hide MultiTransferOnSender, TransferAll, PackAll, Emit, Forwards;
    var s1, sent, m := MultiSendSteps(cfg, s, call);
    var n := |Requested(call)|;
    EmitForwards(cfg, call, call.args[0], MULTI_TRANSFER, [ToBytes(n)] + m.args + call.args[2 + 3 * n..], 2 + 3 * n,
      m.gas);
  }

  lemma NftSenderCalls(cfg: Config, s: ShardState, call: Call)
    requires NftTransferOnSender(cfg, s, call).Ok?
    ensures |call.args| >= 4
    ensures Forwards(cfg, call, call.args[3], call.args[4..], NftTransferOnSender(cfg, s, call).value.1)
  {
    hide NftTransferOnSender, Debit, Hand, WasAlreadySent, Emit, Forwards;
    var s1, sent, s2, left, s3, p := NftSendSteps(cfg, s, call);
    EmitForwards(cfg, call, call.args[3], NFT_TRANSFER, call.args[..3] + [p.payload] + call.args[4..], 4, p.gas);
  }

  // ---- in the destination's shard ----

  /** What a delivery leaves: the call with all the gas, or all the gas. */
  ghost predicate Executes(caller: Address, dst: Address, suffix: seq<bytes>, gas: nat, out: Output) {
    if suffix != [] && IsSmartContract(dst) then
      out.gasRemaining == 0 && out.transfer.Some? && Invokes(out.transfer.value, caller, dst, suffix, gas)
    else out == Output(gas, None)
  }

  lemma DeliveryExecutes(call: Call, minArgs: nat)
    requires minArgs <= |call.args|
    ensures Executes(call.caller, call.recipient, call.args[minArgs..], call.gasProvided,
      CallAfterDelivery(call, minArgs))
  {
    hide Print, IsSmartContract;
    var suffix := call.args[minArgs..];
    if suffix != [] {
      assert suffix[0] == call.args[minArgs] && suffix[1..] == call.args[minArgs + 1..];
      PrintInvokes(call.caller, call.recipient, suffix, call.gasProvided);
    }
  }

  /** The call that executes an emitted message in its destination's shard. */
  function Arrival(out: OutTransfer, gas: nat, ret: bool, callType: CallType, payable: bool): Call
    requires ParseData(out.data).Ok?
  {
    Call(out.sender, out.recipient, 0, ParseData(out.data).value.1, gas, ret, callType, payable)
  }

  /** A multi-transfer's call arrives: the contract is called with the suffix of the original call and all the gas. */
  lemma MultiCallArrives(cfg: Config, s: ShardState, call: Call, there: Config, t: ShardState, gas: nat, ret: bool,
      callType: CallType, payable: bool)
    requires cfg.GoodMarshaller() && Storing(cfg) && Inv(cfg, s) && cfg.Here(call.caller) && |call.args| < U64
    requires MultiTransferOnSender(cfg, s, call).Ok? && !cfg.Here(call.args[0]) && ValidTriples(Requested(call))
    ensures 2 + 3 * |Requested(call)| <= |call.args|
    ensures var out := MultiTransferOnSender(cfg, s, call).value.1.transfer;
            && out.Some? && ParseData(out.value.data).Ok? && ParseData(out.value.data).value.0 == MULTI_TRANSFER
            && var delivered := MultiTransferOnDestination(there, t, Arrival(out.value, gas, ret, callType, payable));
            (delivered.Ok? ==>
               Executes(call.caller, call.args[0], call.args[2 + 3 * |Requested(call)|..], gas, delivered.value.1))
  {
    hide MultiTransferOnSender, TransferAll, PackAll, Inv, Print, ParseData, Executes, DeliverAll, ToBytes,
        ReadTriples, CallAfterDelivery, Emit, ReadUint64;
    var s1, sent, m := MultiSendSteps(cfg, s, call);
    var n, dst := |Requested(call)|, call.args[0];
    var tail := call.args[2 + 3 * n..];
    var args := [ToBytes(n)] + m.args + tail;
    EmitsFar(cfg, call, dst, MULTI_TRANSFER, args, 2 + 3 * n, m.gas);
    FunctionNames();
    ParsePrint(MULTI_TRANSFER, args);
    ReadsBack(n);
    var out := MultiTransferOnSender(cfg, s, call).value.1.transfer.value;
    var arrival := Arrival(out, gas, ret, callType, payable);
    assert arrival.args == args && args[0] == ToBytes(n);
    MinArgsFits(args, n, 1);
    DeliveryExecutes(arrival, 1 + 3 * n);
    assert args[1 + 3 * n..] == tail;
  }

  lemma ReadsBack(n: nat)
    requires n < U64
    ensures ReadUint64(ToBytes(n)) == n
  {
    FromToBytes(n);
  }

  lemma EmitsFar(cfg: Config, call: Call, dst: Address, function_: bytes, args: seq<bytes>, minArgs: nat, gas: nat)
    requires !cfg.Here(dst)
    ensures var out := Emit(cfg, call, dst, function_, args, minArgs, gas).transfer;
            out.Some? && out.value.sender == call.caller && out.value.recipient == dst &&
              out.value.data == Print(function_, args)
  {
    hide Print;
  }

  /** The same for a single NFT transfer. */
  lemma NftCallArrives(cfg: Config, s: ShardState, call: Call, there: Config, t: ShardState, gas: nat, ret: bool,
      callType: CallType, payable: bool)
    requires NftTransferOnSender(cfg, s, call).Ok? && !cfg.Here(call.args[3])
    ensures var out := NftTransferOnSender(cfg, s, call).value.1.transfer;
            && out.Some? && ParseData(out.value.data).Ok? && ParseData(out.value.data).value.0 == NFT_TRANSFER
            && var delivered := NftTransferOnDestination(there, t, Arrival(out.value, gas, ret, callType, payable));
            (delivered.Ok? ==> Executes(call.caller, call.args[3], call.args[4..], gas, delivered.value.1))
  {
    hide NftTransferOnSender, Debit, Hand, WasAlreadySent, Print, ParseData, Executes, AddToDestination, UnpackSingle,
        CallAfterDelivery, Emit;
    var s1, sent, s2, left, s3, p := NftSendSteps(cfg, s, call);
    var args := call.args[..3] + [p.payload] + call.args[4..];
    EmitsFar(cfg, call, call.args[3], NFT_TRANSFER, args, 4, p.gas);
    FunctionNames();
    ParsePrint(NFT_TRANSFER, args);
    var out := NftTransferOnSender(cfg, s, call).value.1.transfer.value;
    var arrival := Arrival(out, gas, ret, callType, payable);
    assert arrival.args == args;
    DeliveryExecutes(arrival, 4);
    assert args[4..] == call.args[4..];
  }

  /** The gas of a fungible transfer from another shard: for the call less the cost, for a callback, or spent. */
  lemma FungibleGasAtDestination(cfg: Config, s: ShardState, call: Call)
    requires FungibleTransfer(cfg, s, call, false, true).Ok?
    ensures |call.args| >= 2
    ensures var out, cost := FungibleTransfer(cfg, s, call, false, true).value.1, cfg.costs.dctTransfer;
            if CallFollows(cfg, call, call.recipient, call.args[2..]) then
              out.gasRemaining == 0 &&
                GasLimit(out) == if call.gasProvided >= cost then call.gasProvided - cost else 0
            else
              GasLimit(out) == 0 &&
                out.gasRemaining == if call.callType == AsynchronousCallBack then call.gasProvided else 0
  {
    hide Print, AddToBalance, IsSmartContract, CheckLimited, FromBytes;
  }

  /**
   * A fungible transfer calls a contract in this shard with the gas that its own cost leaves, carries a contract's
   * transfer on to another shard as it is, and emits nothing else.
   */
  lemma FungibleCalls(cfg: Config, s: ShardState, call: Call, sndHere: bool, dstHere: bool)
    requires FungibleTransfer(cfg, s, call, sndHere, dstHere).Ok?
    ensures |call.args| >= 2
    ensures var out, suffix := FungibleTransfer(cfg, s, call, sndHere, dstHere).value.1, call.args[2..];
            if dstHere then
              if CallFollows(cfg, call, call.recipient, suffix) then
                out.gasRemaining == 0 && out.transfer.Some? &&
                  Invokes(out.transfer.value, call.caller, call.recipient, suffix,
                    SpendGas(true, call.gasProvided, cfg.costs.dctTransfer))
              else out.transfer.None?
            else if IsSmartContract(call.caller) then
              && out.gasRemaining == 0 && out.transfer.Some?
              && out.transfer.value.sender == call.caller && out.transfer.value.recipient == call.recipient
              && ParseData(out.transfer.value.data) == Ok((DCT_TRANSFER, call.args))
              && out.transfer.value.gasLimit == SpendGas(sndHere, call.gasProvided, cfg.costs.dctTransfer)
            else out.transfer.None?
  {
    hide Print, ParseData, AddToBalance, IsSmartContract, Invokes, CheckLimited, FromBytes;
    var suffix := call.args[2..];
    FunctionNames();
    ParsePrint(DCT_TRANSFER, call.args);
    if suffix != [] {
      assert suffix[0] == call.args[2] && suffix[1..] == call.args[3..];
      PrintInvokes(call.caller, call.recipient, suffix, SpendGas(true, call.gasProvided, cfg.costs.dctTransfer));
    }
  }
}
