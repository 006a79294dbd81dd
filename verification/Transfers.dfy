/** The three transfer functions: their halves at the sender's and at the destination's shard. */
module Transfers {
  import opened Bytes
  import opened Results
  import opened Wire
  import opened Tokens
  import opened Storage

  const ARGS_PER_TRANSFER := 3
  const MIN_ARGS_DCT_TRANSFER := 2
  const MIN_ARGS_NFT_TRANSFER := 4

  /** One transfer in an argument list: the payload is an amount or a marshalled token. */
  datatype Triple = Triple(token: bytes, nonce: nat, payload: bytes)

  function TripleAt(args: seq<bytes>, i: nat): (t: Triple)
    requires i + 3 <= |args|
    ensures t.nonce < U64
  {
    Triple(args[i], ReadUint64(args[i + 1]), args[i + 2])
  }

  function TriplesFrom(args: seq<bytes>, start: nat, n: nat): (ts: seq<Triple>)
    requires start + 3 * n <= |args|
    ensures |ts| == n && forall i :: 0 <= i < n ==> ts[i].nonce < U64
  {
    seq(n, i requires 0 <= i < n => TripleAt(args, start + 3 * i))
  }

  function ReadTriples(args: seq<bytes>, start: nat, n: nat): Result<seq<Triple>> {
    if start + 3 * n > |args| then Err(IndexOutOfRange) else Ok(TriplesFrom(args, start, n))
  }

  /** A product of two 64-bit numbers, which wraps. */
  function Times(a: nat, b: nat): (p: nat)
    ensures p < U64 && (a * b < U64 ==> p == a * b)
  {
    a * b % U64
  }

  /** The number of arguments in front of the call, computed in 64 bits as the code does. */
  function MinArgs(n: nat, start: nat): nat {
    (n * ARGS_PER_TRANSFER + start) % U64
  }

  /** checkBasicDCTArguments */
  function CheckBasic(call: Call): Result<()> {
    var _ :- Need(call.callValue == 0, BuiltInFunctionCalledWithValue);
    Need(|call.args| >= MIN_ARGS_DCT_TRANSFER, InvalidArguments)
  }

  /** IsSenderOrDestinationWithTransferRole */
  predicate HasTransferRoleAddress(cfg: Config, s: ShardState, token: bytes, snd: Address, dst: Address) {
    cfg.flags.transferRoleAddresses && token in s.transferAddresses &&
    exists a :: a in s.transferAddresses[token] && (a == snd || a == dst)
  }

  /** checkIfTransferCanHappenWithLimitedTransfer */
  function CheckLimited(cfg: Config, s: ShardState, token: bytes, snd: Address, dst: Address,
                        sndHere: bool, dstHere: bool, ret: bool): Result<()> {
    var id := if cfg.flags.checkCorrectTokenId then token else cfg.keyPrefix + token;
    if ret || !sndHere || !SettingsOf(s, token).limitedTransfer then Ok(())
    else if HasTransferRoleAddress(cfg, s, id, snd, dst) then Ok(())
    else if CheckAllowed(s, snd, id, ROLE_TRANSFER).Ok? then Ok(())
    else if !dstHere then Err(NilUserAccount)
    else CheckAllowed(s, dst, id, ROLE_TRANSFER)
  }

  /** DetermineIsSCCallAfter */
  predicate IsCallAfter(cfg: Config, call: Call, dst: Address, minArgs: nat) {
    |call.args| > minArgs &&
    (call.ret ==> call.callType == AsynchronousCallBack) &&
    IsSmartContract(dst) &&
    (cfg.flags.checkFunctionArgument ==> |call.args[minArgs]| > 0)
  }

  /** addNFTToDestination: credits an account; the token comes back with its value raised in place. */
  function AddToDestination(cfg: Config, s: ShardState, snd: Address, dst: Address, t: DCToken,
                            token: bytes, nonce: nat, ret: bool): Result<(ShardState, DCToken)> {
    var (current, _) := Read(cfg, s, dst, token, nonce);
    var _ :- CheckFrozeAndPause(cfg, s, dst, token, current, ret);
    var sum := t.(value := t.value + current.value);
    var s1 :- SaveToken(cfg, s, snd, dst, token, nonce, sum, false, ret);
    var s2 :- if cfg.SameShard(snd, dst) then Ok(s1) else AddLiquidity(cfg, s1, token, nonce, t.value);
    Ok((s2, sum))
  }

  /** The debit of a sender's account: read, check the amount, save. The token comes back carrying the amount. */
  function Debit(cfg: Config, s: ShardState, snd: Address, token: bytes, nonce: nat, v: nat, short: Error,
      ret: bool): Result<(ShardState, DCToken)> {
    var t :- ReadOnSender(cfg, s, snd, token, nonce);
    var _ :- Need(v <= t.value, short);
    var s1 :- SaveToken(cfg, s, snd, snd, token, nonce, t.(value := t.value - v), false, ret);
    Ok((s1, t.(value := v)))
  }

  /** The second half of a send: the credit in the same shard, or the debit of this shard's liquidity. */
  function Hand(cfg: Config, s: ShardState, snd: Address, dst: Address, token: bytes, nonce: nat, t: DCToken,
      ret: bool): Result<(ShardState, DCToken)> {
    if cfg.Here(dst) then AddToDestination(cfg, s, snd, dst, t, token, nonce, ret)
    else
      var s1 :- AddLiquidity(cfg, s, token, nonce, -t.value);
      Ok((s1, t))
  }

  /** transferOneTokenOnSenderShard */
  function TransferOne(cfg: Config, s: ShardState, snd: Address, dst: Address, t: Triple,
      ret: bool): Result<(ShardState, DCToken)> {
    var v := FromBytes(t.payload);
    var _ :- Need(v > 0, InvalidNFTQuantity);
    var (s1, sent) :- Debit(cfg, s, snd, t.token, t.nonce, v, InsufficientQuantityDCT, ret);
    var _ :- CheckLimited(cfg, s1, t.token, snd, dst, true, cfg.Here(dst), ret);
    Hand(cfg, s1, snd, dst, t.token, t.nonce, sent, ret)
  }

  /** The transfers of a list, one after the other, with the tokens they leave for the message. */
  function TransferAll(cfg: Config, s: ShardState, snd: Address, dst: Address, ts: seq<Triple>,
      ret: bool): (r: Result<(ShardState, seq<DCToken>)>)
    ensures r.Ok? ==> |r.value.1| == |ts|
  {
    if ts == [] then Ok((s, []))
    else
      var (s1, sent) :- TransferAll(cfg, s, snd, dst, ts[..|ts| - 1], ret);
      var (s2, t) :- TransferOne(cfg, s1, snd, dst, ts[|ts| - 1], ret);
      Ok((s2, sent + [t]))
  }

  /** The nonce argument of a message. */
  function NonceArg(nonce: nat): bytes {
    if nonce > 0 then ToBytes(nonce) else [0]
  }

  /** What a message carries for one transfer: the amount, or the marshalled token, which costs gas. */
  datatype Payload = Payload(state: ShardState, payload: bytes, gas: nat, copied: nat)

  function Pack(cfg: Config, s: ShardState, t: DCToken, gas: nat): Result<Payload> {
    var data := cfg.marshal(t);
    var cost := Times(|data|, cfg.costs.dataCopyPerByte);
    if cost > gas then Err(NotEnoughGas) else Ok(Payload(s, data, gas - cost, |data|))
  }

  function PayloadOf(cfg: Config, s: ShardState, dst: Address, t: Triple, sent: DCToken, gas: nat): Result<Payload> {
    var v := FromBytes(t.payload);
    if t.nonce == 0 then Ok(Payload(s, ToBytes(v), gas, 0))
    else
      var (s1, already) :- WasAlreadySent(cfg, s, t.token, t.nonce, dst);
      if !already || v == 1 || |ToBytes(v)| > MAX_LENGTH_FOR_VALUE then Pack(cfg, s1, sent, gas)
      else Ok(Payload(s1, ToBytes(v), gas, 0))
  }

  datatype Message = Message(state: ShardState, args: seq<bytes>, gas: nat, copied: nat)

  /** The loop of createDCTNFTOutputTransfers. */
  function PackAll(cfg: Config, s: ShardState, dst: Address, ts: seq<Triple>, sent: seq<DCToken>,
      gas: nat): (r: Result<Message>)
    requires |sent| == |ts|
    ensures r.Ok? ==> |r.value.args| == 3 * |ts|
  {
    if ts == [] then Ok(Message(s, [], gas, 0))
    else
      var n := |ts| - 1;
      var m :- PackAll(cfg, s, dst, ts[..n], sent[..n], gas);
      var p :- PayloadOf(cfg, m.state, dst, ts[n], sent[n], m.gas);
      Ok(Message(p.state, m.args + [ts[n].token, NonceArg(ts[n].nonce), p.payload], p.gas, m.copied + p.copied))
  }

  /** The transfer that a function emits: the message to another shard, or the contract call in this one. */
  function Emit(cfg: Config, call: Call, dst: Address, function_: bytes, args: seq<bytes>, minArgs: nat,
      gas: nat): Output {
    var after := IsCallAfter(cfg, call, dst, minArgs);
    if !cfg.Here(dst) then
      Output(if after then 0
        else gas, Some(OutTransfer(call.caller, dst, Print(function_, args), if after then gas else 0)))
    else if after then
      Output(0, Some(OutTransfer(call.caller, dst, Print(call.args[minArgs], call.args[minArgs + 1..]), gas)))
    else
      Output(gas, None)
  }

  function CheckDestination(cfg: Config, call: Call, dst: Address): Result<()> {
    var _ :- Need(|dst| == |call.caller|, InvalidArguments);
    var _ :- Need(dst != call.caller, InvalidArguments);
    Need(cfg.shardOf(dst) != METACHAIN || cfg.flags.transferToMeta, InvalidRcvAddr)
  }

  /** processDCTNFTMultiTransferOnSenderShard */
  function MultiTransferOnSender(cfg: Config, s: ShardState, call: Call): Result<(ShardState, Output)> {
    var _ :- CheckBasic(call);
    var _ :- Need(|call.args| >= 4, InvalidArguments);
    var dst := call.args[0];
    var _ :- CheckDestination(cfg, call, dst);
    var n := ReadUint64(call.args[1]);
    var minArgs := MinArgs(n, 2);
    var _ :- Need(n > 0 && |call.args| >= minArgs, InvalidArguments);
    var cost := Times(n, cfg.costs.multiTransfer);
    var _ :- Need(call.gasProvided >= cost, NotEnoughGas);
    var _ :- Need(cfg.Here(dst) ==> call.payable, AccountNotPayable);
    var ts :- ReadTriples(call.args, 2, n);
    var (s1, sent) :- TransferAll(cfg, s, call.caller, dst, ts, call.ret);
    var m :- PackAll(cfg, s1, dst, ts, sent, call.gasProvided - cost);
    var args := [ToBytes(n)] + m.args + call.args[minArgs..];
    Ok((m.state, Emit(cfg, call, dst, MULTI_TRANSFER, args, minArgs, m.gas)))
  }

  /** processNFTTransferOnSenderShard with createNFTOutputTransfers */
  function NftTransferOnSender(cfg: Config, s: ShardState, call: Call): Result<(ShardState, Output)> {
    var _ :- CheckBasic(call);
    var _ :- Need(|call.args| >= MIN_ARGS_NFT_TRANSFER, InvalidArguments);
    var token, nonce, v, dst := call.args[0], ReadUint64(call.args[1]), FromBytes(call.args[2]), call.args[3];
    var _ :- CheckDestination(cfg, call, dst);
    var _ :- Need(call.gasProvided >= cfg.costs.nftTransfer, NotEnoughGas);
    var t :- ReadOnSender(cfg, s, call.caller, token, nonce);
    var _ :- Need(nonce != 0, NFTDoesNotHaveMetadata);
    var _ :- Need(v <= t.value, InvalidNFTQuantity);
    var _ :- Need(cfg.flags.checkTransfer ==> v > 0, InvalidNFTQuantity);
    var (s1, sent) :- Debit(cfg, s, call.caller, token, nonce, v, InvalidNFTQuantity, call.ret);
    var _ :- Need(cfg.Here(dst) ==> call.payable, AccountNotPayable);
    var (s2, left) :- Hand(cfg, s1, call.caller, dst, token, nonce, sent, call.ret);
    var _ :- CheckLimited(cfg, s2, token, call.caller, dst, true, cfg.Here(dst), call.ret);
    var gas := call.gasProvided - cfg.costs.nftTransfer;
    var (s3, already) :- WasAlreadySent(cfg, s2, token, nonce, dst);
    var p :- if !already || left.value == 1 then Pack(cfg, s3, left, gas) else Ok(Payload(s3, [0], gas, 0));
    var args := call.args[..3] + [p.payload] + call.args[4..];
    Ok((p.state, Emit(cfg, call, dst, NFT_TRANSFER, args, MIN_ARGS_NFT_TRANSFER, p.gas)))
  }

  /** The token a multi-transfer message carries for an amount of an NFT. */
  function Unpack(cfg: Config, payload: bytes): Result<DCToken> {
    if |payload| > MAX_LENGTH_FOR_VALUE then
      match cfg.unmarshal(payload)
      case Some(t) => Ok(t)
      case None => Err(UnmarshalFailed)
    else Ok(NO_TOKEN.(kind := NON_FUNGIBLE, value := FromBytes(payload)))
  }

  /** The token a single-transfer message carries. */
  function UnpackSingle(cfg: Config, v: nat, payload: bytes): Result<DCToken> {
    if payload != [0] then
      match cfg.unmarshal(payload)
      case Some(t) => Ok(t)
      case None => Err(UnmarshalFailed)
    else Ok(NO_TOKEN.(kind := NON_FUNGIBLE, value := v))
  }

  /** One transfer as the destination understands it; a fungible amount travels as a bare value. */
  datatype Item = Item(token: bytes, nonce: nat, carried: DCToken)

  function ItemOf(cfg: Config, t: Triple): Result<Item> {
    if t.nonce > 0 then
      var carried :- Unpack(cfg, t.payload);
      Ok(Item(t.token, t.nonce, carried))
    else Ok(Item(t.token, 0, NO_TOKEN.(value := FromBytes(t.payload))))
  }

  function Credit(cfg: Config, s: ShardState, snd: Address, dst: Address, it: Item, ret: bool): Result<ShardState> {
    if it.nonce > 0 then
      var (s1, _) :- AddToDestination(cfg, s, snd, dst, it.carried, it.token, it.nonce, ret);
      Ok(s1)
    else AddToBalance(cfg, s, dst, it.token, it.carried.value, ret)
  }

  /** The destination loop: each transfer is read and credited in turn. */
  function DeliverAll(cfg: Config, s: ShardState, snd: Address, dst: Address, ts: seq<Triple>,
      ret: bool): Result<ShardState> {
    if ts == [] then Ok(s)
    else
      var s1 :- DeliverAll(cfg, s, snd, dst, ts[..|ts| - 1], ret);
      var it :- ItemOf(cfg, ts[|ts| - 1]);
      Credit(cfg, s1, snd, dst, it, ret)
  }

  /** The contract call that follows a delivery. */
  function CallAfterDelivery(call: Call, minArgs: nat): Output {
    if |call.args| > minArgs && IsSmartContract(call.recipient) then
      Output(0, Some(OutTransfer(call.caller, call.recipient, Print(call.args[minArgs], call.args[minArgs + 1..]),
        call.gasProvided)))
    else Output(call.gasProvided, None)
  }

  /** The destination half of dctNFTMultiTransfer.ProcessBuiltinFunction. */
  function MultiTransferOnDestination(cfg: Config, s: ShardState, call: Call): Result<(ShardState, Output)> {
    var _ :- CheckBasic(call);
    var _ :- Need(|call.args| >= 4, InvalidArguments);
    var n := ReadUint64(call.args[0]);
    var minArgs := MinArgs(n, 1);
    var _ :- Need(n > 0 && |call.args| >= minArgs, InvalidArguments);
    var _ :- Need(call.payable, AccountNotPayable);
    var ts :- ReadTriples(call.args, 1, n);
    var s1 :- DeliverAll(cfg, s, call.caller, call.recipient, ts, call.ret);
    Ok((s1, CallAfterDelivery(call, minArgs)))
  }

  /** The destination half of dctNFTTransfer.ProcessBuiltinFunction. */
  function NftTransferOnDestination(cfg: Config, s: ShardState, call: Call): Result<(ShardState, Output)> {
    var _ :- CheckBasic(call);
    var _ :- Need(|call.args| >= MIN_ARGS_NFT_TRANSFER, InvalidArguments);
    var token, nonce := call.args[0], ReadUint64(call.args[1]);
    var t :- UnpackSingle(cfg, FromBytes(call.args[2]), call.args[3]);
    var _ :- Need(call.payable, AccountNotPayable);
    var (s1, _) :- AddToDestination(cfg, s, call.caller, call.recipient, t, token, nonce, call.ret);
    Ok((s1, CallAfterDelivery(call, MIN_ARGS_NFT_TRANSFER)))
  }

  function SpendGas(here: bool, provided: nat, cost: nat): nat {
    if here && provided >= cost then provided - cost else 0
  }

  /** dctTransfer.ProcessBuiltinFunction: debits a sender in this shard, credits a destination in this shard. */
  function FungibleTransfer(cfg: Config, s: ShardState, call: Call, sndHere: bool, dstHere: bool): Result<(ShardState,
      Output)> {
    var _ :- CheckBasic(call);
    var snd, dst, token := call.caller, call.recipient, call.args[0];
    var v: int := FromBytes(call.args[1]);
    var _ :- Need(cfg.shardOf(dst) != METACHAIN || cfg.flags.transferToMeta, InvalidRcvAddr);
    var _ :- Need(v > 0, NegativeValue);
    var cost := cfg.costs.dctTransfer;
    var gas := SpendGas(sndHere, call.gasProvided, cost);
    var _ :- CheckLimited(cfg, s, token, snd, dst, sndHere, dstHere, call.ret);
    var _ :- Need(sndHere ==> call.gasProvided >= cost, NotEnoughGas);
    var s1 :- if sndHere then AddToBalance(cfg, s, snd, token, -v, call.ret) else Ok(s);
    if dstHere then
      var _ :- Need(call.payable, AccountNotPayable);
      var s2 :- AddToBalance(cfg, s1, dst, token, v, call.ret);
      if IsCallAfter(cfg, call, dst, MIN_ARGS_DCT_TRANSFER) then
        var left := SpendGas(true, call.gasProvided, cost);
        Ok((s2, Output(0, Some(OutTransfer(snd, dst, Print(call.args[2], call.args[3..]), left)))))
      else Ok((s2, Output(if call.callType == AsynchronousCallBack && !sndHere then call.gasProvided else gas, None)))
    else if IsSmartContract(snd) then
      Ok((s1, Output(0, Some(OutTransfer(snd, dst, Print(DCT_TRANSFER, call.args), gas)))))
    else Ok((s1, Output(gas, None)))
  }
}
