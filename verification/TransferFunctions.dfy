/** The transfer functions as they run: loops over the listed transfers that debit, credit, pack and charge. */
module TransferFunctions {
  import opened Bytes
  import opened Results
  import opened Wire
  import opened Tokens
  import opened Storage
  import opened Transfers
  import opened Ledger

  /** vmcommon.VMOutput */
  class VMOutput {
    var gasRemaining: nat
    var transfer: Option<OutTransfer>

    function Value(): Output
      reads this
    {
      Output(gasRemaining, transfer)
    }

    constructor (gas: nat)
      ensures Value() == Output(gas, None)
    {
      gasRemaining, transfer := gas, None;
    }

    /** addOutputTransferToVMOutput hands on all the gas that is left. */
    method AddOutputTransfer(sender: Address, function_: bytes, args: seq<bytes>, recipient: Address)
      modifies this
      ensures Value() == Output(0, Some(OutTransfer(sender, recipient, Print(function_, args), old(gasRemaining))))
    {
      var data := EncodeCall(function_, args);
      transfer := Some(OutTransfer(sender, recipient, data, gasRemaining));
      gasRemaining := 0;
    }

    /** addNFTTransferToVMOutput hands on a given amount. */
    method AddNFTTransfer(sender: Address, recipient: Address, function_: bytes, args: seq<bytes>, gasLimit: nat)
      modifies this
      ensures Value() == Output(old(gasRemaining),
        Some(OutTransfer(sender, recipient, Print(function_, args), gasLimit)))
    {
      var data := EncodeCall(function_, args);
      transfer := Some(OutTransfer(sender, recipient, data, gasLimit));
    }

    /** The gas of copied bytes. */
    method Charge(cost: nat) returns (r: Result<()>)
      modifies this`gasRemaining
      ensures r == Need(cost <= old(gasRemaining), NotEnoughGas)
      ensures gasRemaining == if r.Ok? then old(gasRemaining) - cost else old(gasRemaining)
    {
      if cost > gasRemaining {
        return Err(NotEnoughGas);
      }
      gasRemaining := gasRemaining - cost;
      r := Ok(());
    }

    /** The end of createNFTOutputTransfers and createDCTNFTOutputTransfers. */
    method Emit(cfg: Config, call: Call, dst: Address, function_: bytes, args: seq<bytes>, minArgs: nat)
      requires transfer == None
      modifies this
      ensures Value() == Transfers.Emit(cfg, call, dst, function_, args, minArgs, old(gasRemaining))
    {
      hide Print;
      var isCallAfter := IsCallAfter(cfg, call, dst, minArgs);
      if cfg.self != cfg.shardOf(dst) {
        var gasToTransfer := 0;
        if isCallAfter {
          gasToTransfer := gasRemaining;
          gasRemaining := 0;
        }
        AddNFTTransfer(call.caller, dst, function_, args, gasToTransfer);
        return;
      }
      if isCallAfter {
        var callArgs := [];
        if |call.args| > minArgs + 1 {
          callArgs := call.args[minArgs + 1..];
        }
        assert callArgs == call.args[minArgs + 1..];
        AddOutputTransfer(call.caller, call.args[minArgs], callArgs, dst);
      }
    }
  }

  class TransferFunction {
    const ledger: ShardLedger

    constructor (ledger: ShardLedger)
      ensures this.ledger == ledger
    {
      this.ledger := ledger;
    }

    /** addNFTToDestination; the token comes back with its value raised. */
    method AddNFTToDestination(snd: Address, dst: Address, transferred: DCToken, token: bytes, nonce: nat, ret: bool)
        returns (r: Result<DCToken>)
      modifies ledger
      ensures Ran(AddToDestination(ledger.cfg, old(ledger.State()), snd, dst, transferred, token, nonce, ret), r,
        ledger.State())
    {
      hide SaveToken, AddLiquidity, Read, CheckFrozeAndPause;
      var current, _ := ledger.GetOnDestination(dst, token, nonce);
      var checked := CheckFrozeAndPause(ledger.cfg, ledger.State(), dst, token, current, ret);
      if checked.Err? {
        return Err(checked.error);
      }
      var transferValue := transferred.value;
      var t := transferred.(value := transferred.value + current.value);
      var saved := ledger.SaveNFT(snd, dst, token, nonce, t, false, ret);
      if saved.Err? {
        return Err(saved.error);
      }
      if ledger.cfg.shardOf(snd) != ledger.cfg.shardOf(dst) {
        var counted := ledger.AddToLiquidity(token, nonce, transferValue);
        if counted.Err? {
          return Err(counted.error);
        }
      }
      r := Ok(t);
    }

    /** transferOneTokenOnSenderShard; the token's value is lowered, saved, and set to the amount. */
    method TransferOneToken(snd: Address, dst: Address, t: Triple, ret: bool) returns (r: Result<DCToken>)
      modifies ledger
      ensures Ran(TransferOne(ledger.cfg, old(ledger.State()), snd, dst, t, ret), r, ledger.State())
    {
      hide SaveToken, AddLiquidity, Read, AddToDestination, CheckLimited, FromBytes;
      var v := FromBytes(t.payload);
      if v <= 0 {
        return Err(InvalidNFTQuantity);
      }
      r := ledger.GetOnSender(snd, t.token, t.nonce);
      if r.Err? {
        return;
      }
      var data := r.value;
      if data.value < v {
        return Err(InsufficientQuantityDCT);
      }
      data := data.(value := data.value - v);
      var saved := ledger.SaveNFT(snd, snd, t.token, t.nonce, data, false, ret);
      if saved.Err? {
        return Err(saved.error);
      }
      data := data.(value := v);
      var here := ledger.cfg.self == ledger.cfg.shardOf(dst);
      var allowed := CheckLimited(ledger.cfg, ledger.State(), t.token, snd, dst, true, here, ret);
      if allowed.Err? {
        return Err(allowed.error);
      }
      if here {
        r := AddNFTToDestination(snd, dst, data, t.token, t.nonce, ret);
      } else {
        var counted := ledger.AddToLiquidity(t.token, t.nonce, -(v as int));
        r := if counted.Err? then Err(counted.error) else Ok(data);
      }
    }

    /** The loop of processDCTNFTMultiTransferOnSenderShard. */
    method TransferTokens(call: Call, dst: Address, n: nat) returns (r: Result<seq<DCToken>>)
      requires 2 + 3 * n <= |call.args|
      modifies ledger
      ensures Ran(TransferAll(ledger.cfg, old(ledger.State()), call.caller, dst, TriplesFrom(call.args, 2, n),
        call.ret), r, ledger.State())
    {
      hide TransferAll, TransferOne, TriplesFrom, TripleAt;
      ghost var cfg, s, ts := ledger.cfg, ledger.State(), TriplesFrom(call.args, 2, n);
      NothingTransferred(cfg, s, call.caller, dst, ts, call.ret);
      var sent := new DCToken[n];
      for i := 0 to n
        invariant TransferAll(cfg, s, call.caller, dst, ts[..i], call.ret) == Ok((ledger.State(), sent[..i]))
      {
        TransferStep(cfg, s, ledger.State(), sent[..i], call, dst, n, i);
        var transferred := TransferOneToken(call.caller, dst, TripleAt(call.args, 2 + i * ARGS_PER_TRANSFER), call.ret);
        if transferred.Err? {
          return Err(transferred.error);
        }
        sent[i] := transferred.value;
        assert sent[..i + 1] == sent[..i] + [transferred.value];
      }
      WholeList(ts, n);
      assert sent[..n] == sent[..];
      r := Ok(sent[..]);
    }

    /** The payload of one transfer, in one of its two forms. */
    method PayloadFor(out: VMOutput, dst: Address, t: Triple, sent: DCToken) returns (r: Result<bytes>)
      modifies ledger, out
      ensures match PayloadOf(ledger.cfg, old(ledger.State()), dst, t, sent, old(out.gasRemaining))
        case Ok(p) => r == Ok(p.payload) && ledger.State() == p.state && out.gasRemaining == p.gas
        case Err(error) => r == Err(error)
      ensures out.transfer == old(out.transfer)
    {
      hide WasAlreadySent, FromBytes, ToBytes;
      var cfg := ledger.cfg;
      var v := FromBytes(t.payload);
      if t.nonce > 0 {
        var wasSent := ledger.WasSent(t.token, t.nonce, dst);
        if wasSent.Err? {
          return Err(wasSent.error);
        }
        var asMarshalledData := !wasSent.value || v == 1 || |ToBytes(v)| > MAX_LENGTH_FOR_VALUE;
        if asMarshalledData {
          var marshalled := cfg.marshal(sent);
          var charged := out.Charge(Times(|marshalled|, cfg.costs.dataCopyPerByte));
          return if charged.Err? then Err(charged.error) else Ok(marshalled);
        }
      }
      r := Ok(ToBytes(v));
    }

    /** The loop of createDCTNFTOutputTransfers. */
    method PackTransfers(out: VMOutput, dst: Address, ts: seq<Triple>, sent: seq<DCToken>)
        returns (r: Result<seq<bytes>>)
      requires |sent| == |ts|
      modifies ledger, out
      ensures match PackAll(ledger.cfg, old(ledger.State()), dst, ts, sent, old(out.gasRemaining))
        case Ok(m) => r == Ok(m.args) && ledger.State() == m.state && out.gasRemaining == m.gas
        case Err(error) => r == Err(error)
      ensures out.transfer == old(out.transfer)
    {
      hide PackAll, PayloadOf, NonceArg;
      ghost var cfg, s, gas := ledger.cfg, ledger.State(), out.gasRemaining;
      ghost var copied: nat := 0;
      NothingPacked(cfg, s, dst, ts, sent, gas);
      var args := [];
      for i := 0 to |ts|
        invariant PackAll(cfg, s, dst, ts[..i], sent[..i], gas)
          == Ok(Message(ledger.State(), args, out.gasRemaining, copied))
        invariant out.transfer == old(out.transfer)
      {
        PackStep(cfg, s, dst, ts, sent, gas, i);
        ghost var before, gasBefore := ledger.State(), out.gasRemaining;
        ghost var packed := args;
        args := args + [ts[i].token];
        args := args + [NonceArg(ts[i].nonce)];
        var payload := PayloadFor(out, dst, ts[i], sent[i]);
        if payload.Err? {
          return Err(payload.error);
        }
        args := args + [payload.value];
        assert args == packed + [ts[i].token, NonceArg(ts[i].nonce), payload.value];
        copied := copied + PayloadOf(cfg, before, dst, ts[i], sent[i], gasBefore).value.copied;
      }
      assert ts[..|ts|] == ts && sent[..|ts|] == sent;
      r := Ok(args);
    }

    /** processDCTNFTMultiTransferOnSenderShard */
    method ProcessMultiOnSender(call: Call) returns (r: Result<Output>)
      modifies ledger
      ensures Ran(MultiTransferOnSender(ledger.cfg, old(ledger.State()), call), r, ledger.State())
    {
      hide CheckBasic, CheckDestination, TransferAll, PackAll, Transfers.Emit, ReadUint64, TriplesFrom, ToBytes;
      var cfg := ledger.cfg;
      var basic := CheckBasic(call);
      if basic.Err? {
        return Err(basic.error);
      }
      if |call.args| < 4 {
        return Err(InvalidArguments);
      }
      var dst := call.args[0];
      var destination := CheckDestination(cfg, call, dst);
      if destination.Err? {
        return Err(destination.error);
      }
      var n := ReadUint64(call.args[1]);
      var minArgs := (n * ARGS_PER_TRANSFER + 2) % U64;
      if n == 0 || |call.args| < minArgs {
        return Err(InvalidArguments);
      }
      var cost := Times(n, cfg.costs.multiTransfer);
      if call.gasProvided < cost {
        return Err(NotEnoughGas);
      }
      if cfg.self == cfg.shardOf(dst) && !call.payable {
        return Err(AccountNotPayable);
      }
      if 2 + 3 * n > |call.args| {
        return Err(IndexOutOfRange);
      }
      var sent := TransferTokens(call, dst, n);
      if sent.Err? {
        return Err(sent.error);
      }
      var out := new VMOutput(call.gasProvided - cost);
      ghost var s1 := ledger.State();
      var packed := PackTransfers(out, dst, TriplesFrom(call.args, 2, n), sent.value);
      if packed.Err? {
        return Err(packed.error);
      }
      var args := [ToBytes(n)] + packed.value;
      args := args + call.args[minArgs..];
      out.Emit(cfg, call, dst, MULTI_TRANSFER, args, minArgs);
      r := Ok(out.Value());
    }

    /** The loop of dctNFTMultiTransfer.ProcessBuiltinFunction at the destination. */
    method CreditTransfers(call: Call, n: nat) returns (r: Result<()>)
      requires 1 + 3 * n <= |call.args|
      modifies ledger
      ensures Done(DeliverAll(ledger.cfg, old(ledger.State()), call.caller, call.recipient,
        TriplesFrom(call.args, 1, n), call.ret), r, ledger.State())
    {
      hide DeliverAll, TriplesFrom, AddToDestination, AddToBalance, ReadUint64, FromBytes;
      ghost var cfg, s, ts := ledger.cfg, ledger.State(), TriplesFrom(call.args, 1, n);
      NothingDelivered(cfg, s, call.caller, call.recipient, ts, call.ret);
      for i := 0 to n
        invariant DeliverAll(cfg, s, call.caller, call.recipient, ts[..i], call.ret) == Ok(ledger.State())
      {
        DeliverStep(cfg, s, ledger.State(), call, n, i);
        var tokenStart := 1 + i * ARGS_PER_TRANSFER;
        var token, nonce, payload := call.args[tokenStart], ReadUint64(call.args[tokenStart + 1]),
          call.args[tokenStart + 2];
        if nonce > 0 {
          var carried := NO_TOKEN;
          if |payload| > MAX_LENGTH_FOR_VALUE {
            var unmarshalled := ledger.cfg.unmarshal(payload);
            if unmarshalled.None? {
              return Err(UnmarshalFailed);
            }
            carried := unmarshalled.value;
          } else {
            carried := carried.(value := FromBytes(payload), kind := NON_FUNGIBLE);
          }
          var added := AddNFTToDestination(call.caller, call.recipient, carried, token, nonce, call.ret);
          if added.Err? {
            return Err(added.error);
          }
        } else {
          var credited := ledger.AddToDCTBalance(call.recipient, token, FromBytes(payload), call.ret);
          if credited.Err? {
            return credited;
          }
        }
      }
      WholeList(ts, n);
      r := Ok(());
    }

    /** The contract call that the rest of the arguments ask for. */
    method CallContract(call: Call, minArgs: nat) returns (out: Output)
      ensures out == CallAfterDelivery(call, minArgs)
    {
      hide Print;
      var vmOutput := new VMOutput(call.gasProvided);
      if |call.args| > minArgs && IsSmartContract(call.recipient) {
        var callArgs := [];
        if |call.args| > minArgs + 1 {
          callArgs := call.args[minArgs + 1..];
        }
        assert callArgs == call.args[minArgs + 1..];
        vmOutput.AddOutputTransfer(call.caller, call.args[minArgs], callArgs, call.recipient);
      }
      out := vmOutput.Value();
    }

    method ProcessMultiOnDestination(call: Call) returns (r: Result<Output>)
      modifies ledger
      ensures Ran(MultiTransferOnDestination(ledger.cfg, old(ledger.State()), call), r, ledger.State())
    {
      hide CheckBasic, DeliverAll, CallAfterDelivery, ReadUint64, TriplesFrom;
      var basic := CheckBasic(call);
      if basic.Err? {
        return Err(basic.error);
      }
      if |call.args| < 4 {
        return Err(InvalidArguments);
      }
      var n := ReadUint64(call.args[0]);
      var minArgs := (n * ARGS_PER_TRANSFER + 1) % U64;
      if n == 0 || |call.args| < minArgs {
        return Err(InvalidArguments);
      }
      if !call.payable {
        return Err(AccountNotPayable);
      }
      if 1 + 3 * n > |call.args| {
        return Err(IndexOutOfRange);
      }
      var credited := CreditTransfers(call, n);
      if credited.Err? {
        return Err(credited.error);
      }
      var out := CallContract(call, minArgs);
      r := Ok(out);
    }

    /** createNFTOutputTransfers, up to the emitted transfer. */
    method PackNFT(out: VMOutput, token: bytes, nonce: nat, dst: Address, t: DCToken) returns (r: Result<bytes>)
      modifies ledger, out
      ensures out.transfer == old(out.transfer)
      ensures match WasAlreadySent(ledger.cfg, old(ledger.State()), token, nonce, dst)
        case Err(error) => r == Err(error)
        case Ok((s, already)) =>
          if already && t.value != 1 then r == Ok([0]) && ledger.State() == s &&
            out.gasRemaining == old(out.gasRemaining)
          else match Pack(ledger.cfg, s, t, old(out.gasRemaining))
            case Ok(p) => r == Ok(p.payload) && ledger.State() == p.state && out.gasRemaining == p.gas
            case Err(error) => r == Err(error)
    {
      hide WasAlreadySent;
      var wasSent := ledger.WasSent(token, nonce, dst);
      if wasSent.Err? {
        return Err(wasSent.error);
      }
      if !wasSent.value || t.value == 1 {
        var marshalled := ledger.cfg.marshal(t);
        var charged := out.Charge(Times(|marshalled|, ledger.cfg.costs.dataCopyPerByte));
        return if charged.Err? then Err(charged.error) else Ok(marshalled);
      }
      r := Ok([0]);
    }

    /** The debit of processNFTTransferOnSenderShard; the token comes back carrying the amount. */
    method DebitNFT(snd: Address, token: bytes, nonce: nat, v: nat, ret: bool) returns (r: Result<DCToken>)
      requires ReadOnSender(ledger.cfg, ledger.State(), snd, token, nonce).Ok?
      requires v <= ReadOnSender(ledger.cfg, ledger.State(), snd, token, nonce).value.value
      modifies ledger
      ensures Ran(Debit(ledger.cfg, old(ledger.State()), snd, token, nonce, v, InvalidNFTQuantity, ret), r,
        ledger.State())
    {
      hide SaveToken, Read;
      r := ledger.GetOnSender(snd, token, nonce);
      var data := r.value;
      data := data.(value := data.value - v);
      var saved := ledger.SaveNFT(snd, snd, token, nonce, data, false, ret);
      r := if saved.Err? then Err(saved.error) else Ok(data.(value := v));
    }

    /** The credit of the same shard, or the debit of its liquidity. */
    method HandNFT(snd: Address, dst: Address, token: bytes, nonce: nat, t: DCToken, ret: bool)
        returns (r: Result<DCToken>)
      modifies ledger
      ensures Ran(Hand(ledger.cfg, old(ledger.State()), snd, dst, token, nonce, t, ret), r, ledger.State())
    {
      hide AddToDestination, AddLiquidity;
      if ledger.cfg.self == ledger.cfg.shardOf(dst) {
        r := AddNFTToDestination(snd, dst, t, token, nonce, ret);
      } else {
        var counted := ledger.AddToLiquidity(token, nonce, -t.value);
        r := if counted.Err? then Err(counted.error) else Ok(t);
      }
    }

    /** processNFTTransferOnSenderShard */
    method ProcessNftOnSender(call: Call) returns (r: Result<Output>)
      modifies ledger
      ensures Ran(NftTransferOnSender(ledger.cfg, old(ledger.State()), call), r, ledger.State())
    {
      hide CheckBasic, CheckDestination, Debit, Hand, CheckLimited, WasAlreadySent, Pack, Transfers.Emit, ReadUint64,
          FromBytes, Read;
      var cfg := ledger.cfg;
      var basic := CheckBasic(call);
      if basic.Err? {
        return Err(basic.error);
      }
      if |call.args| < MIN_ARGS_NFT_TRANSFER {
        return Err(InvalidArguments);
      }
      var token, nonce, v, dst := call.args[0], ReadUint64(call.args[1]), FromBytes(call.args[2]), call.args[3];
      var destination := CheckDestination(cfg, call, dst);
      if destination.Err? {
        return Err(destination.error);
      }
      if call.gasProvided < cfg.costs.nftTransfer {
        return Err(NotEnoughGas);
      }
      var held := ledger.GetOnSender(call.caller, token, nonce);
      if held.Err? {
        return Err(held.error);
      }
      if nonce == 0 {
        return Err(NFTDoesNotHaveMetadata);
      }
      if held.value.value < v || (cfg.flags.checkTransfer && v == 0) {
        return Err(InvalidNFTQuantity);
      }
      var debited := DebitNFT(call.caller, token, nonce, v, call.ret);
      if debited.Err? {
        return Err(debited.error);
      }
      var here := cfg.self == cfg.shardOf(dst);
      if here && !call.payable {
        return Err(AccountNotPayable);
      }
      var handed := HandNFT(call.caller, dst, token, nonce, debited.value, call.ret);
      if handed.Err? {
        return Err(handed.error);
      }
      var allowed := CheckLimited(cfg, ledger.State(), token, call.caller, dst, true, here, call.ret);
      if allowed.Err? {
        return Err(allowed.error);
      }
      var out := new VMOutput(call.gasProvided - cfg.costs.nftTransfer);
      var payload := PackNFT(out, token, nonce, dst, handed.value);
      if payload.Err? {
        return Err(payload.error);
      }
      var args := call.args[..3];
      args := args + [payload.value];
      args := args + call.args[4..];
      out.Emit(cfg, call, dst, NFT_TRANSFER, args, MIN_ARGS_NFT_TRANSFER);
      r := Ok(out.Value());
    }

    /** dctNFTTransfer.ProcessBuiltinFunction at the destination */
    method ProcessNftOnDestination(call: Call) returns (r: Result<Output>)
      modifies ledger
      ensures Ran(NftTransferOnDestination(ledger.cfg, old(ledger.State()), call), r, ledger.State())
    {
      hide CheckBasic, AddToDestination, CallAfterDelivery, ReadUint64, FromBytes;
      var basic := CheckBasic(call);
      if basic.Err? {
        return Err(basic.error);
      }
      if |call.args| < MIN_ARGS_NFT_TRANSFER {
        return Err(InvalidArguments);
      }
      var token, nonce, v := call.args[0], ReadUint64(call.args[1]), FromBytes(call.args[2]);
      var carried := NO_TOKEN;
      if call.args[3] != [0] {
        var unmarshalled := ledger.cfg.unmarshal(call.args[3]);
        if unmarshalled.None? {
          return Err(UnmarshalFailed);
        }
        carried := unmarshalled.value;
      } else {
        carried := carried.(value := v, kind := NON_FUNGIBLE);
      }
      if !call.payable {
        return Err(AccountNotPayable);
      }
      var added := AddNFTToDestination(call.caller, call.recipient, carried, token, nonce, call.ret);
      if added.Err? {
        return Err(added.error);
      }
      var out := CallContract(call, MIN_ARGS_NFT_TRANSFER);
      r := Ok(out);
    }

    /** dctTransfer.ProcessBuiltinFunction */
    method ProcessFungible(call: Call, sndHere: bool, dstHere: bool) returns (r: Result<Output>)
      modifies ledger
      ensures Ran(FungibleTransfer(ledger.cfg, old(ledger.State()), call, sndHere, dstHere), r, ledger.State())
    {
      hide CheckBasic, CheckLimited, AddToBalance, Print, FromBytes, IsCallAfter;
      var cfg := ledger.cfg;
      var basic := CheckBasic(call);
      if basic.Err? {
        return Err(basic.error);
      }
      BasicHasTwo(call);
      if cfg.shardOf(call.recipient) == METACHAIN && !cfg.flags.transferToMeta {
        return Err(InvalidRcvAddr);
      }
      var token, v := call.args[0], FromBytes(call.args[1]) as int;
      if v <= 0 {
        return Err(NegativeValue);
      }
      var cost := cfg.costs.dctTransfer;
      var allowed := CheckLimited(cfg, ledger.State(), token, call.caller, call.recipient, sndHere, dstHere, call.ret);
      if allowed.Err? {
        return Err(allowed.error);
      }
      if sndHere {
        if call.gasProvided < cost {
          return Err(NotEnoughGas);
        }
        var debited := ledger.AddToDCTBalance(call.caller, token, -v, call.ret);
        if debited.Err? {
          return Err(debited.error);
        }
      }
      var out := new VMOutput(SpendGas(sndHere, call.gasProvided, cost));
      if dstHere {
        if !call.payable {
          return Err(AccountNotPayable);
        }
        var credited := ledger.AddToDCTBalance(call.recipient, token, v, call.ret);
        if credited.Err? {
          return Err(credited.error);
        }
        if IsCallAfter(cfg, call, call.recipient, MIN_ARGS_DCT_TRANSFER) {
          CallAfterHasFunction(cfg, call, call.recipient);
          out.gasRemaining := SpendGas(true, call.gasProvided, cost);
          var callArgs := [];
          if |call.args| > MIN_ARGS_DCT_TRANSFER + 1 {
            callArgs := call.args[MIN_ARGS_DCT_TRANSFER + 1..];
          }
          assert callArgs == call.args[MIN_ARGS_DCT_TRANSFER + 1..];
          out.AddOutputTransfer(call.caller, call.args[MIN_ARGS_DCT_TRANSFER], callArgs, call.recipient);
        } else if call.callType == AsynchronousCallBack && !sndHere {
          out.gasRemaining := call.gasProvided;
        }
      } else if IsSmartContract(call.caller) {
        out.AddOutputTransfer(call.caller, DCT_TRANSFER, call.args, call.recipient);
      }
      r := Ok(out.Value());
    }
  }

  lemma BasicHasTwo(call: Call)
    requires CheckBasic(call).Ok?
    ensures |call.args| >= 2
  {
  }

  lemma CallAfterHasFunction(cfg: Config, call: Call, dst: Address)
    requires IsCallAfter(cfg, call, dst, MIN_ARGS_DCT_TRANSFER)
    ensures |call.args| > MIN_ARGS_DCT_TRANSFER
  {
  }

  lemma NothingDelivered(cfg: Config, s: ShardState, snd: Address, dst: Address, ts: seq<Triple>, ret: bool)
    ensures DeliverAll(cfg, s, snd, dst, ts[..0], ret) == Ok(s)
  {
  }

  /** One delivered transfer; an error is the error of the whole list. */
  lemma DeliverStep(cfg: Config, s: ShardState, s1: ShardState, call: Call, n: nat, i: nat)
    requires i < n && 1 + 3 * n <= |call.args|
    requires DeliverAll(cfg, s, call.caller, call.recipient, TriplesFrom(call.args, 1, n)[..i], call.ret) == Ok(s1)
    ensures var ts := TriplesFrom(call.args, 1, n);
            var t := Triple(call.args[1 + i * 3], ReadUint64(call.args[2 + i * 3]), call.args[3 + i * 3]);
            var step := match ItemOf(cfg, t) case Ok(it) => Credit(cfg, s1, call.caller, call.recipient, it,
              call.ret) case Err(error) => Err(error);
            match step
            case Ok(s2) => DeliverAll(cfg, s, call.caller, call.recipient, ts[..i + 1], call.ret) == Ok(s2)
            case Err(error) => DeliverAll(cfg, s, call.caller, call.recipient, ts, call.ret) == Err(error)
  {
    hide ItemOf, Credit, ReadUint64;
    var ts := TriplesFrom(call.args, 1, n);
    assert ts[..i + 1][..i] == ts[..i];
    assert ts[i] == TripleAt(call.args, 1 + 3 * i);
    DeliverErrorsStay(cfg, s, call.caller, call.recipient, ts, call.ret, i + 1);
  }

  lemma {:induction false} DeliverErrorsStay(cfg: Config, s: ShardState, snd: Address, dst: Address, ts: seq<Triple>,
      ret: bool, i: nat)
    requires i <= |ts|
    ensures DeliverAll(cfg, s, snd, dst, ts[..i], ret).Err? ==>
      DeliverAll(cfg, s, snd, dst, ts, ret) == DeliverAll(cfg, s, snd, dst, ts[..i], ret)
  {
    hide ItemOf, Credit;
    if i == |ts| {
      assert ts[..i] == ts;
    } else {
      assert ts[..|ts| - 1][..i] == ts[..i];
      DeliverErrorsStay(cfg, s, snd, dst, ts[..|ts| - 1], ret, i);
    }
  }

  lemma NothingTransferred(cfg: Config, s: ShardState, snd: Address, dst: Address, ts: seq<Triple>, ret: bool)
    ensures TransferAll(cfg, s, snd, dst, ts[..0], ret) == Ok((s, []))
  {
  }

  /** One transfer of a list; an error is the error of the whole list. */
  lemma TransferStep(cfg: Config, s: ShardState, s1: ShardState, sent: seq<DCToken>, call: Call, dst: Address, n: nat,
      i: nat)
    requires i < n && 2 + 3 * n <= |call.args|
    requires TransferAll(cfg, s, call.caller, dst, TriplesFrom(call.args, 2, n)[..i], call.ret) == Ok((s1, sent))
    ensures var ts := TriplesFrom(call.args, 2, n);
            match TransferOne(cfg, s1, call.caller, dst, TripleAt(call.args, 2 + i * 3), call.ret)
            case Ok((s2, t)) => TransferAll(cfg, s, call.caller, dst, ts[..i + 1], call.ret) == Ok((s2, sent + [t]))
            case Err(error) => TransferAll(cfg, s, call.caller, dst, ts, call.ret) == Err(error)
  {
    hide TransferOne, TripleAt;
    var ts := TriplesFrom(call.args, 2, n);
    assert ts[..i + 1][..i] == ts[..i];
    assert ts[i] == TripleAt(call.args, 2 + 3 * i);
    TransferErrorsStay(cfg, s, call.caller, dst, ts, call.ret, i + 1);
  }

  lemma {:induction false} TransferErrorsStay(cfg: Config, s: ShardState, snd: Address, dst: Address, ts: seq<Triple>,
      ret: bool, i: nat)
    requires i <= |ts|
    ensures TransferAll(cfg, s, snd, dst, ts[..i], ret).Err? ==>
      TransferAll(cfg, s, snd, dst, ts, ret) == TransferAll(cfg, s, snd, dst, ts[..i], ret)
  {
    hide TransferOne;
    if i == |ts| {
      assert ts[..i] == ts;
    } else {
      assert ts[..|ts| - 1][..i] == ts[..i];
      TransferErrorsStay(cfg, s, snd, dst, ts[..|ts| - 1], ret, i);
    }
  }

  lemma NothingPacked(cfg: Config, s: ShardState, dst: Address, ts: seq<Triple>, sent: seq<DCToken>, gas: nat)
    requires |sent| == |ts|
    ensures PackAll(cfg, s, dst, ts[..0], sent[..0], gas) == Ok(Message(s, [], gas, 0))
  {
  }

  lemma PackStep(cfg: Config, s: ShardState, dst: Address, ts: seq<Triple>, sent: seq<DCToken>, gas: nat, i: nat)
    requires |sent| == |ts| && i < |ts| && PackAll(cfg, s, dst, ts[..i], sent[..i], gas).Ok?
    ensures var m := PackAll(cfg, s, dst, ts[..i], sent[..i], gas).value;
            match PayloadOf(cfg, m.state, dst, ts[i], sent[i], m.gas)
            case Ok(p) =>
              PackAll(cfg, s, dst, ts[..i + 1], sent[..i + 1], gas)
              == Ok(Message(p.state, m.args + [ts[i].token, NonceArg(ts[i].nonce), p.payload], p.gas,
                m.copied + p.copied))
            case Err(error) => PackAll(cfg, s, dst, ts, sent, gas) == Err(error)
  {
    hide PayloadOf, NonceArg;
    assert ts[..i + 1][..i] == ts[..i] && sent[..i + 1][..i] == sent[..i];
    PackErrorsStay(cfg, s, dst, ts, sent, gas, i + 1);
  }

  lemma {:induction false} PackErrorsStay(cfg: Config, s: ShardState, dst: Address, ts: seq<Triple>, sent: seq<DCToken>,
      gas: nat, i: nat)
    requires |sent| == |ts| && i <= |ts|
    ensures PackAll(cfg, s, dst, ts[..i], sent[..i], gas).Err? ==>
      PackAll(cfg, s, dst, ts, sent, gas) == PackAll(cfg, s, dst, ts[..i], sent[..i], gas)
  {
    hide PayloadOf, NonceArg;
    if i == |ts| {
      assert ts[..i] == ts && sent[..i] == sent;
    } else {
      assert ts[..|ts| - 1][..i] == ts[..i] && sent[..|ts| - 1][..i] == sent[..i];
      PackErrorsStay(cfg, s, dst, ts[..|ts| - 1], sent[..|ts| - 1], gas, i);
    }
  }
}
