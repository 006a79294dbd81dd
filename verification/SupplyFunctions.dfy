/** The functions that create, add, burn, freeze, wipe and hand on, as they run. */
module SupplyFunctions {
  import opened Bytes
  import opened Results
  import opened Wire
  import opened Keys
  import opened Tokens
  import opened Storage
  import opened Transfers
  import opened Supply
  import opened Roles
  import opened Handoff
  import opened GlobalSettings
  import opened Ledger

  class SupplyFunction {
    const ledger: ShardLedger

    constructor (ledger: ShardLedger)
      ensures this.ledger == ledger
    {
      this.ledger := ledger;
    }

    /** The lengths of all arguments, which storing costs. */
    method SumLengths(args: seq<bytes>) returns (total: nat)
      ensures total == TotalLength(args)
    {
      total := 0;
      var i := 0;
      while i < |args|
        invariant i <= |args| && total + TotalLength(args[i..]) == TotalLength(args)
      {
        assert args[i..][1..] == args[i + 1..];
        total := total + |args[i]|;
        i := i + 1;
      }
    }

    /** The checks of dctNFTCreate.ProcessBuiltinFunction, and the token they lead to. */
    method CheckCreate(call: Call) returns (r: Result<Creation>)
      ensures r == PlanCreate(ledger.cfg, ledger.State(), call)
    {
      hide CheckOwnCall, CheckAllowed, TotalLength, ReadUint64, FromBytes, LatestNonce;
      var cfg, s := ledger.cfg, ledger.State();
      var _ :- CheckOwnCall(call, cfg.costs.nftCreate);
      var creating :- Creator(call);
      var (creator, uris) := creating;
      var args, token := call.args, call.args[0];
      var _ :- CheckAllowed(s, creator, token, ROLE_NFT_CREATE);
      var length := SumLengths(args);
      if call.gasProvided < (length * cfg.costs.storePerByte + cfg.costs.nftCreate) % U64 {
        return Err(NotEnoughGas);
      }
      var royalties, quantity := ReadUint64(args[3]) % U32, FromBytes(args[1]);
      if royalties > MAX_ROYALTY || quantity <= 0 {
        return Err(InvalidArguments);
      }
      if quantity > 1 {
        var _ :- CheckAllowed(s, creator, token, ROLE_NFT_ADD_QUANTITY);
      }
      if cfg.flags.valueLength && |args[1]| > MAX_QUANTITY_LENGTH {
        return Err(InvalidArguments);
      }
      var nextNonce := (LatestNonce(s, creator, token) + 1) % U64;
      var metadata := MetaData(nextNonce, args[2], call.caller, royalties, args[4], uris, args[5]);
      r := Ok(Creation(creator, token, nextNonce, quantity, DCToken(NON_FUNGIBLE, quantity, [], Some(metadata), [])));
    }

    /** dctNFTCreate.ProcessBuiltinFunction */
    method CreateNFT(call: Call) returns (r: Result<()>)
      modifies ledger
      ensures Done(Create(ledger.cfg, old(ledger.State()), call), r, ledger.State())
    {
      hide PlanCreate, SaveToken, AddLiquidity;
      var c :- CheckCreate(call);
      var _ :- ledger.SaveNFT(c.creator, c.creator, c.token, c.nonce, c.created, true, call.ret);
      r := ledger.AddToLiquidity(c.token, c.nonce, c.quantity);
      if r.Ok? {
        ledger.SaveLatestNonce(c.creator, c.token, c.nonce);
      }
    }

    /** dctNFTAddQuantity.ProcessBuiltinFunction */
    method AddNFTQuantity(call: Call) returns (r: Result<()>)
      modifies ledger
      ensures Done(AddQuantity(ledger.cfg, old(ledger.State()), call), r, ledger.State())
    {
      hide CheckOwnCall, CheckAllowed, SaveToken, AddLiquidity, ReadUint64, FromBytes, Read;
      var cfg, a := ledger.cfg, call.caller;
      var _ :- CheckOwnCall(call, cfg.costs.addQuantity);
      var _ :- Need(|call.args| >= 3, InvalidArguments);
      var token, nonce, v := call.args[0], ReadUint64(call.args[1]), FromBytes(call.args[2]);
      var _ :- CheckAllowed(ledger.State(), a, token, ROLE_NFT_ADD_QUANTITY);
      var data :- ledger.GetOnSender(a, token, nonce);
      var _ :- Need(nonce != 0, NFTDoesNotHaveMetadata);
      if cfg.flags.valueLength && |call.args[2]| > MAX_QUANTITY_LENGTH {
        return Err(InvalidArguments);
      }
      data := data.(value := data.value + v);
      var _ :- ledger.SaveNFT(a, a, token, nonce, data, false, call.ret);
      r := ledger.AddToLiquidity(token, nonce, v);
    }

    /** dctNFTBurn.ProcessBuiltinFunction */
    method BurnNFT(call: Call) returns (r: Result<()>)
      modifies ledger
      ensures Done(Burn(ledger.cfg, old(ledger.State()), call), r, ledger.State())
    {
      hide CheckOwnCall, CheckBurn, SaveToken, AddLiquidity, ReadUint64, FromBytes, Read;
      var cfg, a := ledger.cfg, call.caller;
      var _ :- CheckOwnCall(call, cfg.costs.burn);
      var _ :- Need(|call.args| >= 3, InvalidArguments);
      var token, nonce, v := call.args[0], ReadUint64(call.args[1]), FromBytes(call.args[2]);
      var _ :- CheckBurn(ledger.State(), a, token, ROLE_NFT_BURN);
      var data :- ledger.GetOnSender(a, token, nonce);
      var _ :- Need(nonce != 0, NFTDoesNotHaveMetadata);
      var _ :- Need(data.value >= v, InvalidNFTQuantity);
      data := data.(value := data.value - v);
      var _ :- ledger.SaveNFT(a, a, token, nonce, data, false, call.ret);
      r := ledger.AddToLiquidity(token, nonce, -(v as int));
    }

    /** toggleFreeze */
    method SetFreeze(call: Call, freeze: bool) returns (r: Result<()>)
      modifies ledger
      ensures Done(ToggleFreeze(ledger.cfg, old(ledger.State()), call, freeze), r, ledger.State())
    {
      hide CheckSystemCall;
      var _ :- CheckSystemCall(ledger.cfg, call);
      OneArgument(ledger.cfg, call);
      var e := ledger.Retrieve(call.recipient, call.args[0]);
      var data := if e.Some? then e.value else NO_TOKEN;
      ledger.SaveDCTData(call.recipient, call.args[0], data.(properties := FreezeBytes(freeze)));
      r := Ok(());
    }

    /** wipeIfApplicable with removeLiquidity */
    method WipeEntry(call: Call) returns (r: Result<()>)
      modifies ledger
      ensures Done(Wipe(ledger.cfg, old(ledger.State()), call), r, ledger.State())
    {
      hide CheckSystemCall, AddLiquidity, ExtractTokenAndNonce, IsFrozen;
      var _ :- CheckSystemCall(ledger.cfg, call);
      OneArgument(ledger.cfg, call);
      var (token, nonce) := ExtractTokenAndNonce(call.args[0]);
      var e := ledger.Retrieve(call.recipient, call.args[0]);
      var data := if e.Some? then e.value else NO_TOKEN;
      var _ :- Need(IsFrozen(data.properties), CannotWipeAccountNotFrozen);
      ledger.SaveEntry(call.recipient, call.args[0], None);
      if !ledger.cfg.flags.wipeLiquidity {
        return Ok(());
      }
      r := ledger.AddToLiquidity(token, nonce, -data.value);
    }

    /** dctRoles.ProcessBuiltinFunction */
    method ChangeRoles(call: Call, set_: bool) returns (r: Result<()>)
      modifies ledger
      ensures Done(SetRoles(ledger.cfg, old(ledger.State()), call, set_), r, ledger.State())
    {
      hide CheckBasic, DeleteRoles, RolesOf;
      var _ :- CheckBasic(call);
      HasArgument(call);
      var _ :- Need(call.caller == ledger.cfg.systemContract, AddressIsNotDCTSystemSC);
      var a, token, named := call.recipient, call.args[0], call.args[1..];
      var roles := new RoleList(RolesOf(ledger.State(), a, token));
      if set_ {
        roles.roles := roles.roles + named;
      } else {
        roles.Delete(named);
      }
      var i := 0;
      while i < |named| && named[i] != ROLE_NFT_CREATE_MULTI_SHARD
        invariant i <= |named| && ROLE_NFT_CREATE_MULTI_SHARD !in named[..i]
      {
        i := i + 1;
      }
      assert named[..|named|] == named;
      if i < |named| {
        if a == [] {
          return Err(IndexOutOfRange);
        }
        ledger.SaveLatestNonce(a, token, StartNonce(a));
      }
      ledger.SaveRoles(a, token, roles.roles);
      r := Ok(());
    }

    /** dctTransferAddress.ProcessBuiltinFunction */
    method ChangeAddresses(call: Call, set_: bool, max: nat) returns (r: Result<()>)
      modifies ledger
      ensures Done(SetAddresses(ledger.cfg, old(ledger.State()), call, set_, max), r, ledger.State())
    {
      hide CheckBasic, DeleteRoles, AddAll, IsSystemAccount;
      var _ :- CheckBasic(call);
      HasArgument(call);
      var _ :- Need(call.caller == ledger.cfg.systemContract, AddressIsNotDCTSystemSC);
      var _ :- Need(IsSystemAccount(call.recipient), OnlySystemAccountAccepted);
      var token := call.args[0];
      var addresses := new RoleList(if token in ledger.transferAddresses then ledger.transferAddresses[token] else []);
      if set_ {
        var _ :- addresses.AddNew(call.args[1..], max);
      } else {
        addresses.Delete(call.args[1..]);
      }
      ledger.transferAddresses := ledger.transferAddresses[token := addresses.roles];
      r := Ok(());
    }

    /** dctGlobalSettings.ProcessBuiltinFunction with toggleSetting */
    method ChangeSetting(call: Call, which: Setting, on: bool) returns (r: Result<()>)
      modifies ledger
      ensures Done(ToggleSetting(ledger.cfg, old(ledger.State()), call, which, on), r, ledger.State())
      ensures r.Ok? <==> Accepted(ledger.cfg, call)
      ensures r.Ok? ==> Sets(old(ledger.State()), ledger.State(), call.args[0], which, on)
    {
      hide CheckSystemCall, IsSystemAccount, Sets, SettingsBytes, SettingsFromBytes;
      ToggleSetsOne(ledger.cfg, ledger.State(), call, which, on);
      var _ :- CheckSystemCall(ledger.cfg, call);
      OneArgument(ledger.cfg, call);
      var _ :- Need(IsSystemAccount(call.recipient), OnlySystemAccountAccepted);
      var k := call.args[0];
      var current := if k in ledger.settings then SettingsFromBytes(ledger.settings[k]) else NO_SETTINGS;
      match which {
        case Pause => current := current.(paused := on);
        case LimitTransfer => current := current.(limitedTransfer := on);
        case BurnForAll => current := current.(burnForAll := on);
      }
      ledger.settings := ledger.settings[k := SettingsBytes(current)];
      r := Ok(());
    }

    /** deleteCreateRoleFromAccount */
    method DeleteCreateRoleFrom(a: Address, token: bytes)
      modifies ledger
      ensures ledger.State() == DeleteCreateRole(old(ledger.State()), a, token)
    {
      var roles := new RoleList(RolesOf(ledger.State(), a, token));
      roles.Delete([ROLE_NFT_CREATE]);
      ledger.SaveRoles(a, token, roles.roles);
    }

    /** addCreateRoleToAccount */
    method AddCreateRoleTo(a: Address, token: bytes)
      modifies ledger
      ensures ledger.State() == AddCreateRole(old(ledger.State()), a, token)
    {
      var roles := new RoleList(RolesOf(ledger.State(), a, token));
      var _, exist := roles.IndexOf(ROLE_NFT_CREATE);
      if !exist {
        ledger.SaveRoles(a, token, roles.roles + [ROLE_NFT_CREATE]);
      }
    }

    /** executeTransferNFTCreateChangeAtCurrentOwner */
    method GiveUpCreateRole(call: Call) returns (r: Result<OutTransfer>)
      modifies ledger
      ensures Ran(GiveUp(ledger.cfg, old(ledger.State()), call), r, ledger.State())
    {
      hide CheckBasic, DeleteCreateRole, AddCreateRole, PutNonce, LatestNonce, Print;
      var _ :- CheckBasic(call);
      var _ :- Need(call.caller == ledger.cfg.systemContract, AddressIsNotDCTSystemSC);
      var _ :- Need(|call.args| == 2 && |call.args[1]| == |call.caller|, InvalidArguments);
      var a, token, next := call.recipient, call.args[0], call.args[1];
      var nonce := LatestNonce(ledger.State(), a, token);
      ledger.SaveLatestNonce(a, token, 0);
      DeleteCreateRoleFrom(a, token);
      if ledger.cfg.shardOf(next) == ledger.cfg.self {
        ledger.SaveLatestNonce(next, token, nonce);
        AddCreateRoleTo(next, token);
      }
      var data := EncodeCall(CREATE_ROLE_TRANSFER, [token, ToBytes(nonce)]);
      r := Ok(OutTransfer(call.caller, next, data, 0));
    }

    /** executeTransferNFTCreateChangeAtNextOwner */
    method ReceiveCreateRole(call: Call) returns (r: Result<()>)
      modifies ledger
      ensures Done(Receive(ledger.cfg, old(ledger.State()), call), r, ledger.State())
    {
      hide CheckBasic, AddCreateRole, PutNonce, ReadUint64;
      var _ :- CheckBasic(call);
      var _ :- Need(call.caller != ledger.cfg.systemContract && |call.args| == 2, InvalidArguments);
      ledger.SaveLatestNonce(call.recipient, call.args[0], ReadUint64(call.args[1]));
      AddCreateRoleTo(call.recipient, call.args[0]);
      r := Ok(());
    }
  }

  lemma OneArgument(cfg: Config, call: Call)
    requires CheckSystemCall(cfg, call).Ok?
    ensures |call.args| == 1
  {
  }

  lemma HasArgument(call: Call)
    requires CheckBasic(call).Ok?
    ensures |call.args| >= 2
  {
  }
}
