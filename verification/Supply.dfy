/** The functions that change a supply or a token's attributes: create, add, burn, mint, update, freeze, wipe, pause. */
module Supply {
  import opened Bytes
  import opened Results
  import opened Keys
  import opened Tokens
  import opened Storage
  import opened Transfers

  const MAX_QUANTITY_LENGTH := 32

  /** checkDCTNFTCreateBurnAddInput */
  function CheckOwnCall(call: Call, cost: nat): Result<()> {
    var _ :- CheckBasic(call);
    var _ :- Need(call.caller == call.recipient, InvalidRcvAddr);
    Need(call.gasProvided >= cost, NotEnoughGas)
  }

  function TotalLength(args: seq<bytes>): nat {
    if args == [] then 0 else |args[0]| + TotalLength(args[1..])
  }

  /** The account that holds the create role: the caller, or the contract named by the last argument. */
  function Creator(call: Call): (r: Result<(Address, seq<bytes>)>)
    ensures r.Ok? ==> |call.args| >= 7
  {
    var n := |call.args|;
    if call.callType == ExecOnDestByCaller then
      var _ :- Need(n >= 8, InvalidArguments);
      var a := call.args[n - 1];
      var _ :- Need(|a| == |call.caller|, InvalidAddressLength);
      var _ :- Need(a != call.caller, InvalidRcvAddr);
      Ok((a, call.args[6..n - 1]))
    else
      var _ :- Need(n >= 7, InvalidArguments);
      Ok((call.caller, call.args[6..]))
  }

  /** A create that passed its checks. */
  datatype Creation = Creation(creator: Address, token: bytes, nonce: nat, quantity: nat, created: DCToken)

  function PlanCreate(cfg: Config, s: ShardState, call: Call): (r: Result<Creation>)
    ensures r.Ok? ==> r.value.quantity > 0 && r.value.created.value == r.value.quantity
    ensures r.Ok? ==> r.value.created.metadata.Some?
    ensures r.Ok? ==> r.value.nonce == (LatestNonce(s, r.value.creator, r.value.token) + 1) % U64
    ensures r.Ok? ==> |call.args| >= 7 && r.value.token == call.args[0]
    ensures r.Ok? ==> ROLE_NFT_CREATE in RolesOf(s, r.value.creator, r.value.token)
  {
    var _ :- CheckOwnCall(call, cfg.costs.nftCreate);
    var (creator, uris) :- Creator(call);
    var args := call.args;
    var token := args[0];
    var _ :- CheckAllowed(s, creator, token, ROLE_NFT_CREATE);
    var cost := (TotalLength(args) * cfg.costs.storePerByte + cfg.costs.nftCreate) % U64;
    var _ :- Need(call.gasProvided >= cost, NotEnoughGas);
    var royalties := ReadUint64(args[3]) % U32;
    var _ :- Need(royalties <= MAX_ROYALTY, InvalidArguments);
    var quantity := FromBytes(args[1]);
    var _ :- Need(quantity > 0, InvalidArguments);
    var _ :- if quantity > 1 then CheckAllowed(s, creator, token, ROLE_NFT_ADD_QUANTITY) else Ok(());
    var _ :- Need(cfg.flags.valueLength ==> |args[1]| <= MAX_QUANTITY_LENGTH, InvalidArguments);
    var nonce := (LatestNonce(s, creator, token) + 1) % U64;
    var metadata := MetaData(nonce, args[2], call.caller, royalties, args[4], uris, args[5]);
    Ok(Creation(creator, token, nonce, quantity, DCToken(NON_FUNGIBLE, quantity, [], Some(metadata), [])))
  }

  /** dctNFTCreate.ProcessBuiltinFunction */
  function Create(cfg: Config, s: ShardState, call: Call): Result<ShardState> {
    var c :- PlanCreate(cfg, s, call);
    var s1 :- SaveToken(cfg, s, c.creator, c.creator, c.token, c.nonce, c.created, true, call.ret);
    var s2 :- AddLiquidity(cfg, s1, c.token, c.nonce, c.quantity);
    Ok(PutNonce(s2, c.creator, c.token, c.nonce))
  }

  /** dctNFTAddQuantity.ProcessBuiltinFunction */
  function AddQuantity(cfg: Config, s: ShardState, call: Call): Result<ShardState> {
    var _ :- CheckOwnCall(call, cfg.costs.addQuantity);
    var _ :- Need(|call.args| >= 3, InvalidArguments);
    var a, token, nonce, v := call.caller, call.args[0], ReadUint64(call.args[1]), FromBytes(call.args[2]);
    var _ :- CheckAllowed(s, a, token, ROLE_NFT_ADD_QUANTITY);
    var t :- ReadOnSender(cfg, s, a, token, nonce);
    var _ :- Need(nonce != 0, NFTDoesNotHaveMetadata);
    var _ :- Need(cfg.flags.valueLength ==> |call.args[2]| <= MAX_QUANTITY_LENGTH, InvalidArguments);
    var s1 :- SaveToken(cfg, s, a, a, token, nonce, t.(value := t.value + v), false, call.ret);
    AddLiquidity(cfg, s1, token, nonce, v)
  }

  function CheckBurn(s: ShardState, a: Address, token: bytes, role: bytes): Result<()> {
    if SettingsOf(s, token).burnForAll then Ok(()) else CheckAllowed(s, a, token, role)
  }

  /** dctNFTBurn.ProcessBuiltinFunction */
  function Burn(cfg: Config, s: ShardState, call: Call): Result<ShardState> {
    var _ :- CheckOwnCall(call, cfg.costs.burn);
    var _ :- Need(|call.args| >= 3, InvalidArguments);
    var a, token, nonce, v := call.caller, call.args[0], ReadUint64(call.args[1]), FromBytes(call.args[2]);
    var _ :- CheckBurn(s, a, token, ROLE_NFT_BURN);
    var _ :- ReadOnSender(cfg, s, a, token, nonce);
    var _ :- Need(nonce != 0, NFTDoesNotHaveMetadata);
    var (s1, _) :- Debit(cfg, s, a, token, nonce, v, InvalidNFTQuantity, call.ret);
    AddLiquidity(cfg, s1, token, nonce, 0 - v)
  }

  /** The common part of dctNFTAddUri and dctNFTupdate: store new metadata for a token the caller holds. */
  function UpdateMetaData(cfg: Config, s: ShardState, call: Call, role: bytes, cost: nat,
                          update: MetaData -> MetaData): Result<ShardState> {
    var _ :- CheckOwnCall(call, cost);
    var _ :- Need(|call.args| >= 3, InvalidArguments);
    var a, token, nonce := call.caller, call.args[0], ReadUint64(call.args[1]);
    var _ :- CheckAllowed(s, a, token, role);
    var _ :- Need(call.gasProvided >= (cost + TotalLength(call.args[2..]) * cfg.costs.storePerByte) % U64,
      NotEnoughGas);
    var _ :- Need(nonce != 0, NFTDoesNotHaveMetadata);
    var t :- ReadOnSender(cfg, s, a, token, nonce);
    if t.metadata.None? then Err(NilMetaData)
    else SaveToken(cfg, s, a, a, token, nonce, t.(metadata := Some(update(t.metadata.value))), true, call.ret)
  }

  /** dctNFTAddUri.ProcessBuiltinFunction */
  function AddUri(cfg: Config, s: ShardState, call: Call): Result<ShardState> {
    var uris := if |call.args| >= 2 then call.args[2..] else [];
    UpdateMetaData(cfg, s, call, ROLE_NFT_ADD_URI, cfg.costs.addUri, (m: MetaData) => m.(uris := m.uris + uris))
  }

  /** dctNFTupdate.ProcessBuiltinFunction */
  function UpdateAttributes(cfg: Config, s: ShardState, call: Call): Result<ShardState> {
    var _ :- CheckOwnCall(call, cfg.costs.updateAttributes);
    var _ :- Need(|call.args| == 3, InvalidArguments);
    var attributes := call.args[2];
    UpdateMetaData(cfg, s, call, ROLE_NFT_UPDATE_ATTRIBUTES, cfg.costs.updateAttributes,
                   (m: MetaData) => m.(attributes := attributes))
  }

  /** checkInputArgumentsForLocalAction */
  function CheckLocal(call: Call, cost: nat): Result<()> {
    var _ :- CheckBasic(call);
    var _ :- Need(call.caller == call.recipient, InvalidRcvAddr);
    var _ :- Need(FromBytes(call.args[1]) > 0, NegativeValue);
    Need(call.gasProvided >= cost, NotEnoughGas)
  }

  /** dctLocalMint.ProcessBuiltinFunction */
  function LocalMint(cfg: Config, s: ShardState, call: Call): Result<ShardState> {
    var _ :- CheckLocal(call, cfg.costs.localMint);
    var a, token := call.caller, call.args[0];
    var _ :- CheckAllowed(s, a, token, ROLE_LOCAL_MINT);
    var _ :- Need(|call.args[1]| <= cfg.maxMintLength, InvalidArguments);
    AddToBalance(cfg, s, a, token, FromBytes(call.args[1]), call.ret)
  }

  /** dctLocalBurn.ProcessBuiltinFunction */
  function LocalBurn(cfg: Config, s: ShardState, call: Call): Result<ShardState> {
    var _ :- CheckLocal(call, cfg.costs.localBurn);
    var a, token := call.caller, call.args[0];
    var _ :- CheckBurn(s, a, token, ROLE_LOCAL_BURN);
    var v: int := FromBytes(call.args[1]);
    AddToBalance(cfg, s, a, token, -v, call.ret)
  }

  /** The checks that the system contract's calls share. */
  function CheckSystemCall(cfg: Config, call: Call): Result<()> {
    var _ :- Need(call.callValue == 0, BuiltInFunctionCalledWithValue);
    var _ :- Need(|call.args| == 1, InvalidArguments);
    Need(call.caller == cfg.systemContract, AddressIsNotDCTSystemSC)
  }

  function FreezeBytes(freeze: bool): bytes {
    if freeze then [1, 0] else [0, 0]
  }

  /** toggleFreeze */
  function ToggleFreeze(cfg: Config, s: ShardState, call: Call, freeze: bool): Result<ShardState> {
    var _ :- CheckSystemCall(cfg, call);
    var a, k := call.recipient, call.args[0];
    Ok(SaveData(s, a, k, ReadData(s, a, k).(properties := FreezeBytes(freeze))))
  }

  /** wipeIfApplicable with removeLiquidity */
  function Wipe(cfg: Config, s: ShardState, call: Call): Result<ShardState> {
    var _ :- CheckSystemCall(cfg, call);
    var a, k := call.recipient, call.args[0];
    var (token, nonce) := ExtractTokenAndNonce(k);
    var t := ReadData(s, a, k);
    var _ :- Need(IsFrozen(t.properties), CannotWipeAccountNotFrozen);
    var s1 := Put(s, a, k, None);
    if cfg.flags.wipeLiquidity then AddLiquidity(cfg, s1, token, nonce, -t.value) else Ok(s1)
  }

  datatype Setting = Pause | LimitTransfer | BurnForAll

  function Toggled(x: Settings, which: Setting, on: bool): Settings {
    match which
    case Pause => x.(paused := on)
    case LimitTransfer => x.(limitedTransfer := on)
    case BurnForAll => x.(burnForAll := on)
  }

  /** dctGlobalSettings.ProcessBuiltinFunction with toggleSetting */
  function ToggleSetting(cfg: Config, s: ShardState, call: Call, which: Setting, on: bool): Result<ShardState> {
    var _ :- CheckSystemCall(cfg, call);
    var _ :- Need(IsSystemAccount(call.recipient), OnlySystemAccountAccepted);
    var k := call.args[0];
    Ok(s.(settings := s.settings[k := SettingsBytes(Toggled(SettingsOf(s, k), which, on))]))
  }
}
