/**
 * How much of which token an operation supplies to its shard: created, added, minted, or with a minus burned and wiped.
 */
module Supplies {
  import opened Bytes
  import opened Results
  import opened Keys
  import opened Tokens
  import opened Storage
  import opened Transfers
  import opened Supply
  import opened Roles
  import opened Handoff
  import opened Operations
  import opened Totals
  import opened Moves
  import opened Invariants
  import opened OperationsKeep

  datatype Change = Change(key: bytes, amount: int)

  const NO_CHANGE := Change([], 0)

  /** What a successful operation supplies, read off its arguments; a wipe takes what the account holds. */
  function Supplied(cfg: Config, s: ShardState, op: Op): Change {
    match op
    case Creating(call) =>
      (match PlanCreate(cfg, s, call)
       case Ok(c) => Change(KeyOf(c.token, c.nonce), c.quantity)
       case Err(_) => NO_CHANGE)
    case AddingQuantity(call) =>
      if |call.args| < 3 then NO_CHANGE
        else Change(KeyOf(call.args[0], ReadUint64(call.args[1])), FromBytes(call.args[2]))
    case Burning(call) =>
      if |call.args| < 3 then NO_CHANGE
        else Change(KeyOf(call.args[0], ReadUint64(call.args[1])), 0 - FromBytes(call.args[2]))
    case Minting(call) => if |call.args| < 2 then NO_CHANGE else Change(call.args[0], FromBytes(call.args[1]))
    case BurningLocal(call) => if |call.args| < 2 then NO_CHANGE else Change(call.args[0], 0 - FromBytes(call.args[1]))
    case Wiping(call) => if call.args == [] then NO_CHANGE
      else Change(call.args[0], 0 - Balance(s, call.recipient, call.args[0]))
    case _ => NO_CHANGE
  }

  /** A create whose nonce its creator holds nothing of. */
  ghost predicate Fresh(cfg: Config, s: ShardState, op: Op) {
    op.Creating? && PlanCreate(cfg, s, op.call).Ok? ==>
      var c := PlanCreate(cfg, s, op.call).value;
      Balance(s, c.creator, KeyOf(c.token, c.nonce)) == 0
  }

  ghost predicate Changes(s: ShardState, s': ShardState, c: Change) {
    forall q :: Total(s', q) == Total(s, q) + if q == c.key then c.amount else 0
  }

  lemma CreateChanges(cfg: Config, s: ShardState, call: Call)
    requires Fresh(cfg, s, Creating(call)) && Create(cfg, s, call).Ok?
    ensures Changes(s, Create(cfg, s, call).value, Supplied(cfg, s, Creating(call)))
  {
    hide SaveToken, PlanCreate, AddLiquidity;
    var c := PlanCreate(cfg, s, call).value;
    var s1 := SaveToken(cfg, s, c.creator, c.creator, c.token, c.nonce, c.created, true, call.ret).value;
    var s2 := AddLiquidity(cfg, s1, c.token, c.nonce, c.quantity).value;
    SaveTokenEffect(cfg, s, c.creator, c.creator, c.token, c.nonce, c.created, true, call.ret);
    AddLiquidityEffect(cfg, s1, c.token, c.nonce, c.quantity);
    SameAccounts(s1, s2);
    PutNonceTokens(s2, c.creator, c.token, c.nonce);
  }

  lemma AddQuantityChanges(cfg: Config, s: ShardState, call: Call)
    requires NonNegative(s) && AddQuantity(cfg, s, call).Ok?
    ensures Changes(s, AddQuantity(cfg, s, call).value, Supplied(cfg, s, AddingQuantity(call)))
  {
    hide SaveToken, AddLiquidity;
    var a, token, nonce, v := call.caller, call.args[0], ReadUint64(call.args[1]), FromBytes(call.args[2]);
    var t := ReadOnSender(cfg, s, a, token, nonce).value;
    ReadValue(cfg, s, a, token, nonce);
    assert Balance(s, a, KeyOf(token, nonce)) >= 0;
    var s1 := SaveToken(cfg, s, a, a, token, nonce, t.(value := t.value + v), false, call.ret).value;
    SaveTokenEffect(cfg, s, a, a, token, nonce, t.(value := t.value + v), false, call.ret);
    AddLiquidityEffect(cfg, s1, token, nonce, v);
    SameAccounts(s1, AddQuantity(cfg, s, call).value);
  }

  lemma BurnChanges(cfg: Config, s: ShardState, call: Call)
    requires NonNegative(s) && Burn(cfg, s, call).Ok?
    ensures Changes(s, Burn(cfg, s, call).value, Supplied(cfg, s, Burning(call)))
  {
    hide Debit, AddLiquidity;
    var a, token, nonce, v := call.caller, call.args[0], ReadUint64(call.args[1]), FromBytes(call.args[2]);
    var s1 := Debit(cfg, s, a, token, nonce, v, InvalidNFTQuantity, call.ret).value.0;
    DebitEffect(cfg, s, a, token, nonce, v, InvalidNFTQuantity, call.ret);
    AddLiquidityEffect(cfg, s1, token, nonce, -(v as int));
    SameAccounts(s1, Burn(cfg, s, call).value);
  }

  lemma MintChanges(cfg: Config, s: ShardState, call: Call)
    requires LocalMint(cfg, s, call).Ok?
    ensures Changes(s, LocalMint(cfg, s, call).value, Supplied(cfg, s, Minting(call)))
  {
    AddToBalanceEffect(cfg, s, call.caller, call.args[0], FromBytes(call.args[1]), call.ret);
  }

  lemma LocalBurnChanges(cfg: Config, s: ShardState, call: Call)
    requires LocalBurn(cfg, s, call).Ok?
    ensures Changes(s, LocalBurn(cfg, s, call).value, Supplied(cfg, s, BurningLocal(call)))
  {
    AddToBalanceEffect(cfg, s, call.caller, call.args[0], -(FromBytes(call.args[1]) as int), call.ret);
  }

  /** Every permitted operation changes the sums of its shard by exactly what it supplies. */
  lemma ApplyChanges(cfg: Config, s: ShardState, op: Op)
    requires Storing(cfg) && Inv(cfg, s) && Permitted(cfg, op) && Fresh(cfg, s, op) && Apply(cfg, s, op).Ok?
    ensures Changes(s, Apply(cfg, s, op).value, Supplied(cfg, s, op))
  {
    hide Inv, Create, AddQuantity, Burn, UpdateMetaData, Wipe, ToggleFreeze, AddToBalance, PlanCreate, GiveUp, Receive,
        SetRoles, SetAddresses, ToggleSetting;
    var s' := Apply(cfg, s, op).value;
    InvBasics(cfg, s);
    match op
    case Creating(call) => CreateChanges(cfg, s, call);
    case AddingQuantity(call) => AddQuantityChanges(cfg, s, call);
    case Burning(call) => BurnChanges(cfg, s, call);
    case AddingUri(call) =>
      var uris := if |call.args| >= 2 then call.args[2..] else [];
      UpdateKeeps(cfg, s, call, ROLE_NFT_ADD_URI, cfg.costs.addUri, (m: MetaData) => m.(uris := m.uris + uris));
    case UpdatingAttributes(call) =>
      var attributes := call.args[2];
      UpdateKeeps(cfg, s, call, ROLE_NFT_UPDATE_ATTRIBUTES, cfg.costs.updateAttributes,
        (m: MetaData) => m.(attributes := attributes));
    case Minting(call) => MintChanges(cfg, s, call);
    case BurningLocal(call) => LocalBurnChanges(cfg, s, call);
    case Freezing(call, on) => FreezeKeeps(cfg, s, call, on);
    case Wiping(call) => WipeAdds(cfg, s, call);
    case _ => OtherOperationsKeepTokens(cfg, s, op);
  }
}
