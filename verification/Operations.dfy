/** The operations that stay inside one shard, as one type. */
module Operations {
  import opened Results
  import opened Tokens
  import opened Supply
  import opened Roles
  import opened Handoff

  datatype Op =
    | Creating(call: Call)
    | AddingQuantity(call: Call)
    | Burning(call: Call)
    | AddingUri(call: Call)
    | UpdatingAttributes(call: Call)
    | Minting(call: Call)
    | BurningLocal(call: Call)
    | Freezing(call: Call, on: bool)
    | Wiping(call: Call)
    | Toggling(call: Call, setting: Setting, on: bool)
    | ChangingRoles(call: Call, on: bool)
    | ChangingAddresses(call: Call, on: bool, max: nat)
    | GivingUpRole(call: Call)
    | ReceivingRole(call: Call)

  function Apply(cfg: Config, s: ShardState, op: Op): Result<ShardState> {
    match op
    case Creating(call) => Create(cfg, s, call)
    case AddingQuantity(call) => AddQuantity(cfg, s, call)
    case Burning(call) => Burn(cfg, s, call)
    case AddingUri(call) => AddUri(cfg, s, call)
    case UpdatingAttributes(call) => UpdateAttributes(cfg, s, call)
    case Minting(call) => LocalMint(cfg, s, call)
    case BurningLocal(call) => LocalBurn(cfg, s, call)
    case Freezing(call, on) => ToggleFreeze(cfg, s, call, on)
    case Wiping(call) => Wipe(cfg, s, call)
    case Toggling(call, setting, on) => ToggleSetting(cfg, s, call, setting, on)
    case ChangingRoles(call, on) => SetRoles(cfg, s, call, on)
    case ChangingAddresses(call, on, max) => SetAddresses(cfg, s, call, on, max)
    case GivingUpRole(call) => (var (s', _) :- GiveUp(cfg, s, call); Ok(s'))
    case ReceivingRole(call) => Receive(cfg, s, call)
  }
}
