/** The shards and the messages between them, as a machine whose steps are the calls of the library. */
module Network {
  import opened Bytes
  import opened Results
  import opened Wire
  import opened Tokens
  import opened Transfers
  import opened Operations
  import opened Messages

  /** A transaction on its way to another shard; ret marks one that comes back after it failed. */
  datatype Msg = Msg(sender: Address, receiver: Address, data: bytes, ret: bool)

  /** All shards, and all messages in flight, oldest first. */
  datatype World = World(shards: seq<ShardState>, net: seq<Msg>)

  datatype Kind = Fungible | SingleNft | MultiNft

  datatype Event =
    | Local(shard: nat, op: Op)
    | Send(kind: Kind, call: Call)
    | Deliver(index: nat, gas: nat, callType: CallType, payable: bool)

  function At(cfg: Config, j: nat): Config {
    cfg.(self := j)
  }

  function Destination(kind: Kind, call: Call): Address {
    match kind
    case Fungible => call.recipient
    case SingleNft => if |call.args| > 3 then call.args[3] else []
    case MultiNft => if |call.args| > 0 then call.args[0] else []
  }

  /**
   * A transfer at the sender's shard, with the message it sends to another shard. The message of an NFT transfer is the
   * emitted transfer; a fungible transfer goes on as the same transaction.
   */
  function SendAt(cfg: Config, s: ShardState, kind: Kind, call: Call): Result<(ShardState, Option<Msg>)> {
    var dst := Destination(kind, call);
    match kind
    case Fungible =>
      var (s', _) :- FungibleTransfer(cfg, s, call, true, cfg.Here(dst));
      Ok((s', if cfg.Here(dst) then None else Some(Msg(call.caller, dst, Print(DCT_TRANSFER, call.args), false))))
    case SingleNft =>
      var _ :- Need(call.caller == call.recipient, InvalidRcvAddr);
      var (s', out) :- NftTransferOnSender(cfg, s, call);
      Ok((s', Posted(cfg, call.caller, dst, out)))
    case MultiNft =>
      var _ :- Need(call.caller == call.recipient, InvalidRcvAddr);
      var (s', out) :- MultiTransferOnSender(cfg, s, call);
      Ok((s', Posted(cfg, call.caller, dst, out)))
  }

  function Posted(cfg: Config, snd: Address, dst: Address, out: Output): Option<Msg> {
    if cfg.Here(dst) || out.transfer.None? then None else Some(Msg(snd, dst, out.transfer.value.data, false))
  }

  /** A message executed at its receiver's shard. */
  function DeliverAt(cfg: Config, s: ShardState, m: Msg, gas: nat, callType: CallType,
      payable: bool): Result<ShardState> {
    var (function_, args) :- ParseData(m.data);
    var call := Call(m.sender, m.receiver, 0, args, gas, m.ret, callType, payable);
    if function_ == MULTI_TRANSFER then (var (s', _) :- MultiTransferOnDestination(cfg, s, call); Ok(s'))
    else if function_ == NFT_TRANSFER then (var (s', _) :- NftTransferOnDestination(cfg, s, call); Ok(s'))
    else if function_ == DCT_TRANSFER then (var (s', _) :- FungibleTransfer(cfg, s, call, false, true); Ok(s'))
    else Err(NotDCTTransferInput)
  }

  function Remove(net: seq<Msg>, i: nat): seq<Msg>
    requires i < |net|
  {
    net[..i] + net[i + 1..]
  }

  predicate OnChannel(cfg: Config, m: Msg, j: nat, d: nat) {
    cfg.shardOf(m.sender) == j && cfg.shardOf(m.receiver) == d
  }

  /** No older message between the same two shards is still in flight. */
  predicate IsFirst(cfg: Config, net: seq<Msg>, i: nat)
    requires i < |net|
  {
    forall p :: 0 <= p < i ==> !OnChannel(cfg, net[p], cfg.shardOf(net[i].sender), cfg.shardOf(net[i].receiver))
  }

  function OrSame(r: Result<ShardState>, s: ShardState): ShardState {
    match r
    case Ok(s') => s'
    case Err(_) => s
  }

  /**
   * One step. A call that fails changes nothing. A delivery that fails leaves the metadata it brought, and its message
   * goes back to the sender's shard marked as a return.
   */
  function Step(cfg: Config, w: World, e: Event): World {
    match e
    case Local(j, op) =>
      if j < |w.shards| then w.(shards := w.shards[j := OrSame(Apply(At(cfg, j), w.shards[j], op), w.shards[j])]) else w
    case Send(kind, call) =>
      var j := cfg.shardOf(call.caller);
      if j >= |w.shards| then w
      else
        (match SendAt(At(cfg, j), w.shards[j], kind, call)
         case Err(_) => w
         case Ok((s', m)) => World(w.shards[j := s'], w.net + if m.Some? then [m.value] else []))
    case Deliver(i, gas, callType, payable) =>
      if i >= |w.net| || !IsFirst(cfg, w.net, i) || cfg.shardOf(w.net[i].receiver) >= |w.shards| then w
      else
        var m := w.net[i];
        var d := cfg.shardOf(m.receiver);
        (match DeliverAt(At(cfg, d), w.shards[d], m, gas, callType, payable)
         case Ok(s') => World(w.shards[d := s'], Remove(w.net, i))
         case Err(_) =>
           var s' := OrSame(RecordFailed(At(cfg, d), w.shards[d], m.sender, m.receiver, m.data), w.shards[d]);
           World(w.shards[d := s'], Remove(w.net, i) + [Msg(m.receiver, m.sender, m.data, true)]))
  }

  function Run(cfg: Config, w: World, events: seq<Event>): World {
    if events == [] then w else Step(cfg, Run(cfg, w, events[..|events| - 1]), events[|events| - 1])
  }

  /** Every shard empty, nothing in flight. */
  function Genesis(cfg: Config): World {
    World(seq(cfg.numShards, j => EMPTY_SHARD), [])
  }
}
