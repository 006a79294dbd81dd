/** The theorems about whole runs: safety in both eras, and conservation. */
module Runs {
  import opened Bytes
  import opened Results
  import opened Keys
  import opened Tokens
  import opened Storage
  import opened Transfers
  import opened Operations
  import opened Totals
  import opened Liquidity
  import opened Availability
  import opened Invariants
  import opened OperationsKeep
  import opened Messages
  import opened SentFlags
  import opened Network
  import opened Sends
  import opened Deliveries
  import opened NetworkSafe
  import opened Supplies

  // ---- sums over the world ----

  ghost function SumShards(shards: seq<ShardState>, q: bytes): int {
    if shards == [] then 0 else SumShards(shards[..|shards| - 1], q) + Total(shards[|shards| - 1], q)
  }

  /** What the messages in flight carry of a key. */
  function InFlight(cfg: Config, net: seq<Msg>, q: bytes): int {
    if net == [] then 0 else InFlight(cfg, net[..|net| - 1], q) + Load(ItemsIn(cfg, net[|net| - 1]), q)
  }

  /** All there is of a key: the balances of all shards and the amounts in flight. */
  ghost function Everywhere(cfg: Config, w: World, q: bytes): int {
    SumShards(w.shards, q) + InFlight(cfg, w.net, q)
  }

  lemma {:induction false} SumShardsUpdate(shards: seq<ShardState>, j: nat, s': ShardState, q: bytes)
    requires j < |shards|
    ensures SumShards(shards[j := s'], q) == SumShards(shards, q) - Total(shards[j], q) + Total(s', q)
  {
    var n := |shards| - 1;
    if j == n {
      assert shards[j := s'][..n] == shards[..n];
    } else {
      assert shards[j := s'][..n] == shards[..n][j := s'];
      SumShardsUpdate(shards[..n], j, s', q);
    }
  }

  lemma InFlightSnoc(cfg: Config, net: seq<Msg>, m: Msg, q: bytes)
    ensures InFlight(cfg, net + [m], q) == InFlight(cfg, net, q) + Load(ItemsIn(cfg, m), q)
  {
    assert (net + [m])[..|net|] == net;
  }

  lemma {:induction false} InFlightRemove(cfg: Config, net: seq<Msg>, i: nat, q: bytes)
    requires i < |net|
    ensures InFlight(cfg, Remove(net, i), q) == InFlight(cfg, net, q) - Load(ItemsIn(cfg, net[i]), q)
  {
    hide ItemsIn, Load;
    var n := |net| - 1;
    if i == n {
      assert Remove(net, i) == net[..n];
    } else {
      assert Remove(net, i) == Remove(net[..n], i) + [net[n]];
      InFlightRemove(cfg, net[..n], i, q);
      InFlightSnoc(cfg, Remove(net[..n], i), net[n], q);
    }
  }

  // ---- steps ----

  /** What an event supplies to the world; a failed one supplies nothing. */
  function SuppliedBy(cfg: Config, w: World, e: Event): Change {
    if e.Local? && e.shard < |w.shards| && Apply(At(cfg, e.shard), w.shards[e.shard], e.op).Ok?
    then Supplied(At(cfg, e.shard), w.shards[e.shard], e.op)
    else NO_CHANGE
  }

  /** The event is no create of a nonce that its creator already holds. */
  ghost predicate FreshEvent(cfg: Config, w: World, e: Event) {
    e.Local? && e.shard < |w.shards| ==> Fresh(At(cfg, e.shard), w.shards[e.shard], e.op)
  }

  ghost predicate WorldChanges(cfg: Config, w: World, w': World, c: Change) {
    forall q :: Everywhere(cfg, w', q) == Everywhere(cfg, w, q) + if q == c.key then c.amount else 0
  }

  /** What one step guarantees. */
  ghost predicate Stepped(cfg: Config, w: World, e: Event) {
    var w' := Step(cfg, w, e);
    Safe(cfg, w') && (FreshEvent(cfg, w, e) ==> WorldChanges(cfg, w, w', SuppliedBy(cfg, w, e)))
  }

  lemma LocalStep(cfg: Config, w: World, j: nat, op: Op)
    requires Environment(cfg) && Safe(cfg, w) && Allowed(cfg, Local(j, op))
    ensures Stepped(cfg, w, Local(j, op))
  {
    hide Apply, Permitted, ActsHere, Inv, OwnFlags, NetSafe, SendersRecorded, Supplied, Fresh, Total;
    if j < |w.shards| && Apply(At(cfg, j), w.shards[j], op).Ok? {
      var s, s' := w.shards[j], Apply(At(cfg, j), w.shards[j], op).value;
      InvAt(cfg, j, s);
      ApplyKeeps(At(cfg, j), s, op);
      InvAt(cfg, j, s');
      if !cfg.flags.sendAlways {
        ApplyFlags(At(cfg, j), s, op);
      }
      OwnStepSafe(cfg, w, j, s');
      if Fresh(At(cfg, j), s, op) {
        ApplyChanges(At(cfg, j), s, op);
        forall q
          ensures SumShards(w.shards[j := s'], q) == SumShards(w.shards, q) - Total(s, q) + Total(s', q)
        {
          SumShardsUpdate(w.shards, j, s', q);
        }
      }
    } else {
      assert j < |w.shards| ==> w.shards[j := w.shards[j]] == w.shards;
    }
  }

  lemma InvAt(cfg: Config, j: nat, s: ShardState)
    ensures Inv(At(cfg, j), s) <==> Inv(cfg, s)
  {
  }

  lemma ShardInv(cfg: Config, w: World, j: nat)
    requires Safe(cfg, w) && j < |w.shards|
    ensures Inv(cfg, w.shards[j])
  {
  }

  /** A transfer that posts a message. */
  lemma PostStep(cfg: Config, w: World, j: nat, s': ShardState, m: Msg, its: seq<Item>)
    requires Environment(cfg) && Safe(cfg, w) && j < |w.shards| && Inv(cfg, s') &&
      Sent(At(cfg, j), w.shards[j], s', m, its)
    ensures var w' := World(w.shards[j := s'], w.net + [m]);
            Safe(cfg, w') && WorldChanges(cfg, w, w', NO_CHANGE)
  {
    hide Inv, NetSafe, SendersRecorded, Vouched, Legible, Total, Load, ItemsIn;
    PostedSafe(cfg, w, j, s', m, its);
    forall q
      ensures Everywhere(cfg, World(w.shards[j := s'], w.net + [m]), q) == Everywhere(cfg, w, q)
    {
      SumShardsUpdate(w.shards, j, s', q);
      InFlightSnoc(cfg, w.net, m, q);
    }
  }

  /** A transfer inside a shard. */
  lemma StayStep(cfg: Config, w: World, j: nat, s': ShardState)
    requires Safe(cfg, w) && j < |w.shards| && Inv(cfg, s') && Stays(At(cfg, j), w.shards[j], s')
    ensures var w' := w.(shards := w.shards[j := s']);
            Safe(cfg, w') && WorldChanges(cfg, w, w', NO_CHANGE)
  {
    hide Inv, NetSafe, SendersRecorded, OwnFlags, Total;
    OwnStepSafe(cfg, w, j, s');
    forall q
      ensures SumShards(w.shards[j := s'], q) == SumShards(w.shards, q)
    {
      SumShardsUpdate(w.shards, j, s', q);
    }
  }

  lemma EnvironmentAt(cfg: Config, j: nat)
    requires Environment(cfg)
    ensures At(cfg, j).GoodMarshaller() && At(cfg, j).GoodShards() && Storing(At(cfg, j))
  {
  }

  lemma SendStep(cfg: Config, w: World, kind: Kind, call: Call)
    requires Environment(cfg) && Safe(cfg, w) && Allowed(cfg, Send(kind, call))
    ensures Stepped(cfg, w, Send(kind, call))
  {
    hide SendAt, Inv, NetSafe, SendersRecorded, Sent, Stays, Total, PermittedSend, ShardsSafe, Everywhere;
    var j := cfg.shardOf(call.caller);
    if j < |w.shards| && SendAt(At(cfg, j), w.shards[j], kind, call).Ok? {
      var (s', m) := SendAt(At(cfg, j), w.shards[j], kind, call).value;
      ShardInv(cfg, w, j);
      InvAt(cfg, j, w.shards[j]);
      InvAt(cfg, j, s');
      EnvironmentAt(cfg, j);
      if m.Some? {
        var its;
        match kind {
          case Fungible => its := FungibleSent(At(cfg, j), w.shards[j], call);
          case SingleNft => its := NftSent(At(cfg, j), w.shards[j], call);
          case MultiNft => its := MultiSent(At(cfg, j), w.shards[j], call);
        }
        PostStep(cfg, w, j, s', m.value, its);
      } else {
        match kind {
          case Fungible => FungibleStays(At(cfg, j), w.shards[j], call);
          case SingleNft => NftStays(At(cfg, j), w.shards[j], call);
          case MultiNft => MultiStays(At(cfg, j), w.shards[j], call);
        }
        StayStep(cfg, w, j, s');
        assert w.net + [] == w.net;
      }
    }
  }

  /** A delivery that succeeds credits what its message carried. */
  lemma DeliveredStep(cfg: Config, w: World, i: nat, gas: nat, callType: CallType, payable: bool)
    requires Environment(cfg) && Safe(cfg, w) && i < |w.net| && IsFirst(cfg, w.net, i) &&
      cfg.shardOf(w.net[i].receiver) < |w.shards|
    requires var d := cfg.shardOf(w.net[i].receiver);
             DeliverAt(At(cfg, d), w.shards[d], w.net[i], gas, callType, payable).Ok?
    ensures var d := cfg.shardOf(w.net[i].receiver);
            var w' := World(w.shards[d := DeliverAt(At(cfg, d), w.shards[d], w.net[i], gas, callType, payable).value],
              Remove(w.net, i));
            Safe(cfg, w') && WorldChanges(cfg, w, w', NO_CHANGE)
  {
    hide Inv, NetSafe, SendersRecorded, Total, Load, ItemsIn, DeliverAt, Deliverable, NewFlags, Items;
    var m := w.net[i];
    var d, its := cfg.shardOf(m.receiver), ItemsIn(cfg, m);
    var s := w.shards[d];
    ArrivesDeliverable(cfg, w, i);
    DeliverableAt(cfg, d, s.system.Keys, its);
    ItemsAt(cfg, d, m.data);
    InvAt(cfg, d, s);
    var s' := DeliverAt(At(cfg, d), s, m, gas, callType, payable).value;
    Delivered(At(cfg, d), s, m, gas, callType, payable, its);
    InvAt(cfg, d, s');
    TakenSafe(cfg, w, i, s');
    forall q
      ensures Everywhere(cfg, World(w.shards[d := s'], Remove(w.net, i)), q) == Everywhere(cfg, w, q)
    {
      SumShardsUpdate(w.shards, d, s', q);
      InFlightRemove(cfg, w.net, i, q);
    }
  }

  /** A delivery that fails leaves the metadata it brought, and its message goes back. */
  lemma ReturnedStep(cfg: Config, w: World, i: nat)
    requires Environment(cfg) && Safe(cfg, w) && i < |w.net| && IsFirst(cfg, w.net, i) &&
      cfg.shardOf(w.net[i].receiver) < |w.shards|
    ensures var m := w.net[i];
            var d := cfg.shardOf(m.receiver);
            var w' := World(w.shards[d := OrSame(RecordFailed(At(cfg, d), w.shards[d], m.sender, m.receiver, m.data),
              w.shards[d])],
                            Remove(w.net, i) + [Msg(m.receiver, m.sender, m.data, true)]);
            Safe(cfg, w') && WorldChanges(cfg, w, w', NO_CHANGE)
  {
    hide Inv, NetSafe, SendersRecorded, Total, Load, ItemsIn, RecordFailed, Deliverable, NewFlags, Items, OrSame,
        NftKeys;
    var m := w.net[i];
    var j, d, its := cfg.shardOf(m.sender), cfg.shardOf(m.receiver), ItemsIn(cfg, m);
    var s := w.shards[d];
    var s' := OrSame(RecordFailed(At(cfg, d), s, m.sender, m.receiver, m.data), s);
    var w1 := World(w.shards[d := s'], Remove(w.net, i));
    var back := Msg(m.receiver, m.sender, m.data, true);
    ArrivesDeliverable(cfg, w, i);
    ItemsAt(cfg, d, m.data);
    InvAt(cfg, d, s);
    FailedDelivery(At(cfg, d), s, m, its);
    InvAt(cfg, d, s');
    TakenSafe(cfg, w, i, s');
    if !cfg.flags.sendAlways {
      DeliverableKeys(cfg, s.system.Keys, its);
      SenderRecorded(cfg, w, i);
    }
    ReturnedSafe(cfg, w1, m, s.system.Keys);
    SameItems(cfg, m, back);
    forall q
      ensures Everywhere(cfg, World(w1.shards, w1.net + [back]), q) == Everywhere(cfg, w, q)
    {
      SumShardsUpdate(w.shards, d, s', q);
      InFlightRemove(cfg, w.net, i, q);
      InFlightSnoc(cfg, w1.net, back, q);
    }
  }

  lemma SenderRecorded(cfg: Config, w: World, i: nat)
    requires SendersRecorded(cfg, w) && i < |w.net| && cfg.shardOf(w.net[i].sender) < |w.shards|
    ensures NftKeys(ItemsIn(cfg, w.net[i])) <= w.shards[cfg.shardOf(w.net[i].sender)].system.Keys
  {
  }

  lemma SameItems(cfg: Config, m: Msg, back: Msg)
    requires back.data == m.data
    ensures ItemsIn(cfg, back) == ItemsIn(cfg, m)
  {
  }

  lemma StepIsSafe(cfg: Config, w: World, e: Event)
    requires Environment(cfg) && Safe(cfg, w) && Allowed(cfg, e)
    ensures Stepped(cfg, w, e)
  {
    hide Safe, Everywhere, DeliverAt, RecordFailed, IsFirst, OrSame;
    match e
    case Local(j, op) => LocalStep(cfg, w, j, op);
    case Send(kind, call) => SendStep(cfg, w, kind, call);
    case Deliver(i, gas, callType, payable) =>
      if i < |w.net| && IsFirst(cfg, w.net, i) && cfg.shardOf(w.net[i].receiver) < |w.shards| {
        var d := cfg.shardOf(w.net[i].receiver);
        if DeliverAt(At(cfg, d), w.shards[d], w.net[i], gas, callType, payable).Ok? {
          DeliveredStep(cfg, w, i, gas, callType, payable);
        } else {
          ReturnedStep(cfg, w, i);
        }
      }
  }

  // ---- runs ----

  ghost predicate AllAllowed(cfg: Config, events: seq<Event>) {
    forall i :: 0 <= i < |events| ==> Allowed(cfg, events[i])
  }

  lemma GenesisIsSafe(cfg: Config)
    ensures Safe(cfg, Genesis(cfg))
  {
    assert forall a, k :: Balance(EMPTY_SHARD, a, k) == 0;
    assert forall k :: Total(EMPTY_SHARD, k) == 0;
  }

  /** Every run from empty shards is safe. */
  lemma {:induction false} RunIsSafe(cfg: Config, events: seq<Event>)
    requires Environment(cfg) && AllAllowed(cfg, events)
    ensures Safe(cfg, Run(cfg, Genesis(cfg), events))
  {
    hide Safe, Step, Genesis, Allowed;
    if events == [] {
      GenesisIsSafe(cfg);
    } else {
      var n := |events| - 1;
      RunIsSafe(cfg, events[..n]);
      StepIsSafe(cfg, Run(cfg, Genesis(cfg), events[..n]), events[n]);
    }
  }

  /** A world that some run from empty shards leads to. */
  ghost predicate Reachable(cfg: Config, w: World) {
    exists events :: AllAllowed(cfg, events) && Run(cfg, Genesis(cfg), events) == w
  }

  lemma ReachableIsSafe(cfg: Config, w: World)
    requires Environment(cfg) && Reachable(cfg, w)
    ensures Safe(cfg, w)
  {
    hide Run, Genesis, Safe;
    var events :| AllAllowed(cfg, events) && Run(cfg, Genesis(cfg), events) == w;
    RunIsSafe(cfg, events);
  }

  /** With the liquidity counter on: no record means no holders, and a counting record counts them exactly. */
  lemma LiquidityOverRuns(cfg: Config, w: World, j: nat, token: bytes, nonce: nat)
    requires Environment(cfg) && EraA(cfg) && Reachable(cfg, w) && j < |w.shards| && ValidToken(token) && nonce > 0
    ensures var s, k := w.shards[j], KeyOf(token, nonce);
            && (k !in s.system ==> Total(s, k) == 0)
            && (k in s.system && s.system[k].reserved != [] ==> s.system[k].value == Total(s, k))
  {
    hide Reachable, NetSafe, SendersRecorded, Total;
    ReachableIsSafe(cfg, w);
    ShardInv(cfg, w, j);
    assert IsNftKey(KeyOf(token, nonce));
    assert Backed(w.shards[j], KeyOf(token, nonce), 0);
  }

  /** A holder's shard always has the metadata, and the liquidity update of a debit that was covered never fails. */
  lemma AvailabilityOverRuns(cfg: Config, w: World, j: nat, a: Address, token: bytes, nonce: nat)
    requires Environment(cfg) && Reachable(cfg, w) && j < |w.shards| && ValidToken(token) && nonce > 0
    ensures var s, k := w.shards[j], KeyOf(token, nonce);
            Balance(s, a, k) > 0 ==> k in s.system && s.system[k].metadata.Some?
    ensures forall v: nat, short, ret :: v > 0 && Debit(cfg, w.shards[j], a, token, nonce, v, short, ret).Ok? ==>
              AddLiquidity(cfg, Debit(cfg, w.shards[j], a, token, nonce, v, short, ret).value.0, token, nonce,
                0 - v).Ok?
  {
    hide Reachable, NetSafe, SendersRecorded, Total, Debit, AddLiquidity;
    ReachableIsSafe(cfg, w);
    var s, k := w.shards[j], KeyOf(token, nonce);
    ShardInv(cfg, w, j);
    InvBasics(cfg, s);
    if Balance(s, a, k) > 0 {
      HolderHasRecord(cfg, s, a, token, nonce);
    }
    forall v: nat, short, ret | v > 0 && Debit(cfg, s, a, token, nonce, v, short, ret).Ok?
      ensures AddLiquidity(cfg, Debit(cfg, s, a, token, nonce, v, short, ret).value.0, token, nonce, 0 - v).Ok?
    {
      DebitIsCounted(cfg, s, a, token, nonce, v, short, ret);
    }
  }

  lemma DebitIsCounted(cfg: Config, s: ShardState, a: Address, token: bytes, nonce: nat, v: nat, short: Error,
      ret: bool)
    requires Storing(cfg) && Inv(cfg, s) && ValidToken(token) && nonce > 0 && v > 0 &&
      Debit(cfg, s, a, token, nonce, v, short, ret).Ok?
    ensures AddLiquidity(cfg, Debit(cfg, s, a, token, nonce, v, short, ret).value.0, token, nonce, 0 - v).Ok?
  {
    hide Debit;
    if cfg.flags.sendAlways {
      DebitedLiquiditySucceeds(cfg, s, a, token, nonce, v, short, ret);
    }
  }

  /** Without it: a flag for another shard means that the shard has the metadata, or that a message brings it. */
  lemma FlagsAreSoundOverRuns(cfg: Config, w: World, j: nat, d: nat, k: bytes)
    requires Environment(cfg) && EraB(cfg) && Reachable(cfg, w) && j < |w.shards| && d < |w.shards| && j != d
    ensures Flagged(w.shards[j], k, d) ==>
              (k in w.shards[d].system && w.shards[d].system[k].metadata.Some?) || k in BroughtOn(cfg, w.net, j, d)
  {
    hide Reachable, SendersRecorded, ChannelsSafe, Travels, BroughtOn;
    ReachableIsSafe(cfg, w);
    ShardInv(cfg, w, d);
    InvBasics(cfg, w.shards[d]);
    FlagsAreSound(cfg, w, j, d);
    assert Flagged(w.shards[j], k, d) ==> k in FlaggedFor(w.shards[j], d);
  }

  /** An amount that brings no metadata finds the record, in the shard or brought by an earlier item of its message. */
  lemma CompactItemsFindTheirRecord(cfg: Config, w: World, i: nat, its: seq<Item>, n: nat)
    requires Environment(cfg) && EraB(cfg) && Reachable(cfg, w)
    requires i < |w.net| && IsFirst(cfg, w.net, i) && cfg.shardOf(w.net[i].receiver) < |w.shards|
    requires its == ItemsIn(cfg, w.net[i]) && n < |its| && its[n].nonce > 0 && its[n].carried.value > 0
    ensures its[n].carried.metadata.Some? ||
      KeyOf(its[n].token, its[n].nonce) in w.shards[cfg.shardOf(w.net[i].receiver)].system.Keys + Brought(its[..n])
  {
    hide Reachable, Safe, ItemsIn, Brought, Deliverable;
    ReachableIsSafe(cfg, w);
    ArrivesDeliverable(cfg, w, i);
    DeliverableAtIndex(cfg, w.shards[cfg.shardOf(w.net[i].receiver)].system.Keys, its, n);
  }

  lemma {:induction false} DeliverableAtIndex(cfg: Config, known: set<bytes>, its: seq<Item>, n: nat)
    requires Deliverable(cfg, known, its) && n < |its|
    ensures Ready(cfg, known + Brought(its[..n]), its[n])
  {
    if n < |its| - 1 {
      DeliverableAtIndex(cfg, known, its[..|its| - 1], n);
      assert its[..|its| - 1][..n] == its[..n];
    }
  }

  // ---- conservation ----

  /** The books of a run: everything created, added and minted, less everything burned and wiped. */
  function Ledger(cfg: Config, events: seq<Event>, q: bytes): int {
    if events == [] then 0
    else
      var n := |events| - 1;
      var c := SuppliedBy(cfg, Run(cfg, Genesis(cfg), events[..n]), events[n]);
      Ledger(cfg, events[..n], q) + if q == c.key then c.amount else 0
  }

  ghost predicate AllFresh(cfg: Config, events: seq<Event>) {
    events == [] ||
    (var n := |events| - 1;
     AllFresh(cfg, events[..n]) && FreshEvent(cfg, Run(cfg, Genesis(cfg), events[..n]), events[n]))
  }

  lemma {:induction false} SumOfEmpty(shards: seq<ShardState>, q: bytes)
    requires forall j :: 0 <= j < |shards| ==> shards[j] == EMPTY_SHARD
    ensures SumShards(shards, q) == 0
  {
    if shards != [] {
      SumOfEmpty(shards[..|shards| - 1], q);
    }
  }

  /** Over every run with fresh create nonces, what is held and what is in flight is what the books say. */
  lemma {:induction false} Conservation(cfg: Config, events: seq<Event>, q: bytes)
    requires Environment(cfg) && AllAllowed(cfg, events) && AllFresh(cfg, events)
    ensures Everywhere(cfg, Run(cfg, Genesis(cfg), events), q) == Ledger(cfg, events, q)
  {
    hide Safe, Step, Allowed, Everywhere, SuppliedBy, FreshEvent;
    if events == [] {
      NothingAtGenesis(cfg, q);
    } else {
      var n := |events| - 1;
      Conservation(cfg, events[..n], q);
      RunIsSafe(cfg, events[..n]);
      StepIsSafe(cfg, Run(cfg, Genesis(cfg), events[..n]), events[n]);
    }
  }

  lemma NothingAtGenesis(cfg: Config, q: bytes)
    ensures Everywhere(cfg, Genesis(cfg), q) == 0
  {
    SumOfEmpty(Genesis(cfg).shards, q);
  }
}
