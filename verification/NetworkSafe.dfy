/**
 * What every run keeps: each shard's invariant, a readable and deliverable network, and flags that never promise too
 * much.
 */
module NetworkSafe {
  import opened Bytes
  import opened Results
  import opened Wire
  import opened Keys
  import opened Tokens
  import opened Transfers
  import opened Availability
  import opened Invariants
  import opened OperationsKeep
  import opened Messages
  import opened SentFlags
  import opened Network
  import opened Sends
  import opened Deliveries

  function ItemsIn(cfg: Config, m: Msg): seq<Item> {
    match Items(cfg, m.data)
    case Ok(its) => its
    case Err(_) => []
  }

  /** The keys of the metadata in flight from shard j to shard d. */
  function BroughtOn(cfg: Config, net: seq<Msg>, j: nat, d: nat): set<bytes> {
    if net == [] then {}
    else
      var m := net[|net| - 1];
      BroughtOn(cfg, net[..|net| - 1], j, d) + if OnChannel(cfg, m, j, d) then Brought(ItemsIn(cfg, m)) else {}
  }

  /**
   * Every message from j to d will find the records it needs, if the ones before it are delivered or recorded first.
   */
  predicate ChannelReady(cfg: Config, known: set<bytes>, net: seq<Msg>, j: nat, d: nat) {
    net == [] ||
    (var m := net[|net| - 1];
     ChannelReady(cfg, known, net[..|net| - 1], j, d) &&
     (OnChannel(cfg, m, j, d) ==> Deliverable(cfg, known + BroughtOn(cfg, net[..|net| - 1], j, d), ItemsIn(cfg, m))))
  }

  /** A message is readable and furnished, and crosses from one shard to another. */
  ghost predicate Travels(cfg: Config, m: Msg) {
    Legible(cfg, m.data, ItemsIn(cfg, m)) && AllFurnished(cfg, ItemsIn(cfg, m)) &&
    cfg.shardOf(m.sender) < cfg.numShards && cfg.shardOf(m.sender) != cfg.shardOf(m.receiver)
  }

  ghost predicate ShardsSafe(cfg: Config, shards: seq<ShardState>) {
    |shards| == cfg.numShards && forall j :: 0 <= j < |shards| ==> Inv(cfg, shards[j])
  }

  ghost predicate ChannelsSafe(cfg: Config, w: World) {
    forall j, d: nat :: d < |w.shards| && j != d ==> ChannelReady(cfg, w.shards[d].system.Keys, w.net, j, d)
  }

  /** Where shard j's flags say that d has the metadata, d has it or a message from j to d carries it. */
  ghost predicate FlagsSound(cfg: Config, w: World) {
    forall j: nat, d: nat :: j < |w.shards| && d < |w.shards| && j != d ==>
      FlaggedFor(w.shards[j], d) <= w.shards[d].system.Keys + BroughtOn(cfg, w.net, j, d)
  }

  /** The sender's shard has the record of everything that is in flight. */
  ghost predicate SendersRecorded(cfg: Config, w: World) {
    forall i :: 0 <= i < |w.net| && cfg.shardOf(w.net[i].sender) < |w.shards| ==>
      NftKeys(ItemsIn(cfg, w.net[i])) <= w.shards[cfg.shardOf(w.net[i].sender)].system.Keys
  }

  ghost predicate NetSafe(cfg: Config, w: World) {
    (forall i :: 0 <= i < |w.net| ==> Travels(cfg, w.net[i])) && ChannelsSafe(cfg, w) &&
    (!cfg.flags.sendAlways ==> FlagsSound(cfg, w))
  }

  ghost predicate Safe(cfg: Config, w: World) {
    ShardsSafe(cfg, w.shards) && NetSafe(cfg, w) && (!cfg.flags.sendAlways ==> SendersRecorded(cfg, w))
  }

  // ---- channels ----

  lemma {:induction false} ChannelMonotone(cfg: Config, known: set<bytes>, more: set<bytes>, net: seq<Msg>, j: nat,
      d: nat)
    requires ChannelReady(cfg, known, net, j, d) && (!cfg.flags.sendAlways ==> known <= more)
    ensures ChannelReady(cfg, more, net, j, d)
  {
    if net != [] {
      var n := |net| - 1;
      ChannelMonotone(cfg, known, more, net[..n], j, d);
      if OnChannel(cfg, net[n], j, d) {
        DeliverableMonotone(cfg, known + BroughtOn(cfg, net[..n], j, d), more + BroughtOn(cfg, net[..n], j, d),
          ItemsIn(cfg, net[n]));
      }
    }
  }

  /** A message may go once everything it brings is recorded: nothing behind it misses anything. */
  lemma {:induction false} ChannelRemove(cfg: Config, known: set<bytes>, net: seq<Msg>, i: nat, j: nat, d: nat)
    requires i < |net| && ChannelReady(cfg, known, net, j, d)
    requires !cfg.flags.sendAlways && OnChannel(cfg, net[i], j, d) ==> Brought(ItemsIn(cfg, net[i])) <= known
    ensures ChannelReady(cfg, known, Remove(net, i), j, d)
    ensures !cfg.flags.sendAlways ==> BroughtOn(cfg, net, j, d) <= known + BroughtOn(cfg, Remove(net, i), j, d)
  {
    hide OnChannel, ItemsIn, Brought, Deliverable;
    var n := |net| - 1;
    var net' := Remove(net, i);
    if i == n {
      assert net' == net[..n];
    } else {
      assert net'[..n - 1] == Remove(net[..n], i) && net'[n - 1] == net[n];
      ChannelRemove(cfg, known, net[..n], i, j, d);
      if OnChannel(cfg, net[n], j, d) {
        DeliverableMonotone(cfg, known + BroughtOn(cfg, net[..n], j, d), known + BroughtOn(cfg, net'[..n - 1], j, d),
          ItemsIn(cfg, net[n]));
      }
    }
  }

  /** The oldest message of a channel finds everything it needs at its receiver. */
  lemma {:induction false} FirstIsDeliverable(cfg: Config, known: set<bytes>, net: seq<Msg>, i: nat, j: nat, d: nat)
    requires i < |net| && ChannelReady(cfg, known, net, j, d) && OnChannel(cfg, net[i], j, d)
    requires forall p :: 0 <= p < i ==> !OnChannel(cfg, net[p], j, d)
    ensures Deliverable(cfg, known, ItemsIn(cfg, net[i]))
  {
    var n := |net| - 1;
    if i == n {
      NothingBrought(cfg, net[..n], j, d);
      assert known + {} == known;
    } else {
      FirstIsDeliverable(cfg, known, net[..n], i, j, d);
    }
  }

  lemma {:induction false} NothingBrought(cfg: Config, net: seq<Msg>, j: nat, d: nat)
    requires forall p :: 0 <= p < |net| ==> !OnChannel(cfg, net[p], j, d)
    ensures BroughtOn(cfg, net, j, d) == {}
  {
    if net != [] {
      NothingBrought(cfg, net[..|net| - 1], j, d);
    }
  }

  lemma SnocChannel(cfg: Config, net: seq<Msg>, m: Msg, j: nat, d: nat)
    ensures BroughtOn(cfg, net + [m], j, d)
      == BroughtOn(cfg, net, j, d) + if OnChannel(cfg, m, j, d) then Brought(ItemsIn(cfg, m)) else {}
    ensures forall known :: ChannelReady(cfg, known, net + [m], j, d) <==>
              ChannelReady(cfg, known, net, j, d) &&
              (OnChannel(cfg, m, j, d) ==> Deliverable(cfg, known + BroughtOn(cfg, net, j, d), ItemsIn(cfg, m)))
  {
    assert (net + [m])[..|net|] == net;
  }

  // ---- the three changes a step is made of ----

  /** A shard may change if it loses no record, and its new flags are for keys that shard x has or is about to get. */
  lemma UpdateSafe(cfg: Config, w: World, j: nat, s': ShardState, x: nat, keys: set<bytes>)
    requires NetSafe(cfg, w) && j < |w.shards|
    requires !cfg.flags.sendAlways ==> KeepsRecords(w.shards[j], s') && NewFlags(j, w.shards[j], s', x, keys)
    requires !cfg.flags.sendAlways && x < |w.shards| && x != j ==>
      keys <= w.shards[x].system.Keys + BroughtOn(cfg, w.net, j, x)
    ensures NetSafe(cfg, w.(shards := w.shards[j := s']))
  {
    var w' := w.(shards := w.shards[j := s']);
    forall i: nat, d: nat | d < |w.shards| && i != d
      ensures ChannelReady(cfg, w'.shards[d].system.Keys, w.net, i, d)
    {
      ChannelMonotone(cfg, w.shards[d].system.Keys, w'.shards[d].system.Keys, w.net, i, d);
    }
    if !cfg.flags.sendAlways {
      forall i: nat, d: nat | i < |w.shards| && d < |w.shards| && i != d
        ensures FlaggedFor(w'.shards[i], d) <= w'.shards[d].system.Keys + BroughtOn(cfg, w.net, i, d)
      {
        assert FlaggedFor(w.shards[i], d) <= w.shards[d].system.Keys + BroughtOn(cfg, w.net, i, d);
      }
    }
  }

  /** A message may be posted if it finds what it needs once those before it have arrived. */
  lemma PostSafe(cfg: Config, w: World, m: Msg)
    requires NetSafe(cfg, w) && Travels(cfg, m)
    requires var j, d := cfg.shardOf(m.sender), cfg.shardOf(m.receiver);
             d < |w.shards| ==> Deliverable(cfg, w.shards[d].system.Keys + BroughtOn(cfg, w.net, j, d), ItemsIn(cfg, m))
    ensures NetSafe(cfg, w.(net := w.net + [m]))
  {
    var w' := w.(net := w.net + [m]);
    forall i: nat, d: nat | d < |w.shards| && i != d
      ensures ChannelReady(cfg, w.shards[d].system.Keys, w'.net, i, d)
    {
      SnocChannel(cfg, w.net, m, i, d);
    }
    if !cfg.flags.sendAlways {
      forall i: nat, d: nat | i < |w.shards| && d < |w.shards| && i != d
        ensures FlaggedFor(w.shards[i], d) <= w.shards[d].system.Keys + BroughtOn(cfg, w'.net, i, d)
      {
        SnocChannel(cfg, w.net, m, i, d);
      }
    }
  }

  /** A message may be taken off the network once its receiver has a record for all it brought. */
  lemma TakeSafe(cfg: Config, w: World, i: nat)
    requires NetSafe(cfg, w) && i < |w.net| && cfg.shardOf(w.net[i].receiver) < |w.shards|
    requires !cfg.flags.sendAlways ==>
      Brought(ItemsIn(cfg, w.net[i])) <= w.shards[cfg.shardOf(w.net[i].receiver)].system.Keys
    ensures NetSafe(cfg, w.(net := Remove(w.net, i)))
  {
    var w' := w.(net := Remove(w.net, i));
    forall j: nat, d: nat | d < |w.shards| && j != d
      ensures ChannelReady(cfg, w.shards[d].system.Keys, w'.net, j, d)
    {
      ChannelRemove(cfg, w.shards[d].system.Keys, w.net, i, j, d);
    }
    if !cfg.flags.sendAlways {
      forall j: nat, d: nat | j < |w.shards| && d < |w.shards| && j != d
        ensures FlaggedFor(w.shards[j], d) <= w.shards[d].system.Keys + BroughtOn(cfg, w'.net, j, d)
      {
        ChannelRemove(cfg, w.shards[d].system.Keys, w.net, i, j, d);
      }
    }
  }

  // ---- the steps ----

  /** The assumptions about the marshaller, the shard coordinator and the flags. */
  ghost predicate Environment(cfg: Config) {
    cfg.GoodMarshaller() && cfg.GoodShards() && Storing(cfg)
  }

  /** What is asked of an event; a delivery needs nothing. */
  ghost predicate Allowed(cfg: Config, e: Event) {
    match e
    case Local(j, op) => Permitted(At(cfg, j), op) && ActsHere(At(cfg, j), op)
    case Send(kind, call) => PermittedSend(kind, call)
    case Deliver(_, _, _, _) => true
  }

  lemma ItemAt(cfg: Config, j: nat, t: Triple)
    ensures ItemOf(At(cfg, j), t) == ItemOf(cfg, t)
  {
  }

  lemma ItemsAt(cfg: Config, j: nat, data: bytes)
    ensures Items(At(cfg, j), data) == Items(cfg, data)
  {
    hide ParseData, TriplesFrom, ItemOf;
    forall t
      ensures ItemOf(At(cfg, j), t) == ItemOf(cfg, t)
    {
      ItemAt(cfg, j, t);
    }
    var mine, theirs := Items(cfg, data), Items(At(cfg, j), data);
    if mine.Ok? {
      assert theirs.Ok? && theirs.value == mine.value;
    }
  }

  lemma {:induction false} DeliverableAt(cfg: Config, j: nat, known: set<bytes>, its: seq<Item>)
    ensures Deliverable(At(cfg, j), known, its) <==> Deliverable(cfg, known, its)
  {
    if its != [] {
      DeliverableAt(cfg, j, known, its[..|its| - 1]);
    }
  }

  /** A shard that keeps to itself. */
  lemma OwnStepSafe(cfg: Config, w: World, j: nat, s': ShardState)
    requires Safe(cfg, w) && j < |w.shards| && Inv(cfg, s')
    requires !cfg.flags.sendAlways ==> OwnFlags(At(cfg, j), w.shards[j], s')
    ensures Safe(cfg, w.(shards := w.shards[j := s']))
  {
    hide Inv, NetSafe, NewFlags, NftKeys;
    UpdateSafe(cfg, w, j, s', j, {});
    if !cfg.flags.sendAlways {
      StillRecorded(cfg, w, j, s');
    }
  }

  lemma StillRecorded(cfg: Config, w: World, j: nat, s': ShardState)
    requires SendersRecorded(cfg, w) && j < |w.shards| && KeepsRecords(w.shards[j], s')
    ensures SendersRecorded(cfg, w.(shards := w.shards[j := s']))
  {
    hide NftKeys, ItemsIn;
  }

  lemma FurnishedAt(cfg: Config, j: nat, its: seq<Item>)
    ensures AllFurnished(At(cfg, j), its) <==> AllFurnished(cfg, its)
  {
  }

  /** What a shard posts can travel. */
  lemma PostedTravels(cfg: Config, j: nat, s: ShardState, s': ShardState, m: Msg, its: seq<Item>)
    requires Sent(At(cfg, j), s, s', m, its) && j < cfg.numShards
    ensures Travels(cfg, m) && ItemsIn(cfg, m) == its && cfg.shardOf(m.sender) == j != cfg.shardOf(m.receiver)
  {
    hide AllFurnished, Vouched, Load, Items, ParseData;
    ItemsAt(cfg, j, m.data);
    FurnishedAt(cfg, j, its);
  }

  /** What a shard posts finds what it needs, once what is before it on its channel has arrived. */
  lemma PostedFinds(cfg: Config, w: World, j: nat, s': ShardState, m: Msg, its: seq<Item>)
    requires NetSafe(cfg, w) && j < |w.shards| && Sent(At(cfg, j), w.shards[j], s', m, its)
    requires |w.shards| == cfg.numShards < METACHAIN
    ensures var d := cfg.shardOf(m.receiver);
            d < |w.shards| ==> Deliverable(cfg, w.shards[d].system.Keys + BroughtOn(cfg, w.net, j, d), its)
  {
    hide NetSafe, NewFlags, NftKeys, Deliverable, Brought, FlaggedFor, Legible, AllFurnished, Load, BroughtOn;
    var d := cfg.shardOf(m.receiver);
    if d < |w.shards| {
      DeliverableAt(cfg, j, FlaggedFor(w.shards[j], d), its);
      if !cfg.flags.sendAlways {
        FlagsAreSound(cfg, w, j, d);
      }
      DeliverableMonotone(cfg, FlaggedFor(w.shards[j], d), w.shards[d].system.Keys + BroughtOn(cfg, w.net, j, d), its);
    }
  }

  lemma PostedRecorded(cfg: Config, w: World, j: nat, s': ShardState, m: Msg)
    requires SendersRecorded(cfg, w) && j < |w.shards| && KeepsRecords(w.shards[j], s')
    requires cfg.shardOf(m.sender) == j && NftKeys(ItemsIn(cfg, m)) <= s'.system.Keys
    ensures SendersRecorded(cfg, World(w.shards[j := s'], w.net + [m]))
  {
    hide NftKeys, ItemsIn;
    StillRecorded(cfg, w, j, s');
  }

  /** A shard that posts a message to another one. */
  lemma PostedSafe(cfg: Config, w: World, j: nat, s': ShardState, m: Msg, its: seq<Item>)
    requires Environment(cfg) && Safe(cfg, w) && j < |w.shards| && Inv(cfg, s') &&
      Sent(At(cfg, j), w.shards[j], s', m, its)
    ensures Safe(cfg, World(w.shards[j := s'], w.net + [m])) && ItemsIn(cfg, m) == its
  {
    hide Inv, NetSafe, NewFlags, NftKeys, Deliverable, Brought, FlaggedFor, Travels, ItemsIn, Legible, AllFurnished,
        Load, SendersRecorded, KeepsRecords;
    PostedTravels(cfg, j, w.shards[j], s', m, its);
    PostedFinds(cfg, w, j, s', m, its);
    PostSafe(cfg, w, m);
    SnocChannel(cfg, w.net, m, j, cfg.shardOf(m.receiver));
    UpdateSafe(cfg, w.(net := w.net + [m]), j, s', cfg.shardOf(m.receiver), Brought(its));
    if !cfg.flags.sendAlways {
      PostedRecorded(cfg, w, j, s', m);
    }
  }

  lemma FlagsAreSound(cfg: Config, w: World, j: nat, d: nat)
    requires NetSafe(cfg, w) && !cfg.flags.sendAlways && j < |w.shards| && d < |w.shards| && j != d
    ensures FlaggedFor(w.shards[j], d) <= w.shards[d].system.Keys + BroughtOn(cfg, w.net, j, d)
  {
  }

  lemma ArrivesDeliverable(cfg: Config, w: World, i: nat)
    requires Safe(cfg, w) && i < |w.net| && IsFirst(cfg, w.net, i) && cfg.shardOf(w.net[i].receiver) < |w.shards|
    ensures Travels(cfg, w.net[i])
    ensures Deliverable(cfg, w.shards[cfg.shardOf(w.net[i].receiver)].system.Keys, ItemsIn(cfg, w.net[i]))
  {
    var j, d := cfg.shardOf(w.net[i].sender), cfg.shardOf(w.net[i].receiver);
    assert Travels(cfg, w.net[i]);
    FirstIsDeliverable(cfg, w.shards[d].system.Keys, w.net, i, j, d);
  }

  /** A shard that has taken a message off the network, delivered or recorded. */
  lemma TakenSafe(cfg: Config, w: World, i: nat, s': ShardState)
    requires Safe(cfg, w) && i < |w.net| && Travels(cfg, w.net[i])
    requires var d := cfg.shardOf(w.net[i].receiver);
             && d < |w.shards| && Inv(cfg, s') && Documents(cfg, w.shards[d], s', Brought(ItemsIn(cfg, w.net[i])))
             && (!cfg.flags.sendAlways ==>
               NewFlags(d, w.shards[d], s', cfg.shardOf(w.net[i].sender), Brought(ItemsIn(cfg, w.net[i]))))
    ensures Safe(cfg, World(w.shards[cfg.shardOf(w.net[i].receiver) := s'], Remove(w.net, i)))
  {
    hide Inv, NetSafe, NewFlags, NftKeys, Brought, ItemsIn;
    var m := w.net[i];
    var j, d := cfg.shardOf(m.sender), cfg.shardOf(m.receiver);
    var w1 := w.(shards := w.shards[d := s']);
    BroughtAreNftKeys(ItemsIn(cfg, m));
    UpdateSafe(cfg, w, d, s', j, Brought(ItemsIn(cfg, m)));
    TakeSafe(cfg, w1, i);
    if !cfg.flags.sendAlways {
      StillRecorded(cfg, w, d, s');
      assert forall p :: 0 <= p < |Remove(w.net, i)| ==> Remove(w.net, i)[p] == w.net[if p < i then p else p + 1];
    }
  }

  /** A message that comes back finds its records where it started. */
  lemma ReturnedSafe(cfg: Config, w: World, m: Msg, known: set<bytes>)
    requires Safe(cfg, w) && Travels(cfg, m) && cfg.shardOf(m.receiver) < |w.shards| &&
      Deliverable(cfg, known, ItemsIn(cfg, m))
    requires !cfg.flags.sendAlways ==> NftKeys(ItemsIn(cfg, m)) <= w.shards[cfg.shardOf(m.sender)].system.Keys
    requires !cfg.flags.sendAlways ==> NftKeys(ItemsIn(cfg, m)) <= w.shards[cfg.shardOf(m.receiver)].system.Keys
    ensures Safe(cfg, w.(net := w.net + [Msg(m.receiver, m.sender, m.data, true)]))
  {
    hide Inv, NetSafe, NftKeys, Deliverable, Items;
    var back := Msg(m.receiver, m.sender, m.data, true);
    var j, d := cfg.shardOf(m.sender), cfg.shardOf(m.receiver);
    var have := w.shards[j].system.Keys + BroughtOn(cfg, w.net, d, j);
    assert ItemsIn(cfg, back) == ItemsIn(cfg, m);
    DeliverableWhereRecorded(cfg, known, have, ItemsIn(cfg, m));
    PostSafe(cfg, w, back);
  }

  lemma {:induction false} DeliverableWhereRecorded(cfg: Config, known: set<bytes>, have: set<bytes>, its: seq<Item>)
    requires Deliverable(cfg, known, its) && (!cfg.flags.sendAlways ==> NftKeys(its) <= have)
    ensures Deliverable(cfg, have, its)
  {
    if its != [] {
      var n := |its| - 1;
      forall k | k in NftKeys(its[..n])
        ensures k in NftKeys(its)
      {
        var i :| 0 <= i < n && NamesKey(its[..n][i]) && k == KeyOf(its[..n][i].token, its[..n][i].nonce);
        assert its[i] == its[..n][i];
      }
      DeliverableWhereRecorded(cfg, known, have, its[..n]);
      assert NamesKey(its[n]) ==> KeyOf(its[n].token, its[n].nonce) in NftKeys(its);
    }
  }
}
