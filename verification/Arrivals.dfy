/** Which messages are executed: those whose receiver accepts the payment and has nothing locked against an item. */
module Arrivals {
  import opened Bytes
  import opened Results
  import opened Wire
  import opened Keys
  import opened Tokens
  import opened Storage
  import opened Transfers
  import opened Totals
  import opened Moves
  import opened Liquidity
  import opened Availability
  import opened Invariants
  import opened Messages
  import opened Network
  import opened Sends
  import opened Deliveries
  import opened NetworkSafe
  import opened Runs
  import opened Locks
  import opened Acceptance
  import opened TransferAcceptance

  /** Nothing that an item is for is locked for the account, as it is before the delivery. */
  predicate TakesItem(cfg: Config, s: ShardState, dst: Address, it: Item, ret: bool) {
    if it.nonce > 0 then Takes(cfg, s, dst, it.token, it.nonce, it.carried.properties, ret)
    else MayChange(cfg, s, dst, it.token, it.carried.value, ret)
  }

  predicate TakesAll(cfg: Config, s: ShardState, dst: Address, its: seq<Item>, ret: bool) {
    forall i :: 0 <= i < |its| ==> TakesItem(cfg, s, dst, its[i], ret)
  }

  /** A shard and a sender elsewhere, each with its place among the flags. */
  ghost predicate FromElsewhere(cfg: Config, snd: Address, dst: Address) {
    cfg.GoodShards() && cfg.self < cfg.numShards && cfg.Here(dst) && !cfg.SameShard(snd, dst)
  }

  // ---- one item ----

  lemma CreditTaken(cfg: Config, s: ShardState, snd: Address, dst: Address, it: Item, ret: bool)
    requires Storing(cfg) && Inv(cfg, s) && FromElsewhere(cfg, snd, dst)
    requires Ready(cfg, s.system.Keys, it) && Furnished(cfg, it)
    ensures Credit(cfg, s, snd, dst, it, ret).Ok? <==> TakesItem(cfg, s, dst, it, ret)
  {
    hide AddToBalance, SaveToken, AddLiquidity, Unlocked, MayChange, KeyOf;
    var t, token, nonce := it.carried, it.token, it.nonce;
    if nonce > 0 {
      var sum := t.(value := t.value + Read(cfg, s, dst, token, nonce).0.value);
      SaveAccepted(cfg, s, snd, dst, token, nonce, sum, false, ret);
      if SaveToken(cfg, s, snd, dst, token, nonce, sum, false, ret).Ok? {
        SaveRecords(cfg, s, snd, dst, token, nonce, sum, false, ret);
        if cfg.flags.sendAlways {
          CountIsTotal(s, token, nonce);
        }
        CountAccepted(cfg, SaveToken(cfg, s, snd, dst, token, nonce, sum, false, ret).value, token, nonce, t.value);
      }
    } else {
      BalanceAccepted(cfg, s, dst, token, t.value, ret);
    }
  }

  /** What a credit leaves open or locked is what was open or locked before. */
  ghost predicate AsOpen(cfg: Config, s: ShardState, s': ShardState, dst: Address, k: bytes, ret: bool) {
    && s'.settings == s.settings && (forall q :: q != k ==> Entry(s', dst, q) == Entry(s, dst, q))
    && (ret || dst == cfg.systemContract || FrozenAt(s', dst, k) == FrozenAt(s, dst, k))
  }

  lemma NftCreditLeaves(cfg: Config, s: ShardState, snd: Address, dst: Address, t: DCToken, token: bytes, nonce: nat,
      ret: bool)
    requires FromElsewhere(cfg, snd, dst) && AddToDestination(cfg, s, snd, dst, t, token, nonce, ret).Ok?
    ensures AsOpen(cfg, s, AddToDestination(cfg, s, snd, dst, t, token, nonce, ret).value.0, dst, KeyOf(token, nonce),
              ret)
  {
    hide CheckProperties, AddLiquidity, IsFrozen;
    var sum := t.(value := t.value + Read(cfg, s, dst, token, nonce).0.value);
    var s1 := SaveToken(cfg, s, snd, dst, token, nonce, sum, false, ret).value;
    LiquidityLeaves(cfg, s1, token, nonce, t.value);
    SavedLeaves(cfg, s, snd, dst, token, nonce, sum, ret);
    CreditAccepted(cfg, s, snd, dst, t, token, nonce, ret);
  }

  lemma LiquidityLeaves(cfg: Config, s: ShardState, token: bytes, nonce: nat, v: int)
    requires AddLiquidity(cfg, s, token, nonce, v).Ok?
    ensures var s' := AddLiquidity(cfg, s, token, nonce, v).value;
            s'.accounts == s.accounts && s'.settings == s.settings
  {
  }

  lemma SavedLeaves(cfg: Config, s: ShardState, snd: Address, dst: Address, token: bytes, nonce: nat, t: DCToken,
      ret: bool)
    requires SaveToken(cfg, s, snd, dst, token, nonce, t, false, ret).Ok?
    ensures var s', k := SaveToken(cfg, s, snd, dst, token, nonce, t, false, ret).value, KeyOf(token, nonce);
            && s'.settings == s.settings && (forall q :: q != k ==> Entry(s', dst, q) == Entry(s, dst, q))
            && (Entry(s', dst, k).Some? ==> Entry(s', dst, k).value.properties == t.properties)
  {
    hide CheckProperties;
  }

  /** A plain token stays plain. */
  lemma PlainCreditLeaves(cfg: Config, s: ShardState, dst: Address, k: bytes, v: int, ret: bool)
    requires AddToBalance(cfg, s, dst, k, v, ret).Ok?
    ensures var s' := AddToBalance(cfg, s, dst, k, v, ret).value;
            && AsOpen(cfg, s, s', dst, k, ret) && FrozenAt(s', dst, k) == FrozenAt(s, dst, k)
            && (Entry(s, dst, k).Some? ==> Entry(s, dst, k).value.kind == FUNGIBLE)
            && (Entry(s', dst, k).Some? ==> Entry(s', dst, k).value.kind == FUNGIBLE)
  {
  }

  /** A credit changes no answer about another item, nor about the same one. */
  lemma CreditKeepsTaking(cfg: Config, s: ShardState, snd: Address, dst: Address, it: Item, ret: bool, other: Item)
    requires NonNegative(s) && ValidToken(it.token) && it.carried.value >= 0
    requires FromElsewhere(cfg, snd, dst)
    requires ValidToken(other.token) && other.carried.value >= 0 && Credit(cfg, s, snd, dst, it, ret).Ok?
    ensures TakesItem(cfg, Credit(cfg, s, snd, dst, it, ret).value, dst, other, ret) <==>
              TakesItem(cfg, s, dst, other, ret)
  {
    hide AddToDestination, AddToBalance, NonNegative, KeyOf;
    var s', k := Credit(cfg, s, snd, dst, it, ret).value, KeyOf(it.token, it.nonce);
    PlainKey(it.token);
    PlainKey(other.token);
    CreditEffect(cfg, s, snd, dst, it, ret);
    if it.nonce > 0 {
      assert IsNftKey(k);
      NftCreditLeaves(cfg, s, snd, dst, it.carried, it.token, it.nonce, ret);
    } else {
      PlainCreditLeaves(cfg, s, dst, it.token, it.carried.value, ret);
    }
    if other.nonce > 0 {
      assert IsNftKey(KeyOf(other.token, other.nonce));
    } else {
      NeverNegative(s, dst, other.token);
      NeverNegative(s', dst, other.token);
    }
  }

  lemma NeverNegative(s: ShardState, a: Address, q: bytes)
    requires NonNegative(s)
    ensures Balance(s, a, q) >= 0
  {
  }

  // ---- whole messages ----

  /** A list is credited exactly if each of its items is taken, as things are before the first. */
  lemma {:induction false} CreditAllTaken(cfg: Config, s: ShardState, snd: Address, dst: Address, its: seq<Item>,
      ret: bool)
    requires Storing(cfg) && Inv(cfg, s) && FromElsewhere(cfg, snd, dst)
    requires Deliverable(cfg, s.system.Keys, its) && AllFurnished(cfg, its)
    ensures CreditAll(cfg, s, snd, dst, its, ret).Ok? <==> TakesAll(cfg, s, dst, its, ret)
    ensures CreditAll(cfg, s, snd, dst, its, ret).Ok? ==>
              forall it: Item :: ValidToken(it.token) && it.carried.value >= 0 ==>
                (TakesItem(cfg, CreditAll(cfg, s, snd, dst, its, ret).value, dst, it, ret) <==>
                 TakesItem(cfg, s, dst, it, ret))
  {
    hide Credit, Inv, Furnished, TakesItem, ValidToken, KeyOf;
    if its != [] {
      var n := |its| - 1;
      CreditAllTaken(cfg, s, snd, dst, its[..n], ret);
      TakesMore(cfg, s, dst, its, ret);
      if CreditAll(cfg, s, snd, dst, its[..n], ret).Ok? {
        var s1 := CreditAll(cfg, s, snd, dst, its[..n], ret).value;
        CreditAllInv(cfg, s, snd, dst, its[..n], ret);
        InvBasics(cfg, s1);
        ReadyMonotone(cfg, s.system.Keys + Brought(its[..n]), s1.system.Keys, its[n]);
        CreditTaken(cfg, s1, snd, dst, its[n], ret);
        if Credit(cfg, s1, snd, dst, its[n], ret).Ok? {
          forall it: Item | ValidToken(it.token) && it.carried.value >= 0
            ensures TakesItem(cfg, Credit(cfg, s1, snd, dst, its[n], ret).value, dst, it, ret) <==>
                      TakesItem(cfg, s, dst, it, ret)
          {
            CreditKeepsTaking(cfg, s1, snd, dst, its[n], ret, it);
          }
        }
      }
    }
  }

  lemma TakesMore(cfg: Config, s: ShardState, dst: Address, its: seq<Item>, ret: bool)
    requires its != []
    ensures TakesAll(cfg, s, dst, its, ret) <==>
              TakesAll(cfg, s, dst, its[..|its| - 1], ret) && TakesItem(cfg, s, dst, its[|its| - 1], ret)
  {
    hide TakesItem;
    forall i | 0 <= i < |its| - 1
      ensures its[..|its| - 1][i] == its[i]
    {
    }
  }

  /** A message is executed exactly if the payment is accepted and its items are credited. */
  lemma ExecutedIfCredited(cfg: Config, s: ShardState, m: Msg, gas: nat, callType: CallType, payable: bool,
      its: seq<Item>)
    requires FromElsewhere(cfg, m.sender, m.receiver) && Legible(cfg, m.data, its) && AllFurnished(cfg, its)
    ensures DeliverAt(cfg, s, m, gas, callType, payable).Ok? <==>
              payable && CreditAll(cfg, s, m.sender, m.receiver, its, m.ret).Ok?
  {
    hide DeliverAll, CreditAll, Credit, AddToDestination, AddToBalance, TriplesFrom, ParseData, ItemOf, MayChange,
        FungibleTransfer, ReadUint64, UnpackSingle, FromBytes;
    FunctionNames();
    var (function_, args) := ParseData(m.data).value;
    var call := Call(m.sender, m.receiver, 0, args, gas, m.ret, callType, payable);
    if function_ == MULTI_TRANSFER {
      MultiItems(cfg, args, its);
      MultiDeliveryAccepted(cfg, s, call);
      DeliverAllIsCreditAll(cfg, s, m.sender, m.receiver, TriplesFrom(args, 1, ReadUint64(args[0])), its, m.ret);
    } else {
      CreditAllSingle(cfg, s, m.sender, m.receiver, its[0], m.ret);
      assert its == [its[0]];
      if function_ == NFT_TRANSFER {
        NftExecuted(cfg, s, call, its[0]);
      } else {
        FungibleExecuted(cfg, s, call, its[0]);
      }
    }
  }

  lemma NftExecuted(cfg: Config, s: ShardState, call: Call, it: Item)
    requires ItemsOf(cfg, NFT_TRANSFER, call.args) == Ok([it]) && call.callValue == 0
    ensures NftTransferOnDestination(cfg, s, call).Ok? <==>
              call.payable && Credit(cfg, s, call.caller, call.recipient, it, call.ret).Ok?
  {
    hide AddToDestination;
    FunctionNames();
    assert [it][0] == it;
  }

  lemma FungibleExecuted(cfg: Config, s: ShardState, call: Call, it: Item)
    requires FromElsewhere(cfg, call.caller, call.recipient) && Furnished(cfg, it) && call.callValue == 0
    requires ItemsOf(cfg, DCT_TRANSFER, call.args) == Ok([it])
    ensures FungibleTransfer(cfg, s, call, false, true).Ok? <==>
              call.payable && Credit(cfg, s, call.caller, call.recipient, it, call.ret).Ok?
  {
    hide AddToBalance, FungibleTransfer, MayChange;
    FunctionNames();
    assert [it][0] == it;
    FungibleAccepted(cfg, s, call, false, true);
    BalanceAccepted(cfg, s, call.recipient, it.token, it.carried.value, call.ret);
  }

  // ---- runs ----

  /**
   * Over every run, the oldest message of a channel is executed if and only if its receiver accepts the payment and
   * none of its items is locked for it. It never fails for a record, a count or a balance.
   */
  lemma DeliveredExactly(cfg: Config, w: World, i: nat, gas: nat, callType: CallType, payable: bool)
    requires Environment(cfg) && Reachable(cfg, w) && i < |w.net| && IsFirst(cfg, w.net, i)
    requires cfg.shardOf(w.net[i].receiver) < |w.shards|
    ensures var m, d := w.net[i], cfg.shardOf(w.net[i].receiver);
            DeliverAt(At(cfg, d), w.shards[d], m, gas, callType, payable).Ok? <==>
              payable && TakesAll(At(cfg, d), w.shards[d], m.receiver, ItemsIn(cfg, m), m.ret)
  {
    hide Reachable, NetSafe, SendersRecorded, ItemsIn, Items, DeliverAt, Deliverable, TakesAll, CreditAll, Inv,
        AllFurnished;
    ReachableIsSafe(cfg, w);
    var m, d := w.net[i], cfg.shardOf(w.net[i].receiver);
    var s, its := w.shards[d], ItemsIn(cfg, m);
    ArrivesDeliverable(cfg, w, i);
    DeliverableAt(cfg, d, s.system.Keys, its);
    ItemsAt(cfg, d, m.data);
    ShardInv(cfg, w, d);
    InvAt(cfg, d, s);
    EnvironmentAt(cfg, d);
    FurnishedAt(cfg, d, its);
    CreditAllTaken(At(cfg, d), s, m.sender, m.receiver, its, m.ret);
    ExecutedIfCredited(At(cfg, d), s, m, gas, callType, payable, its);
  }

  /** A message that comes back is credited whatever is locked, where its plain tokens are not kept as NFTs. */
  lemma ReturnedExactly(cfg: Config, w: World, i: nat, gas: nat, callType: CallType)
    requires Environment(cfg) && Reachable(cfg, w) && i < |w.net| && IsFirst(cfg, w.net, i) && w.net[i].ret
    requires cfg.shardOf(w.net[i].receiver) < |w.shards|
    ensures var m, d := w.net[i], cfg.shardOf(w.net[i].receiver);
            DeliverAt(At(cfg, d), w.shards[d], m, gas, callType, true).Ok? <==>
              forall it :: it in ItemsIn(cfg, m) && it.nonce == 0 && Entry(w.shards[d], m.receiver, it.token).Some? ==>
                Entry(w.shards[d], m.receiver, it.token).value.kind == FUNGIBLE
  {
    hide Reachable, NetSafe, SendersRecorded, ItemsIn, DeliverAt, Inv, IsFirst, Environment, Entry, Unlocked, IsFrozen;
    DeliveredExactly(cfg, w, i, gas, callType, true);
    ReachableIsSafe(cfg, w);
    var m, d := w.net[i], cfg.shardOf(w.net[i].receiver);
    var s, its := w.shards[d], ItemsIn(cfg, m);
    ArrivesDeliverable(cfg, w, i);
    ShardInv(cfg, w, d);
    InvBasics(cfg, s);
    forall n | 0 <= n < |its|
      ensures TakesItem(At(cfg, d), s, m.receiver, its[n], true) <==>
                (its[n].nonce == 0 && Entry(s, m.receiver, its[n].token).Some? ==>
                   Entry(s, m.receiver, its[n].token).value.kind == FUNGIBLE)
    {
      ReturnTaken(At(cfg, d), s, m.receiver, its[n]);
    }
  }

  lemma ReturnTaken(cfg: Config, s: ShardState, dst: Address, it: Item)
    requires NonNegative(s) && (it.nonce == 0 ==> it.carried.value > 0)
    ensures TakesItem(cfg, s, dst, it, true) <==>
              (it.nonce == 0 && Entry(s, dst, it.token).Some? ==> Entry(s, dst, it.token).value.kind == FUNGIBLE)
  {
    assert Balance(s, dst, it.token) >= 0;
  }
}
