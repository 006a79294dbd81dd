/** What a delivery does with the items of its message. */
module Deliveries {
  import opened Bytes
  import opened Results
  import opened Wire
  import opened Keys
  import opened Tokens
  import opened Storage
  import opened Transfers
  import opened Totals
  import opened Invariants
  import opened Messages
  import opened SentFlags
  import opened Network
  import opened Sends

  lemma MultiItems(cfg: Config, args: seq<bytes>, its: seq<Item>)
    requires ItemsOf(cfg, MULTI_TRANSFER, args) == Ok(its) && |args| >= 4
    ensures 1 + 3 * ReadUint64(args[0]) <= |args| && Reads(cfg, TriplesFrom(args, 1, ReadUint64(args[0])), its)
  {
  }

  lemma CreditAllSingle(cfg: Config, s: ShardState, snd: Address, dst: Address, it: Item, ret: bool)
    ensures CreditAll(cfg, s, snd, dst, [it], ret) == Credit(cfg, s, snd, dst, it, ret)
  {
    assert [it][..0] == [];
    assert CreditAll(cfg, s, snd, dst, [it][..0], ret) == Ok(s);
  }

  /** A successful delivery credits the items of its message, one after the other. */
  lemma DeliversItems(cfg: Config, s: ShardState, m: Msg, gas: nat, callType: CallType, payable: bool, its: seq<Item>)
    requires Legible(cfg, m.data, its) && DeliverAt(cfg, s, m, gas, callType, payable).Ok?
    ensures CreditAll(cfg, s, m.sender, m.receiver, its, m.ret) == DeliverAt(cfg, s, m, gas, callType, payable)
  {
    hide DeliverAll, CreditAll, Credit, AddToDestination, AddToBalance, TriplesFrom, ParseData, ItemOf;
    FunctionNames();
    var (function_, args) := ParseData(m.data).value;
    var call := Call(m.sender, m.receiver, 0, args, gas, m.ret, callType, payable);
    if function_ == MULTI_TRANSFER {
      MultiItems(cfg, args, its);
      DeliverAllIsCreditAll(cfg, s, m.sender, m.receiver, TriplesFrom(args, 1, ReadUint64(args[0])), its, m.ret);
    } else if function_ == NFT_TRANSFER {
      CreditAllSingle(cfg, s, m.sender, m.receiver, its[0], m.ret);
      NftCredit(cfg, s, call, its[0]);
    } else {
      CreditAllSingle(cfg, s, m.sender, m.receiver, its[0], m.ret);
      FungibleCredit(cfg, s, call, its[0]);
    }
  }

  lemma NftCredit(cfg: Config, s: ShardState, call: Call, it: Item)
    requires ItemsOf(cfg, NFT_TRANSFER, call.args) == Ok([it]) && NftTransferOnDestination(cfg, s, call).Ok?
    ensures Credit(cfg, s, call.caller, call.recipient, it, call.ret)
      == Ok(NftTransferOnDestination(cfg, s, call).value.0)
  {
    hide AddToDestination;
    FunctionNames();
    assert [it][0] == it;
  }

  lemma FungibleCredit(cfg: Config, s: ShardState, call: Call, it: Item)
    requires ItemsOf(cfg, DCT_TRANSFER, call.args) == Ok([it]) && FungibleTransfer(cfg, s, call, false, true).Ok?
    ensures Credit(cfg, s, call.caller, call.recipient, it, call.ret)
      == Ok(FungibleTransfer(cfg, s, call, false, true).value.0)
  {
    hide AddToBalance;
    FunctionNames();
    var s1 := FungibleSteps(cfg, s, call, false, true);
    assert [it][0] == it;
  }

  lemma {:induction false} DeliverableAmounts(cfg: Config, known: set<bytes>, its: seq<Item>)
    requires Deliverable(cfg, known, its)
    ensures forall i :: 0 <= i < |its| ==> its[i].carried.value >= 0
  {
    if its != [] {
      DeliverableAmounts(cfg, known, its[..|its| - 1]);
    }
  }

  /** The keys of a deliverable list are known or brought. */
  lemma {:induction false} DeliverableKeys(cfg: Config, known: set<bytes>, its: seq<Item>)
    requires Deliverable(cfg, known, its) && !cfg.flags.sendAlways
    ensures NftKeys(its) <= known + Brought(its)
  {
    if its != [] {
      var n := |its| - 1;
      DeliverableKeys(cfg, known, its[..n]);
      forall k | k in NftKeys(its)
        ensures k in known + Brought(its)
      {
        var i :| 0 <= i < |its| && NamesKey(its[i]) && k == KeyOf(its[i].token, its[i].nonce);
        if i < n {
          assert its[..n][i] == its[i];
          assert k in NftKeys(its[..n]);
        }
      }
    }
  }

  lemma {:induction false} BroughtAreNftKeys(its: seq<Item>)
    ensures Brought(its) <= NftKeys(its)
  {
    if its != [] {
      var n := |its| - 1;
      BroughtAreNftKeys(its[..n]);
      forall k | k in Brought(its)
        ensures k in NftKeys(its)
      {
        if k in Brought(its[..n]) {
          var i :| 0 <= i < n && NamesKey(its[..n][i]) && k == KeyOf(its[..n][i].token, its[..n][i].nonce);
          assert its[i] == its[..n][i];
        } else {
          assert k == KeyOf(its[n].token, its[n].nonce);
        }
      }
    }
  }

  /** A delivery that succeeds: the invariant, the sums, the records and the flags of the receiving shard. */
  lemma Delivered(cfg: Config, s: ShardState, m: Msg, gas: nat, callType: CallType, payable: bool, its: seq<Item>)
    requires Storing(cfg) && Inv(cfg, s) && Legible(cfg, m.data, its) && Deliverable(cfg, s.system.Keys, its)
    requires !cfg.SameShard(m.sender, m.receiver) && DeliverAt(cfg, s, m, gas, callType, payable).Ok?
    ensures var s' := DeliverAt(cfg, s, m, gas, callType, payable).value;
            && Inv(cfg, s')
            && (forall q :: Total(s', q) == Total(s, q) + Load(its, q))
            && Documents(cfg, s, s', Brought(its))
            && (!cfg.flags.sendAlways ==> NewFlags(cfg.self, s, s', cfg.shardOf(m.sender), Brought(its)))
  {
    hide DeliverAt, CreditAll, Inv, Deliverable, NewFlags;
    DeliversItems(cfg, s, m, gas, callType, payable, its);
    CreditAllInv(cfg, s, m.sender, m.receiver, its, m.ret);
    DeliverableAmounts(cfg, s.system.Keys, its);
    InvBasics(cfg, s);
    CreditAllEffect(cfg, s, m.sender, m.receiver, its, m.ret);
    if !cfg.flags.sendAlways {
      CreditAllFlags(cfg, s, m.sender, m.receiver, its, m.ret);
    }
  }

  /** A delivery that fails: nothing moves, and in era B the metadata stays. */
  lemma FailedDelivery(cfg: Config, s: ShardState, m: Msg, its: seq<Item>)
    requires Storing(cfg) && Inv(cfg, s) && Legible(cfg, m.data, its)
    requires cfg.self < cfg.numShards && cfg.shardOf(m.sender) < cfg.numShards
    requires cfg.Here(m.receiver) && !cfg.SameShard(m.sender, m.receiver)
    ensures var s' := OrSame(RecordFailed(cfg, s, m.sender, m.receiver, m.data), s);
            && Inv(cfg, s')
            && (forall q :: Total(s', q) == Total(s, q))
            && Documents(cfg, s, s', Brought(its))
            && (!cfg.flags.sendAlways ==> NewFlags(cfg.self, s, s', cfg.shardOf(m.sender), Brought(its)))
  {
    if !cfg.flags.sendAlways {
      hide RecordFailed, NewFlags;
      RecordFailedKeeps(cfg, s, m.sender, m.receiver, m.data, its);
      RecordFailedAccounts(cfg, s, m.sender, m.receiver, m.data);
      SameTotals(s, RecordFailed(cfg, s, m.sender, m.receiver, m.data).value);
    }
  }

  lemma {:induction false} RecordTriplesAccounts(cfg: Config, s: ShardState, sndShard: nat, ts: seq<Triple>)
    requires RecordTriples(cfg, s, sndShard, ts).Ok?
    ensures RecordTriples(cfg, s, sndShard, ts).value.accounts == s.accounts
  {
    if ts != [] {
      RecordTriplesAccounts(cfg, s, sndShard, ts[..|ts| - 1]);
    }
  }

  lemma RecordFailedAccounts(cfg: Config, s: ShardState, snd: Address, rcv: Address, data: bytes)
    requires RecordFailed(cfg, s, snd, rcv, data).Ok?
    ensures RecordFailed(cfg, s, snd, rcv, data).value.accounts == s.accounts
  {
    var sndShard := cfg.shardOf(snd);
    if ParseData(data).Ok? {
      var (function_, args) := ParseData(data).value;
      if |args| >= 4 && 1 + 3 * ReadUint64(args[0]) <= |args| &&
        RecordTriples(cfg, s, sndShard, TriplesFrom(args, 1, ReadUint64(args[0]))).Ok? {
        RecordTriplesAccounts(cfg, s, sndShard, TriplesFrom(args, 1, ReadUint64(args[0])));
      }
    }
  }
}
