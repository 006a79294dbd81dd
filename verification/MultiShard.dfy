/**
 * Accounts that create in many shards: each is granted its own range of nonces at some time, counts on from the start
 * of it, and no two issue the same nonce.
 */
module MultiShard {
  import opened Bytes
  import opened Results
  import opened Wire
  import opened Tokens
  import opened Transfers
  import opened Supply
  import opened Roles
  import opened Handoff
  import opened Operations
  import opened Totals
  import opened Network
  import opened HandoffRuns

  // ---- what happens to one account ----

  /** An act that creates a token of the collection for account a. */
  predicate Creates(cfg: Config, token: bytes, w: Registry, act: Act, a: Address) {
    act.Make? &&
    var j := cfg.shardOf(act.call.caller);
    j < |w.shards| && Create(At(cfg, j), w.shards[j], act.call).Ok? &&
      PlanCreate(At(cfg, j), w.shards[j], act.call).Ok? &&
    var c := PlanCreate(At(cfg, j), w.shards[j], act.call).value;
    c.creator == a && c.token == token
  }

  /** A change of roles that names the multi-shard role: granting it and taking it back alike start a's range anew. */
  predicate Restarts(cfg: Config, token: bytes, w: Registry, act: Act, a: Address) {
    act.Grant? &&
    var j := cfg.shardOf(a);
    act.call.recipient == a && j < |w.shards| && SetRoles(At(cfg, j), w.shards[j], act.call, act.on).Ok? &&
      |act.call.args| >= 1 && act.call.args[0] == token && ROLE_NFT_CREATE_MULTI_SHARD in act.call.args[1..]
  }

  /** The nonces that one account is issued over a run, oldest first. */
  function IssuedTo(cfg: Config, token: bytes, w: Registry, acts: seq<Act>, a: Address): seq<nat> {
    if acts == [] then []
    else
      var n := |acts| - 1;
      var w1 := DoAll(cfg, token, w, acts[..n]);
      var before := IssuedTo(cfg, token, w, acts[..n], a);
      if Creates(cfg, token, w1, acts[n], a) then
        var j := cfg.shardOf(acts[n].call.caller);
        before + [PlanCreate(At(cfg, j), w1.shards[j], acts[n].call).value.nonce]
      else before
  }

  /** The account stood at the start of its range, or was given it during the run. */
  predicate HasBegun(cfg: Config, token: bytes, w: Registry, acts: seq<Act>, a: Address)
    requires a != []
  {
    if acts == [] then NonceOf(cfg, w, a, token) == StartNonce(a)
    else
      var n := |acts| - 1;
      HasBegun(cfg, token, w, acts[..n], a) || Restarts(cfg, token, DoAll(cfg, token, w, acts[..n]), acts[n], a)
  }

  /** The account creates only once it has begun, and no change of its multi-shard role follows its first create. */
  predicate BeginsOnce(cfg: Config, token: bytes, w: Registry, acts: seq<Act>, a: Address)
    requires a != []
  {
    acts == [] ||
    (var n := |acts| - 1;
     var w1 := DoAll(cfg, token, w, acts[..n]);
     && BeginsOnce(cfg, token, w, acts[..n], a)
     && (Creates(cfg, token, w1, acts[n], a) ==> HasBegun(cfg, token, w, acts[..n], a))
     && (Restarts(cfg, token, w1, acts[n], a) ==> IssuedTo(cfg, token, w, acts[..n], a) == []))
  }

  /** Creates happen in the creator's own shard, and the account neither hands the token on nor has it handed to it. */
  ghost predicate Unhanded(cfg: Config, token: bytes, w: Registry, act: Act, a: Address) {
    match act
    case Make(call) => Creator(call).Ok? ==> cfg.SameShard(Creator(call).value.0, call.caller)
    case Pass(call) => |call.args| == 2 && call.args[0] == token ==> call.recipient != a && call.args[1] != a
    case Arrive(i, _) => i < |w.mail| && IsAbout(w.mail[i], token) ==> w.mail[i].receiver != a
    case Grant(_, _) => true
    case Work(_, _) => true
  }

  ghost predicate AllUnhanded(cfg: Config, token: bytes, w: Registry, acts: seq<Act>, a: Address) {
    acts == [] ||
    (var n := |acts| - 1;
     AllUnhanded(cfg, token, w, acts[..n], a) && Unhanded(cfg, token, DoAll(cfg, token, w, acts[..n]), acts[n], a))
  }

  // ---- one act ----

  /** A change of roles, of whatever account and token, moves a's nonce exactly if it restarts a. */
  lemma GrantSetsStart(cfg: Config, token: bytes, w: Registry, call: Call, on: bool, a: Address)
    requires a != []
    ensures NonceOf(cfg, Do(cfg, token, w, Grant(call, on)), a, token)
            == if Restarts(cfg, token, w, Grant(call, on), a) then StartNonce(a) else NonceOf(cfg, w, a, token)
  {
    hide SetRoles, LatestNonce, StartNonce;
    var j := cfg.shardOf(call.recipient);
    if j < |w.shards| && SetRoles(At(cfg, j), w.shards[j], call, on).Ok? {
      GrantBooks(At(cfg, j), w.shards[j], call, on);
    }
  }

  lemma MakeMovesNonce(cfg: Config, token: bytes, w: Registry, call: Call, a: Address)
    requires Unhanded(cfg, token, w, Make(call), a)
    requires Creates(cfg, token, w, Make(call), a) ==> NonceOf(cfg, w, a, token) + 1 < U64
    ensures NonceOf(cfg, Do(cfg, token, w, Make(call)), a, token)
            == NonceOf(cfg, w, a, token) + if Creates(cfg, token, w, Make(call), a) then 1 else 0
    ensures Creates(cfg, token, w, Make(call), a) ==>
              PlanCreate(At(cfg, cfg.shardOf(call.caller)), w.shards[cfg.shardOf(call.caller)], call).value.nonce
              == NonceOf(cfg, w, a, token) + 1
  {
    hide Create, PlanCreate, Creator, LatestNonce;
    var j := cfg.shardOf(call.caller);
    if j < |w.shards| && Create(At(cfg, j), w.shards[j], call).Ok? {
      PlanIsByCreator(At(cfg, j), w.shards[j], call);
      CreateBooks(At(cfg, j), w.shards[j], call);
    }
  }

  /** Work, and hand-offs of other tokens or between other accounts, do not move the nonce. */
  lemma OthersKeepNonce(cfg: Config, token: bytes, w: Registry, act: Act, a: Address)
    requires Unhanded(cfg, token, w, act, a) && (act.Pass? || act.Arrive? || act.Work?)
    ensures NonceOf(cfg, Do(cfg, token, w, act), a, token) == NonceOf(cfg, w, a, token)
  {
    hide GiveUp, Apply, LatestNonce, CountIn, Content, IsAbout, ParseData, Receive;
    match act
    case Pass(call) =>
      var j := cfg.shardOf(call.recipient);
      if j < |w.shards| && GiveUp(At(cfg, j), w.shards[j], call).Ok? {
        GiveUpPosts(At(cfg, j), w.shards[j], call);
        GiveUpBooks(At(cfg, j), w.shards[j], call);
      }
    case Arrive(i, courier) =>
      if Do(cfg, token, w, act) != w {
        ArriveBooks(cfg, token, w, i, courier);
        AboutNames(token, w.mail[i]);
      }
    case Work(j, op) =>
      if j < |w.shards| && KeepsBooks(op) && Apply(At(cfg, j), w.shards[j], op).Ok? {
        WorkBooks(At(cfg, j), w.shards[j], op);
        SameBooksSameNonces(w.shards[j], Apply(At(cfg, j), w.shards[j], op).value);
      }
    case _ =>
  }

  lemma SameBooksSameNonces(s: ShardState, s': ShardState)
    requires SameBooks(s, s')
    ensures forall a, t :: LatestNonce(s', a, t) == LatestNonce(s, a, t)
  {
  }

  /** One act: a restart leads to the start of the range, a create to the next nonce, and nothing else moves it. */
  lemma OneAct(cfg: Config, token: bytes, w: Registry, act: Act, a: Address)
    requires a != [] && Unhanded(cfg, token, w, act, a)
    requires Creates(cfg, token, w, act, a) ==> NonceOf(cfg, w, a, token) + 1 < U64
    ensures NonceOf(cfg, Do(cfg, token, w, act), a, token)
            == if Restarts(cfg, token, w, act, a) then StartNonce(a)
               else NonceOf(cfg, w, a, token) + if Creates(cfg, token, w, act, a) then 1 else 0
    ensures Creates(cfg, token, w, act, a) ==>
              PlanCreate(At(cfg, cfg.shardOf(act.call.caller)), w.shards[cfg.shardOf(act.call.caller)],
                act.call).value.nonce == NonceOf(cfg, w, a, token) + 1
  {
    hide Do, NonceOf, PlanCreate, Create, SetRoles, Unhanded, StartNonce;
    match act
    case Make(call) => MakeMovesNonce(cfg, token, w, call, a);
    case Grant(call, on) => GrantSetsStart(cfg, token, w, call, on, a);
    case _ => OthersKeepNonce(cfg, token, w, act, a);
  }

  // ---- runs ----

  /** The role is granted or taken back at act k alone, and the account does not create before. */
  ghost predicate GrantedOnceAt(cfg: Config, token: bytes, w: Registry, acts: seq<Act>, a: Address, k: nat) {
    && (forall n :: 0 <= n < |acts| ==>
          (Restarts(cfg, token, DoAll(cfg, token, w, acts[..n]), acts[n], a) <==> n == k))
    && (forall n :: 0 <= n < |acts| && n < k ==> !Creates(cfg, token, DoAll(cfg, token, w, acts[..n]), acts[n], a))
  }

  /** An account that is granted its role once, and creates only afterwards, begins once. */
  lemma {:induction false} GrantedOnceBeginsOnce(cfg: Config, token: bytes, w: Registry, acts: seq<Act>, a: Address,
      k: nat)
    requires a != [] && GrantedOnceAt(cfg, token, w, acts, a, k)
    ensures BeginsOnce(cfg, token, w, acts, a)
    ensures |acts| <= k ==> IssuedTo(cfg, token, w, acts, a) == []
    ensures |acts| > k ==> HasBegun(cfg, token, w, acts, a)
  {
    hide Do, NonceOf, Creates, Restarts, PlanCreate, StartNonce;
    if acts != [] {
      var n := |acts| - 1;
      assert forall m :: 0 <= m < n ==> acts[..n][..m] == acts[..m] && acts[..n][m] == acts[m];
      GrantedOnceBeginsOnce(cfg, token, w, acts[..n], a, k);
      if n == k {
        GrantIsNoCreate(cfg, token, DoAll(cfg, token, w, acts[..n]), acts[n], a);
      }
    }
  }

  /** Over a run an account's nonces are the successors of the start of its range, in order. */
  lemma {:induction false} IssuedFromStart(cfg: Config, token: bytes, w: Registry, acts: seq<Act>, a: Address)
    requires a != [] && AllUnhanded(cfg, token, w, acts, a) && BeginsOnce(cfg, token, w, acts, a)
    requires |IssuedTo(cfg, token, w, acts, a)| < 0x100_0000_0000_0000
    ensures forall i :: 0 <= i < |IssuedTo(cfg, token, w, acts, a)| ==>
      IssuedTo(cfg, token, w, acts, a)[i] == StartNonce(a) + 1 + i
    ensures if HasBegun(cfg, token, w, acts, a)
      then NonceOf(cfg, DoAll(cfg, token, w, acts), a, token) == StartNonce(a) + |IssuedTo(cfg, token, w, acts, a)|
      else IssuedTo(cfg, token, w, acts, a) == []
  {
    hide Do, NonceOf, Creates, Restarts, PlanCreate, Unhanded, StartNonce;
    if acts != [] {
      var n := |acts| - 1;
      RangeFits(a);
      IssuedFromStart(cfg, token, w, acts[..n], a);
      if Restarts(cfg, token, DoAll(cfg, token, w, acts[..n]), acts[n], a) {
        GrantIsNoCreate(cfg, token, DoAll(cfg, token, w, acts[..n]), acts[n], a);
      }
      OneAct(cfg, token, DoAll(cfg, token, w, acts[..n]), acts[n], a);
    }
  }

  /**
   * Two such accounts with different last bytes never share a nonce and never leave 64 bits, for fewer than 2^56
   * creates each, whenever either is given its range and whatever roles others are given.
   */
  lemma MultiShardNoncesDisjoint(cfg: Config, token: bytes, w: Registry, acts: seq<Act>, a: Address, b: Address,
      xs: seq<nat>, ys: seq<nat>)
    requires a != [] && b != [] && a[|a| - 1] != b[|b| - 1]
    requires AllUnhanded(cfg, token, w, acts, a) && AllUnhanded(cfg, token, w, acts, b)
    requires BeginsOnce(cfg, token, w, acts, a) && BeginsOnce(cfg, token, w, acts, b)
    requires xs == IssuedTo(cfg, token, w, acts, a) && ys == IssuedTo(cfg, token, w, acts, b)
    requires |xs| < 0x100_0000_0000_0000 && |ys| < 0x100_0000_0000_0000
    ensures forall x :: x in xs ==> x !in ys && StartNonce(a) < x < U64
    ensures forall i, j :: 0 <= i < j < |xs| ==> xs[i] < xs[j]
  {
    hide *;
    IssuedFromStart(cfg, token, w, acts, a);
    IssuedFromStart(cfg, token, w, acts, b);
    ListsDisjoint(a, b, xs, ys);
  }

  /** A later change of the multi-shard role makes the next create repeat a nonce exactly if there was a create. */
  lemma RestartRepeats(cfg: Config, token: bytes, w: Registry, acts: seq<Act>, a: Address, restart: Act, make: Act)
    requires a != [] && AllUnhanded(cfg, token, w, acts, a) && BeginsOnce(cfg, token, w, acts, a)
    requires |IssuedTo(cfg, token, w, acts, a)| < 0x100_0000_0000_0000
    requires Restarts(cfg, token, DoAll(cfg, token, w, acts), restart, a)
    requires var w2 := Do(cfg, token, DoAll(cfg, token, w, acts), restart);
             Unhanded(cfg, token, w2, make, a) && Creates(cfg, token, w2, make, a)
    ensures var issued := IssuedTo(cfg, token, w, acts + [restart, make], a);
            |issued| == |IssuedTo(cfg, token, w, acts, a)| + 1 && issued[|issued| - 1] == StartNonce(a) + 1
    ensures IssuedTo(cfg, token, w, acts, a) != [] <==>
            var issued := IssuedTo(cfg, token, w, acts + [restart, make], a);
            exists i, j :: 0 <= i < j < |issued| && issued[i] == issued[j]
  {
    hide Do, DoAll, NonceOf, Restarts, Creates, IssuedTo, PlanCreate, Unhanded, StartNonce, AllUnhanded, BeginsOnce,
        HasBegun;
    RangeFits(a);
    IssuedFromStart(cfg, token, w, acts, a);
    var w1 := DoAll(cfg, token, w, acts);
    GrantIsNoCreate(cfg, token, w1, restart, a);
    OneAct(cfg, token, w1, restart, a);
    OneAct(cfg, token, Do(cfg, token, w1, restart), make, a);
    TwoMoreActs(cfg, token, w, acts, restart, make, a);
    var before, issued := IssuedTo(cfg, token, w, acts, a), IssuedTo(cfg, token, w, acts + [restart, make], a);
    assert issued == before + [StartNonce(a) + 1];
    if before != [] {
      assert issued[0] == issued[|before|];
    }
  }

  lemma TwoMoreActs(cfg: Config, token: bytes, w: Registry, acts: seq<Act>, first: Act, second: Act, a: Address)
    requires var w1 := DoAll(cfg, token, w, acts);
             !Creates(cfg, token, w1, first, a) && Creates(cfg, token, Do(cfg, token, w1, first), second, a)
    ensures var w2, j := Do(cfg, token, DoAll(cfg, token, w, acts), first), cfg.shardOf(second.call.caller);
            IssuedTo(cfg, token, w, acts + [first, second], a)
            == IssuedTo(cfg, token, w, acts, a) + [PlanCreate(At(cfg, j), w2.shards[j], second.call).value.nonce]
  {
    hide Do, Create, PlanCreate;
    assert (acts + [first, second])[..|acts| + 1] == acts + [first];
    assert (acts + [first])[..|acts|] == acts;
  }

  lemma GrantIsNoCreate(cfg: Config, token: bytes, w: Registry, act: Act, a: Address)
    requires Restarts(cfg, token, w, act, a)
    ensures !Creates(cfg, token, w, act, a) && Unhanded(cfg, token, w, act, a)
  {
  }

  lemma ListsDisjoint(a: Address, b: Address, xs: seq<nat>, ys: seq<nat>)
    requires a != [] && b != [] && a[|a| - 1] != b[|b| - 1]
    requires |xs| < 0x100_0000_0000_0000 && |ys| < 0x100_0000_0000_0000
    requires forall i :: 0 <= i < |xs| ==> xs[i] == StartNonce(a) + 1 + i
    requires forall i :: 0 <= i < |ys| ==> ys[i] == StartNonce(b) + 1 + i
    ensures forall x :: x in xs ==> x !in ys && StartNonce(a) < x < U64
  {
    hide StartNonce;
    RangeFits(a);
    forall i, j | 0 <= i < |xs| && 0 <= j < |ys|
      ensures xs[i] != ys[j]
    {
      MultiShardRangesDisjoint(a, b, i + 1, j + 1);
    }
  }

  lemma RangeFits(a: Address)
    requires a != []
    ensures StartNonce(a) + 0x100_0000_0000_0000 < U64
  {
    assert (U64 - 1) / 256 == 0xFF_FFFF_FFFF_FFFF;
  }
}
