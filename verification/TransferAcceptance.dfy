/** Which transfers are accepted: the exact condition, on the call and on the state it finds. */
module TransferAcceptance {
  import opened Bytes
  import opened Results
  import opened Keys
  import opened Tokens
  import opened Storage
  import opened Transfers
  import opened Totals
  import opened Moves
  import opened Liquidity
  import opened Availability
  import opened Invariants
  import opened Messages
  import opened SentFlags
  import opened Sends
  import opened Locks
  import opened Limits
  import opened NetworkSafe
  import opened Compact
  import opened Acceptance

  /** A limited token has a sender or a receiver that may move it; a returned call is not asked. */
  ghost predicate Movable(cfg: Config, s: ShardState, token: bytes, snd: Address, dst: Address, sndHere: bool,
      dstHere: bool, ret: bool) {
    ret || !sndHere || !SettingsOf(s, token).limitedTransfer || MayMove(cfg, s, token, snd, dst, sndHere, dstHere)
  }

  lemma LimitAccepted(cfg: Config, s: ShardState, token: bytes, snd: Address, dst: Address, sndHere: bool,
      dstHere: bool, ret: bool)
    ensures CheckLimited(cfg, s, token, snd, dst, sndHere, dstHere, ret).Ok? <==>
              Movable(cfg, s, token, snd, dst, sndHere, dstHere, ret)
  {
  }

  lemma SameRulesMovable(cfg: Config, s: ShardState, s': ShardState, token: bytes, snd: Address, dst: Address,
      dstHere: bool, ret: bool)
    requires SameRules(s, s')
    ensures Movable(cfg, s', token, snd, dst, true, dstHere, ret) <==>
              Movable(cfg, s, token, snd, dst, true, dstHere, ret)
  {
    hide MayMove;
    SameRulesMayMove(cfg, s, s', token, snd, dst, dstHere);
  }

  /** The metachain receives tokens only if that is switched on. */
  predicate Addressable(cfg: Config, dst: Address) {
    cfg.shardOf(dst) != METACHAIN || cfg.flags.transferToMeta
  }

  // ---- fungible tokens ----

  /** A fungible transfer is accepted exactly if each side that is here accepts its half. */
  lemma FungibleAccepted(cfg: Config, s: ShardState, call: Call, sndHere: bool, dstHere: bool)
    ensures FungibleTransfer(cfg, s, call, sndHere, dstHere).Ok? <==>
              && call.callValue == 0 && |call.args| >= 2 && FromBytes(call.args[1]) > 0
              && Addressable(cfg, call.recipient)
              && Movable(cfg, s, call.args[0], call.caller, call.recipient, sndHere, dstHere, call.ret)
              && (sndHere ==>
                  call.gasProvided >= cfg.costs.dctTransfer &&
                  MayChange(cfg, s, call.caller, call.args[0], -(FromBytes(call.args[1]) as int), call.ret))
              && (dstHere ==>
                  call.payable && MayChange(cfg, s, call.recipient, call.args[0], FromBytes(call.args[1]), call.ret))
  {
    hide AddToBalance, FromBytes, CheckLimited, Movable, MayChange;
    if |call.args| >= 2 {
      var token, v: int := call.args[0], FromBytes(call.args[1]);
      LimitAccepted(cfg, s, token, call.caller, call.recipient, sndHere, dstHere, call.ret);
      if sndHere {
        BalanceAccepted(cfg, s, call.caller, token, -v, call.ret);
      }
      var s1 := if sndHere then AddToBalance(cfg, s, call.caller, token, -v, call.ret) else Ok(s);
      if s1.Ok? {
        BalanceAccepted(cfg, s1.value, call.recipient, token, v, call.ret);
        if sndHere {
          StillMayChange(cfg, s, call.caller, token, -v, call.recipient, v, call.ret);
        }
      }
    }
  }

  lemma StillMayChange(cfg: Config, s: ShardState, a: Address, k: bytes, u: int, b: Address, v: int, ret: bool)
    requires AddToBalance(cfg, s, a, k, u, ret).Ok? && (a == b ==> u <= 0 <= v)
    ensures MayChange(cfg, AddToBalance(cfg, s, a, k, u, ret).value, b, k, v, ret) <==> MayChange(cfg, s, b, k, v, ret)
  {
  }

  // ---- NFTs ----

  /** A destination in this shard takes what the sender's entry is marked with. */
  predicate Takes(cfg: Config, s: ShardState, dst: Address, token: bytes, nonce: nat, properties: bytes, ret: bool) {
    (ret || dst == cfg.systemContract ||
      (!IsFrozen(PropertiesOf(s, dst, KeyOf(token, nonce))) && !SettingsOf(s, token).paused)) &&
    Unlocked(cfg, s, dst, token, nonce, properties, ret)
  }

  lemma CreditAccepted(cfg: Config, s: ShardState, snd: Address, dst: Address, t: DCToken, token: bytes, nonce: nat,
      ret: bool)
    requires cfg.self < cfg.numShards && (cfg.shardOf(snd) < cfg.numShards || cfg.shardOf(snd) == METACHAIN)
    ensures AddToDestination(cfg, s, snd, dst, t, token, nonce, ret).Ok? ==>
              Takes(cfg, s, dst, token, nonce, t.properties, ret)
    ensures cfg.SameShard(snd, dst) && Takes(cfg, s, dst, token, nonce, t.properties, ret) ==>
              AddToDestination(cfg, s, snd, dst, t, token, nonce, ret).Ok?
  {
    hide SaveToken, AddLiquidity, Unlocked;
    var current := Read(cfg, s, dst, token, nonce).0;
    SaveAccepted(cfg, s, snd, dst, token, nonce, t.(value := t.value + current.value), false, ret);
  }

  /** The sender has the amount, and may send it. */
  predicate MaySend(cfg: Config, s: ShardState, snd: Address, token: bytes, nonce: nat, v: nat, ret: bool) {
    var k := KeyOf(token, nonce);
    Entry(s, snd, k).Some? && v <= Balance(s, snd, k) &&
    Unlocked(cfg, s, snd, token, nonce, PropertiesOf(s, snd, k), ret)
  }

  /** A debit leaves what the other side of the transfer depends on: the rules, and the other accounts. */
  lemma DebitLeaves(cfg: Config, s: ShardState, snd: Address, token: bytes, nonce: nat, v: nat, short: Error, ret: bool)
    requires NonNegative(s) && Debit(cfg, s, snd, token, nonce, v, short, ret).Ok?
    ensures var (s1, sent) := Debit(cfg, s, snd, token, nonce, v, short, ret).value;
            && SameRules(s, s1) && (forall b, q :: b != snd ==> Entry(s1, b, q) == Entry(s, b, q))
            && sent.value == v && sent.properties == PropertiesOf(s, snd, KeyOf(token, nonce))
            && sent == Read(cfg, s, snd, token, nonce).0.(value := v)
  {
    hide SaveToken, Read, KeyOf, SameRules;
    var t := ReadOnSender(cfg, s, snd, token, nonce).value;
    ReadAccepted(cfg, s, snd, token, nonce);
    DebitKeepsRules(cfg, s, snd, token, nonce, v, short, ret);
    SaveTouchesOne(cfg, s, snd, snd, token, nonce, t.(value := t.value - v), false, ret);
  }

  lemma OthersTake(cfg: Config, s: ShardState, s1: ShardState, snd: Address, dst: Address, token: bytes, nonce: nat,
      properties: bytes, ret: bool)
    requires SameRules(s, s1) && (forall b, q :: b != snd ==> Entry(s1, b, q) == Entry(s, b, q)) && dst != snd
    ensures Takes(cfg, s1, dst, token, nonce, properties, ret) <==>
              Takes(cfg, s, dst, token, nonce, properties, ret)
  {
  }

  /** A covered debit can be counted down. */
  lemma CoveredIsCountable(cfg: Config, s: ShardState, snd: Address, token: bytes, nonce: nat, v: nat, short: Error,
      ret: bool)
    requires Storing(cfg) && Inv(cfg, s) && ValidToken(token) && (cfg.flags.sendAlways ==> v > 0)
    requires Debit(cfg, s, snd, token, nonce, v, short, ret).Ok?
    ensures AddLiquidity(cfg, Debit(cfg, s, snd, token, nonce, v, short, ret).value.0, token, nonce, 0 - v).Ok?
  {
    hide Debit;
    if cfg.flags.sendAlways && nonce > 0 {
      DebitedLiquiditySucceeds(cfg, s, snd, token, nonce, v, short, ret);
    }
  }

  lemma HandAccepted(cfg: Config, s: ShardState, snd: Address, dst: Address, token: bytes, nonce: nat, v: nat,
      short: Error, ret: bool)
    requires Storing(cfg) && Inv(cfg, s) && ValidToken(token) && Located(cfg, snd) && snd != dst
    requires (cfg.flags.sendAlways ==> v > 0) && Debit(cfg, s, snd, token, nonce, v, short, ret).Ok?
    ensures var (s1, sent) := Debit(cfg, s, snd, token, nonce, v, short, ret).value;
            Hand(cfg, s1, snd, dst, token, nonce, sent, ret).Ok? <==>
              (cfg.Here(dst) ==> Takes(cfg, s, dst, token, nonce, PropertiesOf(s, snd, KeyOf(token, nonce)), ret))
  {
    hide Debit, AddToDestination, AddLiquidity, Inv, Takes, Entry;
    var (s1, sent) := Debit(cfg, s, snd, token, nonce, v, short, ret).value;
    InvBasics(cfg, s);
    DebitLeaves(cfg, s, snd, token, nonce, v, short, ret);
    CoveredIsCountable(cfg, s, snd, token, nonce, v, short, ret);
    OthersTake(cfg, s, s1, snd, dst, token, nonce, sent.properties, ret);
    CreditAccepted(cfg, s1, snd, dst, sent, token, nonce, ret);
  }

  /** One transfer of a list is accepted exactly if the sender may send it, it may move, and a destination takes it. */
  lemma TransferOneAccepted(cfg: Config, s: ShardState, snd: Address, dst: Address, t: Triple, ret: bool)
    requires Storing(cfg) && Inv(cfg, s) && ValidToken(t.token) && Located(cfg, snd) && snd != dst
    ensures TransferOne(cfg, s, snd, dst, t, ret).Ok? <==>
              && FromBytes(t.payload) > 0 && MaySend(cfg, s, snd, t.token, t.nonce, FromBytes(t.payload), ret)
              && Movable(cfg, s, t.token, snd, dst, true, cfg.Here(dst), ret)
              && (cfg.Here(dst) ==>
                  Takes(cfg, s, dst, t.token, t.nonce, PropertiesOf(s, snd, KeyOf(t.token, t.nonce)), ret))
  {
    hide Debit, Hand, CheckLimited, Inv, Takes, FromBytes, Movable, Unlocked, Entry;
    var v := FromBytes(t.payload);
    InvBasics(cfg, s);
    DebitAccepted(cfg, s, snd, t.token, t.nonce, v, InsufficientQuantityDCT, ret);
    if v > 0 && Debit(cfg, s, snd, t.token, t.nonce, v, InsufficientQuantityDCT, ret).Ok? {
      var s1 := Debit(cfg, s, snd, t.token, t.nonce, v, InsufficientQuantityDCT, ret).value.0;
      DebitLeaves(cfg, s, snd, t.token, t.nonce, v, InsufficientQuantityDCT, ret);
      LimitAccepted(cfg, s1, t.token, snd, dst, true, cfg.Here(dst), ret);
      SameRulesMovable(cfg, s, s1, t.token, snd, dst, cfg.Here(dst), ret);
      HandAccepted(cfg, s, snd, dst, t.token, t.nonce, v, InsufficientQuantityDCT, ret);
    }
  }

  /** A list is accepted exactly if each of its transfers is, in the state that those before it leave. */
  lemma {:induction false} TransferAllAccepted(cfg: Config, s: ShardState, snd: Address, dst: Address, ts: seq<Triple>,
      ret: bool)
    ensures TransferAll(cfg, s, snd, dst, ts, ret).Ok? <==>
              forall n :: 0 <= n < |ts| ==>
                TransferAll(cfg, s, snd, dst, ts[..n], ret).Ok? &&
                TransferOne(cfg, TransferAll(cfg, s, snd, dst, ts[..n], ret).value.0, snd, dst, ts[n], ret).Ok?
  {
    hide TransferOne, TransferAll;
    if ts == [] {
      NothingTransferred(cfg, s, snd, dst, ret);
    } else {
      var m := |ts| - 1;
      var front := ts[..m];
      TransferAllAccepted(cfg, s, snd, dst, front, ret);
      OneMoreTransfer(cfg, s, snd, dst, ts, ret);
      forall n | 0 <= n < m
        ensures front[..n] == ts[..n] && front[n] == ts[n]
      {
      }
    }
  }

  lemma NothingTransferred(cfg: Config, s: ShardState, snd: Address, dst: Address, ret: bool)
    ensures TransferAll(cfg, s, snd, dst, [], ret) == Ok((s, []))
  {
  }

  lemma OneMoreTransfer(cfg: Config, s: ShardState, snd: Address, dst: Address, ts: seq<Triple>, ret: bool)
    requires ts != []
    ensures var front := TransferAll(cfg, s, snd, dst, ts[..|ts| - 1], ret);
            TransferAll(cfg, s, snd, dst, ts, ret).Ok? <==>
              front.Ok? && TransferOne(cfg, front.value.0, snd, dst, ts[|ts| - 1], ret).Ok?
  {
    hide TransferOne;
  }

  /** The tokens behind a single transfer's message: copied where the amount does not travel bare. */
  predicate CopiesToken(cfg: Config, s: ShardState, dst: Address, k: bytes, v: int) {
    v == 1 || !(cfg.Here(dst) || (!cfg.flags.sendAlways && Knows(cfg, s, dst, k)))
  }

  /** A single NFT transfer is accepted exactly under these conditions. */
  ghost predicate MaySendNft(cfg: Config, s: ShardState, call: Call) {
    && call.callValue == 0 && |call.args| >= 4
    && var token, nonce, v, dst := call.args[0], ReadUint64(call.args[1]), FromBytes(call.args[2]), call.args[3];
    var k := KeyOf(token, nonce);
    var left := v + if cfg.Here(dst) then Balance(s, dst, k) else 0;
    && |dst| == |call.caller| && dst != call.caller && Addressable(cfg, dst)
    && call.gasProvided >= cfg.costs.nftTransfer
    && nonce > 0 && (cfg.flags.checkTransfer ==> v > 0) && MaySend(cfg, s, call.caller, token, nonce, v, call.ret)
    && Movable(cfg, s, token, call.caller, dst, true, cfg.Here(dst), call.ret)
    && (cfg.Here(dst) ==>
        call.payable && Takes(cfg, s, dst, token, nonce, PropertiesOf(s, call.caller, k), call.ret))
    && (CopiesToken(cfg, s, dst, k, left) ==>
        Times(|cfg.marshal(Read(cfg, s, call.caller, token, nonce).0.(value := left))|, cfg.costs.dataCopyPerByte)
          <= call.gasProvided - cfg.costs.nftTransfer)
  }

  /** What a send asks whether its metadata was sent, and the flags that a debit and a hand leave. */
  lemma SentAccepted(cfg: Config, s: ShardState, token: bytes, nonce: nat, dst: Address)
    requires cfg.flags.saveToSystem && cfg.GoodShards() && nonce > 0
    ensures WasAlreadySent(cfg, s, token, nonce, dst).Ok?
    ensures WasAlreadySent(cfg, s, token, nonce, dst).value.1 <==>
              cfg.Here(dst) || (!cfg.flags.sendAlways && Knows(cfg, s, dst, KeyOf(token, nonce)))
  {
    hide KeyOf;
    assert cfg.shardOf(dst) < cfg.numShards || cfg.shardOf(dst) == METACHAIN;
  }

  lemma PackAccepted(cfg: Config, s: ShardState, t: DCToken, gas: nat)
    ensures Pack(cfg, s, t, gas).Ok? <==> Times(|cfg.marshal(t)|, cfg.costs.dataCopyPerByte) <= gas
  {
    hide Times;
  }

  /** The flags for another shard are the same after both halves of a transfer. */
  lemma HandedKnows(cfg: Config, s: ShardState, snd: Address, dst: Address, t: Triple, v: nat, ret: bool)
    requires EraB(cfg) && Available(s) && ValidToken(t.token) && t.nonce > 0 && v == FromBytes(t.payload)
    requires cfg.Here(snd) && !cfg.Here(dst) && Debit(cfg, s, snd, t.token, t.nonce, v, InvalidNFTQuantity, ret).Ok?
    ensures var (s1, sent) := Debit(cfg, s, snd, t.token, t.nonce, v, InvalidNFTQuantity, ret).value;
            Hand(cfg, s1, snd, dst, t.token, t.nonce, sent, ret).Ok? ==>
              (Knows(cfg, Hand(cfg, s1, snd, dst, t.token, t.nonce, sent, ret).value.0, dst, KeyOf(t.token, t.nonce))
               <==> Knows(cfg, s, dst, KeyOf(t.token, t.nonce)))
  {
    hide Debit, Hand, Knows, KeyOf, Available;
    var (s1, sent) := Debit(cfg, s, snd, t.token, t.nonce, v, InvalidNFTQuantity, ret).value;
    SingleDebitFar(cfg, s, snd, dst, t, v, ret);
    if Hand(cfg, s1, snd, dst, t.token, t.nonce, sent, ret).Ok? {
      HandFarKeepsSystem(cfg, s1, snd, dst, t.token, t.nonce, sent, ret);
    }
  }

  /** What both halves of a single transfer leave: the rules, and the token to be packed. */
  lemma HandLeaves(cfg: Config, s: ShardState, snd: Address, dst: Address, token: bytes, nonce: nat, v: nat, ret: bool)
    requires NonNegative(s) && snd != dst && Debit(cfg, s, snd, token, nonce, v, InvalidNFTQuantity, ret).Ok?
    requires var (s1, sent) := Debit(cfg, s, snd, token, nonce, v, InvalidNFTQuantity, ret).value;
             Hand(cfg, s1, snd, dst, token, nonce, sent, ret).Ok?
    ensures var (s1, sent) := Debit(cfg, s, snd, token, nonce, v, InvalidNFTQuantity, ret).value;
            var (s2, left) := Hand(cfg, s1, snd, dst, token, nonce, sent, ret).value;
            && SameRules(s, s2)
            && left == Read(cfg, s, snd, token, nonce).0.(value :=
                 v + if cfg.Here(dst) then Balance(s, dst, KeyOf(token, nonce)) else 0)
  {
    hide Debit, Hand, Read, KeyOf, SameRules, Balance, Total;
    var (s1, sent) := Debit(cfg, s, snd, token, nonce, v, InvalidNFTQuantity, ret).value;
    DebitEffect(cfg, s, snd, token, nonce, v, InvalidNFTQuantity, ret);
    DebitLeaves(cfg, s, snd, token, nonce, v, InvalidNFTQuantity, ret);
    HandKeepsRules(cfg, s1, snd, dst, token, nonce, sent, ret);
    SameRulesTrans(s, s1, Hand(cfg, s1, snd, dst, token, nonce, sent, ret).value.0);
    HandReturns(cfg, s1, snd, dst, token, nonce, sent, ret);
  }

  lemma HandReturns(cfg: Config, s: ShardState, snd: Address, dst: Address, token: bytes, nonce: nat, t: DCToken,
      ret: bool)
    requires NonNegative(s) && t.value >= 0 && Hand(cfg, s, snd, dst, token, nonce, t, ret).Ok?
    ensures Hand(cfg, s, snd, dst, token, nonce, t, ret).value.1
      == t.(value := t.value + if cfg.Here(dst) then Balance(s, dst, KeyOf(token, nonce)) else 0)
  {
    hide AddToDestination, AddLiquidity;
    if cfg.Here(dst) {
      AddToDestinationEffect(cfg, s, snd, dst, t, token, nonce, ret);
    }
  }

  lemma NftTransferAccepted(cfg: Config, s: ShardState, call: Call)
    requires Environment(cfg) && Inv(cfg, s) && Located(cfg, call.caller)
    requires |call.args| > 0 ==> ValidToken(call.args[0])
    ensures NftTransferOnSender(cfg, s, call).Ok? <==> MaySendNft(cfg, s, call)
  {
    hide Debit, Hand, CheckLimited, Inv, Takes, FromBytes, ReadUint64, Movable, Unlocked, Entry, WasAlreadySent, Pack,
        Read, KeyOf, Times, Emit, Knows, Environment, Available, Balance;
    InvBasics(cfg, s);
    EnvironmentParts(cfg);
    if |call.args| >= 4 && call.callValue == 0 {
      var token, nonce, v, dst := call.args[0], ReadUint64(call.args[1]), FromBytes(call.args[2]), call.args[3];
      ReadAccepted(cfg, s, call.caller, token, nonce);
      DebitAccepted(cfg, s, call.caller, token, nonce, v, InvalidNFTQuantity, call.ret);
      if nonce > 0 && (cfg.flags.checkTransfer ==> v > 0) && dst != call.caller &&
        Debit(cfg, s, call.caller, token, nonce, v, InvalidNFTQuantity, call.ret).Ok? {
        HandAccepted(cfg, s, call.caller, dst, token, nonce, v, InvalidNFTQuantity, call.ret);
        var (s1, sent) := Debit(cfg, s, call.caller, token, nonce, v, InvalidNFTQuantity, call.ret).value;
        if Hand(cfg, s1, call.caller, dst, token, nonce, sent, call.ret).Ok? {
          NftTail(cfg, s, call);
        }
      }
    }
  }

  lemma EnvironmentParts(cfg: Config)
    requires Environment(cfg)
    ensures Storing(cfg) && cfg.GoodShards() && cfg.GoodMarshaller()
  {
  }

  /** After both halves only the transfer role, and the gas of a copy, are left to check. */
  lemma NftTail(cfg: Config, s: ShardState, call: Call)
    requires Environment(cfg) && Inv(cfg, s) && cfg.Here(call.caller) && |call.args| >= 4 && ValidToken(call.args[0])
    requires ReadUint64(call.args[1]) > 0 && call.args[3] != call.caller
    requires var v := FromBytes(call.args[2]);
             Debit(cfg, s, call.caller, call.args[0], ReadUint64(call.args[1]), v, InvalidNFTQuantity, call.ret).Ok?
    requires var (s1, sent) := Debit(cfg, s, call.caller, call.args[0], ReadUint64(call.args[1]),
               FromBytes(call.args[2]), InvalidNFTQuantity, call.ret).value;
             Hand(cfg, s1, call.caller, call.args[3], call.args[0], ReadUint64(call.args[1]), sent, call.ret).Ok?
    ensures var token, nonce, v, dst := call.args[0], ReadUint64(call.args[1]), FromBytes(call.args[2]), call.args[3];
            var (s1, sent) := Debit(cfg, s, call.caller, token, nonce, v, InvalidNFTQuantity, call.ret).value;
            var (s2, left) := Hand(cfg, s1, call.caller, dst, token, nonce, sent, call.ret).value;
            var k := KeyOf(token, nonce);
            var amount := v + if cfg.Here(dst) then Balance(s, dst, k) else 0;
            && (CheckLimited(cfg, s2, token, call.caller, dst, true, cfg.Here(dst), call.ret).Ok? <==>
                Movable(cfg, s, token, call.caller, dst, true, cfg.Here(dst), call.ret))
            && WasAlreadySent(cfg, s2, token, nonce, dst).Ok?
            && (!WasAlreadySent(cfg, s2, token, nonce, dst).value.1 || left.value == 1 <==>
                CopiesToken(cfg, s, dst, k, amount))
            && left == Read(cfg, s, call.caller, token, nonce).0.(value := amount)
            && (forall s3, gas: nat :: Pack(cfg, s3, left, gas).Ok? <==>
                  Times(|cfg.marshal(left)|, cfg.costs.dataCopyPerByte) <= gas)
  {
    hide Debit, Hand, CheckLimited, Inv, FromBytes, ReadUint64, Movable, WasAlreadySent, Pack, Read, KeyOf, Times,
        Knows, Environment, Available, SameRules, Balance;
    var token, nonce, v, dst := call.args[0], ReadUint64(call.args[1]), FromBytes(call.args[2]), call.args[3];
    var (s1, sent) := Debit(cfg, s, call.caller, token, nonce, v, InvalidNFTQuantity, call.ret).value;
    var (s2, left) := Hand(cfg, s1, call.caller, dst, token, nonce, sent, call.ret).value;
    InvBasics(cfg, s);
    EnvironmentParts(cfg);
    HandLeaves(cfg, s, call.caller, dst, token, nonce, v, call.ret);
    LimitAccepted(cfg, s2, token, call.caller, dst, true, cfg.Here(dst), call.ret);
    SameRulesMovable(cfg, s, s2, token, call.caller, dst, cfg.Here(dst), call.ret);
    SentAccepted(cfg, s2, token, nonce, dst);
    if !cfg.flags.sendAlways && !cfg.Here(dst) {
      InvIsAvailable(cfg, s);
      HandedKnows(cfg, s, call.caller, dst, Triple(token, nonce, call.args[2]), v, call.ret);
    }
    forall s3, gas: nat
      ensures Pack(cfg, s3, left, gas).Ok? <==> Times(|cfg.marshal(left)|, cfg.costs.dataCopyPerByte) <= gas
    {
      PackAccepted(cfg, s3, left, gas);
    }
  }

  // ---- multi-transfers and deliveries ----

  /** A multi-transfer is accepted exactly if its list is, and if the gas pays for it and for what is copied. */
  lemma MultiTransferAccepted(cfg: Config, s: ShardState, call: Call)
    requires |call.args| < U64
    ensures MultiTransferOnSender(cfg, s, call).Ok? <==>
              && call.callValue == 0 && |call.args| >= 4
              && |call.args[0]| == |call.caller| && call.args[0] != call.caller && Addressable(cfg, call.args[0])
              && ReadUint64(call.args[1]) > 0 && 2 + 3 * ReadUint64(call.args[1]) <= |call.args|
              && (cfg.Here(call.args[0]) ==> call.payable)
              && var cost := Times(ReadUint64(call.args[1]), cfg.costs.multiTransfer);
              && cost <= call.gasProvided
              && var moved := TransferAll(cfg, s, call.caller, call.args[0], Requested(call), call.ret);
              && moved.Ok?
              && PackAll(cfg, moved.value.0, call.args[0], Requested(call), moved.value.1, call.gasProvided - cost).Ok?
  {
    hide TransferAll, PackAll, ReadUint64, TriplesFrom, Emit, Times, MinArgs;
    if |call.args| >= 4 {
      MinArgsFits(call.args, ReadUint64(call.args[1]), 2);
    }
  }

  /** A multi-transfer is executed exactly if the account accepts the payment and each of its items is accepted. */
  lemma MultiDeliveryAccepted(cfg: Config, s: ShardState, call: Call)
    requires |call.args| < U64
    ensures MultiTransferOnDestination(cfg, s, call).Ok? <==>
              && call.callValue == 0 && |call.args| >= 4 && call.payable
              && ReadUint64(call.args[0]) > 0 && 1 + 3 * ReadUint64(call.args[0]) <= |call.args|
              && DeliverAll(cfg, s, call.caller, call.recipient, TriplesFrom(call.args, 1, ReadUint64(call.args[0])),
                   call.ret).Ok?
  {
    hide DeliverAll, ReadUint64, TriplesFrom, MinArgs;
    if |call.args| >= 4 {
      MinArgsFits(call.args, ReadUint64(call.args[0]), 1);
    }
  }
}
