/**
 * Nonces over whole runs: one account at a time may create, and whoever it is goes on counting where the last one
 * stopped.
 */
module HandoffRuns {
  import opened Bytes
  import opened Results
  import opened Wire
  import opened Keys
  import opened Tokens
  import opened Storage
  import opened Transfers
  import opened Supply
  import opened Roles
  import opened Handoff
  import opened Operations
  import opened Totals
  import opened Network

  /** A hand-off on its way; an echo is one whose next owner lives in the shard that already served it. */
  datatype Letter = Letter(receiver: Address, data: bytes, echo: bool)

  /** The shards, the hand-offs in flight, and the nonces that were issued for one token, oldest first. */
  datatype Registry = Registry(shards: seq<ShardState>, mail: seq<Letter>, issued: seq<nat>)

  datatype Act =
    | Make(call: Call)
    | Pass(call: Call)
    | Arrive(index: nat, courier: Address)
    | Grant(call: Call, on: bool)
    | Work(shard: nat, op: Op)

  /** The operations that touch no nonce and no role. */
  predicate KeepsBooks(op: Op) {
    !op.Creating? && !op.ChangingRoles? && !op.GivingUpRole? && !op.ReceivingRole?
  }

  function ArrivalCall(letter: Letter, courier: Address, args: seq<bytes>): Call {
    Call(courier, letter.receiver, 0, args, 0, false, DirectCall, true)
  }

  /** One act; an act that fails changes nothing. */
  function Do(cfg: Config, token: bytes, w: Registry, act: Act): Registry {
    match act
    case Make(call) =>
      var j := cfg.shardOf(call.caller);
      if j >= |w.shards| || Create(At(cfg, j), w.shards[j], call).Err? then w
      else
        var c := PlanCreate(At(cfg, j), w.shards[j], call).value;
        w.(shards := w.shards[j := Create(At(cfg, j), w.shards[j], call).value],
           issued := w.issued + if c.token == token then [c.nonce] else [])
    case Pass(call) =>
      var j := cfg.shardOf(call.recipient);
      if j >= |w.shards| || GiveUp(At(cfg, j), w.shards[j], call).Err? then w
      else
        var (s', out) := GiveUp(At(cfg, j), w.shards[j], call).value;
        var letter := Letter(out.recipient, out.data, cfg.shardOf(out.recipient) == j);
        w.(shards := w.shards[j := s'], mail := w.mail + [letter])
    case Arrive(i, courier) =>
      if i >= |w.mail| || cfg.shardOf(w.mail[i].receiver) >= |w.shards| || ParseData(w.mail[i].data).Err? then w
      else
        var j, args := cfg.shardOf(w.mail[i].receiver), ParseData(w.mail[i].data).value.1;
        (match Receive(At(cfg, j), w.shards[j], ArrivalCall(w.mail[i], courier, args))
         case Ok(s') => w.(shards := w.shards[j := s'], mail := w.mail[..i] + w.mail[i + 1..])
         case Err(_) => w)
    case Grant(call, on) =>
      var j := cfg.shardOf(call.recipient);
      if j >= |w.shards| || SetRoles(At(cfg, j), w.shards[j], call, on).Err? then w
      else w.(shards := w.shards[j := SetRoles(At(cfg, j), w.shards[j], call, on).value])
    case Work(j, op) =>
      if j >= |w.shards| || !KeepsBooks(op) || Apply(At(cfg, j), w.shards[j], op).Err? then w
      else w.(shards := w.shards[j := Apply(At(cfg, j), w.shards[j], op).value])
  }

  function DoAll(cfg: Config, token: bytes, w: Registry, acts: seq<Act>): Registry {
    if acts == [] then w else Do(cfg, token, DoAll(cfg, token, w, acts[..|acts| - 1]), acts[|acts| - 1])
  }

  // ---- the books of an account ----

  function NonceOf(cfg: Config, w: Registry, a: Address, token: bytes): nat {
    if cfg.shardOf(a) < |w.shards| then LatestNonce(w.shards[cfg.shardOf(a)], a, token) else 0
  }

  /** How often an account holds the create role. */
  function CountIn(s: ShardState, a: Address, token: bytes): nat {
    multiset(RolesOf(s, a, token))[ROLE_NFT_CREATE]
  }

  function CountOf(cfg: Config, w: Registry, a: Address, token: bytes): nat {
    if cfg.shardOf(a) < |w.shards| then CountIn(w.shards[cfg.shardOf(a)], a, token) else 0
  }

  lemma CountIsHolding(s: ShardState, a: Address, token: bytes)
    ensures CountIn(s, a, token) > 0 <==> ROLE_NFT_CREATE in RolesOf(s, a, token)
  {
  }

  lemma CreateBooks(cfg: Config, s: ShardState, call: Call)
    requires Create(cfg, s, call).Ok?
    ensures var c, s' := PlanCreate(cfg, s, call).value, Create(cfg, s, call).value;
            && (forall a, t :: RolesOf(s', a, t) == RolesOf(s, a, t))
            && (forall a, t :: LatestNonce(s', a, t) == if a == c.creator &&
              t == c.token then c.nonce else LatestNonce(s, a, t))
  {
    hide SaveToken, AddLiquidity, PlanCreate;
    var c := PlanCreate(cfg, s, call).value;
    var s1 := SaveToken(cfg, s, c.creator, c.creator, c.token, c.nonce, c.created, true, call.ret).value;
    var s2 := AddLiquidity(cfg, s1, c.token, c.nonce, c.quantity).value;
    SaveTokenEffect(cfg, s, c.creator, c.creator, c.token, c.nonce, c.created, true, call.ret);
    AddLiquidityEffect(cfg, s1, c.token, c.nonce, c.quantity);
    SameAccounts(s1, s2);
    assert forall a ::
      AccountAt(s2, a).roles == AccountAt(s, a).roles && AccountAt(s2, a).nonces == AccountAt(s, a).nonces;
  }

  lemma PutNonceBooks(s: ShardState, a: Address, token: bytes, nonce: nat)
    ensures var s' := PutNonce(s, a, token, nonce);
            && (forall b, t :: LatestNonce(s', b, t) == if b == a && t == token then nonce else LatestNonce(s, b, t))
            && (forall b, t :: RolesOf(s', b, t) == RolesOf(s, b, t))
  {
  }

  lemma PutRolesBooks(s: ShardState, a: Address, token: bytes, roles: seq<bytes>)
    ensures var s' := PutRoles(s, a, token, roles);
            && (forall b, t :: LatestNonce(s', b, t) == LatestNonce(s, b, t))
            && (forall b, t :: RolesOf(s', b, t) == if b == a && t == token then roles else RolesOf(s, b, t))
  {
  }

  lemma TakeOverBooks(s: ShardState, a: Address, token: bytes, nonce: nat)
    ensures var s' := TakeOver(s, a, token, nonce);
            && (forall b, t :: LatestNonce(s', b, t) == if b == a && t == token then nonce else LatestNonce(s, b, t))
            && (forall b, t :: CountIn(s', b, t) == if b == a && t == token &&
              CountIn(s, a, token) == 0 then 1 else CountIn(s, b, t))
  {
    hide PutNonce, PutRoles, RolesOf, LatestNonce;
    var s1, roles := PutNonce(s, a, token, nonce), RolesOf(s, a, token);
    PutNonceBooks(s, a, token, nonce);
    PutRolesBooks(s1, a, token, roles + [ROLE_NFT_CREATE]);
    assert multiset(roles + [ROLE_NFT_CREATE]) == multiset(roles) + multiset{ROLE_NFT_CREATE};
  }

  /** The account that gives up stops counting and holds no create role. */
  lemma LeaveBooks(s: ShardState, a: Address, token: bytes)
    ensures var s' := DeleteCreateRole(PutNonce(s, a, token, 0), a, token);
            && (forall b, t :: LatestNonce(s', b, t) == if b == a && t == token then 0 else LatestNonce(s, b, t))
            && (forall b, t :: b != a || t != token ==> CountIn(s', b, t) == CountIn(s, b, t))
            && (CountIn(s, a, token) <= 1 ==> CountIn(s', a, token) == 0)
  {
    hide PutNonce, PutRoles, RolesOf, LatestNonce, DeleteRoles;
    var roles := RolesOf(s, a, token);
    PutNonceBooks(s, a, token, 0);
    PutRolesBooks(PutNonce(s, a, token, 0), a, token, DeleteRoles(roles, [ROLE_NFT_CREATE]));
    DeleteRolesIsDifference(roles, [ROLE_NFT_CREATE]);
    assert multiset([ROLE_NFT_CREATE]) == multiset{ROLE_NFT_CREATE};
  }

  /** Giving up moves nonce and role to a next owner in this shard, and leaves the old owner without either. */
  lemma GiveUpBooks(cfg: Config, s: ShardState, call: Call)
    requires GiveUp(cfg, s, call).Ok?
    ensures var s' := GiveUp(cfg, s, call).value.0;
            var a, token, next := call.recipient, call.args[0], call.args[1];
            && (forall b, t :: t != token || (b != a && (b != next || !cfg.Here(next))) ==>
                  LatestNonce(s', b, t) == LatestNonce(s, b, t) && CountIn(s', b, t) == CountIn(s, b, t))
            && (next != a ==> LatestNonce(s', a, token) == 0)
            && (next != a && CountIn(s, a, token) <= 1 ==> CountIn(s', a, token) == 0)
            && (cfg.Here(next) ==> LatestNonce(s', next, token) == LatestNonce(s, a, token))
            && (cfg.Here(next) && CountIn(s, next, token) == 0 ==> CountIn(s', next, token) == 1)
  {
    hide TakeOver, DeleteCreateRole, PutNonce, CountIn, LatestNonce;
    var a, token, next := call.recipient, call.args[0], call.args[1];
    LeaveBooks(s, a, token);
    TakeOverBooks(DeleteCreateRole(PutNonce(s, a, token, 0), a, token), next, token, LatestNonce(s, a, token));
  }

  /** The roles of every account but its create roles, with their numbers. */
  ghost predicate SameOtherRoles(s: ShardState, s': ShardState) {
    forall b, t, role :: role != ROLE_NFT_CREATE ==>
      multiset(RolesOf(s', b, t))[role] == multiset(RolesOf(s, b, t))[role]
  }

  lemma TakeOverRoles(s: ShardState, a: Address, token: bytes, nonce: nat)
    ensures SameOtherRoles(s, TakeOver(s, a, token, nonce))
  {
    hide PutNonce, PutRoles, RolesOf, LatestNonce;
    var s1, roles := PutNonce(s, a, token, nonce), RolesOf(s, a, token);
    PutNonceBooks(s, a, token, nonce);
    PutRolesBooks(s1, a, token, roles + [ROLE_NFT_CREATE]);
    assert multiset(roles + [ROLE_NFT_CREATE]) == multiset(roles) + multiset{ROLE_NFT_CREATE};
  }

  lemma LeaveRoles(s: ShardState, a: Address, token: bytes)
    ensures SameOtherRoles(s, DeleteCreateRole(PutNonce(s, a, token, 0), a, token))
  {
    hide PutNonce, PutRoles, RolesOf, LatestNonce, DeleteRoles;
    var roles := RolesOf(s, a, token);
    PutNonceBooks(s, a, token, 0);
    PutRolesBooks(PutNonce(s, a, token, 0), a, token, DeleteRoles(roles, [ROLE_NFT_CREATE]));
    DeleteRolesIsDifference(roles, [ROLE_NFT_CREATE]);
    assert multiset([ROLE_NFT_CREATE]) == multiset{ROLE_NFT_CREATE};
  }

  /** Neither half of a hand-off gives or takes any other role. */
  lemma HandoffKeepsOtherRoles(cfg: Config, s: ShardState, call: Call)
    ensures GiveUp(cfg, s, call).Ok? ==> SameOtherRoles(s, GiveUp(cfg, s, call).value.0)
    ensures Receive(cfg, s, call).Ok? ==> SameOtherRoles(s, Receive(cfg, s, call).value)
  {
    hide TakeOver, DeleteCreateRole, PutNonce, LatestNonce, RolesOf;
    if |call.args| == 2 {
      var a, token, next := call.recipient, call.args[0], call.args[1];
      LeaveRoles(s, a, token);
      TakeOverRoles(DeleteCreateRole(PutNonce(s, a, token, 0), a, token), next, token, LatestNonce(s, a, token));
      TakeOverRoles(s, a, token, ReadUint64(call.args[1]));
    }
  }

  /** A change of roles touches one account and token; the nonce only where the multi-shard role is named. */
  lemma GrantBooks(cfg: Config, s: ShardState, call: Call, on: bool)
    requires SetRoles(cfg, s, call, on).Ok?
    ensures |call.args| >= 1
    ensures var s', named := SetRoles(cfg, s, call, on).value, call.args[1..];
            && (ROLE_NFT_CREATE_MULTI_SHARD in named ==> call.recipient != [])
            && (forall b, t :: LatestNonce(s', b, t)
                  == if b == call.recipient && t == call.args[0] && ROLE_NFT_CREATE_MULTI_SHARD in named
                     then StartNonce(b) else LatestNonce(s, b, t))
            && (forall b, t :: b != call.recipient || t != call.args[0] || ROLE_NFT_CREATE !in named ==>
                  CountIn(s', b, t) == CountIn(s, b, t))
  {
    hide NewRoles, PutNonce, PutRoles, StartNonce, LatestNonce, RolesOf;
    var a, token, named := call.recipient, call.args[0], call.args[1..];
    var multi := ROLE_NFT_CREATE_MULTI_SHARD in named;
    var s1 := if multi then PutNonce(s, a, token, StartNonce(a)) else s;
    if multi {
      PutNonceBooks(s, a, token, StartNonce(a));
    }
    PutRolesBooks(s1, a, token, NewRoles(s, call, on));
    SetRolesEffect(cfg, s, call, on, a, token);
    assert ROLE_NFT_CREATE in named <==> ROLE_NFT_CREATE in multiset(named);
  }

  lemma LiquidityBooks(cfg: Config, s: ShardState, token: bytes, nonce: nat, v: int)
    requires AddLiquidity(cfg, s, token, nonce, v).Ok?
    ensures SameBooks(s, AddLiquidity(cfg, s, token, nonce, v).value)
  {
    AddLiquidityEffect(cfg, s, token, nonce, v);
    SameAccounts(s, AddLiquidity(cfg, s, token, nonce, v).value);
  }

  lemma DebitBooks(cfg: Config, s: ShardState, a: Address, token: bytes, nonce: nat, v: nat, short: Error, ret: bool)
    requires Debit(cfg, s, a, token, nonce, v, short, ret).Ok?
    ensures SameBooks(s, Debit(cfg, s, a, token, nonce, v, short, ret).value.0)
  {
    hide SaveToken;
    var t := ReadOnSender(cfg, s, a, token, nonce).value;
    SaveTokenEffect(cfg, s, a, a, token, nonce, t.(value := t.value - v), false, ret);
  }

  /** The operations on NFTs keep the books. */
  lemma NftWorkBooks(cfg: Config, s: ShardState, op: Op)
    requires op.AddingQuantity? || op.Burning?
    requires Apply(cfg, s, op).Ok?
    ensures SameBooks(s, Apply(cfg, s, op).value)
  {
    hide SaveToken, AddLiquidity, Debit, Read;
    var call := op.call;
    var a, token, nonce, v := call.caller, call.args[0], ReadUint64(call.args[1]), FromBytes(call.args[2]);
    if op.Burning? {
      DebitBooks(cfg, s, a, token, nonce, v, InvalidNFTQuantity, call.ret);
      LiquidityBooks(cfg, Debit(cfg, s, a, token, nonce, v, InvalidNFTQuantity, call.ret).value.0, token, nonce,
        -(v as int));
    } else {
      var t := ReadOnSender(cfg, s, a, token, nonce).value;
      var u := t.(value := t.value + v);
      SaveTokenEffect(cfg, s, a, a, token, nonce, u, false, call.ret);
      LiquidityBooks(cfg, SaveToken(cfg, s, a, a, token, nonce, u, false, call.ret).value, token, nonce, v);
    }
  }

  lemma UpdateBooks(cfg: Config, s: ShardState, call: Call, role: bytes, cost: nat, update: MetaData -> MetaData)
    requires UpdateMetaData(cfg, s, call, role, cost, update).Ok?
    ensures SameBooks(s, UpdateMetaData(cfg, s, call, role, cost, update).value)
  {
    hide SaveToken;
    var a, token, nonce := call.caller, call.args[0], ReadUint64(call.args[1]);
    var t := ReadOnSender(cfg, s, a, token, nonce).value;
    SaveTokenEffect(cfg, s, a, a, token, nonce, t.(metadata := Some(update(t.metadata.value))), true, call.ret);
  }

  lemma WipeBooks(cfg: Config, s: ShardState, call: Call)
    requires Wipe(cfg, s, call).Ok?
    ensures SameBooks(s, Wipe(cfg, s, call).value)
  {
    hide AddLiquidity, Put, ExtractTokenAndNonce;
    var a, k := call.recipient, call.args[0];
    var s1 := Put(s, a, k, None);
    PutBooks(s, a, k, None);
    if cfg.flags.wipeLiquidity {
      LiquidityBooks(cfg, s1, ExtractTokenAndNonce(k).0, ExtractTokenAndNonce(k).1, -ReadData(s, a, k).value);
    }
  }

  lemma MintBooks(cfg: Config, s: ShardState, op: Op)
    requires op.Minting? || op.BurningLocal?
    requires Apply(cfg, s, op).Ok?
    ensures SameBooks(s, Apply(cfg, s, op).value)
  {
    hide AddToBalance, FromBytes;
    var v: int := FromBytes(op.call.args[1]);
    AddToBalanceEffect(cfg, s, op.call.caller, op.call.args[0], if op.Minting? then v else -v, op.call.ret);
  }

  lemma WorkBooks(cfg: Config, s: ShardState, op: Op)
    requires KeepsBooks(op) && Apply(cfg, s, op).Ok?
    ensures SameBooks(s, Apply(cfg, s, op).value)
  {
    hide AddQuantity, Burn, UpdateMetaData, Wipe, AddToBalance, Put, FromBytes, LocalMint, LocalBurn, AddAll,
        DeleteRoles;
    match op
    case AddingQuantity(_) => NftWorkBooks(cfg, s, op);
    case Burning(_) => NftWorkBooks(cfg, s, op);
    case AddingUri(call) =>
      var uris := if |call.args| >= 2 then call.args[2..] else [];
      UpdateBooks(cfg, s, call, ROLE_NFT_ADD_URI, cfg.costs.addUri, (m: MetaData) => m.(uris := m.uris + uris));
    case UpdatingAttributes(call) =>
      var attributes := call.args[2];
      UpdateBooks(cfg, s, call, ROLE_NFT_UPDATE_ATTRIBUTES, cfg.costs.updateAttributes,
        (m: MetaData) => m.(attributes := attributes));
    case Minting(_) => MintBooks(cfg, s, op);
    case BurningLocal(_) => MintBooks(cfg, s, op);
    case Freezing(call, on) =>
      var t := ReadData(s, call.recipient, call.args[0]).(properties := FreezeBytes(on));
      PutBooks(s, call.recipient, call.args[0], if t.value == 0 && NoProperties(t.properties) then None else Some(t));
    case Wiping(call) => WipeBooks(cfg, s, call);
    case _ =>
  }

  // ---- who may create ----

  /** The token and the nonce that a hand-off names. */
  function Content(letter: Letter): Option<(bytes, nat)> {
    match ParseData(letter.data)
    case Ok((_, args)) => if |args| == 2 then Some((args[0], ReadUint64(args[1]))) else None
    case Err(_) => None
  }

  predicate IsAbout(letter: Letter, token: bytes) {
    Content(letter).Some? && Content(letter).value.0 == token
  }

  lemma AboutNames(token: bytes, letter: Letter)
    ensures IsAbout(letter, token) <==> Content(letter).Some? && Content(letter).value.0 == token
  {
  }

  lemma LetterReads(receiver: Address, token: bytes, nonce: nat, echo: bool)
    ensures var letter := Letter(receiver, HandoffMessage(token, nonce), echo);
            IsAbout(letter, token) && (nonce < U64 ==> Content(letter).value.1 == nonce) &&
            (forall t :: IsAbout(letter, t) ==> t == token)
  {
    assert |CREATE_ROLE_TRANSFER| == 24;
    ParsePrint(CREATE_ROLE_TRANSFER, [token, ToBytes(nonce)]);
    FromToBytes(nonce);
  }

  /** The one account that may create, or the hand-off on its way to the next one. */
  datatype Custody = Held(owner: Address) | Travelling(index: nat)

  ghost predicate Owned(cfg: Config, token: bytes, w: Registry, c: Custody) {
    forall a :: CountOf(cfg, w, a, token) == if c == Held(a) then 1 else 0
  }

  /** At most one hand-off of the token is in flight besides the echoes, and it names the bound. */
  ghost predicate Mailed(token: bytes, w: Registry, c: Custody, bound: nat) {
    (c.Travelling? ==> c.index < |w.mail| && IsAbout(w.mail[c.index], token) && !w.mail[c.index].echo) &&
    forall i :: 0 <= i < |w.mail| && IsAbout(w.mail[i], token) && !w.mail[i].echo ==>
      Content(w.mail[i]).value.1 == bound && c == Travelling(i)
  }

  /** The nonces issued so far are the successors of the first one, in order; whoever is next goes on from the last. */
  ghost predicate Numbered(cfg: Config, token: bytes, start: nat, w: Registry, c: Custody) {
    (forall i :: 0 <= i < |w.issued| ==> w.issued[i] == start + 1 + i) &&
    (c.Held? ==> NonceOf(cfg, w, c.owner, token) == start + |w.issued|)
  }

  ghost predicate Custodial(cfg: Config, token: bytes, start: nat, w: Registry, c: Custody) {
    Owned(cfg, token, w, c) && Mailed(token, w, c, start + |w.issued|) && Numbered(cfg, token, start, w, c) &&
      start + |w.issued| < U64
  }

  /** A hand-off in flight names an account that still holds the role and the nonce it names. */
  predicate InTime(cfg: Config, token: bytes, w: Registry, i: nat)
    requires i < |w.mail| && Content(w.mail[i]).Some?
  {
    var b := w.mail[i].receiver;
    CountOf(cfg, w, b, token) > 0 && NonceOf(cfg, w, b, token) == Content(w.mail[i]).value.1
  }

  /**
   * What is asked of an act: an account creates in its own shard; the system contract hands on from the holder, to
   * another account, and gives and takes the create roles of the token in no other way; and an echo arrives in time.
   */
  ghost predicate Orderly(cfg: Config, token: bytes, w: Registry, act: Act) {
    match act
    case Make(call) => Creator(call).Ok? ==> cfg.SameShard(Creator(call).value.0, call.caller)
    case Pass(call) =>
      |call.args| == 2 && call.args[0] == token ==>
        CountOf(cfg, w, call.recipient, token) > 0 && call.args[1] != call.recipient
    case Arrive(i, courier) =>
      courier != cfg.systemContract && i < |w.mail| && IsAbout(w.mail[i], token) && w.mail[i].echo ==>
        InTime(cfg, token, w, i)
    case Grant(call, _) =>
      |call.args| >= 1 && call.args[0] == token ==>
        ROLE_NFT_CREATE !in call.args[1..] && ROLE_NFT_CREATE_MULTI_SHARD !in call.args[1..]
    case Work(_, _) => true
  }

  /** Who has custody after an act. */
  function Next(cfg: Config, token: bytes, w: Registry, act: Act, c: Custody): Custody {
    match act
    case Pass(call) =>
      var j := cfg.shardOf(call.recipient);
      if j >= |w.shards| || GiveUp(At(cfg, j), w.shards[j], call).Err? || |call.args| != 2 || call.args[0] != token
      then c
      else if cfg.shardOf(call.args[1]) == j then Held(call.args[1])
      else Travelling(|w.mail|)
    case Arrive(i, _) =>
      if i >= |w.mail| || Do(cfg, token, w, act) == w then c
      else if IsAbout(w.mail[i], token) && !w.mail[i].echo then Held(w.mail[i].receiver)
      else if c.Travelling? && i < c.index then Travelling(c.index - 1)
      else c
    case _ => c
  }

  /** An act that leaves the books and the mail of the token alone. */
  lemma QuietAct(cfg: Config, token: bytes, start: nat, w: Registry, w': Registry, c: Custody)
    requires Custodial(cfg, token, start, w, c) && w'.mail == w.mail && w'.issued == w.issued
    requires forall a :: CountOf(cfg, w', a, token) == CountOf(cfg, w, a, token) &&
                         NonceOf(cfg, w', a, token) == NonceOf(cfg, w, a, token)
    ensures Custodial(cfg, token, start, w', c)
  {
  }

  lemma SameRolesSameCount(s: ShardState, s': ShardState)
    requires forall a, t :: RolesOf(s', a, t) == RolesOf(s, a, t)
    ensures forall a, t :: CountIn(s', a, t) == CountIn(s, a, t)
  {
  }

  lemma PlanIsByCreator(cfg: Config, s: ShardState, call: Call)
    requires Create(cfg, s, call).Ok?
    ensures PlanCreate(cfg, s, call).Ok?
    ensures Creator(call).Ok? && PlanCreate(cfg, s, call).value.creator == Creator(call).value.0
    ensures PlanCreate(cfg, s, call).value.token == call.args[0]
  {
  }

  /**
   * A create in the creator's own shard keeps every role; where it issues a nonce of the token, its creator holds the
   * role, and the nonce is the creator's next one.
   */
  lemma MakeBooks(cfg: Config, token: bytes, w: Registry, call: Call)
    requires Creator(call).Ok? ==> cfg.SameShard(Creator(call).value.0, call.caller)
    ensures var w' := Do(cfg, token, w, Make(call));
            && w'.mail == w.mail && |w'.shards| == |w.shards|
            && (forall a, t :: CountOf(cfg, w', a, t) == CountOf(cfg, w, a, t))
            && (w'.issued == w.issued || (|w'.issued| == |w.issued| + 1 && Creator(call).Ok?))
            && (w'.issued == w.issued ==> forall a :: NonceOf(cfg, w', a, token) == NonceOf(cfg, w, a, token))
            && (w'.issued != w.issued ==>
                var a, n := Creator(call).value.0, (NonceOf(cfg, w, Creator(call).value.0, token) + 1) % U64;
                && CountOf(cfg, w, a, token) > 0 && w'.issued == w.issued + [n]
                && (forall b :: NonceOf(cfg, w', b, token) == if b == a then n else NonceOf(cfg, w, b, token)))
  {
    hide Create, PlanCreate, Creator, CountIn, LatestNonce, RolesOf;
    var w', j := Do(cfg, token, w, Make(call)), cfg.shardOf(call.caller);
    if w' != w {
      var s := w.shards[j];
      PlanIsByCreator(At(cfg, j), s, call);
      var p := PlanCreate(At(cfg, j), s, call).value;
      CreateBooks(At(cfg, j), s, call);
      SameRolesSameCount(s, Create(At(cfg, j), s, call).value);
      CountIsHolding(s, p.creator, token);
    }
  }

  lemma MakeNumbered(cfg: Config, token: bytes, start: nat, w: Registry, c: Custody, call: Call)
    requires Custodial(cfg, token, start, w, c) && Orderly(cfg, token, w, Make(call))
    requires start + |Do(cfg, token, w, Make(call)).issued| < U64
    ensures Custodial(cfg, token, start, Do(cfg, token, w, Make(call)), c)
  {
    hide Do, Creator, IsAbout, Content, CountOf, NonceOf;
    MakeBooks(cfg, token, w, call);
  }

  lemma PassNumbered(cfg: Config, token: bytes, start: nat, w: Registry, c: Custody, call: Call)
    requires Custodial(cfg, token, start, w, c) && Orderly(cfg, token, w, Pass(call))
    ensures Custodial(cfg, token, start, Do(cfg, token, w, Pass(call)), Next(cfg, token, w, Pass(call), c))
  {
    hide GiveUp, CountIn, LatestNonce, IsAbout, Content;
    var j := cfg.shardOf(call.recipient);
    if j < |w.shards| && GiveUp(At(cfg, j), w.shards[j], call).Ok? {
      var s := w.shards[j];
      var (s', out) := GiveUp(At(cfg, j), s, call).value;
      GiveUpBooks(At(cfg, j), s, call);
      GiveUpPosts(At(cfg, j), s, call);
      var nonce := LatestNonce(s, call.recipient, call.args[0]);
      LetterReads(out.recipient, call.args[0], nonce, cfg.shardOf(out.recipient) == j);
      if call.args[0] == token {
        assert c == Held(call.recipient);
        assert CountOf(cfg, w, call.args[1], token) == 0;
      }
    }
  }

  lemma GiveUpPosts(cfg: Config, s: ShardState, call: Call)
    requires GiveUp(cfg, s, call).Ok?
    ensures |call.args| == 2
    ensures var out := GiveUp(cfg, s, call).value.1;
            out.recipient == call.args[1] &&
              out.data == HandoffMessage(call.args[0], LatestNonce(s, call.recipient, call.args[0]))
  {
  }

  /** An arrival that succeeds writes the nonce and the role, for one account and token. */
  lemma ArriveBooks(cfg: Config, token: bytes, w: Registry, i: nat, courier: Address)
    requires Do(cfg, token, w, Arrive(i, courier)) != w
    ensures i < |w.mail| && Content(w.mail[i]).Some? && cfg.shardOf(w.mail[i].receiver) < |w.shards|
    ensures courier != cfg.systemContract
    ensures var w', b, (t, n) := Do(cfg, token, w, Arrive(i, courier)), w.mail[i].receiver, Content(w.mail[i]).value;
            && w'.mail == w.mail[..i] + w.mail[i + 1..] && w'.issued == w.issued && |w'.shards| == |w.shards|
            && (forall a, u :: NonceOf(cfg, w', a, u) == if a == b && u == t then n else NonceOf(cfg, w, a, u))
            && (forall a, u :: CountOf(cfg, w', a, u)
                  == if a == b && u == t && CountOf(cfg, w, a, u) == 0 then 1 else CountOf(cfg, w, a, u))
  {
    hide CountIn, LatestNonce, TakeOver, ParseData;
    var letter := w.mail[i];
    var j, args := cfg.shardOf(letter.receiver), ParseData(letter.data).value.1;
    TakeOverBooks(w.shards[j], letter.receiver, args[0], ReadUint64(args[1]));
  }

  lemma ArriveNumbered(cfg: Config, token: bytes, start: nat, w: Registry, c: Custody, i: nat, courier: Address)
    requires Custodial(cfg, token, start, w, c) && Orderly(cfg, token, w, Arrive(i, courier))
    ensures Custodial(cfg, token, start, Do(cfg, token, w, Arrive(i, courier)),
                      Next(cfg, token, w, Arrive(i, courier), c))
  {
    hide Do, CountOf, NonceOf, Content, Mailed;
    var w', c' := Do(cfg, token, w, Arrive(i, courier)), Next(cfg, token, w, Arrive(i, courier), c);
    if w' != w {
      ArriveBooks(cfg, token, w, i, courier);
      TakenLetter(token, w, i, c, c', start + |w.issued|, w');
      if IsAbout(w.mail[i], token) && !w.mail[i].echo {
        LetterFits(token, w, c, start + |w.issued|, i);
      }
    }
  }

  lemma LetterFits(token: bytes, w: Registry, c: Custody, bound: nat, i: nat)
    requires Mailed(token, w, c, bound) && i < |w.mail| && IsAbout(w.mail[i], token) && !w.mail[i].echo
    ensures Content(w.mail[i]).value.1 == bound && c == Travelling(i)
  {
  }

  lemma TakenLetter(token: bytes, w: Registry, i: nat, c: Custody, c': Custody, bound: nat, w': Registry)
    requires i < |w.mail| && Mailed(token, w, c, bound) && w'.mail == w.mail[..i] + w.mail[i + 1..]
    requires c' == if IsAbout(w.mail[i], token) && !w.mail[i].echo then Held(w.mail[i].receiver)
                   else if c.Travelling? && i < c.index then Travelling(c.index - 1) else c
    ensures Mailed(token, w', c', bound)
  {
    hide IsAbout, Content;
    assert forall p :: 0 <= p < |w'.mail| ==> w'.mail[p] == w.mail[if p < i then p else p + 1];
  }

  lemma GrantNumbered(cfg: Config, token: bytes, start: nat, w: Registry, c: Custody, call: Call, on: bool)
    requires Custodial(cfg, token, start, w, c) && Orderly(cfg, token, w, Grant(call, on))
    ensures Custodial(cfg, token, start, Do(cfg, token, w, Grant(call, on)), c)
  {
    hide SetRoles, IsAbout, Content, CountIn, LatestNonce, StartNonce, Custodial;
    var w', j := Do(cfg, token, w, Grant(call, on)), cfg.shardOf(call.recipient);
    if w' != w {
      GrantBooks(At(cfg, j), w.shards[j], call, on);
      QuietAct(cfg, token, start, w, w', c);
    }
  }

  lemma WorkNumbered(cfg: Config, token: bytes, start: nat, w: Registry, c: Custody, j: nat, op: Op)
    requires Custodial(cfg, token, start, w, c)
    ensures Custodial(cfg, token, start, Do(cfg, token, w, Work(j, op)), c)
  {
    hide Apply, IsAbout, Content;
    var w' := Do(cfg, token, w, Work(j, op));
    if w' != w {
      WorkBooks(At(cfg, j), w.shards[j], op);
      QuietAct(cfg, token, start, w, w', c);
    }
  }

  // ---- runs ----

  ghost predicate AllOrderly(cfg: Config, token: bytes, w: Registry, acts: seq<Act>) {
    acts == [] ||
    (var n := |acts| - 1;
     AllOrderly(cfg, token, w, acts[..n]) && Orderly(cfg, token, DoAll(cfg, token, w, acts[..n]), acts[n]))
  }

  /** Who has custody after a run. */
  function CustodyAfter(cfg: Config, token: bytes, w: Registry, acts: seq<Act>, c: Custody): Custody {
    if acts == [] then c
    else
      var n := |acts| - 1;
      Next(cfg, token, DoAll(cfg, token, w, acts[..n]), acts[n], CustodyAfter(cfg, token, w, acts[..n], c))
  }

  lemma IssuedGrows(cfg: Config, token: bytes, w: Registry, act: Act)
    ensures |w.issued| <= |Do(cfg, token, w, act).issued|
  {
  }

  lemma ActNumbered(cfg: Config, token: bytes, start: nat, w: Registry, c: Custody, act: Act)
    requires Custodial(cfg, token, start, w, c) && Orderly(cfg, token, w, act)
    requires start + |Do(cfg, token, w, act).issued| < U64
    ensures Custodial(cfg, token, start, Do(cfg, token, w, act), Next(cfg, token, w, act, c))
  {
    hide Do, Custodial, Orderly, GiveUp, IsAbout;
    match act
    case Make(call) => MakeNumbered(cfg, token, start, w, c, call);
    case Pass(call) => PassNumbered(cfg, token, start, w, c, call);
    case Arrive(i, courier) => ArriveNumbered(cfg, token, start, w, c, i, courier);
    case Grant(call, on) => GrantNumbered(cfg, token, start, w, c, call, on);
    case Work(j, op) => WorkNumbered(cfg, token, start, w, c, j, op);
  }

  /** Custody and numbering hold over every orderly run. */
  lemma {:induction false} RunNumbered(cfg: Config, token: bytes, start: nat, w: Registry, c: Custody, acts: seq<Act>)
    requires Custodial(cfg, token, start, w, c) && AllOrderly(cfg, token, w, acts)
    requires start + |DoAll(cfg, token, w, acts).issued| < U64
    ensures Custodial(cfg, token, start, DoAll(cfg, token, w, acts), CustodyAfter(cfg, token, w, acts, c))
    ensures |w.issued| <= |DoAll(cfg, token, w, acts).issued|
  {
    hide Do, Custodial, Orderly, Next;
    if acts != [] {
      var n := |acts| - 1;
      var w1 := DoAll(cfg, token, w, acts[..n]);
      IssuedGrows(cfg, token, w1, acts[n]);
      RunNumbered(cfg, token, start, w, c, acts[..n]);
      ActNumbered(cfg, token, start, w1, CustodyAfter(cfg, token, w, acts[..n], c), acts[n]);
    }
  }

  lemma StartsCustodial(cfg: Config, token: bytes, w: Registry, owner: Address)
    requires Owned(cfg, token, w, Held(owner)) && w.mail == [] && w.issued == [] && NonceOf(cfg, w, owner, token) < U64
    ensures Custodial(cfg, token, NonceOf(cfg, w, owner, token), w, Held(owner))
  {
  }

  /** The nonce that bounds what was issued: the owner's, or that of the hand-off in flight. */
  function BoundOf(cfg: Config, token: bytes, w: Registry, c: Custody): nat
    requires c.Travelling? ==> c.index < |w.mail| && Content(w.mail[c.index]).Some?
  {
    match c
    case Held(owner) => NonceOf(cfg, w, owner, token)
    case Travelling(i) => Content(w.mail[i]).value.1
  }

  /** Some orderly run leads from one registry to another. */
  ghost predicate Reaches(cfg: Config, token: bytes, w: Registry, w': Registry) {
    exists acts :: AllOrderly(cfg, token, w, acts) && DoAll(cfg, token, w, acts) == w'
  }

  /** No nonce is issued twice, and the holder's nonce, or the one in flight, bounds every issued one. */
  lemma NoncesAreUnique(cfg: Config, token: bytes, w: Registry, owner: Address, w': Registry) returns (c: Custody)
    requires Owned(cfg, token, w, Held(owner)) && w.mail == [] && w.issued == [] && Reaches(cfg, token, w, w')
    requires NonceOf(cfg, w, owner, token) + |w'.issued| < U64
    ensures Owned(cfg, token, w', c) && (c.Travelling? ==> c.index < |w'.mail| && IsAbout(w'.mail[c.index], token))
    ensures forall i, j :: 0 <= i < j < |w'.issued| ==> w'.issued[i] < w'.issued[j]
    ensures forall i :: 0 <= i < |w'.issued| ==>
      NonceOf(cfg, w, owner, token) < w'.issued[i] <= BoundOf(cfg, token, w', c)
  {
    hide DoAll, AllOrderly, Owned, IsAbout;
    var acts :| AllOrderly(cfg, token, w, acts) && DoAll(cfg, token, w, acts) == w';
    var start := NonceOf(cfg, w, owner, token);
    StartsCustodial(cfg, token, w, owner);
    RunNumbered(cfg, token, start, w, Held(owner), acts);
    c := CustodyAfter(cfg, token, w, acts, Held(owner));
    if c.Travelling? {
      TravellingIsAbout(token, w', c, start + |w'.issued|);
    }
  }

  lemma TravellingIsAbout(token: bytes, w: Registry, c: Custody, bound: nat)
    requires Mailed(token, w, c, bound) && c.Travelling?
    ensures c.index < |w.mail| && IsAbout(w.mail[c.index], token) && Content(w.mail[c.index]).value.1 == bound
  {
  }
}
