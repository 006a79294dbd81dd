/**
 * The assumptions can be met: a marshaller that does what is asked of one. And what can go wrong does: runs in which a
 * late echo or a second grant repeats a nonce, a wipe that leaves a wrong count, and two parses that differ.
 */
module Witnesses {
  import opened Bytes
  import opened Results
  import opened Tokens
  import opened Keys
  import opened Storage
  import opened Supply
  import opened Roles
  import opened Totals
  import opened Liquidity
  import opened Invariants
  import opened OperationsKeep
  import opened Messages
  import opened TransferParser
  import opened Transfers
  import MultiShard
  import opened Availability
  import opened NetworkSafe
  import opened Handoff
  import opened Network
  import opened Operations
  import opened GlobalSettings
  import opened HandoffRuns
  import opened Echoes
  import opened Wire

  // ---- a marshaller ----

  /** A byte string that ends where its zero stands, whatever follows. */
  function Stuff(b: bytes): bytes {
    if b == [] then [0] else [1, b[0]] + Stuff(b[1..])
  }

  lemma {:induction false} StuffInjective(a: bytes, b: bytes, x: bytes, y: bytes)
    requires Stuff(a) + x == Stuff(b) + y
    ensures a == b && x == y
  {
    var s, t := Stuff(a) + x, Stuff(b) + y;
    assert s[0] == Stuff(a)[0] && t[0] == Stuff(b)[0];
    if a == [] {
      assert x == s[1..] && y == t[1..];
    } else {
      assert s[1] == a[0] && t[1] == b[0];
      assert s[2..] == Stuff(a[1..]) + x && t[2..] == Stuff(b[1..]) + y;
      StuffInjective(a[1..], b[1..], x, y);
      assert a == [a[0]] + a[1..] && b == [b[0]] + b[1..];
    }
  }

  function Flat(fields: seq<bytes>): bytes {
    if fields == [] then [] else Stuff(fields[0]) + Flat(fields[1..])
  }

  lemma StuffNonEmpty(b: bytes)
    ensures |Stuff(b)| > 0
  {
  }

  lemma {:induction false} FlatInjective(p: seq<bytes>, q: seq<bytes>)
    requires Flat(p) == Flat(q)
    ensures p == q
  {
    if p != [] {
      StuffNonEmpty(p[0]);
    }
    if q != [] {
      StuffNonEmpty(q[0]);
    }
    if p != [] && q != [] {
      StuffInjective(p[0], q[0], Flat(p[1..]), Flat(q[1..]));
      FlatInjective(p[1..], q[1..]);
      assert p == [p[0]] + p[1..] && q == [q[0]] + q[1..];
    }
  }

  function Magnitude(v: int): nat {
    if v < 0 then -v else v
  }

  function Sign(v: int): bytes {
    if v < 0 then [1] else []
  }

  function MetaFields(m: Option<MetaData>): seq<bytes> {
    match m
    case None => []
    case Some(d) => [ToBytes(d.nonce), d.name, d.creator, ToBytes(d.royalties), d.hash, d.attributes] + d.uris
  }

  function Fields(t: DCToken): seq<bytes> {
    [ToBytes(t.kind), Sign(t.value), ToBytes(Magnitude(t.value)), t.properties, t.reserved] + MetaFields(t.metadata)
  }

  lemma MetaFieldsInjective(m: Option<MetaData>, n: Option<MetaData>)
    requires MetaFields(m) == MetaFields(n)
    ensures m == n
  {
    if m.Some? {
      var f, g := MetaFields(m), MetaFields(n);
      assert |g| >= 6 && n.Some?;
      assert f[0] == g[0] && f[1] == g[1] && f[2] == g[2] && f[3] == g[3] && f[4] == g[4] && f[5] == g[5];
      assert m.value.uris == f[6..] && n.value.uris == g[6..];
      ToBytesInjective(m.value.nonce, n.value.nonce);
      ToBytesInjective(m.value.royalties, n.value.royalties);
    }
  }

  lemma FieldsInjective(t: DCToken, u: DCToken)
    requires Fields(t) == Fields(u)
    ensures t == u
  {
    hide ToBytes, MetaFields;
    var f, g := Fields(t), Fields(u);
    assert f[0] == g[0] && f[1] == g[1] && f[2] == g[2] && f[3] == g[3] && f[4] == g[4];
    assert MetaFields(t.metadata) == f[5..] && MetaFields(u.metadata) == g[5..];
    ToBytesInjective(t.kind, u.kind);
    ToBytesInjective(Magnitude(t.value), Magnitude(u.value));
    assert Sign(t.value) == Sign(u.value);
    MetaFieldsInjective(t.metadata, u.metadata);
  }

  function Marshal(t: DCToken): bytes {
    seq(33, i => 7) + Flat(Fields(t))
  }

  lemma MarshalInjective(t: DCToken, u: DCToken)
    requires Marshal(t) == Marshal(u)
    ensures t == u
  {
    assert Marshal(t)[33..] == Flat(Fields(t)) && Marshal(u)[33..] == Flat(Fields(u));
    FlatInjective(Fields(t), Fields(u));
    FieldsInjective(t, u);
  }

  const FREE := Costs(0, 0, 0, 0, 0, 0, 0, 0, 0, 0, 0, 0)

  /** Two shards, told apart by the first byte of an address. */
  function ShardOf(a: Address): nat {
    if a == [] then 0 else a[0] % 2
  }

  ghost function Unmarshal(data: bytes): Option<DCToken> {
    if exists t :: Marshal(t) == data then Some(var t :| Marshal(t) == data; t) else None
  }

  const CONTRACT: Address := [9]

  /** Two shards and free calls, with the marshaller above. */
  ghost function Standard(flags: Flags): Config {
    Config(0, 2, ShardOf, Marshal, data => Unmarshal(data), flags, FREE, [], CONTRACT, 100)
  }

  /** There are environments of both eras. */
  lemma EnvironmentExists(flags: Flags)
    requires flags.saveToSystem && (flags.sendAlways ==> flags.checkTransfer)
    ensures Environment(Standard(flags))
  {
    var cfg := Standard(flags);
    forall t
      ensures cfg.unmarshal(cfg.marshal(t)) == Some(t)
    {
      assert Marshal(t) == cfg.marshal(t);
      var u := Unmarshal(Marshal(t)).value;
      MarshalInjective(t, u);
    }
    assert forall t: DCToken :: |cfg.marshal(t)| >= 33;
  }

  // ---- late echoes ----

  const TOKEN := Ascii("NFT-abcdef")
  const ALICE: Address := [2]
  const BOB: Address := [4]
  const CAROL: Address := [6]

  /** The flags of era B alone. */
  const ONCE := Flags(true, false, false, false, false, false, false, false, false, false, false)

  ghost const PLAIN := Standard(ONCE)

  /** Alice may create; Bob and Carol live in the same shard. */
  const ALICES := NO_ACCOUNT.(roles := map[TOKEN := [ROLE_NFT_CREATE]])
  const START := Registry([EMPTY_SHARD.(accounts := map[ALICE := ALICES]), EMPTY_SHARD], [], [])

  predicate IsPerson(a: Address) {
    a == ALICE || a == BOB || a == CAROL
  }

  function HandOn(a: Address, b: Address): Call {
    Call(CONTRACT, a, 0, [TOKEN, b], 0, false, DirectCall, true)
  }

  function CreateOne(a: Address): Call {
    Call(a, a, 0, [TOKEN, [1], [], [], [], [], []], 0, false, DirectCall, true)
  }

  lemma PlainIsEraB()
    ensures Environment(PLAIN) && EraB(PLAIN)
  {
    EnvironmentExists(ONCE);
  }

  lemma OneIsOne()
    ensures FromBytes([1]) == 1 && FromBytes([]) == 0
  {
    assert [1 as byte][..0] == [];
  }

  /** Where nothing is paused a new token is saved, and nothing is counted. */
  lemma StorageAccepts(s: ShardState, a: Address, token: bytes, nonce: nat, t: DCToken)
    requires s.settings == map[] && t.properties == [] && IsPerson(a)
    ensures SaveToken(PLAIN, s, a, a, token, nonce, t, true, false).Ok?
    ensures forall s1 :: AddLiquidity(PLAIN, s1, token, nonce, t.value) == Ok(s1)
  {
    hide KeyOf;
  }

  lemma CreateSucceeds(s: ShardState, a: Address)
    requires s.settings == map[] && IsPerson(a) && ROLE_NFT_CREATE in RolesOf(s, a, TOKEN)
    ensures Create(PLAIN, s, CreateOne(a)).Ok?
  {
    hide SaveToken, AddLiquidity, RolesOf, LatestNonce, TotalLength, FromBytes;
    OneIsOne();
    assert PlanCreate(PLAIN, s, CreateOne(a)).Ok?;
    var c := PlanCreate(PLAIN, s, CreateOne(a)).value;
    StorageAccepts(s, c.creator, c.token, c.nonce, c.created);
  }

  // ---- the acts of the witnesses ----

  /** Two shards, and no setting in the first. */
  predicate Clear(w: Registry) {
    |w.shards| == 2 && w.shards[0].settings == map[]
  }

  /** An account that holds the role creates. */
  lemma PersonCreates(w: Registry, a: Address)
    requires Clear(w) && IsPerson(a) && CountOf(PLAIN, w, a, TOKEN) > 0
    ensures Issues(PLAIN, TOKEN, w, CreateOne(a), a) && Orderly(PLAIN, TOKEN, w, Make(CreateOne(a)))
    ensures Clear(Do(PLAIN, TOKEN, w, Make(CreateOne(a))))
  {
    hide Create, PlanCreate;
    var s := w.shards[0];
    CountIsHolding(s, a, TOKEN);
    assert At(PLAIN, 0) == PLAIN;
    CreateSucceeds(s, a);
    PlanIsByCreator(PLAIN, s, CreateOne(a));
    OperationsKeepSettings(PLAIN, s, Creating(CreateOne(a)));
  }

  /** The owner hands on to another account of the shard. */
  lemma PersonHandsOn(w: Registry, a: Address, b: Address)
    requires Clear(w) && Custodial(PLAIN, TOKEN, 0, w, Held(a)) && IsPerson(a) && IsPerson(b) && a != b
    ensures var w', act := Do(PLAIN, TOKEN, w, Pass(HandOn(a, b))), Pass(HandOn(a, b));
            && Clear(w') && Orderly(PLAIN, TOKEN, w, act) && Next(PLAIN, TOKEN, w, act, Held(a)) == Held(b)
            && Custodial(PLAIN, TOKEN, 0, w', Held(b)) && w'.issued == w.issued
            && w'.mail[..|w.mail|] == w.mail && |w'.mail| == |w.mail| + 1
            && IsEcho(TOKEN, w'.mail[|w.mail|], b, |w.issued|)
  {
    hide GiveUp, Custodial, IsEcho, IsAbout, CountOf;
    var s := w.shards[0];
    assert At(PLAIN, 0) == PLAIN;
    HandOnSucceeds(s, a, b);
    OperationsKeepSettings(PLAIN, s, GivingUpRole(HandOn(a, b)));
    CountIsOne(PLAIN, TOKEN, 0, w, Held(a), a);
    PassPostsEcho(PLAIN, TOKEN, 0, w, Held(a), HandOn(a, b));
  }

  lemma HandOnSucceeds(s: ShardState, a: Address, b: Address)
    requires IsPerson(a) && IsPerson(b)
    ensures GiveUp(PLAIN, s, HandOn(a, b)).Ok?
  {
    hide TakeOver, DeleteCreateRole, PutNonce, HandoffMessage, LatestNonce;
  }

  lemma LetterKeepsClear(w: Registry, i: nat, courier: Address)
    requires Clear(w)
    ensures Clear(Do(PLAIN, TOKEN, w, Arrive(i, courier)))
  {
    hide ParseData, Receive;
    if i < |w.mail| && ParseData(w.mail[i].data).Ok? {
      var call := ArrivalCall(w.mail[i], courier, ParseData(w.mail[i].data).value.1);
      assert At(PLAIN, 0) == PLAIN;
      if Receive(PLAIN, w.shards[0], call).Ok? {
        OperationsKeepSettings(PLAIN, w.shards[0], ReceivingRole(call));
      }
    }
  }

  lemma StartCustodial()
    ensures Custodial(PLAIN, TOKEN, 0, START, Held(ALICE)) && Clear(START) && START.mail == [] && START.issued == []
  {
    assert multiset([ROLE_NFT_CREATE])[ROLE_NFT_CREATE] == 1;
    assert Owned(PLAIN, TOKEN, START, Held(ALICE)) && NonceOf(PLAIN, START, ALICE, TOKEN) == 0;
    StartsCustodial(PLAIN, TOKEN, START, ALICE);
  }

  lemma OneAct(w: Registry, act: Act, c: Custody)
    ensures DoAll(PLAIN, TOKEN, w, [act]) == Do(PLAIN, TOKEN, w, act)
    ensures AllOrderly(PLAIN, TOKEN, w, [act]) <==> Orderly(PLAIN, TOKEN, w, act)
    ensures CustodyAfter(PLAIN, TOKEN, w, [act], c) == Next(PLAIN, TOKEN, w, act, c)
  {
    hide Do, Orderly, Next;
    assert [act][..0] == [];
  }

  /** The echo of a hand-off to Bob, after one more act. */
  lemma EchoIsThere(w: Registry, act: Act)
    requires Custodial(PLAIN, TOKEN, 0, w, Held(BOB)) && Orderly(PLAIN, TOKEN, w, act) && w.issued == []
    requires |w.mail| == 1 && IsEcho(TOKEN, w.mail[0], BOB, 0)
    requires var w1 := Do(PLAIN, TOKEN, w, act); w.mail <= w1.mail && |w1.issued| <= 1
    ensures Echoing(PLAIN, TOKEN, 0, w, BOB, [act], 0, ALICE)
  {
    hide Do, DoAll, AllOrderly, Orderly, Custodial, IsEcho;
    OneAct(w, act, Held(BOB));
  }

  lemma MakeGrows(w: Registry, a: Address)
    requires Issues(PLAIN, TOKEN, w, CreateOne(a), a)
    ensures var w' := Do(PLAIN, TOKEN, w, Make(CreateOne(a))); w'.mail == w.mail && |w'.issued| == |w.issued| + 1
  {
    hide Do, CountOf, NonceOf;
    MakeBooks(PLAIN, TOKEN, w, CreateOne(a));
  }

  lemma OneMore(w: Registry, acts: seq<Act>, act: Act)
    ensures DoAll(PLAIN, TOKEN, w, acts + [act]) == Do(PLAIN, TOKEN, DoAll(PLAIN, TOKEN, w, acts), act)
  {
    hide Do;
    assert (acts + [act])[..|acts|] == acts;
  }

  lemma FourActs(w: Registry, a: Act, b: Act, c: Act, d: Act)
    ensures DoAll(PLAIN, TOKEN, w, [a, b, c, d])
            == Do(PLAIN, TOKEN, Do(PLAIN, TOKEN, Do(PLAIN, TOKEN, Do(PLAIN, TOKEN, w, a), b), c), d)
  {
    hide Do, DoAll;
    OneAct(w, a, Held(BOB));
    OneMore(w, [a], b);
    OneMore(w, [a, b], c);
    OneMore(w, [a, b, c], d);
    assert [a] + [b] == [a, b] && [a, b] + [c] == [a, b, c] && [a, b, c] + [d] == [a, b, c, d];
  }

  /** Alice hands on to Bob, Bob creates, the echo arrives, Bob creates again: one nonce is issued twice. */
  lemma LateEchoHappens()
    ensures Environment(PLAIN) && EraB(PLAIN)
    ensures Repeats(DoAll(PLAIN, TOKEN, START,
      [Pass(HandOn(ALICE, BOB)), Make(CreateOne(BOB)), Arrive(0, ALICE), Make(CreateOne(BOB))]).issued)
  {
    hide Do, DoAll, Repeats, Custodial, IsEcho, CountOf, NonceOf, Issues, Orderly, Echoing, Next, Clear, Environment;
    PlainIsEraB();
    StartCustodial();
    PersonHandsOn(START, ALICE, BOB);
    var pass, make := Pass(HandOn(ALICE, BOB)), Make(CreateOne(BOB));
    var w := Do(PLAIN, TOKEN, START, pass);
    CountIsOne(PLAIN, TOKEN, 0, w, Held(BOB), BOB);
    PersonCreates(w, BOB);
    MakeGrows(w, BOB);
    EchoIsThere(w, make);
    OneAct(w, make, Held(BOB));
    EchoRewinds(PLAIN, TOKEN, 0, w, BOB, [make], 0, ALICE);
    LetterKeepsClear(Do(PLAIN, TOKEN, w, make), 0, ALICE);
    PersonCreates(AfterEcho(PLAIN, TOKEN, w, [make], 0, ALICE), BOB);
    LateEchoRepeats(PLAIN, TOKEN, 0, w, BOB, [make], 0, ALICE, CreateOne(BOB));
    FourActs(START, pass, make, Arrive(0, ALICE), make);
  }

  /** Alice hands on to Bob, Bob to Carol, Bob's echo arrives: both create, and one nonce is issued twice. */
  lemma EchoAfterHandOnHappens()
    ensures Environment(PLAIN) && EraB(PLAIN)
    ensures Repeats(DoAll(PLAIN, TOKEN, START,
      [Pass(HandOn(ALICE, BOB)), Pass(HandOn(BOB, CAROL)), Arrive(0, ALICE), Make(CreateOne(BOB)),
        Make(CreateOne(CAROL))]).issued)
  {
    hide Do, DoAll, Repeats, Custodial, IsEcho, CountOf, NonceOf, Issues, Orderly, Echoing, Next, Clear, Environment;
    PlainIsEraB();
    StartCustodial();
    PersonHandsOn(START, ALICE, BOB);
    var pass, again := Pass(HandOn(ALICE, BOB)), Pass(HandOn(BOB, CAROL));
    var w := Do(PLAIN, TOKEN, START, pass);
    PersonHandsOn(w, BOB, CAROL);
    EchoIsThere(w, again);
    OneAct(w, again, Held(BOB));
    EchoAfterHandOnRepeats(PLAIN, TOKEN, 0, w, BOB, [again], 0, ALICE, CAROL, CreateOne(BOB), CreateOne(CAROL));
    LetterKeepsClear(Do(PLAIN, TOKEN, w, again), 0, ALICE);
    var w2 := AfterEcho(PLAIN, TOKEN, w, [again], 0, ALICE);
    PersonCreates(w2, BOB);
    MakeKeepsCount(w2, BOB, CAROL);
    PersonCreates(Do(PLAIN, TOKEN, w2, Make(CreateOne(BOB))), CAROL);
    var first := [pass, again, Arrive(0, ALICE), Make(CreateOne(BOB))];
    FourActs(START, pass, again, Arrive(0, ALICE), Make(CreateOne(BOB)));
    OneMore(START, first, Make(CreateOne(CAROL)));
    assert first + [Make(CreateOne(CAROL))]
      == [pass, again, Arrive(0, ALICE), Make(CreateOne(BOB)), Make(CreateOne(CAROL))];
  }

  lemma MakeKeepsCount(w: Registry, a: Address, b: Address)
    requires Issues(PLAIN, TOKEN, w, CreateOne(a), a)
    ensures CountOf(PLAIN, Do(PLAIN, TOKEN, w, Make(CreateOne(a))), b, TOKEN) == CountOf(PLAIN, w, b, TOKEN)
  {
    hide Do, CountOf, NonceOf;
    MakeBooks(PLAIN, TOKEN, w, CreateOne(a));
  }

  // ---- a second grant of the multi-shard role ----

  const GRANT_MULTI := Call(CONTRACT, ALICE, 0, [TOKEN, ROLE_NFT_CREATE_MULTI_SHARD], 0, false, DirectCall, true)

  /** A grant to Alice starts her range, and keeps her create role. */
  lemma GrantsAlice(w: Registry)
    requires Clear(w)
    ensures var act := Grant(GRANT_MULTI, true);
            var w' := Do(PLAIN, TOKEN, w, act);
            && MultiShard.Restarts(PLAIN, TOKEN, w, act, ALICE) && MultiShard.Unhanded(PLAIN, TOKEN, w, act, ALICE)
            && Clear(w') && CountOf(PLAIN, w', ALICE, TOKEN) == CountOf(PLAIN, w, ALICE, TOKEN)
  {
    hide NewRoles, CountIn, StartNonce, LatestNonce, RolesOf;
    var s := w.shards[0];
    assert At(PLAIN, 0) == PLAIN;
    assert SetRoles(PLAIN, s, GRANT_MULTI, true).Ok?;
    assert |ROLE_NFT_CREATE| != |ROLE_NFT_CREATE_MULTI_SHARD|;
    GrantBooks(PLAIN, s, GRANT_MULTI, true);
    OperationsKeepSettings(PLAIN, s, ChangingRoles(GRANT_MULTI, true));
  }

  lemma AliceCreates(w: Registry)
    requires Clear(w) && CountOf(PLAIN, w, ALICE, TOKEN) > 0
    ensures var act := Make(CreateOne(ALICE));
            var w' := Do(PLAIN, TOKEN, w, act);
            && MultiShard.Creates(PLAIN, TOKEN, w, act, ALICE) && MultiShard.Unhanded(PLAIN, TOKEN, w, act, ALICE)
            && Clear(w') && CountOf(PLAIN, w', ALICE, TOKEN) == CountOf(PLAIN, w, ALICE, TOKEN)
  {
    hide Create, PlanCreate, CountOf;
    PersonCreates(w, ALICE);
    MakeKeepsCount(w, ALICE, ALICE);
    assert At(PLAIN, 0) == PLAIN;
    if Create(PLAIN, w.shards[0], CreateOne(ALICE)).Ok? {
      PlanIsByCreator(PLAIN, w.shards[0], CreateOne(ALICE));
    }
  }

  lemma GrantThenCreate(w1: Registry)
    requires w1 == Do(PLAIN, TOKEN, START, Grant(GRANT_MULTI, true))
    requires MultiShard.Restarts(PLAIN, TOKEN, START, Grant(GRANT_MULTI, true), ALICE)
    requires MultiShard.Unhanded(PLAIN, TOKEN, START, Grant(GRANT_MULTI, true), ALICE)
    requires MultiShard.Creates(PLAIN, TOKEN, w1, Make(CreateOne(ALICE)), ALICE)
    requires MultiShard.Unhanded(PLAIN, TOKEN, w1, Make(CreateOne(ALICE)), ALICE)
    ensures var acts := [Grant(GRANT_MULTI, true), Make(CreateOne(ALICE))];
            && DoAll(PLAIN, TOKEN, START, acts) == Do(PLAIN, TOKEN, w1, Make(CreateOne(ALICE)))
            && MultiShard.AllUnhanded(PLAIN, TOKEN, START, acts, ALICE)
            && MultiShard.BeginsOnce(PLAIN, TOKEN, START, acts, ALICE)
            && |MultiShard.IssuedTo(PLAIN, TOKEN, START, acts, ALICE)| == 1
  {
    hide Do, PlanCreate, MultiShard.Creates, MultiShard.Restarts, MultiShard.Unhanded, StartNonce, NonceOf;
    var acts := [Grant(GRANT_MULTI, true), Make(CreateOne(ALICE))];
    var first := [Grant(GRANT_MULTI, true)];
    assert acts[..1] == first && first[..0] == [];
    MultiShard.GrantIsNoCreate(PLAIN, TOKEN, START, Grant(GRANT_MULTI, true), ALICE);
    CreateIsNoGrant(w1);
    assert DoAll(PLAIN, TOKEN, START, first) == w1;
    assert MultiShard.IssuedTo(PLAIN, TOKEN, START, first, ALICE) == [];
    assert MultiShard.HasBegun(PLAIN, TOKEN, START, first, ALICE);
    assert MultiShard.BeginsOnce(PLAIN, TOKEN, START, first, ALICE);
    assert MultiShard.AllUnhanded(PLAIN, TOKEN, START, first, ALICE);
  }

  lemma CreateIsNoGrant(w: Registry)
    ensures !MultiShard.Restarts(PLAIN, TOKEN, w, Make(CreateOne(ALICE)), ALICE)
  {
  }

  /** Alice is granted her range, creates, is granted it again and creates: she is issued one nonce twice. */
  lemma SecondGrantRepeats()
    ensures Environment(PLAIN) && EraB(PLAIN)
    ensures Repeats(MultiShard.IssuedTo(PLAIN, TOKEN, START,
      [Grant(GRANT_MULTI, true), Make(CreateOne(ALICE)), Grant(GRANT_MULTI, true), Make(CreateOne(ALICE))], ALICE))
  {
    hide Do, DoAll, Custodial, Clear, CountOf, Environment, MultiShard.Creates, MultiShard.Restarts,
        MultiShard.Unhanded, MultiShard.AllUnhanded, MultiShard.BeginsOnce, MultiShard.IssuedTo;
    PlainIsEraB();
    var grant, make := Grant(GRANT_MULTI, true), Make(CreateOne(ALICE));
    StartCustodial();
    CountIsOne(PLAIN, TOKEN, 0, START, Held(ALICE), ALICE);
    GrantsAlice(START);
    var w1 := Do(PLAIN, TOKEN, START, grant);
    AliceCreates(w1);
    GrantThenCreate(w1);
    var w2 := Do(PLAIN, TOKEN, w1, make);
    GrantsAlice(w2);
    AliceCreates(Do(PLAIN, TOKEN, w2, grant));
    MultiShard.RestartRepeats(PLAIN, TOKEN, START, [grant, make], ALICE, grant, make);
    assert [grant, make] + [grant, make] == [grant, make, grant, make];
  }

  // ---- a wipe of a nonce with a dash byte ----

  /** The flags of era A, with the decrease of liquidity on wipes. */
  const ALWAYS := Flags(true, true, false, false, true, false, false, true, false, false, false)

  const SOME_METADATA := MetaData(45, [], [], 0, [], [], [])

  /** Alice holds seven of the nonce 45, which is written as a dash; her entry is frozen, and the record counts it. */
  function Dashed(): ShardState {
    var k := KeyOf(TOKEN, 45);
    ShardState(map[ALICE := NO_ACCOUNT.(tokens := map[k := DCToken(NON_FUNGIBLE, 7, [1, 0], None, [])])],
               map[k := DCToken(NON_FUNGIBLE, 7, [], Some(SOME_METADATA), [1])], map[], map[])
  }

  function WipeDashed(): Call {
    Call(CONTRACT, ALICE, 0, [KeyOf(TOKEN, 45)], 0, false, DirectCall, true)
  }

  lemma TokenIsValid()
    ensures ValidToken(TOKEN)
  {
    assert TOKEN == [78, 70, 84, 45, 97, 98, 99, 100, 101, 102];
  }

  lemma DashedIsSound()
    ensures Sound(Dashed())
  {
    var s, k := Dashed(), KeyOf(TOKEN, 45);
    forall q
      ensures Total(s, q) == if q == k then 7 else 0
    {
      SumRemove(s.accounts, s.accounts.Keys, ALICE, q);
      assert s.accounts.Keys - {ALICE} == {};
    }
  }

  lemma DashIsWritten()
    ensures ToBytes(45) == [45]
  {
    assert ToBytes(45 / 256) == [];
  }

  /** The wipe of a sound shard leaves one whose record counts what nobody holds. */
  lemma WipeCanMiscount()
    ensures Environment(Standard(ALWAYS)) && EraA(Standard(ALWAYS))
    ensures Sound(Dashed()) && Wipe(Standard(ALWAYS), Dashed(), WipeDashed()).Ok?
    ensures !Sound(Wipe(Standard(ALWAYS), Dashed(), WipeDashed()).value)
  {
    hide Sound, Environment, ToBytes, ExtractTokenAndNonce, ValidToken;
    var cfg := Standard(ALWAYS);
    EnvironmentExists(ALWAYS);
    TokenIsValid();
    DashedIsSound();
    DashIsWritten();
    PartsOfKey(TOKEN, 45);
    assert Split([45], DASH)[0] == [];
    assert Wipe(cfg, Dashed(), WipeDashed()).Ok?;
    WipeSoundExactly(cfg, Dashed(), WipeDashed(), TOKEN, 45);
  }

  // ---- a destination that reads as a small number ----

  const DAVE: Address := [1]

  /** Alice holds five of a fungible token. */
  const FIVES := NO_ACCOUNT.(tokens := map[TOKEN := DCToken(FUNGIBLE, 5, [], None, [])])
  const FIVE := EMPTY_SHARD.(accounts := map[ALICE := FIVES])

  const SEND_FIVE := Call(ALICE, ALICE, 0, [DAVE, [1], TOKEN, [], [5]], 0, false, DirectCall, true)

  lemma FiveIsAvailable()
    ensures Available(FIVE)
  {
    TokenIsValid();
    PlainKey(TOKEN);
  }

  lemma FiveIsFive()
    ensures FromBytes([5]) == 5 && FromBytes([1]) == 1 && FromBytes([]) == 0
  {
    OneIsOne();
    assert [5 as byte][..0] == [];
  }

  lemma FiveIsRequested()
    ensures Requested(SEND_FIVE) == [Triple(TOKEN, 0, [5])]
    ensures ReadTriples(SEND_FIVE.args, 2, 1) == Ok([Triple(TOKEN, 0, [5])])
  {
    hide FromBytes;
    FiveIsFive();
    var ts := TriplesFrom(SEND_FIVE.args, 2, 1);
    assert ts[0] == Triple(TOKEN, 0, [5]);
    assert ts == [Triple(TOKEN, 0, [5])];
  }

  lemma FiveIsTransferred() returns (s: ShardState, t: DCToken)
    ensures TransferAll(PLAIN, FIVE, ALICE, DAVE, [Triple(TOKEN, 0, [5])], false) == Ok((s, [t]))
  {
    hide FromBytes;
    FiveIsFive();
    PlainKey(TOKEN);
    var one := Triple(TOKEN, 0, [5]);
    assert TransferOne(PLAIN, FIVE, ALICE, DAVE, one, false).Ok?;
    s, t := TransferOne(PLAIN, FIVE, ALICE, DAVE, one, false).value.0,
      TransferOne(PLAIN, FIVE, ALICE, DAVE, one, false).value.1;
    OneTransfer(one);
  }

  lemma OneTransfer(t: Triple)
    ensures TransferAll(PLAIN, FIVE, ALICE, DAVE, [t], false)
      == match TransferOne(PLAIN, FIVE, ALICE, DAVE, t, false)
         case Ok((s, sent)) => Ok((s, [sent]))
         case Err(error) => Err(error)
  {
    hide TransferOne;
    assert [t][..0] == [];
    var none: seq<DCToken> := [];
    assert TransferAll(PLAIN, FIVE, ALICE, DAVE, [], false) == Ok((FIVE, none));
    if TransferOne(PLAIN, FIVE, ALICE, DAVE, t, false).Ok? {
      assert none + [TransferOne(PLAIN, FIVE, ALICE, DAVE, t, false).value.1]
        == [TransferOne(PLAIN, FIVE, ALICE, DAVE, t, false).value.1];
    }
  }

  lemma FiveIsSent()
    ensures MultiTransferOnSender(PLAIN, FIVE, SEND_FIVE).Ok?
  {
    hide TransferAll, FromBytes, ReadTriples, Print;
    FiveIsFive();
    FiveIsRequested();
    var s, t := FiveIsTransferred();
    var one := Triple(TOKEN, 0, [5]);
    assert [one][..0] == [] && [t][..0] == [];
    assert PackAll(PLAIN, s, DAVE, [], [], 0) == Ok(Message(s, [], 0, 0));
    assert PackAll(PLAIN, s, DAVE, [one], [t], 0).Ok?;
  }

  /** A multi-transfer to an address that is a number of 64 bits is parsed in two ways. */
  lemma ParsesCanDiffer()
    ensures Environment(PLAIN) && Inv(PLAIN, FIVE) && MultiTransferOnSender(PLAIN, FIVE, SEND_FIVE).Ok?
    ensures var out := MultiTransferOnSender(PLAIN, FIVE, SEND_FIVE).value.1.transfer;
            out.Some? && ParseTransfers(PLAIN.unmarshal, ALICE, ALICE, MULTI_TRANSFER, SEND_FIVE.args)
              != ParseEmitted(PLAIN.unmarshal, out.value)
  {
    hide MultiTransferOnSender, ParseTransfers, ParseEmitted, Available, FromBytes, ValidToken;
    PlainIsEraB();
    FiveIsAvailable();
    FiveIsSent();
    FiveIsRequested();
    FiveIsFive();
    TokenIsValid();
    MultiParsesAgree(PLAIN, FIVE, SEND_FIVE);
  }
}
