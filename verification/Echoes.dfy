/**
 * Echoes: a hand-off inside one shard is served at once and posted all the same, and its echo writes the nonce and the
 * role of the next owner a second time, whenever it arrives.
 */
module Echoes {
  import opened Bytes
  import opened Results
  import opened Tokens
  import opened Transfers
  import opened Supply
  import opened Roles
  import opened Handoff
  import opened Operations
  import opened Wire
  import opened Network
  import opened HandoffRuns

  /** A letter that can be read arrives, unless the system contract delivers it. */
  lemma LetterArrives(cfg: Config, token: bytes, w: Registry, i: nat, courier: Address)
    requires courier != cfg.systemContract && i < |w.mail| && IsAbout(w.mail[i], token)
    requires cfg.shardOf(w.mail[i].receiver) < |w.shards|
    ensures Do(cfg, token, w, Arrive(i, courier)) != w
  {
    hide TakeOver, ParseData;
    var w', j := Do(cfg, token, w, Arrive(i, courier)), cfg.shardOf(w.mail[i].receiver);
    var args := ParseData(w.mail[i].data).value.1;
    assert Receive(At(cfg, j), w.shards[j], ArrivalCall(w.mail[i], courier, args)).Ok?;
    assert |w'.mail| == |w.mail| - 1;
  }

  lemma {:induction false} ShortBytes(n: nat, k: nat)
    requires n < Pow256(k)
    ensures |ToBytes(n)| <= k
  {
    if n > 0 {
      ShortBytes(n / 256, k - 1);
    }
  }

  /**
   * In the system contract's name a hand-off is refused by both halves: its nonce is too short to be the address of a
   * next owner.
   */
  lemma SystemContractCannotDeliver(cfg: Config, token: bytes, w: Registry, i: nat, t: bytes, nonce: nat)
    requires |cfg.systemContract| > 8 && nonce < U64 && i < |w.mail| && w.mail[i].data == HandoffMessage(t, nonce)
    requires cfg.shardOf(w.mail[i].receiver) < |w.shards|
    ensures ParseData(w.mail[i].data).Ok?
    ensures var j := cfg.shardOf(w.mail[i].receiver);
            var call := ArrivalCall(w.mail[i], cfg.systemContract, ParseData(w.mail[i].data).value.1);
            GiveUp(At(cfg, j), w.shards[j], call) == Err(InvalidArguments)
    ensures Do(cfg, token, w, Arrive(i, cfg.systemContract)) == w
  {
    hide ToBytes, ParseData, Print, Receive, TakeOver, DeleteCreateRole, PutNonce, LatestNonce;
    assert |CREATE_ROLE_TRANSFER| == 24;
    ParsePrint(CREATE_ROLE_TRANSFER, [t, ToBytes(nonce)]);
    NonceIsShort(nonce);
    var j := cfg.shardOf(w.mail[i].receiver);
    SystemReceivesNothing(At(cfg, j), w.shards[j],
      ArrivalCall(w.mail[i], cfg.systemContract, ParseData(w.mail[i].data).value.1));
  }

  lemma SystemReceivesNothing(cfg: Config, s: ShardState, call: Call)
    requires call.caller == cfg.systemContract
    ensures Receive(cfg, s, call).Err?
  {
    hide TakeOver;
  }

  lemma NonceIsShort(nonce: nat)
    requires nonce < U64
    ensures |ToBytes(nonce)| <= 8
  {
    hide ToBytes;
    assert Pow256(4) == U32 && Pow256(8) == U64;
    ShortBytes(nonce, 8);
  }

  /** The arrival of a letter changes no nonce and no role if and only if it is in time. */
  lemma EchoChangesNothing(cfg: Config, token: bytes, w: Registry, i: nat, courier: Address)
    requires courier != cfg.systemContract && i < |w.mail| && IsAbout(w.mail[i], token)
    requires cfg.shardOf(w.mail[i].receiver) < |w.shards|
    ensures var w' := Do(cfg, token, w, Arrive(i, courier));
            && w'.mail == w.mail[..i] + w.mail[i + 1..] && w'.issued == w.issued
            && (InTime(cfg, token, w, i) <==>
                forall a, t :: NonceOf(cfg, w', a, t) == NonceOf(cfg, w, a, t) &&
                               CountOf(cfg, w', a, t) == CountOf(cfg, w, a, t))
  {
    hide Do, NonceOf, CountOf, Content;
    LetterArrives(cfg, token, w, i, courier);
    ArriveBooks(cfg, token, w, i, courier);
    AboutNames(token, w.mail[i]);
    var w', b := Do(cfg, token, w, Arrive(i, courier)), w.mail[i].receiver;
    assert NonceOf(cfg, w', b, token) == Content(w.mail[i]).value.1 && CountOf(cfg, w', b, token) > 0;
  }

  lemma ActKeepsShards(cfg: Config, token: bytes, w: Registry, act: Act)
    ensures |Do(cfg, token, w, act).shards| == |w.shards|
  {
    hide Create, GiveUp, ParseData, Receive, SetRoles, Apply;
  }

  lemma {:induction false} RunKeepsShards(cfg: Config, token: bytes, w: Registry, acts: seq<Act>)
    ensures |DoAll(cfg, token, w, acts).shards| == |w.shards|
  {
    hide Do;
    if acts != [] {
      RunKeepsShards(cfg, token, w, acts[..|acts| - 1]);
      ActKeepsShards(cfg, token, DoAll(cfg, token, w, acts[..|acts| - 1]), acts[|acts| - 1]);
    }
  }

  // ---- an echo after any orderly run ----

  /** The echo that tells an account of a hand-off with a nonce. */
  predicate IsEcho(token: bytes, letter: Letter, receiver: Address, nonce: nat) {
    IsAbout(letter, token) && letter.echo && letter.receiver == receiver && Content(letter).value.1 == nonce
  }

  /**
   * Account b holds the role in w, with the nonce of the hand-off that made it the owner; an orderly run follows, and
   * then the echo of that hand-off is delivered.
   */
  ghost predicate Echoing(cfg: Config, token: bytes, start: nat, w: Registry, b: Address, acts: seq<Act>, i: nat,
      courier: Address) {
    var w1 := DoAll(cfg, token, w, acts);
    && Custodial(cfg, token, start, w, Held(b)) && AllOrderly(cfg, token, w, acts)
    && start + |w1.issued| + 1 < U64 && courier != cfg.systemContract
    && i < |w1.mail| && IsEcho(token, w1.mail[i], b, start + |w.issued|)
  }

  /** A hand-off inside one shard makes the next account the owner, and posts the echo of it. */
  lemma PassPostsEcho(cfg: Config, token: bytes, start: nat, w: Registry, c: Custody, call: Call)
    requires Custodial(cfg, token, start, w, c) && Orderly(cfg, token, w, Pass(call))
    requires cfg.shardOf(call.recipient) < |w.shards|
    requires GiveUp(At(cfg, cfg.shardOf(call.recipient)), w.shards[cfg.shardOf(call.recipient)], call).Ok?
    requires |call.args| == 2 && call.args[0] == token && cfg.SameShard(call.recipient, call.args[1])
    ensures var w', next := Do(cfg, token, w, Pass(call)), call.args[1];
            && Custodial(cfg, token, start, w', Held(next)) && w'.issued == w.issued
            && |w'.mail| == |w.mail| + 1 && IsEcho(token, w'.mail[|w.mail|], next, start + |w'.issued|)
  {
    hide GiveUp, CountIn, LatestNonce, IsAbout, Content, HandoffMessage, Custodial;
    var j := cfg.shardOf(call.recipient);
    var s := w.shards[j];
    PassNumbered(cfg, token, start, w, c, call);
    GiveUpPosts(At(cfg, j), s, call);
    LetterReads(call.args[1], token, LatestNonce(s, call.recipient, token), true);
    CountIsOne(cfg, token, start, w, c, call.recipient);
    StaysBounded(cfg, token, start, w, c);
  }

  lemma StaysBounded(cfg: Config, token: bytes, start: nat, w: Registry, c: Custody)
    requires Custodial(cfg, token, start, w, c)
    ensures start + |w.issued| < U64
  {
  }

  function AfterEcho(cfg: Config, token: bytes, w: Registry, acts: seq<Act>, i: nat, courier: Address): Registry {
    Do(cfg, token, DoAll(cfg, token, w, acts), Arrive(i, courier))
  }

  /** Where the run left the token, and what the echo does to it: b may create, from the nonce of the hand-off on. */
  lemma EchoRewinds(cfg: Config, token: bytes, start: nat, w: Registry, b: Address, acts: seq<Act>, i: nat,
      courier: Address)
    requires Echoing(cfg, token, start, w, b, acts, i, courier)
    ensures var w1, w2 := DoAll(cfg, token, w, acts), AfterEcho(cfg, token, w, acts, i, courier);
            && Custodial(cfg, token, start, w1, CustodyAfter(cfg, token, w, acts, Held(b)))
            && |w.issued| <= |w1.issued| && w2.issued == w1.issued
            && w2.mail == w1.mail[..i] + w1.mail[i + 1..] && |w2.shards| == |w1.shards|
            && (forall a :: NonceOf(cfg, w2, a, token)
                  == if a == b then start + |w.issued| else NonceOf(cfg, w1, a, token))
            && (forall a :: CountOf(cfg, w2, a, token) == if a == b then 1 else CountOf(cfg, w1, a, token))
  {
    hide Do, DoAll, Custodial, AllOrderly, CustodyAfter, NonceOf, Content;
    var w1 := DoAll(cfg, token, w, acts);
    var c := CustodyAfter(cfg, token, w, acts, Held(b));
    RunNumbered(cfg, token, start, w, Held(b), acts);
    RunKeepsShards(cfg, token, w, acts);
    OwnerIsHere(cfg, token, start, w, b);
    LetterArrives(cfg, token, w1, i, courier);
    ArriveBooks(cfg, token, w1, i, courier);
    AboutNames(token, w1.mail[i]);
    CountIsOne(cfg, token, start, w1, c, b);
  }

  lemma OwnerIsHere(cfg: Config, token: bytes, start: nat, w: Registry, b: Address)
    requires Custodial(cfg, token, start, w, Held(b))
    ensures cfg.shardOf(b) < |w.shards|
  {
    hide Mailed, Numbered;
    assert CountOf(cfg, w, b, token) == 1;
  }

  lemma CountIsOne(cfg: Config, token: bytes, start: nat, w: Registry, c: Custody, a: Address)
    requires Custodial(cfg, token, start, w, c)
    ensures CountOf(cfg, w, a, token) == if c == Held(a) then 1 else 0
    ensures c == Held(a) ==> NonceOf(cfg, w, a, token) == start + |w.issued|
  {
    hide Mailed;
  }

  /** One account still has custody after the echo if and only if b has the role and nothing was created meanwhile. */
  lemma EchoKeepsCustodyExactly(cfg: Config, token: bytes, start: nat, w: Registry, b: Address, acts: seq<Act>, i: nat,
      courier: Address)
    requires Echoing(cfg, token, start, w, b, acts, i, courier)
    ensures var w1 := DoAll(cfg, token, w, acts);
            (exists c :: Custodial(cfg, token, start, AfterEcho(cfg, token, w, acts, i, courier), c)) <==>
              CountOf(cfg, w1, b, token) > 0 && |w1.issued| == |w.issued|
  {
    hide DoAll, AfterEcho, Echoing, NonceOf, CountOf, CustodyAfter, Content, IsAbout;
    var w1, w2 := DoAll(cfg, token, w, acts), AfterEcho(cfg, token, w, acts, i, courier);
    var c1 := CustodyAfter(cfg, token, w, acts, Held(b));
    EchoRewinds(cfg, token, start, w, b, acts, i, courier);
    EchoIsEcho(cfg, token, start, w, b, acts, i, courier);
    CountIsOne(cfg, token, start, w1, c1, b);
    if CountOf(cfg, w1, b, token) > 0 && |w1.issued| == |w.issued| {
      TakenLetter(token, w1, i, c1, c1, start + |w1.issued|, w2);
      assert Custodial(cfg, token, start, w2, Held(b));
    }
    if c :| Custodial(cfg, token, start, w2, c) {
      CountIsOne(cfg, token, start, w2, c, b);
      if CountOf(cfg, w1, b, token) == 0 {
        StillElsewhere(cfg, token, start, w1, c1, b, i, w2);
      }
    }
  }

  lemma EchoIsEcho(cfg: Config, token: bytes, start: nat, w: Registry, b: Address, acts: seq<Act>, i: nat,
      courier: Address)
    requires Echoing(cfg, token, start, w, b, acts, i, courier)
    ensures var w1 := DoAll(cfg, token, w, acts); i < |w1.mail| && IsAbout(w1.mail[i], token) && w1.mail[i].echo
  {
    hide Custodial, AllOrderly, Content;
  }

  /** Custody that is elsewhere stays there when an echo is taken out of the mail, so b has none. */
  lemma StillElsewhere(cfg: Config, token: bytes, start: nat, w: Registry, c: Custody, b: Address, i: nat, w': Registry)
    requires Custodial(cfg, token, start, w, c) && c != Held(b)
    requires i < |w.mail| && w.mail[i].echo && w'.mail == w.mail[..i] + w.mail[i + 1..]
    requires forall a :: a != b ==> CountOf(cfg, w', a, token) == CountOf(cfg, w, a, token)
    ensures !Custodial(cfg, token, start, w', Held(b))
  {
    hide CountOf, NonceOf, Content, IsAbout;
    match c
    case Held(d) => assert CountOf(cfg, w', d, token) == 1;
    case Travelling(l) =>
      assert w.mail[l] == w'.mail[if l < i then l else l - 1];
  }

  // ---- what the owner did meanwhile ----

  /** Over the run, nothing is created and b does not hand on. */
  ghost predicate Rests(cfg: Config, token: bytes, w: Registry, acts: seq<Act>, b: Address) {
    acts == [] ||
    (var n := |acts| - 1;
     var w1 := DoAll(cfg, token, w, acts[..n]);
     Rests(cfg, token, w, acts[..n], b) && Do(cfg, token, w1, acts[n]).issued == w1.issued &&
       Next(cfg, token, w1, acts[n], Held(b)) == Held(b))
  }

  /** Nobody hands the token back to b. */
  ghost predicate NotReturned(token: bytes, acts: seq<Act>, b: Address) {
    forall n :: 0 <= n < |acts| && acts[n].Pass? && |acts[n].call.args| == 2 && acts[n].call.args[0] == token ==>
      acts[n].call.args[1] != b
  }

  /** Custody is with someone else, and on its way to someone else. */
  ghost predicate Gone(w: Registry, c: Custody, b: Address) {
    c != Held(b) && (c.Travelling? && c.index < |w.mail| ==> w.mail[c.index].receiver != b)
  }

  lemma NextStaysGone(cfg: Config, token: bytes, start: nat, w: Registry, c: Custody, act: Act, b: Address)
    requires Custodial(cfg, token, start, w, c) && Orderly(cfg, token, w, act) && NotReturned(token, [act], b)
    requires c != Held(b) ==> Gone(w, c, b)
    ensures Next(cfg, token, w, act, c) != Held(b) ==> Gone(Do(cfg, token, w, act), Next(cfg, token, w, act, c), b)
    ensures c != Held(b) ==> Next(cfg, token, w, act, c) != Held(b)
    ensures c == Held(b) ==> Next(cfg, token, w, act, c) == Next(cfg, token, w, act, Held(b))
  {
    hide GiveUp, Receive, Create, SetRoles, Apply, Content, IsAbout, Owned, Numbered, ParseData;
    assert [act][0] == act;
    match act
    case Pass(call) =>
      var j := cfg.shardOf(call.recipient);
      if j < |w.shards| && GiveUp(At(cfg, j), w.shards[j], call).Ok? {
        GiveUpPosts(At(cfg, j), w.shards[j], call);
      }
    case _ =>
  }

  /** If nobody hands back to b, then b has the role and nothing was created exactly if b rested. */
  lemma {:induction false} RestsExactly(cfg: Config, token: bytes, start: nat, w: Registry, b: Address, acts: seq<Act>)
    requires Custodial(cfg, token, start, w, Held(b)) && AllOrderly(cfg, token, w, acts)
    requires start + |DoAll(cfg, token, w, acts).issued| < U64 && NotReturned(token, acts, b)
    ensures var w1, c := DoAll(cfg, token, w, acts), CustodyAfter(cfg, token, w, acts, Held(b));
            && (c != Held(b) ==> Gone(w1, c, b))
            && (Rests(cfg, token, w, acts, b) <==> c == Held(b) && |w1.issued| == |w.issued|)
  {
    hide Do, Custodial, Orderly, Next, Gone;
    if acts != [] {
      var n := |acts| - 1;
      var w1, c := DoAll(cfg, token, w, acts[..n]), CustodyAfter(cfg, token, w, acts[..n], Held(b));
      IssuedGrows(cfg, token, w1, acts[n]);
      IssuedOnlyGrows(cfg, token, w1, acts[n]);
      RestsExactly(cfg, token, start, w, b, acts[..n]);
      RunNumbered(cfg, token, start, w, Held(b), acts[..n]);
      assert acts[n] == [acts[n]][0];
      NextStaysGone(cfg, token, start, w1, c, acts[n], b);
    }
  }

  lemma IssuedOnlyGrows(cfg: Config, token: bytes, w: Registry, act: Act)
    ensures Do(cfg, token, w, act).issued == w.issued <==> |Do(cfg, token, w, act).issued| == |w.issued|
  {
    hide Create, PlanCreate, GiveUp, ParseData, Receive, SetRoles, Apply;
  }

  /** After the echo one account has custody if and only if b neither created nor handed on since the hand-off. */
  lemma EchoHarmlessIfRested(cfg: Config, token: bytes, start: nat, w: Registry, b: Address, acts: seq<Act>, i: nat,
      courier: Address)
    requires Echoing(cfg, token, start, w, b, acts, i, courier) && NotReturned(token, acts, b)
    ensures (exists c :: Custodial(cfg, token, start, AfterEcho(cfg, token, w, acts, i, courier), c)) <==>
              Rests(cfg, token, w, acts, b)
  {
    hide DoAll, AfterEcho, Custodial, AllOrderly, CustodyAfter, IsEcho, Rests, NotReturned, Gone, CountOf;
    EchoKeepsCustodyExactly(cfg, token, start, w, b, acts, i, courier);
    RestsExactly(cfg, token, start, w, b, acts);
    RunNumbered(cfg, token, start, w, Held(b), acts);
    CountIsOne(cfg, token, start, DoAll(cfg, token, w, acts), CustodyAfter(cfg, token, w, acts, Held(b)), b);
  }

  // ---- nonces that are issued twice ----

  ghost predicate Repeats(issued: seq<nat>) {
    exists i, j :: 0 <= i < j < |issued| && issued[i] == issued[j]
  }

  /** A create by an account in its own shard that issues a nonce of the token. */
  ghost predicate Issues(cfg: Config, token: bytes, w: Registry, call: Call, a: Address) {
    Creator(call).Ok? && Creator(call).value.0 == a && cfg.SameShard(a, call.caller) &&
      |Do(cfg, token, w, Make(call)).issued| > |w.issued|
  }

  /** After an echo that found b with the role and nothing created, no run repeats a nonce. */
  lemma NothingRepeatsAfterHarmlessEcho(cfg: Config, token: bytes, start: nat, w: Registry, b: Address,
      acts: seq<Act>, i: nat, courier: Address, more: seq<Act>)
    requires Echoing(cfg, token, start, w, b, acts, i, courier)
    requires CountOf(cfg, DoAll(cfg, token, w, acts), b, token) > 0 &&
      |DoAll(cfg, token, w, acts).issued| == |w.issued|
    requires AllOrderly(cfg, token, AfterEcho(cfg, token, w, acts, i, courier), more)
    requires start + |DoAll(cfg, token, AfterEcho(cfg, token, w, acts, i, courier), more).issued| < U64
    ensures !Repeats(DoAll(cfg, token, AfterEcho(cfg, token, w, acts, i, courier), more).issued)
  {
    hide DoAll, AfterEcho, Custodial, AllOrderly, CustodyAfter, IsEcho, CountOf;
    EchoKeepsCustodyExactly(cfg, token, start, w, b, acts, i, courier);
    var w2 := AfterEcho(cfg, token, w, acts, i, courier);
    var c :| Custodial(cfg, token, start, w2, c);
    RunNumbered(cfg, token, start, w2, c, more);
    IssuedInOrder(cfg, token, start, DoAll(cfg, token, w2, more), CustodyAfter(cfg, token, w2, more, c));
  }

  /** After the echo b's next create repeats a nonce if and only if anything was created since the hand-off. */
  lemma LateEchoRepeats(cfg: Config, token: bytes, start: nat, w: Registry, b: Address, acts: seq<Act>, i: nat,
      courier: Address, next: Call)
    requires Echoing(cfg, token, start, w, b, acts, i, courier)
    requires Issues(cfg, token, AfterEcho(cfg, token, w, acts, i, courier), next, b)
    ensures Repeats(Do(cfg, token, AfterEcho(cfg, token, w, acts, i, courier), Make(next)).issued) <==>
              |DoAll(cfg, token, w, acts).issued| > |w.issued|
  {
    hide Do, DoAll, AfterEcho, Custodial, AllOrderly, CustodyAfter, NonceOf, CountOf, IsEcho, Creator, Repeats;
    var w1, w2 := DoAll(cfg, token, w, acts), AfterEcho(cfg, token, w, acts, i, courier);
    EchoRewinds(cfg, token, start, w, b, acts, i, courier);
    MakeBooks(cfg, token, w2, next);
    IssuedInOrder(cfg, token, start, w1, CustodyAfter(cfg, token, w, acts, Held(b)));
    RewoundRepeats(w1.issued, start, |w.issued|);
  }

  lemma IssuedInOrder(cfg: Config, token: bytes, start: nat, w: Registry, c: Custody)
    requires Custodial(cfg, token, start, w, c)
    ensures forall i :: 0 <= i < |w.issued| ==> w.issued[i] == start + 1 + i
  {
    hide Owned, Mailed, NonceOf;
  }

  lemma RewoundRepeats(issued: seq<nat>, start: nat, n: nat)
    requires n <= |issued| && forall i :: 0 <= i < |issued| ==> issued[i] == start + 1 + i
    ensures Repeats(issued + [start + n + 1]) <==> |issued| > n
  {
    var all := issued + [start + n + 1];
    if |issued| > n {
      assert all[n] == all[|issued|];
    }
  }

  /** An echo after b handed on to d: both may create, and once each has created a nonce was issued twice. */
  lemma EchoAfterHandOnRepeats(cfg: Config, token: bytes, start: nat, w: Registry, b: Address, acts: seq<Act>, i: nat,
      courier: Address, d: Address, mine: Call, theirs: Call)
    requires Echoing(cfg, token, start, w, b, acts, i, courier)
    requires d != b && CustodyAfter(cfg, token, w, acts, Held(b)) == Held(d)
    ensures var w2 := AfterEcho(cfg, token, w, acts, i, courier);
            CountOf(cfg, w2, b, token) == 1 && CountOf(cfg, w2, d, token) == 1
    ensures var w2 := AfterEcho(cfg, token, w, acts, i, courier);
            var w3 := Do(cfg, token, w2, Make(mine));
            Issues(cfg, token, w2, mine, b) && Issues(cfg, token, w3, theirs, d) ==>
              Repeats(Do(cfg, token, w3, Make(theirs)).issued)
  {
    hide Do, DoAll, AfterEcho, Custodial, AllOrderly, CustodyAfter, NonceOf, CountOf, IsEcho, Creator, Repeats;
    var w1, w2 := DoAll(cfg, token, w, acts), AfterEcho(cfg, token, w, acts, i, courier);
    EchoRewinds(cfg, token, start, w, b, acts, i, courier);
    CountIsOne(cfg, token, start, w1, Held(d), d);
    if Issues(cfg, token, w2, mine, b) {
      MakeBooks(cfg, token, w2, mine);
      var w3 := Do(cfg, token, w2, Make(mine));
      if Issues(cfg, token, w3, theirs, d) {
        MakeBooks(cfg, token, w3, theirs);
        IssuedInOrder(cfg, token, start, w1, Held(d));
        BothRepeat(w1.issued, start, |w.issued|);
      }
    }
  }

  /** Where the hand-off of b travels after the echo was taken out of the mail. */
  function Shifted(l: nat, i: nat): nat {
    if i < l then l - 1 else l
  }

  /**
   * An echo while b's hand-on to d is in flight: once that has arrived both may create, and once each has created a
   * nonce was issued twice.
   */
  lemma EchoDuringHandOnRepeats(cfg: Config, token: bytes, start: nat, w: Registry, b: Address, acts: seq<Act>, i: nat,
      courier: Address, l: nat, carrier: Address, d: Address, mine: Call, theirs: Call)
    requires Echoing(cfg, token, start, w, b, acts, i, courier) && carrier != cfg.systemContract
    requires CustodyAfter(cfg, token, w, acts, Held(b)) == Travelling(l)
    requires var w1 := DoAll(cfg, token, w, acts);
             l < |w1.mail| && d == w1.mail[l].receiver && d != b && cfg.shardOf(d) < |w1.shards|
    ensures var w3 := Do(cfg, token, AfterEcho(cfg, token, w, acts, i, courier), Arrive(Shifted(l, i), carrier));
            CountOf(cfg, w3, b, token) == 1 && CountOf(cfg, w3, d, token) == 1
    ensures var w3 := Do(cfg, token, AfterEcho(cfg, token, w, acts, i, courier), Arrive(Shifted(l, i), carrier));
            var w4 := Do(cfg, token, w3, Make(mine));
            Issues(cfg, token, w3, mine, b) && Issues(cfg, token, w4, theirs, d) ==>
              Repeats(Do(cfg, token, w4, Make(theirs)).issued)
  {
    hide Do, DoAll, AfterEcho, Custodial, AllOrderly, CustodyAfter, NonceOf, CountOf, IsEcho, Creator, Repeats, Content;
    var w1, w2 := DoAll(cfg, token, w, acts), AfterEcho(cfg, token, w, acts, i, courier);
    EchoRewinds(cfg, token, start, w, b, acts, i, courier);
    EchoIsEcho(cfg, token, start, w, b, acts, i, courier);
    TravelsOn(cfg, token, start, w1, l, i);
    CountIsOne(cfg, token, start, w1, Travelling(l), d);
    assert w2.mail[Shifted(l, i)] == w1.mail[l];
    LetterArrives(cfg, token, w2, Shifted(l, i), carrier);
    ArriveBooks(cfg, token, w2, Shifted(l, i), carrier);
    AboutNames(token, w1.mail[l]);
    var w3 := Do(cfg, token, w2, Arrive(Shifted(l, i), carrier));
    if Issues(cfg, token, w3, mine, b) {
      MakeBooks(cfg, token, w3, mine);
      var w4 := Do(cfg, token, w3, Make(mine));
      if Issues(cfg, token, w4, theirs, d) {
        MakeBooks(cfg, token, w4, theirs);
        IssuedInOrder(cfg, token, start, w1, Travelling(l));
        BothRepeat(w1.issued, start, |w.issued|);
      }
    }
  }

  /** The hand-off in flight names the nonce to go on from, and is not the echo. */
  lemma TravelsOn(cfg: Config, token: bytes, start: nat, w: Registry, l: nat, i: nat)
    requires Custodial(cfg, token, start, w, Travelling(l)) && i < |w.mail| && w.mail[i].echo
    ensures l < |w.mail| && l != i && IsAbout(w.mail[l], token) && Content(w.mail[l]).value.1 == start + |w.issued|
  {
    hide Owned, Numbered;
  }

  lemma BothRepeat(issued: seq<nat>, start: nat, n: nat)
    requires n <= |issued| && forall i :: 0 <= i < |issued| ==> issued[i] == start + 1 + i
    ensures Repeats(issued + [start + n + 1] + [start + |issued| + 1])
  {
    var all := issued + [start + n + 1] + [start + |issued| + 1];
    assert all[n] == all[|issued| + if n < |issued| then 0 else 1];
  }
}
