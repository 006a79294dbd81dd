/**
 * Roles of accounts and the transfer addresses of a token, as lists in storage, and the bag and the set they stand for.
 */
module Roles {
  import opened Bytes
  import opened Results
  import opened Tokens
  import opened Transfers

  // ---- deleting from a list ----

  /** doesRoleExist: the first index of a role, or the length of the list. */
  function FirstIndex(roles: seq<bytes>, role: bytes): (i: nat)
    ensures i <= |roles| && role !in roles[..i]
    ensures i < |roles| ==> roles[i] == role
  {
    if roles == [] then 0 else if roles[0] == role then 0 else 1 + FirstIndex(roles[1..], role)
  }

  function DeleteOne(roles: seq<bytes>, role: bytes): seq<bytes> {
    var i := FirstIndex(roles, role);
    if i == |roles| then roles else roles[..i] + roles[i + 1..]
  }

  /** deleteRoles */
  function DeleteRoles(roles: seq<bytes>, deleted: seq<bytes>): seq<bytes> {
    if deleted == [] then roles
    else DeleteOne(DeleteRoles(roles, deleted[..|deleted| - 1]), deleted[|deleted| - 1])
  }

  ghost predicate Subsequence(p: seq<bytes>, q: seq<bytes>) {
    p == [] || (q != [] && ((p[|p| - 1] == q[|q| - 1] && Subsequence(p[..|p| - 1], q[..|q| - 1])) ||
      Subsequence(p, q[..|q| - 1])))
  }

  /** The first index is no larger than any other. */
  lemma IndexBefore(roles: seq<bytes>, role: bytes, i: nat, j: nat)
    requires i == FirstIndex(roles, role) && j < |roles| && roles[j] == role
    ensures i <= j
  {
    assert forall k :: 0 <= k < i ==> roles[..i][k] == roles[k];
  }

  /** What goes is the first occurrence of a role. */
  lemma FirstOccurrenceGoes(p: seq<bytes>, role: bytes, q: seq<bytes>)
    requires role !in p
    ensures DeleteRoles(p + [role] + q, [role]) == p + q
    ensures DeleteRoles(p, [role]) == p
  {
    var roles := p + [role] + q;
    assert [role][..0] == [];
    var i := FirstIndex(roles, role);
    assert forall j :: 0 <= j < |p| ==> roles[j] == p[j];
    assert roles[|p|] == role;
    IndexBefore(roles, role, i, |p|);
  }

  lemma {:induction false} SubsequenceRefl(p: seq<bytes>)
    ensures Subsequence(p, p)
  {
    if p != [] {
      SubsequenceRefl(p[..|p| - 1]);
    }
  }

  lemma {:induction false} SubsequenceTrans(p: seq<bytes>, q: seq<bytes>, r: seq<bytes>)
    requires Subsequence(p, q) && Subsequence(q, r)
    ensures Subsequence(p, r)
    decreases |r|
  {
    if p != [] {
      var p', q', r' := p[..|p| - 1], q[..|q| - 1], r[..|r| - 1];
      if q[|q| - 1] == r[|r| - 1] && Subsequence(q', r') {
        if p[|p| - 1] == q[|q| - 1] && Subsequence(p', q') {
          SubsequenceTrans(p', q', r');
        } else {
          SubsequenceTrans(p, q', r');
        }
      } else {
        SubsequenceTrans(p, q, r');
      }
    }
  }

  lemma {:induction false} DropOneSubsequence(left: seq<bytes>, x: bytes, right: seq<bytes>)
    ensures Subsequence(left + right, left + [x] + right)
  {
    var p, q := left + right, left + [x] + right;
    if right == [] {
      assert q[..|q| - 1] == left && p == left;
      SubsequenceRefl(left);
    } else {
      var right' := right[..|right| - 1];
      DropOneSubsequence(left, x, right');
      assert p[..|p| - 1] == left + right' && q[..|q| - 1] == left + [x] + right';
    }
  }

  lemma DeleteOneIsDifference(roles: seq<bytes>, role: bytes)
    ensures multiset(DeleteOne(roles, role)) == multiset(roles) - multiset{role}
  {
    var i := FirstIndex(roles, role);
    if i == |roles| {
      assert roles[..i] == roles;
      assert role !in multiset(roles);
    } else {
      assert roles == roles[..i] + [role] + roles[i + 1..];
    }
  }

  lemma DeleteOneKeepsOrder(roles: seq<bytes>, role: bytes)
    ensures Subsequence(DeleteOne(roles, role), roles)
  {
    var i := FirstIndex(roles, role);
    if i == |roles| {
      SubsequenceRefl(roles);
    } else {
      assert roles == roles[..i] + [role] + roles[i + 1..];
      DropOneSubsequence(roles[..i], role, roles[i + 1..]);
    }
  }

  lemma MinusOneMore(bag: multiset<bytes>, deleted: seq<bytes>, n: nat)
    requires |deleted| == n + 1
    ensures bag - multiset(deleted[..n]) - multiset{deleted[n]} == bag - multiset(deleted)
  {
    assert deleted == deleted[..n] + [deleted[n]];
    assert multiset(deleted) == multiset(deleted[..n]) + multiset{deleted[n]};
  }

  /** Deleting takes the bag difference. */
  lemma {:induction false} DeleteRolesIsDifference(roles: seq<bytes>, deleted: seq<bytes>)
    ensures multiset(DeleteRoles(roles, deleted)) == multiset(roles) - multiset(deleted)
  {
    if deleted != [] {
      var n := |deleted| - 1;
      DeleteRolesIsDifference(roles, deleted[..n]);
      DeleteOneIsDifference(DeleteRoles(roles, deleted[..n]), deleted[n]);
      MinusOneMore(multiset(roles), deleted, n);
    }
  }

  /** Deleting keeps the order of what stays. */
  lemma {:induction false} DeleteRolesKeepsOrder(roles: seq<bytes>, deleted: seq<bytes>)
    ensures Subsequence(DeleteRoles(roles, deleted), roles)
  {
    if deleted == [] {
      SubsequenceRefl(roles);
    } else {
      var n := |deleted| - 1;
      var rest := DeleteRoles(roles, deleted[..n]);
      DeleteRolesKeepsOrder(roles, deleted[..n]);
      DeleteOneKeepsOrder(rest, deleted[n]);
      SubsequenceTrans(DeleteOne(rest, deleted[n]), rest, roles);
    }
  }

  /** The role slice that deleteRoles edits in place. */
  class RoleList {
    var roles: seq<bytes>

    constructor (roles: seq<bytes>)
      ensures this.roles == roles
    {
      this.roles := roles;
    }

    method IndexOf(role: bytes) returns (index: nat, exist: bool)
      ensures index == FirstIndex(roles, role) && exist == (role in roles)
    {
      index := 0;
      while index < |roles|
        invariant index <= |roles| && role !in roles[..index]
        invariant FirstIndex(roles, role) == index + FirstIndex(roles[index..], role)
      {
        if roles[index] == role {
          return index, true;
        }
        index := index + 1;
      }
      exist := false;
    }

    method Delete(deleted: seq<bytes>)
      modifies this
      ensures roles == DeleteRoles(old(roles), deleted)
    {
      hide FirstIndex;
      for i := 0 to |deleted|
        invariant roles == DeleteRoles(old(roles), deleted[..i])
      {
        assert deleted[..i + 1][..i] == deleted[..i];
        var index, exist := IndexOf(deleted[i]);
        if exist {
          roles := roles[..index] + roles[index + 1..];
        }
      }
      assert deleted[..|deleted|] == deleted;
    }

    /** The nested loops of addNewAddresses. */
    method AddNew(added: seq<bytes>, max: nat) returns (r: Result<()>)
      modifies this
      ensures roles == AddAll(old(roles), added)
      ensures r == Need(|roles| <= max, TooManyTransferAddresses)
    {
      for i := 0 to |added|
        invariant roles == AddAll(old(roles), added[..i])
      {
        assert added[..i + 1][..i] == added[..i];
        var _, exist := IndexOf(added[i]);
        if !exist {
          roles := roles + [added[i]];
        }
      }
      assert added[..|added|] == added;
      r := if |roles| > max then Err(TooManyTransferAddresses) else Ok(());
    }
  }

  // ---- the roles of an account ----

  /** computeStartNonce: the accounts that create in many shards start apart from each other. */
  function StartNonce(a: Address): nat
    requires a != []
  {
    (U64 - 1) / 256 * a[|a| - 1]
  }

  /** The roles after a call: appended, or deleted one by one. */
  function NewRoles(s: ShardState, call: Call, set_: bool): seq<bytes>
    requires |call.args| >= 1
  {
    var roles := RolesOf(s, call.recipient, call.args[0]);
    if set_ then roles + call.args[1..] else DeleteRoles(roles, call.args[1..])
  }

  /** dctRoles.ProcessBuiltinFunction */
  function SetRoles(cfg: Config, s: ShardState, call: Call, set_: bool): Result<ShardState> {
    var _ :- CheckBasic(call);
    var _ :- Need(call.caller == cfg.systemContract, AddressIsNotDCTSystemSC);
    var a, token, roles := call.recipient, call.args[0], NewRoles(s, call, set_);
    if ROLE_NFT_CREATE_MULTI_SHARD !in call.args[1..] then Ok(PutRoles(s, a, token, roles))
    else if a == [] then Err(IndexOutOfRange)
    else Ok(PutRoles(PutNonce(s, a, token, StartNonce(a)), a, token, roles))
  }

  /** A call that may change roles: the system contract names a token and at least one role. */
  predicate MayChangeRoles(cfg: Config, call: Call) {
    call.callValue == 0 && |call.args| >= 2 && call.caller == cfg.systemContract &&
    (ROLE_NFT_CREATE_MULTI_SHARD in call.args[1..] ==> call.recipient != [])
  }

  /** Whether a role call succeeds depends on the call alone. */
  lemma RoleCallAccepted(cfg: Config, s: ShardState, call: Call, set_: bool)
    ensures SetRoles(cfg, s, call, set_).Ok? <==> MayChangeRoles(cfg, call)
  {
    hide NewRoles;
  }

  datatype RoleCall = RoleCall(call: Call, set_: bool)

  /** Failed calls leave the shard as it was. */
  function RunRoles(cfg: Config, s: ShardState, calls: seq<RoleCall>): ShardState {
    if calls == [] then s
    else
      var s1 := RunRoles(cfg, s, calls[..|calls| - 1]);
      var c := calls[|calls| - 1];
      match SetRoles(cfg, s1, c.call, c.set_)
      case Ok(s2) => s2
      case Err(_) => s1
  }

  /** The bag of roles that the same calls give and take, for one account and token. */
  function Bag(cfg: Config, s: ShardState, calls: seq<RoleCall>, a: Address, token: bytes): multiset<bytes> {
    if calls == [] then multiset(RolesOf(s, a, token))
    else
      var bag := Bag(cfg, s, calls[..|calls| - 1], a, token);
      var c := calls[|calls| - 1];
      if !MayChangeRoles(cfg, c.call) || c.call.recipient != a || c.call.args[0] != token then bag
      else if c.set_ then bag + multiset(c.call.args[1..])
      else bag - multiset(c.call.args[1..])
  }

  lemma RolesAfterPut(s: ShardState, a: Address, token: bytes, roles: seq<bytes>, b: Address, other: bytes)
    ensures RolesOf(PutRoles(s, a, token, roles), b, other) == if b == a &&
      other == token then roles else RolesOf(s, b, other)
  {
  }

  lemma SetRolesStores(cfg: Config, s: ShardState, call: Call, set_: bool, a: Address, token: bytes)
    requires SetRoles(cfg, s, call, set_).Ok?
    ensures |call.args| >= 1
    ensures RolesOf(SetRoles(cfg, s, call, set_).value, a, token)
            == if call.recipient == a && call.args[0] == token then NewRoles(s, call, set_) else RolesOf(s, a, token)
  {
    var s1 := if ROLE_NFT_CREATE_MULTI_SHARD in call.args[1..] then PutNonce(s, call.recipient, call.args[0],
      StartNonce(call.recipient)) else s;
    RolesAfterPut(s1, call.recipient, call.args[0], NewRoles(s, call, set_), a, token);
  }

  lemma SetRolesEffect(cfg: Config, s: ShardState, call: Call, set_: bool, a: Address, token: bytes)
    requires SetRoles(cfg, s, call, set_).Ok?
    ensures var bag, named := multiset(RolesOf(s, a, token)), multiset(call.args[1..]);
            multiset(RolesOf(SetRoles(cfg, s, call, set_).value, a, token))
            == if call.recipient != a || call.args[0] != token then bag else if set_ then bag + named else bag - named
  {
    SetRolesStores(cfg, s, call, set_, a, token);
    DeleteRolesIsDifference(RolesOf(s, call.recipient, call.args[0]), call.args[1..]);
  }

  /** Roles that are given stand behind those held, in the order in which they are named. */
  lemma GivenRolesFollow(cfg: Config, s: ShardState, call: Call)
    requires SetRoles(cfg, s, call, true).Ok?
    ensures |call.args| >= 1
    ensures RolesOf(SetRoles(cfg, s, call, true).value, call.recipient, call.args[0])
      == RolesOf(s, call.recipient, call.args[0]) + call.args[1..]
  {
    SetRolesStores(cfg, s, call, true, call.recipient, call.args[0]);
  }

  /** Over every run of role calls an account holds the bag of them, and is allowed exactly what is in the bag. */
  lemma {:induction false} RolesAreABag(cfg: Config, s: ShardState, calls: seq<RoleCall>, a: Address, token: bytes,
      role: bytes)
    ensures multiset(RolesOf(RunRoles(cfg, s, calls), a, token)) == Bag(cfg, s, calls, a, token)
    ensures CheckAllowed(RunRoles(cfg, s, calls), a, token, role).Ok? <==> role in Bag(cfg, s, calls, a, token)
  {
    hide SetRoles, RolesOf;
    if calls != [] {
      var n := |calls| - 1;
      RolesAreABag(cfg, s, calls[..n], a, token, role);
      var s1, c := RunRoles(cfg, s, calls[..n]), calls[n];
      RoleCallAccepted(cfg, s1, c.call, c.set_);
      if SetRoles(cfg, s1, c.call, c.set_).Ok? {
        SetRolesEffect(cfg, s1, c.call, c.set_, a, token);
      }
    }
    assert role in RolesOf(RunRoles(cfg, s, calls), a, token) <==>
      role in multiset(RolesOf(RunRoles(cfg, s, calls), a, token));
  }

  /** The calls of the system contract. */
  function Official(cfg: Config, calls: seq<RoleCall>): seq<RoleCall> {
    if calls == [] then []
    else
      var c := calls[|calls| - 1];
      Official(cfg, calls[..|calls| - 1]) + if c.call.caller == cfg.systemContract then [c] else []
  }

  /** Calls of any other caller change nothing, neither a role nor a nonce. */
  lemma {:induction false} OthersChangeNothing(cfg: Config, s: ShardState, calls: seq<RoleCall>)
    ensures RunRoles(cfg, s, calls) == RunRoles(cfg, s, Official(cfg, calls))
  {
    hide SetRoles;
    if calls != [] {
      var n := |calls| - 1;
      OthersChangeNothing(cfg, s, calls[..n]);
      var c, before := calls[n], Official(cfg, calls[..n]);
      RoleCallAccepted(cfg, RunRoles(cfg, s, calls[..n]), c.call, c.set_);
      if c.call.caller == cfg.systemContract {
        assert (before + [c])[..|before|] == before;
      } else {
        assert before + [] == before;
      }
    }
  }

  // ---- nonce ranges of accounts that create in many shards ----

  /**
   * Two such accounts with different last bytes never issue the same nonce, and never wrap, for 2^56 - 1 creates each.
   */
  lemma MultiShardRangesDisjoint(a: Address, b: Address, i: nat, j: nat)
    requires a != [] && b != [] && a[|a| - 1] != b[|b| - 1]
    requires 1 <= i < 0x100_0000_0000_0000 && 1 <= j < 0x100_0000_0000_0000
    ensures StartNonce(a) + i != StartNonce(b) + j
    ensures StartNonce(a) + i < U64 && StartNonce(b) + j < U64
  {
    var step := (U64 - 1) / 256;
    assert step == 0xFF_FFFF_FFFF_FFFF;
    if a[|a| - 1] < b[|b| - 1] {
      assert step * b[|b| - 1] >= step * (a[|a| - 1] + 1);
    } else {
      assert step * a[|a| - 1] >= step * (b[|b| - 1] + 1);
    }
  }

  /** The ranges stand one above the other in the order of the last bytes, each of 2^56 - 1 nonces, from 0 on. */
  lemma RangesAscend(a: Address, b: Address)
    requires a != [] && b != []
    ensures a[|a| - 1] == 0 ==> StartNonce(a) == 0
    ensures b[|b| - 1] as int == a[|a| - 1] as int + 1 ==> StartNonce(b) == StartNonce(a) + 0xFF_FFFF_FFFF_FFFF
  {
    assert (U64 - 1) / 256 == 0xFF_FFFF_FFFF_FFFF;
  }

  // ---- the transfer addresses of a token ----

  function AddOne(list: seq<bytes>, x: bytes): seq<bytes> {
    if x in list then list else list + [x]
  }

  /** addNewAddresses, before the limit is checked. */
  function AddAll(list: seq<bytes>, added: seq<bytes>): seq<bytes> {
    if added == [] then list else AddOne(AddAll(list, added[..|added| - 1]), added[|added| - 1])
  }

  lemma SubsequenceGrows(p: seq<bytes>, q: seq<bytes>, x: bytes)
    requires Subsequence(p, q)
    ensures Subsequence(p, q + [x]) && Subsequence(p + [x], q + [x])
  {
    assert (q + [x])[..|q|] == q && (p + [x])[..|p|] == p;
  }

  /** New addresses stand behind the old ones, in the order in which they are named. */
  lemma {:induction false} AddedBehind(list: seq<bytes>, added: seq<bytes>)
    ensures list <= AddAll(list, added) && Subsequence(AddAll(list, added), list + added)
  {
    hide Subsequence;
    if added == [] {
      SubsequenceRefl(list);
      assert list + added == list;
    } else {
      var n := |added| - 1;
      AddedBehind(list, added[..n]);
      SubsequenceGrows(AddAll(list, added[..n]), list + added[..n], added[n]);
      assert list + added == list + added[..n] + [added[n]];
    }
  }

  /** dctTransferAddress.ProcessBuiltinFunction */
  function SetAddresses(cfg: Config, s: ShardState, call: Call, set_: bool, max: nat): Result<ShardState> {
    var _ :- CheckBasic(call);
    var _ :- Need(call.caller == cfg.systemContract, AddressIsNotDCTSystemSC);
    var _ :- Need(IsSystemAccount(call.recipient), OnlySystemAccountAccepted);
    var token := call.args[0];
    var list := AddressesOf(s, token);
    var list' := if set_ then AddAll(list, call.args[1..]) else DeleteRoles(list, call.args[1..]);
    var _ :- Need(set_ ==> |list'| <= max, TooManyTransferAddresses);
    Ok(s.(transferAddresses := s.transferAddresses[token := list']))
  }

  function AddressesOf(s: ShardState, token: bytes): seq<Address> {
    if token in s.transferAddresses then s.transferAddresses[token] else []
  }

  function RunAddresses(cfg: Config, s: ShardState, calls: seq<RoleCall>, max: nat): ShardState {
    if calls == [] then s
    else
      var s1 := RunAddresses(cfg, s, calls[..|calls| - 1], max);
      var c := calls[|calls| - 1];
      match SetAddresses(cfg, s1, c.call, c.set_, max)
      case Ok(s2) => s2
      case Err(_) => s1
  }

  function Members(list: seq<bytes>): set<bytes> {
    set x | x in list
  }

  /** A call of the system contract to the system account. */
  predicate Addressed(cfg: Config, call: Call) {
    CheckBasic(call).Ok? && call.caller == cfg.systemContract && IsSystemAccount(call.recipient)
  }

  /** The set of addresses of a token after the same calls. */
  function AddressSet(cfg: Config, calls: seq<RoleCall>, token: bytes, max: nat): set<Address> {
    if calls == [] then {}
    else
      var now := AddressSet(cfg, calls[..|calls| - 1], token, max);
      var c := calls[|calls| - 1];
      if !Addressed(cfg, c.call) || c.call.args[0] != token then now
      else
        var named := Members(c.call.args[1..]);
        if !c.set_ then now - named
        else if |now + named| <= max then now + named
        else now
  }

  ghost predicate NoDuplicates(list: seq<bytes>) {
    forall i, j :: 0 <= i < j < |list| ==> list[i] != list[j]
  }

  lemma {:induction false} MembersSize(list: seq<bytes>)
    requires NoDuplicates(list)
    ensures |Members(list)| == |list|
  {
    if list != [] {
      var n := |list| - 1;
      MembersSize(list[..n]);
      assert Members(list) == Members(list[..n]) + {list[n]};
    }
  }

  lemma {:induction false} AddAllIsUnion(list: seq<bytes>, added: seq<bytes>)
    requires NoDuplicates(list)
    ensures NoDuplicates(AddAll(list, added))
    ensures Members(AddAll(list, added)) == Members(list) + Members(added)
  {
    if added != [] {
      var n := |added| - 1;
      AddAllIsUnion(list, added[..n]);
      assert added == added[..n] + [added[n]];
      MembersSnoc(added[..n], added[n]);
      MembersSnoc(AddAll(list, added[..n]), added[n]);
    } else {
      assert Members(added) == {};
    }
  }

  lemma MembersSnoc(list: seq<bytes>, x: bytes)
    ensures Members(list + [x]) == Members(list) + {x}
  {
  }

  lemma DeleteOneFromSet(list: seq<bytes>, x: bytes)
    requires NoDuplicates(list)
    ensures NoDuplicates(DeleteOne(list, x)) && Members(DeleteOne(list, x)) == Members(list) - {x}
    ensures |DeleteOne(list, x)| <= |list|
  {
    var i := FirstIndex(list, x);
    if i == |list| {
      assert list[..i] == list;
    } else {
      assert list == list[..i] + [x] + list[i + 1..];
      assert forall j :: i < j < |list| ==> list[j] != x;
    }
  }

  lemma {:induction false} DeleteRolesIsSetDifference(list: seq<bytes>, deleted: seq<bytes>)
    requires NoDuplicates(list)
    ensures NoDuplicates(DeleteRoles(list, deleted))
    ensures Members(DeleteRoles(list, deleted)) == Members(list) - Members(deleted)
    ensures |DeleteRoles(list, deleted)| <= |list|
  {
    if deleted == [] {
      assert Members(deleted) == {};
    } else {
      var n := |deleted| - 1;
      DeleteRolesIsSetDifference(list, deleted[..n]);
      DeleteOneFromSet(DeleteRoles(list, deleted[..n]), deleted[n]);
      assert deleted == deleted[..n] + [deleted[n]];
      MembersSnoc(deleted[..n], deleted[n]);
    }
  }

  /** Over every run the list of a token has no duplicates, keeps the limit, and is the set of its calls. */
  lemma {:induction false} AddressesAreABoundedSet(cfg: Config, calls: seq<RoleCall>, token: bytes, max: nat)
    ensures var list := AddressesOf(RunAddresses(cfg, EMPTY_SHARD, calls, max), token);
            NoDuplicates(list) && |list| <= max && Members(list) == AddressSet(cfg, calls, token, max)
  {
    if calls != [] {
      var n := |calls| - 1;
      AddressesAreABoundedSet(cfg, calls[..n], token, max);
      var s1, c := RunAddresses(cfg, EMPTY_SHARD, calls[..n], max), calls[n];
      var list := AddressesOf(s1, token);
      if Addressed(cfg, c.call) && c.call.args[0] == token {
        var named := c.call.args[1..];
        AddAllIsUnion(list, named);
        DeleteRolesIsSetDifference(list, named);
        MembersSize(AddAll(list, named));
      }
    }
  }

  /** The transfer-role check consults exactly that set. */
  lemma TransferRoleConsultsTheSet(cfg: Config, calls: seq<RoleCall>, token: bytes, max: nat, snd: Address,
      dst: Address)
    ensures HasTransferRoleAddress(cfg, RunAddresses(cfg, EMPTY_SHARD, calls, max), token, snd, dst) <==>
            cfg.flags.transferRoleAddresses &&
              (snd in AddressSet(cfg, calls, token, max) || dst in AddressSet(cfg, calls, token, max))
  {
    AddressesAreABoundedSet(cfg, calls, token, max);
    var s := RunAddresses(cfg, EMPTY_SHARD, calls, max);
    assert forall a :: a in AddressesOf(s, token) <==> a in Members(AddressesOf(s, token));
  }
}
