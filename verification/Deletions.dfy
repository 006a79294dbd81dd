/** The deletion of metadata: what a call reads, when it returns, and which records it takes. */
module Deletions {
  import opened Bytes
  import opened Results
  import opened Keys
  import opened Tokens

  const MIN_ARGS_DELETE := 4

  /** All nonces from first to last. */
  datatype Interval = Interval(token: bytes, first: nat, last: nat)

  /** What reading comes to: a value, an error, or an interval that ends at the largest nonce. */
  datatype Outcome<+T> = Through(value: T) | Failed(error: Error) | Stuck {
    predicate IsFailure() {
      !Through?
    }

    function PropagateFailure<U>(): Outcome<U>
      requires !Through?
    {
      if Failed? then Failed(error) else Stuck
    }

    function Extract(): T
      requires Through?
    {
      value
    }
  }

  // ---- what a list of arguments denotes ----

  function CheckInterval(first: nat, last: nat): Result<()> {
    var _ :- Need(first <= last, InvalidArguments);
    Need(first != 0, InvalidNonce)
  }

  function ReadInterval(token: bytes, first: nat, last: nat): Outcome<Interval> {
    match CheckInterval(first, last)
    case Err(error) => Failed(error)
    case Ok(_) => if last == U64 - 1 then Stuck else Through(Interval(token, first, last))
  }

  /** The first n pairs of nonces from an index on. */
  function ListIntervals(args: seq<bytes>, token: bytes, index: nat, n: nat): Outcome<seq<Interval>> {
    if n == 0 then Through([])
    else
      var xs :- ListIntervals(args, token, index, n - 1);
      var j := index + 2 * (n - 1);
      if j + 2 > |args| then Failed(InvalidNumOfArgs)
      else
        var x :- ReadInterval(token, ReadUint64(args[j]), ReadUint64(args[j + 1]));
        Through(xs + [x])
  }

  /** The groups token, count, pairs... from an index on; a single argument at the end is ignored. */
  function Intervals(args: seq<bytes>, i: nat): Outcome<seq<Interval>>
    decreases |args| - i
  {
    if i + 1 >= |args| then Through([])
    else
      var token, n := args[i], ReadUint64(args[i + 1]);
      if !ValidToken(token) then Failed(InvalidTokenID)
      else if i + 2 >= |args| then Failed(InvalidNumOfArgs)
      else
        var xs :- ListIntervals(args, token, i + 2, n);
        var rest :- Intervals(args, i + 2 + 2 * n);
        Through(xs + rest)
  }

  function Denoted(x: Interval): set<bytes> {
    set n: nat | x.first <= n <= x.last :: KeyOf(x.token, n)
  }

  function AllDenoted(xs: seq<Interval>): set<bytes> {
    if xs == [] then {} else AllDenoted(xs[..|xs| - 1]) + Denoted(xs[|xs| - 1])
  }

  lemma AllDenotedSnoc(xs: seq<Interval>, x: Interval)
    ensures AllDenoted(xs + [x]) == AllDenoted(xs) + Denoted(x)
  {
    assert (xs + [x])[..|xs|] == xs;
  }

  lemma {:induction false} AllDenotedConcat(xs: seq<Interval>, ys: seq<Interval>)
    ensures AllDenoted(xs + ys) == AllDenoted(xs) + AllDenoted(ys)
  {
    if ys == [] {
      assert xs + ys == xs;
    } else {
      var n := |ys| - 1;
      AllDenotedConcat(xs, ys[..n]);
      assert (xs + ys)[..|xs + ys| - 1] == xs + ys[..n];
    }
  }

  /** The deleted keys are exactly those of the listed nonces of the listed tokens. */
  lemma {:induction false} DeletedExactly(xs: seq<Interval>, token: bytes, nonce: nat)
    requires ValidToken(token) && forall i :: 0 <= i < |xs| ==> ValidToken(xs[i].token)
    ensures KeyOf(token, nonce) in AllDenoted(xs) <==>
            exists i :: 0 <= i < |xs| && xs[i].token == token && xs[i].first <= nonce <= xs[i].last
  {
    if xs != [] {
      var n := |xs| - 1;
      var x := xs[n];
      DeletedExactly(xs[..n], token, nonce);
      if KeyOf(token, nonce) in Denoted(x) {
        var m: nat :| x.first <= m <= x.last && KeyOf(x.token, m) == KeyOf(token, nonce);
        KeyOfInjective(token, nonce, x.token, m);
      }
      assert forall i :: 0 <= i < n ==> xs[..n][i] == xs[i];
      if x.token == token && x.first <= nonce <= x.last {
        assert KeyOf(x.token, nonce) in Denoted(x);
      }
    }
  }

  /** Every interval that is read has a valid token and a positive start, and ends before the largest nonce. */
  lemma {:induction false} ListIsValid(args: seq<bytes>, token: bytes, index: nat, n: nat)
    requires ListIntervals(args, token, index, n).Through?
    ensures forall x :: x in ListIntervals(args, token, index, n).value ==> x.token == token && 0 < x.first <= x.last
  {
    if n > 0 {
      ListIsValid(args, token, index, n - 1);
    }
  }

  // ---- the loop over the groups, with its 64-bit index ----

  /** How many pairs the loop over a list of n pairs reads: its end wraps around. */
  function PairsFor(index: nat, n: nat): nat {
    var end := (index + 2 * n) % U64;
    if end > index then (end - index) / 2 else 0
  }

  lemma PairsReachEnd(index: nat, n: nat)
    requires index < U64
    ensures var end, m := (index + 2 * n) % U64, PairsFor(index, n);
            if end > index then end == index + 2 * m else m == 0
    ensures index + 2 * n < U64 ==> PairsFor(index, n) == n
  {
  }

  /** One round, for the group at an index: the intervals it deletes, and the index of the next round. */
  function Round(args: seq<bytes>, i: nat): Outcome<(seq<Interval>, nat)>
    requires i + 1 < |args|
  {
    var token, n := args[i], ReadUint64(args[i + 1]);
    if !ValidToken(token) then Failed(InvalidTokenID)
    else if i + 2 >= |args| then Failed(InvalidNumOfArgs)
    else
      var xs :- ListIntervals(args, token, i + 2, PairsFor(i + 2, n));
      Through((xs, (i + 2 + 2 * n) % U64))
  }

  /** The first k rounds; once the loop is left nothing more happens. */
  function Rounds(args: seq<bytes>, k: nat): Outcome<(seq<Interval>, nat)> {
    if k == 0 then Through(([], 0))
    else
      var (done, i) :- Rounds(args, k - 1);
      if i + 1 >= |args| then Through((done, i))
      else
        var (xs, next) :- Round(args, i);
        Through((done + xs, next))
  }

  /** After k rounds the loop has been left, at its end or with an error. */
  predicate IsOver(args: seq<bytes>, k: nat) {
    match Rounds(args, k)
    case Through((_, i)) => i + 1 >= |args|
    case Failed(_) => true
    case Stuck => false
  }

  /** After k rounds there is one more group to read. */
  predicate IsRunning(args: seq<bytes>, k: nat) {
    Rounds(args, k).Through? && Rounds(args, k).value.1 + 1 < |args|
  }

  lemma {:induction false} NotRunningStays(args: seq<bytes>, k: nat, m: nat)
    requires !IsRunning(args, k) && k <= m
    ensures Rounds(args, m) == Rounds(args, k)
  {
    hide Round;
    if k < m {
      NotRunningStays(args, k, m - 1);
    }
  }

  lemma RunningBefore(args: seq<bytes>, j: nat, k: nat)
    requires j <= k && IsRunning(args, k)
    ensures IsRunning(args, j)
  {
    if !IsRunning(args, j) {
      NotRunningStays(args, j, k);
    }
  }

  /** The index of the group that round k + 1 reads. */
  function GroupAt(args: seq<bytes>, k: nat): nat {
    match Rounds(args, k)
    case Through((_, i)) => i
    case _ => 0
  }

  /** The loop comes back, within as many rounds as there are arguments, to a group it was at before. */
  ghost predicate ComesBack(args: seq<bytes>) {
    exists j, k :: 0 <= j < k <= |args| && IsRunning(args, k) && GroupAt(args, j) == GroupAt(args, k)
  }

  /** Within as many rounds an interval is read that ends at the largest nonce. */
  ghost predicate GetsStuck(args: seq<bytes>) {
    exists k: nat :: k <= |args| && Rounds(args, k).Stuck?
  }

  /** What follows depends on the index alone. */
  lemma SameNext(args: seq<bytes>, j: nat, k: nat)
    requires IsRunning(args, j) && IsRunning(args, k) && GroupAt(args, j) == GroupAt(args, k)
    ensures IsRunning(args, j + 1) <==> IsRunning(args, k + 1)
    ensures GroupAt(args, j + 1) == GroupAt(args, k + 1)
  {
    hide Round;
  }

  /** Once back, the loop goes round and round. */
  lemma {:induction false} Cycle(args: seq<bytes>, j: nat, k: nat, m: nat) returns (l: nat)
    requires j < k && IsRunning(args, k) && GroupAt(args, j) == GroupAt(args, k) && j <= m
    ensures j <= l < k && IsRunning(args, m) && GroupAt(args, m) == GroupAt(args, l)
  {
    hide IsRunning, GroupAt;
    if m == j {
      l := j;
      RunningBefore(args, j, k);
    } else {
      l := Cycle(args, j, k, m - 1);
      RunningBefore(args, l, k);
      RunningBefore(args, l + 1, k);
      SameNext(args, m - 1, l);
      l := if l + 1 == k then j else l + 1;
    }
  }

  lemma ComesBackForever(args: seq<bytes>, m: nat)
    requires ComesBack(args)
    ensures IsRunning(args, m)
  {
    hide IsRunning, GroupAt;
    var j, k :| 0 <= j < k <= |args| && IsRunning(args, k) && GroupAt(args, j) == GroupAt(args, k);
    if m < j {
      RunningBefore(args, m, k);
    } else {
      var l := Cycle(args, j, k, m);
    }
  }

  lemma {:induction false} Pigeonhole(xs: seq<nat>, n: nat)
    requires |xs| > n && forall i :: 0 <= i < |xs| ==> xs[i] < n
    ensures exists i, j :: 0 <= i < j < |xs| && xs[i] == xs[j]
  {
    var first := xs[0];
    if n == 0 {
    } else if forall i :: 0 <= i < |xs| ==> xs[i] != n - 1 {
      Pigeonhole(xs, n - 1);
    } else {
      var p :| 0 <= p < |xs| && xs[p] == n - 1;
      var rest := xs[..p] + xs[p + 1..];
      if forall i :: 0 <= i < |rest| ==> rest[i] != n - 1 {
        Pigeonhole(rest, n - 1);
        var i, j :| 0 <= i < j < |rest| && rest[i] == rest[j];
        assert xs[if i < p then i else i + 1] == xs[if j < p then j else j + 1];
      } else {
        var q :| 0 <= q < |rest| && rest[q] == n - 1;
        var q' := if q < p then q else q + 1;
        assert xs[q'] == xs[p];
        assert xs[if q' < p then q' else p] == xs[if q' < p then p else q'];
      }
    }
  }

  /** A loop that still runs after as many rounds as there are arguments has come back to a group. */
  lemma RunsOn(args: seq<bytes>)
    requires IsRunning(args, |args|)
    ensures ComesBack(args)
  {
    var groups := seq(|args| + 1, k requires 0 <= k => GroupAt(args, k));
    forall k | 0 <= k <= |args|
      ensures groups[k] < |args|
    {
      RunningBefore(args, k, |args|);
    }
    Pigeonhole(groups, |args|);
    var j, k :| 0 <= j < k < |groups| && groups[j] == groups[k];
    RunningBefore(args, k, |args|);
  }

  /**
   * The groups are left if they are left within as many rounds as there are arguments; otherwise the loop comes back to
   * a group, or an interval ends at the largest nonce.
   */
  lemma LeavesExactly(args: seq<bytes>)
    ensures (exists k :: IsOver(args, k)) <==> IsOver(args, |args|)
    ensures IsOver(args, |args|) <==> !ComesBack(args) && !GetsStuck(args)
  {
    if k: nat :| IsOver(args, k) && !IsOver(args, |args|) {
      LeftIsLeft(args, k);
    }
    if ComesBack(args) {
      ComesBackForever(args, |args|);
    }
    if k: nat :| k <= |args| && Rounds(args, k).Stuck? {
      NotRunningStays(args, k, |args|);
    }
    if IsRunning(args, |args|) {
      RunsOn(args);
    }
  }

  lemma LeftIsLeft(args: seq<bytes>, k: nat)
    requires IsOver(args, k)
    ensures IsOver(args, |args|)
  {
    if k <= |args| {
      NotRunningStays(args, k, |args|);
    } else if IsRunning(args, |args|) {
      RunsOn(args);
      ComesBackForever(args, k);
    } else {
      NotRunningStays(args, |args|, k);
    }
  }

  // ---- the call, step by step ----

  /** Where a call is: at the head of one of its three loops, or stopped. */
  datatype Place =
    | AtGroup(index: nat)
    | AtPair(token: bytes, index: nat, end: nat)
    | AtNonce(token: bytes, nonce: nat, last: nat, index: nat, end: nat)
    | Stopped(result: Result<()>)

  datatype Deletion = Deletion(place: Place, records: Store)

  function Start(args: seq<bytes>, records: Store): Deletion {
    Deletion(if |args| < MIN_ARGS_DELETE then Stopped(Err(InvalidNumOfArgs)) else AtGroup(0), records)
  }

  /** One turn of a loop, all in 64 bits: deleteMetadata, deleteMetadataForListIntervals, deleteMetadataForInterval. */
  function Step(args: seq<bytes>, d: Deletion): Deletion {
    match d.place
    case AtGroup(i) =>
      if (i + 1) % U64 >= |args| then d.(place := Stopped(Ok(())))
      else if i >= |args| then d.(place := Stopped(Err(IndexOutOfRange)))
      else
        var token, n, j := args[i], ReadUint64(args[(i + 1) % U64]), (i + 2) % U64;
        if !ValidToken(token) then d.(place := Stopped(Err(InvalidTokenID)))
        else if j >= |args| then d.(place := Stopped(Err(InvalidNumOfArgs)))
        else d.(place := AtPair(token, j, (j + n * 2) % U64))
    case AtPair(token, j, end) =>
      if j >= end then d.(place := AtGroup(end))
      else if j + 2 > |args| then d.(place := Stopped(Err(InvalidNumOfArgs)))
      else
        var first, last := ReadUint64(args[j]), ReadUint64(args[j + 1]);
        (match CheckInterval(first, last)
         case Err(error) => d.(place := Stopped(Err(error)))
         case Ok(_) => d.(place := AtNonce(token, first, last, j, end)))
    case AtNonce(token, nonce, last, j, end) =>
      if nonce > last then d.(place := AtPair(token, (j + 2) % U64, end))
      else Deletion(AtNonce(token, (nonce + 1) % U64, last, j, end), d.records - {KeyOf(token, nonce)})
    case Stopped(_) => d
  }

  function Steps(args: seq<bytes>, d: Deletion, k: nat): Deletion {
    if k == 0 then d else Step(args, Steps(args, d, k - 1))
  }

  /** The call returns. */
  ghost predicate Returns(args: seq<bytes>, records: Store) {
    exists k :: Steps(args, Start(args, records), k).place.Stopped?
  }

  lemma {:induction false} StepsSplit(args: seq<bytes>, d: Deletion, a: nat, b: nat)
    ensures Steps(args, d, a + b) == Steps(args, Steps(args, d, a), b)
  {
    hide Step;
    if b > 0 {
      StepsSplit(args, d, a, b - 1);
    }
  }

  lemma {:induction false} StoppedStays(args: seq<bytes>, d: Deletion, a: nat, b: nat)
    requires a <= b && Steps(args, d, a).place.Stopped?
    ensures Steps(args, d, b) == Steps(args, d, a)
  {
    if a < b {
      StoppedStays(args, d, a, b - 1);
    }
  }

  lemma FirstStep(args: seq<bytes>, d: Deletion, s: nat)
    ensures Steps(args, d, 1) == Step(args, d)
    ensures Steps(args, d, 1 + s) == Steps(args, Step(args, d), s)
  {
    hide Step;
    assert Steps(args, d, 0) == d;
    StepsSplit(args, d, 1, s);
  }

  /** The loop over an interval that ends before the largest nonce deletes it and goes on to the next pair. */
  lemma {:induction false} IntervalLeads(args: seq<bytes>, d: Deletion) returns (s: nat)
    requires d.place.AtNonce? && d.place.nonce <= d.place.last + 1 && d.place.last < U64 - 1
    ensures var p := d.place;
            Steps(args, d, s)
            == Deletion(AtPair(p.token, (p.index + 2) % U64, p.end),
                        d.records - Denoted(Interval(p.token, p.nonce, p.last)))
    decreases d.place.last + 1 - d.place.nonce
  {
    hide Steps, Step, Denoted, KeyOf;
    var p, d' := d.place, Step(args, d);
    NonceStep(args, d);
    if p.nonce > p.last {
      s := 1;
      FirstStep(args, d, 0);
    } else {
      s := IntervalLeads(args, d');
      FirstStep(args, d, s);
      s := s + 1;
    }
  }

  lemma NonceStep(args: seq<bytes>, d: Deletion)
    requires d.place.AtNonce? && d.place.nonce <= d.place.last + 1 && d.place.last < U64 - 1
    ensures var p, d' := d.place, Step(args, d);
            if p.nonce > p.last then
              d' == Deletion(AtPair(p.token, (p.index + 2) % U64, p.end),
                             d.records - Denoted(Interval(p.token, p.nonce, p.last)))
            else
              d'.place == p.(nonce := p.nonce + 1) &&
              d'.records - Denoted(Interval(p.token, p.nonce + 1, p.last))
                == d.records - Denoted(Interval(p.token, p.nonce, p.last))
  {
    hide KeyOf;
    var p := d.place;
    if p.nonce > p.last {
      assert Denoted(Interval(p.token, p.nonce, p.last)) == {} && d.records - {} == d.records;
    } else {
      DenotedFront(p.token, p.nonce, p.last);
    }
  }

  lemma DenotedFront(token: bytes, first: nat, last: nat)
    requires first <= last
    ensures Denoted(Interval(token, first, last)) == {KeyOf(token, first)} + Denoted(Interval(token, first + 1, last))
  {
  }

  /** At the head of the loop over an interval that ends at the largest nonce. */
  predicate Caught(d: Deletion) {
    d.place.AtNonce? && d.place.nonce < U64 && d.place.last == U64 - 1
  }

  /** That loop is never left. */
  lemma {:induction false} CaughtForever(args: seq<bytes>, d: Deletion, k: nat)
    requires Caught(d)
    ensures Caught(Steps(args, d, k))
  {
    if k > 0 {
      CaughtForever(args, d, k - 1);
    }
  }

  /** The loop over an interval is left exactly if the interval does not end at the largest nonce. */
  lemma IntervalLoopEnds(args: seq<bytes>, d: Deletion)
    requires d.place.AtNonce? && d.place.nonce <= d.place.last < U64
    ensures (exists k :: !Steps(args, d, k).place.AtNonce?) <==> d.place.last != U64 - 1
  {
    hide Steps;
    if d.place.last == U64 - 1 {
      forall k: nat
        ensures Steps(args, d, k).place.AtNonce?
      {
        CaughtForever(args, d, k);
      }
    } else {
      var s := IntervalLeads(args, d);
    }
  }

  // ---- the rounds are what the steps do ----

  /** A state of the call is what an outcome of reading says, where the call is at a place if it got through. */
  predicate Shows<T>(d: Deletion, outcome: Outcome<T>, place: Place, records: Store) {
    match outcome
    case Through(_) => d == Deletion(place, records)
    case Failed(error) => d.place == Stopped(Err(error))
    case Stuck => Caught(d)
  }

  lemma PairLeads(args: seq<bytes>, d: Deletion) returns (s: nat)
    requires d.place.AtPair? && d.place.index < d.place.end && |args| < U64
    ensures var p := d.place;
            if p.index + 2 > |args| then Steps(args, d, s).place == Stopped(Err(InvalidNumOfArgs))
            else
              var x := ReadInterval(p.token, ReadUint64(args[p.index]), ReadUint64(args[p.index + 1]));
              Shows(Steps(args, d, s), x, AtPair(p.token, p.index + 2, p.end),
                if x.Through? then d.records - Denoted(x.value) else d.records)
  {
    hide Steps, Denoted, ReadUint64;
    var d' := Step(args, d);
    FirstStep(args, d, 0);
    s := 1;
    if d'.place.AtNonce? && d'.place.last < U64 - 1 {
      hide Step;
      s := IntervalLeads(args, d');
      FirstStep(args, d, s);
      s := s + 1;
    }
  }

  lemma {:induction false} ListLeads(args: seq<bytes>, d: Deletion, m: nat) returns (s: nat)
    requires d.place.AtPair? && (m == 0 || d.place.index + 2 * m <= d.place.end) && |args| < U64
    ensures var p, xs := d.place, ListIntervals(args, d.place.token, d.place.index, m);
            Shows(Steps(args, d, s), xs, AtPair(p.token, p.index + 2 * m, p.end),
              if xs.Through? then d.records - AllDenoted(xs.value) else d.records)
  {
    hide Step, Steps, Denoted, ReadInterval, ReadUint64;
    if m == 0 {
      s := 0;
      NoSteps(args, d);
    } else {
      var p := d.place;
      var before := ListIntervals(args, p.token, p.index, m - 1);
      s := ListLeads(args, d, m - 1);
      if before.Through? {
        var d1 := Steps(args, d, s);
        var t := PairLeads(args, d1);
        StepsSplit(args, d, s, t);
        s := s + t;
        var xs := ListIntervals(args, p.token, p.index, m);
        if xs.Through? {
          AllDenotedSnoc(before.value, xs.value[|xs.value| - 1]);
          assert d.records - AllDenoted(before.value) - Denoted(xs.value[|xs.value| - 1])
            == d.records - AllDenoted(xs.value);
        }
      }
    }
  }

  lemma NoSteps(args: seq<bytes>, d: Deletion)
    ensures Steps(args, d, 0) == d && AllDenoted([]) == {} && d.records - {} == d.records
  {
  }

  lemma RoundLeads(args: seq<bytes>, d: Deletion) returns (s: nat)
    requires d.place.AtGroup? && d.place.index + 1 < |args| < U64
    ensures s > 0
    ensures var r := Round(args, d.place.index);
            Shows(Steps(args, d, s), r, AtGroup(if r.Through? then r.value.1 else 0),
              if r.Through? then d.records - AllDenoted(r.value.0) else d.records)
  {
    hide Steps, Step, ListIntervals, ReadUint64, ValidToken, PairsFor, AllDenoted;
    var i, d1 := d.place.index, Step(args, d);
    FirstStep(args, d, 0);
    GroupStep(args, d);
    s := 1;
    if d1.place.AtPair? {
      var n := ReadUint64(args[i + 1]);
      PairsReachEnd(i + 2, n);
      var t := ListLeads(args, d1, PairsFor(i + 2, n));
      FirstStep(args, d, t);
      s := 1 + t;
      if Round(args, i).Through? {
        PairStep(args, Steps(args, d, s));
        StepsSplit(args, d, s, 1);
        FirstStep(args, Steps(args, d, s), 0);
        s := s + 1;
      }
    }
  }

  lemma GroupStep(args: seq<bytes>, d: Deletion)
    requires d.place.AtGroup? && d.place.index + 1 < |args| < U64
    ensures var i, token, n := d.place.index, args[d.place.index], ReadUint64(args[d.place.index + 1]);
            Step(args, d) == d.(place :=
              if !ValidToken(token) then Stopped(Err(InvalidTokenID))
              else if i + 2 >= |args| then Stopped(Err(InvalidNumOfArgs))
              else AtPair(token, i + 2, (i + 2 + 2 * n) % U64))
  {
    hide ReadUint64, ValidToken;
  }

  lemma PairStep(args: seq<bytes>, d: Deletion)
    requires d.place.AtPair? && d.place.index >= d.place.end
    ensures Step(args, d) == d.(place := AtGroup(d.place.end))
  {
  }

  /** The index stays even, so that the test of the loop never wraps around. */
  lemma {:induction false} RoundsEven(args: seq<bytes>, k: nat)
    requires Rounds(args, k).Through?
    ensures Rounds(args, k).value.1 % 2 == 0 && Rounds(args, k).value.1 < U64
  {
    hide ListIntervals, ValidToken, ReadUint64, PairsFor;
    if k > 0 {
      RoundsEven(args, k - 1);
    }
  }

  lemma {:induction false} RoundsLead(args: seq<bytes>, records: Store, k: nat) returns (s: nat)
    requires |args| < U64
    ensures IsRunning(args, k) ==> s >= k
    ensures var r := Rounds(args, k);
            Shows(Steps(args, Deletion(AtGroup(0), records), s), r, AtGroup(GroupAt(args, k)),
              if r.Through? then records - AllDenoted(r.value.0) else records)
  {
    hide Step, Steps, Round, AllDenoted;
    var d := Deletion(AtGroup(0), records);
    if k == 0 {
      s := 0;
      NoSteps(args, d);
    } else {
      s := RoundsLead(args, records, k - 1);
      if IsRunning(args, k - 1) {
        var (done, i) := Rounds(args, k - 1).value;
        var d1 := Steps(args, d, s);
        var t := RoundLeads(args, d1);
        StepsSplit(args, d, s, t);
        s := s + t;
        if Round(args, i).Through? {
          AllDenotedConcat(done, Round(args, i).value.0);
          assert records - AllDenoted(done) - AllDenoted(Round(args, i).value.0)
            == records - AllDenoted(done + Round(args, i).value.0);
        }
      }
    }
  }

  // ---- what a call does ----

  /** The groups are left, and no interval that is read before the first error ends at the largest nonce. */
  predicate CallEnds(args: seq<bytes>) {
    |args| < MIN_ARGS_DELETE || IsOver(args, |args|)
  }

  /** The records after a call, or its error. */
  function Deleted(records: Store, args: seq<bytes>): Outcome<Store> {
    if |args| < MIN_ARGS_DELETE then Failed(InvalidNumOfArgs)
    else
      var (xs, _) :- Rounds(args, |args|);
      Through(records - AllDenoted(xs))
  }

  /** The steps of a call that ends lead to what the rounds read. */
  lemma CallLeads(args: seq<bytes>, records: Store) returns (s: nat)
    requires |args| < U64 && CallEnds(args)
    ensures var r := Deleted(records, args);
            Shows(Steps(args, Start(args, records), s), r, Stopped(Ok(())), if r.Through? then r.value else records)
    ensures !Deleted(records, args).Stuck?
  {
    hide Step, Rounds, AllDenoted;
    var d := Start(args, records);
    if |args| < MIN_ARGS_DELETE {
      s := 0;
    } else {
      s := RoundsLead(args, records, |args|);
      if Rounds(args, |args|).Through? {
        RoundsEven(args, |args|);
        StopsAtGroup(args, Steps(args, d, s));
        s := s + 1;
      }
    }
  }

  lemma StopsAtGroup(args: seq<bytes>, d: Deletion)
    requires d.place.AtGroup? && d.place.index < U64 && d.place.index % 2 == 0 && d.place.index + 1 >= |args|
    ensures Step(args, d) == d.(place := Stopped(Ok(())))
  {
  }

  /** A call that does not end is still going after any number of steps. */
  lemma CallGoesOn(args: seq<bytes>, records: Store, k: nat)
    requires |args| < U64 && !CallEnds(args)
    ensures !Steps(args, Start(args, records), k).place.Stopped?
  {
    hide Step, Steps, Rounds, AllDenoted;
    var d := Start(args, records);
    if Steps(args, d, k).place.Stopped? {
      if Rounds(args, |args|).Stuck? {
        var s := RoundsLead(args, records, |args|);
        if s <= k {
          StepsSplit(args, d, s, k - s);
          CaughtForever(args, Steps(args, d, s), k - s);
        } else {
          StoppedStays(args, d, k, s);
        }
      } else {
        RunsOn(args);
        ComesBackForever(args, k);
        var s := RoundsLead(args, records, k);
        StoppedStays(args, d, k, s);
      }
    }
  }

  /**
   * A call returns if and only if the groups are left within as many rounds as there are arguments and no interval read
   * before the first error ends at the largest nonce.
   */
  lemma ReturnsExactly(args: seq<bytes>, records: Store)
    requires |args| < U64
    ensures Returns(args, records) <==> CallEnds(args)
    ensures Returns(args, records) <==> |args| < MIN_ARGS_DELETE || (!ComesBack(args) && !GetsStuck(args))
  {
    hide Steps, Start, IsOver, ComesBack, GetsStuck;
    LeavesExactly(args);
    if CallEnds(args) {
      var s := CallLeads(args, records);
    } else {
      forall k: nat
        ensures !Steps(args, Start(args, records), k).place.Stopped?
      {
        CallGoesOn(args, records, k);
      }
    }
  }

  lemma {:induction false} RoundsAreValid(args: seq<bytes>, k: nat)
    requires Rounds(args, k).Through?
    ensures forall x :: x in Rounds(args, k).value.0 ==> ValidToken(x.token) && 0 < x.first <= x.last
  {
    hide ListIntervals, ValidToken, ReadUint64;
    if k > 0 {
      RoundsAreValid(args, k - 1);
      var (_, i) := Rounds(args, k - 1).value;
      if i + 1 < |args| {
        ListIsValid(args, args[i], i + 2, PairsFor(i + 2, ReadUint64(args[i + 1])));
      }
    }
  }

  /** Where a call stops it has done what the rounds say. */
  lemma StopsAsRead(args: seq<bytes>, records: Store, k: nat)
    requires |args| < U64 && Steps(args, Start(args, records), k).place.Stopped?
    ensures match Deleted(records, args)
      case Through(after) => Steps(args, Start(args, records), k) == Deletion(Stopped(Ok(())), after)
      case Failed(error) => Steps(args, Start(args, records), k).place == Stopped(Err(error))
      case Stuck => false
  {
    hide Steps, Start, Deleted, CallEnds;
    if !CallEnds(args) {
      CallGoesOn(args, records, k);
    }
    var s := CallLeads(args, records);
    if s <= k {
      StoppedStays(args, Start(args, records), s, k);
    } else {
      StoppedStays(args, Start(args, records), k, s);
    }
  }

  /** A call that returns without an error took exactly the nonces it read, of the tokens it read, and nothing else. */
  lemma DeletionIsExact(records: Store, args: seq<bytes>, k: nat, token: bytes, nonce: nat)
    requires |args| < U64 && Steps(args, Start(args, records), k).place == Stopped(Ok(())) && ValidToken(token)
    ensures Rounds(args, |args|).Through?
    ensures var xs, after := Rounds(args, |args|).value.0, Steps(args, Start(args, records), k).records;
            && (KeyOf(token, nonce) in after <==>
                KeyOf(token, nonce) in records &&
                !exists i :: 0 <= i < |xs| && xs[i].token == token && xs[i].first <= nonce <= xs[i].last)
            && (forall q :: q in after ==> q in records && after[q] == records[q])
  {
    hide Rounds, Steps, Start, ValidToken;
    StopsAsRead(args, records, k);
    RoundsAreValid(args, |args|);
    DeletedExactly(Rounds(args, |args|).value.0, token, nonce);
  }

  // ---- counts that fit ----

  /** No announced count leads around 64 bits. */
  predicate Fits(args: seq<bytes>, i: nat)
    decreases |args| - i
  {
    i + 1 < |args| ==>
      var n := ReadUint64(args[i + 1]);
      i + 2 + 2 * n < U64 && Fits(args, i + 2 + 2 * n)
  }

  function Prefixed(done: seq<Interval>, rest: Outcome<seq<Interval>>): Outcome<seq<Interval>> {
    var xs :- rest;
    Through(done + xs)
  }

  /** Where the counts fit, a round reads what its group announces, and goes forward. */
  lemma RoundAgrees(args: seq<bytes>, i: nat)
    requires i + 1 < |args| && Fits(args, i)
    ensures match Round(args, i)
      case Through((xs, next)) =>
        Fits(args, next) && next >= i + 2 && Intervals(args, i) == Prefixed(xs, Intervals(args, next))
      case Failed(error) => Intervals(args, i) == Failed(error)
      case Stuck => Intervals(args, i).Stuck?
  {
    hide ListIntervals, ValidToken, ReadUint64, PairsFor;
    PairsReachEnd(i + 2, ReadUint64(args[i + 1]));
  }

  lemma {:induction false} RoundsAgree(args: seq<bytes>, k: nat)
    requires Fits(args, 0)
    ensures match Rounds(args, k)
      case Through((done, i)) =>
        Fits(args, i) && (i + 1 < |args| ==> i >= k) && Intervals(args, 0) == Prefixed(done, Intervals(args, i))
      case Failed(error) => Intervals(args, 0) == Failed(error)
      case Stuck => Intervals(args, 0).Stuck?
  {
    hide Round, Fits, Intervals, Prefixed;
    if k == 0 {
      PrefixedTwice([], [], Intervals(args, 0));
    } else {
      RoundsAgree(args, k - 1);
      if Rounds(args, k - 1).Through? {
        var (done, i) := Rounds(args, k - 1).value;
        if i + 1 < |args| {
          RoundAgrees(args, i);
          match Round(args, i) {
            case Through((xs, next)) => PrefixedTwice(done, xs, Intervals(args, next));
            case _ => NothingPrefixed(done, Intervals(args, i));
          }
        }
      }
    }
  }

  lemma PrefixedTwice(done: seq<Interval>, xs: seq<Interval>, rest: Outcome<seq<Interval>>)
    ensures Prefixed(done, Prefixed(xs, rest)) == Prefixed(done + xs, rest) && Prefixed([], rest) == rest
  {
    if rest.Through? {
      assert done + (xs + rest.value) == done + xs + rest.value && [] + rest.value == rest.value;
    }
  }

  lemma NothingPrefixed(done: seq<Interval>, rest: Outcome<seq<Interval>>)
    ensures !rest.Through? ==> Prefixed(done, rest) == rest
  {
  }

  /**
   * A call whose counts fit ends exactly if reading its list comes to no interval that ends at the largest nonce; it
   * then succeeds exactly if the list can be read, and takes all that the list denotes.
   */
  lemma FittingDeletionIsExact(records: Store, args: seq<bytes>)
    requires MIN_ARGS_DELETE <= |args| < U64 && Fits(args, 0)
    ensures Returns(args, records) <==> !Intervals(args, 0).Stuck?
    ensures match Intervals(args, 0)
      case Through(xs) => Deleted(records, args) == Through(records - AllDenoted(xs))
      case Failed(error) => Deleted(records, args) == Failed(error)
      case Stuck => Deleted(records, args).Stuck?
  {
    hide Rounds, Fits, Intervals, AllDenoted, Returns;
    RoundsAgree(args, |args|);
    ReturnsExactly(args, records);
    if Rounds(args, |args|).Through? {
      var (xs, i) := Rounds(args, |args|).value;
      NoMoreGroups(args, i);
      assert xs + [] == xs;
    }
  }

  lemma NoMoreGroups(args: seq<bytes>, i: nat)
    ensures i + 1 >= |args| ==> Intervals(args, i) == Through([])
  {
  }

  /** A list that announces more than it has cannot be read. */
  lemma {:induction false} ListIsThere(args: seq<bytes>, token: bytes, index: nat, n: nat)
    requires index <= |args| && ListIntervals(args, token, index, n).Through?
    ensures index + 2 * n <= |args|
  {
  }

  lemma {:induction false} ReadableFits(args: seq<bytes>, i: nat)
    requires |args| < U64 && Intervals(args, i).Through?
    ensures Fits(args, i)
    decreases |args| - i
  {
    hide ListIntervals, ReadUint64;
    if i + 1 < |args| {
      var n := ReadUint64(args[i + 1]);
      ListIsThere(args, args[i], i + 2, n);
      ReadableFits(args, i + 2 + 2 * n);
    }
  }

  /** A call that returns without an error has read what its groups announce exactly if their counts fit. */
  lemma ReadsAnnouncedExactly(args: seq<bytes>, records: Store, k: nat)
    requires |args| < U64 && Steps(args, Start(args, records), k).place == Stopped(Ok(()))
    ensures Rounds(args, |args|).Through?
    ensures Intervals(args, 0) == Through(Rounds(args, |args|).value.0) <==> Fits(args, 0)
  {
    hide Rounds, Fits, Intervals, Steps, Start;
    StopsAsRead(args, records, k);
    var (xs, i) := Rounds(args, |args|).value;
    if Fits(args, 0) {
      RoundsAgree(args, |args|);
      NoMoreGroups(args, i);
      assert xs + [] == xs;
    } else if Intervals(args, 0).Through? {
      ReadableFits(args, 0);
    }
  }

  // ---- calls that do not return, and a call that passes over its groups ----

  /** A first group of 2^63 - 1 pairs leads back to itself, whatever follows. */
  lemma RepeatsForever(args: seq<bytes>, records: Store)
    requires MIN_ARGS_DELETE <= |args| < U64 && ValidToken(args[0]) && ReadUint64(args[1]) == U64 / 2 - 1
    ensures !Returns(args, records)
  {
    hide ValidToken, ReadUint64, Returns, Round;
    FirstRoundRepeats(args);
    var none: seq<Interval> := [];
    assert none + none == none;
    assert Rounds(args, 0) == Through((none, 0));
    assert Rounds(args, 1) == Through((none, 0));
    assert IsRunning(args, 1) && GroupAt(args, 0) == GroupAt(args, 1);
    assert ComesBack(args);
    ReturnsExactly(args, records);
  }

  lemma FirstRoundRepeats(args: seq<bytes>)
    requires |args| >= MIN_ARGS_DELETE && ValidToken(args[0]) && ReadUint64(args[1]) == U64 / 2 - 1
    ensures Round(args, 0) == Through(([], 0))
  {
    hide ValidToken, ReadUint64;
    assert PairsFor(2, U64 / 2 - 1) == 0;
  }

  /** A first interval that ends at the largest nonce is never deleted to its end, whatever follows. */
  lemma SticksForever(args: seq<bytes>, records: Store)
    requires MIN_ARGS_DELETE <= |args| < U64 && ValidToken(args[0]) && PairsFor(2, ReadUint64(args[1])) > 0
    requires ReadUint64(args[2]) > 0 && ReadUint64(args[3]) == U64 - 1
    ensures !Returns(args, records)
  {
    hide ValidToken, ReadUint64, Returns, Round;
    FirstRoundSticks(args);
    assert Rounds(args, 0) == Through(([], 0));
    assert Rounds(args, 1).Stuck?;
    assert GetsStuck(args);
    ReturnsExactly(args, records);
  }

  lemma FirstRoundSticks(args: seq<bytes>)
    requires MIN_ARGS_DELETE <= |args| < U64 && ValidToken(args[0]) && PairsFor(2, ReadUint64(args[1])) > 0
    requires ReadUint64(args[2]) > 0 && ReadUint64(args[3]) == U64 - 1
    ensures Round(args, 0).Stuck?
  {
    hide ValidToken, ReadUint64, PairsFor;
    ReadIsBounded(args[2]);
    assert ListIntervals(args, args[0], 2, 0) == Through([]);
    assert ListIntervals(args, args[0], 2, 1).Stuck?;
    StuckStays(args, args[0], 2, 1, PairsFor(2, ReadUint64(args[1])));
  }

  lemma ReadIsBounded(b: bytes)
    ensures ReadUint64(b) < U64
  {
  }

  lemma {:induction false} StuckStays(args: seq<bytes>, token: bytes, index: nat, m: nat, n: nat)
    requires m <= n
    ensures !ListIntervals(args, token, index, m).Through? ==>
      ListIntervals(args, token, index, n) == ListIntervals(args, token, index, m)
  {
    hide ReadUint64, ReadInterval;
    if m < n {
      StuckStays(args, token, index, m, n - 1);
    }
  }

  /** Two lists, for every valid token, with which a call does not return. */
  lemma CallCanRunForever(token: bytes, records: Store)
    requires ValidToken(token)
    ensures !Returns([token, ToBytes(U64 / 2 - 1), [1], [1]], records)
    ensures !Returns([token, [1], [1], ToBytes(U64 - 1)], records)
  {
    hide Returns, ToBytes, FromBytes, ValidToken;
    FromToBytes(U64 / 2 - 1);
    FromToBytes(U64 - 1);
    ReadsOne();
    RepeatsForever([token, ToBytes(U64 / 2 - 1), [1], [1]], records);
    SticksForever([token, [1], [1], ToBytes(U64 - 1)], records);
  }

  lemma ReadsOne()
    ensures ReadUint64([1]) == 1
  {
    var one: bytes := [1];
    assert one[..0] == [];
  }

  /** An interval that is not read does no harm: the call returns with the error of the invalid token. */
  lemma UnreadIntervalReturns(records: Store)
    ensures var args := [[], [1], [1], ToBytes(U64 - 1)];
            Returns(args, records) && Deleted(records, args) == Failed(InvalidTokenID)
  {
    hide Returns, ToBytes, FromBytes;
    var args := [[], [1], [1], ToBytes(U64 - 1)];
    assert Rounds(args, 0) == Through(([], 0));
    assert Rounds(args, 1) == Failed(InvalidTokenID);
    NotRunningStays(args, 1, |args|);
    ReturnsExactly(args, records);
  }

  /** Two groups that announce 2^63 pairs are passed over: the call succeeds and deletes nothing. */
  lemma CallCanPassOver(token: bytes, last: bytes, records: Store)
    requires ValidToken(token)
    ensures var args := [token, ToBytes(U64 / 2), token, ToBytes(U64 / 2), last];
            && Returns(args, records) && Deleted(records, args) == Through(records)
            && Intervals(args, 0).Failed? && !Fits(args, 0)
  {
    hide ToBytes, FromBytes, ValidToken, Returns, Intervals, Fits;
    var args := [token, ToBytes(U64 / 2), token, ToBytes(U64 / 2), last];
    var none: seq<Interval> := [];
    FromToBytes(U64 / 2);
    assert PairsFor(2, U64 / 2) == 0 && PairsFor(4, U64 / 2) == 0;
    assert Round(args, 0) == Through((none, 2)) && Round(args, 2) == Through((none, 4)) && none + none == none;
    assert Rounds(args, 0) == Through((none, 0));
    assert Rounds(args, 1) == Through((none, 2));
    assert Rounds(args, 2) == Through((none, 4));
    NotRunningStays(args, 2, 5);
    ReturnsExactly(args, records);
    assert records - {} == records;
    AnnouncesTooMuch(args);
  }

  lemma AnnouncesTooMuch(args: seq<bytes>)
    requires |args| == 5 && ValidToken(args[0]) && ReadUint64(args[1]) == U64 / 2 && ReadUint64(args[3]) == U64 / 2
    ensures Intervals(args, 0).Failed? && !Fits(args, 0)
  {
    hide ReadUint64, ValidToken;
    assert !ListIntervals(args, args[0], 2, 1).Stuck?;
    assert ListIntervals(args, args[0], 2, 2).Failed?;
    StuckStays(args, args[0], 2, 2, U64 / 2);
  }
}
