/** dctDeleteMetaData: the records of whole intervals of nonces are deleted, and single ones are added. */
module Metadata {
  import opened Bytes
  import opened Results
  import opened Keys
  import opened Tokens
  import opened Deletions

  const ARGS_PER_ADD := 3

  // ---- what an addition does ----

  /** The record of a key with its metadata set. */
  function WithMetaData(records: Store, k: bytes, m: MetaData): DCToken {
    (if k in records then records[k] else DCToken(NON_FUNGIBLE, 0, [], None, [])).(metadata := Some(m))
  }

  predicate HasMetaData(records: Store, k: bytes) {
    k in records && records[k].metadata.Some?
  }

  function AddEntry(read: bytes -> Option<MetaData>, records: Store, token: bytes, nonce: nat,
      data: bytes): Result<Store> {
    var _ :- Need(nonce != 0, InvalidNonce);
    var _ :- Need(ValidToken(token), InvalidTokenID);
    match read(data)
    case None => Err(UnmarshalFailed)
    case Some(m) =>
      var _ :- Need(m.nonce == nonce, InvalidMetadata);
      var k := KeyOf(token, nonce);
      var _ :- Need(!HasMetaData(records, k), TokenHasValidMetadata);
      Ok(records[k := WithMetaData(records, k, m)])
  }

  function KeyAt(args: seq<bytes>, i: nat): bytes
    requires 3 * i + 2 < |args|
  {
    KeyOf(args[3 * i], ReadUint64(args[3 * i + 1]))
  }

  function AddUpTo(read: bytes -> Option<MetaData>, records: Store, args: seq<bytes>, n: nat): Result<Store>
    requires 3 * n <= |args|
  {
    if n == 0 then Ok(records)
    else
      var before :- AddUpTo(read, records, args, n - 1);
      AddEntry(read, before, args[3 * (n - 1)], ReadUint64(args[3 * (n - 1) + 1]), args[3 * (n - 1) + 2])
  }

  /** What each addition needs for itself. */
  predicate WellFormed(read: bytes -> Option<MetaData>, args: seq<bytes>, i: nat)
    requires 3 * i + 2 < |args|
  {
    var nonce := ReadUint64(args[3 * i + 1]);
    nonce != 0 && ValidToken(args[3 * i]) && read(args[3 * i + 2]).Some? && read(args[3 * i + 2]).value.nonce == nonce
  }

  /** All additions are well-formed, for different keys that had no metadata. */
  ghost predicate Addable(read: bytes -> Option<MetaData>, records: Store, args: seq<bytes>, n: nat)
    requires 3 * n <= |args|
  {
    (forall i :: 0 <= i < n ==> WellFormed(read, args, i) && !HasMetaData(records, KeyAt(args, i))) &&
    (forall i, j :: 0 <= i < j < n ==> KeyAt(args, i) != KeyAt(args, j))
  }

  lemma AddEntryExactly(read: bytes -> Option<MetaData>, records: Store, args: seq<bytes>, i: nat)
    requires 3 * i + 2 < |args|
    ensures var r := AddEntry(read, records, args[3 * i], ReadUint64(args[3 * i + 1]), args[3 * i + 2]);
            var k := KeyAt(args, i);
            && (r.Ok? <==> WellFormed(read, args, i) && !HasMetaData(records, k))
            && (r.Ok? ==> r.value == records[k := WithMetaData(records, k, read(args[3 * i + 2]).value)])
  {
  }

  /** A record is described by m; what else it had is still there, and a new one has nothing else. */
  predicate Describes(records: Store, after: Store, k: bytes, m: MetaData) {
    k in after && after[k].metadata == Some(m) &&
    if k in records then
      after[k].kind == records[k].kind && after[k].value == records[k].value &&
      after[k].properties == records[k].properties && after[k].reserved == records[k].reserved
    else after[k].kind == NON_FUNGIBLE && after[k].value == 0 && after[k].properties == [] && after[k].reserved == []
  }

  /** The records after n successful additions: the listed keys are described, all others are as before. */
  ghost predicate Added(read: bytes -> Option<MetaData>, records: Store, after: Store, args: seq<bytes>, n: nat)
    requires 3 * n <= |args|
  {
    (forall i :: 0 <= i < n && read(args[3 * i + 2]).Some? ==>
       Describes(records, after, KeyAt(args, i), read(args[3 * i + 2]).value)) &&
    (forall k :: (forall i :: 0 <= i < n ==> KeyAt(args, i) != k) ==>
       (k in after <==> k in records) && (k in records ==> after[k] == records[k]))
  }

  lemma AddedSnoc(read: bytes -> Option<MetaData>, records: Store, before: Store, args: seq<bytes>, n: nat)
    requires 3 * n + 3 <= |args| && Added(read, records, before, args, n)
    requires read(args[3 * n + 2]).Some? && (forall i :: 0 <= i < n ==> KeyAt(args, i) != KeyAt(args, n))
    ensures Added(read, records,
      before[KeyAt(args, n) := WithMetaData(before, KeyAt(args, n), read(args[3 * n + 2]).value)], args, n + 1)
  {
    hide KeyAt;
  }

  /** After some additions a key has metadata if it had, or if it was added. */
  lemma HasAfter(read: bytes -> Option<MetaData>, records: Store, after: Store, args: seq<bytes>, n: nat, k: bytes)
    requires 3 * n <= |args| && Added(read, records, after, args, n) &&
      (forall i :: 0 <= i < n ==> WellFormed(read, args, i))
    ensures HasMetaData(after, k) <==> HasMetaData(records, k) || exists i :: 0 <= i < n && KeyAt(args, i) == k
  {
    hide KeyAt, WellFormed;
    WellFormedReads(read, args);
    if i :| 0 <= i < n && KeyAt(args, i) == k {
      assert WellFormed(read, args, i) && read(args[3 * i + 2]).Some?;
      assert k in after;
    }
  }

  /** An addition of a list succeeds exactly if it is addable, and then describes exactly the listed keys. */
  lemma {:induction false} AddedExactly(read: bytes -> Option<MetaData>, records: Store, args: seq<bytes>, n: nat)
    requires 3 * n <= |args|
    ensures AddUpTo(read, records, args, n).Ok? <==> Addable(read, records, args, n)
    ensures AddUpTo(read, records, args, n).Ok? ==> Added(read, records, AddUpTo(read, records, args, n).value, args, n)
  {
    hide AddEntry, WellFormed, KeyAt, Added, HasMetaData, WithMetaData;
    if n == 0 {
      NothingAdded(read, records, args);
    } else {
      AddedExactly(read, records, args, n - 1);
      var before := AddUpTo(read, records, args, n - 1);
      if before.Ok? {
        var k := KeyAt(args, n - 1);
        AddEntryExactly(read, before.value, args, n - 1);
        WellFormedReads(read, args);
        HasAfter(read, records, before.value, args, n - 1, k);
        if AddUpTo(read, records, args, n).Ok? {
          AddedSnoc(read, records, before.value, args, n - 1);
        }
      }
    }
  }

  lemma WellFormedReads(read: bytes -> Option<MetaData>, args: seq<bytes>)
    ensures forall i: nat :: 3 * i + 2 < |args| && WellFormed(read, args, i) ==> read(args[3 * i + 2]).Some?
  {
  }

  // ---- the system account ----

  class SystemAccount {
    var records: Store

    constructor (records: Store)
      ensures this.records == records
    {
      this.records := records;
    }

    /** deleteMetadataForInterval */
    method DeleteInterval(token: bytes, first: nat, last: nat) returns (r: Result<()>)
      requires CheckInterval(first, last).Ok? ==> last < U64 - 1
      modifies this
      ensures r == CheckInterval(first, last)
      ensures records == if r.Ok? then old(records) - Denoted(Interval(token, first, last)) else old(records)
    {
      if last < first {
        return Err(InvalidArguments);
      }
      if first == 0 {
        return Err(InvalidNonce);
      }
      var nonce := first;
      while nonce <= last
        invariant first <= nonce <= last + 1
        invariant records == old(records) - Denoted(Interval(token, first, nonce - 1))
      {
        assert Denoted(Interval(token, first, nonce))
          == Denoted(Interval(token, first, nonce - 1)) + {KeyOf(token, nonce)};
        records := records - {KeyOf(token, nonce)};
        nonce := (nonce + 1) % U64;
      }
      r := Ok(());
    }

    /** deleteMetadataForListIntervals */
    method DeleteList(token: bytes, args: seq<bytes>, index: nat, n: nat) returns (r: Result<()>)
      requires index < |args| < U64 && |args| >= MIN_ARGS_DELETE
      requires !ListIntervals(args, token, index, PairsFor(index, n)).Stuck?
      modifies this
      ensures match ListIntervals(args, token, index, PairsFor(index, n))
        case Through(xs) => r == Ok(()) && records == old(records) - AllDenoted(xs)
        case Failed(error) => r == Err(error)
        case Stuck => false
    {
      hide ListIntervals, AllDenoted, Denoted, ReadUint64, CheckInterval, PairsFor;
      ListNone(args, token, index);
      PairsReachEnd(index, n);
      ghost var m: nat := 0;
      ghost var total := PairsFor(index, n);
      ghost var done: seq<Interval> := [];
      var j := index;
      while j < (index + n * 2) % U64
        invariant m <= total && j == index + 2 * m && ListIntervals(args, token, index, m) == Through(done)
        invariant records == old(records) - AllDenoted(done)
      {
        ListStep(args, token, index, m, total);
        if j > |args| - 2 {
          return Err(InvalidNumOfArgs);
        }
        var first, last := ReadUint64(args[j]), ReadUint64(args[j + 1]);
        var _ :- DeleteInterval(token, first, last);
        AllDenotedSnoc(done, Interval(token, first, last));
        done := done + [Interval(token, first, last)];
        m := m + 1;
        j := (j + 2) % U64;
      }
      r := Ok(());
    }

    /** deleteMetadata, for every call that returns. */
    method DeleteMetadata(args: seq<bytes>) returns (r: Result<()>)
      requires |args| < U64 && CallEnds(args)
      modifies this
      ensures match Deleted(old(records), args)
        case Through(after) => r == Ok(()) && records == after
        case Failed(error) => r == Err(error)
        case Stuck => false
    {
      hide Rounds, Round, ListIntervals, AllDenoted, ValidToken, ReadUint64, IsOver, PairsFor;
      if |args| < MIN_ARGS_DELETE {
        return Err(InvalidNumOfArgs);
      }
      NoRounds(args);
      ghost var k: nat := 0;
      ghost var done: seq<Interval> := [];
      var i: nat := 0;
      while (i + 1) % U64 < |args|
        invariant k <= |args| && Rounds(args, k) == Through((done, i)) && i < U64 && i % 2 == 0
        invariant records == old(records) - AllDenoted(done)
        decreases |args| - k
      {
        RoundStep(args, k, done, i);
        var token, n := args[i], ReadUint64(args[i + 1]);
        i := (i + 2) % U64;
        if !ValidToken(token) {
          return Err(InvalidTokenID);
        }
        if i >= |args| {
          return Err(InvalidNumOfArgs);
        }
        var _ :- DeleteList(token, args, i, n);
        ghost var xs := ListIntervals(args, token, i, PairsFor(i, n)).value;
        AllDenotedConcat(done, xs);
        done, k := done + xs, k + 1;
        i := (i + n * 2) % U64;
      }
      RoundsOver(args, k, done, i);
      r := Ok(());
    }

    /** One round of addMetadata's loop. */
    method AddRecord(read: bytes -> Option<MetaData>, token: bytes, nonce: nat, data: bytes) returns (r: Result<()>)
      modifies this
      ensures Ends(AddEntry(read, old(records), token, nonce, data), r, records)
    {
      if nonce == 0 {
        return Err(InvalidNonce);
      }
      if !ValidToken(token) {
        return Err(InvalidTokenID);
      }
      var k, metadata := KeyOf(token, nonce), read(data);
      if metadata.None? {
        return Err(UnmarshalFailed);
      }
      if metadata.value.nonce != nonce {
        return Err(InvalidMetadata);
      }
      if k in records && records[k].metadata.Some? {
        return Err(TokenHasValidMetadata);
      }
      var record := if k in records then records[k] else DCToken(NON_FUNGIBLE, 0, [], None, []);
      records := records[k := record.(metadata := metadata)];
      r := Ok(());
    }

    /** addMetadata; read unmarshals metadata. */
    method AddMetadata(read: bytes -> Option<MetaData>, args: seq<bytes>) returns (r: Result<()>)
      modifies this
      ensures if |args| % ARGS_PER_ADD != 0 || |args| < ARGS_PER_ADD then r == Err(InvalidNumOfArgs)
              else Ends(AddUpTo(read, old(records), args, |args| / 3), r, records)
    {
      hide AddUpTo, AddEntry, ReadUint64;
      if |args| % ARGS_PER_ADD != 0 || |args| < ARGS_PER_ADD {
        return Err(InvalidNumOfArgs);
      }
      NothingAdded(read, records, args);
      ghost var total: nat := |args| / 3;
      assert |args| == 3 * total;
      ghost var n: nat := 0;
      var i := 0;
      while i < |args|
        invariant i == 3 * n && n <= total && AddUpTo(read, old(records), args, n) == Ok(records)
      {
        AddStep(read, old(records), records, args, n, total);
        var added := AddRecord(read, args[i], ReadUint64(args[i + 1]), args[i + 2]);
        if added.Err? {
          return added;
        }
        n := n + 1;
        i := i + 3;
      }
      r := Ok(());
    }
  }

  /** A method ends as its specification says: with the records, or with the error. */
  predicate Ends(spec: Result<Store>, r: Result<()>, after: Store) {
    match spec
    case Ok(records) => r == Ok(()) && after == records
    case Err(error) => r == Err(error)
  }

  lemma NoRounds(args: seq<bytes>)
    ensures Rounds(args, 0) == Through(([], 0)) && AllDenoted([]) == {}
  {
  }

  /** One round of a call that ends; an error is the error of the whole call. */
  lemma RoundStep(args: seq<bytes>, k: nat, done: seq<Interval>, i: nat)
    requires IsOver(args, |args|) && k <= |args| && Rounds(args, k) == Through((done, i)) && i + 1 < |args|
    ensures k < |args|
    ensures var token, n := args[i], ReadUint64(args[i + 1]);
            if !ValidToken(token) then Rounds(args, |args|) == Failed(InvalidTokenID)
            else if i + 2 >= |args| then Rounds(args, |args|) == Failed(InvalidNumOfArgs)
            else match ListIntervals(args, token, i + 2, PairsFor(i + 2, n))
              case Through(xs) => Rounds(args, k + 1) == Through((done + xs, (i + 2 + 2 * n) % U64))
              case Failed(error) => Rounds(args, |args|) == Failed(error)
              case Stuck => false
  {
    hide ListIntervals, ValidToken, ReadUint64, PairsFor;
    assert !IsOver(args, k);
    if !Rounds(args, k + 1).Through? {
      NotRunningStays(args, k + 1, |args|);
    }
  }

  lemma RoundsOver(args: seq<bytes>, k: nat, done: seq<Interval>, i: nat)
    requires k <= |args| && Rounds(args, k) == Through((done, i)) && i + 1 >= |args|
    ensures Rounds(args, |args|) == Through((done, i))
  {
    NotRunningStays(args, k, |args|);
  }

  lemma ListNone(args: seq<bytes>, token: bytes, index: nat)
    ensures ListIntervals(args, token, index, 0) == Through([]) && AllDenoted([]) == {}
  {
  }

  /** One interval of a list in which the reading does not get stuck; an error is the error of the whole list. */
  lemma ListStep(args: seq<bytes>, token: bytes, index: nat, m: nat, n: nat)
    requires m < n && ListIntervals(args, token, index, m).Through? && !ListIntervals(args, token, index, n).Stuck?
    ensures var j, done := index + 2 * m, ListIntervals(args, token, index, m).value;
            if j + 2 > |args| then ListIntervals(args, token, index, n) == Failed(InvalidNumOfArgs)
            else
              var first, last := ReadUint64(args[j]), ReadUint64(args[j + 1]);
              match CheckInterval(first, last)
              case Err(error) => ListIntervals(args, token, index, n) == Failed(error)
              case Ok(_) =>
                last < U64 - 1 &&
                ListIntervals(args, token, index, m + 1) == Through(done + [Interval(token, first, last)])
  {
    hide ReadUint64, CheckInterval;
    StuckStays(args, token, index, m + 1, n);
    if index + 2 * m + 2 <= |args| {
      ReadIsBounded(args[index + 2 * m + 1]);
    }
  }

  lemma {:induction false} AddErrorsStay(read: bytes -> Option<MetaData>, records: Store, args: seq<bytes>, m: nat,
      n: nat)
    requires m <= n && 3 * n <= |args|
    ensures AddUpTo(read, records, args, m).Err? ==> AddUpTo(read, records, args, n) == AddUpTo(read, records, args, m)
  {
    hide AddEntry;
    if m < n {
      AddErrorsStay(read, records, args, m, n - 1);
    }
  }

  lemma NothingAdded(read: bytes -> Option<MetaData>, records: Store, args: seq<bytes>)
    ensures AddUpTo(read, records, args, 0) == Ok(records) && Added(read, records, records, args, 0)
  {
  }

  /** One addition; an error is the error of the whole list. */
  lemma AddStep(read: bytes -> Option<MetaData>, records: Store, before: Store, args: seq<bytes>, n: nat, total: nat)
    requires n < total && 3 * total <= |args| && AddUpTo(read, records, args, n) == Ok(before)
    ensures var r := AddEntry(read, before, args[3 * n], ReadUint64(args[3 * n + 1]), args[3 * n + 2]);
            if r.Ok? then AddUpTo(read, records, args, n + 1) == r else AddUpTo(read, records, args, total) == r
  {
    hide AddEntry;
    AddErrorsStay(read, records, args, n + 1, total);
  }
}
