/** Storage updates on the wire: hex(offset)@hex(data)@hex(offset)@hex(data)... */
module StorageUpdates {
  import opened Bytes
  import opened Results
  import opened Wire

  datatype StorageUpdate = StorageUpdate(offset: bytes, data: bytes)

  /** trimLeadingSeparatorChar */
  function Trim(data: bytes): bytes {
    if |data| > 0 && data[0] == AT then data[1..] else data
  }

  function Flatten(us: seq<StorageUpdate>): (bs: seq<bytes>)
    ensures |bs| == 2 * |us|
  {
    seq(2 * |us|, i requires 0 <= i < 2 * |us| => if i % 2 == 0 then us[i / 2].offset else us[i / 2].data)
  }

  function Pair(bs: seq<bytes>): (us: seq<StorageUpdate>)
    requires |bs| % 2 == 0
    ensures 2 * |us| == |bs|
  {
    seq(|bs| / 2, i requires 0 <= i < |bs| / 2 => StorageUpdate(bs[2 * i], bs[2 * i + 1]))
  }

  function Parse(data: bytes): Result<seq<StorageUpdate>> {
    var tokens := Split(Trim(data), AT);
    var _ :- Need(tokens[0] != [], TokenizeFailed);
    var _ :- Need(|tokens| % 2 == 0, InvalidDataString);
    var bs :- UnhexAll(tokens);
    Ok(Pair(bs))
  }

  function Format(us: seq<StorageUpdate>): bytes {
    if us == [] then [] else Join(HexAll(Flatten(us)), AT)
  }

  lemma FlattenAt(us: seq<StorageUpdate>, i: nat)
    requires i < |us|
    ensures Flatten(us)[2 * i] == us[i].offset && Flatten(us)[2 * i + 1] == us[i].data
  {
    assert 2 * i % 2 == 0 && 2 * i / 2 == i && (2 * i + 1) % 2 == 1 && (2 * i + 1) / 2 == i;
  }

  lemma PairAt(bs: seq<bytes>, i: nat)
    requires |bs| % 2 == 0 && 2 * i + 1 < |bs|
    ensures Pair(bs)[i] == StorageUpdate(bs[2 * i], bs[2 * i + 1])
  {
  }

  lemma PairFlatten(us: seq<StorageUpdate>)
    ensures Pair(Flatten(us)) == us
  {
    hide Flatten, Pair;
    var bs := Flatten(us);
    forall i | 0 <= i < |us|
      ensures Pair(bs)[i] == us[i]
    {
      FlattenAt(us, i);
      PairAt(bs, i);
    }
  }

  lemma FlattenPair(bs: seq<bytes>)
    requires |bs| % 2 == 0
    ensures Flatten(Pair(bs)) == bs
  {
    forall i | 0 <= i < |bs|
      ensures Flatten(Pair(bs))[i] == bs[i]
    {
      assert Pair(bs)[i / 2] == StorageUpdate(bs[2 * (i / 2)], bs[2 * (i / 2) + 1]);
    }
  }

  lemma FormatTokens(us: seq<StorageUpdate>)
    requires us != []
    ensures var ts := HexAll(Flatten(us));
            && |ts| == 2 * |us| && ts[0] == Hex(us[0].offset) && UnhexAll(ts) == Ok(Flatten(us)) && Unseparated(ts, AT)
            && Format(us) == ts[0] + [AT] + Join(ts[1..], AT)
  {
    UnhexHexAll(Flatten(us));
  }

  lemma ParseIs(data: bytes, tokens: seq<bytes>)
    requires tokens == Split(Trim(data), AT) && tokens[0] != [] && |tokens| % 2 == 0 && UnhexAll(tokens).Ok?
    ensures Parse(data) == Ok(Pair(UnhexAll(tokens).value))
  {
    hide Split, UnhexAll, Pair, Trim;
  }

  lemma NothingToTrim(us: seq<StorageUpdate>)
    requires us != [] && us[0].offset != []
    ensures Trim(Format(us)) == Format(us) && Hex(us[0].offset) != []
  {
    hide Flatten, HexAll, UnhexAll, Pair, Split, Format;
    FormatTokens(us);
    UnhexHex(us[0].offset);
    assert Format(us)[0] == Hex(us[0].offset)[0];
  }

  lemma ParseFormatGood(us: seq<StorageUpdate>)
    requires us != [] && us[0].offset != []
    ensures Parse(Format(us)) == Ok(us)
  {
    hide *;
    var ts := HexAll(Flatten(us));
    FormatTokens(us);
    FormatIsJoin(us);
    NothingToTrim(us);
    SplitJoin(ts, AT);
    ParseIs(Format(us), ts);
    PairFlatten(us);
  }

  lemma FormatIsJoin(us: seq<StorageUpdate>)
    requires us != []
    ensures |HexAll(Flatten(us))| > 0 && Format(us) == Join(HexAll(Flatten(us)), AT)
  {
  }

  lemma ParseFormatBad(us: seq<StorageUpdate>)
    requires us != [] && us[0].offset == []
    ensures Parse(Format(us)).Err?
  {
    hide Flatten, HexAll, UnhexAll, Pair, Split, Parse;
    FormatTokens(us);
    assert Hex([]) == [];
    OddTokensFail(HexAll(Flatten(us))[1..], Format(us));
  }

  /** A leading separator is trimmed away, and the tokens that remain are odd in number. */
  lemma OddTokensFail(ts: seq<bytes>, data: bytes)
    requires |ts| % 2 == 1 && Unseparated(ts, AT) && data == [AT] + Join(ts, AT)
    ensures Parse(data).Err?
  {
    assert Trim(data) == Join(ts, AT);
    SplitJoin(ts, AT);
  }

  /** The parser undoes the printer exactly for the lists whose first offset is not empty. */
  lemma ParseFormat(us: seq<StorageUpdate>)
    ensures Parse(Format(us)) == Ok(us) <==> us != [] && us[0].offset != []
  {
    if us != [] {
      if us[0].offset != [] {
        ParseFormatGood(us);
      } else {
        ParseFormatBad(us);
      }
    }
  }

  lemma {:induction false} LowerJoin(ts: seq<bytes>)
    requires |ts| > 0
    ensures Join(seq(|ts|, i requires 0 <= i < |ts| => Lower(ts[i])), AT) == Lower(Join(ts, AT))
  {
    var ls := seq(|ts|, i requires 0 <= i < |ts| => Lower(ts[i]));
    if |ts| > 1 {
      LowerJoin(ts[1..]);
      assert ls[1..] == seq(|ts[1..]|, i requires 0 <= i < |ts[1..]| => Lower(ts[1..][i]));
      assert Lower(Join(ts, AT)) == Lower(ts[0]) + [AT] + Lower(Join(ts[1..], AT));
    }
  }

  /** Printing a successful parse gives back the trimmed input in lower case. */
  lemma FormatParse(data: bytes)
    requires Parse(data).Ok?
    ensures Format(Parse(data).value) == Lower(Trim(data))
  {
    var tokens := Split(Trim(data), AT);
    var bs := UnhexAll(tokens).value;
    FlattenPair(bs);
    forall i | 0 <= i < |tokens|
      ensures HexAll(bs)[i] == Lower(tokens[i])
    {
      HexUnhex(tokens[i]);
    }
    assert HexAll(bs) == seq(|tokens|, i requires 0 <= i < |tokens| => Lower(tokens[i]));
    LowerJoin(tokens);
    JoinSplit(Trim(data), AT);
  }

  /** What the parser accepts: an even number of hexadecimal texts, the first of them not empty, between separators. */
  lemma ParsedExactly(data: bytes)
    ensures Parse(data).Ok? <==>
              exists ts :: |ts| > 0 && |ts| % 2 == 0 && ts[0] != [] && AllHex(ts) && Trim(data) == Join(ts, AT)
  {
    hide Join, IsHex, Trim;
    if Parse(data).Ok? {
      JoinSplit(Trim(data), AT);
      assert AllHex(Split(Trim(data), AT));
    }
    if ts :| |ts| > 0 && |ts| % 2 == 0 && ts[0] != [] && AllHex(ts) && Trim(data) == Join(ts, AT) {
      HexIsUnseparated(ts);
      SplitJoin(ts, AT);
    }
  }

  method GetStorageUpdates(data: bytes) returns (r: Result<seq<StorageUpdate>>)
    ensures r == Parse(data)
  {
    hide Split, Trim, IsHex, Unhex;
    var tokens := Split(Trim(data), AT);
    if tokens[0] == [] {
      return Err(TokenizeFailed);
    }
    if |tokens| % 2 != 0 {
      return Err(InvalidDataString);
    }
    var updates := [];
    var i := 0;
    while i < |tokens|
      invariant i % 2 == 0 && i <= |tokens| && |updates| == i / 2
      invariant forall j :: 0 <= j < i ==> IsHex(tokens[j])
      invariant forall j :: 0 <= j < i / 2 ==>
        updates[j] == StorageUpdate(Unhex(tokens[2 * j]), Unhex(tokens[2 * j + 1]))
    {
      if !IsHex(tokens[i]) || !IsHex(tokens[i + 1]) {
        return Err(TokenizeFailed);
      }
      updates := updates + [StorageUpdate(Unhex(tokens[i]), Unhex(tokens[i + 1]))];
      i := i + 2;
    }
    assert Parse(data).Ok? && Parse(data).value == updates;
    r := Ok(updates);
  }

  /** One more update on the end of a printed list. */
  lemma JoinTwoMore(ts: seq<bytes>, i: nat)
    requires 2 * i + 2 <= |ts|
    ensures Join(ts[..2 * i + 2], AT) == (if i == 0 then []
      else Join(ts[..2 * i], AT) + [AT]) + ts[2 * i] + [AT] + ts[2 * i + 1]
  {
    var left := ts[..2 * i + 1];
    assert left == ts[..2 * i] + [ts[2 * i]] && ts[..2 * i + 2] == left + [ts[2 * i + 1]];
    if i > 0 {
      JoinSnoc(ts[..2 * i], ts[2 * i], AT);
    }
    JoinSnoc(left, ts[2 * i + 1], AT);
  }

  method CreateDataFromStorageUpdate(us: seq<StorageUpdate>) returns (data: bytes)
    ensures data == Format(us)
  {
    hide Join, Hex;
    data := [];
    ghost var ts := HexAll(Flatten(us));
    for i := 0 to |us|
      invariant data == if i == 0 then [] else Join(ts[..2 * i], AT) + if i < |us| then [AT] else []
    {
      var update := us[i];
      JoinTwoMore(ts, i);
      assert ts[2 * i] == Hex(update.offset) && ts[2 * i + 1] == Hex(update.data);
      data := data + Hex(update.offset);
      data := data + [AT];
      data := data + Hex(update.data);
      if i < |us| - 1 {
        data := data + [AT];
      }
    }
    assert ts[..|ts|] == ts;
  }
}
