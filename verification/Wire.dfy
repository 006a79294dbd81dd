/** Call data on the wire: function@hex(arg)@hex(arg)..., its printers and its parsers. */
module Wire {
  import opened Bytes
  import opened Results

  const AT: byte := 64

  // ---- hexadecimal digits ----

  function Digit(n: nat): byte
    requires n < 16
  {
    if n < 10 then 48 + n else 87 + n
  }

  predicate IsDigit(c: byte) {
    48 <= c <= 57 || 97 <= c <= 102 || 65 <= c <= 70
  }

  function DigitValue(c: byte): (n: nat)
    requires IsDigit(c)
    ensures n < 16
  {
    if c <= 57 then c - 48 else if c <= 70 then c - 55 else c - 87
  }

  /** hex.EncodeToString: two lower-case digits for each byte. */
  function Hex(b: bytes): bytes {
    seq(2 * |b|, i requires 0 <= i < 2 * |b| => if i % 2 == 0 then Digit(b[i / 2] / 16) else Digit(b[i / 2] % 16))
  }

  /** The texts that hex.DecodeString accepts. */
  predicate IsHex(t: bytes) {
    |t| % 2 == 0 && forall i :: 0 <= i < |t| ==> IsDigit(t[i])
  }

  function Unhex(t: bytes): bytes
    requires IsHex(t)
  {
    seq(|t| / 2, i requires 0 <= i < |t| / 2 => 16 * DigitValue(t[2 * i]) + DigitValue(t[2 * i + 1]))
  }

  function LowerByte(c: byte): byte {
    if 65 <= c <= 90 then c + 32 else c
  }

  function Lower(t: bytes): bytes {
    seq(|t|, i requires 0 <= i < |t| => LowerByte(t[i]))
  }

  lemma UnhexHex(b: bytes)
    ensures IsHex(Hex(b)) && Unhex(Hex(b)) == b && AT !in Hex(b)
  {
    var t := Hex(b);
    assert forall i :: 0 <= i < |t| ==> IsDigit(t[i]);
    forall i | 0 <= i < |b|
      ensures Unhex(t)[i] == b[i]
    {
      assert t[2 * i] == Digit(b[i] / 16) && t[2 * i + 1] == Digit(b[i] % 16);
    }
  }

  /** The first digit of a byte is the high one, and the digits are written as usual. */
  lemma HexDigits(b: bytes, i: nat)
    requires i < |b|
    ensures |Hex(b)| == 2 * |b|
    ensures Hex(b)[2 * i] as char == "0123456789abcdef"[b[i] / 16]
    ensures Hex(b)[2 * i + 1] as char == "0123456789abcdef"[b[i] % 16]
  {
    assert 2 * i / 2 == i && (2 * i + 1) / 2 == i;
    DigitIsWritten(b[i] / 16);
    DigitIsWritten(b[i] % 16);
  }

  lemma DigitIsWritten(n: nat)
    requires n < 16
    ensures Digit(n) as char == "0123456789abcdef"[n]
  {
  }

  lemma HexUnhex(t: bytes)
    requires IsHex(t)
    ensures Hex(Unhex(t)) == Lower(t)
  {
    var h := Hex(Unhex(t));
    forall i | 0 <= i < |t|
      ensures h[i] == LowerByte(t[i])
    {
      var j := i / 2;
      assert Unhex(t)[j] == 16 * DigitValue(t[2 * j]) + DigitValue(t[2 * j + 1]);
      assert Unhex(t)[j] / 16 == DigitValue(t[2 * j]) && Unhex(t)[j] % 16 == DigitValue(t[2 * j + 1]);
    }
  }

  // ---- separators ----

  /** strings.Split and bytes.Split with a one-byte separator. */
  function Split(s: bytes, sep: byte): (ts: seq<bytes>)
    ensures |ts| > 0
  {
    if s == [] then [[]]
    else
      var rest := Split(s[1..], sep);
      if s[0] == sep then [[]] + rest else [[s[0]] + rest[0]] + rest[1..]
  }

  function Join(ts: seq<bytes>, sep: byte): bytes
    requires |ts| > 0
  {
    if |ts| == 1 then ts[0] else ts[0] + [sep] + Join(ts[1..], sep)
  }

  ghost predicate Unseparated(ts: seq<bytes>, sep: byte) {
    forall i :: 0 <= i < |ts| ==> sep !in ts[i]
  }

  lemma {:induction false} SplitPrefix(t: bytes, s: bytes, sep: byte)
    requires sep !in t
    ensures Split(t + s, sep) == [t + Split(s, sep)[0]] + Split(s, sep)[1..]
  {
    if t == [] {
      assert t + s == s && t + Split(s, sep)[0] == Split(s, sep)[0];
    } else {
      SplitPrefix(t[1..], s, sep);
      assert (t + s)[1..] == t[1..] + s;
      var rest := Split(t[1..] + s, sep);
      assert rest[1..] == Split(s, sep)[1..];
      assert [t[0]] + rest[0] == t + Split(s, sep)[0];
    }
  }

  lemma {:induction false} SplitJoin(ts: seq<bytes>, sep: byte)
    requires |ts| > 0 && Unseparated(ts, sep)
    ensures Split(Join(ts, sep), sep) == ts
  {
    if |ts| == 1 {
      SplitPrefix(ts[0], [], sep);
      assert ts[0] + [] == ts[0];
    } else {
      var tail := [sep] + Join(ts[1..], sep);
      SplitJoin(ts[1..], sep);
      assert tail[1..] == Join(ts[1..], sep);
      SplitPrefix(ts[0], tail, sep);
      assert ts[0] + tail == Join(ts, sep);
      assert Split(tail, sep) == [[]] + ts[1..];
      assert ts[0] + [] == ts[0];
      assert ts == [ts[0]] + ts[1..];
    }
  }

  lemma {:induction false} JoinSplit(s: bytes, sep: byte)
    ensures Join(Split(s, sep), sep) == s && Unseparated(Split(s, sep), sep)
  {
    if s != [] {
      JoinSplit(s[1..], sep);
      var rest := Split(s[1..], sep);
      if s[0] == sep {
        assert Split(s, sep)[1..] == rest;
      } else if |rest| > 1 {
        assert Split(s, sep)[1..] == rest[1..];
      }
    }
  }

  lemma {:induction false} JoinSnoc(ts: seq<bytes>, t: bytes, sep: byte)
    requires |ts| > 0
    ensures Join(ts + [t], sep) == Join(ts, sep) + [sep] + t
  {
    if |ts| == 1 {
      assert (ts + [t])[1..] == [t];
    } else {
      JoinSnoc(ts[1..], t, sep);
      assert (ts + [t])[1..] == ts[1..] + [t];
    }
  }

  // ---- call data ----

  function HexAll(args: seq<bytes>): seq<bytes> {
    seq(|args|, i requires 0 <= i < |args| => Hex(args[i]))
  }

  /** What every printer of call data produces. */
  function Print(function_: bytes, args: seq<bytes>): bytes {
    Join([function_] + HexAll(args), AT)
  }

  function UnhexAll(ts: seq<bytes>): Result<seq<bytes>> {
    if forall i :: 0 <= i < |ts| ==> IsHex(ts[i])
    then Ok(seq(|ts|, i requires 0 <= i < |ts| && IsHex(ts[i]) => Unhex(ts[i])))
    else Err(TokenizeFailed)
  }

  /** callArgsParser.ParseData: the function and its arguments. */
  function ParseData(data: bytes): Result<(bytes, seq<bytes>)> {
    var tokens := Split(data, AT);
    if tokens[0] == [] then Err(TokenizeFailed)
    else
      var args :- UnhexAll(tokens[1..]);
      Ok((tokens[0], args))
  }

  lemma UnhexHexAll(args: seq<bytes>)
    ensures UnhexAll(HexAll(args)) == Ok(args) && Unseparated(HexAll(args), AT)
  {
    forall i | 0 <= i < |args|
      ensures IsHex(HexAll(args)[i]) && Unhex(HexAll(args)[i]) == args[i] && AT !in HexAll(args)[i]
    {
      UnhexHex(args[i]);
    }
    assert UnhexAll(HexAll(args)).Ok?;
    assert UnhexAll(HexAll(args)).value == args;
  }

  /** Parsing undoes printing exactly for the function names a printer may be given. */
  lemma ParsePrint(function_: bytes, args: seq<bytes>)
    ensures ParseData(Print(function_, args)) == Ok((function_, args)) <==> function_ != [] && AT !in function_
  {
    if AT !in function_ {
      UnhexHexAll(args);
      var ts := [function_] + HexAll(args);
      SplitJoin(ts, AT);
      assert ts[1..] == HexAll(args);
    } else {
      JoinSplit(Print(function_, args), AT);
      assert AT !in Split(Print(function_, args), AT)[0];
    }
  }

  /** Each argument stands in hexadecimal digits behind what was printed before it. */
  lemma PrintSnoc(function_: bytes, args: seq<bytes>, last: bytes)
    ensures Print(function_, []) == function_
    ensures Print(function_, args + [last]) == Print(function_, args) + [AT] + Hex(last)
  {
    JoinSnoc([function_] + HexAll(args), Hex(last), AT);
    assert [function_] + HexAll(args + [last]) == [function_] + HexAll(args) + [Hex(last)];
  }

  ghost predicate AllHex(ts: seq<bytes>) {
    forall i :: 0 <= i < |ts| ==> IsHex(ts[i])
  }

  /** A function, and texts of hexadecimal digits behind separators. */
  ghost predicate IsCallData(data: bytes, function_: bytes, ts: seq<bytes>) {
    function_ != [] && AT !in function_ && AllHex(ts) && data == Join([function_] + ts, AT)
  }

  lemma HexIsUnseparated(ts: seq<bytes>)
    requires AllHex(ts)
    ensures Unseparated(ts, AT)
  {
    forall i | 0 <= i < |ts|
      ensures AT !in ts[i]
    {
      assert IsHex(ts[i]);
    }
  }

  /** Such data is parsed as its function and as what the digits stand for, in either case of letters. */
  lemma ParsedAs(data: bytes, function_: bytes, ts: seq<bytes>)
    requires IsCallData(data, function_, ts)
    ensures ParseData(data).Ok? && ParseData(data).value.0 == function_ && |ParseData(data).value.1| == |ts|
    ensures forall i :: 0 <= i < |ts| ==> Hex(ParseData(data).value.1[i]) == Lower(ts[i])
  {
    hide Hex, Unhex, IsHex, Lower, Join;
    HexIsUnseparated(ts);
    var tokens := [function_] + ts;
    SplitJoin(tokens, AT);
    assert tokens[1..] == ts;
    forall i | 0 <= i < |ts|
      ensures Hex(ParseData(data).value.1[i]) == Lower(ts[i])
    {
      HexUnhex(ts[i]);
    }
  }

  /** The parser accepts exactly such data. */
  lemma ParsedExactly(data: bytes)
    ensures ParseData(data).Ok? <==> exists function_, ts :: IsCallData(data, function_, ts)
  {
    hide Join, IsHex;
    if ParseData(data).Ok? {
      var tokens := Split(data, AT);
      JoinSplit(data, AT);
      assert [tokens[0]] + tokens[1..] == tokens;
      assert IsCallData(data, tokens[0], tokens[1..]);
    }
    if function_, ts :| IsCallData(data, function_, ts) {
      ParsedAs(data, function_, ts);
    }
  }

  /** addNFTTransferToVMOutput and addOutputTransferToVMOutput: the data of an output transfer. */
  method EncodeCall(function_: bytes, args: seq<bytes>) returns (data: bytes)
    ensures data == Print(function_, args)
  {
    data := function_;
    for i := 0 to |args|
      invariant data == Join([function_] + HexAll(args[..i]), AT)
    {
      JoinSnoc([function_] + HexAll(args[..i]), Hex(args[i]), AT);
      assert HexAll(args[..i + 1]) == HexAll(args[..i]) + [Hex(args[i])];
      assert [function_] + HexAll(args[..i + 1]) == [function_] + HexAll(args[..i]) + [Hex(args[i])];
      data := data + ([AT] + Hex(args[i]));
    }
    assert args[..|args|] == args;
  }

  method ParseArguments(tokens: seq<bytes>) returns (r: Result<seq<bytes>>)
    requires |tokens| > 0
    ensures r == UnhexAll(tokens[1..])
  {
    var arguments := [];
    for i := 1 to |tokens|
      invariant |arguments| == i - 1
      invariant forall j :: 1 <= j < i ==> IsHex(tokens[j]) && arguments[j - 1] == Unhex(tokens[j])
    {
      if !IsHex(tokens[i]) {
        assert !IsHex(tokens[1..][i - 1]);
        return Err(TokenizeFailed);
      }
      arguments := arguments + [Unhex(tokens[i])];
    }
    assert forall j :: 0 <= j < |tokens[1..]| ==> tokens[1..][j] == tokens[j + 1];
    assert UnhexAll(tokens[1..]).Ok? && UnhexAll(tokens[1..]).value == arguments;
    r := Ok(arguments);
  }

  method ParseCallData(data: bytes) returns (r: Result<(bytes, seq<bytes>)>)
    ensures r == ParseData(data)
  {
    var tokens := Split(data, AT);
    if tokens[0] == [] {
      return Err(TokenizeFailed);
    }
    var args := ParseArguments(tokens);
    r := match args
      case Ok(value) => Ok((tokens[0], value))
      case Err(error) => Err(error);
  }

  /** txDataBuilder: the function and the elements already printed. */
  class TxDataBuilder {
    var function_: bytes
    var elements: seq<bytes>
    ghost var args: seq<bytes>

    ghost predicate Valid()
      reads this
    {
      elements == HexAll(args)
    }

    constructor ()
      ensures Valid() && function_ == [] && args == []
    {
      function_, elements, args := [], [], [];
    }

    method Clear()
      modifies this
      ensures Valid() && function_ == [] && args == []
    {
      function_, elements, args := [], [], [];
    }

    method Func(name: bytes)
      requires Valid()
      modifies this
      ensures Valid() && function_ == name && args == old(args)
    {
      function_ := name;
    }

    method AddBytes(b: bytes)
      requires Valid()
      modifies this
      ensures Valid() && function_ == old(function_) && args == old(args) + [b]
    {
      elements := elements + [Hex(b)];
      args := args + [b];
    }

    method AddBigInt(n: nat)
      requires Valid()
      modifies this
      ensures Valid() && function_ == old(function_) && args == old(args) + [ToBytes(n)]
    {
      AddBytes(ToBytes(n));
    }

    /** What ToString prints, ParseData reads back. */
    method ToString() returns (data: bytes)
      requires Valid()
      ensures data == Print(function_, args)
      ensures function_ != [] && AT !in function_ ==> ParseData(data) == Ok((function_, args))
    {
      data := function_;
      for i := 0 to |elements|
        invariant data == Join([function_] + elements[..i], AT)
      {
        JoinSnoc([function_] + elements[..i], elements[i], AT);
        assert [function_] + elements[..i + 1] == [function_] + elements[..i] + [elements[i]];
        data := data + [AT] + elements[i];
      }
      assert elements[..|elements|] == elements;
      ParsePrint(function_, args);
    }
  }
}
