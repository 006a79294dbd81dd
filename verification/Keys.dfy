/** Token identifiers and the storage keys made from them. */
module Keys {
  import opened Bytes
  import opened Wire

  const DASH: byte := 45
  const TICKER_MIN := 3
  const TICKER_MAX := 10
  const RANDOM_LENGTH := 6

  predicate IsUpperAlphanumeric(c: byte) {
    65 <= c <= 90 || 48 <= c <= 57
  }

  predicate IsLowerHex(c: byte) {
    97 <= c <= 102 || 48 <= c <= 57
  }

  /** ValidateToken: TICKER-abc123 */
  predicate ValidToken(t: bytes) {
    TICKER_MIN + RANDOM_LENGTH + 1 <= |t| <= TICKER_MAX + RANDOM_LENGTH + 1 &&
    (forall i :: 0 <= i < |t| - RANDOM_LENGTH - 1 ==> IsUpperAlphanumeric(t[i])) &&
    t[|t| - RANDOM_LENGTH - 1] == DASH &&
    (forall i :: |t| - RANDOM_LENGTH <= i < |t| ==> IsLowerHex(t[i]))
  }

  /** Text of digits and of letters of a range. */
  predicate Spells(b: bytes, first: char, last: char) {
    forall i :: 0 <= i < |b| ==> '0' <= b[i] as char <= '9' || first <= b[i] as char <= last
  }

  /** A ticker of three to ten upper-case letters and digits, a dash, and six hexadecimal digits. */
  predicate Composed(t: bytes, ticker: bytes, random: bytes) {
    t == ticker + ['-' as byte] + random && 3 <= |ticker| <= 10 && |random| == 6 &&
    Spells(ticker, 'A', 'Z') && Spells(random, 'a', 'f')
  }

  lemma TokenForm(t: bytes)
    ensures ValidToken(t) <==> exists ticker, random :: Composed(t, ticker, random)
  {
    if ValidToken(t) {
      var n := |t| - RANDOM_LENGTH - 1;
      assert Composed(t, t[..n], t[n + 1..]);
    }
    if ticker, random :| Composed(t, ticker, random) {
      assert forall i :: 0 <= i < |ticker| ==> t[i] == ticker[i];
      assert forall i :: 0 <= i < 6 ==> t[|ticker| + 1 + i] == random[i];
    }
  }

  /** computeDCTNFTTokenKey, without the prefix that all token keys share. */
  function KeyOf(token: bytes, nonce: nat): bytes {
    token + ToBytes(nonce)
  }

  /** A key is the token with the nonce behind it, most significant byte first and without leading zeros. */
  lemma KeyReads(token: bytes, nonce: nat)
    ensures var k := KeyOf(token, nonce);
            |k| >= |token| && k[..|token|] == token && FromBytes(k[|token|..]) == nonce &&
              (|k| > |token| ==> k[|token|] != 0)
  {
    FromToBytes(nonce);
    assert KeyOf(token, nonce)[|token|..] == ToBytes(nonce);
    ToFromBytes(ToBytes(nonce));
  }

  /** The ticker is what stands before the first dash. */
  lemma TickerOf(t: bytes, rest: bytes)
    requires ValidToken(t)
    ensures Split(t + rest, DASH)[0] == t[..|t| - RANDOM_LENGTH - 1]
  {
    var i := |t| - RANDOM_LENGTH - 1;
    var tail := t[i..] + rest;
    assert t + rest == t[..i] + tail && tail[0] == DASH;
    SplitPrefix(t[..i], tail, DASH);
  }

  /** Valid tokens are uniquely decodable from a storage key. */
  lemma KeyOfInjective(t: bytes, m: nat, u: bytes, n: nat)
    requires ValidToken(t) && ValidToken(u) && KeyOf(t, m) == KeyOf(u, n)
    ensures t == u && m == n
  {
    var k := KeyOf(t, m);
    TickerOf(t, ToBytes(m));
    TickerOf(u, ToBytes(n));
    assert t == k[..|t|] && u == k[..|u|];
    assert ToBytes(m) == k[|t|..] && ToBytes(n) == k[|u|..];
    ToBytesInjective(m, n);
  }

  /** extractTokenIdentifierAndNonceDCTWipe */
  function ExtractTokenAndNonce(arg: bytes): (bytes, nat) {
    var parts := Split(arg, DASH);
    if |parts| < 2 || |parts[1]| <= RANDOM_LENGTH then (arg, 0)
    else (parts[0] + [DASH] + parts[1][..RANDOM_LENGTH], ReadUint64(parts[1][RANDOM_LENGTH..]))
  }

  lemma {:induction false} ProperPrefixIsSmaller(n: nat, i: nat)
    requires i < |ToBytes(n)|
    ensures FromBytes(ToBytes(n)[..i]) < n
  {
    var b := ToBytes(n);
    assert b[..|b| - 1] == ToBytes(n / 256);
    if i == |b| - 1 {
      FromToBytes(n / 256);
    } else {
      assert b[..i] == ToBytes(n / 256)[..i];
      ProperPrefixIsSmaller(n / 256, i);
    }
  }

  lemma {:induction false} FirstPart(s: bytes, sep: byte)
    ensures var p := Split(s, sep)[0]; |p| <= |s| && p == s[..|p|] && (|p| == |s| <==> sep !in s)
  {
    if s != [] && s[0] != sep {
      FirstPart(s[1..], sep);
      assert s == [s[0]] + s[1..];
      assert sep in s <==> sep in s[1..];
    }
  }

  /** What the extractor sees in a storage key. */
  lemma PartsOfKey(t: bytes, n: nat)
    requires ValidToken(t)
    ensures var p := Split(ToBytes(n), DASH)[0];
            ExtractTokenAndNonce(KeyOf(t, n)) == if p == [] then (KeyOf(t, n), 0) else (t, ReadUint64(p))
  {
    var i := |t| - RANDOM_LENGTH - 1;
    var ticker, random, b := t[..i], t[i + 1..], ToBytes(n);
    var parts := Split(KeyOf(t, n), DASH);
    assert KeyOf(t, n) == ticker + ([DASH] + (random + b));
    SplitPrefix(ticker, [DASH] + (random + b), DASH);
    assert ([DASH] + (random + b))[1..] == random + b;
    SplitPrefix(random, b, DASH);
    var p := Split(b, DASH)[0];
    assert ticker + [] == ticker;
    assert parts[0] == ticker && parts[1] == random + p;
    if p != [] {
      assert parts[1][..RANDOM_LENGTH] == random && parts[1][RANDOM_LENGTH..] == p;
      assert ticker + [DASH] + random == t;
    }
  }

  /** Any argument: the extractor reads the part behind its first dash, up to a second one if there is one. */
  lemma ExtractAnywhere(head: bytes, part: bytes, rest: bytes)
    requires DASH !in head && DASH !in part && (rest == [] || rest[0] == DASH)
    ensures ExtractTokenAndNonce(head) == (head, 0)
    ensures var arg := head + [DASH] + part + rest;
            ExtractTokenAndNonce(arg) ==
              if |part| > RANDOM_LENGTH then
                (head + [DASH] + part[..RANDOM_LENGTH], FromBytes(part[RANDOM_LENGTH..]) % U64)
              else (arg, 0)
  {
    SplitPrefix(head, [], DASH);
    assert head + [] == head;
    var tail := [DASH] + (part + rest);
    assert head + [DASH] + part + rest == head + tail && tail[1..] == part + rest;
    SplitPrefix(head, tail, DASH);
    SplitPrefix(part, rest, DASH);
    assert part + [] == part;
  }

  /** The wipe extractor inverts the key exactly for the nonces without a dash byte. */
  lemma ExtractInvertsKey(t: bytes, n: nat)
    requires ValidToken(t) && n < U64
    ensures ExtractTokenAndNonce(KeyOf(t, n)) == (t, n) <==> DASH !in ToBytes(n)
  {
    PartsOfKey(t, n);
    FirstPart(ToBytes(n), DASH);
    var p := Split(ToBytes(n), DASH)[0];
    FromToBytes(n);
    assert ToBytes(n)[..|ToBytes(n)|] == ToBytes(n);
    if DASH in ToBytes(n) {
      ProperPrefixIsSmaller(n, |p|);
    } else {
      assert p == ToBytes(n);
      assert n == 0 ==> KeyOf(t, n) == t;
    }
  }
}
