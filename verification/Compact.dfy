/** Which amounts travel bare: metadata is sent to a shard once, and from then on amounts are enough. */
module Compact {
  import opened Bytes
  import opened Results
  import opened Wire
  import opened Keys
  import opened Tokens
  import opened Storage
  import opened Transfers
  import opened Totals
  import opened Moves
  import opened Liquidity
  import opened Availability
  import opened Invariants
  import opened Messages
  import opened SentFlags
  import opened Sends
  import opened NetworkSafe

  /** The shard of an address is known to have the metadata of k; the metachain is taken to. */
  predicate Knows(cfg: Config, s: ShardState, dst: Address, k: bytes) {
    cfg.shardOf(dst) == METACHAIN || Flagged(s, k, cfg.shardOf(dst))
  }

  /** The transfer is of an NFT with this key. */
  predicate IsOf(t: Triple, k: bytes) {
    t.nonce > 0 && KeyOf(t.token, t.nonce) == k
  }

  /** The shard of the destination knows the metadata, or an earlier transfer of the list brings it there. */
  ghost predicate KnownBy(cfg: Config, s: ShardState, dst: Address, ts: seq<Triple>, i: nat)
    requires i < |ts|
  {
    Knows(cfg, s, dst, KeyOf(ts[i].token, ts[i].nonce)) ||
    exists j :: 0 <= j < i && IsOf(ts[j], KeyOf(ts[i].token, ts[i].nonce))
  }

  /** An amount that travels bare where it may: more than one, in at most 32 bytes. */
  predicate MayBeBare(v: nat) {
    v != 1 && |ToBytes(v)| <= MAX_LENGTH_FOR_VALUE
  }

  // ---- packing ----

  lemma PayloadExactly(cfg: Config, s: ShardState, dst: Address, t: Triple, sent: DCToken, gas: nat)
    requires EraB(cfg) && !cfg.Here(dst) && t.nonce > 0 && KeyOf(t.token, t.nonce) in s.system
    requires PayloadOf(cfg, s, dst, t, sent, gas).Ok?
    ensures var p, k, v := PayloadOf(cfg, s, dst, t, sent, gas).value, KeyOf(t.token, t.nonce), FromBytes(t.payload);
            && p.payload == (if Knows(cfg, s, dst, k) && MayBeBare(v) then ToBytes(v) else cfg.marshal(sent))
            && p.state.system.Keys == s.system.Keys
            && (forall q :: Knows(cfg, p.state, dst, q) <==> Knows(cfg, s, dst, q) || q == k)
  {
    hide FromBytes, ToBytes, KeyOf;
  }

  lemma PlainPayload(cfg: Config, s: ShardState, dst: Address, t: Triple, sent: DCToken, gas: nat)
    requires t.nonce == 0 && PayloadOf(cfg, s, dst, t, sent, gas).Ok?
    ensures PayloadOf(cfg, s, dst, t, sent, gas).value.payload == ToBytes(FromBytes(t.payload))
    ensures PayloadOf(cfg, s, dst, t, sent, gas).value.state == s
  {
  }

  /** What each transfer of a packed list travels as. */
  ghost predicate PackedAs(cfg: Config, s: ShardState, dst: Address, ts: seq<Triple>, sent: seq<DCToken>,
      args: seq<bytes>, i: nat)
    requires i < |ts| == |sent| && |args| == 3 * |ts|
  {
    var v := FromBytes(ts[i].payload);
    args[3 * i + 2] ==
      if ts[i].nonce == 0 || (KnownBy(cfg, s, dst, ts, i) && MayBeBare(v)) then ToBytes(v) else cfg.marshal(sent[i])
  }

  ghost predicate AllRecorded(s: ShardState, ts: seq<Triple>) {
    forall i :: 0 <= i < |ts| && ts[i].nonce > 0 ==> KeyOf(ts[i].token, ts[i].nonce) in s.system
  }

  lemma {:induction false} PackAllExactly(cfg: Config, s: ShardState, dst: Address, ts: seq<Triple>, sent: seq<DCToken>,
      gas: nat)
    requires EraB(cfg) && !cfg.Here(dst) && AllRecorded(s, ts) && |sent| == |ts| &&
      PackAll(cfg, s, dst, ts, sent, gas).Ok?
    ensures var m := PackAll(cfg, s, dst, ts, sent, gas).value;
            && m.state.system.Keys == s.system.Keys
            && (forall i :: 0 <= i < |ts| ==> PackedAs(cfg, s, dst, ts, sent, m.args, i))
            && (forall q :: Knows(cfg, m.state, dst, q) <==>
                  Knows(cfg, s, dst, q) || exists j :: 0 <= j < |ts| && IsOf(ts[j], q))
  {
    hide PayloadOf, Knows, MayBeBare, FromBytes, ToBytes, KeyOf, NonceArg;
    if ts != [] {
      var n := |ts| - 1;
      var front, t := ts[..n], ts[n];
      PackAllExactly(cfg, s, dst, front, sent[..n], gas);
      var before := PackAll(cfg, s, dst, front, sent[..n], gas).value;
      var m := PackAll(cfg, s, dst, ts, sent, gas).value;
      var p := PayloadOf(cfg, before.state, dst, t, sent[n], before.gas).value;
      if t.nonce > 0 {
        PayloadExactly(cfg, before.state, dst, t, sent[n], before.gas);
      } else {
        PlainPayload(cfg, before.state, dst, t, sent[n], before.gas);
      }
      forall i | 0 <= i < n
        ensures PackedAs(cfg, s, dst, ts, sent, m.args, i)
      {
        assert PackedAs(cfg, s, dst, front, sent[..n], before.args, i);
        SameKnown(cfg, s, dst, front, ts, i);
        assert m.args[3 * i + 2] == before.args[3 * i + 2];
      }
      assert m.args[3 * n + 2] == p.payload;
      assert forall j :: 0 <= j < n ==> front[j] == ts[j];
    }
  }

  lemma SameKnown(cfg: Config, s: ShardState, dst: Address, front: seq<Triple>, ts: seq<Triple>, i: nat)
    requires i < |front| <= |ts| && front == ts[..|front|]
    ensures KnownBy(cfg, s, dst, front, i) <==> KnownBy(cfg, s, dst, ts, i)
  {
    hide Knows;
    assert forall j :: 0 <= j <= i ==> front[j] == ts[j];
  }

  // ---- what is sent ----

  /** A token on its way: so much of an entry, with the metadata on record. */
  predicate CarriesEntry(s: ShardState, snd: Address, t: Triple, sent: DCToken) {
    var k := KeyOf(t.token, t.nonce);
    && k in s.system && Entry(s, snd, k).Some?
    && sent.value == FromBytes(t.payload) && sent.metadata == s.system[k].metadata
    && sent.kind == Entry(s, snd, k).value.kind && sent.properties == Entry(s, snd, k).value.properties
  }

  /** From s to s' no record changes, and what is left of the sender's entries has its kind and its properties. */
  ghost predicate OnlyLess(s: ShardState, s': ShardState, snd: Address) {
    s'.system == s.system &&
    forall q :: Entry(s', snd, q).Some? ==>
      Entry(s, snd, q).Some? && Entry(s', snd, q).value.kind == Entry(s, snd, q).value.kind &&
        Entry(s', snd, q).value.properties == Entry(s, snd, q).value.properties
  }

  lemma TransferOneFar(cfg: Config, s: ShardState, snd: Address, dst: Address, t: Triple, ret: bool)
    requires EraB(cfg) && Available(s) && ValidToken(t.token) && cfg.Here(snd) && !cfg.Here(dst)
    requires TransferOne(cfg, s, snd, dst, t, ret).Ok?
    ensures var (s', sent) := TransferOne(cfg, s, snd, dst, t, ret).value;
            OnlyLess(s, s', snd) && (t.nonce > 0 ==> CarriesEntry(s, snd, t, sent))
  {
    hide CheckProperties, CheckLimited, FromBytes;
    var k, v := KeyOf(t.token, t.nonce), FromBytes(t.payload);
    ReadValue(cfg, s, snd, t.token, t.nonce);
    if t.nonce > 0 {
      assert Balance(s, snd, k) > 0;
      HolderHasRecord(cfg, s, snd, t.token, t.nonce);
    }
    var e := ReadOnSender(cfg, s, snd, t.token, t.nonce).value;
    var u := e.(value := e.value - v);
    var s' := TransferOne(cfg, s, snd, dst, t, ret).value.0;
    assert s' == Put(s, snd, k, Kept(cfg, u));
    assert forall q :: Entry(s', snd, q) == if q == k then Kept(cfg, u) else Entry(s, snd, q);
  }

  lemma OnlyLessTrans(s: ShardState, s1: ShardState, s2: ShardState, snd: Address)
    requires OnlyLess(s, s1, snd) && OnlyLess(s1, s2, snd)
    ensures OnlyLess(s, s2, snd)
  {
    hide Entry;
  }

  lemma CarriesEarlier(s: ShardState, s1: ShardState, snd: Address, t: Triple, sent: DCToken)
    requires OnlyLess(s, s1, snd) && CarriesEntry(s1, snd, t, sent)
    ensures CarriesEntry(s, snd, t, sent)
  {
    hide Entry, KeyOf;
  }

  lemma {:induction false} TransferAllFar(cfg: Config, s: ShardState, snd: Address, dst: Address, ts: seq<Triple>,
      ret: bool)
    requires EraB(cfg) && Storing(cfg) && Available(s) && ValidTriples(ts) && cfg.Here(snd) && !cfg.Here(dst)
    requires TransferAll(cfg, s, snd, dst, ts, ret).Ok?
    ensures var (s', sent) := TransferAll(cfg, s, snd, dst, ts, ret).value;
            OnlyLess(s, s', snd) && Available(s') &&
              forall i :: 0 <= i < |ts| && ts[i].nonce > 0 ==> CarriesEntry(s, snd, ts[i], sent[i])
  {
    hide TransferOne, Available, CarriesEntry, OnlyLess, Entry;
    if ts != [] {
      var n := |ts| - 1;
      TransferAllFar(cfg, s, snd, dst, ts[..n], ret);
      var (s1, sent) := TransferAll(cfg, s, snd, dst, ts[..n], ret).value;
      TransferOneFar(cfg, s1, snd, dst, ts[n], ret);
      TransferOneInv(cfg, s1, snd, dst, ts[n], ret);
      var (s2, last) := TransferOne(cfg, s1, snd, dst, ts[n], ret).value;
      OnlyLessTrans(s, s1, s2, snd);
      if ts[n].nonce > 0 {
        CarriesEarlier(s, s1, snd, ts[n], last);
      }
    } else {
      NothingLess(s, snd);
    }
  }

  lemma NothingLess(s: ShardState, snd: Address)
    ensures OnlyLess(s, s, snd)
  {
  }

  // ---- messages ----

  /** What the i-th transfer of a multi-transfer message travels as. */
  function PayloadAt(args: seq<bytes>, i: nat): bytes
    requires 3 * i + 3 < |args|
  {
    args[3 * i + 3]
  }

  lemma MarshalledIsLong(cfg: Config, s: ShardState, snd: Address, t: Triple, sent: DCToken)
    requires cfg.GoodMarshaller() && Described(s) && CarriesEntry(s, snd, t, sent)
    ensures |cfg.marshal(sent)| > MAX_LENGTH_FOR_VALUE && cfg.unmarshal(cfg.marshal(sent)) == Some(sent)
  {
    assert sent.metadata.Some?;
  }

  lemma MultiMessageIs(cfg: Config, s: ShardState, call: Call) returns (s1: ShardState, sent: seq<DCToken>, m: Message)
    requires |call.args| < U64 && MultiTransferOnSender(cfg, s, call).Ok? && !cfg.Here(call.args[0])
    ensures var (s', out) := MultiTransferOnSender(cfg, s, call).value;
            var ts, dst := Requested(call), call.args[0];
            && TransferAll(cfg, s, call.caller, dst, ts, call.ret) == Ok((s1, sent)) && |sent| == |ts|
            && (exists gas :: PackAll(cfg, s1, dst, ts, sent, gas) == Ok(m))
            && s' == m.state && |m.args| == 3 * |ts| && 2 + 3 * |ts| <= |call.args|
            && out.transfer.Some? && ParseData(out.transfer.value.data)
                 == Ok((MULTI_TRANSFER, [ToBytes(|ts|)] + m.args + call.args[2 + 3 * |ts|..]))
  {
    hide TransferAll, PackAll, Print, ParseData, MultiTransferOnSender, ToBytes;
    s1, sent, m := MultiSendSteps(cfg, s, call);
    FunctionNames();
    ParsePrint(MULTI_TRANSFER, [ToBytes(|Requested(call)|)] + m.args + call.args[2 + 3 * |Requested(call)|..]);
  }

  /** A number in at least one byte, without leading zeros. */
  predicate WritesNumber(b: bytes, n: nat) {
    b != [] && FromBytes(b) == n && (b[0] == 0 ==> b == [0])
  }

  lemma NonceIsWritten(nonce: nat)
    ensures WritesNumber(NonceArg(nonce), nonce)
  {
    FromToBytes(nonce);
    ToFromBytes(ToBytes(nonce));
    assert [0 as byte][..0] == [];
    assert FromBytes([0 as byte]) == 0;
  }

  lemma {:induction false} PackedNames(cfg: Config, s: ShardState, dst: Address, ts: seq<Triple>, sent: seq<DCToken>,
      gas: nat, i: nat)
    requires |sent| == |ts| && PackAll(cfg, s, dst, ts, sent, gas).Ok? && i < |ts|
    ensures var args := PackAll(cfg, s, dst, ts, sent, gas).value.args;
            && args[3 * i] == ts[i].token && WritesNumber(args[3 * i + 1], ts[i].nonce)
            && (ts[i].nonce == 0 ==> args[3 * i + 2] == ToBytes(FromBytes(ts[i].payload)))
  {
    hide PayloadOf, NonceArg, WritesNumber, FromBytes, ToBytes;
    var n := |ts| - 1;
    NonceIsWritten(ts[n].nonce);
    if i < n {
      PackedNames(cfg, s, dst, ts[..n], sent[..n], gas, i);
    } else if ts[n].nonce == 0 {
      var m := PackAll(cfg, s, dst, ts[..n], sent[..n], gas).value;
      PlainPayload(cfg, m.state, dst, ts[n], sent[n], m.gas);
    }
  }

  /**
   * The message of a multi-transfer: how many transfers there are, for each its token and its nonce, the amount of a
   * plain token as it is, and the call behind them.
   */
  lemma MultiMessageNames(cfg: Config, s: ShardState, call: Call)
    requires |call.args| < U64 && MultiTransferOnSender(cfg, s, call).Ok? && !cfg.Here(call.args[0])
    ensures var out, ts := MultiTransferOnSender(cfg, s, call).value.1.transfer, Requested(call);
            && out.Some? && ParseData(out.value.data).Ok? && ParseData(out.value.data).value.0 == MULTI_TRANSFER
            && var args := ParseData(out.value.data).value.1;
            && 2 + 3 * |ts| <= |call.args| && |args| == |call.args| - 1 && WritesNumber(args[0], |ts|)
            && (forall i :: 0 <= i < |ts| ==>
                  args[3 * i + 1] == ts[i].token && WritesNumber(args[3 * i + 2], ts[i].nonce) &&
                  (ts[i].nonce == 0 ==> PayloadAt(args, i) == ToBytes(FromBytes(ts[i].payload))))
            && args[1 + 3 * |ts|..] == call.args[2 + 3 * |ts|..]
  {
    hide MultiTransferOnSender, TransferAll, PackAll, ParseData, FromBytes, ToBytes, Requested, WritesNumber;
    var s1, sent, m := MultiMessageIs(cfg, s, call);
    var ts, dst := Requested(call), call.args[0];
    var gas :| PackAll(cfg, s1, dst, ts, sent, gas) == Ok(m);
    var tail := call.args[2 + 3 * |ts|..];
    var args := [ToBytes(|ts|)] + m.args + tail;
    assert args[1 + 3 * |ts|..] == tail;
    SomeTransfers(cfg, s, call);
    NumberIsWritten(|ts|);
    forall i | 0 <= i < |ts|
      ensures args[3 * i + 1] == ts[i].token && WritesNumber(args[3 * i + 2], ts[i].nonce)
      ensures ts[i].nonce == 0 ==> PayloadAt(args, i) == ToBytes(FromBytes(ts[i].payload))
    {
      PackedNames(cfg, s1, dst, ts, sent, gas, i);
      assert args[3 * i + 1] == m.args[3 * i] && args[3 * i + 2] == m.args[3 * i + 1];
      assert args[3 * i + 3] == m.args[3 * i + 2];
    }
  }

  lemma SomeTransfers(cfg: Config, s: ShardState, call: Call)
    requires |call.args| < U64 && MultiTransferOnSender(cfg, s, call).Ok?
    ensures |Requested(call)| > 0
  {
    hide MultiTransferOnSender, TransferAll, PackAll, Emit;
    var s1, sent, m := MultiSendSteps(cfg, s, call);
  }

  lemma NumberIsWritten(n: nat)
    requires n > 0
    ensures WritesNumber(ToBytes(n), n)
  {
    FromToBytes(n);
    ToFromBytes(ToBytes(n));
  }

  /**
   * An amount of an NFT travels bare to another shard if and only if that shard is known to have the metadata, from an
   * earlier send or from an earlier item of the list, and the amount is more than one and fits 32 bytes. Otherwise the
   * whole token travels: that amount of the sender's entry, with the metadata on record.
   */
  lemma CompactExactly(cfg: Config, s: ShardState, call: Call, i: nat)
    requires Environment(cfg) && EraB(cfg) && Available(s) && cfg.Here(call.caller) && |call.args| < U64
    requires MultiTransferOnSender(cfg, s, call).Ok? && !cfg.Here(call.args[0]) && ValidTriples(Requested(call))
    requires i < |Requested(call)| && Requested(call)[i].nonce > 0
    ensures var data := MultiTransferOnSender(cfg, s, call).value.1.transfer;
            data.Some? && ParseData(data.value.data).Ok? && 3 * i + 3 < |ParseData(data.value.data).value.1|
    ensures var data := MultiTransferOnSender(cfg, s, call).value.1.transfer.value.data;
            var payload := PayloadAt(ParseData(data).value.1, i);
            var t, v := Requested(call)[i], FromBytes(Requested(call)[i].payload);
            var bare := KnownBy(cfg, s, call.args[0], Requested(call), i) && MayBeBare(v);
            && (|payload| <= MAX_LENGTH_FOR_VALUE <==> bare)
            && (bare ==> payload == ToBytes(v))
            && (!bare ==> exists sent :: cfg.unmarshal(payload) == Some(sent) && CarriesEntry(s, call.caller, t, sent))
    ensures forall j :: 0 <= j < |Requested(call)| && Requested(call)[j].nonce > 0 ==>
              Knows(cfg, MultiTransferOnSender(cfg, s, call).value.0, call.args[0],
                KeyOf(Requested(call)[j].token, Requested(call)[j].nonce))
  {
    hide MultiTransferOnSender, TransferAll, PackAll, ParseData, Available, Knows, MayBeBare, FromBytes, ToBytes, KeyOf,
        CarriesEntry, Requested, Flagged, Entry;
    var s1, sent, m := MultiMessageIs(cfg, s, call);
    var ts, dst := Requested(call), call.args[0];
    var gas :| PackAll(cfg, s1, dst, ts, sent, gas) == Ok(m);
    TransferAllFar(cfg, s, call.caller, dst, ts, call.ret);
    ListRecorded(s, s1, call.caller, ts, sent);
    PackAllExactly(cfg, s1, dst, ts, sent, gas);
    assert PackedAs(cfg, s1, dst, ts, sent, m.args, i);
    SameFlagsKnown(cfg, s, s1, dst, ts, i);
    AvailableDescribes(s);
    MarshalledIsLong(cfg, s, call.caller, ts[i], sent[i]);
    assert ([ToBytes(|ts|)] + m.args + call.args[2 + 3 * |ts|..])[3 * i + 3] == m.args[3 * i + 2];
    BareIsShort(FromBytes(ts[i].payload));
    forall j | 0 <= j < |ts| && ts[j].nonce > 0
      ensures Knows(cfg, m.state, dst, KeyOf(ts[j].token, ts[j].nonce))
    {
      assert IsOf(ts[j], KeyOf(ts[j].token, ts[j].nonce));
    }
  }

  lemma AvailableDescribes(s: ShardState)
    requires Available(s)
    ensures Described(s)
  {
  }

  lemma BareIsShort(v: nat)
    ensures MayBeBare(v) ==> |ToBytes(v)| <= MAX_LENGTH_FOR_VALUE
  {
  }

  lemma ListRecorded(s: ShardState, s1: ShardState, snd: Address, ts: seq<Triple>, sent: seq<DCToken>)
    requires |sent| == |ts| && OnlyLess(s, s1, snd)
    requires forall i :: 0 <= i < |ts| && ts[i].nonce > 0 ==> CarriesEntry(s, snd, ts[i], sent[i])
    ensures AllRecorded(s1, ts) && s1.system == s.system
  {
    hide Entry, KeyOf;
  }

  lemma SameFlagsKnown(cfg: Config, s: ShardState, s1: ShardState, dst: Address, ts: seq<Triple>, i: nat)
    requires s1.system == s.system && i < |ts|
    ensures KnownBy(cfg, s1, dst, ts, i) <==> KnownBy(cfg, s, dst, ts, i)
  {
  }

  /** After one send of an NFT to a shard, the next one to it travels bare where the amount may. */
  lemma NextSendIsBare(cfg: Config, s: ShardState, first: Call, next: Call, j: nat, i: nat)
    requires Environment(cfg) && EraB(cfg) && Available(s) && |first.args| < U64 && |next.args| < U64
    requires cfg.Here(first.caller) && ValidTriples(Requested(first)) && MultiTransferOnSender(cfg, s, first).Ok?
    requires !cfg.Here(first.args[0])
    requires var s' := MultiTransferOnSender(cfg, s, first).value.0;
             && Available(s') && cfg.Here(next.caller) && ValidTriples(Requested(next))
             && MultiTransferOnSender(cfg, s', next).Ok? && cfg.SameShard(next.args[0], first.args[0])
    requires j < |Requested(first)| && i < |Requested(next)| && Requested(first)[j].nonce > 0
    requires IsOf(Requested(next)[i], KeyOf(Requested(first)[j].token, Requested(first)[j].nonce))
    requires MayBeBare(FromBytes(Requested(next)[i].payload))
    ensures var s' := MultiTransferOnSender(cfg, s, first).value.0;
            var data := MultiTransferOnSender(cfg, s', next).value.1.transfer;
            && data.Some? && ParseData(data.value.data).Ok? && 3 * i + 3 < |ParseData(data.value.data).value.1|
            && PayloadAt(ParseData(data.value.data).value.1, i) == ToBytes(FromBytes(Requested(next)[i].payload))
  {
    hide MultiTransferOnSender, ParseData, Available, MayBeBare, FromBytes, ToBytes, KeyOf, CarriesEntry, Requested,
        Flagged, Environment, ValidTriples;
    var s' := MultiTransferOnSender(cfg, s, first).value.0;
    CompactExactly(cfg, s, first, j);
    CompactExactly(cfg, s', next, i);
  }

  /**
   * The amount of a single NFT transfer to another shard travels as the byte 0 if and only if that shard is known to
   * have the metadata and the amount is not one. Otherwise the whole token travels.
   */
  lemma NftCompactExactly(cfg: Config, s: ShardState, call: Call)
    requires Environment(cfg) && EraB(cfg) && Available(s) && cfg.Here(call.caller)
    requires NftTransferOnSender(cfg, s, call).Ok? && !cfg.Here(call.args[3]) && ValidToken(call.args[0])
    ensures var (s', out) := NftTransferOnSender(cfg, s, call).value;
            && out.transfer.Some? && ParseData(out.transfer.value.data).Ok?
            && |ParseData(out.transfer.value.data).value.1| >= 4 && |call.args| >= 4
    ensures var (s', out) := NftTransferOnSender(cfg, s, call).value;
            var payload := ParseData(out.transfer.value.data).value.1[3];
            var t, v := RequestedNft(call), FromBytes(call.args[2]);
            var known := Knows(cfg, s, call.args[3], KeyOf(t.token, t.nonce));
            && ParseData(out.transfer.value.data).value == (NFT_TRANSFER, call.args[3 := payload])
            && (payload == [0] <==> known && v != 1)
            && (v > 0 && !(known && v != 1) ==>
                exists sent :: cfg.unmarshal(payload) == Some(sent) && CarriesEntry(s, call.caller, t, sent))
            && (v > 0 ==> Knows(cfg, s', call.args[3], KeyOf(t.token, t.nonce)))
  {
    hide Debit, Hand, WasAlreadySent, NftTransferOnSender, Print, ParseData, FromBytes, Knows, KeyOf, CarriesEntry,
        Available, Environment;
    var s1, sent, s2, left, s3, p := NftSendSteps(cfg, s, call);
    var t, v, dst := RequestedNft(call), FromBytes(call.args[2]), call.args[3];
    SingleDebitFar(cfg, s, call.caller, dst, t, v, call.ret);
    HandFarKeepsSystem(cfg, s1, call.caller, dst, t.token, t.nonce, sent, call.ret);
    SentExactly(cfg, s2, t.token, t.nonce, dst);
    NeverZero(cfg, left);
    FunctionNames();
    var args := call.args[..3] + [p.payload] + call.args[4..];
    ParsePrint(NFT_TRANSFER, args);
    HandFar(cfg, s1, call.caller, dst, t.token, t.nonce, sent, call.ret);
    assert args[3] == p.payload && args == call.args[3 := p.payload];
    assert p.payload != [0] ==> p.payload == cfg.marshal(sent);
  }

  lemma NeverZero(cfg: Config, t: DCToken)
    requires Environment(cfg)
    ensures cfg.marshal(t) != [0] && cfg.unmarshal(cfg.marshal(t)) == Some(t)
  {
  }

  /** The answer whether metadata was sent, and what it leaves behind. */
  lemma SentExactly(cfg: Config, s: ShardState, token: bytes, nonce: nat, dst: Address)
    requires EraB(cfg) && !cfg.Here(dst) && nonce > 0 && WasAlreadySent(cfg, s, token, nonce, dst).Ok?
    ensures var (s', already) := WasAlreadySent(cfg, s, token, nonce, dst).value;
            && (already <==> Knows(cfg, s, dst, KeyOf(token, nonce)))
            && (KeyOf(token, nonce) in s.system ==> Knows(cfg, s', dst, KeyOf(token, nonce)))
  {
    hide KeyOf;
  }

  lemma SingleDebitFar(cfg: Config, s: ShardState, snd: Address, dst: Address, t: Triple, v: nat, ret: bool)
    requires EraB(cfg) && Available(s) && ValidToken(t.token) && t.nonce > 0 && v == FromBytes(t.payload)
    requires cfg.Here(snd) && !cfg.Here(dst)
    requires Debit(cfg, s, snd, t.token, t.nonce, v, InvalidNFTQuantity, ret).Ok?
    ensures var (s1, sent) := Debit(cfg, s, snd, t.token, t.nonce, v, InvalidNFTQuantity, ret).value;
            && sent.value == v
            && (Knows(cfg, s1, dst, KeyOf(t.token, t.nonce)) <==> Knows(cfg, s, dst, KeyOf(t.token, t.nonce)))
            && (v > 0 ==> KeyOf(t.token, t.nonce) in s1.system && CarriesEntry(s, snd, t, sent))
  {
    hide CheckProperties, FromBytes;
    var k := KeyOf(t.token, t.nonce);
    ReadValue(cfg, s, snd, t.token, t.nonce);
    assert IsNftKey(k);
    if v > 0 {
      assert Balance(s, snd, k) > 0;
      HolderHasRecord(cfg, s, snd, t.token, t.nonce);
    }
  }
}
