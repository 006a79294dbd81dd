/** One invariant for both eras, kept by every operation of a shard and by every half of a transfer. */
module Invariants {
  import opened Bytes
  import opened Results
  import opened Keys
  import opened Tokens
  import opened Storage
  import opened Transfers
  import opened Totals
  import opened Moves
  import opened Liquidity
  import opened Availability

  /** The flags of either era: records in the system account and, where liquidity is counted, no empty transfers. */
  predicate Storing(cfg: Config) {
    cfg.flags.saveToSystem && (cfg.flags.sendAlways ==> cfg.flags.checkTransfer)
  }

  ghost predicate Inv(cfg: Config, s: ShardState) {
    if cfg.flags.sendAlways then Sound(s) else Available(s)
  }

  lemma InvBasics(cfg: Config, s: ShardState)
    requires Inv(cfg, s)
    ensures NonNegative(s) && Described(s)
  {
  }

  /** In either era a holder has the record of what it holds. */
  lemma HolderHasRecord(cfg: Config, s: ShardState, a: Address, token: bytes, nonce: nat)
    requires Inv(cfg, s) && ValidToken(token) && nonce > 0 && Balance(s, a, KeyOf(token, nonce)) > 0
    ensures KeyOf(token, nonce) in s.system
  {
    assert IsNftKey(KeyOf(token, nonce));
    if cfg.flags.sendAlways {
      HeldIsRecorded(s, a, KeyOf(token, nonce));
    }
  }

  // ---- sending ----

  /** What a sender's shard keeps for the message: the amount, and the metadata of an NFT. */
  ghost predicate SentFor(t: Triple, sent: DCToken) {
    sent.value == FromBytes(t.payload) > 0 && (t.nonce > 0 ==> sent.metadata.Some?)
  }

  /** The two halves of a send keep the invariant, and the token that leaves is described. */
  lemma SendInv(cfg: Config, s: ShardState, snd: Address, dst: Address, token: bytes, nonce: nat, v: nat, short: Error,
      ret: bool)
    requires Storing(cfg) && Inv(cfg, s) && ValidToken(token) && cfg.Here(snd) && (cfg.flags.sendAlways ==> v > 0)
    requires Debit(cfg, s, snd, token, nonce, v, short, ret).Ok?
    ensures var (s1, sent) := Debit(cfg, s, snd, token, nonce, v, short, ret).value;
            && sent.value == v && (nonce > 0 && v > 0 ==> sent.metadata.Some?) && NonNegative(s1)
            && (Hand(cfg, s1, snd, dst, token, nonce, sent, ret).Ok? ==>
                Inv(cfg, Hand(cfg, s1, snd, dst, token, nonce, sent, ret).value.0))
  {
    var (s1, sent) := Debit(cfg, s, snd, token, nonce, v, short, ret).value;
    InvBasics(cfg, s);
    DebitEffect(cfg, s, snd, token, nonce, v, short, ret);
    if nonce > 0 && v > 0 {
      HolderHasRecord(cfg, s, snd, token, nonce);
      ReadIsDescribed(cfg, s, snd, token, nonce);
    }
    if cfg.flags.sendAlways {
      DebitSound(cfg, s, snd, token, nonce, v, short, ret);
      if Hand(cfg, s1, snd, dst, token, nonce, sent, ret).Ok? {
        HandSound(cfg, s1, snd, dst, token, nonce, sent, ret);
      }
    } else {
      DebitKeeps(cfg, s, snd, token, nonce, v, short, ret);
      if Hand(cfg, s1, snd, dst, token, nonce, sent, ret).Ok? && cfg.Here(dst) {
        AddToDestinationKeeps(cfg, s1, snd, dst, sent, token, nonce, ret);
      }
    }
  }

  ghost predicate ValidTriples(ts: seq<Triple>) {
    forall i :: 0 <= i < |ts| ==> ValidToken(ts[i].token)
  }

  ghost predicate AllSentFor(ts: seq<Triple>, sent: seq<DCToken>) {
    |sent| == |ts| && forall i :: 0 <= i < |ts| ==> SentFor(ts[i], sent[i])
  }

  lemma TransferOneInv(cfg: Config, s: ShardState, snd: Address, dst: Address, t: Triple, ret: bool)
    requires Storing(cfg) && Inv(cfg, s) && ValidToken(t.token) && cfg.Here(snd)
    requires TransferOne(cfg, s, snd, dst, t, ret).Ok?
    ensures var (s', sent) := TransferOne(cfg, s, snd, dst, t, ret).value;
            Inv(cfg, s') && (!cfg.Here(dst) ==> SentFor(t, sent))
  {
    SendInv(cfg, s, snd, dst, t.token, t.nonce, FromBytes(t.payload), InsufficientQuantityDCT, ret);
  }

  lemma {:induction false} TransferAllInv(cfg: Config, s: ShardState, snd: Address, dst: Address, ts: seq<Triple>,
      ret: bool)
    requires Storing(cfg) && Inv(cfg, s) && ValidTriples(ts) && cfg.Here(snd)
    requires TransferAll(cfg, s, snd, dst, ts, ret).Ok?
    ensures var (s', sent) := TransferAll(cfg, s, snd, dst, ts, ret).value;
            Inv(cfg, s') && (!cfg.Here(dst) ==> AllSentFor(ts, sent))
  {
    if ts != [] {
      var n := |ts| - 1;
      TransferAllInv(cfg, s, snd, dst, ts[..n], ret);
      TransferOneInv(cfg, TransferAll(cfg, s, snd, dst, ts[..n], ret).value.0, snd, dst, ts[n], ret);
    }
  }

  // ---- the flags that remember what was sent ----

  /** Only the properties of records differ. */
  ghost predicate SameButProperties(s: ShardState, s': ShardState) {
    s'.accounts == s.accounts && s'.system.Keys == s.system.Keys &&
    forall q :: q in s.system ==> s'.system[q].metadata == s.system[q].metadata
  }

  lemma WasAlreadySentKeeps(cfg: Config, s: ShardState, token: bytes, nonce: nat, dst: Address)
    requires Storing(cfg) && Inv(cfg, s) && WasAlreadySent(cfg, s, token, nonce, dst).Ok?
    ensures var (s', _) := WasAlreadySent(cfg, s, token, nonce, dst).value;
            Inv(cfg, s') && SameButProperties(s, s') && s'.settings == s.settings
  {
    var s' := WasAlreadySent(cfg, s, token, nonce, dst).value.0;
    assert forall a, q :: Entry(s', a, q) == Entry(s, a, q);
    assert forall a, q :: Balance(s', a, q) == Balance(s, a, q);
  }

  lemma {:induction false} PackAllKeeps(cfg: Config, s: ShardState, dst: Address, ts: seq<Triple>, sent: seq<DCToken>,
      gas: nat)
    requires Storing(cfg) && Inv(cfg, s) && |sent| == |ts| && PackAll(cfg, s, dst, ts, sent, gas).Ok?
    ensures var s' := PackAll(cfg, s, dst, ts, sent, gas).value.state;
            Inv(cfg, s') && SameButProperties(s, s') && s'.settings == s.settings
  {
    if ts != [] {
      var n := |ts| - 1;
      PackAllKeeps(cfg, s, dst, ts[..n], sent[..n], gas);
      var m := PackAll(cfg, s, dst, ts[..n], sent[..n], gas).value;
      if ts[n].nonce > 0 {
        WasAlreadySentKeeps(cfg, m.state, ts[n].token, ts[n].nonce, dst);
      }
    }
  }

  // ---- delivering ----

  /** The key of the metadata that an item carries, if it carries any. */
  function BroughtBy(it: Item): set<bytes> {
    if it.nonce > 0 && it.carried.metadata.Some? then {KeyOf(it.token, it.nonce)} else {}
  }

  function Brought(its: seq<Item>): set<bytes> {
    if its == [] then {} else Brought(its[..|its| - 1]) + BroughtBy(its[|its| - 1])
  }

  /** An item with a valid token and, where metadata is sent only once, a record at hand for any amount of an NFT. */
  predicate Ready(cfg: Config, known: set<bytes>, it: Item) {
    ValidToken(it.token) && it.carried.value >= 0 &&
    (cfg.flags.sendAlways || it.nonce == 0 || it.carried.value == 0 ||
      KeyOf(it.token, it.nonce) in known + BroughtBy(it))
  }

  /** An item as a send posts it: some amount of a plain token, or an NFT, with its metadata where it is always sent. */
  predicate Furnished(cfg: Config, it: Item) {
    if it.nonce > 0 then cfg.flags.sendAlways ==> it.carried.metadata.Some? else it.carried.value > 0
  }

  predicate AllFurnished(cfg: Config, its: seq<Item>) {
    forall i :: 0 <= i < |its| ==> Furnished(cfg, its[i])
  }

  /** Every item finds the record it needs, or the list up to it has brought it. */
  predicate Deliverable(cfg: Config, known: set<bytes>, its: seq<Item>) {
    its == [] ||
    (Deliverable(cfg, known, its[..|its| - 1]) && Ready(cfg, known + Brought(its[..|its| - 1]), its[|its| - 1]))
  }

  /** The credits of a list of items. */
  function CreditAll(cfg: Config, s: ShardState, snd: Address, dst: Address, its: seq<Item>,
      ret: bool): Result<ShardState> {
    if its == [] then Ok(s)
    else
      var s1 :- CreditAll(cfg, s, snd, dst, its[..|its| - 1], ret);
      Credit(cfg, s1, snd, dst, its[|its| - 1], ret)
  }

  /** The items of a list are those of its triples. */
  ghost predicate Reads(cfg: Config, ts: seq<Triple>, its: seq<Item>) {
    |its| == |ts| && forall i :: 0 <= i < |ts| ==> ItemOf(cfg, ts[i]) == Ok(its[i])
  }

  lemma {:induction false} DeliverAllIsCreditAll(cfg: Config, s: ShardState, snd: Address, dst: Address,
      ts: seq<Triple>, its: seq<Item>, ret: bool)
    requires Reads(cfg, ts, its)
    ensures DeliverAll(cfg, s, snd, dst, ts, ret) == CreditAll(cfg, s, snd, dst, its, ret)
  {
    if ts != [] {
      DeliverAllIsCreditAll(cfg, s, snd, dst, ts[..|ts| - 1], its[..|its| - 1], ret);
    }
  }

  lemma AddToDestinationInv(cfg: Config, s: ShardState, snd: Address, dst: Address, t: DCToken, token: bytes,
      nonce: nat, ret: bool)
    requires Storing(cfg) && Inv(cfg, s) && ValidToken(token) && t.value >= 0 && !cfg.SameShard(snd, dst)
    requires !cfg.flags.sendAlways && nonce > 0 && t.value > 0 ==> t.metadata.Some? || KeyOf(token, nonce) in s.system
    requires AddToDestination(cfg, s, snd, dst, t, token, nonce, ret).Ok?
    ensures var s' := AddToDestination(cfg, s, snd, dst, t, token, nonce, ret).value.0;
            && Inv(cfg, s')
            && (!cfg.flags.sendAlways ==>
              (KeepsRecords(s, s') && (nonce > 0 && t.metadata.Some? ==> KeyOf(token, nonce) in s'.system)))
  {
    if cfg.flags.sendAlways {
      SoundIsSoundBut(s, KeyOf(token, nonce));
      AddToDestinationSound(cfg, s, snd, dst, t, token, nonce, ret, 0);
      SoundIsSoundBut(AddToDestination(cfg, s, snd, dst, t, token, nonce, ret).value.0, KeyOf(token, nonce));
    } else {
      AddToDestinationKeeps(cfg, s, snd, dst, t, token, nonce, ret);
    }
  }

  lemma BalanceInv(cfg: Config, s: ShardState, a: Address, token: bytes, v: int, ret: bool)
    requires Storing(cfg) && Inv(cfg, s) && ValidToken(token) && AddToBalance(cfg, s, a, token, v, ret).Ok?
    ensures var s' := AddToBalance(cfg, s, a, token, v, ret).value;
            Inv(cfg, s') && s'.system == s.system
  {
    if cfg.flags.sendAlways {
      AddToBalanceSound(cfg, s, a, token, v, ret);
      AddToBalanceEffect(cfg, s, a, token, v, ret);
    } else {
      AddToBalanceKeeps(cfg, s, a, token, v, ret);
    }
  }

  /** In era B a delivery loses no record and leaves one for everything it brought. */
  ghost predicate Documents(cfg: Config, s: ShardState, s': ShardState, brought: set<bytes>) {
    !cfg.flags.sendAlways ==> s.system.Keys + brought <= s'.system.Keys
  }

  lemma CreditInv(cfg: Config, s: ShardState, snd: Address, dst: Address, it: Item, ret: bool)
    requires Storing(cfg) && Inv(cfg, s) && !cfg.SameShard(snd, dst) && Ready(cfg, s.system.Keys, it)
    requires Credit(cfg, s, snd, dst, it, ret).Ok?
    ensures var s' := Credit(cfg, s, snd, dst, it, ret).value;
            Inv(cfg, s') && Documents(cfg, s, s', BroughtBy(it))
  {
    if it.nonce > 0 {
      AddToDestinationInv(cfg, s, snd, dst, it.carried, it.token, it.nonce, ret);
    } else {
      BalanceInv(cfg, s, dst, it.token, it.carried.value, ret);
    }
  }

  lemma ReadyMonotone(cfg: Config, known: set<bytes>, more: set<bytes>, it: Item)
    requires (!cfg.flags.sendAlways ==> known <= more) && Ready(cfg, known, it)
    ensures Ready(cfg, more, it)
  {
  }

  lemma {:induction false} DeliverableMonotone(cfg: Config, known: set<bytes>, more: set<bytes>, its: seq<Item>)
    requires (!cfg.flags.sendAlways ==> known <= more) && Deliverable(cfg, known, its)
    ensures Deliverable(cfg, more, its)
  {
    if its != [] {
      var n := |its| - 1;
      DeliverableMonotone(cfg, known, more, its[..n]);
      ReadyMonotone(cfg, known + Brought(its[..n]), more + Brought(its[..n]), its[n]);
    }
  }

  /** A delivery whose records are ready keeps the invariant. */
  lemma {:induction false} CreditAllInv(cfg: Config, s: ShardState, snd: Address, dst: Address, its: seq<Item>,
      ret: bool)
    requires Storing(cfg) && Inv(cfg, s) && !cfg.SameShard(snd, dst) && Deliverable(cfg, s.system.Keys, its)
    requires CreditAll(cfg, s, snd, dst, its, ret).Ok?
    ensures var s' := CreditAll(cfg, s, snd, dst, its, ret).value;
            Inv(cfg, s') && Documents(cfg, s, s', Brought(its))
  {
    if its != [] {
      var n := |its| - 1;
      CreditAllInv(cfg, s, snd, dst, its[..n], ret);
      var s1 := CreditAll(cfg, s, snd, dst, its[..n], ret).value;
      ReadyMonotone(cfg, s.system.Keys + Brought(its[..n]), s1.system.Keys, its[n]);
      CreditInv(cfg, s1, snd, dst, its[n], ret);
    }
  }

  // ---- sums ----

  /** The sum of the amounts that a list of items carries for a key. */
  function Load(its: seq<Item>, k: bytes): int {
    if its == [] then 0
    else
      var it := its[|its| - 1];
      Load(its[..|its| - 1], k) + if KeyOf(it.token, it.nonce) == k then it.carried.value else 0
  }

  lemma CreditEffect(cfg: Config, s: ShardState, snd: Address, dst: Address, it: Item, ret: bool)
    requires NonNegative(s) && it.carried.value >= 0 && Credit(cfg, s, snd, dst, it, ret).Ok?
    ensures var s' := Credit(cfg, s, snd, dst, it, ret).value;
            Adds(s, s', dst, KeyOf(it.token, it.nonce), it.carried.value) && NonNegative(s')
  {
    if it.nonce > 0 {
      AddToDestinationEffect(cfg, s, snd, dst, it.carried, it.token, it.nonce, ret);
    } else {
      PlainKey(it.token);
      AddToBalanceEffect(cfg, s, dst, it.token, it.carried.value, ret);
      AddsKeepsNonNegative(s, AddToBalance(cfg, s, dst, it.token, it.carried.value, ret).value, dst, it.token,
        it.carried.value);
    }
  }

  /** A delivery credits, per key, exactly what its items carry. */
  lemma {:induction false} CreditAllEffect(cfg: Config, s: ShardState, snd: Address, dst: Address, its: seq<Item>,
      ret: bool)
    requires NonNegative(s) && (forall i :: 0 <= i < |its| ==> its[i].carried.value >= 0)
    requires CreditAll(cfg, s, snd, dst, its, ret).Ok?
    ensures var s' := CreditAll(cfg, s, snd, dst, its, ret).value;
            && NonNegative(s')
            && (forall b, q :: Balance(s', b, q) == Balance(s, b, q) + if b == dst then Load(its, q) else 0)
            && (forall q :: Total(s', q) == Total(s, q) + Load(its, q))
  {
    if its != [] {
      var n := |its| - 1;
      CreditAllEffect(cfg, s, snd, dst, its[..n], ret);
      var s1 := CreditAll(cfg, s, snd, dst, its[..n], ret).value;
      CreditEffect(cfg, s1, snd, dst, its[n], ret);
    }
  }
}
