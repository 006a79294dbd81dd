/** Limited transfers: where a token is limited, only an account with the transfer role sends it or receives it. */
module Limits {
  import opened Bytes
  import opened Results
  import opened Tokens
  import opened Storage
  import opened Transfers
  import opened Totals
  import opened Moves
  import opened Messages

  /** The token identifier that the transfer role is looked up under. */
  function RoleId(cfg: Config, token: bytes): bytes {
    if cfg.flags.checkCorrectTokenId then token else cfg.keyPrefix + token
  }

  /** The sender or the destination is a transfer address, or holds the role in this shard. */
  ghost predicate MayMove(cfg: Config, s: ShardState, token: bytes, snd: Address, dst: Address, sndHere: bool,
      dstHere: bool) {
    var id := RoleId(cfg, token);
    || (cfg.flags.transferRoleAddresses && id in s.transferAddresses &&
      (snd in s.transferAddresses[id] || dst in s.transferAddresses[id]))
    || (sndHere && ROLE_TRANSFER in RolesOf(s, snd, id))
    || (dstHere && ROLE_TRANSFER in RolesOf(s, dst, id))
  }

  /** Settings, roles and transfer addresses are the same. */
  ghost predicate SameRules(s: ShardState, s': ShardState) {
    s'.settings == s.settings && s'.transferAddresses == s.transferAddresses && SameBooks(s, s')
  }

  lemma CheckedMayMove(cfg: Config, s: ShardState, token: bytes, snd: Address, dst: Address, dstHere: bool)
    ensures CheckLimited(cfg, s, token, snd, dst, true, dstHere, false).Ok? <==>
            !SettingsOf(s, token).limitedTransfer || MayMove(cfg, s, token, snd, dst, true, dstHere)
  {
  }

  lemma SameRulesMayMove(cfg: Config, s: ShardState, s': ShardState, token: bytes, snd: Address, dst: Address,
      here: bool)
    requires SameRules(s, s')
    ensures MayMove(cfg, s', token, snd, dst, true, here) <==> MayMove(cfg, s, token, snd, dst, true, here)
    ensures SettingsOf(s', token) == SettingsOf(s, token)
  {
  }

  lemma SameRulesTrans(s: ShardState, s1: ShardState, s2: ShardState)
    requires SameRules(s, s1) && SameRules(s1, s2)
    ensures SameRules(s, s2)
  {
  }

  lemma SaveKeepsAddresses(cfg: Config, s: ShardState, sender: Address, a: Address, token: bytes, nonce: nat,
      t: DCToken, ret: bool)
    requires SaveToken(cfg, s, sender, a, token, nonce, t, false, ret).Ok?
    ensures SaveToken(cfg, s, sender, a, token, nonce, t, false, ret).value.transferAddresses == s.transferAddresses
  {
    hide CheckProperties;
  }

  lemma LiquidityKeepsAddresses(cfg: Config, s: ShardState, token: bytes, nonce: nat, v: int)
    requires AddLiquidity(cfg, s, token, nonce, v).Ok?
    ensures AddLiquidity(cfg, s, token, nonce, v).value.transferAddresses == s.transferAddresses
  {
  }

  lemma DebitKeepsRules(cfg: Config, s: ShardState, snd: Address, token: bytes, nonce: nat, v: nat, short: Error,
      ret: bool)
    requires NonNegative(s) && Debit(cfg, s, snd, token, nonce, v, short, ret).Ok?
    ensures SameRules(s, Debit(cfg, s, snd, token, nonce, v, short, ret).value.0)
  {
    hide SaveToken;
    var t := ReadOnSender(cfg, s, snd, token, nonce).value;
    DebitEffect(cfg, s, snd, token, nonce, v, short, ret);
    SaveKeepsAddresses(cfg, s, snd, snd, token, nonce, t.(value := t.value - v), ret);
  }

  lemma HandKeepsRules(cfg: Config, s: ShardState, snd: Address, dst: Address, token: bytes, nonce: nat, t: DCToken,
      ret: bool)
    requires NonNegative(s) && t.value >= 0 && Hand(cfg, s, snd, dst, token, nonce, t, ret).Ok?
    ensures SameRules(s, Hand(cfg, s, snd, dst, token, nonce, t, ret).value.0)
  {
    hide SaveToken, AddLiquidity, Read;
    HandEffect(cfg, s, snd, dst, token, nonce, t, ret);
    if cfg.Here(dst) {
      var sum := t.(value := t.value + Read(cfg, s, dst, token, nonce).0.value);
      SaveKeepsAddresses(cfg, s, snd, dst, token, nonce, sum, ret);
      if !cfg.SameShard(snd, dst) {
        LiquidityKeepsAddresses(cfg, SaveToken(cfg, s, snd, dst, token, nonce, sum, false, ret).value, token, nonce,
          t.value);
      }
    } else {
      LiquidityKeepsAddresses(cfg, s, token, nonce, -t.value);
    }
  }

  /** Every limited token of a list that moved was allowed to move when the list started. */
  lemma {:induction false} TransferAllLimited(cfg: Config, s: ShardState, snd: Address, dst: Address, ts: seq<Triple>)
    requires NonNegative(s) && snd != dst && TransferAll(cfg, s, snd, dst, ts, false).Ok?
    ensures SameRules(s, TransferAll(cfg, s, snd, dst, ts, false).value.0)
    ensures forall i :: 0 <= i < |ts| && SettingsOf(s, ts[i].token).limitedTransfer ==>
      MayMove(cfg, s, ts[i].token, snd, dst, true, cfg.Here(dst))
  {
    hide Debit, Hand, SameRules, MayMove, NonNegative, SettingsOf, CheckLimited;
    if ts != [] {
      var n := |ts| - 1;
      var t := ts[n];
      var s1 := TransferAll(cfg, s, snd, dst, ts[..n], false).value.0;
      TransferAllLimited(cfg, s, snd, dst, ts[..n]);
      TransferAllEffect(cfg, s, snd, dst, ts[..n], false);
      var v := FromBytes(t.payload);
      var (s2, sent) := Debit(cfg, s1, snd, t.token, t.nonce, v, InsufficientQuantityDCT, false).value;
      var s3 := Hand(cfg, s2, snd, dst, t.token, t.nonce, sent, false).value.0;
      DebitEffect(cfg, s1, snd, t.token, t.nonce, v, InsufficientQuantityDCT, false);
      DebitKeepsRules(cfg, s1, snd, t.token, t.nonce, v, InsufficientQuantityDCT, false);
      HandKeepsRules(cfg, s2, snd, dst, t.token, t.nonce, sent, false);
      SameRulesTrans(s, s1, s2);
      SameRulesTrans(s, s2, s3);
      CheckedMayMove(cfg, s2, t.token, snd, dst, cfg.Here(dst));
      SameRulesMayMove(cfg, s, s2, t.token, snd, dst, cfg.Here(dst));
    } else {
      NoChange(s);
    }
  }

  lemma NoChange(s: ShardState)
    ensures SameRules(s, s)
  {
  }

  /** A multi-transfer that succeeds moved no limited token but for an account with the transfer role. */
  lemma LimitedMultiTransfer(cfg: Config, s: ShardState, call: Call)
    requires NonNegative(s) && |call.args| < U64 && !call.ret && MultiTransferOnSender(cfg, s, call).Ok?
    ensures forall i :: 0 <= i < |Requested(call)| && SettingsOf(s, Requested(call)[i].token).limitedTransfer ==>
              MayMove(cfg, s, Requested(call)[i].token, call.caller, call.args[0], true, cfg.Here(call.args[0]))
  {
    hide TransferAll, PackAll, MultiTransferOnSender, Requested, MayMove, SettingsOf, NonNegative;
    var s1, sent, m := MultiSendSteps(cfg, s, call);
    TransferAllLimited(cfg, s, call.caller, call.args[0], Requested(call));
  }

  /** The same for a single NFT transfer, which is checked after both balances have changed. */
  lemma LimitedNftTransfer(cfg: Config, s: ShardState, call: Call)
    requires NonNegative(s) && !call.ret && NftTransferOnSender(cfg, s, call).Ok?
    ensures SettingsOf(s, call.args[0]).limitedTransfer ==>
      MayMove(cfg, s, call.args[0], call.caller, call.args[3], true, cfg.Here(call.args[3]))
  {
    hide Debit, Hand, SameRules, MayMove, NonNegative, SettingsOf, CheckLimited, WasAlreadySent, Pack, Emit, ReadUint64,
        FromBytes, CheckBasic;
    NftChecks(cfg, s, call);
    var token, nonce, v, dst := call.args[0], ReadUint64(call.args[1]), FromBytes(call.args[2]), call.args[3];
    var (s1, sent) := Debit(cfg, s, call.caller, token, nonce, v, InvalidNFTQuantity, false).value;
    var s2 := Hand(cfg, s1, call.caller, dst, token, nonce, sent, false).value.0;
    DebitEffect(cfg, s, call.caller, token, nonce, v, InvalidNFTQuantity, false);
    DebitKeepsRules(cfg, s, call.caller, token, nonce, v, InvalidNFTQuantity, false);
    HandKeepsRules(cfg, s1, call.caller, dst, token, nonce, sent, false);
    SameRulesTrans(s, s1, s2);
    CheckedMayMove(cfg, s2, token, call.caller, dst, cfg.Here(dst));
    SameRulesMayMove(cfg, s, s2, token, call.caller, dst, cfg.Here(dst));
  }

  lemma NftChecks(cfg: Config, s: ShardState, call: Call)
    requires NftTransferOnSender(cfg, s, call).Ok?
    ensures |call.args| >= 4
  {
    hide Debit, Hand, CheckLimited, WasAlreadySent, Pack, Emit;
  }

  /** The same for a fungible transfer in its sender's shard. */
  lemma LimitedFungibleTransfer(cfg: Config, s: ShardState, call: Call, dstHere: bool)
    requires !call.ret && FungibleTransfer(cfg, s, call, true, dstHere).Ok?
    ensures |call.args| >= 2
    ensures SettingsOf(s, call.args[0]).limitedTransfer ==>
      MayMove(cfg, s, call.args[0], call.caller, call.recipient, true, dstHere)
  {
    hide MayMove, SettingsOf, CheckLimited, AddToBalance, IsCallAfter;
    CheckedMayMove(cfg, s, call.args[0], call.caller, call.recipient, dstHere);
  }
}
