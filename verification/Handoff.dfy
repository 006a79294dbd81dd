/** dctNFTCreateRoleTransfer: the create role and the latest nonce of a token pass from one account to another. */
module Handoff {
  import opened Bytes
  import opened Results
  import opened Wire
  import opened Tokens
  import opened Transfers
  import opened Roles

  /** addCreateRoleToAccount */
  function AddCreateRole(s: ShardState, a: Address, token: bytes): ShardState {
    var roles := RolesOf(s, a, token);
    if ROLE_NFT_CREATE in roles then s else PutRoles(s, a, token, roles + [ROLE_NFT_CREATE])
  }

  /** deleteCreateRoleFromAccount */
  function DeleteCreateRole(s: ShardState, a: Address, token: bytes): ShardState {
    PutRoles(s, a, token, DeleteRoles(RolesOf(s, a, token), [ROLE_NFT_CREATE]))
  }

  function TakeOver(s: ShardState, a: Address, token: bytes, nonce: nat): ShardState {
    AddCreateRole(PutNonce(s, a, token, nonce), a, token)
  }

  function HandoffMessage(token: bytes, nonce: nat): bytes {
    Print(CREATE_ROLE_TRANSFER, [token, ToBytes(nonce)])
  }

  /** executeTransferNFTCreateChangeAtCurrentOwner */
  function GiveUp(cfg: Config, s: ShardState, call: Call): Result<(ShardState, OutTransfer)> {
    var _ :- CheckBasic(call);
    var _ :- Need(call.caller == cfg.systemContract, AddressIsNotDCTSystemSC);
    var _ :- Need(|call.args| == 2 && |call.args[1]| == |call.caller|, InvalidArguments);
    var a, token, next := call.recipient, call.args[0], call.args[1];
    var nonce := LatestNonce(s, a, token);
    var s1 := DeleteCreateRole(PutNonce(s, a, token, 0), a, token);
    var s2 := if cfg.Here(next) then TakeOver(s1, next, token, nonce) else s1;
    Ok((s2, OutTransfer(call.caller, next, HandoffMessage(token, nonce), 0)))
  }

  /** executeTransferNFTCreateChangeAtNextOwner */
  function Receive(cfg: Config, s: ShardState, call: Call): Result<ShardState> {
    var _ :- CheckBasic(call);
    var _ :- Need(call.caller != cfg.systemContract && |call.args| == 2, InvalidArguments);
    Ok(TakeOver(s, call.recipient, call.args[0], ReadUint64(call.args[1])))
  }
}
