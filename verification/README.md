# A verified model of the sharded token ledger

This project models the token ledger of the built-in functions in Dafny: one shard's accounts and system account, the
three transfer functions with their halves at the sender's and at the destination's shard, the message codec between
the halves, creation and the hand-off of the create role, the functions that change a supply, roles and transfer
addresses, freezing and global settings, the metadata functions, and the parsers and printers of call data.

## How it is built

* **Specification.** Each built-in function is a function on a `ShardState` value (`Storage`, `Transfers`, `Supply`,
  `Roles`, `Handoff`). It takes the branches of the code in the code's order, with its error values. A Go panic on an
  index is `Err(IndexOutOfRange)`, one on missing metadata `Err(NilMetaData)`. Amounts are unbounded, as `big.Int` is;
  nonces, counts and gas are taken modulo 2^64 wherever the code computes with `uint64`.
* **Code form.** The functions that update state in place are methods of classes (`ShardLedger`, `TransferFunction`,
  `SupplyFunction`, `VMOutput`, `RoleList`, `SystemAccount`, `TxDataBuilder`), with the loops and early returns of the
  code. Each is proved equal to its specification: on success the state and the result are those of the specification,
  on failure the error is. After a failure the state is left to the caller, who reverts it in the original.
* **Machines.** `Network` has all shards and all messages in flight; its steps are local operations, sends, and
  deliveries in FIFO order per pair of shards. A delivery that fails records its metadata and sends the message back.
  `HandoffRuns` is the machine of creates, role changes and hand-offs, on which `Echoes` and `MultiShard` build; `Locks`
  is that of ordinary calls on one shard. `Deletions` takes a metadata deletion turn by turn through its three loops.
  The theorems about runs hold for every list of events.
* **What fixes each function.** `Acceptance` and `TransferAcceptance` give the exact condition under which a call of
  each function succeeds, in terms of roles, balances, locks, limits and gas, and what a create or an update writes.
  `Counting` and `Marks` say of any run, from its history alone, which records count and which flags are set; `Compact`
  says what each amount travels as, `Arrivals` which messages are executed, `ContractCalls` which contract is called
  with what, and `ParsedTransfers` that the parsers read what was moved.

### Assumptions

* `GoodMarshaller`: unmarshalling inverts marshalling, no marshalled token is the single byte 0, and one that carries
  metadata is longer than 32 bytes. `GoodShards`: every address belongs to a shard below `numShards` or to the
  metachain. `Witnesses.EnvironmentExists` gives an instance of both.
* Flags are constant over a run that starts from empty shards. `EraA`: records in the system account, metadata with
  every message, no empty NFT transfers. `EraB`: records in the system account, metadata to each shard once.
* Tokens named by calls pass `ValidToken`. A call has fewer than 2^64 arguments. An operation runs in the shard of the
  account whose tokens it saves.
* Where liquidity is counted, a wipe names a token or one nonce without a dash byte, and the decrease of liquidity on
  wipes is on. Where it is not, an added quantity carries no return-after-error flag and is not called by the system
  contract, because for such calls the lock of a frozen entry does not count.
* A hand-off in flight is delivered in another name than the system contract's, as line 158 of
  `dctNFTCreateRoleTransfer_test.go` does. The transfer itself names the system contract as its sender
  (`dctNFTCreateRoleTransfer.go:150-155`), and in that name both halves refuse it (`SystemContractCannotDeliver`).

### Where the code does not do what one might expect

* The wipe extractor inverts a storage key exactly for the nonces whose bytes contain no dash (`ExtractInvertsKey`), and
  a wipe keeps the counted liquidity right exactly for those, with its decrease switched on (`WipeSoundExactly`).
  `WipeCanMiscount` is an instance for the nonce 45.
* A hand-off inside one shard is served at once and also emitted. Its echo changes nothing if and only if, when it
  arrives, its receiver holds the role with the nonce that the echo names (`EchoChangesNothing`). After any orderly run
  one account still has custody if and only if the receiver has the role and nothing was created since the hand-off
  (`EchoKeepsCustodyExactly`), which is to say that the receiver neither created nor handed on, unless somebody handed
  the token back to it (`EchoHarmlessIfRested`). Otherwise a nonce is issued twice: by the receiver's next create if
  anything was created since (`LateEchoRepeats`), and by the creates of the receiver and of the account it handed on to
  (`EchoAfterHandOnRepeats`; `EchoDuringHandOnRepeats` where that hand-off is still in flight). `LateEchoHappens` and
  `EchoAfterHandOnHappens` are instances in an environment of era B.
* An update of metadata writes the record anew. In era A the record then never counts again, nor does one that a create
  writes over an older one (`CountedExactly`). In era B its flags start again with its own shard, so the metadata goes
  to every other shard once more (`FlaggedExactly`); other shards that have the older metadata keep it when it arrives.
* Granting the multi-shard role and taking it back both start the account's range anew. After a create, the next one
  then repeats a nonce (`RestartRepeats`, with an instance in `SecondGrantRepeats`).
* The transfer parser reads a multi-transfer at the source as at the destination exactly if the destination's address,
  as a number, does not fit into 64 bits (`MultiParsesAgree`); `ParsesCanDiffer` is an instance for a smaller one.
* A metadata deletion need not return. The loop over an interval that ends at 2^64 - 1 is never left
  (`IntervalLoopEnds`), and the index of the loop over the groups wraps around with an announced count. A call returns
  if and only if it neither comes back to a group nor reads, before its first error, an interval that ends at 2^64 - 1
  (`ReturnsExactly`); `[T, 2^63 - 1, 1, 1]` and `[T, 1, 1, 2^64 - 1]` do not, for every valid T (`CallCanRunForever`).
  A call that returns without an error has read what its groups announce exactly if their counts fit
  (`ReadsAnnouncedExactly`); two groups of 2^63 intervals are passed over (`CallCanPassOver`).
* Storage updates are read back exactly for the non-empty lists whose first offset is not empty (`ParseFormat`).

## Model

| member | source | states |
|---|---|---|
| Runs.RunIsSafe | builtInFunctions/dctDataStorage.go:259-643 | Over every run from empty shards: each shard keeps its era's invariant, every message in flight can be read, each channel delivers its messages with the records they need, no flag promises too much, and senders have the records of what they sent |
| Runs.LiquidityOverRuns | builtInFunctions/dctDataStorage.go:259-418 | Era A: for each shard, token and nonce > 0, no record means the shard's balances sum to 0, and a record with reserved bytes counts exactly that sum |
| Counting.CountedExactly | builtInFunctions/dctDataStorage.go:365-418 | Era A, over every run, for each shard, token and nonce > 0: unless an update, or a create over an older record, rewrote it, the record is there exactly while the shard holds some of the token, has reserved bytes and counts exactly what is held; a rewritten record stays and has none |
| Runs.AvailabilityOverRuns | builtInFunctions/dctDataStorage.go:147-155 | In both eras a holder's shard has the record with metadata; the liquidity update that follows a covered positive debit does not fail |
| Runs.FlagsAreSoundOverRuns | builtInFunctions/dctDataStorage.go:497-643 | Era B: if shard j's record is flagged for another shard d, then d has the metadata or a message from j to d in flight carries it, failed deliveries included |
| Marks.FlaggedExactly | builtInFunctions/dctDataStorage.go:365-546 | Era B, over every run: a shard has a record of an NFT exactly if something wrote one, and the record is flagged exactly for the shards that the history names: its own, the one that brought the metadata to a shard without it or in a failed delivery, and those it was sent to since; a create or an update starts again with its own |
| Marks.RecordFailedMarks | builtInFunctions/dctDataStorage.go:549-643 | A failed delivery writes exactly the records of what its message brought, flagged for the two shards |
| Runs.CompactItemsFindTheirRecord | builtInFunctions/dctDataStorage.go:365-418 | Era B: an amount that arrives without metadata finds a record at its receiver, or one brought by an earlier item of its message |
| Compact.CompactExactly | builtInFunctions/multiDCTNFTTransfer.go:402-449 | Era B: item i of a cross-shard multi-transfer, of a nonce > 0, travels as its bare amount if and only if its key was flagged for the destination before the call or is that of an earlier item, and the amount is not 1 and fits 32 bytes; otherwise it is that amount of the sender's entry with the metadata on record. Afterwards every key of the list is flagged |
| Compact.MultiMessageNames | builtInFunctions/multiDCTNFTTransfer.go:402-476 | The message of a multi-transfer has the number of transfers, for each its token and its nonce, plain amounts as they are, and the original call behind them |
| Compact.NextSendIsBare | builtInFunctions/dctDataStorage.go:497-546 | Era B: after one multi-transfer of an NFT to a shard, an amount of it in the next one to that shard travels bare where the amount may |
| Compact.NftCompactExactly | builtInFunctions/dctNFTTransfer.go:287-375 | Era B: a single NFT transfer to another shard sends the byte 0 if and only if the key was flagged for it and the amount is not 1, and otherwise the token with its metadata |
| Compact.SentExactly | builtInFunctions/dctDataStorage.go:497-546 | Era B: the answer whether metadata was sent is whether the flag of the destination's shard is set, and a recorded key is flagged afterwards |
| Arrivals.DeliveredExactly | builtInFunctions/multiDCTNFTTransfer.go:147-208 | Over every run, the oldest message of a channel is executed if and only if its receiver accepts the payment and none of its items is locked for it when it arrives; no record, count or balance ever makes it fail |
| Arrivals.ReturnedExactly | builtInFunctions/dctTransfer.go:217-276 | A message that comes back is credited to its sender, whatever is frozen or paused, if and only if the sender keeps none of its plain tokens as an NFT |
| Arrivals.CreditAllTaken | builtInFunctions/multiDCTNFTTransfer.go:165-208 | A list of items is credited if and only if each of them is taken as things are before the first: no credit locks or unlocks anything for a later one |
| Runs.Conservation | builtInFunctions/multiDCTNFTTransfer.go:165-208 | Over every run with fresh create nonces, the balances of all shards plus the amounts in flight equal created, added and minted less burned and wiped, key by key |
| Supplies.ApplyChanges | builtInFunctions/dctNFTBurn.go:67-122 | Each operation of a shard changes the sum of one key by what its arguments name, and of no other key |
| OperationsKeep.ApplyKeeps | builtInFunctions/dctNFTAddQuantity.go:76-131 | Each permitted operation of a shard keeps the invariant of its era |
| OperationsKeep.WipeSound | builtInFunctions/dctFreezeWipe.go:102-134 | A wipe of a readable nonce takes the wiped amount out of the counted liquidity |
| OperationsKeep.WipeSoundExactly | builtInFunctions/dctFreezeWipe.go:102-134 | Wiping a counted amount of an NFT keeps the count if and only if the decrease is switched on and the nonce's bytes contain no dash |
| Witnesses.WipeCanMiscount | builtInFunctions/dctFreezeWipe.go:102-134 | In an environment of era A with the decrease switched on, a wipe of the nonce 45 leaves a record that counts what nobody holds |
| NetworkSafe.PostedSafe | builtInFunctions/multiDCTNFTTransfer.go:402-494 | A shard that posts a message leaves the network safe: the message finds what it needs once those before it have arrived |
| NetworkSafe.TakenSafe | builtInFunctions/dctDataStorage.go:549-643 | A message may leave the network once its receiver has a record for all it brought |
| Deliveries.Delivered | builtInFunctions/multiDCTNFTTransfer.go:147-208 | A successful delivery keeps the receiver's invariant, raises its sums by what the items carry, and sets only the flags of the sender's shard for what was brought |
| Deliveries.FailedDelivery | builtInFunctions/dctDataStorage.go:549-643 | Recording a failed delivery moves no balance and leaves a record for everything the message brought |
| Deliveries.DeliversItems | builtInFunctions/multiDCTNFTTransfer.go:120-228 | Executing a message credits exactly the items that can be read off it, in order |
| Sends.MultiSent | builtInFunctions/multiDCTNFTTransfer.go:230-320 | A multi-transfer to another shard lowers the sums by what its message carries; in era B flags are set only for metadata in the message, and every bare amount was flagged before |
| Sends.NftSent | builtInFunctions/dctNFTTransfer.go:196-299 | The same for a single NFT transfer, with either form of its payload |
| Sends.FungibleSent | builtInFunctions/dctTransfer.go:83-186 | The same for a fungible transfer |
| Sends.SequentialEqualsBulk | builtInFunctions/multiDCTNFTTransfer.go:282-305 | A multi-transfer, with any repetition of tokens, moves per key the sum of the listed amounts, changes no other balance, and each sum was covered at the start |
| Moves.TransferAllEffect | builtInFunctions/multiDCTNFTTransfer.go:322-374 | The loop of one-by-one transfers moves the sums of the list and keeps all balances non-negative |
| Moves.TransferAllCovered | builtInFunctions/multiDCTNFTTransfer.go:334-337 | Success of the whole list implies that the starting balance covered each per-key sum |
| Liquidity.DebitedLiquiditySucceeds | builtInFunctions/dctDataStorage.go:270-305 | Era A: a covered positive debit never meets a missing record or a negative liquidity |
| Liquidity.HandSound | builtInFunctions/multiDCTNFTTransfer.go:358-371 | After the second half of a send nothing is left uncounted, in the same shard or for another one |
| Messages.MultiTransferRoundTrip | builtInFunctions/multiDCTNFTTransfer.go:402-476 | The message of a cross-shard multi-transfer reads back as the list of (token, nonce, amount) that was debited, with the same call, whichever encoding each item got |
| Messages.NftTransferRoundTrip | builtInFunctions/dctNFTTransfer.go:301-376 | The same for a single NFT transfer |
| ContractCalls.MultiCallArrives | builtInFunctions/multiDCTNFTTransfer.go:212-225 | Executing the message of a multi-transfer calls the contract it is for, from the original caller, with the suffix of the original call as function and arguments and with all gas provided; without a suffix, or for a plain account, all gas stays and nothing is called |
| ContractCalls.NftCallArrives | builtInFunctions/dctNFTTransfer.go:175-193 | The same for a single NFT transfer |
| ContractCalls.MultiSenderCalls | builtInFunctions/multiDCTNFTTransfer.go:456-494 | In its sender's shard a multi-transfer calls a destination there with its suffix and the gas left exactly if there is a suffix and the destination is a contract that may be called; to another shard the gas goes with the message exactly then |
| ContractCalls.NftSenderCalls | builtInFunctions/dctNFTTransfer.go:347-375 | The same for a single NFT transfer |
| ContractCalls.FungibleCalls | builtInFunctions/dctTransfer.go:127-186 | A fungible transfer calls a contract in this shard with its suffix and the gas that its cost leaves; a contract's transfer to another shard is emitted with all its arguments; nothing else is emitted |
| SentFlags.PackAllFlags | builtInFunctions/multiDCTNFTTransfer.go:415-449 | A packed message needs no record at its destination beyond those flagged before and those it brings |
| SentFlags.RecordFailedKeeps | builtInFunctions/dctDataStorage.go:549-643 | Recording a readable message never fails and loses no record |
| Messages.RecordsOnlyAtReceiver | builtInFunctions/dctDataStorage.go:549-585 | Nothing is recorded in another shard than the receiver's, for a message of the same shard, or where metadata goes with every message |
| HandoffRuns.NoncesAreUnique | builtInFunctions/dctNFTCreateRoleTransfer.go:87-243 | Over every run of creates, role changes and hand-offs to other accounts, with echoes in time and no overflow, nonces are issued in strictly rising order, one account at most may create, and its nonce, or that of the hand-off in flight, bounds every issued one |
| HandoffRuns.RunNumbered | builtInFunctions/dctNFTCreateRoleTransfer.go:87-243 | Every orderly run keeps custody and numbering, from any state that has them |
| Echoes.EchoChangesNothing | builtInFunctions/dctNFTCreateRoleTransfer.go:216-243 | The arrival of a hand-off changes no nonce and no role if and only if its receiver holds the role with the nonce it names |
| Echoes.PassPostsEcho | builtInFunctions/dctNFTCreateRoleTransfer.go:115-160 | A hand-off inside one shard makes the next account the owner and posts an echo that names the nonce it got |
| Echoes.EchoKeepsCustodyExactly | builtInFunctions/dctNFTCreateRoleTransfer.go:115-160 | Whatever creates, hand-offs and role changes come between a hand-off and its echo, one account has custody afterwards if and only if the receiver has the role and nothing was created |
| Echoes.EchoHarmlessIfRested | builtInFunctions/dctNFTCreateRoleTransfer.go:115-160 | If nobody hands back to the receiver, one account has custody after the echo if and only if the receiver neither created nor handed on since the hand-off |
| Echoes.NothingRepeatsAfterHarmlessEcho | builtInFunctions/dctNFTCreateRoleTransfer.go:115-160 | After such an echo no orderly run issues a nonce twice |
| Echoes.LateEchoRepeats | builtInFunctions/dctNFTCreateRoleTransfer.go:115-160 | After the echo the next create of its receiver repeats an issued nonce if and only if anything was created since the hand-off, whoever has custody |
| Echoes.EchoAfterHandOnRepeats | builtInFunctions/dctNFTCreateRoleTransfer.go:115-160 | An echo to an account that has handed on leaves two accounts with the role, and once both have created a nonce was issued twice |
| Echoes.EchoDuringHandOnRepeats | builtInFunctions/dctNFTCreateRoleTransfer.go:115-160 | The same for an account whose hand-on to another shard is still in flight, once it has arrived |
| Echoes.SystemContractCannotDeliver | builtInFunctions/dctNFTCreateRoleTransfer.go:68-84 | In the name of the system contract a hand-off is refused by both halves |
| Witnesses.LateEchoHappens | builtInFunctions/dctNFTCreateRoleTransfer.go:115-160 | In an environment of era B: a hand-off, a create, the echo and a create issue one nonce twice |
| Witnesses.EchoAfterHandOnHappens | builtInFunctions/dctNFTCreateRoleTransfer.go:115-160 | In an environment of era B: two hand-offs, the echo of the first and a create by each of its receiver and the last owner issue one nonce twice |
| HandoffRuns.GiveUpBooks | builtInFunctions/dctNFTCreateRoleTransfer.go:87-177 | Giving up leaves the old owner without the role and with nonce 0, moves both to a next owner in the same shard, and touches no other account or token |
| HandoffRuns.HandoffKeepsOtherRoles | builtInFunctions/dctNFTCreateRoleTransfer.go:87-243 | Neither half of a hand-off gives or takes any role but the create role |
| HandoffRuns.GrantBooks | builtInFunctions/dctRoles.go:44-97 | A change of roles touches the create role of one account and token at most, and its nonce exactly if the multi-shard role is named |
| HandoffRuns.WorkBooks | builtInFunctions/dctNFTCreate.go:250-267 | No operation but creates, role changes and hand-offs touches a nonce or a role |
| MultiShard.MultiShardNoncesDisjoint | builtInFunctions/dctRoles.go:66-105 | Over every run of creates, of role changes for any account and token, and of hand-offs that do not concern the two, two accounts with different last bytes, each given its range at any time before its first create and not again after it, that create fewer than 2^56 tokens each, never share a nonce and stay between the start of their range and 2^64 |
| MultiShard.GrantedOnceBeginsOnce | builtInFunctions/dctRoles.go:66-83 | An account that is granted the multi-shard role once, at any time, and creates only afterwards, meets the condition of these runs |
| MultiShard.IssuedFromStart | builtInFunctions/dctRoles.go:72-105 | Over the same runs the nonces of an account are the successors of the start of its range, in order |
| MultiShard.GrantSetsStart | builtInFunctions/dctRoles.go:72-83 | A change of roles in a run moves an account's nonce of the token exactly if it is about both and names the multi-shard role, and then to the start of its range |
| MultiShard.RestartRepeats | builtInFunctions/dctRoles.go:66-83 | Once the multi-shard role is granted or taken back again, the next create repeats a nonce of the account if and only if it had created before |
| Witnesses.SecondGrantRepeats | builtInFunctions/dctRoles.go:66-83 | In an environment of era B: a grant, a create, the grant again and a create issue one nonce twice |
| Roles.RolesAreABag | builtInFunctions/dctRoles.go:66-171 | Over every run of role calls the stored list is the folded bag, and the role check succeeds exactly for the members of the bag |
| Roles.RoleCallAccepted | builtInFunctions/dctRoles.go:44-97 | A change of roles succeeds if and only if no value is passed, a token and a role are named, the caller is the system contract, and the recipient has an address where the multi-shard role is named |
| Roles.GivenRolesFollow | builtInFunctions/dctRoles.go:66-97 | Roles that are given stand behind those held, in the order in which they are named |
| Roles.OthersChangeNothing | builtInFunctions/dctRoles.go:51-53 | A run of role calls leaves the state that its calls by the system contract alone leave: others change no role and no nonce |
| Roles.RangesAscend | builtInFunctions/dctRoles.go:101-105 | The ranges of nonces begin at 0 and stand one above the other in the order of the addresses' last bytes, 2^56 - 1 apart |
| Roles.DeleteRolesIsDifference | builtInFunctions/dctRoles.go:107-127 | deleteRoles computes the multiset difference |
| Roles.DeleteRolesKeepsOrder | builtInFunctions/dctRoles.go:107-118 | What deleteRoles leaves is a subsequence of the list |
| Roles.FirstOccurrenceGoes | builtInFunctions/dctRoles.go:107-127 | What deleteRoles deletes is the first occurrence of a role |
| Roles.RoleList.Delete | builtInFunctions/dctRoles.go:107-118 | The in-place loop equals the specification of deleteRoles |
| Roles.RoleList.AddNew | builtInFunctions/dctTransferRole.go:117-136 | The nested loops add exactly the new addresses and enforce the limit |
| Roles.AddressesAreABoundedSet | builtInFunctions/dctTransferRole.go:90-136 | Over every run the stored list has no duplicates, is within the limit, and is the set of the calls so far |
| Roles.AddedBehind | builtInFunctions/dctTransferRole.go:117-136 | New addresses stand behind the old ones, in the order in which they are named |
| Roles.TransferRoleConsultsTheSet | builtInFunctions/dctGlobalSettings.go:178-201 | The transfer-role lookup succeeds exactly if the sender or the destination is in that set |
| Deletions.ReturnsExactly | builtInFunctions/dctDeleteMetadata.go:105-192 | The three nested loops, turn by turn in 64 bits: a call returns if and only if the groups are left within as many rounds as there are arguments and no interval read before the first error ends at 2^64 - 1; that is, if and only if it does not come back to a group and does not get stuck |
| Deletions.StopsAsRead | builtInFunctions/dctDeleteMetadata.go:105-192 | Wherever a call stops, its error, or the records it leaves, are those that reading its arguments round by round gives |
| Deletions.DeletionIsExact | builtInFunctions/dctDeleteMetadata.go:105-192 | A call that returns without an error has removed exactly the nonces of the tokens it read, and changed no other record |
| Deletions.FittingDeletionIsExact | builtInFunctions/dctDeleteMetadata.go:105-192 | A call whose announced counts fit into 64 bits returns if and only if reading its list comes to no interval that ends at 2^64 - 1; it then succeeds exactly if the list can be read, and removes all that the list denotes |
| Deletions.ReadsAnnouncedExactly | builtInFunctions/dctDeleteMetadata.go:116-136 | A call that returns without an error has read what its groups announce if and only if no announced count leads around 64 bits |
| Metadata.SystemAccount.DeleteMetadata | builtInFunctions/dctDeleteMetadata.go:105-143 | The loop over groups, with its wrapping index, ends with the records or the error of the specification for every call that returns |
| Metadata.SystemAccount.DeleteList | builtInFunctions/dctDeleteMetadata.go:145-167 | The loop over interval pairs, with its wrapping end, stays in range and removes what the pairs it reads denote |
| Metadata.SystemAccount.DeleteInterval | builtInFunctions/dctDeleteMetadata.go:169-192 | The loop over nonces ends and removes exactly the keys of the interval |
| Deletions.IntervalLoopEnds | builtInFunctions/dctDeleteMetadata.go:182-189 | The turns of the loop over an interval lead out of it if and only if the interval does not end at 2^64 - 1 |
| Deletions.LeavesExactly | builtInFunctions/dctDeleteMetadata.go:116-136 | The groups are left if and only if they are left within as many rounds as there are arguments, and if and only if the loop neither comes back to a group nor reads an interval that ends at 2^64 - 1 |
| Deletions.RepeatsForever | builtInFunctions/dctDeleteMetadata.go:116-136 | A call with at least four arguments whose first group has a valid token and announces 2^63 - 1 intervals never returns |
| Deletions.SticksForever | builtInFunctions/dctDeleteMetadata.go:182-189 | A call whose first interval is read and ends at 2^64 - 1 never returns, whatever follows |
| Deletions.CallCanRunForever | builtInFunctions/dctDeleteMetadata.go:116-189 | One such call of either kind for every valid token |
| Deletions.UnreadIntervalReturns | builtInFunctions/dctDeleteMetadata.go:116-126 | The same interval behind an invalid token does no harm: the call returns with that error |
| Deletions.CallCanPassOver | builtInFunctions/dctDeleteMetadata.go:116-153 | Two groups of 2^63 intervals: the call succeeds and deletes nothing of what they announce |
| Metadata.AddedExactly | builtInFunctions/dctDeleteMetadata.go:195-256 | addMetadata succeeds if and only if every entry is well-formed, no key had metadata and no key repeats; it then describes exactly the listed keys |
| Metadata.SystemAccount.AddMetadata | builtInFunctions/dctDeleteMetadata.go:195-256 | The loop equals the specification of the additions |
| TransferParser.MultiParsesAgree | parsers/dctTransferParser.go:115-187 | Parsing the source arguments and the emitted ones gives the same receiver, transfers and call if and only if the destination's address is at least 2^64 as a number |
| TransferParser.MultiParsedExactly | parsers/dctTransferParser.go:115-187 | For every argument list: whether the first argument is the destination, whether the list can be parsed, and which token, nonce, type and amount each transfer is parsed as |
| TransferParser.ShortListsAreRefused | parsers/dctTransferParser.go:41-187 | Other functions and lists that are too short are refused; fungible and single NFT transfers are parsed exactly if they are long enough |
| Witnesses.ParsesCanDiffer | parsers/dctTransferParser.go:115-187 | A multi-transfer to an address that is a number of 64 bits is parsed in two ways |
| TransferParser.NftParsesAgree | parsers/dctTransferParser.go:85-113 | For a single NFT transfer the two parses always agree |
| ParsedTransfers.NftParseIsTransfer | parsers/dctTransferParser.go:85-113 | The parse of a single NFT transfer, in the sender's shard and of its message, names the receiver, the call, and one transfer whose key and value are what the sender lost and a receiver here got |
| ParsedTransfers.FungibleParseIsTransfer | parsers/dctTransferParser.go:59-83 | The same for a fungible transfer on either side |
| ParsedTransfers.MultiParseIsTransfer | parsers/dctTransferParser.go:115-187 | The same for a multi-transfer in its sender's shard, where the destination's address is at least 2^64: per key the parsed values add up to what was moved, and the call is the suffix |
| ParsedTransfers.MultiMessageParseIsTransfer | parsers/dctTransferParser.go:115-187 | The same for the message of a multi-transfer, whatever the address |
| TransferParser.ParseMultiTransfer | parsers/dctTransferParser.go:115-160 | Equals `TransferParser.ParseMulti` for every receiver and argument list: which first argument is an address, how many transfers, which call, or which error |
| TransferParser.ParseTransferList | parsers/dctTransferParser.go:149-187 | The loop that fills the list of transfers equals the specification for lists of any length |
| Gas.MultiGasConserved | builtInFunctions/multiDCTNFTTransfer.go:255-275 | Gas left, gas handed on, the cost per transfer and the cost per copied byte add up to the gas provided; the copied bytes are those of the marshalled tokens in the message |
| Gas.NftGasConserved | builtInFunctions/dctNFTTransfer.go:287-375 | The same for a single NFT transfer |
| Gas.PackAllGas | builtInFunctions/multiDCTNFTTransfer.go:435-441 | Packing charges every marshalled byte once and never more than is left |
| Gas.TimesWraps | builtInFunctions/multiDCTNFTTransfer.go:255-258 | The cost of all transfers and of the copied bytes is computed modulo 2^64 |
| Gas.FungibleGasConserved | builtInFunctions/dctTransfer.go:188-215 | A fungible transfer leaves or hands on all gas but its own cost |
| ContractCalls.FungibleGasAtDestination | builtInFunctions/dctTransfer.go:128-170 | A fungible transfer from another shard hands on to a contract call what the cost leaves, keeps all gas of a callback, and keeps none otherwise |
| Keys.KeyOfInjective | builtInFunctions/dctNFTCreate.go:269-271 | Over valid tokens a storage key determines the token and the nonce |
| Keys.TokenForm | common.go:33-89 | A token is valid exactly if it is a ticker of three to ten upper-case letters and digits, a dash, and six lower-case hexadecimal digits |
| Keys.KeyReads | builtInFunctions/dctNFTCreate.go:269-271 | A key is the token with the nonce behind it, most significant byte first and without leading zeros |
| Liquidity.PlainKey | common.go:33-89 | A valid token's own key is never the key of one of its or another token's nonces |
| Keys.ExtractInvertsKey | builtInFunctions/logsAndEvents.go:46-60 | The wipe extractor inverts a key if and only if the nonce's bytes contain no dash |
| Keys.ExtractAnywhere | builtInFunctions/logsAndEvents.go:46-60 | On any argument the extractor reads the part behind the first dash, up to a second one: six bytes for the token and the rest for the nonce, or nothing if it is too short |
| Locks.LockedOverRuns | builtInFunctions/dctTransfer.go:252-276 | Over every run of ordinary calls without the return flag, an entry that is frozen, whose collection is frozen or whose token is paused keeps its balance and its lock |
| Locks.FirmlyLockedOverRuns | builtInFunctions/dctDataStorage.go:197-256 | Over every run that has creates as well, a paused token and a frozen collection keep balances and locks |
| Locks.SendSteady | builtInFunctions/multiDCTNFTTransfer.go:506-520 | No transfer changes a locked entry of its sender or of its destination |
| Limits.LimitedMultiTransfer | builtInFunctions/dctTransfer.go:329-359 | Without the return flag, every limited token of a multi-transfer that succeeds had, when it started, a sender or a destination that is a transfer address or holds the transfer role in this shard |
| Limits.LimitedNftTransfer | builtInFunctions/dctNFTTransfer.go:276-284 | The same for a single NFT transfer, which is checked after both balances have changed |
| Limits.LimitedFungibleTransfer | builtInFunctions/dctTransfer.go:109-117 | The same for a fungible transfer in its sender's shard |
| Limits.CheckedMayMove | builtInFunctions/dctTransfer.go:329-359 | The check passes if and only if the token is not limited or one of the two may move it |
| Locks.OnlyWipeTakes | builtInFunctions/dctFreezeWipe.go:102-125 | A wipe succeeds only on a frozen entry, deletes it, and changes no other entry |
| Acceptance.PlanAccepted | builtInFunctions/dctNFTCreate.go:103-207 | A create is planned if and only if the call may create: roles, quantity, royalties, gas and, for a contract that creates for its caller, the named creator; the plan has the next nonce and the name, royalties, hash, attributes, URIs and creator that the call gives |
| Acceptance.CreateAccepted | builtInFunctions/dctNFTCreate.go:103-234 | A create that may be planned succeeds if and only if nothing is locked; then the creator holds the quantity of the next nonce, the record has that metadata, and the nonce is saved |
| Acceptance.TotalLengthAdds | builtInFunctions/dctNFTCreate.go:154-161 | The stored bytes that a create or an update pays for are those of all arguments together |
| Acceptance.AddQuantityAccepted | builtInFunctions/dctNFTAddQuantity.go:76-131 | Adding succeeds if and only if the caller has the role, holds the nonce, pays the gas and has nothing locked |
| Acceptance.BurnAccepted | builtInFunctions/dctNFTBurn.go:67-133 | Burning succeeds if and only if the caller has the role or everybody may burn, holds the amount, pays the gas and has nothing locked |
| Acceptance.AddUriAccepted | builtInFunctions/dctNFTAddUri.go:77-137 | URIs are added if and only if the caller has the role and a described token that is not locked, and pays the gas; they stand behind the others and nothing else of the metadata changes |
| Acceptance.UpdateAttributesAccepted | builtInFunctions/updateNFTAttributes.go:77-127 | The same for attributes, which replace the old ones |
| Acceptance.LocalMintAccepted | builtInFunctions/dctLocalMint.go:64-98 | Minting succeeds if and only if the caller has the role, names a positive amount of permitted length, pays the gas, and nothing is locked |
| Acceptance.LocalBurnAccepted | builtInFunctions/dctLocalBurn.go:64-105 | Burning plain tokens succeeds if and only if the caller has the role or everybody may burn, the balance covers the amount, the gas is paid, and nothing is locked |
| Acceptance.FreezeAccepted | builtInFunctions/dctFreezeWipe.go:57-99 | Freezing succeeds if and only if the system contract names one token |
| Acceptance.WipeAccepted | builtInFunctions/dctFreezeWipe.go:57-134 | A wipe succeeds if and only if the system contract names a frozen entry and, with the decrease switched on, what the extractor reads can be counted down |
| Acceptance.HandOffAccepted | builtInFunctions/dctNFTCreateRoleTransfer.go:53-113 | Giving up is for the system contract alone and names an address of full length; a hand-off is for anybody else |
| Acceptance.AddressesAccepted | builtInFunctions/dctTransferRole.go:64-136 | A change of transfer addresses succeeds if and only if the system contract makes it on the system account and the list stays within the limit |
| TransferAcceptance.FungibleAccepted | builtInFunctions/dctTransfer.go:83-186 | A fungible transfer succeeds if and only if each side that is in this shard accepts its half |
| TransferAcceptance.TransferOneAccepted | builtInFunctions/multiDCTNFTTransfer.go:322-374 | One transfer of a list succeeds if and only if the sender holds the positive amount and it is not locked, a limited token has a permitted party, and a destination in this shard has nothing locked |
| TransferAcceptance.MultiTransferAccepted | builtInFunctions/multiDCTNFTTransfer.go:230-320 | A multi-transfer succeeds if and only if its arguments hold the announced list, the destination is another address that accepts it, each transfer succeeds in turn, and the gas covers them and what is copied |
| TransferAcceptance.NftTransferAccepted | builtInFunctions/dctNFTTransfer.go:196-299 | A single NFT transfer succeeds if and only if the call, the sender's entry, the limits, a destination in this shard and the gas for a copy all permit it |
| SplitStorage.SaveThenRead | builtInFunctions/dctDataStorage.go:316-418 | A positive save of an NFT with metadata reads back with its value, type and properties, and with the metadata saved or the metadata on record |
| SplitStorage.SaveThenReadUnsplit | builtInFunctions/dctDataStorage.go:316-363 | With the storage in the system account switched off, a positive save is read back whole from the account |
| SplitStorage.NewRecordCounts | builtInFunctions/dctDataStorage.go:396-451 | Era A: a new record counts, unless the account still keeps the token with its metadata and the flag leaves such tokens out |
| SplitStorage.SaveLeavesOthers | builtInFunctions/dctDataStorage.go:122-156 | A save changes no other holding, and the metadata of no other token |
| Wire.ParsePrint | parsers/callArgsParser.go:15-74 | ParseData inverts the printer if and only if the function name is non-empty and has no separator |
| Wire.ParsedExactly | parsers/callArgsParser.go:15-74 | ParseData accepts exactly a non-empty function name and hexadecimal texts behind separators |
| Wire.ParsedAs | parsers/callArgsParser.go:15-74 | Such data is parsed as that name and, text by text, as the bytes that its digits stand for, in either case of letters |
| Wire.PrintSnoc | builtInFunctions/dctTransfer.go:188-199 | Each argument is printed in hexadecimal behind a separator and what was printed before it |
| Wire.HexDigits | builtInFunctions/dctTransfer.go:188-199 | Each byte is written as its two hexadecimal digits, the upper half first |
| Tokens.AddressForms | address.go:28-48 | A contract's address has more than ten bytes of which the first eight are zero; a system account's begins with thirty bytes 255 |
| Bytes.BigEndian | builtInFunctions/multiDCTNFTTransfer.go:199 | The first byte of a number is the most significant |
| Bytes.ToFromBytes | builtInFunctions/multiDCTNFTTransfer.go:443-447 | A number is written in one way only, without leading zeros |
| Wire.ParseCallData | parsers/callArgsParser.go:15-74 | The parser's loop equals the specification |
| Wire.EncodeCall | builtInFunctions/dctNFTTransfer.go:414-441 | The loop that prints the data of an output transfer equals the specification of the printer |
| Wire.TxDataBuilder.ToString | txDataBuilder/builder.go:36-43 | What the builder prints is read back as its function and its arguments |
| Wire.TxDataBuilder.AddBytes | txDataBuilder/builder.go:84-89 | Adding bytes appends one argument and changes nothing else |
| StorageUpdates.ParseFormat | parsers/storageUpdatesParser.go:18-63 | The parser inverts the printer if and only if the list is non-empty and its first offset is |
| StorageUpdates.ParsedExactly | parsers/storageUpdatesParser.go:18-48 | The parser accepts exactly an even number of hexadecimal texts between separators, the first not empty, after one leading separator at most |
| StorageUpdates.FormatParse | parsers/tokenize.go:8-33 | Printing a successful parse gives the trimmed input in lower case |
| StorageUpdates.GetStorageUpdates | parsers/storageUpdatesParser.go:18-48 | The parser's loop equals the specification |
| StorageUpdates.CreateDataFromStorageUpdate | parsers/storageUpdatesParser.go:50-63 | The printer's loop equals the specification |
| Ledger.ShardLedger.GetOnDestination | builtInFunctions/dctDataStorage.go:122-156 | Equals `Storage.Read` on every state: the entry, with the metadata of its record where there is one, and whether it is new |
| Ledger.ShardLedger.CheckFrozenPauseProperties | builtInFunctions/dctDataStorage.go:197-256 | Equals `Storage.CheckProperties`: frozen entry, paused collection, paused nonce and frozen collection, in this order and with their errors |
| Ledger.ShardLedger.AddToLiquidity | builtInFunctions/dctDataStorage.go:259-313 | Equals `Storage.AddLiquidity` on every state: the record's value changes by the amount, the record goes at zero, stops counting if it is old, and an error says that it is missing or would go below zero |
| Ledger.ShardLedger.SaveNFT | builtInFunctions/dctDataStorage.go:316-363 | Equals `Storage.SaveToken` on every state: checks, record and account entry after a save, or the first error |
| Ledger.ShardLedger.SaveMetaDataOnSystem | builtInFunctions/dctDataStorage.go:365-451 | Equals `Storage.SaveMetaData`: which record a save or a failed delivery writes, for each flag combination, including shards out of range |
| Ledger.ShardLedger.WasSent | builtInFunctions/dctDataStorage.go:497-546 | Equals `Storage.WasAlreadySent`: the answer, and the destination's flag set where it was not, with short flag lists extended by its copying loop |
| Ledger.ShardLedger.SaveMetaDataOf | builtInFunctions/dctDataStorage.go:606-643 | The loop over the transfers of a failed message equals `Messages.RecordTriples` |
| Ledger.ShardLedger.SaveFailedMetaData | builtInFunctions/dctDataStorage.go:549-604 | Equals `Messages.RecordFailed` for every message, readable or not |
| Ledger.ShardLedger.AddToDCTBalance | builtInFunctions/dctTransfer.go:217-250 | Equals `Storage.AddToBalance`: the balance changes by the amount, an empty entry goes, or the error that forbids it |
| TransferFunctions.TransferFunction.AddNFTToDestination | builtInFunctions/multiDCTNFTTransfer.go:497-532 | Equals `Transfers.AddToDestination`: a credit, with the token's value raised in place and handed back |
| TransferFunctions.TransferFunction.TransferOneToken | builtInFunctions/multiDCTNFTTransfer.go:322-374 | Equals `Transfers.TransferOne`: one debit with its credit or its liquidity decrease, or the first error |
| TransferFunctions.TransferFunction.TransferTokens | builtInFunctions/multiDCTNFTTransfer.go:282-306 | The loop of transfers equals `Transfers.TransferAll` for lists of any length |
| TransferFunctions.TransferFunction.PackTransfers | builtInFunctions/multiDCTNFTTransfer.go:402-449 | The loop that packs and charges equals `Transfers.PackAll` for lists of any length |
| TransferFunctions.TransferFunction.ProcessMultiOnSender | builtInFunctions/multiDCTNFTTransfer.go:230-320 | Equals `Transfers.MultiTransferOnSender` for every state and call: output, new state, or error |
| TransferFunctions.TransferFunction.CreditTransfers | builtInFunctions/multiDCTNFTTransfer.go:165-208 | The loop of credits equals `Transfers.DeliverAll` for lists of any length |
| TransferFunctions.TransferFunction.ProcessMultiOnDestination | builtInFunctions/multiDCTNFTTransfer.go:120-228 | Equals `Transfers.MultiTransferOnDestination` for every state and call |
| TransferFunctions.TransferFunction.ProcessNftOnSender | builtInFunctions/dctNFTTransfer.go:196-299 | Equals `Transfers.NftTransferOnSender` for every state and call |
| TransferFunctions.TransferFunction.ProcessNftOnDestination | builtInFunctions/dctNFTTransfer.go:120-194 | Equals `Transfers.NftTransferOnDestination` for every state and call |
| TransferFunctions.TransferFunction.ProcessFungible | builtInFunctions/dctTransfer.go:83-186 | Equals `Transfers.FungibleTransfer` for every state and call, on either side or on both |
| TransferFunctions.VMOutput.Emit | builtInFunctions/multiDCTNFTTransfer.go:456-494 | Equals `Transfers.Emit`: the message or contract call, and the gas it takes along |
| SupplyFunctions.SupplyFunction.CreateNFT | builtInFunctions/dctNFTCreate.go:103-234 | Equals `Supply.Create` for every state and call: checks, save, liquidity, nonce |
| SupplyFunctions.SupplyFunction.AddNFTQuantity | builtInFunctions/dctNFTAddQuantity.go:76-131 | Equals `Supply.AddQuantity` for every state and call |
| SupplyFunctions.SupplyFunction.BurnNFT | builtInFunctions/dctNFTBurn.go:67-122 | Equals `Supply.Burn` for every state and call |
| SupplyFunctions.SupplyFunction.WipeEntry | builtInFunctions/dctFreezeWipe.go:102-134 | Equals `Supply.Wipe` for every state and call |
| SupplyFunctions.SupplyFunction.SetFreeze | builtInFunctions/dctFreezeWipe.go:136-153 | Equals `Supply.ToggleFreeze` for every state and call |
| SupplyFunctions.SupplyFunction.ChangeRoles | builtInFunctions/dctRoles.go:44-97 | Equals `Roles.SetRoles` for every state and call, with the in-place role list and the search for the multi-shard role |
| SupplyFunctions.SupplyFunction.ChangeAddresses | builtInFunctions/dctTransferRole.go:64-115 | Equals `Roles.SetAddresses` for every state and call, the check of the system account included |
| GlobalSettings.SettingsAreLastSet | builtInFunctions/dctGlobalSettings.go:68-131 | Over every run of operations of any kind, each setting of each token is what the last accepted call for it said, or what it was at the start |
| GlobalSettings.ToggleSets | builtInFunctions/dctGlobalSettings.go:68-131 | A call is accepted exactly if the system contract names one token to the system account; it then changes one setting of that token, and neither another setting, another token, nor an account |
| SupplyFunctions.SupplyFunction.ChangeSetting | builtInFunctions/dctGlobalSettings.go:68-131 | The method succeeds exactly on accepted calls, and then one setting of one token is set and no other setting of any token changes |
| GlobalSettings.SettingsRoundTrip | builtInFunctions/dctMetaData.go:27-56 | Settings are read back from their two bytes as they were stored, and bytes are stored back exactly if they set no other bit |
| GlobalSettings.FreezeSets | builtInFunctions/dctFreezeWipe.go:136-153 | Freezing and unfreezing set the lock of one entry and change no balance |
| SupplyFunctions.SupplyFunction.GiveUpCreateRole | builtInFunctions/dctNFTCreateRoleTransfer.go:87-164 | Equals `Handoff.GiveUp` for every state and call, the emitted message included |
| SupplyFunctions.SupplyFunction.ReceiveCreateRole | builtInFunctions/dctNFTCreateRoleTransfer.go:216-243 | Equals `Handoff.Receive` for every state and call |

## Left out

- Payable checks: whether an account accepts a payment is a parameter of each call.
- Logs, return codes, the locked gas and the call type of an output transfer, and the value that calls pass along.
- The trie, the journal, account loading and marshalling errors of stored data; an entry is a token value. Two loads of
  the same account are one account, so a hand-off to the owner itself is not modelled faithfully and is excluded.
- Byte prefixes of storage keys: tokens, nonces, roles, settings and transfer addresses are separate maps, so a record
  is never read as a setting.
- Capacity and aliasing of Go slices, and the allocation of a list for a count that exceeds the arguments, which is an
  index error here.
- Metachain destinations in the flags: their messages stay in flight and count as such.
- Transitions between eras, and tokens from before the split of the storage: a run starts from empty shards.
- Deletion and addition of metadata inside the network machine; they have their own properties.
- A failed delivery in the network machine sends its message back unchanged, marked as a return; fees of the return are
  not part of this model.
- dctNFTAddUri, updateNFTAttributes, dctLocalMint and dctLocalBurn are specifications without a method of their own.
- The gas that functions other than the transfers leave.
- dctBurn, keyValueStorage, user names, owner change, developer rewards, relayed transactions, code metadata, the
  remaining one-line methods of the data builder, constructors, gas-schedule updates and the function container.
- Runs.Conservation: asks that a create's nonce is one its creator holds nothing of, because a create overwrites the
  entry it writes.
- HandoffRuns.NoncesAreUnique: the system contract decides who is told to hand on; a hand-off is told to the account
  that holds the role, names another account, and the token's create roles are given and taken in no other way.
- Echoes.EchoHarmlessIfRested: asks that nobody hands back to the receiver, because a token that comes back without a
  create in between makes the echo harmless again; `EchoKeepsCustodyExactly` has no such condition.
- MultiShard.MultiShardNoncesDisjoint: neither of the two accounts hands the token on or has it handed to it, because a
  hand-off moves a nonce out of its account's range.
- Acceptance.CreateAccepted: asks that the creator's shard has its place among the flags, and so do the other members of
  `Acceptance` and `TransferAcceptance` that save an NFT; in the metachain the flags have no place for the shard.
- Locks.LockedOverRuns: calls with the return flag skip the locks in the code. A create checks the pause and the frozen
  collection but does not look at the entry it overwrites, so creates are left to `FirmlyLockedOverRuns`.
- Locks.FirmlyLockedOverRuns: asks that no create's nonce wraps around to 0, which is no nonce of a collection.
