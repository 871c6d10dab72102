# Block Constellation client core, in Dafny

Block Constellation is a Bitcoin (sBTC) game on the Stacks chain. Players stake
sats on one of 24 constellations during a cycle, and the winning constellation's
stakers share the prize. This project models the core of its Angular client and
proves properties of that model:

- **Contract client** (`ContractService`, `ClarityUtil`):
  - the decoders that turn read-only contract answers into typed records, with their zero/empty fallbacks, their `parseInt(...) || 0` coercions and the TypeErrors they can throw;
  - the argument and post-condition lists of the `allocate`, `claim-reward` and `claim-referral-reward` calls;
  - the `u`-prefixed uint reader, the ResponseOk extractor and the Stacks address validator.
- **Allocation tracker** (`AllocateStatus`). It keeps the submitted allocations and their last known status. It refreshes the pending ones from fetched statuses, emitting one notification per change. It drops completed allocations older than a day, and answers the status and notification queries.
- **Stake forms** (`StakeRules`, `Game`, `GameStakeAction`, `GameCurrent`):
  - the 1000-sat minimum, the submit guard, and the clamps of the stake buttons and of a balance refresh;
  - the game page's cards, allocation summary and block countdown;
  - the stake drawer's submit, status lines and amount formatting;
  - the current-round panel with its delayed deselection.
- **Notification panel** (`TransactionNotifications`): status labels, classes and icons, "n units ago" text, the collapsed view of five, and local dismissal.
- **Refer-a-friend panel** (`GameReferFriend`): the referral link, the reward check and the claim flag.
- **Bitcoin price cache** (`Binance`): a two-minute cache, one shared request in flight, and the expiry countdown.

State the source updates in place is modelled as classes whose methods carry
`modifies` frames. This covers the page components and the tracker. The game
page's constellation list is an `array` that the page updates card by card.
Pure computations are functions with contracts; most also have lemmas about them.

Asynchronous calls (contract reads and writes, the balance query, the status
fetches, the price request) are split in two. A method starts the call. Other
methods model its completions, and take the outcome as parameters. Timers are
methods named after the timer that fires them. The clock is a parameter `now`,
in milliseconds.

JavaScript values that reach the decoders are the datatype `ContractService.Json`.
Truthiness, `String(v)` and `parseInt` are modelled on it:

- `parseInt` is an optional sign followed by the longest run of digits; `None` stands for NaN.
- Numbers are unbounded integers.
- The SDK's `cvToValue` is a function parameter `cv`, because its behaviour is not part of this model.

## Model

| member | source | states |
|---|---|---|
| Decimal.NatToString | block-constellation-ui/src/app/libs/block-constellation-contract.service.ts:129 | the decimal text of a natural is non-empty and all digits, and starts with `0` only for 0 |
| Decimal.IntToString | block-constellation-ui/src/app/pages/game/game.component.ts:239 | `String(i)`: non-empty, starting with `-` exactly for a negative integer |
| Decimal.ParseInt | block-constellation-ui/src/app/libs/block-constellation-contract.service.ts:129 | `parseInt` is NaN exactly when no digit follows the optional sign; a value after `-` is not positive, otherwise not negative |
| Decimal.ParseIntDigitsPrefix | block-constellation-ui/src/app/libs/block-constellation-contract.service.ts:129 | any run of digits, leading zeros included, followed by a non-digit or nothing, reads as the run's value |
| Decimal.ParseSignedDigitsPrefix | block-constellation-ui/src/app/libs/block-constellation-contract.service.ts:129 | the same after a sign: `-` negates the run's value and `+` keeps it |
| Decimal.SignedParse | block-constellation-ui/src/app/libs/block-constellation-contract.service.ts:129 | a sign in front of text that reads as `n` gives `-n` or `n` |
| Decimal.ParseIntRoundTrip | block-constellation-ui/src/app/libs/block-constellation-contract.service.ts:464 | `parseInt(String(i)) == i` for every integer |
| Decimal.ParseNatPrefix | block-constellation-ui/src/app/shared/components/transaction-notifications/transaction-notifications.component.ts:134 | `parseInt` of a natural's digits followed by a non-digit reads the natural |
| Decimal.ParseNegatedPrefix | block-constellation-ui/src/app/shared/components/transaction-notifications/transaction-notifications.component.ts:134 | `parseInt` of `-`, a natural's digits and a non-digit reads the negated natural |
| Decimal.ParseIntPrefix | block-constellation-ui/src/app/shared/components/transaction-notifications/transaction-notifications.component.ts:134 | `parseInt` of an integer's text followed by a non-digit reads the integer |
| Decimal.ParseUnsignedRoundTrip | block-constellation-ui/src/app/libs/clarity.util.ts:39 | the digits of a natural parse back to it |
| Decimal.ParseUnsignedPrefix | block-constellation-ui/src/app/libs/clarity.util.ts:39 | digits followed by a non-digit parse to the digits' value (longest-prefix rule) |
| Decimal.NatToStringValue | block-constellation-ui/src/app/libs/clarity.util.ts:39 | the digit string of `n` denotes `n` |
| ClarityUtil.ConvertUIntToNumber | block-constellation-ui/src/app/libs/clarity.util.ts:37-42 | throws exactly when the text does not start with `u` |
| ClarityUtil.ConvertUIntRoundTrip | block-constellation-ui/src/app/libs/clarity.util.ts:37-42 | `u<digits of n>` reads back as `n` |
| ClarityUtil.ExtractResponse | block-constellation-ui/src/app/libs/clarity.util.ts:51-58 | succeeds exactly on ResponseOk and returns its payload; otherwise the fixed error |
| ClarityUtil.IsValidStacksAddress | block-constellation-ui/src/app/libs/clarity.util.ts:60-83 | true exactly when the address has 40 characters, an SP/SM/ST/SN prefix and a Base58 body; any other length is rejected |
| ClarityUtil.ValidAddressPrefix | block-constellation-ui/src/app/libs/clarity.util.ts:66-70 | a valid address starts with `S` followed by one of `P`, `M`, `T`, `N` |
| ClarityUtil.Base58CharIsAlphabet | block-constellation-ui/src/app/libs/clarity.util.ts:74-75 | the character test agrees with membership in the 58-character Base58 alphabet |
| ClarityUtil.AmbiguousCharactersRejected | block-constellation-ui/src/app/libs/clarity.util.ts:74-79 | a body character 0, O, I or l makes an address invalid |
| ClarityUtil.RejectsOwnContractAddress | block-constellation-ui/src/app/libs/clarity.util.ts:62 | the game's own 41-character contract address is rejected, and so is its 40-character truncation, whose body holds a `0` |
| ClarityUtil.C32AcceptsOwnContractAddress | block-constellation-ui/src/app/libs/clarity.util.ts:60-83 | the address check with the c32 alphabet and 41 characters accepts the game's own contract address |
| ClarityUtil.C32RejectsOutsideAlphabet | block-constellation-ui/src/app/libs/clarity.util.ts:60-83 | that check still refuses a body holding `I`, `L`, `O`, `U` or `l` |
| ContractService.Get | block-constellation-ui/src/app/libs/block-constellation-contract.service.ts:258 | `v?.key` is the field when present and undefined otherwise |
| ContractService.FalsyValues | block-constellation-ui/src/app/libs/block-constellation-contract.service.ts:122 | falsy exactly for `undefined`, `null`, `false`, `0` and `""` |
| ContractService.JsString | block-constellation-ui/src/app/libs/block-constellation-contract.service.ts:129 | `String(v)`: a number prints as text `parseInt` reads back as the number; `undefined`, `null`, booleans and objects print as text it reads as NaN |
| ContractService.ParseIntOr0 | block-constellation-ui/src/app/libs/block-constellation-contract.service.ts:129 | `parseInt(v) \|\| 0`: a number reads as itself; a missing field, `null`, a boolean or an object reads as 0; text reads as its `parseInt`, and as 0 when that is NaN |
| ContractService.OrZero | block-constellation-ui/src/app/libs/block-constellation-contract.service.ts:134-137 | `v \|\| 0` is `v` when `v` is truthy and `0` when it is falsy |
| ContractService.ParseIntOr0OfDigits | block-constellation-ui/src/app/libs/block-constellation-contract.service.ts:129 | `parseInt("123") \|\| 0` is 123 for the SDK's uint text |
| ContractService.NumField | block-constellation-ui/src/app/libs/block-constellation-contract.service.ts:256-264 | `parseInt(d[key]?.value) \|\| 0`: the number in the field's `.value`, and 0 when the field is not an object holding a `.value` |
| ContractService.ParseAllocationItems | block-constellation-ui/src/app/libs/block-constellation-contract.service.ts:128-130 | succeeds exactly when no element is null/undefined; then one parsed value per element, in order |
| ContractService.AllocationList | block-constellation-ui/src/app/libs/block-constellation-contract.service.ts:126-131 | `[]` when `.value` is falsy; the parsed elements when it is an array; a TypeError exactly when `.value` is truthy and not an array, or an element is nullish |
| ContractService.DecodeCycle | block-constellation-ui/src/app/libs/block-constellation-contract.service.ts:120-143 | empty answer gives the zero record with `prizeClaimed` undefined; otherwise it fails exactly when the list fails, and carries the parsed list; `allocationClaimed`, `prize` and `prizeClaimed` are each `cv` of their field, or 0 when that is falsy; the claimed alias equals the claimed field |
| ContractService.ClaimedStatus | block-constellation-ui/src/app/libs/block-constellation-contract.service.ts:172-180 | `claimed` is true exactly for `true` or an object whose `.value` is `true` |
| ContractService.DecodeAllocatedByUser | block-constellation-ui/src/app/libs/block-constellation-contract.service.ts:160-188 | empty answer gives `{false, []}`; otherwise the claimed rule and the parsed list, failing exactly when the list fails |
| ContractService.DecodeAllocatedByUserRoundTrip | block-constellation-ui/src/app/libs/block-constellation-contract.service.ts:160-188 | an encoded allocation record, flag plain or wrapped, decodes to its flag and list |
| ContractService.DecodeReferralReward | block-constellation-ui/src/app/libs/block-constellation-contract.service.ts:203-212 | empty answer gives `{0, 0}`; with a `.value`, `amount` and `blockUpdate` are each `cv` of their field, or 0 when that is falsy; a missing `.value` gives the `cv(0)` fallbacks |
| ContractService.DecodeCycleStatus | block-constellation-ui/src/app/libs/block-constellation-contract.service.ts:242-279 | no `.value` gives the default status; otherwise it fails exactly when the list fails and has the parsed fields |
| ContractService.DecodeCycleStatusRoundTrip | block-constellation-ui/src/app/libs/block-constellation-contract.service.ts:242-279 | the encoding of any status with natural fields decodes back to it |
| ContractService.UserClaimed | block-constellation-ui/src/app/libs/block-constellation-contract.service.ts:324 | `user-claimed` counts only when it is exactly `true` |
| ContractService.UserClaimedIgnoresWrappedBool | block-constellation-ui/src/app/libs/block-constellation-contract.service.ts:174-178 | a wrapped `{value: true}` flag is true under the `claimed` rule but false under the `user-claimed` rule |
| ContractService.WrappedClaimReadsFalse | block-constellation-ui/src/app/libs/block-constellation-contract.service.ts:324 | a wrapped `true` in `user-claimed` decodes as not claimed, in both user-status decoders |
| ContractService.UserClaimedIntended | block-constellation-ui/src/app/libs/block-constellation-contract.service.ts:324 | claimed exactly when `user-claimed` is `true` bare or wrapped |
| ContractService.UserClaimedIntendedReadsBoth | block-constellation-ui/src/app/libs/block-constellation-contract.service.ts:324 | a bare and a wrapped boolean both read back as that boolean |
| ContractService.DecodeCycleUserStatus | block-constellation-ui/src/app/libs/block-constellation-contract.service.ts:296-342 | default without `.value`; otherwise fails exactly when a list fails; `userClaimed` only from a literal `true` |
| ContractService.DecodeCycleUserStatusRoundTrip | block-constellation-ui/src/app/libs/block-constellation-contract.service.ts:296-342 | the encoding of any cycle-user status with natural fields decodes back to it, with `user-claimed` encoded as a bare boolean |
| ContractService.DecodeCurrentCycleUserStatus | block-constellation-ui/src/app/libs/block-constellation-contract.service.ts:357-403 | as for the cycle-user status, without the winning constellation |
| ContractService.DecodeCurrentCycleUserStatusRoundTrip | block-constellation-ui/src/app/libs/block-constellation-contract.service.ts:357-403 | the encoding of any current-cycle-user status with natural fields decodes back to it, with `user-claimed` encoded as a bare boolean |
| ContractService.DecodeCurrentCycle | block-constellation-ui/src/app/libs/block-constellation-contract.service.ts:415-450 | default without `.value`; otherwise fails exactly when the allocation list fails |
| ContractService.DecodeCurrentCycleRoundTrip | block-constellation-ui/src/app/libs/block-constellation-contract.service.ts:415-450 | the encoding of any current-cycle record with natural fields decodes back to it |
| ContractService.DecodeCurrentCycleId | block-constellation-ui/src/app/libs/block-constellation-contract.service.ts:462-465 | a falsy answer gives 0; NaN only from a truthy answer |
| ContractService.CurrentCycleIdOfNumber | block-constellation-ui/src/app/libs/block-constellation-contract.service.ts:462-465 | a number or its digit text decodes to itself |
| ContractService.AllocationListRoundTrip | block-constellation-ui/src/app/libs/block-constellation-contract.service.ts:126-131 | an encoded list of naturals parses back to the list |
| ContractService.ContractAddress | block-constellation-ui/src/app/libs/block-constellation-contract.service.ts:101-103 | the id is the address, then one `.`, then the name |
| ContractService.Referrer | block-constellation-ui/src/app/libs/block-constellation-contract.service.ts:504-506 | a non-empty referral user, otherwise the caller |
| ContractService.AllocateCall | block-constellation-ui/src/app/libs/block-constellation-contract.service.ts:503-530 | arguments `(amount, constellation, referrer)`, Deny mode, and the caller may send exactly `amount` and nothing else |
| ContractService.ClaimRewardCall | block-constellation-ui/src/app/libs/block-constellation-contract.service.ts:473-495 | argument `(cycleId)`, Deny mode, and the game contract, identified as `ContractAddress(contractAddress, contractName)`, may send any positive amount and never 0 |
| ContractService.ClaimReferralRewardCall | block-constellation-ui/src/app/libs/block-constellation-contract.service.ts:535-546 | no arguments, Allow mode, any transfer passes |
| AllocateStatus.WithStatus | block-constellation-ui/src/app/shared/services/allocate-status.service.ts:258-269 | exactly the records with the status |
| AllocateStatus.WithoutStatus | block-constellation-ui/src/app/shared/services/allocate-status.service.ts:275-277 | exactly the records without the status |
| AllocateStatus.WithStatusAppend | block-constellation-ui/src/app/shared/services/allocate-status.service.ts:140 | filtering by status distributes over concatenation |
| AllocateStatus.WithoutStatusAppend | block-constellation-ui/src/app/shared/services/allocate-status.service.ts:275-277 | filtering out a status distributes over concatenation |
| AllocateStatus.StatusPartition | block-constellation-ui/src/app/shared/services/allocate-status.service.ts:258-277 | pending and completed records together are exactly all records |
| AllocateStatus.AppendedIsLastPending | block-constellation-ui/src/app/shared/services/allocate-status.service.ts:64-87 | a new pending record is last among the pending and absent from the completed |
| AllocateStatus.FindIndex | block-constellation-ui/src/app/shared/services/allocate-status.service.ts:177 | the first batch index with the txid, or none when no record has it |
| AllocateStatus.FetchedStatus | block-constellation-ui/src/app/shared/services/allocate-status.service.ts:157-163 | a failed fetch yields the batch record's status; a successful fetch yields the fetched status |
| AllocateStatus.NewStatus | block-constellation-ui/src/app/shared/services/allocate-status.service.ts:177-183 | a change is reported only for a txid in the batch, and only to a different status |
| AllocateStatus.RefreshRecord | block-constellation-ui/src/app/shared/services/allocate-status.service.ts:175-203 | only the status of a record can change |
| AllocateStatus.RefreshRecordTakesFetched | block-constellation-ui/src/app/shared/services/allocate-status.service.ts:175-203 | a record whose txid is not in the batch is kept with no change reported; one in the batch takes the status settled for the first batch record with its txid, and a change is reported exactly when that status differs |
| AllocateStatus.Refreshed | block-constellation-ui/src/app/shared/services/allocate-status.service.ts:175-203 | same length, each record refreshed in place |
| AllocateStatus.RefreshLandsFetchedStatus | block-constellation-ui/src/app/shared/services/allocate-status.service.ts:175-203 | a record whose txid is in the batch ends with the status fetched for it |
| AllocateStatus.RefreshKeepsUnbatched | block-constellation-ui/src/app/shared/services/allocate-status.service.ts:175-203 | a record whose txid is not in the batch is unchanged |
| AllocateStatus.RefreshChangesOnlyStatus | block-constellation-ui/src/app/shared/services/allocate-status.service.ts:175-203 | every record keeps its txid, amount, constellation and timestamp, and a record whose status changed has its txid in the batch |
| AllocateStatus.Notice | block-constellation-ui/src/app/shared/services/allocate-status.service.ts:183-194 | at most one notification per record |
| AllocateStatus.NoticeDescribesChange | block-constellation-ui/src/app/shared/services/allocate-status.service.ts:183-194 | no notification exactly when the record is unchanged; otherwise one carrying its txid, amount, constellation and its old and new status |
| AllocateStatus.ChangeNotifications | block-constellation-ui/src/app/shared/services/allocate-status.service.ts:183-194 | at most one per record, each a real change, stamped `now` |
| AllocateStatus.UnchangedGivesNoNotices | block-constellation-ui/src/app/shared/services/allocate-status.service.ts:184-194 | when no record changes, no notification arises |
| AllocateStatus.NoNoticesGiveUnchanged | block-constellation-ui/src/app/shared/services/allocate-status.service.ts:184-194 | when no notification arises, every record is unchanged |
| AllocateStatus.NotificationsIffChanged | block-constellation-ui/src/app/shared/services/allocate-status.service.ts:184-206 | no notification exactly when no record changed |
| AllocateStatus.ChangesHaveNotices | block-constellation-ui/src/app/shared/services/allocate-status.service.ts:187-194 | every changed record has a notification with its txid, amount, constellation and old and new status |
| AllocateStatus.NoticesAreChanges | block-constellation-ui/src/app/shared/services/allocate-status.service.ts:187-194 | every notification describes some record the refresh changed |
| AllocateStatus.FailedFetchesChangeNothing | block-constellation-ui/src/app/shared/services/allocate-status.service.ts:159-162 | when every fetch of a fresh pending batch fails, nothing changes and nothing is notified |
| AllocateStatus.FailedFetchRevertsNewerStatus | block-constellation-ui/src/app/shared/services/allocate-status.service.ts:159-197 | a record that became `success` meanwhile is put back to `pending` by a failed fetch, with a notification |
| AllocateStatus.Kept | block-constellation-ui/src/app/shared/services/allocate-status.service.ts:230-236 | exactly the pending records and those younger than a day |
| AllocateStatus.Keep | block-constellation-ui/src/app/shared/services/allocate-status.service.ts:231-236 | a pending record is always kept; a completed one exactly while younger than a day |
| AllocateStatus.CleanupRemovesExactlyStale | block-constellation-ui/src/app/shared/services/allocate-status.service.ts:230-236 | a record goes exactly when it is completed and at least 86 400 000 ms old |
| AllocateStatus.CleanupKeepsPending | block-constellation-ui/src/app/shared/services/allocate-status.service.ts:232 | cleanup leaves the pending list unchanged |
| AllocateStatus.KeptSameLength | block-constellation-ui/src/app/shared/services/allocate-status.service.ts:239 | an unchanged length means nothing was removed |
| AllocateStatus.WithoutTxid | block-constellation-ui/src/app/shared/services/allocate-status.service.ts:306 | exactly the notifications about other transactions |
| AllocateStatus.WithoutTxidAppend | block-constellation-ui/src/app/shared/services/allocate-status.service.ts:306 | dismissal distributes over concatenation, so order is kept |
| AllocateStatus.WithoutTxidSameLength | block-constellation-ui/src/app/shared/services/allocate-status.service.ts:308 | an unchanged length means nothing was dismissed |
| AllocateStatus.Insert | block-constellation-ui/src/app/shared/services/allocate-status.service.ts:287 | inserting adds one element |
| AllocateStatus.InsertAddsOne | block-constellation-ui/src/app/shared/services/allocate-status.service.ts:287 | inserting adds exactly that notification |
| AllocateStatus.InsertAtMost | block-constellation-ui/src/app/shared/services/allocate-status.service.ts:287 | inserting keeps every timestamp within a common upper bound |
| AllocateStatus.InsertKeepsOrder | block-constellation-ui/src/app/shared/services/allocate-status.service.ts:287 | inserting into a newest-first list keeps it newest first |
| AllocateStatus.SortNewestFirst | block-constellation-ui/src/app/shared/services/allocate-status.service.ts:287 | newest first and a permutation of the input |
| AllocateStatus.StampedAtMembers | block-constellation-ui/src/app/shared/services/allocate-status.service.ts:287 | the filter keeps a notification exactly when it is in the list and has the given timestamp |
| AllocateStatus.InsertStable | block-constellation-ui/src/app/shared/services/allocate-status.service.ts:287 | inserting keeps the order among notifications with one timestamp, the new one first |
| AllocateStatus.SortNewestFirstStable | block-constellation-ui/src/app/shared/services/allocate-status.service.ts:287 | the sort is stable: notifications with one timestamp keep their relative order |
| AllocateStatus.Limited | block-constellation-ui/src/app/shared/services/allocate-status.service.ts:289 | a prefix: all for no or zero limit, `min(limit, n)` for a positive one, `max(n + limit, 0)` for a negative one |
| AllocateStatus.NotificationsQuery | block-constellation-ui/src/app/shared/services/allocate-status.service.ts:284-290 | newest first, a sub-multiset, everything without a limit, exactly `min(limit, count)` with one, and nothing left out is newer than anything kept |
| AllocateStatus.AllocateStatusService.constructor | block-constellation-ui/src/app/shared/services/allocate-status.service.ts:108-122 | starts from the stored allocations and notifications |
| AllocateStatus.AllocateStatusService.AddAllocationTransaction | block-constellation-ui/src/app/shared/services/allocate-status.service.ts:64-87 | appends one pending record stamped `now`; notifications untouched |
| AllocateStatus.AllocateStatusService.RefreshAll | block-constellation-ui/src/app/shared/services/allocate-status.service.ts:175-203 | the loop over the current records yields exactly the refreshed list and the change notifications, and reports a change exactly when there is a notification |
| AllocateStatus.AllocateStatusService.ApplyStatusResults | block-constellation-ui/src/app/shared/services/allocate-status.service.ts:167-221 | changes are reported exactly when the batch yields a change notification, each for a status that really changed; then the records are refreshed (every batched record takes its fetched status, the others are kept) and the notifications appended; otherwise nothing changes |
| AllocateStatus.AllocateStatusService.CleanupOldTransactions | block-constellation-ui/src/app/shared/services/allocate-status.service.ts:228-243 | the allocations become the kept ones |
| AllocateStatus.AllocateStatusService.GetTransaction | block-constellation-ui/src/app/shared/services/allocate-status.service.ts:250-252 | the first record with the txid, or none when there is no such record |
| AllocateStatus.AllocateStatusService.GetPendingTransactions | block-constellation-ui/src/app/shared/services/allocate-status.service.ts:258-260 | exactly the pending records |
| AllocateStatus.AllocateStatusService.GetTransactionsByStatus | block-constellation-ui/src/app/shared/services/allocate-status.service.ts:267-269 | exactly the records with the status |
| AllocateStatus.AllocateStatusService.GetCompletedTransactions | block-constellation-ui/src/app/shared/services/allocate-status.service.ts:275-277 | exactly the non-pending records; with the pending ones they make up all records |
| AllocateStatus.AllocateStatusService.GetNotifications | block-constellation-ui/src/app/shared/services/allocate-status.service.ts:284-290 | the stable newest-first sort of the notifications cut to `limit`: newest first, all of them without a limit, exactly `min(limit, count)` with one, nothing left out newer than anything kept |
| AllocateStatus.AllocateStatusService.ClearNotifications | block-constellation-ui/src/app/shared/services/allocate-status.service.ts:295-298 | no notifications remain |
| AllocateStatus.AllocateStatusService.DismissNotification | block-constellation-ui/src/app/shared/services/allocate-status.service.ts:304-312 | the notifications about `txid` are removed, the rest stay in order |
| StakeRules.ScaledStake | block-constellation-ui/src/app/pages/game/game-stake-action/game-stake-action.component.ts:173-181 | `stake * factor` when that fits the balance, else the balance; never above the balance |
| StakeRules.MultipleOfMinimum | block-constellation-ui/src/app/pages/game/game.component.ts:168-174 | `-1` gives the balance; otherwise `min(1000 * m, balance)` |
| StakeRules.RefreshedStake | block-constellation-ui/src/app/pages/game/game-stake-action/game-stake-action.component.ts:100-106 | a stake within the balance stays; one above it drops to the balance, or to 1000 when the balance is below 1000 |
| StakeRules.ScalingKeepsSubmittable | block-constellation-ui/src/app/pages/game/game-stake-action/game-stake-action.component.ts:173-181 | scaling a submittable stake by a factor of at least one keeps it submittable |
| StakeRules.MultipleSubmittable | block-constellation-ui/src/app/pages/game/game.component.ts:168-177 | a multiple-of-minimum stake is submittable exactly when the balance covers 1000 |
| StakeRules.CanSubmitStake | block-constellation-ui/src/app/pages/game/game.component.ts:177 | a submittable stake needs a chosen constellation and a balance of at least 1000, and is positive |
| StakeRules.RefreshedStakeSubmittable | block-constellation-ui/src/app/pages/game/game-stake-action/game-stake-action.component.ts:100-106 | for a stake of at least 1000, after a refresh the stake is submittable exactly when the balance covers it |
| Game.FindEntry | block-constellation-ui/src/app/pages/game/game.component.ts:206-208 | the first summary line for the name, or none when there is none |
| Game.SumAppend | block-constellation-ui/src/app/pages/game/game.component.ts:213-220 | appending a line adds its amount to the total |
| Game.SumUpdate | block-constellation-ui/src/app/pages/game/game.component.ts:211-220 | growing one line grows the total by the same amount |
| Game.AddToEntries | block-constellation-ui/src/app/pages/game/game.component.ts:205-221 | the total grows by `amount`; an existing line grows, else one line is appended; other lines kept; names stay distinct |
| Game.AddToEntriesLine | block-constellation-ui/src/app/pages/game/game.component.ts:205-221 | the named line then holds its old amount plus `amount` |
| Game.JsRem | block-constellation-ui/src/app/pages/game/game.component.ts:238 | JavaScript `%`: the result takes the sign of the dividend, lies strictly within `n` of 0, and differs from the dividend by a multiple of `n` |
| Game.TimeParts | block-constellation-ui/src/app/pages/game/game.component.ts:237-238 | the hours are the floor of the blocks over 6; the minutes are a multiple of ten strictly between -60 and 60, not negative for a countdown that is not negative |
| Game.TimePartsMeaning | block-constellation-ui/src/app/pages/game/game.component.ts:237-238 | hours and minutes add up to ten minutes per block, minutes below an hour and a multiple of ten |
| Game.EstimatedTime | block-constellation-ui/src/app/pages/game/game.component.ts:239 | the text starts with `≈ ` and ends in `m`; its hours and minutes are given by EstimatedTimeReadsBack |
| Game.EstimatedTimeReadsBack | block-constellation-ui/src/app/pages/game/game.component.ts:239 | the hours and minutes read back from the text, after the `≈ ` prefix |
| Game.InitialEstimateAgrees | block-constellation-ui/src/app/pages/game/game.component.ts:235-240 | 97 blocks give the page's initial `≈ 16h 10m` |
| Game.InitialSummaryValid | block-constellation-ui/src/app/pages/game/game.component.ts:87-95 | the initial summary totals 15000 over 3 distinct lines |
| Game.Unstaked | block-constellation-ui/src/app/pages/game/game.component.ts:141-144 | every card keeps its id and name with stake and share zero |
| Game.GameComponent.constructor | block-constellation-ui/src/app/pages/game/game.component.ts:37-95 | the page's initial state, not loading, with its summary invariant |
| Game.GameComponent.ToggleWalletConnection | block-constellation-ui/src/app/pages/game/game.component.ts:132-138 | flips the flag; disconnecting clears all stakes and the summary; the fee, drawer and selection are unchanged |
| Game.GameComponent.NgOnInit | block-constellation-ui/src/app/pages/game/game.component.ts:101-106 | start-up shows the loading state |
| Game.GameComponent.LoadingTimerFired | block-constellation-ui/src/app/pages/game/game.component.ts:101-106 | when the start-up timer fires the page stops loading and the wallet is connected |
| Game.GameComponent.ResetUserStakes | block-constellation-ui/src/app/pages/game/game.component.ts:140-151 | every card unstaked in place, the summary emptied |
| Game.GameComponent.OpenStakeDrawer | block-constellation-ui/src/app/pages/game/game.component.ts:153-161 | with a wallet and a balance of at least 1000 it opens on the card with 1000 sats; otherwise nothing changes |
| Game.GameComponent.CloseStakeDrawer | block-constellation-ui/src/app/pages/game/game.component.ts:163-166 | drawer closed and selection cleared |
| Game.GameComponent.IncreaseStakeAmount | block-constellation-ui/src/app/pages/game/game.component.ts:168-174 | the stake becomes the multiple-of-minimum clamp |
| Game.GameComponent.ConfirmStake | block-constellation-ui/src/app/pages/game/game.component.ts:176-199 | under the guard the card's stake, the summary and the total grow and the balance shrinks by the stake, then the drawer closes; otherwise nothing changes; the wallet flag and countdown are unchanged |
| Game.GameComponent.UpdateUserAllocation | block-constellation-ui/src/app/pages/game/game.component.ts:205-221 | the summary becomes AddToEntries of it; the line count grows only for a new name |
| Game.GameComponent.ToggleAllocationSummary | block-constellation-ui/src/app/pages/game/game.component.ts:223-225 | flips the summary flag |
| Game.GameComponent.UpdateEstimatedTime | block-constellation-ui/src/app/pages/game/game.component.ts:235-240 | the text is the estimate for the current countdown |
| Game.GameComponent.BlockTick | block-constellation-ui/src/app/pages/game/game.component.ts:112-117 | a positive countdown drops by one with a new estimate; zero stays zero |
| GameStakeAction.ThreeDigits | block-constellation-ui/src/app/pages/game/game-stake-action/game-stake-action.component.ts:199 | a group after the first is three digits |
| GameStakeAction.GroupThousands | block-constellation-ui/src/app/pages/game/game-stake-action/game-stake-action.component.ts:199 | non-empty, neither starting nor ending with a comma |
| GameStakeAction.FormatSats | block-constellation-ui/src/app/pages/game/game-stake-action/game-stake-action.component.ts:195-200 | `"0"` for a negative amount, non-empty text always |
| GameStakeAction.StripCommasAppend | block-constellation-ui/src/app/pages/game/game-stake-action/game-stake-action.component.ts:199 | removing separators distributes over concatenation |
| GameStakeAction.StripCommasOfDigits | block-constellation-ui/src/app/pages/game/game-stake-action/game-stake-action.component.ts:199 | plain digits have no separators to remove |
| GameStakeAction.NatToStringThousands | block-constellation-ui/src/app/pages/game/game-stake-action/game-stake-action.component.ts:199 | the digits of `n >= 1000` are those of `n / 1000` then the last three |
| GameStakeAction.FormatSatsDigits | block-constellation-ui/src/app/pages/game/game-stake-action/game-stake-action.component.ts:195-200 | the formatted amount without separators is the amount's plain digits |
| GameStakeAction.FormatSatsRoundTrip | block-constellation-ui/src/app/pages/game/game-stake-action/game-stake-action.component.ts:195-200 | a formatted amount, separators removed, parses back to the amount |
| GameStakeAction.GroupThousandsCommas | block-constellation-ui/src/app/pages/game/game-stake-action/game-stake-action.component.ts:199 | the grouped digits never start with a comma, and hold one exactly at every fourth place from the end |
| GameStakeAction.FormatSatsCommas | block-constellation-ui/src/app/pages/game/game-stake-action/game-stake-action.component.ts:195-200 | the formatted amount carries its commas where `toLocaleString` puts them |
| GameStakeAction.RejectionMessage | block-constellation-ui/src/app/pages/game/game-stake-action/game-stake-action.component.ts:161-167 | which refusal is shown: balance below 1000, then stake above balance, then the generic one |
| GameStakeAction.GenericMessageMeansBelowMinimum | block-constellation-ui/src/app/pages/game/game-stake-action/game-stake-action.component.ts:161-167 | with a constellation chosen, the generic refusal means a stake under 1000 |
| GameStakeAction.SuccessMessage | block-constellation-ui/src/app/pages/game/game-stake-action/game-stake-action.component.ts:145-146 | the formatted amount follows `Stake of `; the constellation's name, or `unknown` when empty, comes right before the closing sentence |
| GameStakeAction.FailureMessage | block-constellation-ui/src/app/pages/game/game-stake-action/game-stake-action.component.ts:153 | the fixed prefix, then the error message, or `Unknown error` when it is empty |
| GameStakeAction.GameStakeActionComponent.constructor | block-constellation-ui/src/app/pages/game/game-stake-action/game-stake-action.component.ts:36-62 | a closed drawer with 1000 sats and no status |
| GameStakeAction.GameStakeActionComponent.SetIsOpen | block-constellation-ui/src/app/pages/game/game-stake-action/game-stake-action.component.ts:37-45 | opening resets the stake to 1000 and clears the status; closing changes nothing else |
| GameStakeAction.GameStakeActionComponent.FetchUserBalance | block-constellation-ui/src/app/pages/game/game-stake-action/game-stake-action.component.ts:90-91 | the balance is loading |
| GameStakeAction.GameStakeActionComponent.BalanceReceived | block-constellation-ui/src/app/pages/game/game-stake-action/game-stake-action.component.ts:94-106 | the balance is replaced and the stake becomes RefreshedStake of it |
| GameStakeAction.GameStakeActionComponent.BalanceFailed | block-constellation-ui/src/app/pages/game/game-stake-action/game-stake-action.component.ts:108-114 | loading stops with the error line |
| GameStakeAction.GameStakeActionComponent.ConfirmStake | block-constellation-ui/src/app/pages/game/game-stake-action/game-stake-action.component.ts:121-171 | a call `(stake, id)` is requested exactly under the guard; otherwise the matching refusal is shown |
| GameStakeAction.GameStakeActionComponent.StakeSubmitted | block-constellation-ui/src/app/pages/game/game-stake-action/game-stake-action.component.ts:129-150 | with a txid and a constellation the tracker gains one pending record for the current stake, the parent is told, success is shown; otherwise nothing changes |
| GameStakeAction.GameStakeActionComponent.StakeFailed | block-constellation-ui/src/app/pages/game/game-stake-action/game-stake-action.component.ts:152-156 | the error line built from the reason |
| GameStakeAction.GameStakeActionComponent.IncreaseStakeAmount | block-constellation-ui/src/app/pages/game/game-stake-action/game-stake-action.component.ts:173-181 | the stake becomes ScaledStake of it |
| GameStakeAction.GameStakeActionComponent.SetMaxStake | block-constellation-ui/src/app/pages/game/game-stake-action/game-stake-action.component.ts:183-185 | the stake becomes the balance |
| GameStakeAction.GameStakeActionComponent.StatusTimerFired | block-constellation-ui/src/app/pages/game/game-stake-action/game-stake-action.component.ts:187-192 | the status line is cleared |
| GameCurrent.GameCurrentComponent.constructor | block-constellation-ui/src/app/pages/game/game-current/game-current.component.ts:34-48 | no wallet, 15000 sats, closed drawer, 1000-sat stake |
| GameCurrent.GameCurrentComponent.ToggleAllocationSummary | block-constellation-ui/src/app/pages/game/game-current/game-current.component.ts:109-111 | flips the summary flag |
| GameCurrent.GameCurrentComponent.CloseStakeDrawer | block-constellation-ui/src/app/pages/game/game-current/game-current.component.ts:113-114 | the drawer closes at once |
| GameCurrent.GameCurrentComponent.SelectionClearTimerFired | block-constellation-ui/src/app/pages/game/game-current/game-current.component.ts:115-117 | the selection is cleared when the 300 ms timer fires |
| GameCurrent.GameCurrentComponent.SelectConstellation | block-constellation-ui/src/app/pages/game/game-current/game-current.component.ts:120-123 | selects the id and opens the drawer |
| GameCurrent.GameCurrentComponent.ConfirmStake | block-constellation-ui/src/app/pages/game/game-current/game-current.component.ts:125-131 | under the guard the drawer closes; otherwise nothing changes |
| GameCurrent.GameCurrentComponent.IncreaseStakeAmount | block-constellation-ui/src/app/pages/game/game-current/game-current.component.ts:133-143 | the stake becomes ScaledStake of it |
| GameCurrent.GameCurrentComponent.SetMaxStake | block-constellation-ui/src/app/pages/game/game-current/game-current.component.ts:145-147 | the stake becomes the balance |
| GameCurrent.ReselectBeforeTimer | block-constellation-ui/src/app/pages/game/game-current/game-current.component.ts:113-123 | reselecting before the close timer fires leaves an open drawer with no selection |
| TransactionNotifications.NameMap | block-constellation-ui/src/app/shared/components/transaction-notifications/transaction-notifications.component.ts:31-40 | the map covers exactly the ids 0 to 23 |
| TransactionNotifications.FormatStatus | block-constellation-ui/src/app/shared/components/transaction-notifications/transaction-notifications.component.ts:69-77 | the four statuses get their labels; any other text is shown unchanged |
| TransactionNotifications.GetStatusClass | block-constellation-ui/src/app/shared/components/transaction-notifications/transaction-notifications.component.ts:85-93 | `success` exactly for a successful status, `pending` exactly for a pending one, `error` exactly for the two aborts, and no class exactly for an unknown status |
| TransactionNotifications.GetStatusIcon | block-constellation-ui/src/app/shared/components/transaction-notifications/transaction-notifications.component.ts:96-104 | `check_circle` exactly for a successful status, `hourglass_empty` exactly for a pending one, `error` exactly for the two aborts, and `info` exactly for an unknown status |
| TransactionNotifications.ClassAndIconAgree | block-constellation-ui/src/app/shared/components/transaction-notifications/transaction-notifications.component.ts:85-104 | class and icon agree on errors and on unknown statuses |
| TransactionNotifications.PhrasePlural | block-constellation-ui/src/app/shared/components/transaction-notifications/transaction-notifications.component.ts:134 | the unit takes an `s` exactly when the count is not 1, and a count of 1 reads `1 <unit> ago` |
| TransactionNotifications.Phrase | block-constellation-ui/src/app/shared/components/transaction-notifications/transaction-notifications.component.ts:134 | the count's text, then a space, then the unit, and the phrase ends in ` ago` |
| TransactionNotifications.PhraseCountReadsBack | block-constellation-ui/src/app/shared/components/transaction-notifications/transaction-notifications.component.ts:134 | `parseInt` of a phrase reads back its count |
| TransactionNotifications.RelativeTime | block-constellation-ui/src/app/shared/components/transaction-notifications/transaction-notifications.component.ts:130-149 | the text ends in ` ago` |
| TransactionNotifications.RelativeTimeBuckets | block-constellation-ui/src/app/shared/components/transaction-notifications/transaction-notifications.component.ts:130-149 | under a minute counts seconds, under an hour minutes, under a day hours, else days, each the elapsed time floor-divided by the unit; `parseInt` of the text reads back that count |
| TransactionNotifications.TransactionNotificationsComponent.constructor | block-constellation-ui/src/app/shared/components/transaction-notifications/transaction-notifications.component.ts:28-46 | the name map is built and the tracker's list copied |
| TransactionNotifications.TransactionNotificationsComponent.SyncFromTracker | block-constellation-ui/src/app/shared/components/transaction-notifications/transaction-notifications.component.ts:42-45 | the panel takes the tracker's list |
| TransactionNotifications.TransactionNotificationsComponent.Notifications | block-constellation-ui/src/app/shared/components/transaction-notifications/transaction-notifications.component.ts:49-52 | a prefix of the list: all of it when expanded, else `min(5, n)` items |
| TransactionNotifications.TransactionNotificationsComponent.NotificationCount | block-constellation-ui/src/app/shared/components/transaction-notifications/transaction-notifications.component.ts:55-57 | the list's length, never less than what is shown |
| TransactionNotifications.TransactionNotificationsComponent.GetConstellationName | block-constellation-ui/src/app/shared/components/transaction-notifications/transaction-notifications.component.ts:64-66 | the name for ids 0 to 23, `Constellation <id>` otherwise |
| TransactionNotifications.TransactionNotificationsComponent.ToggleExpanded | block-constellation-ui/src/app/shared/components/transaction-notifications/transaction-notifications.component.ts:107-109 | flips the expanded flag |
| TransactionNotifications.TransactionNotificationsComponent.DismissNotification | block-constellation-ui/src/app/shared/components/transaction-notifications/transaction-notifications.component.ts:112-118 | the panel's list loses the notifications about `txid`, others kept in order |
| TransactionNotifications.TransactionNotificationsComponent.ClearAllNotifications | block-constellation-ui/src/app/shared/components/transaction-notifications/transaction-notifications.component.ts:121-127 | empty list, collapsed |
| GameReferFriend.ReferralLink | block-constellation-ui/src/app/pages/game/game-refer-friend/game-refer-friend.component.ts:56-60 | the link starts with the origin and ends with the address |
| GameReferFriend.RefValueOfLink | block-constellation-ui/src/app/pages/game/game-refer-friend/game-refer-friend.component.ts:56-60 | the `ref` parameter read back from the link is the address |
| GameReferFriend.ReferralLinkInjective | block-constellation-ui/src/app/pages/game/game-refer-friend/game-refer-friend.component.ts:56-60 | different addresses get different links |
| GameReferFriend.PositiveAmountOfUInt | block-constellation-ui/src/app/pages/game/game-refer-friend/game-refer-friend.component.ts:83 | a reward given as a number or its digit text is claimable exactly when above 0 |
| GameReferFriend.PositiveAmount | block-constellation-ui/src/app/pages/game/game-refer-friend/game-refer-friend.component.ts:83 | a numeric amount counts exactly when above 0; `undefined`, `null` and `false` never count |
| GameReferFriend.DefaultRewardNotClaimable | block-constellation-ui/src/app/pages/game/game-refer-friend/game-refer-friend.component.ts:83 | the decoder's empty-answer reward is not claimable |
| GameReferFriend.GameReferFriendComponent.constructor | block-constellation-ui/src/app/pages/game/game-refer-friend/game-refer-friend.component.ts:24-33 | not connected, loading, no reward, no claim |
| GameReferFriend.GameReferFriendComponent.NgOnInit | block-constellation-ui/src/app/pages/game/game-refer-friend/game-refer-friend.component.ts:38-51 | with a wallet the link is built and the check starts; without one loading stops with the info message and nothing is fetched |
| GameReferFriend.GameReferFriendComponent.GenerateReferralLink | block-constellation-ui/src/app/pages/game/game-refer-friend/game-refer-friend.component.ts:56-60 | the link for the current address |
| GameReferFriend.GameReferFriendComponent.CheckReferralReward | block-constellation-ui/src/app/pages/game/game-refer-friend/game-refer-friend.component.ts:75-76 | the check is loading |
| GameReferFriend.GameReferFriendComponent.RewardReceived | block-constellation-ui/src/app/pages/game/game-refer-friend/game-refer-friend.component.ts:81-85 | the reward is kept and is claimable exactly when its amount is above 0 |
| GameReferFriend.GameReferFriendComponent.RewardCheckFailed | block-constellation-ui/src/app/pages/game/game-refer-friend/game-refer-friend.component.ts:86-91 | loading stops with the error line |
| GameReferFriend.GameReferFriendComponent.ClaimReferralReward | block-constellation-ui/src/app/pages/game/game-refer-friend/game-refer-friend.component.ts:100-105 | a claim starts exactly when there is a reward and none is in flight; otherwise nothing changes |
| GameReferFriend.GameReferFriendComponent.ClaimResponded | block-constellation-ui/src/app/pages/game/game-refer-friend/game-refer-friend.component.ts:110-121 | a txid zeroes the reward; an error text is shown; the in-flight flag clears on every answer |
| GameReferFriend.GameReferFriendComponent.ClaimFailed | block-constellation-ui/src/app/pages/game/game-refer-friend/game-refer-friend.component.ts:122-127 | the error line, and the in-flight flag clears |
| GameReferFriend.GameReferFriendComponent.ClearStatusMessage | block-constellation-ui/src/app/pages/game/game-refer-friend/game-refer-friend.component.ts:156-161 | the status line is cleared |
| GameReferFriend.DoubleClaim | block-constellation-ui/src/app/pages/game/game-refer-friend/game-refer-friend.component.ts:101-103 | a second press during a claim starts nothing |
| GameReferFriend.ClaimAfterSuccess | block-constellation-ui/src/app/pages/game/game-refer-friend/game-refer-friend.component.ts:101-115 | after a successful claim a new press starts nothing |
| Binance.RoundSeconds | block-constellation-ui/src/app/libs/binance.service.ts:86 | `Math.round(ms / 1000)`: within half a second of the exact value |
| Binance.Fresh | block-constellation-ui/src/app/libs/binance.service.ts:24 | a cached price is fresh exactly while less than two minutes old |
| Binance.BinanceService.constructor | block-constellation-ui/src/app/libs/binance.service.ts:10-14 | empty cache, no request |
| Binance.BinanceService.GetBitcoinPrice | block-constellation-ui/src/app/libs/binance.service.ts:20-64 | the cached price exactly while it is under 120 000 ms old; else the request in flight; else a new request that takes the slot |
| Binance.BinanceService.FetchCompleted | block-constellation-ui/src/app/libs/binance.service.ts:45-51 | the price is cached from `now` |
| Binance.BinanceService.RequestSlotTimerFired | block-constellation-ui/src/app/libs/binance.service.ts:54-56 | the request slot is freed |
| Binance.BinanceService.GetCacheExpiryTime | block-constellation-ui/src/app/libs/binance.service.ts:74-87 | 0 without a cache or once expired; while fresh the rounded seconds of the remaining time; at most 120; positive while 500 ms or more remain |
| Binance.BinanceService.ClearCache | block-constellation-ui/src/app/libs/binance.service.ts:92-95 | no cache and no request |
| Binance.FetchThenGet | block-constellation-ui/src/app/libs/binance.service.ts:24-51 | within two minutes of a fetch every caller gets that price |
| Binance.ClearThenGet | block-constellation-ui/src/app/libs/binance.service.ts:75-95 | after clearing the expiry is 0 and the next call makes a new request |
| Binance.ExpiredTwice | block-constellation-ui/src/app/libs/binance.service.ts:31-39 | two callers after expiry share one request |

## Left out

- Network, wallet and SDK calls. These are the contract reads and writes, the sBTC balance, the transaction-status service and the Binance HTTP request. Only their outcomes are modelled, as parameters of the completion methods.
- The SDK's `cvToValue` is the function parameter `cv`, which returns a value for every input. The SDK throws on `undefined` instead. Five reads pass it a field with no guard, so an answer without that field makes the program throw where the model returns `cv(Undefined)`. These are `getCycle`'s reads of `allocation-claimed`, `prize` and `prize-claimed` (`block-constellation-contract.service.ts:134-137`), and `getReferralReward`'s reads of `amount` and `block-update` when `.value` is present (`:207-208`). `DecodeCycle` and `DecodeReferralReward` therefore do not model those throws.
- A failed price request. An HTTP error in `getBitcoinPrice` (`binance.service.ts:45-56`) never reaches the `map` callback, so the cache is not updated and the timer that frees `apiRequest$` is never set. The model has no method for a failed fetch; as in the source, the request slot then stays taken and later callers share that request until `ClearCache`.
- `localStorage` persistence of the tracker. The constructor takes the stored lists; the JSON parse failure path is not modelled.
- The tracker's 5-second polling timer and the BehaviorSubject that triggers it. `ApplyStatusResults` and `CleanupOldTransactions` are the timer's bodies, and the batch and the fetched statuses are their parameters. One `now` stamps every notification of a batch, while the source calls `Date.now()` once per notification (`allocate-status.service.ts:192`), so in the source notifications of one batch can differ by a few milliseconds and then sort by those stamps rather than as ties in record order.
- Floating point. This covers `yourShare`, the BTC pool totals and `updatePoolData`'s random drift. It also covers `formatBTC`, `formatUSD`, `formatUSDFromSats` and the price value itself. `Game.GameComponent.ConfirmStake` takes the new share as a parameter.
- Game.GameComponent.ConfirmStake: stops at closing the drawer. The log line at `game.component.ts:202` reads the selection after the close has cleared it, and so would throw.
- `toLocaleString` is modelled for the en-US locale only (comma groups). The panels that call it with no floor are not given a separate formatter.
- `parseInt`: leading whitespace, radix prefixes and the limits of JavaScript number precision are not modelled; numbers are unbounded integers. Every other string follows the sign-and-longest-digit-prefix rule, including digits with leading zeros and text that starts with a non-digit (NaN, so 0 under `|| 0`).
- `allocate` and `claimReward`: `AllocateCall` and `ClaimRewardCall` take naturals. The SDK's `Cl.uint` throws on a negative amount or cycle id, and that throw is not modelled; the stake guard keeps every amount the page submits at 1000 or more.
- GameReferFriend.PositiveAmount: compares text only when it is all digits. Signed, decimal, exponent and whitespace-padded numeric strings count as not positive.
- GameReferFriend.GameReferFriendComponent.ClaimResponded: takes the response's `txid` and `error` as strings, with the empty string standing for an absent field.
- `typeof` checks on the address validator's argument. The argument is always a string here.
- The `getConstellation` decoder (`cvToValue(result) || 0`) and `getFee`: no logic beyond the SDK call.
- `copyToClipboard` and its 3-second `isCopied` flag (clipboard API); `showNotifications` (delegates to the tracker's UI flag); `ngOnInit` of the current-round panel (a wallet query after a delay); subscriptions and `ngOnDestroy`.
- The notification panel dismisses and clears on its own copy. The tracker's list is untouched, and the next change to it replaces the panel's copy (`SyncFromTracker`). The panel shows the list in arrival order, so collapsed it shows the five oldest.
- ContractService.DecodeCycleUserStatusRoundTrip: round-trips `user-claimed` only in bare-boolean form. A wrapped `true` reads as false (see Findings).
- ContractService.DecodeCurrentCycleUserStatusRoundTrip: round-trips `user-claimed` only in bare-boolean form. A wrapped `true` reads as false (see Findings).
- Constellation ids. The page numbers its 25 constellations 1 to 25 (`game.component.ts:59-83`), while the notification panel names ids 0 to 23 (`transaction-notifications.component.ts:31-40`), so a staked id is shown under the next name and Delphinus has none. Both tables are kept as written.
- The Clarity contract's own accounting (prize split, claim-once, cycle checks). Its source is not part of this model.
- The older copy of the contract service under `libs/services/`. It adds nothing beyond the referrer default that is modelled here.

## Findings

| source | as written | input that shows it | evidently intended | confidence | as-written member | corrected member |
|---|---|---|---|---|---|---|
| block-constellation-ui/src/app/libs/block-constellation-contract.service.ts:324 | `user-claimed` counts only when it is `=== true`, while every other field of the same answer is read through `?.value` | a `user-claimed` of `{type: 'bool', value: true}` | read the flag's `.value` as the `claimed` rule does | medium, not executed | ContractService.WrappedClaimReadsFalse | ContractService.UserClaimedIntendedReadsBoth |
| block-constellation-ui/src/app/libs/clarity.util.ts:62 | the address must be 40 characters and its body Base58 | the game's own contract address `SP3QZNX3CGT6V7PE1PBK17FCRK1TP1AT02ZHQCMVJ`: 41 characters, with a `0` in its body | check Stacks (c32) addresses: 41 characters, body in the c32 alphabet, which has `0` but not `I`, `L`, `O` or `U` | medium, not executed | ClarityUtil.RejectsOwnContractAddress | ClarityUtil.C32AcceptsOwnContractAddress |
