# AMAX custody and multisig wallet contracts in Dafny

This project models two EOSIO smart contracts and proves properties of the model.

- **`amax.custody`** is a vesting custody engine. An owner creates a *plan*: a token, a release
  interval in days and a number of releases. Creating a plan may cost a fee. An issuer then opens
  an *issue* on a plan for a receiver and deposits the tokens with a `transfer` whose memo is
  `issue:<id>`. From then on the receiver can `unlock` what the schedule has released, and the
  issuer can `endissue`: this pays out what is due and refunds what is still locked.
- **`amax.mulsign`** is a weighted multisig wallet. A wallet is created by a `transfer` of the
  wallet fee with memo `create:<m>:<n>:<title>`. Anyone can fund it with `lock:<id>`. Its creator
  adds weighted signers within 24 hours of creation. Anyone may *propose* a withdrawal, signers
  *approve* it, and a proposal whose received votes reach `m` is *executed*, which debits the wallet.

Each contract is modelled in three layers:

- `custody_model.dfy` and `mulsign_model.dfy` (with the records in `mulsign_db.dfy`) hold the
  contract's tables as one state value. Each action is a function that returns either the state
  after the action commits or the error it aborts with. An aborted action leaves the state
  unchanged (`Wrappers.After`), as an aborted EOSIO transaction does.
- `custody.dfy` and `mulsign.dfy` hold the contract as a class whose fields are its tables. Each
  action is a method that runs the source's checks in the source's order and writes the fields
  in place. Each method is proved to return the outcome of the model function and to leave
  exactly the state that function gives. The `setmulsigner` weight loop is a method of its own,
  `Mulsign.TotalWeight`, proved against the mathematical sum of the weights taken modulo 2^32.
- `custody_lemmas.dfy` and `mulsign_lemmas.dfy` state what the contracts promise and where they
  fall short of it:
  - the release schedule is bounded, monotone and complete;
  - the row invariants are preserved by every action;
  - memos round-trip;
  - the source's quirks are stated as theorems about the code as written: the `enableplan` status
    write, the shadowed unlock accumulator, the 32-bit weight wrap-around, and an approved
    proposal that can never execute.

Chain services are the parameter `Eosio.Chain`:

- the current time;
- the accounts whose authority the transaction carries;
- the set of existing accounts;
- the first receiver of a notification.

`eosio.dfy` and `utils.dfy` give the library helpers the contracts call: `split`, the decimal
parsers, `available_primary_key`, asset comparison and 32-bit time differences.

Two points of the code decide the model's behaviour:

- `custody.cpp:273-280` computes the released total from whole elapsed periods. With
  1000 tokens in 4 releases every 30 days, the total is 0 at day 29, 250 at day 30, 500 at
  day 65, 750 at day 90 and 1000 at day 120 (`CustodyLemmas.ScheduleExample`).
- The unlock accumulator: the outer `total_unlocked` (`custody.cpp:270`) is never assigned, and
  the value computed at line 280 lives in an inner scope. So the model writes an arbitrary
  64-bit value, the parameter `residue`, into the issue's `unlocked` field. It derives `locked`
  from `residue` with 64-bit wrap-around. The intended behaviour is covered by
  `CustodyLemmas.IntendedResidue`. What goes wrong otherwise is covered by
  `CustodyLemmas.StaleResiduePaysTwice` and `CustodyLemmas.ConservationBroken`.

## Model

| member | source | states |
|---|---|---|
| Eosio.AvailablePrimaryKey | contracts/amax.mulsign/amax.mulsign.cpp:364 | the next key is the largest key plus one: absent from the table, above every key in it, with its predecessor in the table; 0 exactly when the table is empty |
| Eosio.AssetGe | contracts/amax.mulsign/amax.mulsign.cpp:217 | comparing assets aborts (None) unless the symbols agree, and otherwise is the comparison of the amounts |
| Eosio.ElapsedSec | contracts/amax.mulsign/amax.mulsign.cpp:127 | the 32-bit difference of two second counts equals the true difference when that difference is below 2^32 |
| Utils.Split | contracts/amax.custody/src/custody.cpp:153 | splitting a memo always yields at least one field, and no field contains the separator |
| Utils.JoinSplit | contracts/amax.custody/src/custody.cpp:153 | joining the fields of a split with the separator gives back the memo |
| Utils.SplitJoin | contracts/amax.custody/src/custody.cpp:153 | splitting separator-free fields joined by the separator gives back the fields |
| Utils.ParseUnsigned | contracts/amax.mulsign/amax.mulsign.cpp:210-211 | a successful `to_uint32`/`to_uint64` parse is below the type's bound |
| Utils.ParseDecimal | contracts/amax.custody/src/custody.cpp:168 | the decimal text of any number below the bound parses back to that number |
| Utils.ParseDecimalExact | contracts/amax.mulsign/amax.mulsign.cpp:210-211 | the decimal text of a number parses back to it exactly when it is below the bound, and fails otherwise |
| Utils.StrToUL | contracts/amax.custody/src/custody.cpp:190 | `strtoul` never exceeds ULONG_MAX; it is 0 for text that starts with neither a sign nor a digit, the digit prefix (saturated at ULONG_MAX) after an optional `+`, and its negation modulo 2^32 after a `-` |
| Utils.StrToULSigned | contracts/amax.custody/src/custody.cpp:190 | `+k` reads as k and `-k` as 2^32 - k, for any k up to ULONG_MAX |
| Utils.Utf8Length | contracts/amax.custody/src/custody.cpp:35 | `size()` of a text is its UTF-8 byte count, between one and four bytes per character |
| Utils.AsciiUtf8Length | contracts/amax.custody/src/custody.cpp:35 | an ASCII text has as many bytes as characters |
| Utils.TwoByteUtf8Length | contracts/amax.custody/src/custody.cpp:35 | a text of characters U+0080 to U+07FF has two bytes per character |
| Utils.NonAsciiUtf8Length | contracts/amax.custody/src/custody.cpp:35 | any non-ASCII character makes the byte count exceed the character count |
| Utils.StoI | contracts/amax.mulsign/amax.mulsign.cpp:226 | `stoi` yields a 32-bit signed value when it does not abort |
| Utils.ToU64 | contracts/amax.mulsign/amax.mulsign.cpp:226 | the cast to `uint64_t` keeps non-negative values and wraps negative ones by 2^64 |
| CustodyModel.NewId | contracts/amax.custody/src/custody.cpp:43-44 | a new plan or issue id is never 0, never taken, and above every existing id |
| CustodyModel.WithLastPlan | contracts/amax.custody/src/custody.cpp:57-61 | the owner's account row records the new plan id and keeps its last issue id; other rows are untouched |
| CustodyModel.WithLastIssue | contracts/amax.custody/src/custody.cpp:136-140 | the issuer's account row records the new issue id and keeps its last plan id; other rows are untouched |
| CustodyModel.IssuedDays | contracts/amax.custody/src/custody.cpp:273 | the whole days elapsed: that many days fit in the elapsed seconds and one more does not |
| CustodyModel.MulDiv | contracts/amax.custody/src/custody.cpp:280 | `multiply_decimal64(a, b, c)` is the floor of a * b / c |
| CustodyModel.ScheduledTotal | contracts/amax.custody/src/custody.cpp:273-280 | the released total is the floor of the issued amount times the released periods over the number of releases |
| CustodyModel.UnlockedPeriods | contracts/amax.custody/src/custody.cpp:273-276 | the number of released periods never exceeds the plan's number of releases |
| CustodyModel.SetConfig | contracts/amax.custody/src/custody.cpp:20-27 | succeeds exactly with the contract's authority, a fee in the system symbol and an existing receiver; then only the config changes |
| CustodyModel.AddPlan | contracts/amax.custody/src/custody.cpp:30-62 | succeeds exactly when every check at lines 34-40 holds, the title bound counted in UTF-8 bytes; adds one plan under a fresh id, unpaid exactly when the fee is non-zero, and records it as the owner's latest plan |
| CustodyModel.SetPlanOwner | contracts/amax.custody/src/custody.cpp:65-77 | succeeds exactly for the plan's owner with the owner's or the contract's authority; changes only that plan's owner |
| CustodyModel.DelPlan | contracts/amax.custody/src/custody.cpp:80-89 | succeeds exactly with the contract's authority on an existing plan of that owner; removes just that plan |
| CustodyModel.EnablePlan | contracts/amax.custody/src/custody.cpp:92-107 | succeeds exactly when the plan is paid and the requested status differs; it then sets the status to UnpaidFee whatever was requested |
| CustodyModel.AddIssue | contracts/amax.custody/src/custody.cpp:109-142 | succeeds exactly on an enabled plan for an existing receiver; adds one undeposited issue under a fresh id with the header's default amounts, issued and updated at the current time, which starts its release schedule |
| CustodyModel.ResolvePlanId | contracts/amax.custody/src/custody.cpp:161-170 | an empty memo id resolves to the sender's latest plan if it has one; a resolved id is never 0 |
| CustodyModel.ResolveIssueId | contracts/amax.custody/src/custody.cpp:183-192 | an empty memo id resolves to the sender's latest issue; otherwise it succeeds exactly when `strtoul`, which accepts a `+` or `-` sign, is non-zero |
| CustodyModel.PayPlanFee | contracts/amax.custody/src/custody.cpp:155-179 | the fee payment succeeds exactly for the fee amount in the system symbol on a resolved unpaid plan; it then enables only that plan |
| CustodyModel.DepositIssue | contracts/amax.custody/src/custody.cpp:180-219 | the deposit succeeds exactly for the issue's amount, token contract and symbol on a resolved undeposited issue of an enabled plan; it then marks only that issue Normal and adds the amount to only that plan's issued total |
| CustodyModel.OnTransfer | contracts/amax.custody/src/custody.cpp:145-222 | transfers not addressed to the contract and unknown memo kinds change nothing; a non-positive amount or a plan or issue memo without exactly one parameter aborts; a success keeps the table keys, accounts, config and sent transfers |
| CustodyModel.Settle | contracts/amax.custody/src/custody.cpp:271-307 | the schedule step succeeds exactly when the computed total lies between the stored unlocked amount and the issued amount (and moves for unlock); it sends the new amount and, on end, the stored locked amount, and adds both to the plan's counters |
| CustodyModel.Closed | contracts/amax.custody/src/custody.cpp:309-316 | the issue write stores the residue as unlocked, the 64-bit difference as locked, and Ended only for endissue, touching nothing else |
| CustodyModel.InternalUnlock | contracts/amax.custody/src/custody.cpp:241-316 | a success implies the role, plan and status checks held, rewrites the issue as `Closed`, and changes no other plan, account or config |
| CustodyModel.EndIssue | contracts/amax.custody/src/custody.cpp:225-229 | needs the issuer's authority; a success leaves the issue Ended |
| CustodyModel.Unlock | contracts/amax.custody/src/custody.cpp:235-239 | needs the receiver's authority; a success leaves the issue Normal |
| Custody.CustodyContract.SetConfig | contracts/amax.custody/src/custody.cpp:20-27 | the in-place action returns the model's outcome and leaves the model's state, or no change on failure |
| Custody.CustodyContract.AddPlan | contracts/amax.custody/src/custody.cpp:30-62 | as above, for addplan |
| Custody.CustodyContract.SetPlanOwner | contracts/amax.custody/src/custody.cpp:65-77 | as above, for setplanowner |
| Custody.CustodyContract.DelPlan | contracts/amax.custody/src/custody.cpp:80-89 | as above, for delplan |
| Custody.CustodyContract.EnablePlan | contracts/amax.custody/src/custody.cpp:92-107 | as above, for enableplan |
| Custody.CustodyContract.AddIssue | contracts/amax.custody/src/custody.cpp:109-142 | as above, for addissue |
| Custody.CustodyContract.PayPlanFee | contracts/amax.custody/src/custody.cpp:155-179 | as above, for the `plan:` deposit |
| Custody.CustodyContract.DepositIssue | contracts/amax.custody/src/custody.cpp:180-219 | as above, for the `issue:` deposit |
| Custody.CustodyContract.OnTransfer | contracts/amax.custody/src/custody.cpp:145-222 | as above, for the transfer notification |
| Custody.CustodyContract.EndIssue | contracts/amax.custody/src/custody.cpp:225-229 | as above, for endissue |
| Custody.CustodyContract.Unlock | contracts/amax.custody/src/custody.cpp:235-239 | as above, for unlock |
| Custody.CustodyContract.InternalUnlock | contracts/amax.custody/src/custody.cpp:241-316 | as above, for the shared unlock routine |
| Custody.CustodyContract.Settle | contracts/amax.custody/src/custody.cpp:271-307 | the schedule step pays out, refunds and updates the plan counters exactly as the model's settlement |
| CustodyLemmas.ScheduleBounded | contracts/amax.custody/src/custody.cpp:276-281 | the released total never exceeds the issued amount |
| CustodyLemmas.ScheduleMonotone | contracts/amax.custody/src/custody.cpp:273-280 | the released total never decreases as days pass |
| CustodyLemmas.ScheduleComplete | contracts/amax.custody/src/custody.cpp:276-280 | the released total equals the issued amount exactly when all periods have passed (or nothing was issued) |
| CustodyLemmas.ScheduleExample | contracts/amax.custody/src/custody.cpp:273-280 | 1000 tokens in 4 releases of 30 days: 0, 250, 500, 750, 1000 released at days 29, 30, 65, 90, 120 |
| CustodyLemmas.UnlockPaysDelta | contracts/amax.custody/src/custody.cpp:282-306 | a successful unlock sends the receiver exactly the newly released amount, adds it to the plan's unlocked total, and adds the stored locked amount to its refunded total |
| CustodyLemmas.UnlockSucceeds | contracts/amax.custody/src/custody.cpp:235-306 | `unlock` succeeds exactly when the receiver signs for a NORMAL issue of an enabled plan whose released total is above the unlocked amount and below the issued amount |
| CustodyLemmas.EndIssueSucceeds | contracts/amax.custody/src/custody.cpp:225-306 | `endissue` succeeds exactly when the issuer signs for an issue of an enabled plan that has not ended, and, for a NORMAL issue, when the released total lies between the unlocked amount and the issued amount |
| CustodyLemmas.NoProgressRule | contracts/amax.custody/src/custody.cpp:285-293 | with nothing newly released, unlock aborts with AlreadyUnlocked while endissue still succeeds |
| CustodyLemmas.EndIssueRefundsStoredLocked | contracts/amax.custody/src/custody.cpp:295-306 | ending a deposited issue pays what is due and refunds the issue's stored `locked` field to the issuer, each only when positive |
| CustodyLemmas.EndUndepositedIssue | contracts/amax.custody/src/custody.cpp:270-316 | ending an undeposited issue sends nothing and leaves the plans unchanged |
| CustodyLemmas.EndedIsFinal | contracts/amax.custody/src/custody.cpp:262-268 | after endissue, every further unlock or endissue of that issue aborts |
| CustodyLemmas.FinalPeriodAborts | contracts/amax.custody/src/custody.cpp:281 | once every period has passed, unlock and endissue abort: the assertion that the total stays below the issued amount fails |
| CustodyLemmas.IntendedResidue | contracts/amax.custody/src/custody.cpp:309-311 | had the computed total been stored, unlocked plus locked would equal issued and unlocked would grow |
| CustodyLemmas.IntendedResidueOncePerPeriod | contracts/amax.custody/src/custody.cpp:285-291 | had the computed total been stored, a second unlock in the same period would abort |
| CustodyLemmas.StaleResiduePaysTwice | contracts/amax.custody/src/custody.cpp:270-310 | when the stored value is the old one, a second unlock at the same time succeeds and pays the same amount again |
| CustodyLemmas.ConservationBroken | contracts/amax.custody/src/custody.cpp:302-306 | a concrete unlock after which the plan's unlocked plus refunded totals exceed its issued total |
| CustodyLemmas.EnablePlanTwiceFails | contracts/amax.custody/src/custody.cpp:99-105 | a successful enableplan leaves the plan UnpaidFee, so every later enableplan on it aborts |
| CustodyLemmas.EnablePlanBlocksIssues | contracts/amax.custody/src/custody.cpp:103-115 | after a successful enableplan, addissue on that plan aborts |
| CustodyLemmas.EnableNeverSucceeds | contracts/amax.custody/src/custody.cpp:99-101 | on any valid state, enabling a plan always aborts |
| CustodyLemmas.FeeGating | contracts/amax.custody/src/custody.cpp:53-99 | with a non-zero fee a new plan is UnpaidFee and cannot be enabled before its fee is paid |
| CustodyLemmas.PlanFeeDeposit | contracts/amax.custody/src/custody.cpp:155-179 | a `plan:` deposit succeeds exactly for the fee amount in the system symbol on an unpaid plan, and then only enables that plan |
| CustodyLemmas.IssueDeposit | contracts/amax.custody/src/custody.cpp:180-219 | an `issue:` deposit succeeds exactly for the issue's amount, token contract and symbol on an undeposited issue of an enabled plan, and then only marks it Normal and adds the amount to the plan's issued total |
| CustodyLemmas.LatestPlanIsDefault | contracts/amax.custody/src/custody.cpp:58-166 | after addplan, an empty `plan:` memo from the owner resolves to the new plan |
| CustodyLemmas.LatestIssueIsDefault | contracts/amax.custody/src/custody.cpp:137-188 | after addissue, an empty `issue:` memo from the issuer resolves to the new issue |
| CustodyLemmas.DeletedPlanIdReused | contracts/amax.custody/src/custody.cpp:43-88 | deleting the only plan and adding another reuses its id, so existing issues now point at the new plan |
| CustodyLemmas.SplitKindAndId | contracts/amax.custody/src/custody.cpp:153-157 | a `kind:param` memo splits into exactly those two fields |
| CustodyLemmas.PlanMemoRoundTrip | contracts/amax.custody/src/custody.cpp:167-170 | the decimal text of any non-zero 64-bit plan id resolves to that id |
| CustodyLemmas.IssueMemoRoundTrip | contracts/amax.custody/src/custody.cpp:189-191 | the decimal text of any non-zero issue id below ULONG_MAX resolves to that id |
| CustodyLemmas.SignedIssueId | contracts/amax.custody/src/custody.cpp:189-191 | `issue:+k` names issue k and `issue:-k` names issue 2^32 - k |
| CustodyLemmas.NegatedIssueId | contracts/amax.custody/src/custody.cpp:189-191 | `issue:-4294967295` names issue 1 |
| CustodyLemmas.LenientIssueId | contracts/amax.custody/src/custody.cpp:168-190 | `issue:7x` resolves to issue 7, while `plan:7x` aborts |
| CustodyLemmas.AddPlanKeepsValid | contracts/amax.custody/src/custody.cpp:30-62 | addplan preserves the row invariant |
| CustodyLemmas.AddIssueKeepsValid | contracts/amax.custody/src/custody.cpp:109-142 | addissue preserves the row invariant and the default amounts of undeposited issues |
| CustodyLemmas.OnTransferKeepsValid | contracts/amax.custody/src/custody.cpp:145-222 | deposits preserve the row invariant and the default amounts of undeposited issues |
| CustodyLemmas.InternalUnlockKeepsValid | contracts/amax.custody/src/custody.cpp:241-316 | unlock and endissue preserve the row invariant and the default amounts of undeposited issues |
| CustodyLemmas.StepKeepsValid | contracts/amax.custody/src/custody.cpp:20-316 | every action preserves the row invariant |
| CustodyLemmas.ZeroDefaultBlocksDeposits | contracts/amax.custody/src/custody.cpp:208 | when the header's default issued amount is 0, every `issue:` deposit aborts, since its amount is positive |
| CustodyLemmas.EndedIsTerminal | contracts/amax.custody/src/custody.cpp:262-268 | no action changes or removes an Ended issue |
| MulsignDb.InitialGlobal | contracts/amax.mulsign/amax.mulsign.cpp:64-70 | before `init` the singleton names the contract as admin, has no fee collector and is inactive |
| MulsignDb.NewWallet | contracts/amax.mulsign/include/mulsign_db.hpp:42-57 | a fresh wallet row carries only its id, empty signer and asset maps and the one-day proposal expiry |
| MulsignDb.StatusName | contracts/amax.mulsign/include/mulsign_db.hpp:72-77 | only the unset status is the empty name |
| MulsignDb.NewProposal | contracts/amax.mulsign/include/mulsign_db.hpp:79-98 | a fresh proposal row carries only its id, no approvers, no status and whatever `recv_votes` the storage held |
| MulsignModel.Sec | contracts/amax.mulsign/amax.mulsign.cpp:141 | the 32-bit `time_point_sec` of a time below 2^32 is that time |
| MulsignModel.Init | contracts/amax.mulsign/amax.mulsign.cpp:75-81 | succeeds exactly with the contract's authority while no fee collector is set; then sets the collector and the 0.1 AMAX wallet fee |
| MulsignModel.SetMulsigner | contracts/amax.mulsign/amax.mulsign.cpp:121-143 | succeeds exactly for the creator within a day of creation, an existing account and a positive weight whose 32-bit total stays within n; then only sets that weight |
| MulsignModel.SetWapExpiry | contracts/amax.mulsign/amax.mulsign.cpp:152-161 | succeeds exactly for the wallet's creator; changes only the wallet's proposal expiry |
| MulsignModel.DelMulsigner | contracts/amax.mulsign/amax.mulsign.cpp:171-189 | succeeds exactly for the signer or its creator (not on itself, and within a day); removes just that signer |
| MulsignModel.CreateWallet | contracts/amax.mulsign/amax.mulsign.cpp:362-378 | wallet 0 can only be created by the fee collector; adds one wallet with the given quorum, title and creator under the next key |
| MulsignModel.Balance | contracts/amax.mulsign/amax.mulsign.cpp:391 | `wallet.assets[symb]` reads the stored entry, or 0 when there is none |
| MulsignModel.LockFunds | contracts/amax.mulsign/amax.mulsign.cpp:380-387 | succeeds exactly on an existing wallet; raises the balance of that token by the amount and changes nothing else |
| MulsignModel.CreateFromMemo | contracts/amax.mulsign/amax.mulsign.cpp:209-223 | a created wallet needs parsed 0 < m <= n, a title under 1024 UTF-8 bytes and the system token covering the wallet fee |
| MulsignModel.OnTransfer | contracts/amax.mulsign/amax.mulsign.cpp:200-233 | transfers not addressed to the contract change nothing; an empty memo, a non-positive amount or an unknown memo aborts; proposals and the singleton never change; where accepted `lock:` and `create:` memos go is stated by `MulsignLemmas.LockMemoRoutes` and `MulsignLemmas.CreateMemoRoutes` |
| MulsignModel.ExpiryOf | contracts/amax.mulsign/amax.mulsign.cpp:286 | the expiry is creation plus the wallet's expiry when that fits in 32 bits |
| MulsignModel.Propose | contracts/amax.mulsign/amax.mulsign.cpp:254-290 | succeeds exactly for a held token, a positive amount within the balance, an existing recipient and texts under 256, 1024 and 2048 UTF-8 bytes; adds one Proposed proposal under the next key |
| MulsignModel.Cancel | contracts/amax.mulsign/amax.mulsign.cpp:296-311 | succeeds exactly for the proposer of an unexpired, unapproved Proposed proposal; marks it Canceled |
| MulsignModel.Approve | contracts/amax.mulsign/amax.mulsign.cpp:318-339 | succeeds exactly for a new signer of the wallet on an unexpired open proposal; adds the approver and its weight and moves it to Approved |
| MulsignModel.ExecuteProposal | contracts/amax.mulsign/amax.mulsign.cpp:389-406 | succeeds exactly within the balance; lowers it by the amount (dropping it at zero) and sends that amount to the recipient through the proposal's token contract, with the proposal's memo or else `mulsign execute` |
| MulsignModel.Execute | contracts/amax.mulsign/amax.mulsign.cpp:341-358 | succeeds exactly on an unexpired Proposed proposal with enough votes and balance; marks it Executed, debits the wallet by the amount (dropping the entry at zero) and sends the withdrawal to the recipient |
| Mulsign.WeightStep | contracts/amax.mulsign/amax.mulsign.cpp:136-138 | one turn of the loop moves one signer's weight into the 32-bit total without changing the total plus the rest's sum modulo 2^32 |
| Mulsign.WeightDone | contracts/amax.mulsign/amax.mulsign.cpp:136-138 | when the loop has visited every signer, the 32-bit total is the sum reduced modulo 2^32 |
| Mulsign.TotalWeight | contracts/amax.mulsign/amax.mulsign.cpp:135-138 | the loop's total is the sum of all weights modulo 2^32 |
| Mulsign.MulsignContract.constructor | contracts/amax.mulsign/amax.mulsign.cpp:62-71 | a new contract has empty tables and the default singleton |
| Mulsign.MulsignContract.Init | contracts/amax.mulsign/amax.mulsign.cpp:75-81 | the in-place action returns the model's outcome and leaves the model's state, or no change on failure |
| Mulsign.MulsignContract.SetMulsigner | contracts/amax.mulsign/amax.mulsign.cpp:121-143 | as above, for setmulsigner |
| Mulsign.MulsignContract.SetWapExpiry | contracts/amax.mulsign/amax.mulsign.cpp:152-161 | as above, for setwapexpiry |
| Mulsign.MulsignContract.DelMulsigner | contracts/amax.mulsign/amax.mulsign.cpp:171-189 | as above, for delmulsigner |
| Mulsign.MulsignContract.OnTransfer | contracts/amax.mulsign/amax.mulsign.cpp:200-233 | as above, for the transfer notification |
| Mulsign.MulsignContract.CreateFromMemo | contracts/amax.mulsign/amax.mulsign.cpp:209-223 | as above, for wallet creation; a late failure rolls everything back |
| Mulsign.MulsignContract.CreateWallet | contracts/amax.mulsign/amax.mulsign.cpp:362-378 | as above, for create_wallet |
| Mulsign.MulsignContract.LockFunds | contracts/amax.mulsign/amax.mulsign.cpp:380-387 | as above, for lock_funds |
| Mulsign.MulsignContract.Propose | contracts/amax.mulsign/amax.mulsign.cpp:254-290 | as above, for propose |
| Mulsign.MulsignContract.Cancel | contracts/amax.mulsign/amax.mulsign.cpp:296-311 | as above, for cancel |
| Mulsign.MulsignContract.Approve | contracts/amax.mulsign/amax.mulsign.cpp:318-339 | as above, for approve |
| Mulsign.MulsignContract.Execute | contracts/amax.mulsign/amax.mulsign.cpp:341-358 | as above, for execute |
| Mulsign.MulsignContract.ExecuteProposal | contracts/amax.mulsign/amax.mulsign.cpp:389-406 | as above, for execute_proposal |
| MulsignLemmas.StoIDecimal | contracts/amax.mulsign/amax.mulsign.cpp:226 | `stoi` reads back the decimal text of every non-negative 32-bit int |
| MulsignLemmas.LockMemoDispatch | contracts/amax.mulsign/amax.mulsign.cpp:225-228 | a memo `lock:<text>` with a one-field text is `lock_funds` of what `stoi` reads, wrapped to 64 bits; a text `stoi` rejects aborts |
| MulsignLemmas.LockMemoOfValue | contracts/amax.mulsign/amax.mulsign.cpp:225-228 | a memo `lock:<text>` whose text `stoi` reads as v credits wallet `(uint64_t) v` |
| MulsignLemmas.LockMemoRoutes | contracts/amax.mulsign/amax.mulsign.cpp:225-228 | a transfer with memo `lock:<id>` is exactly `lock_funds` of wallet id with the notifying token contract |
| MulsignLemmas.StoINegated | contracts/amax.mulsign/amax.mulsign.cpp:226 | `stoi` reads `-<n>` as -n for every n down to -2^31 |
| MulsignLemmas.NegativeLockId | contracts/amax.mulsign/amax.mulsign.cpp:226-228 | `lock:-<n>` is cast to wallet 2^64 - n and credits that wallet |
| MulsignLemmas.CreateMemoSplit | contracts/amax.mulsign/amax.mulsign.cpp:207-209 | `create:<m>:<n>:<title>` splits into the kind and exactly those three fields |
| MulsignLemmas.CreateMemoRoutes | contracts/amax.mulsign/amax.mulsign.cpp:207-223 | a transfer with memo `create:<m>:<n>:<title>` is exactly the wallet creation on those three fields |
| MulsignLemmas.CreateFromMemoWallet | contracts/amax.mulsign/amax.mulsign.cpp:209-223 | an accepted creation on parsed m and n adds the sender's wallet with that m, n and title under the next key |
| MulsignLemmas.CreateFromDecimalQuorum | contracts/amax.mulsign/amax.mulsign.cpp:209-223 | an accepted creation on decimal fields has 0 < m <= n < 2^32 and adds that wallet |
| MulsignLemmas.CreateMemoQuorum | contracts/amax.mulsign/amax.mulsign.cpp:209-222 | an accepted creation memo has 0 < m <= n < 2^32 and creates a wallet of the sender with that quorum and title |
| MulsignLemmas.MultibyteTitleOversized | contracts/amax.mulsign/amax.mulsign.cpp:215 | a title of 512 two-byte characters is already too long: the bound counts bytes |
| MulsignLemmas.WalletsKeepQuorumFit | contracts/amax.mulsign/include/mulsign_db.hpp:46 | every wallet of a valid state keeps the documented `m <= n`, with m > 0; `StepKeepsValid` keeps this through every action |
| MulsignLemmas.WeightWrapAdmitsOverweight | contracts/amax.mulsign/amax.mulsign.cpp:133-139 | with n = 3, adding a signer of weight 2^32-1 beside one of weight 2 passes the check, though the true total is 2^32+1 |
| MulsignLemmas.LeavingBreaksWeightBound | contracts/amax.mulsign/amax.mulsign.cpp:171-187 | a signer that leaves can push the 32-bit total of the others above n |
| MulsignLemmas.ExecuteRejectsNeverExecutable | contracts/amax.mulsign/amax.mulsign.cpp:341-348 | execute aborts on a proposal that is not Proposed, or is Proposed with votes below its wallet's m |
| MulsignLemmas.ApproveMakesNeverExecutable | contracts/amax.mulsign/amax.mulsign.cpp:336-346 | after any approval the proposal is Approved, so execute aborts with a status error |
| MulsignLemmas.LowVotesMakeNeverExecutable | contracts/amax.mulsign/amax.mulsign.cpp:276-289 | a new proposal whose unset votes are below m is never executable |
| MulsignLemmas.CreateFromMemoKeepsQuorums | contracts/amax.mulsign/amax.mulsign.cpp:209-223 | creating a wallet keeps every existing wallet's quorum and leaves the proposals unchanged |
| MulsignLemmas.OnTransferKeepsQuorums | contracts/amax.mulsign/amax.mulsign.cpp:200-233 | transfer notifications keep every wallet and its quorum |
| MulsignLemmas.ExecuteKeepsQuorums | contracts/amax.mulsign/amax.mulsign.cpp:341-406 | execute keeps every wallet and its quorum |
| MulsignLemmas.StepKeepsNeverExecutable | contracts/amax.mulsign/amax.mulsign.cpp:121-358 | no action makes a never-executable proposal executable |
| MulsignLemmas.NeverExecutableForever | contracts/amax.mulsign/amax.mulsign.cpp:336-346 | after any sequence of actions, executing a never-executable proposal still aborts |
| MulsignLemmas.ExecuteOnlyUnapproved | contracts/amax.mulsign/amax.mulsign.cpp:346-352 | on a valid state, only a proposal with no approvers executes, and only on `recv_votes` it never received |
| MulsignLemmas.FirstProposalIdIsZero | contracts/amax.mulsign/amax.mulsign.cpp:274-276 | the first proposal gets id 0 |
| MulsignLemmas.ExpiryWraps | contracts/amax.mulsign/amax.mulsign.cpp:286 | an expiry that is a multiple of 2^32 seconds makes a proposal expire at its creation time |
| MulsignLemmas.ExecuteDebits | contracts/amax.mulsign/amax.mulsign.cpp:389-400 | executing lowers that token's balance by the amount and leaves every other balance |
| MulsignLemmas.SecondClaimRejected | contracts/amax.mulsign/amax.mulsign.cpp:391-392 | two claims on one token together above the balance: the second aborts with Oversized |
| MulsignLemmas.ProposeTwice | contracts/amax.mulsign/amax.mulsign.cpp:254-290 | the same proposal can be made again right away, since proposing reserves nothing |
| MulsignLemmas.FeeCreditedToWalletZero | contracts/amax.mulsign/amax.mulsign.cpp:219-223 | the fee is credited to wallet 0 and the new wallet holds nothing; the fee is collected exactly when the sender is not the collector |
| MulsignLemmas.CreateBeforeInitAborts | contracts/amax.mulsign/amax.mulsign.cpp:216-217 | before `init` the fee has no symbol, so a well-formed wallet creation aborts |
| MulsignLemmas.InitOnce | contracts/amax.mulsign/amax.mulsign.cpp:78-79 | once a collector is set, `init` aborts with RecordExisting |
| MulsignLemmas.SetMulsignerKeepsValid | contracts/amax.mulsign/amax.mulsign.cpp:121-143 | setmulsigner preserves the row invariant |
| MulsignLemmas.SetWapExpiryKeepsValid | contracts/amax.mulsign/amax.mulsign.cpp:152-161 | setwapexpiry preserves the row invariant |
| MulsignLemmas.DelMulsignerKeepsValid | contracts/amax.mulsign/amax.mulsign.cpp:171-189 | delmulsigner preserves the row invariant |
| MulsignLemmas.LockFundsKeepsValid | contracts/amax.mulsign/amax.mulsign.cpp:380-387 | locking a positive amount preserves positive balances |
| MulsignLemmas.CreateWalletKeepsValid | contracts/amax.mulsign/amax.mulsign.cpp:362-378 | creating a wallet with 0 < m <= n preserves the row invariant |
| MulsignLemmas.CreateFromMemoKeepsValid | contracts/amax.mulsign/amax.mulsign.cpp:209-223 | wallet creation preserves the row invariant and keeps wallet 0 present |
| MulsignLemmas.OnTransferKeepsValid | contracts/amax.mulsign/amax.mulsign.cpp:200-233 | every transfer notification preserves the row invariant |
| MulsignLemmas.ProposeKeepsValid | contracts/amax.mulsign/amax.mulsign.cpp:254-290 | propose preserves the row invariant |
| MulsignLemmas.CancelKeepsValid | contracts/amax.mulsign/amax.mulsign.cpp:296-311 | cancel preserves the row invariant |
| MulsignLemmas.ApproveKeepsValid | contracts/amax.mulsign/amax.mulsign.cpp:318-339 | approve preserves the row invariant |
| MulsignLemmas.ExecuteKeepsValid | contracts/amax.mulsign/amax.mulsign.cpp:341-358 | execute preserves the row invariant, including balances staying positive |
| MulsignLemmas.StepKeepsValid | contracts/amax.mulsign/amax.mulsign.cpp:75-358 | every action preserves the row invariant |
| MulsignLemmas.StatusNamesDistinct | contracts/amax.mulsign/include/mulsign_db.hpp:72-77 | the status names are pairwise distinct |

## Left out

- The inline actions. Outbound `transfer`s, the mulsign `TRANSFER` and the `COLLECTFEE` inline
  action are appended to an outbox. What the token contract then does with them is not modelled.
- The mulsign `collectfee` action itself only notifies the fee collector, so it is not modelled.
- Persistence is not modelled: singleton load and save, secondary indexes (`by_creator`,
  `by_title`, `by_wallet_id`), `HASH256` and RAM payers. Tables are maps keyed by primary key.
- Error messages and the `to_string` formatting inside them are not modelled; each abort carries
  only an error code.
- The commented-out `createmsign` action is not modelled, because it is not compiled.
- The mulsign error codes SYMBOL_MISMATCH, PAUSED, NOT_POSITIVE, NOT_STARTED and NOTIFY_UNRELATED
  are not modelled, because no action raises them.
- The custody header is not part of this model. `MAX_TITLE_SIZE`, `SYS_SYMBOL` and the default
  `issued`/`unlocked`/`locked` of a new issue row are the parameter `CustodyModel.Settings`.
  `MAX_LOCK_DAYS` is 3650, taken from the message at `custody.cpp:39`. `DAY_SECONDS` is 86400.
- The other row defaults of that header are taken to be 0. These are the plan counters
  `total_issued`, `total_unlocked` and `total_refunded`, which `addplan` (custody.cpp:45-56)
  never assigns. They are also the `last_plan_id` and `last_issue_id` of a new account row
  (custody.cpp:57-61, 136-140). `CustodyLemmas.ConservationBroken` and the empty-memo lemmas
  `CustodyLemmas.LatestPlanIsDefault` and `CustodyLemmas.LatestIssueIsDefault` rely on these zeros.
- Library helpers whose code is not part of this model are specified by their documented
  behaviour: `split`, `to_uint32`/`to_uint64` (an exact decimal parse), `strtoul` (an optional sign and a
  digit prefix, saturating at ULONG_MAX = 2^32-1, a `-` negating modulo 2^32), `stoi` (an optional sign and a digit prefix in the 32-bit
  range, aborting otherwise), `multiply_decimal64` (exact `a * b / c`), `symbol::is_valid` (a code of one to seven upper-case
  letters, with the `uint8_t` precision left unchecked) and
  `available_primary_key` (the largest key plus one).
- Leading whitespace accepted by `stoi` and `strtoul` is not modelled.
- `asset_from_string("0.10000000 AMAX")` is the constant `MulsignModel.WALLET_FEE`, which is
  10000000 units of AMAX with precision 8.
- Integer widths:
  - balances and plan counters are unbounded integers, so `int64_t` overflow of
    `wallet.assets` and `uint64_t` overflow of `total_issued`/`total_unlocked`/`total_refunded`
    are not modelled;
  - the 32-bit weight sum, 32-bit vote counts, 32-bit `time_point_sec` values and the 64-bit
    wrap of `issued - unlocked` are written out.
- Time is not modelled below the second. The mulsign expiry comparisons compare the chain time
  in seconds with the stored 32-bit second count. So sub-second precision is missing, and so is
  the wrap of the chain time past 2^32 seconds.
- `recv_votes` of a new proposal has no initial value in the source. It is the parameter
  `unsetVotes` of `propose`.
- `mulsign_m` and `mulsign_n` of a fresh `wallet_t` row have no initial value either. Every
  stored row gets both from `create_wallet`, so the fresh row holds 0 for them.
- Concurrency is not modelled: each action is atomic, as on chain.
- CustodyModel.InternalUnlock: its own contract states what a success implies, not when the
  action succeeds. When `unlock` and `endissue` succeed is stated, in both directions, by
  `CustodyLemmas.UnlockSucceeds` and `CustodyLemmas.EndIssueSucceeds`. Their exact effects are stated
  by `CustodyLemmas.UnlockPaysDelta`, `CustodyLemmas.EndIssueRefundsStoredLocked` and
  `CustodyLemmas.EndUndepositedIssue`. `CustodyLemmas.NoProgressRule` and
  `CustodyLemmas.FinalPeriodAborts` give particular outcomes.
- MulsignModel.CreateFromMemo: its own contract states only what a success implies. Its effect is
  stated by `MulsignLemmas.FeeCreditedToWalletZero`.
