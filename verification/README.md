# Railguard: a verified model

Railguard limits what an agent's session key may spend. Three stateful protocols share session ids, spend caps and
execution digests: the on-chain hook and account adapter, the Redis budget reservations in front of them, and the
watcher that carries chain events into Postgres. This project models all three, proves what each keeps over every run,
and joins the first and the third end to end. `dafny verify dfyconfig.toml` checks everything.

## How the model is laid out

**On chain.** `SpendMachine` gives the hook, the adapter and an honest token as functions on their joint state.
Control leaves the contracts at every external call, so a frame carries a script for each leaf call: the adapter calls
that re-enter before and after the token moves the balance, each of which succeeds or reverts with full rollback, to
any depth. `Contracts` is the imperative form, two classes with the contracts' storage, proved equal to those
functions. `SpendInvariants`, `SpendSafety` and `SpendTheorems` hold the invariant, its preservation through call
trees and what follows for all runs; `SpendProvenance` traces lanes back to their registrations; `SpendBalances` compares token balances with spend, `SpendSequences` treats
sequence numbers lane by lane, `SpendNesting` is a concrete nested run. `Basics`, `Words`, `SessionTypes`, `ExecutionDecoder` and `SessionId`
hold shared helpers, bytes, fixed-width encoding, calldata and session ids.

The proof rests on one accounting law: along any call tree, a session's spend, plus what frames still open owe for it,
equals what its calls moved. `postCheck`'s second cap check is where a stale `preCheck` reading is settled.

**Budget.** `Budget` and `BudgetHistory` give the reservation service serially, one operation at a time under a clock
in whole seconds where a key can be read up to and including its expiry second; `BudgetConservation` proves the laws,
`BudgetHandler` adds the reserve handler, which fixes the lifetime of the aggregate, `BudgetSpellings` looks at all
spellings of a session id together, `BudgetAcceptance` says when requests are accepted and what they write, and
`BudgetService` is the class.
`BudgetInterleaving` is a second model in which any number of calls run concurrently, one Redis command per step, with
errors before or after each command, crashes, and keys lapsing at any moment, locks included. `BudgetTracing` traces what the
concurrent calls did to the counter back to the calls that were made, `BudgetUndisturbed` says what a call does when
nothing gets in its way, and `BudgetLease` shows why the sections must end within the lease of their lock.

**Watcher.** `ChainStore`, `Reconciliation` and `Watcher` model the tables and the polling loop, with failure possible
at every RPC and store call and restart at any time. `EndToEnd` feeds the loop the logs that runs of the on-chain
machine emit. `SessionAuthorization` interleaves evaluation requests with registration transactions, one SQL statement
per step, and holds their invariant; `AuthorizationHistory` traces the tables back to the requests, and
`AuthorizationTheorems` states what follows.

keccak256 is a free constructor: injective, and never equal to a plain number. Unsigned 256-bit arithmetic is checked,
as Solidity's is.

## Where the code does not do what one might expect

Each of these is a lemma, with the exact condition under which the expected property does hold.

* Frames of one session that nest move its sequence number backwards, because the outer `postCheck` writes the number
  it read before its calls plus one. In `NestedRunMovesSequenceBack` three executions leave the number at 1, and a
  fresh frame is then rejected as a replay. On every run the number is behind the count of executions by exactly the
  frames of the lane that committed inside another one of the lane (`LagIsNestedCommits`), so it is exact if and only
  if there was none, which a script without such nesting guarantees (`UnnestedLaneIsExact`); a lag never shrinks
  (`LagIsForGood`). For one frame, `ExactAfterFrameIff` gives the condition on its script.
* Idempotency claims are keyed `idem:session:key`, so two sessions can share a claim (`ColonSessionsCollide`), exactly
  if one is the other followed by a colon (`SessionsCanShareIff`). With Postgres such a session id does not reach the
  reservation service, because the handler needs a stored session row (signgate/internal/api/server.go:291-295) and
  stored ids are hexadecimal hashes; the no-op store lets it through (signgate/internal/store/store.go:535-540).
* A repeat after a release still gets the released reservation's id, which holds no budget
  (`RepeatAfterReleaseIsHollow`); the claim's answer is backed exactly when its member is still in the index and not
  due (`RepeatAnsweredByClaim`).
* A repeat whose idempotency key differs by blanks finds the claim but not the row in Postgres, and the handler then
  releases the reservation of the first call (`RepeatWithBlanksReleases`). `HandlerRepeatIff` says when a repeat is
  granted and when it releases.
* After the aggregate key has lapsed, the next accepted reservation starts from zero; the balance is right again if and
  only if nothing was left over (`AfterLapseConservedIff`). The handler's choice of lifetime keeps this from happening
  while a session is valid (`LifetimeBudget`).
* The session row is found by session id in any letter case, but the Redis keys use the spelling of the request, so a
  session's spellings can jointly exceed its cap (`SpellingsExceedCap` ends with 120 under a cap of 100). The joint
  total stays within the cap throughout if and only if every granted amount had room next to what all spellings hold
  (`JointBudgetIff`), and always if all calls use one spelling (`OneSpellingKeepsCap`).
* The session lock is a lease of ten seconds that the section does not check again. If it lapses inside the section, an
  update can be lost: two calls are granted and the aggregate counts only one (`LapsedLeaseLosesUpdate`). No aggregate
  exceeds its cap even then (`AggregateNeverExceedsCap`), but what was granted can. A grant counts in full exactly if the
  aggregate is still what the call read (`WriteCountsIff`); while every section ends within its lease, no update is lost
  (`RunRefinesCounter`).
* Ingesting an event again commits a second reservation when two open ones of the session are bound to its digest; a
  repeat is harmless if and only if at most one is (`RepeatIsHarmlessIff`).

## Model

| member | source | states |
|---|---|---|
| Words.AbiEncodeInjective | contracts/src/libraries/SessionId.sol:9-41 | fixed-width ABI encoding of a list of words is injective |
| Words.HashOfWordsIsHashOfEncoding | contracts/src/libraries/SessionId.sol:9-41 | for any assignment of 256-bit values that keeps the fields apart, hashing the encoded fields distinguishes exactly what hashing the words does, so the free constructor stands for keccak256 of an encoding |
| ExecutionDecoder.DecodeSingleInvertsEncode | contracts/src/libraries/ExecutionDecoder.sol:12-33 | decoding an encoded target, value and calldata returns all three, for every target, value and calldata |
| ExecutionDecoder.EncodeSingleInvertsDecode | contracts/src/libraries/ExecutionDecoder.sol:17-20 | decoding fails exactly below 52 bytes; otherwise re-encoding the parts gives the input back byte for byte |
| ExecutionDecoder.ParseTransferIff | contracts/src/RailguardExecutionHook.sol:209-222 | the leaf check reads a recipient and an amount from calldata if and only if the calldata begins with the encoding of that transfer |
| ExecutionDecoder.Slice | contracts/src/RailguardExecutionHook.sol:235-240 | the copy loop fills a fresh buffer with the suffix from `start` |
| SessionId.SessionIdInjective | contracts/src/libraries/SessionId.sol:9-41 | equal session ids come only from equal chain, adapter, account, nonce key and equal physical terms |
| SpendSafety.ValidateLeafIff | contracts/src/RailguardExecutionHook.sol:188-233 | a leaf is accepted with an amount if and only if it is a zero-value transfer of that amount, within the per-transfer limit, on the session's token, to its recipient, with no self call and no zero target |
| SpendSafety.ValidateLeavesIff | contracts/src/RailguardExecutionHook.sol:175-181 | a frame's total is accepted if and only if every leaf is allowed, the total is the sum of their amounts and it does not overflow |
| SpendSafety.ValidatedIsExecuted | contracts/src/RailguardAccountAdapter.sol:178-192 | when validation accepts a frame, `_execute` decodes the same executions, each of them allowed by the lane, and their amounts sum to the validated spend |
| SpendSafety.ValidateFrameIff | contracts/src/RailguardExecutionHook.sol:155-186 | a frame validates with a total if and only if it decodes, its lane takes its mode, every leaf is allowed and the amounts sum to that total without overflow |
| SpendSafety.PreCheckIff | contracts/src/RailguardExecutionHook.sol:56-95 | `preCheck` succeeds if and only if the lane is open, the digest for the current number is unused, every leaf is allowed and the sum of amounts fits under the cap |
| SpendSafety.PostCheckCommits | contracts/src/RailguardExecutionHook.sol:97-112 | a successful `postCheck` consumes an unused digest, raises only its own session's spend, within the cap, sets only its own sequence number and emits the one event that reports both |
| SpendSafety.CommitKeepsCaps | contracts/src/RailguardExecutionHook.sol:104-107 | whatever happened since `preCheck`, committing leaves every lane within its cap |
| SpendSafety.ExecuteProgress | contracts/src/RailguardAccountAdapter.sol:93-104 | a successful frame with any re-entrant calls inside keeps the invariant, loses no event or call, and settles its debt exactly |
| SpendSafety.CallsProgress | contracts/src/RailguardAccountAdapter.sol:178-192 | while a frame's calls run, moved amounts are recorded spend plus exactly what the open frame still owes |
| SpendSafety.CallLeafProgress | contracts/src/RailguardAccountAdapter.sol:194-207 | one external call with re-entry before and after it moves exactly its transfer amount on top of what the re-entrant calls settled |
| SpendSafety.CallsGoThroughIff | contracts/src/RailguardAccountAdapter.sol:178-207 | a frame's calls succeed if and only if each, in the state its predecessors and its own re-entry leave, can be paid from the balance and returns true or nothing |
| SpendSafety.CheckReturnIff | contracts/src/RailguardAccountAdapter.sol:194-207 | a call's return is accepted if and only if it is true or empty; false and a revert are refused, each with its own error |
| SpendSafety.LeafRefusals | contracts/src/RailguardExecutionHook.sol:188-233 | the error a leaf is refused with, for each way it can be wrong, in the order of the checks |
| SpendSafety.FrameRefusals | contracts/src/RailguardAccountAdapter.sol:93-104 | the error a frame is refused with before any of its calls: unknown, revoked, early or late lane, wrong sender, used digest, mode, and total over the cap |
| SpendSafety.ExecutionDigestIff | contracts/src/RailguardExecutionHook.sol:126-147 | two frames share a digest if and only if they agree on chain, hook, account, session, nonce key, sequence number, mode and content |
| SpendInvariants.RegisterProgress | contracts/src/RailguardAccountAdapter.sol:46-84 | registration keeps the invariant, and the new lane's id belongs to no other lane and has no event and no spend yet |
| SpendTheorems.SpendIsCappedAndExact | contracts/src/RailguardExecutionHook.sol:56-112 | over every run of call trees, each lane's spend is within its cap and equals both what its calls moved and what its events report |
| SpendTheorems.CallRaisesSpendByMoved | contracts/src/RailguardAccountAdapter.sol:93-104 | each successful top-level call raises every session's spend by exactly what was moved for that session |
| SpendTheorems.CapHoldsThroughout | contracts/src/RailguardExecutionHook.sol:104-107 | the caps hold at every point inside a call tree at which the adapter is re-entered, not only at its end |
| SpendTheorems.CommittedFrame | contracts/src/RailguardAccountAdapter.sol:93-104 | a committed frame's lane was open and its sender the session key or the owner; each of its calls is a transfer the lane allows, and each scripted one returned true or nothing; its event reports the sum of their amounts and the new total |
| SpendTheorems.EveryCallIsLegit | contracts/src/RailguardAccountAdapter.sol:194-207 | every external call of every run is a zero-value transfer on a registered lane's token to its recipient within its limit |
| SpendTheorems.EventsAccountForSpend | contracts/src/RailguardExecutionHook.sol:100-111 | over all runs, nested or not, event digests are pairwise distinct, every event carries its session's running sum, and a session's spend is the sum over its events |
| SpendTheorems.LanesAreWriteOnce | contracts/src/RailguardAccountAdapter.sol:46-91 | a registered lane never changes except by being revoked, stays revoked, and never shares its session id with another lane |
| SpendTheorems.RevokedLaneIsDead | contracts/src/RailguardAccountAdapter.sol:86-99 | from a state between transactions in which a lane is revoked, nothing is ever executed or spent on it again |
| SpendProvenance.EveryLaneWasSigned | contracts/src/RailguardAccountAdapter.sol:46-84 | every lane of every run was put in place by a registration that took effect, at top level or inside frames that all succeeded, on exactly its terms and under both signatures; token and session key are nonzero, the target is the token, the selector is transfer's, the per-transfer limit is positive and at most the cap, the window is not empty, and the id is derived from the terms |
| SpendProvenance.OnlyTheOwnerRevokes | contracts/src/RailguardAccountAdapter.sol:86-91 | over every run, a lane is revoked if and only if a call of the owner that revokes it took effect, at any depth, or it was registered that way |
| SpendProvenance.RevocationIff | contracts/src/RailguardAccountAdapter.sol:86-91 | a revocation succeeds if and only if the sender is the owner and the lane exists; it sets that lane's flag and leaves every other lane and everything else as it was |
| SpendProvenance.RevocationIsForGood | contracts/src/RailguardAccountAdapter.sol:86-99 | from a revocation at any point of any run on, the lane stays revoked, every frame on it reverts with `SessionRevoked`, and it gains no event and no spend |
| SpendProvenance.RegistrationIff | contracts/src/RailguardAccountAdapter.sol:46-84 | a registration succeeds if and only if its terms are consistent, its nonce key is free and both signatures are there; it then stores exactly its terms and changes nothing else |
| SpendProvenance.RunRespects | contracts/src/RailguardAccountAdapter.sol:46-104 | what no registration or revocation that takes effect does directly, no frame does at any depth: an induction principle for the adapter's sessions |
| SpendBalances.OutflowIsLaneMoves | contracts/src/RailguardAccountAdapter.sol:194-207 | what left the adapter in a token is the sum, over the lanes paying that token to others, of what their calls moved |
| SpendBalances.BalanceFallsBySpend | contracts/src/RailguardAccountAdapter.sol:93-104 | on every run, a token balance plus the total spend of the lanes that pay it out to others equals the initial balance plus what was received |
| SpendSequences.NextDigestUnused | contracts/src/RailguardExecutionHook.sol:65-73 | while a session's used digests carry smaller numbers, its next digest is unused |
| SpendSequences.FrameAdvancesSequenceByOne | contracts/src/RailguardExecutionHook.sol:109 | any successful frame leaves its session's sequence number one above where it stood when the frame began |
| SpendSequences.ExactAfterFrameIff | contracts/src/RailguardExecutionHook.sol:83-109 | from an exact count, a successful frame leaves its lane's number exact if and only if walking its script from the state before it meets no other frame of the lane that commits; in particular if the script holds none |
| SpendSequences.LagIsNestedCommits | contracts/src/RailguardExecutionHook.sol:97-112 | over every run of call trees, a lane's number is behind the count of its executions by exactly the frames of the lane that committed inside another frame of the lane; it is exact if and only if there was none, and then every used digest carries a smaller number |
| SpendSequences.UnnestedLaneIsExact | contracts/src/RailguardExecutionHook.sol:97-112 | in a run in which no frame of a lane has another one of that lane anywhere in its script, whatever other lanes nest, the lane's number equals its execution count and its used digests carry smaller numbers |
| SpendSequences.LagIsForGood | contracts/src/RailguardExecutionHook.sol:109 | later runs only ever add to a lane's lag, by their own nested frames |
| SpendSequences.UnnestedFrameAccepted | contracts/src/RailguardExecutionHook.sol:56-112 | a frame whose script holds no frame of its own lane succeeds if and only if its lane admits the sender, its content is allowed and fits under the cap, and call by call, in the state it meets, the balance covers the amount and the token returns true or nothing; it is never rejected as a replay |
| SpendNesting.NestedRunMovesSequenceBack | contracts/src/RailguardExecutionHook.sol:109 | from deployment on: one signed registration, then nested frames after which the number has gone 2 and back to 1 with three executions, and a fresh frame is rejected as a replay |
| Contracts.ExecutionHook.SetAdapter | contracts/src/RailguardExecutionHook.sol:48-54 | only the deployer binds the adapter, once, and never to the zero address |
| Contracts.ExecutionHook.ValidateBatch | contracts/src/RailguardExecutionHook.sol:175-181 | the accumulating loop computes the specified frame spend or first error |
| Contracts.ExecutionHook.ValidateFrame | contracts/src/RailguardExecutionHook.sol:155-186 | mode dispatch, with each mode's error, as specified |
| Contracts.ExecutionHook.PreCheck | contracts/src/RailguardExecutionHook.sol:56-95 | computes the specified context or error from storage, for the adapter only, and changes nothing |
| Contracts.ExecutionHook.PostCheck | contracts/src/RailguardExecutionHook.sol:97-112 | updates spend, digests, sequence numbers and events as specified, for the adapter only, or changes nothing |
| Contracts.AccountAdapter.RegisterSession | contracts/src/RailguardAccountAdapter.sol:46-84 | stores the configuration exactly when all checks pass, else reports the first failing check and changes nothing |
| Contracts.AccountAdapter.RevokeSession | contracts/src/RailguardAccountAdapter.sol:86-91 | ends in the state the revocation function gives: the flag set on an existing lane for the owner, by `RevocationIff`, else the error and nothing changed |
| Contracts.AccountAdapter.CallLeaf | contracts/src/RailguardAccountAdapter.sol:194-207 | an external call with its re-entry ends in the specified state or error; `CheckReturnIff` says which returns it accepts |
| Contracts.AccountAdapter.ExecuteCalls | contracts/src/RailguardAccountAdapter.sol:184-190 | the call loop ends in the specified state or stops at the first failing call |
| Contracts.AccountAdapter.RunFrame | contracts/src/RailguardAccountAdapter.sol:102-103 | the calls followed by `postCheck` end in the specified state or error |
| Contracts.AccountAdapter.ExecuteWithSession | contracts/src/RailguardAccountAdapter.sol:93-104 | a frame ends in the specified state, or reverts with every field restored |
| BudgetKeys.IdemKeyIff | signgate/internal/reservation/reservation.go:30-40 | for all sessions and keys, two claim keys coincide if and only if the trimmed sessions and keys do, or one session continues the other after a colon and the keys make up for it |
| BudgetKeys.SessionsCanShareIff | signgate/internal/reservation/reservation.go:30-40 | two different trimmed sessions share a claim under some keys if and only if one is the other followed by a colon and then nothing or text that does not begin with a blank |
| BudgetKeys.ColonSessionsCollide | signgate/internal/reservation/reservation.go:39 | two different sessions and keys with one claim key |
| BudgetKeys.ExpiryMemberRoundTripIff | signgate/internal/reservation/reservation.go:57-67 | an index member reads back as written if and only if reservation id and session contain no bar |
| BudgetKeys.DecimalRoundTrip | signgate/internal/reservation/reservation.go:136-155 | an aggregate written as a decimal string reads back as the same number |
| BudgetKeys.ParseDecimalIff | signgate/internal/reservation/reservation.go:107-114 | a string reads as a number if and only if it is the number's decimal form behind an optional sign and zeros |
| BudgetKeys.TrimSpaceCuts | signgate/internal/reservation/reservation.go:31-32 | trimming takes away blanks at both ends and nothing else, and leaves none there |
| BudgetHistory.SweepEffect | signgate/internal/reservation/reservation.go:70-92 | a sweep removes exactly the members that are due and keeps the structure of index, metadata and claims |
| BudgetHistory.WriteKeepsInv | signgate/internal/reservation/reservation.go:154-166 | an accepted reservation keeps one pending member per claim key, because the sweep ran before the lookup |
| BudgetHistory.ApplyKeepsInv | signgate/internal/reservation/reservation.go:95-247 | every operation keeps the structure, whatever has lapsed |
| BudgetConservation.AggregateIsPendingPlusCommitted | signgate/internal/reservation/reservation.go:130-247 | over any serial history in which the key does not lapse, the aggregate is the sum of pending amounts plus the sum of committed amounts |
| BudgetConservation.FloorNeverFires | signgate/internal/reservation/reservation.go:242-246 | giving back a pending amount from a conserved aggregate subtracts it in full |
| BudgetConservation.AfterLapseConservedIff | signgate/internal/reservation/reservation.go:130-166 | after a lapse, an accepted reservation restores the balance if and only if nothing was pending or committed before it |
| BudgetConservation.GoneForGood | signgate/internal/reservation/reservation.go:169-213 | a reservation that left the index never returns, and later commits and releases of it change nothing, whatever follows |
| BudgetConservation.OnePendingPerKey | signgate/internal/reservation/reservation.go:100-166 | over any history at most one reservation is pending per claim key |
| BudgetConservation.RepeatAnsweredByClaim | signgate/internal/reservation/reservation.go:116-118 | a live claim answers a repeat with its own id, takes no budget, and is backed exactly when its member is in the index and not due |
| BudgetConservation.RepeatInsideWindow | signgate/internal/reservation/reservation.go:116-166 | inside the window of an accepted reservation, whatever happened in between, a repeat gets its id and no budget |
| BudgetConservation.RepeatAfterReleaseIsHollow | signgate/internal/reservation/reservation.go:116-213 | after a release a repeat gets the released id, which holds no budget |
| BudgetAcceptance.TermsIff | signgate/internal/reservation/reservation.go:103-114 | a request has terms if and only if its session and key are more than blanks and both amounts read as positive numbers; its claim key is then `idem:`, the trimmed session, a colon and the trimmed key |
| BudgetAcceptance.InvalidIff | signgate/internal/reservation/reservation.go:103-114 | the reason a request without terms is rejected for is its first wrong field |
| BudgetAcceptance.ReserveIff | signgate/internal/reservation/reservation.go:95-144 | in every state, a request gets a new reservation if and only if it has terms, its key has no live claim, and the session's total, less the overdue amounts, plus its own is within the cap; it is denied if and only if only the last fails |
| BudgetAcceptance.AcceptedWrites | signgate/internal/reservation/reservation.go:145-166 | an accepted reservation writes its claim, metadata, member and aggregate with their amounts, the first and third lapsing after its TTL, the second after twice that and the last after the session's, by default 300 seconds and a day |
| BudgetHandler.GateEffect | signgate/internal/api/server.go:291-330 | a request that passes the handler's checks comes within the session's window, both ends included, with the row's cap and a lifetime reaching the window's end |
| BudgetAcceptance.GateIff | signgate/internal/api/server.go:291-330 | a call passes the handler if and only if its session is known, active and inside its window, agent and intent match, and the amount is positive and within the per-transfer limit; the request it becomes has the row's cap, five minutes, and an aggregate lasting to the end of the window and at least a minute |
| BudgetAcceptance.RefusalIff | signgate/internal/api/server.go:291-322 | which of the four answers a call that does not pass gets |
| BudgetAcceptance.HandlerFirstCallIff | signgate/internal/api/server.go:326-345 | a first call is denied if and only if its amount does not fit, granted if and only if it fits and Postgres takes its row, and otherwise fails with its reservation taken back |
| BudgetAcceptance.FinalizeKeepsTotal | signgate/internal/api/server.go:403-406 | finalizing moves a pending amount to committed, takes the reservation out of the index and keeps the session's total and its aggregate |
| BudgetAcceptance.RevertLowersTotal | signgate/internal/api/server.go:407-409 | reverting lowers the session's total and its aggregate by exactly the amount and takes the reservation out of the index, or changes nothing once its metadata has lapsed |
| BudgetHandler.LifetimeBudget | signgate/internal/api/server.go:300-345 | over any serial run of the handlers, all that was committed plus all that is pending under one spelling of a session id stays within its cap, and inside the session's window the aggregate is exactly that sum |
| BudgetHandler.HandlerRepeatIff | signgate/internal/api/server.go:327-344 | while a claim is live, a repeat is granted the claim's reservation and leaves it alone if and only if Postgres recognises it under the repeat's own spelling of the key; otherwise it fails and the reservation is released |
| BudgetHandler.RepeatWithBlanksReleases | signgate/internal/api/server.go:335-342 | a repeat of a granted call whose key differs by blanks fails and releases the reservation the first call was given |
| BudgetSpellings.SpellingsHaveSeparateBudgets | signgate/internal/api/server.go:291-330 | a spelling without an aggregate is accepted if and only if its amount alone is within the full cap, whatever other spellings hold, and their aggregates stay as they are |
| BudgetSpellings.JointAfterReserve | signgate/internal/reservation/reservation.go:120-166 | an accepted reservation of any spelling adds exactly its amount to what the sweep left of the joint total, so the joint total is within the cap afterwards if and only if there was joint room |
| BudgetSpellings.JointBudgetIff | signgate/internal/api/server.go:285-345 | over every serial run of the handlers, the joint total of a session's spellings stays within its cap throughout if and only if no call was granted without joint room for its amount |
| BudgetSpellings.OneSpellingKeepsCap | signgate/internal/api/server.go:285-345 | if all reserve calls for a session spell it in one way, its joint total stays within its cap for good |
| BudgetSpellings.SpellingsExceedCap | signgate/internal/api/server.go:291-330 | a run of two calls, within the per-transfer limit, that ends with 120 reserved under a cap of 100 |
| BudgetService.ReservationService.Acquire | signgate/internal/reservation/reservation.go:121-127 | the lock is taken exactly when it is free |
| BudgetService.ReservationService.ReleaseAmount | signgate/internal/reservation/reservation.go:215-247 | subtracts under the lock, floored at zero and only while the key lives, and returns the lock |
| BudgetService.ReservationService.SweepExpired | signgate/internal/reservation/reservation.go:70-92 | the member loop ends in the specified swept state |
| BudgetService.ReservationService.Reserve | signgate/internal/reservation/reservation.go:95-167 | sweep, parsing, claim lookup, check and writes end in the specified state and outcome |
| BudgetService.ReservationService.DropMember | signgate/internal/reservation/reservation.go:172-180 | the scan removes the member with the given id and nothing else |
| BudgetService.ReservationService.CommitReservation | signgate/internal/reservation/reservation.go:169-183 | drops metadata and member and leaves the aggregate |
| BudgetService.ReservationService.ReleaseReservation | signgate/internal/reservation/reservation.go:185-213 | gives the amount back while the metadata lives and drops metadata and member, else changes nothing |
| BudgetInterleaving.AggregateNeverExceedsCap | signgate/internal/reservation/reservation.go:120-166 | in every interleaving of any number of calls, with failures, crashes and lapses of any key, locks in use included, no aggregate exceeds its session's cap |
| BudgetInterleaving.SectionsExclude | signgate/internal/reservation/reservation.go:120-128 | while the leases hold, no two calls are ever in the critical section of one session |
| BudgetInterleaving.RunRefinesCounter | signgate/internal/reservation/reservation.go:120-247 | in every interleaving in which the leases hold, the locked sections act as an atomic counter with "add if it fits" and "subtract, floored at zero": every verdict is the counter's and no update is lost |
| BudgetTracing.OperationsStandForCalls | signgate/internal/reservation/reservation.go:95-247 | in every interleaving, every addition to the counter is that of a reserve call its process made, for its session and amount, and no call is counted twice; every subtraction gives back the amount an earlier addition of that session was granted; every member and metadata entry is that of a granted call |
| BudgetTracing.CounterForgetsOnlyLapses | signgate/internal/reservation/reservation.go:130-135 | while the leases hold, the counter forgets a session at most as often as the session's aggregate lapsed |
| BudgetUndisturbed.UndisturbedReserve | signgate/internal/reservation/reservation.go:95-167 | a reserve call none of whose commands fails and whose session nobody else serves either answers from a live claim, or is denied because its amount does not fit, or writes the new aggregate, its claim, metadata and member, whatever other processes are about to do |
| BudgetUndisturbed.UndisturbedSweep | signgate/internal/reservation/reservation.go:70-92 | its sweep gives back the amount of every member it found due and forgets their reservations |
| BudgetUndisturbed.UndisturbedRelease | signgate/internal/reservation/reservation.go:185-213 | a release gives the recorded amount back, floored at zero, and forgets the reservation; without metadata it changes nothing |
| BudgetUndisturbed.UndisturbedCommit | signgate/internal/reservation/reservation.go:169-183 | a commit forgets the reservation and leaves every aggregate alone |
| BudgetLease.WriteCountsIff | signgate/internal/reservation/reservation.go:154-166 | a granted call counts in full if and only if the aggregate is still what it read under its lock |
| BudgetLease.LapsedLeaseLosesUpdate | signgate/internal/reservation/reservation.go:120-166 | two calls of one session, the first of which loses its lock between its read and its write, are both granted, and the aggregate counts only the second |
| ChainStore.Store.RecordChainExecution | signgate/internal/store/store.go:366-383 | inserts if absent, then commits a matching reservation; a failure leaves either step undone but never the commit without the row |
| ChainStore.InsertRowIff | signgate/internal/store/store.go:366-378 | an insertion is refused if and only if its log is new and its digest taken; otherwise the log has a row afterwards, at most one row is added, and logs and digests stay unique |
| ChainStore.Store.SetWatcherBlockCursor | signgate/internal/store/store.go:347-364 | the cursor holds the old or the new block, the new one on success |
| ChainStore.Store.GetWatcherBlockCursor | signgate/internal/store/store.go:336-345 | reads the stored block, or nothing on failure |
| Reconciliation.IngestIsOrderFree | signgate/internal/store/store.go:366-383 | ingesting any list of events, in any order and with repetitions, adds exactly their rows and commits exactly the open reservations bound to one of them in their own session |
| Reconciliation.SameEventsSameTables | signgate/internal/store/store.go:366-383 | two ingestions of the same set of events end in the same tables |
| Reconciliation.CommittedIff | signgate/internal/store/store.go:455-478 | a reservation becomes committed if and only if its status was `BUDGET_RESERVED` or `USEROP_SUBMITTED` and an ingested event of its session carried its digest |
| Reconciliation.CommitMatchingIsPointwise | signgate/internal/store/store.go:459-470 | when bindings are distinct, committing one match commits the match and nothing else |
| Reconciliation.CommitMatchingIsJustified | signgate/internal/store/store.go:459-470 | whatever the bindings, an event commits only open reservations of its session bound to its digest, and changes nothing else of any |
| Reconciliation.RepeatIsHarmlessIff | signgate/internal/store/store.go:455-478 | ingesting an event again changes nothing if and only if at most one open reservation of its session was bound to its digest |
| Watcher.ComputeSafeHead | signgate/internal/watcher/watcher.go:100-109 | there is a safe head exactly when the chain is at least `confirm` long, and it has exactly `confirm` blocks above it |
| Watcher.InsertSucceeds | signgate/internal/store/store.go:366-378 | on a chain with distinct digests no insertion is ever refused |
| Watcher.Reconciler.constructor | signgate/internal/watcher/watcher.go:57-63 | resuming from the stored cursor, or else from just before the start block, establishes completeness up to the cursor |
| Watcher.Reconciler.IngestLog | signgate/internal/watcher/watcher.go:170-199 | adds at most the row read from the log, and on success that row is recorded; commits only open reservations of a recorded event, and on success, with distinct bindings, leaves none waiting for this one |
| Watcher.ParseReads | signgate/internal/watcher/watcher.go:170-199 | a log with three indexed fields reads as the row with its account, session, nonce key, spend, total and position, with or without a digest before the amounts |
| Watcher.UnreadableIff | signgate/internal/watcher/watcher.go:170-187 | a log is skipped if and only if it has fewer than four topics, and gives a row that cannot be stored if and only if its data is shorter than two words |
| Watcher.Reconciler.IngestBlock | signgate/internal/watcher/watcher.go:153-157 | on success every readable log of the block is recorded and, with distinct bindings, none of them is still waited for; nothing from another block is added; reservations are committed only by recorded events of their own |
| Watcher.Reconciler.GroupByBlock | signgate/internal/watcher/watcher.go:147-150 | every log is in its own block's group, and each group holds exactly the block's logs in their order |
| Watcher.Reconciler.ScanStart | signgate/internal/watcher/watcher.go:126-133 | scanning starts one past the cursor less the rescan width, or one past the cursor while the width exceeds it |
| Watcher.Reconciler.StoreCursor | signgate/internal/watcher/watcher.go:158-164 | the stored cursor is the old one or the block, and the block on success |
| Watcher.Reconciler.ScanBlocks | signgate/internal/watcher/watcher.go:152-167 | wherever a call fails, the record is complete up to both cursors although a rescan moves them back, reservations are committed only by recorded events of their own, and with distinct bindings what was settled up to the cursors stays settled; a scan that ends settles all it went over |
| Watcher.Reconciler.Poll | signgate/internal/watcher/watcher.go:111-168 | whatever fails, rows only grow, none comes from a block with fewer than the confirmation number above it, completeness holds, reservations are committed only by recorded events of their own and, with distinct bindings, none bound to a log up to a cursor is left open; a poll that scans to its end settles, from whatever state it finds, every log after the cursor and in the last blocks before it that the rescan width covers; a poll without failures brings the cursor to the safe head |
| Watcher.Watch | signgate/internal/watcher/watcher.go:38-98 | over any number of process lifetimes, ticks and failures, the record is sound, complete from the first block to the cursor in memory and the one stored, and holds nothing that no tick saw deep enough; a reservation is committed only by a recorded event of its own session and digest; with distinct bindings none bound to a log up to either cursor is left open, since a lost commit keeps the cursors from passing its block; and if the last tick works, the cursor has reached its safe head |
| EndToEnd.LogKeysUnique | db/migrations/002_watcher.sql:7-19 | the logs of any run, with any number of adapter calls in one transaction, have distinct transaction hash and log index |
| EndToEnd.ChainIsStorable | db/migrations/004_execution_digest.sql:7-9 | the logs of any run are readable and carry distinct digests, so the unique digest index never blocks ingestion |
| EndToEnd.ParseMatching | signgate/internal/watcher/watcher.go:170-198 | the watcher reads an `ExecutionAllowed` log back as the event that was emitted |
| EndToEnd.RecordedRowsAreTheEvents | signgate/internal/watcher/watcher.go:111-199 | a sound record complete through a block holds exactly the session's events up to that block |
| EndToEnd.RecordedSpendIsChainSpend | signgate/internal/watcher/watcher.go:111-199 | the frame spends recorded for a session up to such a block add up to the hook's spend of it at that block |
| EndToEnd.LastRowCarriesSpend | contracts/src/RailguardExecutionHook.sol:97-112 | the session's last row up to such a block carries the hook's spend at that block as its running total |
| EndToEnd.MatchedByEvent | signgate/internal/store/store.go:455-478 | a reservation that a recorded row matches is bound to an event the hook emitted, in the event's session |
| EndToEnd.NoneBoundToEvent | signgate/internal/watcher/watcher.go:152-166 | where the record is settled up to a block, no open reservation is bound to an event the hook emitted by that block |
| EndToEnd.CutExists | signgate/internal/watcher/watcher.go:152-166 | for every block there is a point of the history that separates its transactions from later ones, so the end-to-end equality speaks of every block |
| EndToEnd.WatchChain | signgate/internal/watcher/watcher.go:38-98 | run on any chain on which scanning begins before the hook's first event, through any lifetimes and failures: at every block either cursor has reached, each session's rows add up to its spend on chain and the last of them carries it; with distinct bindings no open reservation is bound to an event emitted by then; and no reservation is committed without an event of its own |
| AuthorizationTheorems.BindingsAreUniqueAndFinal | signgate/internal/store/store.go:244-316 | in every interleaving two decisions are never bound to one session, and a bound decision never changes |
| AuthorizationTheorems.RepeatSucceedsWithoutEffect | signgate/internal/store/store.go:266-271 | a repeat for the session its decision is bound to succeeds at once and changes no table |
| AuthorizationTheorems.SuccessIsBound | signgate/internal/store/store.go:244-316 | an authorization succeeds only with its decision bound to its session and the session's row stored; the decision was given as ALLOW, and the process was asked for exactly this key, nonce key and window on it |
| SessionAuthorization.InsertionIsFresh | signgate/internal/store/store.go:286-315 | no session row exists for a binding that is still open, so the insertion's DO NOTHING never applies |
| AuthorizationTheorems.PreparedIsBacked | signgate/internal/api/server.go:190-227 | what the handler submits carries the terms of the intent behind an ALLOW decision, is valid, and stands under the derived id |
| AuthorizationTheorems.LimitsDoNotDrift | signgate/internal/api/server.go:197-253 | in every interleaving each session row goes back to a decision that was given as ALLOW and is bound to it; the row carries the limits, batch flag and, up to letter case, the addresses of the request that decision judged, the decision's policy, which is the one in force, the session key, nonce key and window some call registered it with, and the id the adapter derives for them |
| AuthorizationTheorems.SameHashSameLimits | signgate/internal/intent/intent.go:48-81 | requests with one intent hash agree on every limit and, up to letter case, on every address |
| AuthorizationTheorems.StoredTermsAreFinal | signgate/internal/store/store.go:98-108 | no later evaluation or registration changes a stored intent or an authorised session row |
| AuthorizationTheorems.DecisionsWereGiven | signgate/internal/store/store.go:98-117 | every stored decision was given on the request, with the verdict and under the policy it is stored with; every stored intent was evaluated and stands under its own hash |
| AuthorizationTheorems.OnlyAllowedIsConsumed | signgate/internal/store/store.go:219-221 | no decision but an ALLOW is ever bound to a session |
| AuthorizationTheorems.RowsAreUnique | signgate/internal/store/store.go:244-316 | no two session rows share an account and nonce key, and no two intents an idempotency key |
| AuthorizationTheorems.EvaluationStores | signgate/internal/store/store.go:98-117 | an evaluation finds its intent stored if and only if it was before or its numbers are numbers and its idempotency key is new; a new decision is stored if and only if its intent is |
| AuthorizationTheorems.PrepareIff | signgate/internal/api/server.go:188-228 | a registration can be prepared if and only if its decision is a stored ALLOW under the policy in force, the limits fit each other, the window is positive and not empty, the nonce key is a number and no name is blank |
| AuthorizationTheorems.UndisturbedRegistration | signgate/internal/store/store.go:244-316 | a registration that nothing disturbs succeeds if and only if it can be prepared and its decision, session and lane are free, or it is a repeat; it then leaves its binding and row stored, and otherwise the tables as they were |
| AuthorizationTheorems.HashIff | signgate/internal/intent/intent.go:48-81 | two requests hash alike if and only if they agree on every field of the canonical form, names up to letter case |

## Left out

* keccak256, ECDSA recovery and EIP-712 hashing: a free constructor for the first; a signature is its length and the signer recovered for the configuration at hand.
* Tokens other than an honest ERC-20 with callbacks, and transfers of native value, which validation rejects.
* ABI decoding of `Execution[]`: one arbitrary partial function, shared by hook and adapter; ERC-7579 conformance of the mode constants is not claimed.
* `ExecutionBlocked` events: each is followed by a revert in the same call, which erases it.
* Change of the adapter's owner: the owner is fixed.
* The configuration that `preCheck` gets from the adapter is passed in as the adapter's storage at that moment.
* Gas, and contracts calling the hook other than through the adapter, beyond their rejection.
* `RailguardSessionValidator`, which repeats the adapter's gate with a signature check.
* Serial budget histories assume session ids without a bar, as `ExpiryMemberRoundTripIff` requires, so the sweep's branch for members it cannot read is not modelled.
* Clocks below one second, and a clock that moves inside an operation of a serial history.
* A sweep that stops halfway appears in the interleaving model only.
* Agreement between Redis and Postgres: the watcher commits the Postgres row only.
* BudgetInterleaving.RunRefinesCounter: assumes that every section ends within the lease of its lock; that it does is sufficient, and not always necessary.
* BudgetInterleaving.AggregateNeverExceedsCap: takes each session's cap as fixed and speaks of the aggregate key, which forgets when it lapses; the bound over a session's life is the serial `BudgetHandler.LifetimeBudget`.
* Later statuses of reservations set by the user-operation handlers, which are unguarded, and `userop_lifecycle` with its stale marking.
* Watcher.Watch: takes the reservations as given while it runs; handlers that add or bind reservations between polls are not modelled, except that `Watcher.Reconciler.Poll` promises what it promises from any state it finds.
* The watcher is assumed to see logs at or below the safe head that do not change, and log queries that return exactly the hook's logs in range; a monotone cursor is not claimed, since a rescan moves it back.
* Block numbers are unbounded naturals, without the wrap of 64-bit arithmetic or the cast to a signed number.
* Which of several matches `LIMIT 1` picks: the first row; under distinct bindings there is only one.
* AuthorizationTheorems.LimitsDoNotDrift: limits are integer literals; rounding of fractions and the width of the numeric columns are not modelled.
* `ValidateV1`'s conjuncts on fields the handler fills with constants, the policy engine, receipts, HTTP and JSON, API keys, and `SaveSessionDraft`, which nothing calls.
* The TypeScript SDK; its intent builder omits limits that the Go canonical form contains (sdk/src/intent.ts:14-24), so equal intent hashes across the two are not claimed.
