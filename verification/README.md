# Braelaspin: the money engine and its protocols

A Dafny model of the parts of the Braelaspin server and web client where money, odds and sessions can go
wrong, with proofs about every input, every interleaving and every run.

**The money engine.** Spins, demo top-ups, registrations and withdrawal holds are transactions over wallets, one
house row, an append-only ledger and the spins table. Each exists three times: as one atomic step on the tables
(`Spin`, `Transactions`), as a sequence of statements of one open transaction in a class that updates its rows in
place (`WalletStore`, `SpinService`, `UserService`), and as a sequence of statements interleaved with those of any
number of other transactions under row locks and READ COMMITTED visibility (`Machine`). The class methods are proved
equal to the atomic steps. For the interleaved machine, with rollbacks, crashes and lost commits anywhere, the
committed tables are proved to be those of the committed transactions run one at a time in commit order, and every
refusal to be the one the transaction would have met alone (`Engine`, `SpinRuns`, `AccountRuns`, `Fragments`).
`Outcomes` writes out over the tables what each transaction does and exactly when it goes through.
Conversely everything the atomic steps allow can be run to its commit (`Complete`). On top of that stand the
integrity queries as invariants (`Integrity`), the lock order with freedom from deadlock and a bound on the statements
left (`Progress`), conservation of money and the house's books (`Books`), top-up spacing and held money (`Claims`), and
pagination while rows are being committed (`Paging`, `Feeds`). `Reachable` reads the results off any run.

**The wheel.** The draw, its fairness by counting over all 2^32 words, the stake cap and its overflow guards, with the
int64 wrap-around written out (`Wheel`, `Fairness`, `StakeCap`).

**Protocols over Redis.** The idempotent spin endpoint composed with the interleaved engine (`Idempotency`), what
it answers and to whom (`Replay`), what a lookup that finds nothing means (`NotFound`), refresh token rotation and timed revocation (`Tokens`), and the fixed-window limiter (`RateLimit`), over the commands of
`Redis`.

**The client's mathematics.** Where the wheel lands and what the pointer reads, in exact reals (`WheelGeometry`), and
the money printer and parser (`MoneyText`, `Decimal`).

## How to read it

- A run is a sequence of labels: begin a transaction, let one take its next statement forward, roll one back. A
  statement that needs a lock another transaction holds cannot go forward. An open transaction's writes live in its
  own fragment of the tables until it commits; `Merge` publishes the fragment.
- Randomness, the ids that sequences hand out, clocks and random token names are inputs. The user, spin and ledger
  sequences are counters that a rollback does not rewind.
- Every balance is a Postgres bigint: a movement whose result leaves that range is refused with `OutOfRange`.
- `ValidConfig` is what start-up checks (the two tables, the stake ceiling, config's cross-field rules) of a
  configuration whose integers do not wrap: `Wheel.AcceptedIsValid` says what that asks of a table, `StakeCap.SharesFit`
  what it asks of a wheel, and multipliers fit their 32-bit column. `Spin.DefaultsAreValid` shows that the shipped
  configuration qualifies.
- is_active is read without a lock, so its answer is an input: of a request (`active`) and of a referral code's lookup.
- `Initial` is any state with no open transaction whose tables satisfy the integrity predicates: an empty database with
  a funded house (`Reachable.EmptyDatabase`), one with a player's deposit on record, from which real spins succeed
  (`Reachable.FundedDatabase`, `Reachable.FundedSpin`), or the tables any run leaves once its transactions are done
  (`Reachable.RestIsInitial`).

## Where the code and its comments differ

The model follows the code. Its comments say more, or less, than it does in these places:

- internal/game/wheel.go:341-346 says the divide-first branch of the cap loses at most one cent. It loses exactly
  (bankroll mod m) x 10000 / m, and a cent at most if and only if (bankroll mod m) x 10000 < 2m
  (`StakeCap.DivideFirstLoss`, for the cap itself `StakeCap.CapLoss`). That can be 9999 (`StakeCap.CapCanLose9999`); on the
  shipped wheel it is 8427 for the bankrolls just beyond the switch, where the cap drops, and nothing for any other
  (`StakeCap.ShippedCapLoss`, `StakeCap.CapDropsAtTheSwitch`).
- internal/game/wheel.go:319-323 says an unsafe stake is vetoed by every finite bankroll. It is vetoed exactly when
  the bankroll is not the largest int64 (`StakeCap.UnsafeStakeVetoed`).
- internal/game/wheel.go:351-353 says no stake is advertised that the server refuses. That holds
  (`StakeCap.AdvertisedRangeAdmitted`); the converse, that every stake the server accepts is within the cap, holds if
  and only if the top multiplier is a whole multiple of the stake (`StakeCap.CapIsExposure`). A wheel
  that pays, but never the stake back, has bankrolls whose cap wraps to a negative number, and only such a wheel has
  (`StakeCap.CapNeverNegative`).
- internal/rds/rds.go:119-122 says a fixed window can admit up to twice the limit across a boundary. The largest number
  it can admit is twice the limit less one (`RateLimit.AtMostTwoWindows`, `RateLimit.BoundAttained`).
- internal/auth/token.go:22-24 says reusing a rotated token ends its family. It changes nothing: a family lives on
  exactly if it did (`Tokens.ReuseChangesNothing`), and there are histories in which it does
  (`Tokens.FamilyOutlivesReuse`).
- internal/auth/token.go:194-195 says RevokeAll blocks every outstanding access token. A token from a rotation that
  took longer than a minute between its ban check and its signature can outlive the ban
  (`Tokens.TwoMinuteRotationOutlivesBan`); `Tokens.RevocationHolds` says which tokens are refused and
  `Tokens.EdgeOfTheBan` where the edge lies, to the second a JWT is rounded to.
- internal/api/game.go:141-143 says a spin that is not found never happened. That is final when nobody carries the
  reference any more (`NotFound.MissingIsFinal`); while a request or a transaction still does and its spin would succeed
  alone, it can still be recorded (`NotFound.OpenSpinCanStillHappen`, `NotFound.MissingThenPlayed`). Once every carried
  spin is drawn the two meet: it is final if and only if none of them would go through (`NotFound.MissingExactly`).

## Model

| member | source | states |
|---|---|---|
| `Wheel.MaxMultBP` | internal/game/wheel.go:117-125 | the loop finds the largest multiplier of the table (0 when none is positive), the maximum that MaxMult characterises |
| `Wheel.RTPBP` | internal/game/wheel.go:132-138 | the loop computes sum(multiplier x weight) / 10000, truncated, of the sum wrapped to int64, for every int weight and multiplier |
| `Wheel.ValidateTable` | internal/game/wheel.go:201-226 | accepts exactly the tables with positive weights, no negative multiplier and wrapped sums of 10000 and the wanted return; each error names a real defect |
| `Wheel.Validate` | internal/game/wheel.go:143-199 | accepts exactly the pairs of accepted tables with equal multipliers and a practice return no lower than the real one |
| `Wheel.AcceptedIsValid` | internal/game/wheel.go:201-226 | as long as no product can wrap, a table is valid if and only if it is accepted and no weight exceeds 10000 |
| `Wheel.WrappingTableAccepted` | internal/game/wheel.go:201-226 | a table with weights whose int64 sum wraps to 10000 is accepted although it is not valid |
| `Wheel.Segments` | internal/game/wheel.go:376-391 | the loop lists the twelve segments in order, counted from 1 |
| `Wheel.PickFrom` | internal/game/wheel.go:265-293 | the loop that subtracts weights draws the 1-based segment that Select names for word mod 10000, with its multiplier |
| `Wheel.SelectIsOwner` | internal/game/wheel.go:286-290 | a residue selects segment i if and only if it lies between the weights before i and the weights up to and including i |
| `Wheel.NoFallThrough` | internal/game/wheel.go:291-293 | with positive weights summing to 10000 the fall-through error cannot happen |
| `Wheel.ShippedTablesValid` | internal/game/wheel.go:52-113 | the two shipped tables pass validation for 9000 and 9700 basis points, with a top multiplier of 200x |
| `Fairness.HitsExact` | internal/game/wheel.go:278-290 | how many of the first n words select a segment, exactly, for every n |
| `Fairness.ResiduesSelecting` | internal/game/wheel.go:278-290 | exactly Weight_i of the 10000 residues select segment i |
| `Fairness.WordsSelecting` | internal/game/wheel.go:278-290 | of all 2^32 words between 429496 and 429497 times Weight_i select segment i, and exactly how many |
| `Fairness.MeanIsStatedRTP` | internal/game/wheel.go:127-138 | the mean multiplier over all 2^32 words is within one part in 429496 of sum(multiplier x weight) / 10000 |
| `StakeCap.PayoutCovered` | internal/game/wheel.go:299-329 | up to the safe stake nothing wraps and no multiplier of the wheel pays more than the exposure |
| `StakeCap.UnsafeStakeVetoed` | internal/game/wheel.go:317-329 | a stake above the safe one is vetoed if and only if the bankroll is not the largest int64 |
| `StakeCap.CapCovered` | internal/game/wheel.go:333-357 | for every wheel and bankroll: the cap is at most the safe stake, is negative exactly when its product wraps (never from 1x up), and otherwise its exposure is covered |
| `StakeCap.CapValue` | internal/game/wheel.go:333-357 | from 1x up the cap is the quotient of its branch, limited to the safe stake |
| `StakeCap.DivideFirstLoss` | internal/game/wheel.go:341-349 | what dividing first gives up is exactly (bankroll mod m) x 10000 / m; it is the promised cent at most if and only if (bankroll mod m) x 10000 < 2m |
| `StakeCap.CapLoss` | internal/game/wheel.go:341-357 | what the cap itself loses is a cent at most if and only if that holds or the quotient comes within a cent of the safe stake |
| `StakeCap.CapCanLose9999` | internal/game/wheel.go:341-349 | a wheel and bankroll whose cap loses 9999 cents |
| `StakeCap.ShippedCapLoss` | internal/game/wheel.go:341-357 | on the shipped wheel the cap loses 8427 cents for the bankrolls just beyond the switch and nothing for any other |
| `StakeCap.CapExact` | internal/game/wheel.go:333-357 | for bankrolls that can be scaled, a stake is within the cap if and only if stake x top multiplier is within bankroll x 10000 |
| `StakeCap.CapDisagrees` | internal/game/wheel.go:324-357 | the cap and the exposure check disagree exactly on the stakes whose worst case is covered only by rounding it down |
| `StakeCap.CapIsExposure` | internal/game/wheel.go:324-357 | for all bankrolls that can be scaled and all stakes the two agree, if and only if the top multiplier is a multiple of 10000 |
| `StakeCap.CapNeverNegative` | internal/game/wheel.go:333-357 | the wheels whose cap is never negative, for any bankroll, are exactly those that pay nothing and those with a segment of at least 1x |
| `StakeCap.CapWrapsBelowOne` | internal/game/wheel.go:344-346 | a top multiplier below 1x for which the divide-first product wraps to a negative cap |
| `StakeCap.CapDropsAtTheSwitch` | internal/game/wheel.go:341-349 | two neighbouring bankrolls where the larger one has a cap 8427 cents lower |
| `StakeCap.ValidateStakeCeiling` | internal/game/wheel.go:362-374 | accepts exactly the positive ceilings whose worst payout fits an int64 |
| `StakeCap.AdvertisedRangeAdmitted` | internal/game/spin.go:309-326 | every stake in the advertised range passes the limit checks and the bankroll check of a spin |
| `StakeCap.AdvertisedExactly` | internal/game/spin.go:309-326 | when the top multiplier is a multiple of 10000, for bankrolls that can be scaled, the advertised range holds exactly the stakes up to the ceiling whose worst case is covered |
| `StakeCap.SharesFit` | internal/game/spin.go:174-179 | the wheels whose stake ceiling keeps stake x rate inside an int64, for every stake and rate, are exactly those with a segment of at least 1x |
| `StakeCap.SpinArithmeticFits` | internal/game/spin.go:166-222 | when it does, every product and difference a spin computes from an admissible stake is exact, and the shares fit in the stake |
| `WalletStore.Transaction.Move` | internal/wallet/wallet.go:96-134 | refuses exactly in the cases and order of MoveError; otherwise one wallet column moves by the delta and one ledger row records it with the balance returned |
| `WalletStore.Transaction.Lock` | internal/wallet/wallet.go:142-174 | answers with exactly the named balances, or the first name without a wallet; takes the row locks of the existing ones in strictly ascending order |
| `WalletStore.InOrder` | internal/wallet/wallet.go:146-151 | the locked rows are the named ones that exist, each once, ascending |
| `WalletStore.LocksInMachineOrder` | internal/wallet/wallet.go:136-151 | for a player and a payee that order is the one the concurrent machine locks in |
| `WalletStore.Transaction.MoveHouse` | internal/wallet/wallet.go:192-214 | both columns move by their deltas, or nothing changes and the error says whether the range or a CHECK refused |
| `WalletStore.Transaction.Hold` | internal/wallet/wallet.go:222-239 | the money leaves the spendable column, is recorded, and enters held_cents, or the hold is refused |
| `WalletStore.Transaction.ReleaseHold` | internal/wallet/wallet.go:243-257 | held_cents falls by the amount or nothing changes; never below zero |
| `WalletStore.Transaction.ReverseHold` | internal/wallet/wallet.go:265-273 | held_cents falls by the amount and the spendable column and the ledger take it back |
| `Movements.HoldThenReverse` | internal/wallet/wallet.go:222-273 | reversing a hold at once succeeds and restores every balance, leaving both halves on record |
| `SpinService.Service.Admit` | internal/game/spin.go:94-164 | refuses with exactly the atomic veto, and locks the player, the payee and, for real play, the house last |
| `SpinService.Service.Record` | internal/game/spin.go:182-197 | a row that breaks a CHECK, then a taken reference, is refused; otherwise the spin row carries the plan |
| `SpinService.Service.Spin` | internal/game/spin.go:93-265 | run alone, the method commits exactly what the atomic spin says and returns its result, or returns its error and commits nothing |
| `SpinService.Service.FindByClientRef` | internal/game/spin.go:269-287 | finds the recorded spin of that user and reference with the present balance, and nothing if and only if there is none |
| `SpinService.Service.Config` | internal/game/spin.go:309-326 | answers with the real wheel segment by segment, both returns, and as highest stake the lower of the ceiling and the cap of the present bankroll |
| `UserService.Users.TopUpDemo` | internal/users/users.go:250-289 | run alone, commits exactly the atomic top-up and returns the new balance, or refuses and commits nothing |
| `UserService.Users.CreateOnce` | internal/users/users.go:98-164 | run alone, commits exactly the atomic registration under the drawn code, or refuses and commits nothing |
| `UserService.Users.Create` | internal/users/users.go:81-94 | tries at most five codes, retries only collisions, and ends as the first attempt that does not collide ends |
| `Spin.DefaultsAreValid` | internal/config/config.go:279-286 | the shipped configuration satisfies every check the results assume |
| `Spin.PlanBounds` | internal/game/spin.go:166-180 | for every word the payout is stake x multiplier / 10000 and at most the exposure, rake plus commission fit in the stake, and every CHECK on the row holds |
| `Spin.MoneyErrorsExact` | internal/game/spin.go:199-248 | once admitted, each movement fails if and only if its result does not fit a bigint |
| `Spin.AdmissionSuffices` | internal/game/spin.go:139-164 | after the checks before the draw no word can overdraw the player or exhaust the bankroll: both inner errors are unreachable |
| `Spin.SpinSucceeds` | internal/game/spin.go:93-265 | a spin succeeds if and only if it is admitted, its reference is free and its results fit a bigint |
| `Spin.StatementsAddUp` | internal/game/spin.go:182-248 | the statements together: who gains and loses what, the house, the spin row and exactly the ledger rows appended |
| `Spin.SpinEffect` | internal/game/spin.go:199-264 | a successful spin keeps every balance non-negative and tells the player the balance the wallet really has |
| `Spin.WordDecides` | internal/game/spin.go:131-170 | the segment and multiplier recorded are those whose weights own the drawn word in the realm's table: nothing in the tables, the player or the stake can move the odds |
| `SpinService.RoundKeepsGood` | internal/game/spin.go:93-265 | the ids drawn from the sequences are fresh, so a round run alone keeps all the integrity predicates |
| `Transactions.TopUpEffect` | internal/users/users.go:246-289 | a top-up fills the demo balance to the target, never lowers it, records exactly the difference, and starts the cooldown either way |
| `Transactions.RegisterEffect` | internal/users/users.go:76-164 | a registration adds one user with one wallet holding the recorded grant and nothing else, bound to the owner of the referral code |
| `Transactions.HoldEffect` | internal/wallet/wallet.go:216-239 | a hold moves the amount from spendable to held and nowhere else, with one ledger row |
| `Transactions.ReverseEffect` | internal/wallet/wallet.go:259-273 | a reversal, whatever happened in between, moves the amount from held back to spendable with one ledger row |
| `Transactions.ReleaseEffect` | internal/wallet/wallet.go:241-257 | a release takes the amount out of held and changes nothing else |
| `Outcomes.AdmissionExactly` | internal/game/spin.go:94-164 | a spin is admitted if and only if the stake is within the limits, the user exists, is active and has the funds, every referrer owed commission has a wallet, and for real play the bankroll can pay every segment of the wheel; each refusal says what is missing |
| `Outcomes.RefusalsInOrder` | internal/game/spin.go:118-164 | within the limits, a missing wallet of the player is named first, then one of the referrer; then the funds are named, and last the most the bankroll allows |
| `Outcomes.UsedReferenceIsRefused` | internal/game/spin.go:166-197 | an admitted spin fails without entropy, and as a duplicate if and only if its reference has been used |
| `Outcomes.MoveGoesThrough` | internal/wallet/wallet.go:96-134 | a movement goes through if and only if it moves something, is of a kind its realm allows and leaves a balance a bigint holds and not below zero |
| `Outcomes.SpinInFull` | internal/game/spin.go:131-264 | a successful spin column by column: the player's balance, the referrer's commission, every other wallet untouched, bankroll and rake, the spin row and the answer, from the segment the word owns |
| `Outcomes.LedgerInFull` | internal/game/spin.go:199-248 | and row by row: one bet, a win when something is won, a referral row when a referrer is owed a positive share |
| `Outcomes.CommissionPaid` | internal/game/spin.go:118-124 | on real play a referrer other than the player gains exactly stake x rate / 10000 with one row on record; in every other case the spin has no referral row |
| `Outcomes.SpinGoesThrough` | internal/game/spin.go:93-265 | a spin goes through if and only if it is admitted, nobody has used its reference for that user and every new balance fits a bigint |
| `Outcomes.TopUpGoesThrough` | internal/users/users.go:246-289 | a top-up goes through if and only if the user exists, its cooldown has run out, it has a wallet and the target fits a bigint; not eligible is the answer exactly in the first two cases |
| `Outcomes.HoldGoesThrough` | internal/wallet/wallet.go:216-239 | a hold goes through if and only if it is positive, the real balance covers it and the held money fits |
| `Outcomes.ReleaseGoesThrough` | internal/wallet/wallet.go:241-257 | a release goes through if and only if it is positive and the held money covers it |
| `Outcomes.ReverseGoesThrough` | internal/wallet/wallet.go:259-273 | so does a reversal whose result fits |
| `Outcomes.RegistrationGoesThrough` | internal/users/users.go:98-164 | a registration goes through if and only if its invite, if any, is of an active user whose code it is, phone and code are free and the grant fits; exactly when it is told that the referrer is unknown, the phone taken or the code used |
| `Engine.NextKeepsInv` | internal/game/spin.go:86-92 | every statement, commit, refusal and rollback of any transaction keeps what all open transactions know about the committed rows |
| `Engine.CommitIsAtomic` | internal/game/spin.go:86-92 | a transaction that reaches its commit does to the tables of that moment what it would have done alone |
| `Engine.RefusalIsAtomic` | internal/game/spin.go:93-265 | a refused transaction is refused with the error it would have met alone on the tables of that moment |
| `Engine.Serialisable` | internal/game/spin.go:86-92 | for every interleaving with rollbacks anywhere, the committed tables are the committed transactions run one by one in commit order |
| `SpinRuns.InnerErrorsUnreachable` | internal/game/spin.go:199-239 | in every interleaving the bet cannot overdraw and the house movement cannot exhaust the bankroll: only a bigint overflow can stop a recorded spin |
| `Fragments.CommitUnnoticed` | internal/wallet/wallet.go:92-95 | a commit changes no row another open transaction has locked |
| `Reachable.EmptyDatabase` | internal/db/migrations/0001_init.sql:17-100 | a database with no users and any non-negative bankroll satisfies every integrity predicate, so the results about runs start somewhere |
| `Reachable.FundedDatabase` | internal/db/migrations/0001_init.sql:17-100 | so does one with a player whose deposit is on record |
| `Reachable.FundedSpin` | internal/game/spin.go:93-265 | from there, on the shipped configuration, a real spin succeeds whatever word is drawn |
| `Reachable.RestIsInitial` | internal/game/spin.go:86-92 | whenever no transaction is open the tables are again a state every result holds from |
| `Complete.OnlyTheWordMatters` | internal/game/spin.go:131-170 | given the tables, whether a spin succeeds depends on the drawn word and never on the ids it is given |
| `Complete.OnlyTheTablesMatter` | internal/users/users.go:98-164 | nor do ids decide whether any other transaction succeeds |
| `Complete.NotRefused` | internal/game/spin.go:93-265 | while a transaction would go through alone, a spin with the word it has, none of its statements is refused |
| `Complete.EverythingCanCommit` | internal/game/spin.go:86-92 | the converse of serialisability: every spin, top-up, hold, release, reversal and registration that goes through as one atomic step runs from any state at rest to its commit, leaving the tables and log entry of that step, a spin drawn with the same word |
| `Reachable.MoneyIsRight` | internal/wallet/invariant.go:26-140 | in every reachable state I1, I2, I3, I6 and I7 report nothing, and keys and references are sound |
| `Reachable.SpinOnRecord` | internal/wallet/invariant.go:101-129 | in every reachable state each spin has a positive stake, pays exactly stake x multiplier / 10000, takes no rake in practice, and has one bet row, a win row exactly when it pays and at most one commission, to the recorded referrer |
| `Reachable.RowOnRecord` | internal/db/migrations/0001_init.sql:51-72 | each ledger row moves something, keeps to its realm, carries the running balance, belongs to a wallet and, if a leg of a spin, names a spin on record |
| `Reachable.WalletOnRecord` | internal/wallet/invariant.go:27-55 | each wallet has no negative balance, and its spendable ones are what the ledger adds up to |
| `Reachable.KeysOnRecord` | internal/db/migrations/0001_init.sql:17-94 | no two users share a phone or a code, and no two spins of a user a reference |
| `Reachable.LastBalanceIsTheWallet` | internal/wallet/wallet.go:112-134 | in every reachable state the last ledger row of a user in a realm carries the wallet balance, and it is not negative |
| `Reachable.RefusedAlone` | internal/game/spin.go:86-92 | no refusal reached in a run is an artefact of the interleaving |
| `Progress.LocksAscend` | internal/wallet/wallet.go:136-141 | a transaction only asks for a lock it has or one beyond every lock it has: keys, user row, wallets by id, house, spin key |
| `Progress.MovesUnderLock` | internal/wallet/wallet.go:92-95 | every row a movement touches is already locked by its transaction |
| `Progress.InsertNeverWaits` | internal/game/spin.go:185-197 | inserting a spin never waits on the unique index, because its reference is locked under the player's wallet |
| `Progress.NoWaitCycle` | internal/wallet/wallet.go:136-188 | no cycle of transactions waits for each other, of any length, including players who refer each other |
| `Progress.NoDeadlock` | internal/wallet/wallet.go:176-178 | while a transaction is open, some open transaction can take its next statement |
| `Progress.StepsUseUpWork` | internal/game/spin.go:86-92 | every step but the start of a transaction strictly lowers a measure: nothing retries and nothing loops |
| `Reachable.EveryRunCanFinish` | internal/wallet/wallet.go:136-188 | from every reachable state all open transactions can be run to their end in at most as many statements as they have left |
| `Integrity.SpinKeepsI1` | internal/wallet/invariant.go:27-48 | a spin keeps balances equal to ledger sums and balance_after equal to running sums |
| `Integrity.SpinStaysRecorded` | internal/wallet/invariant.go:101-117 | a new spin has one bet row of minus the stake and a win row exactly when it pays, and no other spin gains or loses a row |
| `Integrity.CommissionStaysFair` | internal/wallet/invariant.go:118-129 | at most one commission a spin, positive, at most the stake, to the recorded referrer and never to the player |
| `Integrity.IdsStillAscend` | internal/db/migrations/0001_init.sql:51-72 | a user's ledger ids ascend in commit order |
| `Integrity.AtomicKeepsGood` | internal/wallet/invariant.go:26-140 | every transaction that goes through keeps all the integrity predicates |
| `Books.SpinWealth` | internal/game/spin.go:222-248 | a spin moves real money between player, referrer and house and neither makes nor loses any |
| `Books.AtomicWealth` | internal/wallet/wallet.go:216-273 | only a released hold takes real money out, exactly its amount |
| `Books.Conservation` | internal/wallet/wallet.go:216-273 | over any interleaving players' money, held money, bankroll and rake add up to the start less the payouts released |
| `Books.PracticeIsSeparate` | internal/db/migrations/0001_init.sql:64-70 | practice spins, top-ups and registrations change no real balance, no held money, not the house, and write no real row |
| `Books.HouseBooks` | internal/game/spin.go:222-248 | over any interleaving the bankroll is the start plus stakes less payouts, rake and commission, and rake is the sum of the rounded shares |
| `Books.RoundingGap` | internal/game/spin.go:174-180 | rounding each share down leaves at most n - 1 cents of n stakes' share with the bankroll |
| `Claims.TopUpsAreSpaced` | internal/users/users.go:246-268 | over any interleaving two top-ups of a player are further apart than the later one's cooldown |
| `Claims.HeldMoneyIsOpenHolds` | internal/wallet/invariant.go:75-86 | over any interleaving the held money is what committed holds opened less what was released or reversed |
| `Claims.HeldMoneyOfPlayer` | internal/wallet/invariant.go:75-86 | and so, player by player: the held money is what that player's committed holds opened less what was resolved |
| `Claims.HoldCorruptUnreachable` | internal/wallet/wallet.go:243-257 | while every hold is resolved at most once, releasing or reversing an open one is never refused as corrupt; a reversal fails only beyond the bigint |
| `Paging.ClampLimit` | internal/api/game.go:261-273 | a positive number is granted up to the maximum, anything else gets the default |
| `Paging.LimitRoundTrip` | internal/api/game.go:261-273 | a limit the client asks for is granted up to the maximum |
| `Paging.CursorRoundTrip` | internal/api/game.go:275-284 | a cursor the client sends back is the id it was given |
| `Paging.QueryIsPage` | internal/api/game.go:157-162 | the query returns rows below the cursor, newest first, none skipped for an older one, and all of them if there are fewer than the limit |
| `Paging.List` | internal/api/game.go:157-191 | the handler's items are such a page; there is a next cursor exactly when it is full, and what it has left out is exactly what lies below that cursor |
| `Paging.WalkStep` | internal/api/game.go:252-259 | a short page ends the walk with all that was left; a full one leaves exactly the rows before its last id |
| `Paging.WalkIsComplete` | internal/api/game.go:248-259 | following next_cursor ends and returns exactly the rows of the first request, each once, newest first, if rows are only ever appended with larger ids |
| `Paging.TextWalkIsComplete` | internal/api/game.go:248-284 | the same when the cursor is printed, sent back and parsed, for ids a bigserial can hand out |
| `Feeds.NextGrows` | internal/db/migrations/0001_init.sql:51-100 | a step only appends to the ledger, and a new spin has a larger id than its player's others |
| `Feeds.RunGrows` | internal/wallet/invariant.go:130-138 | over any run the ledger of an earlier state is a prefix of the later one: I8, and a player's spin ids only rise |
| `Feeds.IdsInRange` | internal/db/migrations/0001_init.sql:51-100 | every id in a reachable state lies between 1 and what its sequence has handed out |
| `Feeds.HistoryRows` | internal/api/game.go:202-209 | the history lists exactly the user's ledger rows of the wanted kind |
| `Feeds.SpinListRows` | internal/api/game.go:157-162 | the spin list holds exactly the user's spins |
| `Feeds.HistoryWalkIsComplete` | internal/api/game.go:196-239 | the history paged through while any transactions run is exactly what was there at the first request, with any kind filter |
| `Feeds.SpinWalkIsComplete` | internal/api/game.go:152-193 | the same for the list of spins |
| `Redis.Client.Claim` | internal/rds/rds.go:163-177 | wins exactly when the key is not live, and then holds it empty; a loser gets what the second command finds, however much later |
| `Idempotency.KeysDiffer` | internal/rds/rds.go:156-158 | different users or references never share a key, whatever the reference contains |
| `Idempotency.AnswerIsAtomic` | internal/game/spin.go:250-264 | the result returned at a commit inside an interleaving is the atomic spin's result, and its reference was free until then |
| `Idempotency.EventKeepsInv` | internal/api/game.go:41-100 | every claim, read, statement, store, release, response, crash and expiry, failing or not, keeps stored and sent bodies equal to the one outcome of their reference |
| `Idempotency.AtMostOneSpin` | internal/api/game.go:36-40 | over any schedule a user and reference have at most one spin, and it debited its stake exactly once |
| `Idempotency.RepliesAgree` | internal/api/game.go:56-98 | all 200 responses ever given for a user and reference are the same, and tell the spin on record |
| `Replay.RetryIsReplayed` | internal/api/game.go:53-67 | once a response is stored and while its key is neither released nor expires, a later request under the reference loses its claim, and when it reads is answered with exactly that response |
| `Replay.OwnOutcomeIsAnswered` | internal/api/game.go:69-99 | a request whose commit is acknowledged is answered with what the atomic spin computes on the tables of that moment, whether or not storing it works |
| `Replay.ClaimExcludes` | internal/api/game.go:53-67 | of two requests under one reference the first plays and the second, while the key stands, reads: it gets the stored response or none |
| `Replay.RefusalGivesBack` | internal/api/game.go:70-81 | a refused spin leads to a release and no reply |
| `Replay.ReleasedCanRetry` | internal/rds/rds.go:184-188 | once released, the next request under the reference wins its claim and plays |
| `Replay.RollbackGivesBack` | internal/api/game.go:70-81 | so does a transaction that is rolled back |
| `Replay.FailedClaims` | internal/api/game.go:53-59 | a claim reported as failed ends its request without an answer, and leaves the key taken and empty if it took effect all the same |
| `Replay.UnheardCommit` | internal/api/game.go:69-81 | a commit that takes effect unheard releases the key and answers nothing, but the spin is on record and none under its reference can go through any more |
| `Replay.GoodReferencesArrive` | internal/api/game.go:41-48 | a request is taken in exactly when its reference has 1 to 64 characters |
| `Replay.OnlyGoodReferences` | internal/api/game.go:41-48 | and over any schedule no other is worked on or answered |
| `Idempotency.ByRefAgrees` | internal/api/game.go:133-149 | after a 200 response the lookup by reference finds that spin, field for field but for the present balance |
| `NotFound.MissingIsNotFound` | internal/api/game.go:133-149 | the lookup finds nothing exactly when no spin is on record under the reference |
| `NotFound.MissingIsFinal` | internal/api/game.go:141-143 | if nothing is on record and no request or open transaction carries the reference, no lookup ever finds a spin under it, whatever happens, until it is brought in anew |
| `NotFound.OpenSpinCanStillHappen` | internal/api/game.go:141-143 | while an open transaction carries it and would succeed alone, with the word it has drawn, the spin can still be recorded without any new request |
| `NotFound.ClaimedSpinCanStillHappen` | internal/api/game.go:56-76 | so too while a request has claimed the key and not begun to play |
| `NotFound.ArrivedSpinCanStillHappen` | internal/api/game.go:41-56 | or has only just arrived |
| `NotFound.MissingExactly` | internal/api/game.go:141-143 | once the outcome of every carried spin is drawn, finding nothing is final if and only if none of them would go through on the tables as they are |
| `NotFound.MissingThenPlayed` | internal/api/game.go:141-143 | a schedule on the shipped configuration in which a lookup finds nothing and the spin is recorded afterwards |
| `Redis.Client.ConsumeRefresh` | internal/rds/rds.go:76-97 | reading a refresh token and removing it are one step; afterwards it is not there |
| `Tokens.TokenService.Rotate` | internal/auth/token.go:149-184 | the presented token is gone whatever happens; unknown, banned and unknown-account cases refuse; otherwise one new pair in the same family with the present admin flag |
| `Tokens.TokenService.VerifyAccess` | internal/auth/token.go:116-143 | accepts exactly the authentic tokens within their times whose user is known not to be banned; an unanswered ban lookup refuses |
| `Tokens.MintedBySigning` | internal/auth/token.go:75-108 | over any history every access token was signed in it by a call of its user's and carries the admin flag and, to the second, the times of that signature |
| `Tokens.RotatesLikeTheCall` | internal/auth/token.go:149-184 | the commands of a rotation run on end do what the one call does, from the token consumed to the pair handed out |
| `Tokens.RefusesLikeTheCall` | internal/auth/token.go:149-171 | for a token that is not live, or whose user is banned, the commands do what the refusing call does: the token is gone and nothing is signed |
| `Tokens.TakenOutForGood` | internal/auth/token.go:149-191 | a token redeemed or revoked while it is stored never comes back, whatever happens afterwards |
| `Tokens.AllowAgainEndsTheBan` | internal/auth/token.go:200-203 | after AllowAgain, until the next RevokeAll, the user's tokens verify exactly within their times |
| `Tokens.RefreshTokensAreSingleUse` | internal/auth/token.go:149-191 | over any interleaving each refresh token is redeemed at most once, redeemed and revoked ones are never live again, and a family has at most one token or rotation under way |
| `Tokens.ReuseChangesNothing` | internal/auth/token.go:158-164 | in every reachable state, presenting a redeemed token is refused and changes nothing: every family has a holder afterwards exactly if it had one |
| `Tokens.FamilyOutlivesReuse` | internal/auth/token.go:20-24 | a history in which a rotated token is presented again and its family still has a live token |
| `Tokens.RevocationHolds` | internal/auth/token.go:194-198 | after RevokeAll, until AllowAgain, no token signed up to a minute later verifies, nor one from a rotation of at most a minute that was checked before the ban ran out |
| `Tokens.EdgeOfTheBan` | internal/auth/token.go:194-198 | exactly when some history lets a rotation checked before RevokeAll and signed at a given time yield a token that is accepted afterwards |
| `Tokens.TwoMinuteRotationOutlivesBan` | internal/auth/token.go:194-198 | with 15-minute tokens, a rotation that takes two minutes is one |
| `Redis.Client.Allow` | internal/rds/rds.go:123-149 | one more hit on its key with the expiry set on the first hit only; other keys untouched; a refusal says how long the window lasts, or a whole window if that lookup fails |
| `RateLimit.AtMostTwoWindows` | internal/rds/rds.go:119-122 | any interval as long as the window sees at most 2L - 1 admitted hits, L being the limit or 1 |
| `RateLimit.BoundAttained` | internal/rds/rds.go:119-122 | for every limit a run of hits attains that bound |
| `RateLimit.RefusalsDoNotExtend` | internal/rds/rds.go:128-132 | any number of refused hits leaves the end of the window where it was |
| `RateLimit.AdmittedAfterwards` | internal/rds/rds.go:137-148 | a hit at or after the end of the window is admitted |
| `RateLimit.RefusedOnlyWhenFull` | internal/rds/rds.go:119-149 | a hit is refused only when as many hits as the limit were admitted less than a window before it |
| `RateLimit.CallsAreLimited` | internal/rds/rds.go:119-149 | of any run of calls of the limiter on one key, whatever happens to other keys, at most 2L - 1 in any window-long interval are answered yes |
| `RateLimit.CallsAreNotRefusedEarly` | internal/rds/rds.go:119-149 | and each no comes after as many answers of yes as the limit, less than a window before |
| `WheelGeometry.Mod360Value` | web/src/core/wheel.ts:67-69 | the double remainder is the representative in [0, 360) of its argument modulo whole turns |
| `WheelGeometry.LandsOnSegment` | web/src/core/wheel.ts:34-65 | exactly the segments 1..n have an angle; for every start, wheel size and random number the pointer reads the segment at rest, six to seven turns on |
| `WheelGeometry.DrawingAgrees` | web/src/core/wheel.ts:71-111 | at every rotation the tile drawn under the pointer is the segment the pointer is said to read, and no other |
| `WheelGeometry.AlwaysASegment` | web/src/core/wheel.ts:62-65 | every rotation reads a segment between 1 and n |
| `WheelGeometry.OvershootStaysInside` | web/src/core/wheel.ts:130-148 | being past the resting angle by no more than the overshoot leaves the reading alone |
| `WheelGeometry.SettlesBetween` | web/src/core/wheel.ts:170-201 | from the furthest point on the wheel is between that point and its resting angle |
| `WheelGeometry.HoldsPastTheBrake` | web/src/core/wheel.ts:170-201 | from the furthest point on the pointer reads the drawn segment, and the wheel ends exactly on its resting angle |
| `WheelGeometry.PointerHoldsTheSegment` | web/src/core/wheel.ts:170-201 | from the first instant the wheel has reached its resting angle the pointer reads the drawn segment at every later one: through overshoot and settling and for good |
| `WheelGeometry.BrakesForward` | web/src/core/wheel.ts:154-197 | while braking the wheel never moves back and never passes the furthest point |
| `WheelGeometry.QuartLaw` | web/src/core/wheel.ts:150-157 | braking runs from 0 to 1, and whenever the remaining time halves the remaining way falls to a sixteenth |
| `WheelGeometry.CubicLaw` | web/src/core/wheel.ts:203-206 | settling runs from 0 to 1 through a half at half time, is the same backwards, and doubling the time covers eight times the way in its first half |
| `WheelGeometry.MotionEnds` | web/src/core/wheel.ts:170-201 | the motion starts where the wheel stood, is at its furthest point when the braking ends, and ends on the resting angle |
| `WheelGeometry.OvershootInFull` | web/src/core/wheel.ts:130-148 | the overshoot is the smaller of 55 hundredths of the way back to the leading edge and four tenths of the segment |
| `WheelGeometry.AwayFromDividers` | web/src/core/wheel.ts:34-65 | the pointer never rests within two degrees of a divider, or a quarter of the segment if that is less |
| `WheelGeometry.EveryPlaceCanBeDrawn` | web/src/core/wheel.ts:34-65 | and every place that is not so close is drawn for some random number |
| `WheelGeometry.EvenlySpread` | web/src/core/wheel.ts:34-65 | equal steps of the random number are equal steps within the segment |
| `MoneyText.GroupThousands` | web/src/core/money.ts:33-42 | the loop that inserts commas writes the digits in groups of three from the right |
| `MoneyText.FormatKes` | web/src/core/money.ts:12-25 | sign, symbol, grouped shillings and, only when there are any, two-digit cents |
| `MoneyText.UngroupedAgain` | web/src/core/money.ts:33-42 | grouping adds commas and nothing else |
| `MoneyText.PrintedAmountsReadBack` | web/src/core/money.ts:12-54 | parsing what was printed gives back the cents for every amount that is not negative, with or without the symbol, and refuses every negative one |
| `MoneyText.CommasEveryFourth` | web/src/core/money.ts:33-42 | a comma stands at every fourth place from the right and nowhere else |
| `MoneyText.CentsShown` | web/src/core/money.ts:12-25 | a full stop and two digits end the amount exactly when there are cents, and only amounts below a shilling begin with a zero |
| `MoneyText.SignAndSymbol` | web/src/core/money.ts:12-25 | a minus stands in front exactly when the amount is negative, then the symbol if asked for; what follows the minus is the magnitude as it is printed, and reads back as it |
| `MoneyText.ReadExactly` | web/src/core/money.ts:44-54 | exactly digits, and digits with one or two more after a full stop, are read, one digit standing for tens of cents |
| `MoneyText.DressingIsIgnored` | web/src/core/money.ts:44-54 | white space around the amount, the symbol in either case and commas inside it change nothing |
| `Decimal.ParseExactly` | internal/api/game.go:261-284 | the texts strconv.ParseInt takes for a number: digits, or a sign and digits, of one that an int64 holds |

## Left out

- FOR KEY SHARE locks of foreign keys: they conflict with none of the locks modelled.
- Reachable.MoneyIsRight: I4 and I5b speak of deposits and withdrawals, whose status no code changes yet; I5 is stated as open holds; I8 is append-only by construction (`Feeds.RunGrows`), not a rule the model could lose.
- Claims.HeldMoneyIsOpenHolds: the log of committed holds stands for the withdrawals table.
- SpinService.Service.Spin: the memo of a commission row and `created_at` are left out; `SpinService.Service.Admit` takes the answer of the unlocked is_active read from its request.
- NotFound.OpenSpinCanStillHappen: a spin carried but not drawn yet that would fail alone as the tables are may yet succeed on later ones, and is neither final nor shown to happen; from the draw on `NotFound.MissingExactly` decides.
- CHECKs on the text of phones and referral codes, and the phone normalisation before them.
- Ids from the sequences of committed and abandoned transactions alike: the model's counters also skip ids where the database need not.
- `Invariants` and `AssertInvariant`: the loops that collect and print violations; the queries themselves are predicates.
- `Machine.Exec`: a statement is one step, so a multi-row update and the lookup before it are not split further; wallet rows are locked one at a time.
- `Tokens`: signatures, issuers and hashing are foreign code; random names never repeat; one clock serves the servers and Redis.
- Redis.Client: values are typed rather than text, and the key prefixes keep them apart.
- Redis.Client.Claim: nothing but time passes between its two commands here; in `Idempotency` they are two steps with anything in between.
- Tokens.TokenService.Rotate: a store command that fails is not a case here; among the interleaved calls it is one abandoned at that point.
- UserService.Users.Create: the owner of the referral code is found active or not once, for all attempts.
- `Idempotency`: a body stands for its JSON text, which is a function of the result; `created_at` is part of neither.
- `WheelGeometry`: exact reals, so IEEE rounding is not covered; `tickTimes` needs a fourth root and is not modelled.
- `MoneyText`: integers of any size, so the loss of precision beyond 2^53 and the overflow of parseFloat to infinity are not covered.
- HTTP routing, CORS, logging, configuration loading, the Flutter client, celebration tiers, the stake ladder and error texts: they would only add easy members.
