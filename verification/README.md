# Verified models of the Runner state machines

Dafny models, with proofs, of the parts of the repository that keep state under interleaving, crashes and retries, and of
the arithmetic and codecs those parts rest on. Check the project with `dafny verify dfyconfig.toml`.

| area | source | files |
|---|---|---|
| trading ledger | `src/runner_trading/ledger.py` | `Ledger.dfy`, `TradingDb.dfy`, `LedgerProofs.dfy`, `LedgerOutcomes.dfy` |
| recovery against the chain | `src/runner_trading/live.py` | `Live.dfy`, `LiveProofs.dfy`, `LiveOutcomes.dfy` |
| route instruction parser | `src/runner_trading/live.py` | `JupiterRoute.dfy` |
| key rotations and the trust store | `src/runner_swarm/key_rotation.py`, `local_trust_store.py`, `runtime.py` | `Forest.dfy`, `KeyRotation.dfy`, `TrustStore.dfy`, `RotationLaws.dfy` |
| reputation | `src/runner_swarm/reputation.py` | `Reputation.dfy` |
| peer claims | `src/runner_swarm/peer_store.py`, `signed_claim.py` | `PeerStore.dfy`, `PeerStoreProofs.dfy` |
| credit top-ups | `src/runner_web/api_payments.py` | `Payments.dfy`, `PaymentsProofs.dfy`, `PaymentsOverrun.dfy`, `PaymentsOutcomes.dfy` |
| API credits | `src/runner_web/api_credits.py` | `Credits.dfy`, `CreditsProofs.dfy` |
| workflow trigger | `cloudflare-router/src/trigger.js` | `Trigger.dfy`, `TriggerProofs.dfy`, `TriggerRuns.dfy` |
| base 58 | `cloudflare-router/src/audits.js`, `src/ratitrust/keys.py` | `Base58.dfy` |
| token bucket | `src/runner_watch/massive_data.py` | `RateLimiter.dfy` |
| result cache | `src/runner_web/api_limits.py` | `ResultCache.dfy` |

`Sums.dfy` holds the sum of a column over a table, and `Wrappers.dfy` the results that may be missing or an error.

## How the models are built

Code that changes tables is a class whose fields are the tables. Each method is proved equal to a function on a snapshot of
those fields (`Fill`, `Accept`, `Begin`, ...), one call being one database transaction, compare-and-swap or script. The
properties are then proved about those functions: exactly when a step succeeds and what it then changes, written out on the
rows; what one step keeps; and by induction what every run keeps. A run is a sequence of events of any number of workers,
with crashes and lost replies where the code can have them.

Money, amounts and times are integers (real numbers only in the token bucket). Identifiers are numbers. Digests are
injective constructors (`Sha`), so an identifier determines its content; signatures are a flag that says whether they
verify. Clocks, RPC and service replies, random tokens and budgets are parameters of the step that uses them. An exception
inside a transaction leaves the tables unchanged, because the connection rolls back.

## Assumptions

- Recovery: the four RPC replies of one call come from chain views that do not go back, and the chain has one history. The
  code compares the status reply only with the slot it read first; `ExpirySafeExactly` says exactly how much of this is
  needed. A lease token is new each time, and live orders settle only through recovery.
- Ledger: exits name a stored position's own mint, and the two unguarded status writes of recovery and review are made for
  an order that is still active (`Called`). The policy of an account is fixed.
- Payments: the results of `PaymentsProofs` are for calls whose writes come before their 90-second lease ends. Those of
  `PaymentsOverrun` are for all runs; identifiers of orders, which are random, never come back.
- Trigger: the results on submissions are for turns that are over, started or given back, within the ten-minute window
  counted from their process's own clock reading, and for processes that do not crash while they hold a turn. Spacing is
  proved for slow turns as well, under a condition on each give-back. That a give-back wins one of its five swaps is not
  assumed: it is proved.
- Peer claims: time does not go back. Runs include deleting on overflow.
- Credits: `EveryRun` is for a calendar that does not go back; `EveryOpenRun` is for any.
- Cache: the server and its clients share one clock, and a compressed text is within the bound that zlib gives for it.

## Where the code is weaker than it looks

Each of these comes with the exact condition under which the property does hold, and where a run is needed to see it, with
such a run, made of inputs that the code can receive.

- An identical accept after accept and revoke is not appended to the rotation log, so it reloads as revoked
  (`ReacceptReloadsRevoked`). The mapping survives if and only if the decision is new to the log or already the latest one
  (`MappingReloads`).
- The status writes of `settle` are not guarded against `complete`, so calls that outlive their lease can cause an order to
  be credited twice (`OverrunCreditsTwice`, and `OverrunCreditsTwiceLater`, where the late write itself is harmless). The
  books balance at every moment of a run if and only if every status write finds its row not complete (`BooksExactly`).
- A turn given back after its window erases the turn taken since (`SlowTurnBreaksSpacing`). A give-back leaves the object in
  agreement with the recorded starts if and only if the object still shows the process's own start (`GiveBackExactly`), and
  while every give-back does, starts stay spaced however slow the turns are (`OwnTurnsSpaced`).
- Deleting on overflow can revive a superseded claim (`OverflowRevives`). Deleting claims changes nothing, then or later, if
  and only if none of them has a live target (`ForgettableExactly`); at one moment, if and only if what remains makes up for
  them (`DropKeepsExactly`).
- The store keeps a claim superseded by an expired claim, as in that run, where `supersedes` asks for a current one
  (`SupersededByRelationExactly` says when the two agree).
- Retention may be three microseconds short of a day before age pruning becomes visible (`InvisibleExactly`).
- `b58decode` builds one byte too many for text that denotes zero, and only then (`DecodersAgree`).
- A refused cache put drops the counter's expiry; once the index has expired, the stale count stays (`RefusedPutSticks`). An
  expired index leaves an exact counter if and only if the counter expires too, or is zero (`ExpiryExactly`); a stale count
  stays while every put is too large to fit beside it, and a put that fits ends it (`StuckExactly`, `StuckEnds`). Storing a
  result again under the same name counts it twice (`ExactExactly`).
- A further confirmation can lower a peer's reputation (`ConfirmationMayLower`), though never its reliability. It does not
  lower the diversity before rounding if and only if a condition on the counts so far holds (`DiversityExactly`), and then
  neither diversity nor reputation falls (`ConfirmationKeeps`).
- A calendar that goes back gives a spent daily allowance out again (`BackwardClockGivesMore`). A roll keeps an account in
  agreement with its requests if and only if it opens no month or day in which something was used (`RollBalancedExactly`).

## Model

| member | source | states |
|---|---|---|
| LedgerProofs.EveryRun | src/runner_trading/ledger.py:139-384 | after any run of leased transactions from the opening capital: cash + open cost - gas = capital + realized - open entry fees - gas of failed orders; realized is the profit of the closed positions; cash, SOL and gas are the sums of the ledger's columns; per mint the quantity column is what is held; reserved is what active orders hold and is covered by cash; exposure and position limits hold; one pending order and one open position per mint, no pending buy of a held mint, and one entry per resolved order |
| LedgerProofs.OpeningInv | src/runner_trading/ledger.py:22-60 | the account as it is created, with its capital entry, satisfies the whole invariant |
| LedgerProofs.ReserveBuyInv | src/runner_trading/ledger.py:139-201 | reserving an entry keeps the whole invariant, whichever gate refuses or lets it through |
| LedgerProofs.QueueExitInv | src/runner_trading/ledger.py:204-234 | queueing the sale of an open position keeps the whole invariant |
| LedgerProofs.FailOrderInv | src/runner_trading/ledger.py:237-284 | failing an order, with or without a fee, keeps the whole invariant |
| LedgerProofs.FillInv | src/runner_trading/ledger.py:287-384 | filling an order keeps the whole invariant |
| LedgerProofs.FillBuyInv | src/runner_trading/ledger.py:315-384 | turning a reservation into an open position moves cash, reserved, SOL and gas so that every balance still holds |
| LedgerProofs.FillSellInv | src/runner_trading/ledger.py:344-384 | closing a position realizes its profit so that every balance still holds |
| LedgerProofs.FillOutcome | src/runner_trading/ledger.py:287-384 | for an active order, a fill succeeds exactly when the paper entry gate is open and the fee is covered: no unique index, quantity check or row check is ever hit; otherwise nothing changes |
| LedgerProofs.FailOutcome | src/runner_trading/ledger.py:237-284 | failing an active order succeeds exactly when its fee is covered, and otherwise nothing changes |
| LedgerProofs.ResolvedFinal | src/runner_trading/ledger.py:305-310 | a filled or failed order keeps its row and its ledger entry whatever is called later |
| LedgerProofs.PrepareInv | src/runner_trading/live.py:272-302 | saving a signed transaction keeps the whole invariant |
| LedgerProofs.CheckInv | src/runner_trading/live.py:437-461 | marking an active order for review, and pausing, keeps the whole invariant |
| LedgerOutcomes.AcquireOutcome | src/runner_trading/ledger.py:63-71 | a lease is taken if and only if nobody has it or it has run out, for three minutes, and no money or order moves |
| LedgerOutcomes.ReleaseOutcome | src/runner_trading/ledger.py:87-93 | only its holder gives a lease back, and then anybody can take it |
| LedgerOutcomes.ReserveOutcome | src/runner_trading/ledger.py:139-201 | under a lease, a buy is queued if and only if the account is not paused, a position, the free cash, the exposure and the SOL for one more fee are within limits, its mint is neither held nor at work, and its signal is new; then one order is queued and its money held, otherwise only the lease changes |
| LedgerOutcomes.ExitOutcome | src/runner_trading/ledger.py:204-234 | the sale of a position is queued if and only if it is open and its mint has no order at work, whether or not the account is paused; it is for the whole position |
| LedgerOutcomes.PrepareOutcome | src/runner_trading/live.py:272-302 | a signature is saved if and only if the order is queued and, for a buy, the account is not paused |
| LedgerOutcomes.CheckOutcome | src/runner_trading/live.py:437-453 | a review marks one order and pauses the account, a resend only marks it; no amount, position or entry moves |
| LedgerOutcomes.FillEffects | src/runner_trading/ledger.py:315-384 | what filling an order changes, to the last field: one order row, one entry, one opened or closed position with its cost or its profit, and the balances, and nothing else |
| LedgerOutcomes.FillRefused | src/runner_trading/ledger.py:287-310 | amounts out of range, another input than the order's, an unknown or a failed order change nothing |
| LedgerOutcomes.FillBuyGuards | src/runner_trading/ledger.py:315-384 | on any tables at all, an active buy fills if and only if the paper gate is open, its position is new and its mint not held, the account can pay, and it has no entry yet; otherwise nothing changes |
| LedgerOutcomes.FillSellGuards | src/runner_trading/ledger.py:344-384 | on any tables at all, an active sale fills if and only if its position is open and the sale is for all of it, the account can pay, and it has no entry yet; otherwise nothing changes |
| LedgerOutcomes.FailEffects | src/runner_trading/ledger.py:237-284 | failing an order frees its reservation, pays the fee, and writes one entry |
| LedgerOutcomes.FailGuards | src/runner_trading/ledger.py:237-284 | on any tables at all, an active order fails if and only if the amounts are in range, the account can pay, and it has no entry yet; a resolved one is left alone |
| LedgerOutcomes.PausedRun | src/runner_trading/ledger.py:157-159 | over every run without an unpause, a paused account stays paused, no buy is queued and none is signed |
| TradingDb.Account.AcquireLease | src/runner_trading/ledger.py:63-71 | takes the account's lease exactly when it is free or has run out |
| TradingDb.Account.ReleaseLease | src/runner_trading/ledger.py:87-93 | gives back only the caller's own lease |
| TradingDb.Account.Locked | src/runner_trading/ledger.py:74-84 | renews the lease exactly when the caller still holds it, and raises otherwise |
| TradingDb.Account.ReserveEntry | src/runner_trading/ledger.py:139-201 | the new tables and the reply are those of the reservation step: every gate, the limits, the reserved cash and the queued order |
| TradingDb.Account.QueueSale | src/runner_trading/ledger.py:204-234 | the new tables and the reply are those of the exit step |
| TradingDb.Account.Fail | src/runner_trading/ledger.py:237-284 | the new tables and the reply are those of the failing step, with the rollback when a row check fails |
| TradingDb.Account.FillOrder | src/runner_trading/ledger.py:287-384 | the new tables and the reply are those of the fill step, with the rollback when a check fails |
| TradingDb.Account.Book | src/runner_trading/ledger.py:357-384 | the writes that both sides of a fill share, all or none of them as the row checks and the unique entry decide |
| TradingDb.Account.OpenPosition | src/runner_trading/ledger.py:315-384 | the buy branch of the fill step |
| TradingDb.Account.ClosePosition | src/runner_trading/ledger.py:344-384 | the sell branch of the fill step |
| TradingDb.Account.SavePrepared | src/runner_trading/live.py:272-302 | the new tables are those of the signing step, taken only from a queued order |
| TradingDb.Account.MarkChecking | src/runner_trading/live.py:340-345 | the unguarded status write, and the pause that review adds |
| Live.Executor.RecoverOrder | src/runner_trading/live.py:304-356 | the new ledger is what recovery's decision on the four replies makes of it |
| Live.Executor.SettleReceipt | src/runner_trading/live.py:358-435 | the new ledger is what the receipt makes of it: review, fail with its fee, or an exact fill |
| LiveProofs.ExpirySafeExactly | src/runner_trading/live.py:304-330 | "expired" is right for every transaction if and only if a reply read after the block height is not older than that height by more than the block that ends it |
| LiveProofs.ExpiredNeverLands | src/runner_trading/live.py:304-330 | when recovery reports expiry, the transaction has not landed and the chain has passed its limit, so it never will |
| LiveProofs.RecoverSettlesOrKeeps | src/runner_trading/live.py:304-435 | recovery either settles the order with exactly one new entry, filling only on an exact receipt without an error, or keeps the reservation and every other amount |
| LiveProofs.RecoverResult | src/runner_trading/live.py:304-356 | a finished call changes nothing, or rewrites the one active order it was for, under its own lease and with chain evidence for the result |
| LiveProofs.EventInv | src/runner_trading/live.py:304-461 | one event of any worker, or one block, keeps the ledger's invariant, the link from entries to chain evidence, and what each worker in flight relies on |
| LiveProofs.EveryWorld | src/runner_trading/live.py:304-461 | over every run of workers, crashes, lagging reads and blocks: an order is filled only on its exact success receipt, and failed only if its transaction failed on chain, was never signed, or has not landed and never can |
| LiveProofs.ResolvedForGood | src/runner_trading/live.py:304-461 | a resolved order keeps its row and its entry over every later run of workers and chain, so it is resolved at most once |
| LiveProofs.Reconciled | src/runner_trading/live.py:463-498 | with no signed order outstanding, the ledger's cash, SOL and holdings are exactly what the landed transactions did to the wallet |
| LiveOutcomes.ReceiptOutcome | src/runner_trading/live.py:358-435 | for an order at work under its worker's lease: a receipt fills it if and only if it is a success with a fee in scope that moved exactly the checked order, fails it if and only if it is an error with a fee in scope, and with any other receipt the order waits for review, the account is paused, and no amount or entry moves |
| LiveOutcomes.RecoverOutcome | src/runner_trading/live.py:304-356 | what all combinations of the four replies lead to, on the rows: a stale status raises, a receipt settles, an order seen is left alone, one unseen past its block height is released without a fee, and one unseen before it is only marked |
| LiveOutcomes.RecoverWithoutLease | src/runner_trading/live.py:304-461 | a worker that has lost its lease changes nothing |
| LiveOutcomes.ReviewPauses | src/runner_trading/live.py:437-453 | in every reachable world, a call that ends with a receipt nobody can settle leaves its order in review and the account paused |
| LiveOutcomes.PausedWorld | src/runner_trading/live.py:437-461 | over every run of workers and chain without an unpause, a paused account stays paused, no buy is queued and none is signed |
| LiveOutcomes.UnsettledStops | src/runner_trading/live.py:437-461 | from a receipt that cannot be settled on, no buy is queued or signed until an unpause |
| LiveOutcomes.GasRoundsUp | src/runner_trading/live.py:366 | the fee in USDC is the least amount that covers its lamports at their price |
| JupiterRoute.RouteAmounts | src/runner_trading/live.py:87-103 | returns the tail's amounts exactly for the byte strings that parse as a route, and an error for all others |
| JupiterRoute.TableAgrees | src/runner_trading/live.py:35-38 | the widths of the variants' own fields, one by one for the 39 that are known, none for the others |
| JupiterRoute.SkipSwaps | src/runner_trading/live.py:96-100 | the offset walk ends where the given number of well-formed swaps ends, or fails |
| JupiterRoute.ParsePrinted | src/runner_trading/live.py:36-38 | parsing what was printed gives the route back |
| JupiterRoute.PrintParsed | src/runner_trading/live.py:87-103 | every byte string that parses is the printed form of a well-formed route with 1 to 32 known swaps |
| JupiterRoute.ParseExactly | src/runner_trading/live.py:87-103 | a byte string is accepted with given amounts if and only if it is the printed form of a route with those amounts |
| Forest.LinkExactly | src/runner_swarm/key_rotation.py:229-230 | adding a link from an unlinked node keeps a pointer map free of cycles if and only if the walk from the target does not end at that node |
| Forest.Link | src/runner_swarm/key_rotation.py:214-241 | such a link moves exactly the walks that ended at the node, to the target's end |
| KeyRotation.EveryRun | src/runner_swarm/key_rotation.py:214-284 | after any run of accept, reject and revoke the accepted mapping is a partial function without a cycle, and accepted rotations of one identity have rising sequence numbers |
| KeyRotation.AcceptInv | src/runner_swarm/key_rotation.py:214-241 | accepting keeps the invariant, adds exactly the rotation's link, and moves exactly the identities that resolved to its old end |
| KeyRotation.RejectInv | src/runner_swarm/key_rotation.py:243-256 | rejecting keeps the invariant and every identity's resolution |
| KeyRotation.RevokeInv | src/runner_swarm/key_rotation.py:258-272 | revoking keeps the invariant and removes exactly the revoked rotation's link |
| KeyRotation.CycleTestExact | src/runner_swarm/key_rotation.py:229-230 | the cycle error is raised if and only if the rotation's link would close a cycle |
| KeyRotation.LocalKeyRotationRegistry.RecordDecision | src/runner_swarm/key_rotation.py:326-345 | stores the artifact, appends the decision and makes it the latest for its rotation |
| KeyRotation.LocalKeyRotationRegistry.AcceptRotation | src/runner_swarm/key_rotation.py:214-241 | keeps the invariant and changes the registry as the accept step says, or leaves it and raises its error |
| KeyRotation.LocalKeyRotationRegistry.RejectRotation | src/runner_swarm/key_rotation.py:243-256 | keeps the invariant and changes the registry as the reject step says, or raises its error |
| KeyRotation.LocalKeyRotationRegistry.RevokeRotation | src/runner_swarm/key_rotation.py:258-272 | keeps the invariant and changes the registry as the revoke step says, or raises its error |
| KeyRotation.LocalKeyRotationRegistry.Resolve | src/runner_swarm/key_rotation.py:274-284 | the walk ends at the identity's root and never raises its cycle error |
| KeyRotation.LocalKeyRotationRegistry.IsContinuation | src/runner_swarm/key_rotation.py:286-287 | true if and only if the two walks end together |
| KeyRotation.LocalKeyRotationRegistry.ActiveForward | src/runner_swarm/key_rotation.py:291-295 | the table built from the latest decisions is the accepted mapping |
| KeyRotation.WalkForward | src/runner_swarm/key_rotation.py:296-302 | the walk over the table ends at the root without an error |
| KeyRotation.Predecessors | src/runner_swarm/key_rotation.py:304-306 | the inverted table holds exactly the links, backwards |
| KeyRotation.SearchBackward | src/runner_swarm/key_rotation.py:307-315 | the search from an end finds exactly the identities whose walk ends there |
| KeyRotation.LocalKeyRotationRegistry.ContinuityNodeIds | src/runner_swarm/key_rotation.py:289-315 | the result holds x if and only if x resolves where the given node resolves, so the backward search refines the forward test |
| RotationLaws.AcceptExactly | src/runner_swarm/key_rotation.py:214-241 | a rotation is accepted if and only if its content is its digest, its signatures are over it, it is issued by then (with five minutes of skew), in effect and not run out, no other rotation of the identity is accepted, its link closes no cycle, and its sequence number is above every earlier one of the identity; the decision it records, and nothing else |
| RotationLaws.RejectExactly | src/runner_swarm/key_rotation.py:243-256 | a rotation is rejected if and only if it is genuine, issued by then, and not accepted now; it may have run out |
| RotationLaws.RevokeExactly | src/runner_swarm/key_rotation.py:258-272 | a rotation is revoked if and only if it is accepted now and the time is not before its acceptance |
| RotationLaws.EveryRegistryAdmitted | src/runner_swarm/key_rotation.py:214-272 | over every run: each artifact is genuine, each accepted decision was made while its rotation was issued, in effect and not run out, and each revocation follows an acceptance of its rotation |
| RotationLaws.LinksAdmitted | src/runner_swarm/key_rotation.py:291-295 | over every run, an identity has a successor only by a genuine artifact that was accepted in its time |
| TrustStore.EveryStore | src/runner_swarm/local_trust_store.py:172-232 | every store reachable from an empty one reloads without error, and its mapping has no cycle |
| TrustStore.TransactReloads | src/runner_swarm/local_trust_store.py:311-410 | after a transaction the store reloads; it reloads the very registry the decision made if and only if the decision is new to the log |
| TrustStore.MappingReloads | src/runner_swarm/local_trust_store.py:344-347 | the accepted mapping survives the reload if and only if the decision is new to the log or was already the latest for its rotation |
| TrustStore.ReacceptReloadsRevoked | src/runner_swarm/local_trust_store.py:344-347 | a reachable store where accepting again, byte for byte, reloads as revoked |
| RotationLaws.TransactExactly | src/runner_swarm/local_trust_store.py:311-363 | a decision is stored if and only if the registry makes it, no other artifact is under its content, and it is in the log already or the log has room |
| RotationLaws.EveryStoreAdmitted | src/runner_swarm/local_trust_store.py:172-232 | every reachable store holds genuine artifacts only, no decision twice and no more than its limit, and reloads to the registry of exactly its log, whose acceptances were all made in time |
| TrustStore.LocalTrustStore.LoadRegistry | src/runner_swarm/local_trust_store.py:365-410 | the replay loop gives the registry of the whole log, or the first error of the replay |
| TrustStore.LocalTrustStore.Decide | src/runner_swarm/local_trust_store.py:172-232 | one transaction of accept, reject or revoke: both tables as persisted, or both unchanged and the error |
| TrustStore.LocalTrustStore.ClassRows | src/runner_swarm/local_trust_store.py:164-169 | the outcome rows of one continuity class, relabelled with its end |
| TrustStore.LocalTrustStore.ScoreOf | src/runner_swarm/local_trust_store.py:143-170 | a peer's score is the score of its continuity class |
| TrustStore.LocalTrustStore.PeerIsBanned | src/runner_swarm/runtime.py:577-582 | a peer is banned if and only if some banned identity continues it |
| TrustStore.ClassShares | src/runner_swarm/runtime.py:577-582 | two members of a continuity class have the same score and the same ban |
| TrustStore.ClassScoreExactly | src/runner_swarm/local_trust_store.py:143-170 | a score counts each outcome of each identity of the class once, by verdict, and so do the family uses that the diversity is taken from |
| Reputation.ScorePeer | src/runner_swarm/reputation.py:150-210 | the counting loop and the arithmetic give the assessment of the records, or the error for another peer's record or a repeated claim |
| Reputation.AddFamilies | src/runner_swarm/reputation.py:171-175 | each family of a resolved outcome is counted once |
| Reputation.CauchySchwarz | src/runner_swarm/reputation.py:176-186 | the square of the sum of the family counts is at most their number times the sum of their squares |
| Reputation.ScoresInRange | src/runner_swarm/reputation.py:164-197 | all scores are in 0..PPM, reputation is at most reliability and at most diversity, influence is within its limit, and diversity is at most families * PPM / target |
| Reputation.EligibleNeedsFamilies | src/runner_swarm/reputation.py:179-193 | an eligible peer has families * PPM at least target * minimum reputation, and enough resolved outcomes |
| Reputation.EligibleExactly | src/runner_swarm/reputation.py:179-210 | every record is counted once; a peer is eligible if and only if it has enough resolved outcomes and enough reputation, and has influence only then |
| Reputation.RepeatsExactly | src/runner_swarm/reputation.py:161 | a claim counts as repeated if and only if there are fewer claims than records |
| Reputation.EqualUsesAreDiverse | src/runner_swarm/reputation.py:176-186 | with every family used equally often, diversity is all that the number of families allows |
| Reputation.ReliabilityMonotone | src/runner_swarm/reputation.py:164-169 | a further confirmation never lowers reliability, a further refutation never raises it, an inconclusive outcome leaves it |
| Reputation.ConfirmationMayLower | src/runner_swarm/reputation.py:176-190 | reputation itself can fall on a confirmation |
| Reputation.DiversityExactly | src/runner_swarm/reputation.py:171-186 | a further resolved outcome does not lower the diversity before rounding if and only if (2tk + k²)q >= t²(2s + k), for its k families, their prior uses s, the total t and the concentration q |
| Reputation.ConfirmationKeeps | src/runner_swarm/reputation.py:176-190 | under that condition a confirmation lowers neither diversity nor reputation, through both roundings |
| PeerStore.PeerClaimStore.Relations | src/runner_swarm/peer_store.py:649-661 | the two indexes hold exactly the live retractions and the observations that name a target, among unrevoked claims |
| PeerStore.PeerClaimStore.RefreshStates | src/runner_swarm/peer_store.py:638-686 | every row's state becomes the one its claim has among the claims held, and its change time moves only when its state does |
| PeerStore.StampRows | src/runner_swarm/peer_store.py:666-686 | row by row, from the two indexes: exactly the rows whose state has changed are rewritten |
| PeerStore.IndexedState | src/runner_swarm/peer_store.py:649-680 | looking a claim up in the indexes decides exactly whether some unrevoked claim retracts or replaces it |
| PeerStore.PeerClaimStore.Ingest | src/runner_swarm/peer_store.py:243-360 | the answer and the rows after receiving a claim, on every path: unverified, banned, over its rate, duplicate, accepted and pruned |
| PeerStore.PeerClaimStore.Admit | src/runner_swarm/peer_store.py:308-357 | a new claim's state at once, and the rows and bans that the prune after it leaves |
| PeerStore.PeerClaimStore.CurrentClaims | src/runner_swarm/peer_store.py:362-406 | readers see exactly the active observations of issuers that are not banned |
| PeerStore.PeerClaimStore.RevokeClaim | src/runner_swarm/peer_store.py:493-523 | revokes and refreshes exactly when there is room for the record |
| PeerStore.PeerClaimStore.RestoreClaim | src/runner_swarm/peer_store.py:525-544 | removes the revocation and refreshes |
| PeerStore.PeerClaimStore.BanPeer | src/runner_swarm/peer_store.py:424-463 | a ban is refused when it is already over or, if new, when there is no room; otherwise the issuer is banned exactly until its end, and others as before |
| PeerStore.PeerClaimStore.UnbanPeer | src/runner_swarm/peer_store.py:465-482 | the issuer is not banned at any time after it |
| PeerStore.AnswerExactly | src/runner_swarm/peer_store.py:243-310 | a claim is accepted if and only if it is under its own digest, signed, issued by now (with five minutes of skew) and not run out, its issuer is not banned and within its rate, and it is not held; and exactly when each other answer is given |
| PeerStore.AcceptedRow | src/runner_swarm/peer_store.py:308-357 | the new row holds the claim, its topic and its arrival, unless the overflow takes it; the rows that stay keep theirs |
| PeerStore.PlainStates | src/runner_swarm/peer_store.py:638-686 | a claim is revoked if and only if it is in the local revocations, and expired if and only if it is not and its time has come; a retraction is never retracted or superseded |
| PeerStore.OverflowOrder | src/runner_swarm/peer_store.py:696-706 | overflow takes an active claim only when no other is left, and of each kind the earliest arrivals |
| PeerStore.PeerClaimStore.Prune | src/runner_swarm/peer_store.py:688-730 | refreshes, deletes the inactive claims past the cutoff and then exactly the overflow, first inactive, then oldest; keeps exactly the bans that end after the cutoff or never |
| PeerStore.KeptBansHold | src/runner_swarm/peer_store.py:721-724 | who is banned after the cutoff does not change |
| PeerStore.PeerClaimStore.FirstToGo | src/runner_swarm/peer_store.py:697-705 | the rows chosen for deletion come before all others in the order of deletion |
| PeerStoreProofs.RetractedExactly | src/runner_swarm/signed_claim.py:364-375 | a claim is retracted if and only if it is an unrevoked, unexpired observation and a stored unrevoked claim `retracts` it now |
| PeerStoreProofs.ReplacesExactly | src/runner_swarm/signed_claim.py:377-391 | replacement in the store is `supersedes` at the time the replacement was issued, and `supersedes` at any time implies it |
| PeerStore.RelationsExactly | src/runner_swarm/signed_claim.py:364-391 | a claim retracts or supersedes another if and only if it is current, names it under its digest, has its issuer, and the other is authentic; and to supersede, both are observations of one instrument and it is the later one |
| PeerStoreProofs.SupersededExactly | src/runner_swarm/peer_store.py:666-678 | a claim is superseded if and only if it is an unrevoked, unexpired, unretracted observation and a stored unrevoked claim superseded it when issued |
| PeerStoreProofs.NeverActive | src/runner_swarm/signed_claim.py:377-391 | no claim is active while a stored unrevoked claim `supersedes` it |
| PeerStoreProofs.SupersededByRelationExactly | src/runner_swarm/signed_claim.py:377-391 | a superseded claim has a superseder in the sense of the relation now if and only if a replacement has not run out |
| PeerStoreProofs.StateUnseen | src/runner_swarm/peer_store.py:688-694 | deleting claims past the cutoff changes no claim's state, now or later, whatever is revoked |
| PeerStoreProofs.ForgettableExactly | src/runner_swarm/peer_store.py:691-706 | deleting claims changes no state, then or later, whatever is revoked and whatever arrives, if and only if none of them withdraws or replaces a claim that can still be live |
| PeerStoreProofs.DropKeepsExactly | src/runner_swarm/peer_store.py:696-706 | at one moment, no remaining claim's state changes if and only if every live, unrevoked one that a deleted claim withdraws or replaces is made up for by a remaining claim |
| PeerStoreProofs.InvisibleExactly | src/runner_swarm/signed_claim.py:203-206 | age pruning is invisible in every store if and only if retention is at least a day less three microseconds |
| PeerStoreProofs.SweptHolds | src/runner_swarm/peer_store.py:688-694 | the sweep deletes exactly the claims that ran out before the cutoff |
| PeerStoreProofs.PerformForgotten | src/runner_swarm/peer_store.py:243-360 | one event, with any overflow that drops no claim with a live target, keeps it so that no forgotten claim has one |
| PeerStoreProofs.EveryRun | src/runner_swarm/peer_store.py:243-360 | after any run of ingests, revocations and prunes, overflow included, that drops no claim with a live target, the claims held have the states they would have if nothing had been deleted |
| PeerStoreProofs.EveryRunExactly | src/runner_swarm/peer_store.py:243-360 | after any run at all, the claims held have those states at a given time if and only if what is held makes up for what is not |
| PeerStoreProofs.DeletedInactive | src/runner_swarm/peer_store.py:688-694 | in a store that never overflows, no deleted claim would be active |
| PeerStoreProofs.Converges | src/runner_swarm/peer_store.py:638-686 | two stores that never overflow and accepted the same claims and revoked the same ones, in any order and with any sweeps, agree on every state and on what is active |
| PeerStoreProofs.OverflowRevives | src/runner_swarm/peer_store.py:696-706 | a run of three arrivals at a store of two claims, in which the overflow makes a superseded claim active again |
| PeerStoreProofs.AcceptedArrived | src/runner_swarm/signed_claim.py:329-355 | over every run, every claim ever taken in arrived under its own digest and signature while it was current |
| Payments.PaymentsDb.BeginCall | src/runner_web/api_payments.py:217-263 | the first transaction: the checks in order, the proof's claim, the lease and the status, or no change and the error |
| Payments.PaymentsDb.WriteStatus | src/runner_web/api_payments.py:271-298 | an unguarded status write |
| Payments.PaymentsDb.FinishCall | src/runner_web/api_payments.py:310-340 | the last transaction: the transaction's claim, completion, and the credits, added only when the row changes |
| PaymentsProofs.Settle | src/runner_web/api_payments.py:207-340 | the whole call alone: each answer of the service leads to its transactions, at their own times, with the right outcome |
| PaymentsProofs.AloneIsARun | src/runner_web/api_payments.py:207-340 | a call alone does what its events do in the interleaved machine |
| PaymentsProofs.PerformInv | src/runner_web/api_payments.py:217-340 | one event of any call that still holds its order keeps the books, the claims and the order of the leases |
| PaymentsProofs.InTimeHolds | src/runner_web/api_payments.py:239-242 | a call within its lease still holds its order |
| PaymentsProofs.IndexesUnused | src/runner_web/api_payments.py:243-263 | with the claims checked, the unique indexes on proofs and transactions are never hit |
| PaymentsProofs.EveryRun | src/runner_web/api_payments.py:217-340 | over any interleaving, crash and retry of calls within their leases: a user's credits are those of the complete orders, each order is granted once, and no proof or transaction belongs to two orders |
| PaymentsProofs.CompleteIsFinal | src/runner_web/api_payments.py:323-334 | a complete order keeps every field for the rest of the run |
| PaymentsOutcomes.BeginExactly | src/runner_web/api_payments.py:217-263 | a call starts if and only if the order is the user's own and not complete, the payload has version 2, terms that the order offered and its resource, no other payment was begun, an open order is at most ten minutes old, no call is at work, and the payment is not claimed elsewhere; then the claim and the lease, otherwise no change |
| PaymentsOutcomes.FinishExactly | src/runner_web/api_payments.py:310-340 | the last transaction succeeds if and only if no other order has the transaction and the order is there; it completes and credits exactly an own order that is not complete |
| PaymentsOutcomes.SettleExactly | src/runner_web/api_payments.py:207-340 | what a started call comes to: rejected when verification declines, pending when verification or settlement on the agreed network is not confirmed, refused when another order has the transaction, otherwise completed with its credits; in no other case are credits added |
| PaymentsOutcomes.OfferedRun | src/runner_web/api_payments.py:217-340 | over every run, late calls included, each call is on a network that its order offers, and so is each transaction on record |
| PaymentsOutcomes.GrantsConfirmed | src/runner_web/api_payments.py:299-340 | over every run, each transaction on record was confirmed by the service, and there are no more grants than confirmations |
| PaymentsOutcomes.OneAtWork | src/runner_web/api_payments.py:239-242 | over every run within the leases, no two calls are at work on one order |
| PaymentsOutcomes.CreateOutcome | src/runner_web/api_payments.py:131-155 | a new order is open, unpaid and free for any call |
| PaymentsOutcomes.PruneExactly | src/runner_web/api_credits.py:244-248 | an order is deleted if and only if it is open or rejected and untouched for a week, with its claims and nothing else |
| PaymentsOverrun.OneOrderEach | src/runner_web/api_payments.py:243-263 | over every run at all, however late its calls, no payment proof and no transaction belongs to two orders |
| PaymentsOverrun.EveryCleanRun | src/runner_web/api_payments.py:217-340 | however late the calls, while every status write finds its row not complete, users have exactly the credits of the complete orders and no order is granted twice |
| PaymentsOverrun.WriteBalancesExactly | src/runner_web/api_payments.py:271-298 | on balanced books, a status write keeps them balanced if and only if the row it writes is not complete |
| PaymentsOverrun.BooksExactly | src/runner_web/api_payments.py:271-298 | over every run, the books balance at every moment if and only if every status write finds its row not complete |
| PaymentsOverrun.TimelyIsClean | src/runner_web/api_payments.py:239-242 | calls within their leases write no complete row |
| PaymentsOverrun.OverrunCreditsTwice | src/runner_web/api_payments.py:294-298 | a run with one late write, which finds a complete row, credits one order twice |
| PaymentsOverrun.OverrunCreditsTwiceLater | src/runner_web/api_payments.py:294-298 | a run with one late write, which finds its row not complete, lets a later write within its lease find a complete row, and credits one order twice |
| Credits.CreditsDb.RollAccount | src/runner_web/api_credits.py:68-81 | the account as of a day, with its allowances started afresh in a new month or day |
| Credits.CreditsDb.ReserveRequest | src/runner_web/api_credits.py:99-175 | the reservation: same request, other details, refusals for jobs or credits with no change, or the charge |
| Credits.CreditsDb.Charge | src/runner_web/api_credits.py:132-175 | the charge: free part first, the paid rest or the refusal, and the new request |
| Credits.CreditsDb.CheckJobs | src/runner_web/api_data.py:199-228 | a job is refused for a full queue, a spent budget, or a job of the same user, in that order |
| Credits.CreditsDb.FinishRequest | src/runner_web/api_credits.py:178-209 | an open request ends, and a failed one is refunded to the month and day it was charged in |
| Credits.CreditsDb.StartJob | src/runner_web/api_data.py:308-330 | a queued job starts only while fewer than two run |
| Credits.CreditsDb.GetBalance | src/runner_web/api_credits.py:84-96 | the paid credits, what both allowances still cover together and each, and the tier |
| CreditsProofs.EveryRun | src/runner_web/api_credits.py:68-252 | after every run of a calendar that goes forward: paid credits + paid cost of unfailed requests = completed top-ups; the free usage is the free cost of this month's and this day's unfailed requests, within 0..1000 and 0..100; a user has one job at most, and the queue and the running jobs keep their limits |
| CreditsProofs.EveryOpenRun | src/runner_web/api_credits.py:68-252 | the same for any calendar, while no roll opens a month or a day in which something was used |
| CreditsProofs.ReserveInv | src/runner_web/api_credits.py:99-175 | a reservation keeps all of this |
| CreditsProofs.FinishInv | src/runner_web/api_credits.py:178-209 | ending or refunding a request keeps all of this |
| CreditsProofs.UsedCovers | src/runner_web/api_credits.py:193-209 | a refund never takes an allowance below zero |
| CreditsProofs.RollInv | src/runner_web/api_credits.py:68-81 | starting an unused month or day keeps all of this |
| CreditsProofs.RollBalancedExactly | src/runner_web/api_credits.py:76-79 | a roll keeps an account in agreement with its requests if and only if the month and the day it opens, if new, have no unfailed free cost |
| CreditsProofs.DatedOpens | src/runner_web/api_credits.py:68-81 | a calendar that goes forward opens only unused months and days |
| CreditsProofs.PruneInv | src/runner_web/api_credits.py:222-239 | pruning ended requests keeps all of this, their cost still counted |
| CreditsProofs.RequestStays | src/runner_web/api_credits.py:178-209 | until it is pruned, a request keeps its charge over any run, and once it has ended, its status |
| CreditsProofs.ReservedOnce | src/runner_web/api_credits.py:114-118 | reserving again under the same key, at any later moment before the request is pruned, returns that request and charges nothing |
| CreditsProofs.RefundedOnce | src/runner_web/api_credits.py:193-209 | a failure, whenever it comes, gives back exactly the paid part and the free part of a month and day that last, and no later end of the request moves anything |
| CreditsProofs.AffordsExactly | src/runner_web/api_credits.py:131-147 | a free-or-paid request is refused if and only if its price is more than the paid credits and the free ones the balance reports |
| CreditsProofs.ReadOutcome | src/runner_web/api_credits.py:131-175 | a free-or-paid request takes all it can from both allowances and the rest from the paid credits, or is refused with what is missing and no change |
| CreditsProofs.JobOutcome | src/runner_web/api_data.py:199-228 | a job is queued, and paid in full, if and only if fewer than twenty wait or run, the budget allows it, its user has none, and the paid credits cover it |
| CreditsProofs.FinishOutcome | src/runner_web/api_credits.py:178-209 | an open request ends as told, only a failure moves the account, and no other request is touched |
| CreditsProofs.StartOutcome | src/runner_web/api_data.py:308-330 | a job starts if and only if it waits and fewer than two run |
| CreditsProofs.EndedStays | src/runner_web/api_credits.py:184-193 | an ended request stays as it is until it is pruned |
| CreditsProofs.BackAndForthExactly | src/runner_web/api_credits.py:76-79 | a day back and forth leaves an account as it would have been if and only if no allowance in use was passed over |
| CreditsProofs.BackwardClockGivesMore | src/runner_web/api_credits.py:76-79 | a run with one day back and forth, in which a fifth request of 25 credits is free on one day |
| Trigger.CasBucket.Get | cloudflare-router/testing/helpers.js:45-54 | the object and the tag that a swap must present, or none when absent |
| Trigger.CasBucket.PutIf | cloudflare-router/testing/helpers.js:58-67 | writes exactly when the object is still the one that was read |
| Trigger.CasBucket.Update | cloudflare-router/src/trigger.js:67-80 | the retry loop: gives up, finds nothing to change, or writes its change of the state it last saw, whatever others write in between |
| Trigger.GivesUpExactly | cloudflare-router/src/trigger.js:67-80 | an update gives up if and only if it lost all its attempts to other writes |
| Trigger.CasBucket.StartIfDue | cloudflare-router/src/trigger.js:84-112 | the turn, its start and its give-back, with the reason reported, whatever others write before each swap and while the workflow is asked for |
| Trigger.CasBucket.Notify | cloudflare-router/src/trigger.js:114-122 | the mark and then the turn; true exactly when the start was accepted |
| Trigger.DueOutcome | cloudflare-router/src/trigger.js:84-112 | for each outcome of a turn, the attempt at which it ended, the state it saw there and the object it leaves: an accepted start saw work pending and the last start a window old, and leaves the turn taken at its own time; a refused one leaves the work pending and the start before it, unless every give-back lost; all others leave the object as the others left it, for the reason given |
| Trigger.MarkOutcome | cloudflare-router/src/trigger.js:114-118 | a mark that does not give up leaves work pending, with the last start as it was |
| Trigger.QuietDue | cloudflare-router/src/trigger.js:84-112 | with nobody else writing, the object and the outcome as a function of the stored state and the answer, written out |
| TriggerRuns.DueIsARun | cloudflare-router/src/trigger.js:84-112 | a turn, whatever events of others come before each of its swaps and while the workflow is asked for, is a run of the interleaved machine that ends with the same object and the same outcome |
| TriggerRuns.NotifyIsARun | cloudflare-router/src/trigger.js:114-122 | so is a notification: the mark, what others do after it, and the turn |
| TriggerProofs.PerformInv | cloudflare-router/src/trigger.js:67-112 | one read, swap, dispatch or pause of any process keeps the marks served, the starts spaced, and every give-back at most one lost swap away from winning |
| TriggerProofs.EveryRun | cloudflare-router/src/trigger.js:67-133 | over any interleaving: recorded starts are a window apart, one turn at most is in flight, no give-back is lost, and every marked submission is pending or has a turn after its mark |
| TriggerProofs.QuietMeansStarted | cloudflare-router/src/audits.js:132-135 | when nothing is pending or in flight, every marked submission has a workflow start after its mark |
| TriggerProofs.GiveBackExactly | cloudflare-router/src/trigger.js:110 | a give-back leaves the object's last start the last one on record if and only if the object still shows the process's own start |
| TriggerProofs.PerformKept | cloudflare-router/src/trigger.js:67-111 | however slow the turns, one event whose give-back finds its own start keeps the object in agreement with the recorded starts, and the starts spaced |
| TriggerProofs.OwnTurnsSpaced | cloudflare-router/src/trigger.js:67-133 | over any run, recorded starts are a window apart while every give-back finds its own start |
| TriggerProofs.MissedTurnBreaks | cloudflare-router/src/trigger.js:84-110 | a give-back that does not, while the last start's window is open, lets the next tick break the spacing at once |
| TriggerProofs.PromptOwns | cloudflare-router/src/trigger.js:84-110 | while turns are prompt, every give-back finds its own start |
| TriggerProofs.SlowTurnBreaksSpacing | cloudflare-router/src/trigger.js:110 | a run in which a give-back after its window lets two recorded starts coincide, because it does not find its own start |
| Base58.B58Decode | cloudflare-router/src/audits.js:52-75 | the loops return the built bytes when they have the length asked for, and nothing for empty or foreign text |
| Base58.B58Encode | cloudflare-router/testing/helpers.js:6-27 | the loops return the encoding of the bytes |
| Base58.CarryInto | cloudflare-router/src/audits.js:58-67 | the in-place carry multiplies the number by the one base and adds the digit in the other |
| Base58.WordsSmall | cloudflare-router/src/audits.js:58-67 | every word that the carry holds on the way is below 14,848, so no shift wraps |
| Base58.MulAddValue | cloudflare-router/src/audits.js:58-67 | the carry's digits denote the old number times the factor plus the carry |
| Base58.DecodeAddress | src/ratitrust/keys.py:11-16 | the big-number decoder returns the conversion of the text, or raises on a foreign character |
| Base58.DecodersAgree | src/ratitrust/keys.py:11-16 | the byte loop and the big-number decoder build the same bytes if and only if the text does not denote zero, when the loop builds one byte more |
| Base58.EncodeThenDecode | cloudflare-router/testing/helpers.js:6-27 | decoding an encoding at the original length gives the bytes back if and only if some byte is not zero |
| Base58.DecodeThenEncode | cloudflare-router/src/audits.js:52-75 | a decoded text is the encoding of its bytes if and only if it does not denote zero |
| Base58.DecodesExactly | cloudflare-router/src/audits.js:52-75 | a text decodes at a length if and only if it is not empty, all its characters are in the alphabet, and its number with its leading zeros takes that many bytes; then to bytes of that length and number |
| RateLimiter.Create | src/runner_watch/massive_data.py:128-136 | a limiter starts full, and is refused for less than one call a minute |
| RateLimiter.Limiter.Attempt | src/runner_watch/massive_data.py:140-147 | one pass under the lock: granted exactly when the refilled bucket holds a token, otherwise the wait is what refills one |
| RateLimiter.Limiter.Acquire | src/runner_watch/massive_data.py:138-150 | the waiting loop, with other callers taking tokens while this one sleeps: granted, refused for too long a wait, or another pass |
| RateLimiter.AloneIsServed | src/runner_watch/massive_data.py:138-150 | a caller that nobody interrupts is granted at once, refused, or granted after one sleep |
| RateLimiter.PassesFollow | src/runner_watch/massive_data.py:138-150 | however many callers take part, a caller is granted by the level that the one sequence of all attempts gives, and refused for the wait that this level asks for, so the bound on windows is on all callers together |
| RateLimiter.Serve | src/runner_watch/massive_data.py:138-147 | attempts at any times are granted as the levels say |
| RateLimiter.WindowBound | src/runner_watch/massive_data.py:138-147 | the calls granted in any window are at most the capacity plus rate times its length, and the tokens stay within 0 and the capacity |
| RateLimiter.GrantedExactly | src/runner_watch/massive_data.py:138-147 | an attempt is granted if and only if no window that ends with it has used up its allowance |
| ResultCache.Server.LowestScores | src/runner_web/api_limits.py:40 | the swept entries are due, 256 at most, and the lowest |
| ResultCache.DropEach | src/runner_web/api_limits.py:42-46 | the sweeping loop takes exactly the swept entries out of both indexes and adds up their sizes |
| ResultCache.Server.DropSwept | src/runner_web/api_limits.py:42-46 | the swept entries leave both indexes, and their sizes are added up |
| ResultCache.Server.CachePut | src/runner_web/api_limits.py:38-57 | the script's new keys and expiries, and its answer |
| ResultCache.Server.SaveResult | src/runner_web/api_limits.py:103-127 | too large, full or kept, with the keys each leaves; a kept result is within the bound of its raw size |
| ResultCache.SweepKeeps | src/runner_web/api_limits.py:41-47 | the counter never has to be held at zero: what is swept was counted |
| ResultCache.PutInv | src/runner_web/api_limits.py:38-57 | a put, kept or refused, keeps every readable result indexed under its size and expiry, and the counter at least their sum |
| ResultCache.FitsExactly | src/runner_web/api_limits.py:47-50 | a put fits if and only if it is within 32 MiB together with the counter, less what the sweep takes off |
| ResultCache.PutOutcome | src/runner_web/api_limits.py:38-57 | what a put leaves of every key: one that fits keeps the new result for an hour beside all the others, and indexes and counts it; one that does not leaves all results; either way what was swept is in no index, and the counter is less by its size |
| ResultCache.SweepOutcome | src/runner_web/api_limits.py:40 | the sweep takes only entries that are due, none before a lower one, and leaves a due one only when it has taken 256 |
| ResultCache.ExpireOutcome | src/runner_web/api_limits.py:47-55 | every key is there until its own expiry and no longer; a counter without one stays |
| ResultCache.ResultReadable | src/runner_web/api_limits.py:37-57 | over every run, a kept result stays readable until its hour is over or it is replaced, whatever else is put or swept |
| ResultCache.EveryRun | src/runner_web/api_limits.py:37-57 | over every run of puts, sweeps and expiries, the readable results take at most what the counter says, and the counter at most the limit |
| ResultCache.ExactExactly | src/runner_web/api_limits.py:48-55 | a put keeps an exact counter exact if and only if the name was not already counted with a size |
| ResultCache.ExpiryExactly | src/runner_web/api_limits.py:47-55 | when the index has expired, the counter is exact again if and only if it expires with it or is zero |
| ResultCache.StuckExactly | src/runner_web/api_limits.py:47-50 | once the index is gone and the counter stays, a put is refused and the count stays if and only if it does not fit beside the stale count |
| ResultCache.StuckEnds | src/runner_web/api_limits.py:51-55 | a put that fits gives the counter an expiry again, after which the counter is exact |
| ResultCache.RefusedPutSticks | src/runner_web/api_limits.py:47-55 | 257 puts of 128 KiB, the last of them refused, lead there |
| Sums.SumRows | src/runner_trading/ledger.py:147-156 | adding a column up row by row gives the sum that the invariants speak of |

## Left out

- Ledger: signals' own state and reason, order reasons and receipts as text, events, position marks (`save_mark`) and paper
  retries; they do not touch money or the indexes.
- Live: `validate` and the construction of transactions, and resending; review is its status write and pause.
- TradingDb.Account.SavePrepared: the transaction part of `prepare`; the checks of the quote, its freshness and the block
  height before it are not part of this model.
- Live.Executor.RecoverOrder: the request that resends the stored bytes and the counter of attempts are left out.
- Live.Executor.SettleReceipt: a receipt arrives as its effect on the wallet; decoding balances and signatures is left out.
- LiveProofs.Reconciled: the ledger's side only; reading the wallet, pausing, and transfers from outside are left out.
- KeyRotation: wire formats and the two signature checks, which are one flag.
- KeyRotation.LocalKeyRotationRegistry.ContinuityNodeIds: the result is a set, without its sorting.
- TrustStore: pruning and conflicts of outcome records; the outcome table is taken as it is read.
- PeerStore.PeerClaimStore.Ingest: rate windows enter as a yes or no, and audit records are left out.
- PeerStore.PeerClaimStore.Prune: rate windows and audit records are not pruned, as they are left out.
- PeerStore.PeerClaimStore.FirstToGo: rows that tie in activity and arrival are not ordered by their identifier.
- PeerStore.PeerClaimStore.CurrentClaims: the filters by topic, instrument and issuer, the order and the row limit are left
  out.
- Payments: the hourly limit on new orders and the request key that makes them idempotent; a new order has a fresh identifier.
- Credits: API keys, provider spending, result texts, and the ages at which `prune` ends and deletes requests; any ended
  request may be pruned at any time. Top-ups arrive as credits added to the account.
- Credits.CreditsDb.CheckJobs: the arithmetic of the shared provider budget is a yes or no.
- Credits.CreditsDb.StartJob: queued jobs may start in any order, not only the oldest first.
- Trigger: heartbeats, the GitHub calls and their token; a dispatch is accepted or not. Other keys of the bucket change no tag
  of the control object.
- Base58: Ed25519 points (`_on_curve`) and signature checks.
- RateLimiter: rounding of floating-point numbers; readings and waits are exact.
- ResultCache: request admission (`ADMIT`), compression, and ties between equal scores.
- Routes, templates, scanners, scoring tables, release scripts and the desktop shell are not part of this model.
