# Soulscape Hub: durable core

This project models the durable simulation core of the Soulscape Hub and proves what it is for.

* **The escrowed economy.** Clients submit orders under a (session, nonce) key; funds are held when an order is
  accepted; a pump adjudicates pending intents; adjudication can fail half-way; a boot sweep finishes what is left.
  `Economy.dfy` gives every committed transaction as one function on the tables. `Hub.dfy` is the same code as a class
  that updates the tables row by row, each method proved equal to its transaction. `Integrity.dfy` proves the structural
  invariant of all reachable states, `Money.dfy` and `Market.dfy` conservation of money and items, `Stakes.dfy` whose the
  items are, `Protocol.dfy` the safety of retries, racing pumps and the sweep, `Dormancy.dfy` the agreement of the journal with the wallets,
  `Ingress.dfy` which orders are accepted, `Outcomes.dfy` when orders go through and what
  changes hands, `Verdicts.dfy` that the journaled reasons are true, `Forum.dfy` who changes messages, `Audit.dfy` what
  `verify_balances` reports and repairs. `Witnesses.dfy` holds the runs in which a documented promise fails.
* **The durable world.** `WriteBehind.dfy` (dirty set), `Journal.dfy` (journal, snapshots, compaction) and `Replay.dfy`
  (boot replay against the live tick).
* **Closed forms against step-by-step simulation.** `Motion.dfy` and `Biology.dfy`; `Needs.dfy` tells in plain numbers what a
  span does to a soul.
* **Plots, routes, messages, viewports and rate limits.** `Plots.dfy`, `Routing.dfy`, `Threads.dfy`, `Viewport.dfy` (queue,
  frames, ring, resume), `Pump.dfy` (the pump that feeds it), `RateLimit.dfy`.

Money is counted in whole cents; time, positions and needs are real numbers. One `BEGIN IMMEDIATE … commit` is one
atomic step; an intent's id is its row number and an escrow carries the id of its intent. Clocks, random draws, minted
listing ids and changes of custody or of a soul's body are inputs of the steps. (The server itself changes the custody of
a soul only by deleting it and registering it again, `server/sim_commands.py:180-205`; `Witnesses.HandedOverRun` is the one
witness that needs it.)

## Where the code and its documentation disagree

The model follows the code in each of these places, states exactly when the documented behaviour holds, and shows an input or
a run in which it does not.

* Money is conserved over a run exactly if no buyer held more than the price of what it bought
  (`Money.ConservedIff`). A client may reuse a listing id, and then a buyer can lose the difference
  (`Market.ReusedIdLosesTheDifference`: one pump settles a cancel, a relisting and the buy in the order of their submission);
  while ids are fresh nothing is lost (`Market.FreshRunConserves`).
* That refusals release the escrow (`server/plots.py:557-558`) holds exactly for refusals that are not custody
  refusals; buys behave the same way (`Outcomes.RefusalReleasesIff`, `Witnesses.HandedOverRun`). The boot sweep releases
  the rest (`Protocol.ReconcileFinishes`).
* A feed is adjudicated, and rejected after an exception, whatever the status of its intent is. An exception after the
  commit, or a second adjudication, turns `adjudicated` into `rejected` exactly when a feed had gone through; it moves no
  money (`Protocol.FaultAfterCommitIff`, `Protocol.FeedStatusKeptIff`, `Witnesses.FedAndRejected`).
* A soul that owns exactly the cost of a post is charged into dormancy by the hold and then refused for being dormant
  (`Outcomes.PublishedIff`, `Witnesses.LastPostIsRefused`).
* The boot sweep does not journal that a refund woke a soul; the dormancy journal is right after a run exactly if no refund
  of a sweep went to a dormant soul (`Dormancy.JournalFollowsDormancy`, `Witnesses.SweptAwake`).
* A repairing `verify_balances` is harmless to an actor exactly if nothing is held from it; otherwise it pays the held money
  out a second time, and the actor's baseline stays too large by it (`Audit.RepairIsSafeIff`, `Witnesses.RepairInflates`).
* `analytic_advance` is described as matching the live ticks; for an aimed soul it does so exactly outside a window around
  the target (`Motion.CatchUpMatchesTicks`, `Motion.CatchUpIsNotAlwaysExact`).
* Two spans of biology decay agree with one on the lifecycle state exactly if the first does not end in a recovery, or the
  recovered soul has hp to last (`Biology.SpanLawExactly`, `Biology.RecoveredSoulFallsAgain`).
* Boot replay rebuilds the live world from every snapshot exactly if nobody is moving when a late step makes the loop skip
  ticks, and whoever a `rest` or `wait` stops was at rest by what the journal tells (`Replay.RecoveryHoldsIff`,
  `Replay.WalkerIsRecoveredElsewhere`): skipped ticks are integrated by replay only, and halts are journaled without a velocity.
* A resumed client misses a snapshot that was sent mid-session (`Viewport.ResumeCoversIff`, `Viewport.SnapshotIsMissed`).
* A sent frame commits also the moves that were too small to be sent, so the client shows every soul where it is committed
  after a pass exactly if nothing was sent or no soul crept (`Pump.PassKeepsExactIff`). A queue over the high-water mark is
  never sent again, however far the send rate is lowered (`Pump.SaturationLasts`).

## Model

| member | source | states |
|---|---|---|
| Integrity.NextGood | server/persistence.py:823-894 | Every submit, pump, fault, sweep, birth and body change keeps the invariant: no overdrawn wallet, exactly the charged intents have an escrow, paid by the right actor in the right state, unique keys, owned plots a prefix of the allocation order, claims covered, messages a forest. |
| Integrity.SettleMoves | server/market.py:631-685 | Settling a pending intent gives that one intent a final status, moves at most its own escrow out of the held state, and leaves escrow and status in agreement. |
| Integrity.FeedMoves | server/biology.py:662-808 | Adjudicating a feed, whatever the intent's status was, gives that one intent a final status, moves at most its own escrow out of the held state, and leaves escrow and status in agreement. |
| Integrity.FitClaim | server/plots.py:461-546 | A claim is refused with at most a refund, or hands the next plot of the order to its claimant, advances the counter by one and applies the escrow, with no wallet overdrawn by the top-up. |
| Integrity.FitReply | server/social.py:433-484 | A reply that passes the parent check keeps the messages a forest within the depth cap. |
| Integrity.ScanFindsFirst | server/plots.py:269-289 | From any position the scan finds the first unowned plot, or none if all from there on are owned. |
| Integrity.NextIsClaims | server/plots.py:269-289 | In every sound state the scan finds exactly the plot after the last claimed one, or none when all are claimed. |
| Integrity.AcceptGood | server/market.py:281-383 | Accepting an order that passed its preface keeps the invariant: the escrow is the one the order must pay, taken from a wallet that covers it. |
| Money.NextGap | server/market.py:498-589 | One step leaves balance minus ledger plus held escrows unchanged for every actor, but for the surplus a sale does not give back, and fund minus tax rows unchanged. |
| Money.RunConserves | server/market.py:26-28 | Over any interleaving, every actor's balance is its baseline plus its ledger total minus its held escrows minus the surplus of its purchases, and the fund is its baseline plus all tax rows. |
| Money.ConservedIff | server/market.py:525-589 | The baseline of an actor is conserved exactly in the runs in which it never held more than the price it paid. |
| Money.BuyCosts | server/market.py:498-589 | A settled buy costs the buyer's baseline exactly what it held beyond the price, and no other baseline anything. |
| Money.ClaimCosts | server/plots.py:461-546 | A settled claim moves no baseline, because the held amount never exceeds the fee. |
| Money.ReconcileGap | server/persistence.py:823-894 | The boot sweep moves no baseline. |
| Market.NextUnits | server/inventory.py:37-114 | One step keeps the units of every item in inventories and listings together, but for the listing a short buy deletes. |
| Market.NextPriced | server/market.py:442-495 | A step that puts up no listing under an id a pending buy names keeps every pending buy holding exactly the price of its listing. |
| Market.FreshRunConserves | server/market.py:442-628 | With fresh listing ids, over every run: all baselines, the fund's baseline and the units of every item are unchanged, and no buy is ever short. |
| Market.ReusedIdLosesTheDifference | server/market.py:458-463 | One pump that settles a cancel, a relisting under the same id at a lower price and then a buy, submitted in that order, costs the buyer exactly the difference of the two prices. |
| Stakes.RunStake | server/inventory.py:37-114 | Over any run, what an actor has of an item, in hand and on sale together, changes by exactly what it buys and what is bought from it. |
| Stakes.TradesAreSales | server/market.py:498-589 | While every pending buy holds its listing's price, what a settled buy takes from the seller it gives to the buyer, and nobody else's units move. |
| Protocol.RunAdvances | server/market.py:631-727 | Over any run every intent leaves pending at most once (a feed may change between final states), every escrow leaves held at most once, and none disappears. |
| Protocol.RetryIsIdempotent | server/sim_ipc.py:460-466 | An acknowledged submission repeated after any further steps gets the same record, changes nothing, and its key belongs to that one intent. |
| Protocol.SecondPumpIsIdle | server/market.py:642-656 | Of two pumps that read the same intent the second changes nothing. |
| Protocol.SecondFeedOnlyRejects | server/biology.py:662-808 | A second adjudication of a feed always rejects it and touches no wallet, escrow, ledger row or soul. |
| Protocol.FeedStatusKeptIff | server/biology.py:662-808 | The second adjudication leaves the status alone exactly if the first refused the feed. |
| Protocol.FaultAfterCommitIff | server/world_tick.py:488-516 | An exception after the commit changes nothing but the status, and that exactly if a feed had gone through. |
| Protocol.ReconcileFinishes | server/persistence.py:823-894 | After the sweep an escrow is held exactly if its intent is pending and charged. |
| Protocol.SweepOnlyRefunds | server/persistence.py:850-888 | In reachable states the sweep never finds an escrow held past adjudication: it always refunds the payer in full. |
| Protocol.PumpAndSweepSettleAll | server/world_tick.py:432-437 | A pump that reads every pending intent, then the sweep, leaves nothing pending and nothing held. |
| Protocol.OnePumpSettlesAll | server/intents.py:368-375 | With at most 500 intents pending, one pump and one sweep do that. |
| Protocol.ReadsOldest | server/intents.py:368-375 | A pump reads pending rows, oldest first, each once, and leaves one out only if it has read 500 older ones. |
| Protocol.PlotsAndMessagesOverRuns | server/plots.py:481-516 | Over any run from an empty Hub the owned plots are exactly the first claims of the order, no pending claim holds more than the next fee, and messages are a forest of depth at most 25. |
| Dormancy.NextAgrees | server/dormancy.py:151-220 | Every step but the sweep keeps each soul's freeze and wake events alternating, the last one telling whether its balance is dormant. |
| Dormancy.SweepAgreesIff | server/persistence.py:868-882 | The sweep keeps that exactly if it refunds no dormant soul. |
| Dormancy.JournalFollowsDormancy | server/dormancy.py:83-113 | After any run from such a state every soul's freeze and wake events alternate and tell whether it is dormant exactly if no sweep of the run refunded a dormant soul. |
| Dormancy.JournalFollowsFromGenesis | server/dormancy.py:83-113 | So too after any run from an empty Hub. |
| Dormancy.LostStays | server/dormancy.py:151-220 | A soul whose events do not alternate, or end in a freeze while it is awake, stays so: no step repairs the journal. |
| Dormancy.LastFlipTells | server/dormancy.py:83-89 | The last journaled flip of a soul is a freeze exactly if it is dormant. |
| Outcomes.SaleOutcome | server/market.py:498-589 | A buy is adjudicated exactly if custody, listing and escrow allow it; then the item is the buyer's, the price less tax the seller's, the tax the fund's, the listing is gone, and the debit row is the sum of the credit and tax rows. |
| Outcomes.ListOutcome | server/market.py:442-495 | An order to list goes through exactly if the seller is known, the sender speaks for it, it holds the units and the id is free; then the listing carries seller, item, units and the one price of the order, and exactly those units leave the seller; otherwise nothing changes. |
| Outcomes.CancelOutcome | server/market.py:592-628 | A cancellation goes through exactly if the listing is open and the sender speaks for the seller's id; then exactly the reserved units are the seller's again, with one memo row; otherwise nothing changes. |
| Outcomes.ListThenCancel | server/market.py:592-628 | Listing and then cancelling restores inventories and listings exactly. |
| Outcomes.WritingOutcome | server/social.py:375-484 | A post or reply, of a soul or of a tamer, is published exactly if its author is known and awake, the sender speaks for it, and there is a title, or a live parent less than 25 deep; then exactly the message asked for is added, a reply under its parent, and a soul's escrow applied and booked; otherwise a soul gets its money back. |
| Outcomes.PublishedIff | server/social.py:375-484 | A post or reply adjudicated right after acceptance is published exactly if its author owned more than the cost. |
| Outcomes.ClaimOutcome | server/plots.py:461-546 | A claim adjudicated right after acceptance goes through at the held fee for the next plot of the order. |
| Outcomes.LaterClaimOutcome | server/plots.py:461-546 | A claim, whenever it is settled, is granted the next plot exactly if the sender may claim, a plot is left and the claimant can add what the fee exceeds the held amount by; it then has paid just the fee. |
| Outcomes.EditOutcome | server/social.py:487-525 | An edit goes through exactly if the message is live, its author awake and the sender its author or the operator; only the body changes. |
| Outcomes.DeleteOutcome | server/social.py:526-554 | The same for a deletion, which may be repeated. |
| Outcomes.FaultOutcome | server/market.py:688-727 | An adjudication that raises rejects its intent and refunds the payer in full, but leaves a feed's escrow held; no other table changes. |
| Outcomes.BirthOutcome | server/dormancy.py:243-274 | A new actor is born awake with 100 and one ledger row; who exists gets nothing. |
| Outcomes.RefusalReleasesIff | server/plots.py:549-560 | A refused buy or claim writes no ledger, fund or plot row, and releases its escrow exactly if the refusal was not one of custody. |
| Ingress.AcceptedIff | server/market.py:331-371 | An order with a new key is accepted exactly if its actor is known and awake, its sender may give that kind of order, the listing is open, a plot is left, the parent live and less than 25 deep, the text there, and its actor can pay; a dormant seller's listing can be bought. Otherwise nothing is written. |
| Ingress.AcceptedWrites | server/market.py:203-248 | Acceptance writes the pending row and moves exactly the cost (the price, 50 a ring for the next plot, 20, 8 or 10 for a post, reply or meal) from the actor's wallet into its escrow, noting a flip exactly if that was all it had; no other table changes. |
| Ingress.RefusalIsTrue | server/social.py:239-252 | Whatever reason a refusal gives is true of the order. |
| Verdicts.VerdictIsTrue | server/market.py:631-685 | Settling a pending intent ends the journal with its verdict: that it went through, or that it was rejected for a reason that holds of the order and the tables. |
| Forum.MessagesAdvance | server/social.py:487-554 | Over any run no message disappears or changes its parent, author or title, and a deleted one never comes back or changes. |
| Forum.ChangesAreAuthorised | server/social.py:255-270 | Over any run a message that has changed was edited while live, or deleted, by its author, awake, or by the operator. |
| Outcomes.FeedOutcome | server/biology.py:662-808 | A pending feed is adjudicated exactly if custody still holds and the recipient is collapsed and not yet fed; then the gift is the recipient's and two rows cancel out, otherwise the feeder has it again and no row is written. |
| Audit.Books.VerifyBalances | server/market.py:745-902 | Captures missing baselines, finds exactly the actors with ledger rows whose balance differs from baseline plus counted rows, and either reports them or repairs exactly those and reports none. |
| Audit.DriftLaw | server/market.py:805-894 | After any run the reported drift is minus what has come to be held, plus uncounted feed rows, minus the surplus of purchases. |
| Audit.CountedButFeeds | server/market.py:805-813 | The audit's sum of an actor's rows is all that its rows moved but the feeds. |
| Audit.DriftIsHeld | server/market.py:745-758 | With fresh ids, nothing held at capture and no feeding, the drift of an actor is exactly minus its held escrows. |
| Audit.FundNeverDrifts | server/market.py:766-804 | The fund's reported drift is zero after every run. |
| Audit.RepairIsSafeIff | server/market.py:837-894 | With fresh ids and clean baselines, repairing moves the baseline of an audited actor by what is held from it, for good; so it is harmless exactly if nothing is held. |
| Audit.RepairPaysOutTheHeld | server/market.py:837-894 | The repair adds the held amount to the balance of every audited actor. |
| Audit.CleanAfterPumpAndSweep | server/market.py:745-758 | After a full pump and the sweep the audit of every actor is clean. |
| Hub.Database.Enqueue | server/market.py:281-383 | Row, checks and hold in one transaction; a known key returns its record; a refusal rolls everything back. |
| Hub.Database.HoldEscrow | server/market.py:203-248 | Debits the wallet, notes the dormancy flip and writes the escrow, or refuses for a missing or short wallet. |
| Hub.Database.ReleaseEscrow | server/market.py:251-278 | Refunds a held escrow once, noting the flip. |
| Hub.Database.RemoveItem | server/inventory.py:81-114 | Takes units from a holding that has enough, deleting an emptied row, or changes nothing. |
| Hub.Database.ApplyBuy | server/market.py:498-589 | The row-by-row sale equals the transaction, refusals included. |
| Hub.Database.ApplyClaim | server/plots.py:461-546 | The row-by-row claim equals the transaction; the plot-taken branch is unreachable. |
| Hub.Database.NextAvailablePlot | server/plots.py:269-289 | The scan from the counter finds the first unowned plot of the order. |
| Hub.Database.SettleOnce | server/market.py:631-738 | Status re-read, apply, status and journal, or rollback and compensation, equal the settlement transaction. |
| Hub.Database.CompensateReject | server/market.py:688-727 | Releases what the kind of intent releases and rejects it, if it is still pending. |
| Hub.Database.AdjudicateFeedSoul | server/biology.py:662-808 | The row-by-row feed equals its transaction. |
| Hub.Database.ReconcileEscrows | server/persistence.py:823-894 | The loop over escrows equals the sweep. |
| Hub.Database.PumpIntents | server/world_tick.py:432-437 | The loop over the oldest 500 pending rows equals the run of their adjudications and keeps the invariant. |
| Hub.Database.MintStarterGrant | server/dormancy.py:243-274 | A birth creates the wallet with the grant and the ledger row behind it. |
| Witnesses.HandedOverRun | server/plots.py:474 | From an empty Hub: a claim whose soul passes to another custodian is refused with its escrow held, and only the sweep gives it back. |
| Witnesses.SweptAwake | server/persistence.py:868-882 | From an empty Hub: a soul spends its last money on feeds, the adjudication of one raises, and after a restart the soul is awake while the journal says dormant. |
| Witnesses.LastPostIsRefused | server/social.py:387-393 | From an empty Hub: of five posts, each settled before the next, four are published; the fifth takes the last money and is refused. |
| Witnesses.RepairInflates | server/market.py:837-894 | From an empty Hub: a repair while a post is pending leaves the soul with 120 after the refund, of which the ledger knows 100. |
| Witnesses.FedAndRejected | server/world_tick.py:488-516 | From an empty Hub: a feed whose adjudication raises after its commit ends rejected although the recipient was fed and the escrow applied. |
| WriteBehind.CacheRefinesDirectWrites | server/persistence.py:217-274 | Any sequence of partial marks, flushes that commit or fail and direct writes leaves readers with what a plain table of direct writes holds. |
| WriteBehind.FlushesAreInvisible | server/persistence.py:301-370 | Removing all flushes from a run changes nothing that readers see. |
| WriteBehind.LastMarkIsRead | server/persistence.py:507-535 | Readers see of each column what was marked or written for it last, whatever was flushed, failed or marked for other columns since. |
| WriteBehind.OthersStay | server/persistence.py:507-535 | A column that nothing sets keeps its value. |
| WriteBehind.Store.Mark | server/persistence.py:229-247 | Merging partial columns into the dirty entry is a direct write to readers. |
| WriteBehind.Store.Flush | server/persistence.py:301-370 | With nothing marked while it runs, a commit makes the table what readers saw, a rollback marks every entry again; readers notice neither. |
| WriteBehind.SplitFlushCommits | server/persistence.py:301-358 | A flush that commits would be invisible even if marks fell between its drain and its commit. |
| WriteBehind.SplitFlushFailsIff | server/persistence.py:359-368 | Why flushes run under the step lock, which keeps marks out: one that fails would otherwise be invisible exactly if no drained column was marked with another value before the rollback. |
| WriteBehind.Store.WriteThenInvalidate | server/persistence.py:1052-1055 | A direct write followed by dropping the entry is a direct write to readers. |
| WriteBehind.Store.ReadStateThrough | server/persistence.py:507-535 | Reads the table overlaid with the dirty set. |
| WriteBehind.Store.IntegrateAll | server/world_tick.py:692-755 | Through the cache, every soul moves by exactly one tick. |
| Replay.ReplayTail | server/persistence.py:762-820 | The grouping loop computes the replay of the tail up to its end tick. |
| Replay.LastEventDecides | server/persistence.py:712-759 | The last event that names a soul decides its velocity and target: a move's, or none after a teleport. |
| Replay.LastTeleportPlaces | server/persistence.py:712-759 | The last teleport decides its place; a soul no event names is as it was. |
| Replay.LastDecisionHolds | server/world_tick.py:873-882 | The last decision of a pump about a soul holds, and moves it from nowhere. |
| Replay.DecidedSoulsMoveAtOnce | server/world_tick.py:662-756 | Within a tick decisions come first: a soul already moves as decided, or stands. |
| Replay.OthersMoveOn | server/world_tick.py:692-756 | Every other soul moves on as it did. |
| Replay.PumpRecords | server/world_tick.py:432-437 | A pump records one event a decision at the current tick, of a move all that it set. |
| Replay.ReplaySplits | server/persistence.py:762-820 | Replaying to a middle tick with the events before it and on from there with the rest is replaying at once. |
| Replay.ExactFollowsLive | server/world_tick.py:662-756 | Replaying the journal of a live run gives the live souls, if nobody moves while ticks are skipped and whoever is halted was at rest. |
| Replay.RecoveryIgnoresSnapshotChoice | server/persistence.py:917-992 | In such a run, recovery to a given tick gives the same world from an older snapshot with its longer tail as from a newer one. |
| Replay.RecoveryHoldsIff | server/world_tick.py:400-412 | Recovery gives the live world from every snapshot at every later crash exactly in such runs. |
| Replay.PhaseIsRecoveredIff | server/world_tick.py:873-882 | One step is recovered exactly if every soul it halts last was at rest by what the journal tells; a skip exactly if no soul was moving. |
| Replay.TicksStillIff | server/persistence.py:138-167 | Ticks bring a soul back to where it was exactly if it stood, or walked into a wall without a target. |
| Replay.WalkerIsRecoveredElsewhere | server/world_tick.py:405-412 | A walker is recovered elsewhere after a skipped tick, and after a rest. |
| Replay.ApplyIsIdempotent | server/persistence.py:712-759 | Applying an event twice is applying it once. |
| Replay.TickStore | server/world_tick.py:662-756 | Pump then integrate over the write-behind store is the live tick. |
| Journal.ContinuousIffGapFree | server/persistence.py:463-470 | The count test holds exactly when every seq of the range is present. |
| Journal.CompactionValid | server/recap.py:595-670 | Compaction keeps every event either verbatim or listed in exactly one honest rollup, keeps worthy rows and rollups, and keeps every snapshot's tail whole. |
| Journal.CompactionLaw | server/recap.py:602-655 | Exactly the rows that are young, part of a retained snapshot's tail, rollups, or worth keeping (payload salience of at least a half, or one of six kinds) stay; every other is listed in the one new rollup of its day, which lists nothing else, follows all rows in the order of the days and carries their highest tick. |
| Journal.SalienceInNumbers | server/recap.py:133-154 | A payload's own salience counts, else that of the kind, a fifth for unknown kinds; a rollup has one. |
| Journal.KeptCountIs | server/recap.py:611-622 | The reported number of kept rows is that of the old rows outside every tail that are worth keeping. |
| Journal.KindCountsTotal | server/recap.py:632-643 | A rollup's counts by kind add up to the number of its events. |
| Journal.FloorIsLowest | server/recap.py:578-588 | The floor is at or below every retained snapshot. |
| Journal.DurableJournal.AppendEvent | server/persistence.py:390-401 | Appends the next seq and keeps the invariant. |
| Journal.DurableJournal.TakeSnapshot | server/persistence.py:538-581 | Records the head; every snapshot stays usable. |
| Journal.DurableJournal.PruneSnapshots | server/persistence.py:702-709 | Keeps the newest snapshots, each with a whole tail. |
| Journal.DurableJournal.EverySnapshotUsable | server/persistence.py:463-470 | In every reachable state every retained snapshot passes the count test. |
| Journal.DurableJournal.CompactJournal | server/recap.py:595-670 | The grouping and rollup loops do just that, report the numbers kept, rolled up and deleted, and keep the invariant. |
| Motion.FreeTicksAreAnalytic | server/persistence.py:138-214 | Without a target, n ticks equal one advance over their time. |
| Motion.CatchUpMatchesTicks | server/persistence.py:170-214 | For an aimed soul, n ticks and one advance differ by at most the arrival distance, both stand at the target once the way is covered, and they are equal exactly outside the snap window. |
| Motion.CatchUpIsNotAlwaysExact | server/persistence.py:175-183 | A walk on which the two differ. |
| Motion.AimedTicks | server/persistence.py:138-167 | The live walk in closed form. |
| Motion.TickInNumbers | server/persistence.py:138-167 | One tick in plain numbers: velocity times tick, ten from the walls, at the target within two or once it is passed. |
| Motion.CatchUpInNumbers | server/persistence.py:170-214 | One catch-up in plain numbers. |
| Motion.AnalyticAdvance | server/persistence.py:170-214 | The loop over the state advances every soul by the closed form. |
| Needs.NeedsDrain | server/biology.py:213-227 | A span takes 100/36 of satiety an hour, twice that on the move, and 100/24 of hydration, a quarter of both while dormant, down to zero. |
| Needs.StarvationLaw | server/biology.py:229-288 | From the moment satiety falls below 20 a soul loses one hp an hour; it falls exactly if it is up, not dormant, and its hp do not outlast the starving hours, at the moment at which they are used up; dormancy keeps one hp. |
| Needs.RestLaw | server/biology.py:290-319 | A soul that lies down gets up exactly if it was fed and six hours have passed since its rest began. |
| Needs.HpOnlyFalls | server/biology.py:183-196 | No span raises hp, but that dormancy keeps one. |
| Biology.SpanLaw | server/biology.py:176-325 | Two consecutive spans equal one in needs, hp, state, rest clock and the exact moment of collapse, if the first ends without a recovery; only the satiety of a soul that collapses on the move differs, upwards. |
| Biology.SpanLawExactly | server/biology.py:304-319 | The lifecycle states agree exactly if the soul was not fed and rested enough to recover in the first span, or has the hp not to starve again in the second. |
| Biology.RecoversIff | server/biology.py:304-319 | A span ends in a recovery exactly if the soul is fed and its rest clock reaches six hours. |
| Biology.RecoveredSoulFallsAgain | server/biology.py:304-319 | A recovered soul without hp collapses again in two spans and stands after one. |
| Biology.LiveTicksAreOneCatchUp | server/biology.py:452-483 | n live ticks equal one catch-up in hydration, hp, state, motion, rest clock and moment of collapse, and in satiety unless the soul collapses on the move, if it does not recover before the last tick. |
| Biology.LiveTicksExactly | server/biology.py:452-483 | For any soul that is fed only while it is down, ticks and catch-up end in the same lifecycle state exactly if no tick before the last recovers, or the soul, from the first such tick on, is standing again at the end. |
| Biology.StandsAgainExamples | server/biology.py:176-325 | A soul that fell with no hp does not stand again; one whose hp dormancy floored at one, and that was then funded, stands half an hour more. |
| Biology.ApplyBiologyDecay | server/biology.py:468-483 | The catch-up decays every soul over the clamped downtime. |
| Plots.AllocationOrderCorrect | server/plots.py:159-181 | For any grid the order lists exactly the claimable plots, each once, by ring, column and row. |
| Plots.AllocationOrderUnique | server/plots.py:159-181 | No other list does. |
| Plots.ClaimableInNumbers | server/plots.py:132-150 | A plot is claimable exactly if it is on the grid and the larger of its distances from the middle column and row is no multiple of three; its fee is 50 for that ring and each within. |
| Plots.OrderInNumbers | server/plots.py:159-181 | Inner rings first, then lower columns, then lower rows. |
| Plots.FeeNeverFalls | server/plots.py:195-197 | Later claims are never cheaper. |
| Plots.ComputeAllocationOrder | server/plots.py:159-181 | The nested loops compute the order. |
| Routing.RoutePlots | server/expeditions.py:231-270 | The search returns a route of enterable neighbour hops than which none is shorter, or none exactly if there is no route; it terminates. |
| Routing.OpenGridDistance | server/expeditions.py:246-262 | Where nothing is shut a shortest route makes as many hops as the goal is away in columns or rows, whichever is more. |
| Routing.HopsAreTheEight | server/expeditions.py:246-262 | A hop leads to one of the eight neighbours on the grid that may be entered. |
| Routing.PathTo | server/expeditions.py:263-268 | Walking the predecessors back gives a route of the recorded length. |
| Threads.AddKeepsSound | server/social.py:239-252 | A post, or a reply that passes the parent check, keeps a forest of depth at most 25. |
| Threads.DepthCountsAnswers | server/social.py:219-237 | The depth of a message is the number of messages above it in its thread, and one more below a missing one. |
| Threads.ContentKeepsSound | server/social.py:487-554 | Edits and soft deletes keep the forest. |
| Threads.BuildTree | server/social.py:669-711 | One node a row, tombstones for deleted ones, each linked to its parent's replies or to the roots. |
| Threads.RepliesAnswer | server/social.py:697-709 | The replies of a message are exactly the rows that name it, the roots those that name none that exists. |
| Threads.RepliesInOrder | server/social.py:697-709 | Both stand in the order in which the rows were read. |
| Threads.TreeHoldsEveryMessageOnce | server/social.py:669-711 | Reading the tree from its roots meets every message exactly once. |
| Viewport.PriorityKeepsFaithfulIff | server/viewport.py:435-457 | Putting an op before the coalesced moves keeps the queue faithful exactly if it does not remove a soul with a pending move. |
| Viewport.MoveKeepsFaithful | server/viewport.py:435-445 | Coalescing moves keeps the queue faithful. |
| Pump.EveryFrameIsFaithful | server/routers/websockets.py:371-432 | In every session, after any passes, notifications and snapshots, the frame a pass sends leaves the client where the queued ops in the order of the calls would, showing exactly the souls that are present. |
| Pump.PassIsFaithful | server/routers/websockets.py:404-432 | Such a frame updates exactly the souls that moved by more than the epsilon, and commits all; a pass that sends nothing leaves client and committed view alone. |
| Pump.QueueIsHonest | server/viewport.py:435-457 | A queue filled from empty moves is faithful if no soul is removed after it was moved. |
| Pump.SaturationLasts | server/viewport.py:555-562 | Over the high-water mark a queue is never sent again, whatever passes, notifications and snapshots follow. |
| Pump.PassKeepsExactIff | server/viewport.py:564-585 | A pass keeps the client at the committed positions exactly if it sends nothing or no soul made a move too small to be sent. |
| Pump.ExactIsNear | server/viewport.py:325-343 | From there an unsaturated pass leaves every soul on the client within half a pixel. |
| Pump.DiffPositions | server/viewport.py:325-343 | The two loops give one op for each soul that came, went or moved by more than the epsilon. |
| Pump.DiffInNumbers | server/viewport.py:325-343 | Exactly the souls that are new or moved by more than half a pixel are moved to where they are, with a snap beyond 250 or if new; exactly those gone are removed. |
| Pump.RunPass | server/routers/websockets.py:404-432 | Diff, queue and flush over a session are one pass. |
| Viewport.CoalescedInPlace | server/viewport.py:435-445 | The newest move takes the place of the soul's pending one and keeps its snap; others stay, and a soul without one is appended. |
| Viewport.RingSuffices | server/viewport.py:674-700 | When the ring test passes, the ring holds every delta after the client's last frame, despite evictions. |
| Viewport.ResumeIsSeamless | server/viewport.py:674-719 | A resumed client reaches the state of one that was never disconnected. |
| Viewport.ResumeCoversIff | server/viewport.py:674-719 | What is resent covers all that was missed exactly if no snapshot was. |
| Viewport.SnapshotIsMissed | server/viewport.py:459-475 | A session in which the resumed client misses a snapshot. |
| Viewport.Resume | server/viewport.py:674-719 | Answers replayed exactly when the ring test passes, and resends exactly the old deltas after the last seen frame, in order. |
| Viewport.ViewportSession.Flush | server/viewport.py:540-599 | One frame carries the whole queue under the next number and commits the positions it was made from, or nothing is sent or committed. |
| Viewport.ViewportSession.BuildSnapshot | server/viewport.py:459-475 | A snapshot takes a frame number, commits its positions and leaves no copy in the ring. |
| Viewport.ViewportSession.Enqueue | server/viewport.py:435-445 | Queues an op, coalescing moves per soul. |
| RateLimit.SlidingWindowLimiter.Check | server/rate_limit.py:15-34 | Admits exactly when fewer than the limit were admitted in the window; a refusal tells the time after which the call succeeds. |
| RateLimit.SlidingWindowLimiter.PruneWhenDue | server/rate_limit.py:36-41 | Pruning forgets no live admission. |
| RateLimit.WindowNeverExceeds | server/rate_limit.py:9-34 | No window of that length ever holds more admissions than the limit. |
| RateLimit.SlidingWindowLimiter.NeverExceeds | server/rate_limit.py:9-34 | Over any run of calls no key is admitted more than its limit in any window. |
| RateLimit.RoomAfterWaiting | server/rate_limit.py:15-34 | Waiting for the told time makes room. |

## Left out

- Money.RunConserves: does not cover deletion of souls or `souls_upsert`, so no wallet ever disappears and the branch that
  keeps a credit in the ledger only is modelled but never reached.
- Economy.TaxOn: rounds half cents up; the source rounds a binary float, so the cent of an exact tie can differ.
- Replay.RecoveryIgnoresSnapshotChoice: carrying, dormancy, closed plots and expeditions, which also hold souls back in the
  live tick only, are not part of the live run.
- Replay.TickStore: leaves out biology, expeditions, dormancy, carrying and the closed-plot barrier within a step.
- Replay.ReplayTail: covers the tick-exact mode; the analytic mode in segments is left out.
- WriteBehind.Store.IntegrateAll: moves every soul; dormant and carried souls and the closed-plot barrier are left out.
- Biology.ApplyBiologyDecay: leaves out the hungry rescale of velocities and the journaled transitions.
- Protocol.OnePumpSettlesAll: counts the modelled kinds of intents only; movement and other kinds share the 500 rows.
- Hub.Database.PumpIntents: reads rows in row order, which is the order of creation while the clock does not run backwards.
- RateLimit.SlidingWindowLimiter.Check: one window length for all keys and a fixed limit of at least one for each.
- Viewport.Resume: leaves out the owner check and the dropping of the old session.
- Viewport.ViewportSession.Flush: leaves out the committed views of the domains other than positions.
- Viewport.ViewportSession.BuildSnapshot: leaves out the committed views of the domains other than positions.
- Pump.RunPass: the ops of the other domains (states, dormancy, needs, identities, abroad summaries) are an input.
- Floating-point rounding everywhere; JSON parsing, payload validation, sanitising of texts and item metadata.
- The legacy rows of old schemas; the sample lines that a rollup quotes.
- `move_to` adjudication computes a velocity with a square root; the velocity is an input of the model.
- Expedition phases, resource nodes, home plots and access policies set by a claim.
- Hub.Database.Enqueue: evaluates the preface on the state before the intent row is inserted; the source does it after, and
  the checks do not read the intent rows.
- Sockets, threads, HTTP routers, the LLM agents, memory, quips, presence, keys and tokens, and the client.
