# Verified model of the Traido paper desk

Traido is a paper-trading desk. Its capital path is a handful of small stateful protocols with
retries, leases, caches and hard numeric limits. This project models the protocols that decide
whether money moves, and proves what they keep over whole runs. `dafny verify dfyconfig.toml`
checks all of it.

| part | files |
|---|---|
| minute-bar assembler and bar store | `MarketBars`, `BarStore`, `StreamAssembler`, `StreamReplay` |
| EntryWatch state machine | `WatchLifecycle`, `WatchTable`, `WatchLedger`, `EntryWatchStore`, `WatchAwait`, `WatchRevalidation`, `WatchRecovery`, `WatchPublication`, `WatchLoop`, `WatchRuns` |
| approval bundle | `ApprovalRecords`, `ApprovalDesk`, `ApprovalMemory` |
| vendor rate limiter | `RateLimiter` |
| observed risk epoch | `PaperPeriod` |
| correlation, sizing, risk engine | `Correlation`, `CorrelationMatrix`, `PositionSizing`, `RiskEngine` |
| confirmation slider, promotion ladder | `BuyConfirmation`, `Promotion` |

`Basics` and `Wrappers` hold what they share. Components whose methods update fields are classes;
their methods are specified against functions on values, and the theorems about runs are proved on
those. Instants are integers in microseconds, prices and rates are exact reals. What the code reads
from outside (clocks, identifiers, fingerprints, market facts, the database's answer to a
compare-and-swap, square roots) is a parameter, so every theorem holds for all of its values.

The watch loop awaits, so its unit of interleaving is the synchronous store call: at every await of
a pass and of a turn any calls of the scanner, the desk, the operator and the reconciler may run
(`WatchAwait`), and the theorems about runs hold for all of them. Where a turn or a pass ends is
stated for turns in which nothing but price touches runs meanwhile.

Four promises turned out to hold only with a condition, and each is proved in that form with a
concrete exception:

- Batching equals one-message ingestion after every batch exactly when each batch that the bar schema
  rejects held no minute that brings the desk anything new.
- The loop stores at most one BUY card for a watch unless the publication of an earlier card raised
  once that card was stored, or its CONVERTED mark was refused, and that earlier card has since left
  AWAITING_CONFIRMATION.
- A weaker slider step accepts what a stricter one did except at step 75 on a broken structure with
  falling momentum.
- The in-memory approval path is not all-or-nothing. A refusal leaves its stores alone exactly when it
  precedes the claim, or falls on a card already APPROVING that it does not relink to its intent's
  record.

## Model

| member | source | states |
|---|---|---|
| StreamReplay.CompareWriters | backend/market_data/alpaca_stream.py:52-154 | For any stream and any way of cutting it into batches (one clock per batch) whose rejected batches, if any, bring nothing new, the cached, evicting, batched writer and the cache-free one-message writer end with the same 1-minute and 5-minute rows and the same freshness marks |
| StreamReplay.ReplayBatched | backend/market_data/alpaca_stream.py:172-205 | Any batches, rejected ones included: the writer ends exactly where ingesting the messages of the accepted batches one at a time ends |
| StreamReplay.ReplaySingly | backend/market_data/alpaca_stream.py:52-54 | One message at a time, a fresh assembler for each: exactly the one-at-a-time meaning, whatever the messages |
| StreamReplay.Ingest | backend/market_data/alpaca_stream.py:52-54 | The compatibility entry point: true exactly for an accepted minute, an error exactly for a message the bar schema rejects, and the state of one ingestion |
| StreamReplay.BatchIsRun | backend/market_data/alpaca_stream.py:93-152 | A batch under one clock means the same as its messages ingested one after the other |
| StreamReplay.RunEachConcat | backend/market_data/alpaca_stream.py:172-205 | One-at-a-time ingestion of two streams in a row is ingestion of their concatenation, so batch borders cannot matter |
| StreamReplay.AgreeExactly | backend/market_data/alpaca_stream.py:93-152 | The batched and the one-message writer agree after every batch exactly when every rejected batch found its good minutes absorbed |
| StreamReplay.RejectedBatchDiffers | backend/market_data/alpaca_stream.py:93-94 | A rejected batch differs from its messages taken singly exactly when one of its good minutes would change a row or a mark |
| StreamReplay.AbsorbedExactly | backend/market_data/alpaca_stream.py:111-152 | Ingesting minutes changes nothing exactly when the last value of each key, the bars of the windows they close and marks as late are already there |
| StreamReplay.RejectedBatchLosesMinutes | backend/market_data/alpaca_stream.py:93-94 | The exception is real: a good minute beside a message the schema rejects is lost with its batch, but kept by one-message ingestion |
| StreamReplay.IngestedRowByRow | backend/market_data/alpaca_stream.py:111-141 | After any minutes the last one received for each symbol and instant is stored, no row is lost, and a row that changed is that of a minute received or of the five-minute window it lies in |
| StreamReplay.IngestedWindow | backend/market_data/alpaca_stream.py:121-152 | A window a minute touched, once over with its five minutes stored, has its 5-minute bar stored (first open, last close, extremes, summed volume) and is marked complete if it began since the connection; the latest mark is past the minute |
| MarketBars.ParsedFieldByField | backend/market_data/providers/alpaca.py:210-242 | Which message fields make a minute, which make the bar schema raise, and that each field of the message becomes the bar field of its name |
| StreamAssembler.Assembler.IngestBatch | backend/market_data/alpaca_stream.py:93-169 | A batch fails exactly when one of its messages has every field but a number that is not finite or a symbol of no or too great length, and then nothing changed; otherwise it returns, in order, exactly the messages of kind b or u that are whole minutes, over, and ordered in price, each bar with that message's symbol in upper case, instant, open, high, low, close and volume; at most 8192 windows stay cached and the state is the one-at-a-time state |
| StreamAssembler.Assembler.IngestMinutes | backend/market_data/alpaca_stream.py:95-154 | The write path keeps every cached window equal to the durable rows of that window and leaves the one-at-a-time state |
| StreamAssembler.Assembler.ParseAll | backend/market_data/alpaca_stream.py:93-94 | Raises exactly when one message makes the bar schema raise; otherwise the usable messages in order, field by field |
| StreamAssembler.Assembler.Missing | backend/market_data/alpaca_stream.py:95-99 | Exactly the touched windows the cache lacks, grouped by start |
| StreamAssembler.Assembler.LoadMissing | backend/market_data/alpaca_stream.py:100-110 | After the restart reads every touched window is cached, and every cached window still equals its durable rows |
| StreamAssembler.Assembler.LoadStart | backend/market_data/alpaca_stream.py:101-110 | One read fills all missing symbols of one window start |
| StreamAssembler.Assembler.Merge | backend/market_data/alpaca_stream.py:111-119 | The cache after the minutes equals the durable rows as they will be after the upsert, and recency follows use |
| StreamAssembler.Assembler.StoreMinutes | backend/market_data/alpaca_stream.py:95-120 | Loading, merging and the grouped, deduplicated, chunked upsert leave exactly the rows of upserting each minute in turn |
| StreamAssembler.Assembler.Collect | backend/market_data/alpaca_stream.py:121-140 | Exactly the touched windows that are over and hold all five minutes produce a 5-minute bar, built from the durable rows |
| StreamAssembler.Assembler.PublishComplete | backend/market_data/alpaca_stream.py:121-141 | The 5-minute rows gain exactly those bars; the publisher cannot refuse one of them |
| StreamAssembler.Freshness.MarkCompleted | backend/market_data/alpaca_stream.py:144-148 | Completed marks are raised to the latest finished window since the connection, per symbol |
| StreamAssembler.Freshness.MarkLatest | backend/market_data/alpaca_stream.py:149-152 | Latest marks end where one-at-a-time ingestion puts them |
| StreamAssembler.WindowCache.Use | backend/market_data/alpaca_stream.py:114-118 | Writing a minute moves its window to the recent end and touches no other window |
| StreamAssembler.WindowCache.Evict | backend/market_data/alpaca_stream.py:153-154 | Exactly the least recently used windows beyond 8192 go; the others keep their contents |
| StreamAssembler.PublishedRows | backend/market_data/alpaca_stream.py:121-141 | The stored 5-minute rows are exactly the bars of the completed windows |
| StreamAssembler.AllPublishable | backend/market_data/alpaca_stream.py:121-141 | Every aggregated bar passes the checks of the bar store |
| StreamAssembler.MirrorsMerge | backend/market_data/alpaca_stream.py:113-117 | One merged minute keeps cache and durable rows equal, window by window |
| MarketBars.EachIsBatch | backend/market_data/alpaca_stream.py:111-152 | Upserting a batch and then publishing once leaves the rows and marks of publishing after every minute |
| MarketBars.ClosingStep | backend/market_data/alpaca_stream.py:122-126 | The windows closed by a batch are the windows closed minute by minute |
| MarketBars.AggregateCovers | backend/market_data/alpaca_stream.py:127-138 | A 5-minute bar opens with the first minute, closes with the last, spans the extremes and sums the volumes |
| MarketBars.FiveBarOk | backend/market_data/alpaca_stream.py:127-141 | Five valid minutes aggregate to a valid bar |
| BarStore.Store.SaveMany | backend/market_data/bar_store.py:26-65 | The grouped, deduplicated upsert in chunks of 100 overlays exactly the last value of each key |
| BarStore.Store.Upsert | backend/market_data/bar_store.py:43-65 | Chunking is invisible: chunk by chunk equals all at once |
| BarStore.Store.Flatten | backend/market_data/bar_store.py:32-43 | Deduplication leaves one row per key, the last received |
| BarStore.Store.LoadMany | backend/market_data/bar_store.py:87-107 | For every requested symbol exactly its rows in the half-open time range, oldest first and each once |
| BarStore.Store.SaveBarsMany | backend/market_data/bar_store.py:128-145 | All bars are stored or, when one is off the 5-minute grid or invalid, none is |
| BarStore.PutEachIsUnion | backend/market_data/bar_store.py:30-42 | Row-by-row upsert of distinct keys is one union |
| BarStore.GroupedIsEach | backend/market_data/bar_store.py:30-65 | Grouping minutes by symbol and deduplicating equals last-write-wins one by one |
| WatchLifecycle.ConvertedWasRevalidated | backend/trading/entry_watch_transitions.py:25-76 | Every legal history past admission holds a TRIGGERED, REVALIDATING, ADMITTED sequence after which it never leaves the admission path |
| WatchLifecycle.EdgesBothWays | backend/trading/entry_watch_transitions.py:25-76 | The transition table equals the table of the statuses each status can be entered from |
| WatchLifecycle.TerminalHasNoExit | backend/trading/entry_watch_transitions.py:25-76 | The terminal statuses are exactly those with no way out |
| WatchLifecycle.TransitionKeepsLease | backend/trading/entry_watch_transitions.py:85-160 | A transition sets the lease fields exactly when it enters REVALIDATING or CONVERTING, expiring 45 s after the claim |
| WatchLifecycle.TransitionFieldByField | backend/trading/entry_watch_transitions.py:128-165 | The row a transition writes, field by field and unique: version, trigger number and date, the four lease fields, record and opportunity |
| WatchLifecycle.LeaseLasts | backend/trading/entry_watch_transitions.py:88-103 | A lease runs out exactly 45 s after it was taken, with or without its stored deadline, and a leased row without any times has run out |
| WatchTable.Table.TryTransition | backend/trading/entry_watch_transitions.py:106-208 | From any copy read earlier: success exactly when the edge is legal and the copy is still the current row; the new row carries the next version, and failure changes nothing |
| WatchTable.RunWorkers | backend/trading/entry_watch_transitions.py:106-208 | Any interleaving of readers and stale attempts: every watch history is extended as one chain of legal commits, no version read wins twice, versions rise by exactly the number of wins, and the rows are those of comparing whole rows instead of versions |
| WatchTable.ChainVersions | backend/trading/entry_watch_transitions.py:140-208 | Along the commits of a watch the version rises by exactly one each time |
| WatchTable.OneCommitPerVersion | backend/trading/entry_watch_transitions.py:166-200 | A version number names one row: at most one commit per version read |
| WatchTable.CurrentVersionIsCurrent | backend/trading/entry_watch_transitions.py:166-200 | No stale copy can carry the current version |
| WatchTable.ChainIsLegal | backend/trading/entry_watch_transitions.py:25-76 | The statuses of a chain of commits form a legal history |
| WatchTable.ChainLeases | backend/trading/entry_watch_transitions.py:140-164 | Every row of a chain obeys the lease rule when its first row does |
| EntryWatchStore.Store.ClaimAdmission | backend/trading/entry_watches.py:56-62 | Won exactly when the key was free; held afterwards |
| EntryWatchStore.Store.ReleaseIfUnpublished | backend/trading/entry_watches.py:72-76 | Drops the claim of this trigger unless the watch published |
| EntryWatchStore.Store.Mark | backend/trading/entry_watches.py:419-444 | A compare-and-swap transition: applied exactly when the edge is legal and the database accepts; unless it publishes, it keeps every desk invariant |
| EntryWatchStore.Store.Force | backend/trading/entry_watch_eval.py:178-189 | The fallback write after a refused mark clears the lease and keeps every desk invariant when its edge is legal |
| EntryWatchStore.Store.CollapseDuplicates | backend/trading/entry_watches.py:334-359 | One WAITING or TRIGGERED watch per symbol is left: a TRIGGERED one if there was any, none of that status created later, and of equals the first in store order; the others become INVALIDATED and no other row changes |
| EntryWatchStore.Store.BySymbol | backend/trading/entry_watches.py:340-343 | The standing watches of every symbol, in store order |
| EntryWatchStore.Store.CollapseGroup | backend/trading/entry_watches.py:344-359 | All but the first of the sorted duplicates are superseded |
| EntryWatchStore.Store.ExpireStale | backend/trading/entry_watches.py:302-315 | Exactly the WAITING watches at or past their deadline become EXPIRED |
| EntryWatchStore.Store.ListActionable | backend/trading/entry_watches.py:361-381 | After that collapsing and the expiry of WAITING watches at their deadline, exactly the watches in non-terminal statuses are listed, once each and in store order |
| EntryWatchStore.Store.FindOpen | backend/trading/entry_watches.py:78-93 | An open watch of the upper-cased symbol exactly when there is one, after duplicates are collapsed |
| EntryWatchStore.Store.CreateFromBundle | backend/trading/entry_watches.py:167-268 | After the same tidying the first live trigger of the symbol is returned untouched, a WAITING plan gets the new deadline and price and nothing else, and otherwise one WAITING watch appears with its deadline a time to live from now and no trigger, lease or card; one standing watch per symbol results |
| EntryWatchStore.Store.TouchMark | backend/trading/entry_watches.py:395-412 | Only the last price changes |
| EntryWatchStore.Store.WithdrawUnactionable | backend/trading/opportunities.py:326-388 | Exactly the open cards a durable fact rules out leave AWAITING_CONFIRMATION |
| EntryWatchStore.Store.FindOpenCard | backend/trading/opportunities.py:172-181 | The newest open card of the symbol, exactly when there is one |
| WatchAwait.Await | backend/trading/entry_watch_loop.py:129-346 | Whatever the scanner, the desk, the operator and the reconciler call at an await: no claim, no lease and no record of a stored card or of an incident changes, cards may be closed or reopened, and a watch that is neither WAITING nor TRIGGERED keeps all but its price |
| WatchAwait.Orphan | backend/trading/external_positions.py:307-341 | After a position nobody owns is found, no card of its symbol awaits confirmation and exactly its WAITING watches whose mark is accepted become INVALIDATED |
| WatchLedger.CollapsedKeepsBest | backend/trading/entry_watches.py:344-359 | The survivor is the watch the sort puts first, and no symbol loses its last standing watch |
| WatchLedger.CollapsedIsUnique | backend/trading/entry_watches.py:334-359 | Collapsing leaves at most one standing watch per symbol |
| WatchLedger.FirstIsBest | backend/trading/entry_watches.py:347-352 | What the sort puts first is beaten by no duplicate |
| WatchLedger.CollapsedSpelledOut | backend/trading/entry_watches.py:334-359 | Collapsing invalidates exactly the standing watches beside which the symbol has a TRIGGERED one before a WAITING one, a later one of the same status, or an equal one earlier in store order |
| WatchLedger.SurvivorSpelledOut | backend/trading/entry_watches.py:344-359 | A survivor that is WAITING had no TRIGGERED watch beside it, and no survivor had a later one of its status |
| WatchLedger.PutKeepsInv | backend/trading/entry_watches.py:414-417 | A row write along a table edge that keeps the lease rule keeps every row legal |
| WatchLedger.PutIsLevel | backend/trading/entry_watches.py:414-417 | A row write that touches neither identity, symbol nor opportunity moves no stored card and no earned claim |
| WatchLedger.StoreServes | backend/trading/pipeline.py:186-194 | A card is stored for a held claim after its symbol was seen to have none open, other calls in between: whatever then settles the books with the card pending settles them |
| WatchLedger.ConvertServes | backend/trading/entry_watch_loop.py:552-558 | The CONVERTED mark turns the held claim into the claim of a watch that carries an opportunity, and its pending card into a carried one |
| WatchLedger.IncidentServes | backend/trading/entry_watch_loop.py:406-412 | A stored card whose attempt went wrong: recorded as an incident, the books are exact once the claim is freed |
| WatchLedger.ClaimedOnward | backend/trading/entry_watch_loop.py:386-412 | Taking the claim before an attempt and freeing it unless earned keeps the claims exactly those of watches that carry an opportunity |
| WatchRevalidation.ObservePrice | backend/trading/entry_watch_eval.py:70-111 | A WAITING watch expires, is invalidated, triggers or stays, in that order of checks |
| WatchRevalidation.ReleaseRevalidating | backend/trading/entry_watch_eval.py:172-189 | The watch is never left REVALIDATING, whatever the database answers |
| WatchRevalidation.RevalidateAfterClaim | backend/trading/entry_watch_eval.py:192-446 | Each verdict leads to its status and its answer, also read from the status back to its verdicts; pending and soft-wait verdicts survive a refused mark; an operational block retries 30 s later |
| WatchRevalidation.VerdictBothWays | backend/trading/entry_watch_eval.py:192-446 | Each status and each answer comes from exactly the verdicts listed for it |
| WatchRevalidation.RaiseKeepsTriggered | backend/trading/entry_watch_eval.py:152-169 | A raise before the writes leaves the watch TRIGGERED; after them only a final refusal stands |
| WatchRevalidation.RevalidateGuarded | backend/trading/entry_watch_eval.py:152-169 | Raising or not, the lease is given back |
| WatchRevalidation.Revalidate | backend/trading/entry_watch_eval.py:131-169 | From a copy of the row read before an await: only a TRIGGERED copy whose row is still TRIGGERED is revalidated; the row never ends REVALIDATING, is ADMITTED only on a BUY with its record, and lands on its verdict when no mark is refused |
| WatchRecovery.RecoverStaleLeases | backend/trading/entry_watch_transitions.py:233-284 | No expired lease survives; every recovered watch is on its stated safe target with the lease cleared, whether or not its mark was accepted, and nothing else moved but duplicates and expiries |
| WatchRecovery.RecoverOne | backend/trading/entry_watch_transitions.py:248-277 | The mark and the forced write give the same row |
| WatchRecovery.DeferToRecovery | backend/trading/entry_watch_loop.py:605-684 | ADMITTED and CONVERTING go back to TRIGGERED, a published CONVERTING on to CONVERTED, under any refusals; the claim goes unless it published |
| WatchRecovery.BlockOnMissingData | backend/trading/entry_watch_loop.py:48-94 | Where missing data leaves each status, at most the claim of this watch being dropped |
| WatchPublication.GiveUp | backend/trading/entry_watch_loop.py:436-534 | Every ending before the opportunity store is asked, with its status when no mark is refused |
| WatchPublication.Convert | backend/trading/entry_watch_loop.py:552-558 | The watch is CONVERTED onto the card exactly when that one mark is accepted; a refusal after a stored card is an incident, and either way the books settle exactly |
| WatchPublication.StoreAndConvert | backend/trading/pipeline.py:280-351 | A card stored after its symbol was seen to have none open: it ends carried by the CONVERTED watch, or the watch stays CONVERTING with an incident, exactly when a later step raises or the mark is refused |
| WatchPublication.Offering | backend/trading/pipeline.py:215-358 | For a symbol without an open card: a card is stored exactly when the sector check lets it, whatever else ran meanwhile, and every refusal ends in its status |
| WatchPublication.Publish | backend/trading/pipeline.py:179-358 | Unactionable cards are withdrawn first; undisturbed, an open card of the symbol is adopted and a new one is stored exactly when there is none |
| WatchPublication.PublishAdmitted | backend/trading/entry_watch_loop.py:415-602 | A card is stored only under an accepted CONVERTING mark; how the attempt concludes for the watch, its claim, its card and the incidents is stated for every ending, disturbed or not |
| WatchPublication.AttemptConversion | backend/trading/entry_watch_loop.py:386-412 | The admission claim is taken first and is free again on every path that left the watch without an opportunity; the books stay exact and other watches only drift, whatever runs at the awaits |
| WatchPublication.ConvertAdmitted | backend/trading/entry_watch_loop.py:360-412 | Without an admission of this very pass nothing is published and the watch is revalidated again; with one, from exact books, it ends where its facts and the open cards say |
| WatchLoop.Reopen | backend/trading/entry_watch_loop.py:207-276 | Blocked watches are retried, an operational block from its retry time on and not before, and REVALIDATING ones are taken over |
| WatchLoop.TriggeredTurn | backend/trading/entry_watch_loop.py:278-347 | Missing bars or book block the watch, a read that raises leaves it TRIGGERED, and a BUY verdict goes on to publication, each exactly; disturbed, it is still not left REVALIDATING |
| WatchLoop.LateTurn | backend/trading/entry_watch_loop.py:207-347 | The dispatch on every status but WAITING, exactly, when nothing is refused or disturbed |
| WatchLoop.TakeTurns | backend/trading/entry_watch_loop.py:129-350 | Each listed watch gets exactly one turn, on the cards the earlier turns left; a lease is only ever that of a watch whose turn is still to come |
| WatchLoop.Turn | backend/trading/entry_watch_loop.py:129-347 | From exact books one undisturbed turn ends exactly where its facts and the open cards say when nothing is refused, a raising price read included; under any refusals and any foreign calls a priced watch is not left REVALIDATING, other watches only drift and the books stay exact |
| WatchLoop.RunWatchPass | backend/trading/entry_watch_loop.py:97-357 | A whole undisturbed pass, with nothing refused, takes every actionable watch of the recovered and tidied rows exactly to the status its facts say, one turn after the other on the same cards, and leaves the others alone; with no raise no lease survives; under any refusals and foreign calls histories stay legal and books exact |
| WatchRuns.Run | backend/trading/entry_watch_loop.py:97-357 | From the empty store, any passes with any foreign calls between and inside them, under any refusals: every status write is a table edge, leases are exact, the claims held between passes are exactly those of watches that carry an opportunity, and every stored card is carried or an incident; when no publication raised after its card was stored, the incidents are exactly the stored cards whose CONVERTED mark was refused, whatever other marks were |
| WatchRuns.PublishedAtMostOnce | backend/trading/pipeline.py:182-194 | Of two cards stored for one watch, for one trigger or several, the earlier has left AWAITING_CONFIRMATION and is an incident |
| WatchRuns.StoredIsCarried | backend/trading/entry_watches.py:56-76 | A card without incident is the only such card of its watch; the watch is CONVERTED onto it and its claim is held for good |
| WatchRuns.RepeatsExactly | backend/trading/pipeline.py:186-351 | One undisturbed attempt stores a further card for its watch exactly when the watch has an incident behind it and the attempt reaches a card to store while its symbol has none open |
| WatchRuns.ReachableRow | backend/trading/entry_watch_transitions.py:25-104 | In every reachable state the lease fields are set exactly in REVALIDATING and CONVERTING with a 45 s expiry, no terminal status was ever left, and a CONVERTED watch was revalidated and admitted after its last TRIGGERED |
| WatchRuns.SameTriggerStoresTwice | backend/trading/pipeline.py:280-358 | At-most-once does need both conditions: refuse the one mark, or with every mark accepted let a step behind the stored card raise, close that card, and the same trigger stores a second one |
| WatchRuns.SameTriggerAdopts | backend/trading/pipeline.py:186-194 | While the first card is still open the same trigger adopts it: no second card is stored and the watch is CONVERTED onto the first |
| ApprovalRecords.AuthorityMeansAgreement | backend/trading/admission_authority.py:131-205 | The ordered checks accept exactly when record, opportunity and intent agree on every link and the record is not expired |
| ApprovalRecords.RefusalIsTrue | backend/trading/admission_authority.py:131-205 | Each refusal names a point on which the chain really fails, sizes and prices by nearest lot and tick |
| ApprovalRecords.TickIsUnique | backend/trading/pricing.py:33-41 | A price has one nearest tick, and that is what it is rounded to |
| ApprovalRecords.LotIsUnique | backend/trading/pricing.py:44-53 | A quantity has one greatest lot toward zero, and that is what it is cut to |
| ApprovalRecords.RoundPrice | backend/trading/pricing.py:33-41 | The nearest cent from a dollar up and the nearest hundredth of a cent below, halves up; nothing that is not positive is touched |
| ApprovalRecords.RoundQty | backend/trading/pricing.py:44-53 | The most ten-thousandths of a share that do not exceed the quantity, toward zero on either side |
| ApprovalRecords.LifecycleBothWays | backend/trading/order_intent.py:37-138 | The intent lifecycle equals the table of the statuses each status can be entered from, and an intent is unresolved exactly while it has a next status |
| ApprovalDesk.Desk.Commit | backend/trading/approval_commit.py:138-370 | One SQL approval succeeds exactly as a first approval or as a retry of its own unresolved intent; then the opportunity carries the tick nearest the requested limit as approval price, this moment as approval time, its claim time unless claimed before, the record, version and geometry and, newly made, the requested exit policy, while a new record and a new intent carry the request field by field; every refusal leaves opportunities, records and intents unchanged and names a reason that holds of the request, in the order of the checks; a card whose intent is resolved is never entered again |
| ApprovalDesk.Desk.Create | backend/trading/approval_commit.py:304-370 | A first approval stores claim, record, link and intent together or nothing, each field by field, and goes through exactly when the evidence carries an authorized BUY |
| ApprovalDesk.Desk.Reuse | backend/trading/approval_commit.py:239-297 | An unresolved intent is handed back exactly for the same fingerprint, geometry and click, within the record lifetime, and only the link, price, time and version of its opportunity are written again |
| ApprovalDesk.LinkedIsWritten | backend/trading/approval_commit.py:280-291 | What an approval writes on the opportunity, field by field |
| ApprovalDesk.NewIsMade | backend/trading/approval_commit.py:304-363 | What a new record and a new intent take from the request, field by field |
| ApprovalDesk.RecordInSession | backend/trading/admission_records.py:239-263 | A record of the same opportunity, decision version and geometry always answers: itself while unexpired and of the same fingerprint, an error otherwise; without one a new record carries the request field by field, if the request names a click |
| ApprovalDesk.Prior | backend/trading/approval_commit.py:231-238 | The stored intents of one opportunity, oldest first |
| ApprovalDesk.FirstUnresolved | backend/trading/approval_commit.py:239-239 | An unresolved intent is found exactly when there is one |
| ApprovalDesk.CreateIsSound | backend/trading/approval_commit.py:304-363 | A first approval keeps one intent per opportunity and every authority chain intact |
| ApprovalDesk.ReuseIsSound | backend/trading/approval_commit.py:280-291 | A retry keeps them too |
| ApprovalDesk.CreateOrReuse | backend/trading/approval_commit.py:239-302 | No request can both create and reuse |
| ApprovalDesk.NewIsAuthorized | backend/trading/approval_commit.py:363-363 | For a first approval the final check refuses on exactly the listed points |
| ApprovalDesk.RetryIsAuthorized | backend/trading/approval_commit.py:290-290 | For a retry only geometry and expiry can still fail |
| ApprovalDesk.Desk.MoveIntent | backend/trading/intents.py:199-213 | An intent moves exactly along its lifecycle table, and only its status changes |
| ApprovalDesk.Desk.ClaimCard | backend/trading/opportunities.py:136-170 | A status compare-and-swap: won exactly from the expected status |
| ApprovalDesk.Desk.ReleaseStale | backend/trading/opportunities.py:194-223 | Exactly the APPROVING cards claimed at the cutoff or before, or never stamped, go back on offer without a claim; nothing else of them or of other cards changes, and their number is returned |
| ApprovalDesk.Run | backend/trading/approval_commit.py:192-370 | Any run of approvals, intent resolutions, status claims, releases and other records: no opportunity ever gets a second entry intent |
| ApprovalDesk.ApprovingIsBacked | backend/trading/approval_commit.py:304-363 | An APPROVING opportunity has exactly one entry intent, and record, opportunity and intent agree on identity, symbol, geometry, fingerprint and request |
| ApprovalDesk.RetryFindsItsIntent | backend/trading/approval_commit.py:271-297 | The same request again, within 900 s and while the intent is open, gets the same intent back |
| ApprovalMemory.MemoryDesk.Commit | backend/trading/approval_commit.py:434-634 | In memory a refusal leaves the stores alone exactly when it precedes the claim or falls on a card already APPROVING whose link it does not rewrite; with an unresolved intent the whole new state and exactly when the retry goes through; a complete first request stores its record, link and intent, field by field, even when it is refused; every refusal names a reason that holds; no card ever gets a second entry intent |
| ApprovalMemory.MemoryDesk.Reuse | backend/trading/approval_commit.py:492-552 | A retry relinks the card exactly when it is the click of the unresolved intent with the same evidence and the record exists, writes what an approval writes on it, and only then checks authority |
| ApprovalMemory.SameClickMeans | backend/trading/approval_commit.py:496-522 | Two requests with click ids are the same click exactly for equal ids and one fingerprint, the intent's or else its record's; otherwise the geometry decides |
| ApprovalMemory.RetriedIsReuse | backend/trading/approval_commit.py:492-552 | On sound books a retry goes through in memory exactly where it does in SQL |
| ApprovalMemory.ExpiredRetryRelinks | backend/trading/approval_commit.py:536-547 | Approved once and clicked again when the record has expired, the same request is refused after it has moved the approval time of the card |
| ApprovalMemory.RefusalLeavesAnIntent | backend/trading/approval_commit.py:598-628 | A refused BUY in memory leaves the card APPROVING and an entry intent behind |
| RateLimiter.RateLimiter.Attempt | backend/core/concurrency.py:45-61 | One round grants, or says how long to wait; every promise about past grants is kept |
| RateLimiter.RateLimiter.Penalize | backend/core/concurrency.py:63-69 | The bucket is emptied and held; no earlier penalty is shortened |
| RateLimiter.RateLimiter.Acquire | backend/core/concurrency.py:45-61 | A lone caller asking for no more than the capacity is granted within three rounds, in the first one exactly when the refilled bucket suffices and no penalty runs |
| RateLimiter.Run | backend/core/concurrency.py:35-69 | Any interleaving of rounds and penalties: every time window takes at most the burst plus the rate times its length, and nothing is granted inside a penalty |
| RateLimiter.RoundKeeps | backend/core/concurrency.py:52-58 | A refill clipped at the capacity followed by a grant keeps the bound over every window |
| RateLimiter.BoundedAfterGrant | backend/core/concurrency.py:56-58 | Every window ending after a grant is paid for |
| RateLimiter.PotentialAfterGrant | backend/core/concurrency.py:52-57 | What a window took plus what the bucket holds never exceeds burst plus earnings |
| PaperPeriod.ThrottledIsExact | backend/risk/paper_period.py:151-198 | Over any ordered history the throttled record has the high water, last equity, day and week baselines of the full history, its clock less than a minute behind |
| PaperPeriod.HighestIsMaximum | backend/risk/paper_period.py:183-183 | High water is the largest equity ever observed |
| PaperPeriod.AnchorIsLastBefore | backend/risk/paper_period.py:173-182 | Each baseline is the last equity observed before the current day or week began, or the first one |
| PaperPeriod.NothingFallsBetween | backend/risk/paper_period.py:173-185 | The final P&Ls of all days, and of all weeks, add up to last minus initial equity |
| PaperPeriod.BucketsAreRuns | backend/risk/paper_period.py:92-94 | Every day or week is one unbroken run of observations, so it is counted once |
| PaperPeriod.WeeksAreMonotone | backend/risk/paper_period.py:92-94 | Weeks advance with days |
| PaperPeriod.WeekIsMonday | backend/risk/paper_period.py:92-94 | A week is named by the Monday at most six days before its local day, and by no other day |
| PaperPeriod.ObservedFieldByField | backend/risk/paper_period.py:166-185 | One observation by local days and minutes alone: day and week baselines, high water, clock, and when nothing is written |
| PaperPeriod.ConsistentMeans | backend/risk/paper_period.py:50-59 | A record loads exactly when its amounts are positive and none lies above the high water, and its times are in order |
| PaperPeriod.KeptIsConsistent | backend/risk/paper_period.py:50-59 | The record of any ordered history passes its own validator |
| PaperPeriod.ObservedIsConsistent | backend/risk/paper_period.py:166-185 | An observation keeps a valid record valid |
| PaperPeriod.DrawdownInRange | backend/risk/paper_period.py:61-83 | Drawdown lies from 0 up to below 100 percent, zero exactly at the high water; a suspended period reports none |
| PaperPeriod.MetricsAreExact | backend/risk/paper_period.py:61-83 | Reported day and week P&L and drawdown are those of the full history |
| PaperPeriod.PnlFieldByField | backend/risk/paper_period.py:61-83 | Over any ordered history the day P&L is measured from the last observation before the current day and the week P&L from the last one before its Monday, or from the first observation |
| PaperPeriod.Periods.Start | backend/risk/paper_period.py:115-148 | A first start measures everything from the given equity, its week from the Monday; starting again changes nothing and returns the running period; a suspended one refuses |
| PaperPeriod.Periods.Observe | backend/risk/paper_period.py:151-198 | Exact results and errors; it never starts a period, never moves a suspended one and refuses observations out of order; the day baseline becomes the last equity before exactly when the local day turns, the week baseline exactly when the day leaves the seven days from the stored Monday, high water is the larger of the two equities, and only an unchanged equity of the same day and week within the minute goes unwritten |
| PaperPeriod.Periods.Suspend | backend/risk/paper_period.py:201-221 | Suspension keeps every number |
| PaperPeriod.Run | backend/risk/paper_period.py:115-221 | Any operations: records stay valid, starts never move, high water never falls, and a suspended period is frozen for good |
| PaperPeriod.Poll | backend/risk/paper_period.py:151-198 | Polling an account through a history leaves exactly the record of that history |
| Correlation.CauchySchwarz | backend/quant/correlation.py:35-37 | The squared covariance never exceeds the product of the variances |
| Correlation.Pearson | backend/quant/correlation.py:28-40 | A correlation exists exactly for an overlap of 30 and two series that vary, lies in [-1, 1], has the sign of the covariance and the square it demands |
| Correlation.PearsonCorrelates | backend/quant/correlation.py:28-40 | The coefficient squared times both variances is the covariance squared, and it has its sign, with the sums over the last shared returns written out |
| Correlation.CorrelationIsUnique | backend/quant/correlation.py:28-40 | Two series have one such coefficient |
| Correlation.SelfCorrelation | backend/quant/correlation.py:28-40 | A series that varies has correlation 1 with itself |
| Correlation.CorrelationIsSymmetric | backend/quant/correlation.py:28-40 | The order of the two series does not matter |
| Correlation.CorrelationOfNegated | backend/quant/correlation.py:28-40 | Negating one series negates the coefficient |
| Correlation.MomentsAreBounded | backend/quant/correlation.py:33-37 | The bound holds for the overlapping tails |
| CorrelationMatrix.Build | backend/quant/correlation.py:72-83 | Every pair of symbols is correlated once and stored smaller symbol first: for each pair its correlation over the last shared returns, in sign and square, or nothing where there is none; nothing else is stored |
| CorrelationMatrix.Get | backend/quant/correlation.py:48-52 | Lookups stay in range |
| CorrelationMatrix.GetIsSymmetric | backend/quant/correlation.py:48-52 | Lookup is symmetric exactly where no stored value is zero |
| CorrelationMatrix.ZeroReadsAsMissing | backend/quant/correlation.py:48-52 | A stored zero is not returned for the sorted key order, but is for the reverse |
| CorrelationMatrix.MaxWith | backend/quant/correlation.py:54-64 | The first symbol with the largest known correlation, absent exactly when none is known |
| CorrelationMatrix.EffectiveInRange | backend/quant/correlation.py:111-132 | The effective count lies in [1, n]: n exactly for non-positive, 1 exactly for perfect average correlation |
| CorrelationMatrix.EffectiveByPairs | backend/quant/correlation.py:111-132 | With k known pairs that sum to s over all index pairs, the count times k + (n - 1) * max(s, 0) is n * k, and there is none without a known pair |
| CorrelationMatrix.CheckConcentration | backend/quant/correlation.py:135-169 | Each breach is raised exactly on its condition |
| PositionSizing.SizeIsOptimal | backend/risk/position_sizing.py:30-39 | The size is the largest number of ten-thousandths of a share fitting the risk, position and cash budgets together |
| PositionSizing.SizedByBudgets | backend/risk/position_sizing.py:24-42 | In whole lots and without a division: the quantity is the one largest number of lots within the risk, position and cash budgets, none where nothing can be sized, and the loss the nearest number of cents, halves to even |
| PositionSizing.BudgetAffords | backend/risk/position_sizing.py:31-35 | Rounding down loses no affordable lot |
| PositionSizing.SizeShrinksWithSlippage | backend/risk/position_sizing.py:24-37 | More slippage never buys more |
| PositionSizing.LossIsHonest | backend/risk/position_sizing.py:41-42 | The reported loss is within half a cent of quantity times risk |
| PositionSizing.NotionalFits | backend/risk/position_sizing.py:33-37 | A sized order fits the cash and the position cap |
| PositionSizing.UnsizableIsZero | backend/risk/position_sizing.py:24-28 | Only valid inputs are sized |
| RiskEngine.Evaluate | backend/risk/risk_engine.py:147-273 | It passes exactly when nothing objects, lists exactly the objections otherwise, and never MAX_POSITION_PCT; each answer is also stated reason by reason in numbers alone, for the largest quantity the budgets allow |
| RiskEngine.ObjectsMeans | backend/risk/risk_engine.py:181-272 | Each objection is raised exactly on its own condition, percentages without a division |
| RiskEngine.BarsMeans | backend/risk/risk_engine.py:157-188 | Each early refusal is given exactly when its condition holds and no earlier check refused |
| RiskEngine.NeverTooLarge | backend/risk/risk_engine.py:238-241 | The position cap cannot be exceeded by a sized order |
| RiskEngine.EventRisk | backend/risk/risk_engine.py:284-315 | Each unread source and each earnings window is listed exactly when it applies |
| RiskEngine.Concentration | backend/risk/risk_engine.py:317-328 | The concentration breaches, exactly |
| RiskEngine.FillKeepsCaps | backend/risk/risk_engine.py:199-262 | A passed trade filled at its entry keeps every cap |
| RiskEngine.RunBook | backend/risk/risk_engine.py:199-262 | Any run of signals, exactly those without objection filled, each judged on the book the earlier ones left: cash stays non-negative, positions within the limit, exposure within five position caps and each sector with the unclassified exposure within its cap, up to the epsilon; what the cash paid is what the exposure gained |
| BuyConfirmation.Confirm | backend/trading/buy_confirmation.py:353-476 | Passing is exactly every soft confirm holding or being let go, relaxed exactly when one was let go; a refusal lists exactly the reasons that hold; for each of the five steps both answers are stated as what the step demands of the facts and what it does without |
| BuyConfirmation.PassesByStep | backend/trading/buy_confirmation.py:125-241 | The table of policies confirms exactly what each step demands of the facts, relaxed exactly by what it does without |
| BuyConfirmation.SoftConfirms | backend/trading/buy_confirmation.py:402-467 | Momentum, volume, VWAP and arrival: which reasons are given and whether one was let go, exactly |
| BuyConfirmation.WeakerStepsPass | backend/trading/buy_confirmation.py:125-241 | A passing confirmation passes at every weaker step, except exactly at step 75 on a broken structure with negative momentum |
| BuyConfirmation.SliderIsMonotone | backend/trading/buy_confirmation.py:244-247 | With a valid structure, moving the slider up never refuses what passed |
| BuyConfirmation.SoftenedStepRefuses | backend/trading/buy_confirmation.py:494-503 | The exception is real: these facts pass at 50, fail at 75 and pass at 100 |
| BuyConfirmation.SnapIsMonotone | backend/trading/entry_policy.py:387-399 | Real slider values, rounded half to even first, snap to a nearest step and never cross |
| BuyConfirmation.ArrivalFloors | backend/trading/buy_confirmation.py:125-241 | The score every kind of arrival needs at each step, and what it is refused with |
| BuyConfirmation.TiesSnap | backend/trading/entry_policy.py:387-399 | Half way between two steps the rounding to an even number decides |
| BuyConfirmation.FloorsHoldEverywhere | backend/trading/buy_confirmation.py:342-350 | No step waives terminal damage, the candidate floors, the base R:R or a sell-off arrival |
| BuyConfirmation.VwapRelaxes | backend/trading/buy_confirmation.py:327-339 | VWAP confirmation only ever gets easier, for non-negative prices |
| Promotion.JudgeBacktest | backend/strategy/promotion.py:149-158 | The backtest gate and its list of shortfalls, exactly |
| Promotion.JudgeOos | backend/strategy/promotion.py:160-181 | The out-of-sample gate and its list of shortfalls, exactly |
| Promotion.JudgePaper | backend/strategy/promotion.py:183-200 | The paper gate and its list of shortfalls, exactly |
| Promotion.LadderIsOrdered | backend/strategy/__init__.py:26-41 | Stages are ranked by their rung, a rejected version below the ladder |
| Promotion.EarnedNeedsEveryGate | backend/strategy/promotion.py:204-217 | A stage is earned exactly when all gates up to it pass |
| Promotion.Registry.Recompute | backend/strategy/promotion.py:220-281 | A research stage becomes exactly the earned one whatever the history; later stages keep theirs; REJECTED refuses |
| Promotion.Registry.HumanApprove | backend/strategy/promotion.py:284-313 | Approval of a research version succeeds exactly when its own refreshed evidence earned PAPER_PASSED |
| Promotion.Registry.PromoteToProduction | backend/strategy/promotion.py:316-341 | Only HUMAN_APPROVED is promoted |
| Promotion.Registry.RejectVersion | backend/strategy/promotion.py:344-362 | Everything but PRODUCTION can be rejected |
| Promotion.Run | backend/strategy/promotion.py:220-362 | Any calls with any evidence: PRODUCTION versions had an approval whose own evidence earned PAPER_PASSED and no dismissal since; PRODUCTION and REJECTED are final |
| Promotion.RecomputeJustified | backend/strategy/promotion.py:245-276 | A recompute keeps every stage justified by the history |

## Left out

- WatchRecovery.RecoverStaleLeases: with persistence on, a second phase re-reads every leased row of the database, transitions the expired ones there and overwrites the memory row with the result; it is not modelled, so nothing is claimed about what it does to a memory row that had moved on.
- WatchLoop.RunWatchPass: where a pass ends is stated only when nothing but price touches runs at its awaits; otherwise only what every run keeps is.
- WatchLoop.Refresh: the refreshed desk copy is written back as one atomic price update of the current row. The source writes back the copy it read before the await, and could so undo a foreign write in between; that, telemetry, audit and shadow outcomes are not modelled.
- WatchLoop.Turn: whether a price is a fetched mark, the previous one or the close of a 5-minute bar is not distinguished.
- WatchPublication.Publish: candidate symbols are taken to be upper case, so a card carries the symbol of its watch; the source stores the symbol as the candidate spells it and looks cards up in upper case, so a card spelled otherwise would not be found again. Which cards are unactionable is a parameter, and a card either awaits confirmation or not.
- WatchAwait.Orphan: which of its marks the database refuses is a parameter of the call; they are not counted among the attempts of the loop.
- EntryWatchStore.Store.ReopenCard: any closed card may be reopened, while the source reopens only one stuck in APPROVING; what is proved for every run holds for fewer runs too.
- WatchRuns.Run: a compare-and-swap that raises instead of refusing, process death and restart from the database are not modelled; a raise while reading, evaluating or publishing is.
- EntryWatchStore.Store.Mark: the answers of the compare-and-swap are a parameter and are not tied to the rows of `WatchTable`; every sequence of answers of that table is among them.
- EntryWatchStore.Store.CreateFromBundle: building a plan from a candidate and its eligibility checks are outside; the plan arrives as symbol, price and time to live.
- WatchRevalidation.ObservePrice: zone-touch counters and zone geometry are parameters of the observation.
- StreamAssembler.Assembler.IngestBatch: a storage failure half-way through a batch, after which the source discards the connection, is not modelled.
- MarketBars.AggregateCovers: the source and timeframe labels of a bar and its JSON payload are not part of the bar; the payload round trip is taken as the identity.
- ApprovalDesk.Desk.Commit: identifiers come from a counter and fingerprints are opaque non-empty text; the NOT NULL and CHECK constraints on entry intents are taken as in force, and the orders of other purposes are not in the tables.
- ApprovalDesk.Run: stale whole-row updates of an opportunity by other code are not modelled; its status claims are.
- ApprovalMemory.MemoryDesk.Commit: for a first approval that finds an earlier approval record of its card, only its intents and what a refusal leaves behind are stated; an intent always names a record, and an empty fingerprint stands for none.
- RateLimiter.RateLimiter.Acquire: asynchronous scheduling is reduced to atomic rounds on a monotone clock; the constructor's rejection of a non-positive rate is its precondition, and floating-point rounding is not modelled.
- PaperPeriod.Periods.Observe: the optimistic version check cannot fail under the process lock, so its error is not modelled; audit rows are left out.
- PositionSizing.SizeIsOptimal: divisions are exact; the source divides Decimals at 28 digits before rounding down.
- Correlation.Pearson: exact reals, with the square root as a parameter known only by its defining property; floating-point underflow is not modelled.
- CorrelationMatrix.Build: symbols are numbers in sorted order; upper-casing and two spellings of one ticker are not modelled.
- RiskEngine.RunBook: equity is fixed and positions are only opened, at their entry price; closing and marking to market are not modelled.
- BuyConfirmation.Confirm: warnings, the R:R text and the candidate-readiness check that precedes confirmation are left out, being straight lists of independent conditions.
- Promotion.Registry.HumanApprove: its two transactions are one atomic call, so an approval racing a rejection is not modelled; aggregation of journal rows into evidence is outside.
- Explanatory reason texts, metrics, logging, the activity board, notifications, HTTP, authentication and the kill switch carry no protocol state.
- Upper case is modelled for ASCII tickers only.
- The websocket session, its queue and reconnection are left out; the writer loop enters as an arbitrary sequence of batches.
- Hard arrival damage, readiness checks and indicator formulas are independent conditions without state and would add easy members only.
