# Kest in Dafny

Kest moves an operational CyberMarket database into a small lakehouse: a live writer commits events to PostgreSQL, a
CDC consumer lands the write-ahead log as objects, a generator fills in years of history, and a batch job builds Silver
and Gold tables and publishes them. This project models those five pieces and proves what they promise, each on its
own and then together. `dafny verify dfyconfig.toml` checks everything.

| files | what they model |
|---|---|
| `Landing`, `LandingProtocol`, `LandingWriter` | the replication slot, one landed batch, the protocol as a state machine over commits, peeks, puts, acknowledgements and crashes in any order, and the `LandingWriter` class with the loop of `cdc.run` |
| `History`, `HistoryRuns`, `HistoryCounts`, `HistoryJob` | the adaptive part loop, any number of killed and resumed generation runs, what the validator finds of a completed one, and the generator job over its bucket |
| `Ids`, `HistoryRows` | identifiers and the row formulas of the history tables |
| `Records`, `Relational`, `Gold`, `GoldProofs`, `GoldTotals` | the SQL operators, the four Gold queries, what each of their rows means, and what their totals conserve |
| `Live`, `LiveProofs`, `LiveWriter`, `LiveRuns`, `Seed` | the tables and their invariant, the `LiveEventWriter` class, runs of events, the seeded start |
| `Generator`, `Smoke` | the event frame and its paced loop; a number of frames drained through the landing protocol |
| `Snapshot` | Silver read table by table while the writer goes on |
| `Catalog`, `Publish`, `Batch`, `BatchRuns`, `BatchFailures`, `BatchCheck`, `BatchOverLive` | the catalog whose calls may fail, staged publishing, one run, any sequence of runs, exactly what a failed run leaves, the validator, and all of it over a live database |
| `Collections`, `Text`, `Schema` | shared lists, text facts, table names |

What the model takes from its environment, as preconditions or parameters:

* The slot functions return whole transactions and look at the row limit only where one ends. LSNs differ between
  transactions but need not rise; rows differ. One consumer owns the slot.
* The size of a Parquet file is any positive function of table, first row and row count. The byte bound needs it to lie
  between two lines through the origin.
* Clock readings never go back. Draws and UUIDs are inputs; a UUID that is already taken fails its event.
* After any number of catalog calls one may fail, with or without having taken effect. The cleanup that follows succeeds.
  Batch ids are run numbers.
* Money is exact, in hundredths of a cent, so that the 45/55 split of a whole number of cents is exact.

Four checks and expectations of the repository do not always hold of its code. The model follows the code, shows a
reachable input for each, and states exactly when it holds:

* The shrink branch of `generate_table` is not cut back to the rows that are left, so the row counts that
  `workload/validation/storage.py:236-250` demands can be missed, by up to 999 rows: two items per transaction
  (`ItemCountMissed` is a completed generation that misses them) and the fixed sizes of the dimensions (`MarketsExactIff`:
  a small request makes 1000 markets). `CompletedRowsExactIff` is the exact condition, `CompletedItemCount` the bound.
* A batch is published table by table, so a run that fails while publishing can leave a final layer of two batches or one
  table short. `FailAfterMoves` runs into both, `FailedRunIsWholeIff` says for every failing call whether readers still
  find whole layers, and `RunsKeep`, `RunsMiss` and `Repaired` say what any sequence of runs keeps.
* Silver tables are read at different times. The row counts agree all the same (`SnapshotCounts`). The money differs by
  exactly what was bought in one of the gaps (`SnapshotMoney`): `SkewedSnapshot` is such a snapshot, over any history, and
  `QuiescentMoney` the exact condition for agreement.
* The validator of a batch counts PostgreSQL again after the run, so it rejects a successful run as soon as the writer has
  inserted into a table that was read before (`RejectLateSale`). `LiveBatchAcceptedIff` is the exact condition, and
  `AcceptedBatchBalances` says what it is good for: no batch with differing totals passes.

## Model

| member | source | states |
|---|---|---|
| `Landing.AckMatchesPeek` | workload/landing/writer.py:49-74 | getting with a limit of the batch's own size returns exactly the peeked rows, whatever committed in between |
| `Landing.KeyInjective` | workload/landing/writer.py:101-110 | the printed object key determines table, date, hour and both end LSNs |
| `Landing.EventIdInjective` | workload/landing/writer.py:82-84 | the hashed text determines the row, so deduplicating on `event_id` merges no two changes |
| `Landing.SameEndsSameRows` | workload/landing/writer.py:101-110 | two batches of whole transactions with the same end LSNs hold the same rows, although LSNs need not be monotone |
| `Landing.EnvelopesExact` | workload/landing/writer.py:78-99 | the object of a table holds one envelope for each of its changes in the batch and no other |
| `Landing.GroupsPartition` | workload/landing/writer.py:78-137 | the group sizes add up to the number of rows given, which is what `land_batch` returns |
| `LandingProtocol.StepKeeps` | workload/landing/writer.py:76-137 | every commit, peek, put, acknowledgement and crash keeps the protocol invariant |
| `LandingProtocol.NoLossNoInvention` | workload/landing/writer.py:76-137 | in every reachable state the identifiers in the bucket are exactly those of the acknowledged rows and of the put shares of batches that reach past the slot; no acknowledged row is missing |
| `LandingProtocol.NoInvention` | workload/landing/writer.py:85-130 | every stored envelope is that of a committed row, in the object of its own table |
| `LandingProtocol.MismatchUnreachable` | workload/landing/writer.py:62-74 | in every reachable state the acknowledgement returns what was landed, so the mismatch error cannot occur |
| `LandingProtocol.OverwriteIsBenign` | workload/landing/writer.py:106-130 | in every reachable state a put whose printed key is in use stores the events already there, up to the ingestion time |
| `LandingProtocol.PrintedKeysDiffer` | workload/landing/writer.py:106-110 | in every reachable state no two objects of the bucket print the same key |
| `LandingProtocol.HashedTextsDiffer` | workload/landing/writer.py:82-84 | in every reachable state landed changes that hash the same text have the same identifier fields, so `event_id` merges no two of them |
| `LandingWriter.Writer.Acknowledge` | workload/landing/writer.py:62-74 | consumes the changes first, then accepts exactly when they are the expected ones |
| `LandingWriter.Writer.LandBatch` | workload/landing/writer.py:76-137 | one object per table, then the acknowledgement, as a run of the protocol; a failed put leaves the slot |
| `LandingWriter.Writer.Round` | workload/pipelines/cdc.py:27-32 | a round lands and acknowledges the peeked rows exactly, fails only when a remote call fails, and lands nothing exactly when nothing is pending |
| `LandingWriter.Writer.Follow` | workload/pipelines/cdc.py:27-46 | over any schedule of commits, failures and stop signals, the total is the number of changes the slot passed |
| `LandingWriter.Writer.Drain` | workload/pipelines/cdc.py:27-46 | over a finite log the loop ends with nothing pending, reports every pending change, and writes no more lines than that |
| `History.ProducedTiles` | workload/pipelines/history.py:206-245 | the parts of a call continue the tiling of the row index range, without gap or overlap |
| `History.ProducedFinishes` | workload/pipelines/history.py:212 | the loop ends, at or beyond its goal |
| `History.TilesCover` | workload/pipelines/history.py:206-245 | every row index up to the row count lies in a part |
| `History.TilesDisjoint` | workload/pipelines/history.py:206-245 | no two parts overlap |
| `History.RowModeBound` | workload/pipelines/history.py:212-245 | with a row goal the loop ends within 999 rows above it, and exactly at it if and only if the shrink branch never raises the rows above what is left |
| `History.RowModePastBudget` | workload/pipelines/history.py:212-229 | with the byte target already met, the row goal is met exactly if and only if the rows left are a multiple of 1000 |
| `History.RowModeCovered` | workload/pipelines/history.py:212-229 | while the byte target covers the rows that are left, the row goal is met exactly |
| `History.ByteModeBound` | workload/pipelines/history.py:212-245 | with file sizes between two close lines, a byte goal is overshot by at most a twentieth of a file |
| `HistoryRuns.ResumeCorrect` | workload/pipelines/history.py:268-284 | after any number of killed runs every table is tiled and within its rows, and a table has parts only when all earlier ones met their goals |
| `HistoryRuns.CompletedIsFixedPoint` | workload/pipelines/history.py:268-298 | after a completed run, running again uploads nothing, and the request is met |
| `HistoryRuns.EnoughBudgetCompletes` | workload/pipelines/history.py:268-284 | from any bucket there is a number of uploads after which a run completes, so resuming always finishes |
| `HistoryRuns.LastTableLandsInWindow` | workload/pipelines/history.py:270-271 | the last table brings the total to the request and at most a twentieth of a file past it, or adds nothing when the others have used up the request |
| `HistoryCounts.CompletedTable` | workload/pipelines/history.py:268-284 | a completed run adds to each table what one uninterrupted call for its final goal produces |
| `HistoryCounts.CompletedRowsExactIff` | workload/pipelines/history.py:203-247 | a completed run leaves a table with a row target exactly at its final target if and only if the bucket held no more to begin with and the shrink branch never fires with fewer than 1000 rows to go |
| `HistoryCounts.CompletedDimensionsExactIff` | workload/validation/storage.py:236-246 | that condition for the fixed row counts of the four dimension tables |
| `HistoryCounts.MarketsExactIff` | workload/validation/storage.py:236-246 | generated from nothing, the ten markets become 1000 if and only if a file of ten rows exceeds its share of the request by more than five percent |
| `HistoryCounts.CompletedItemsExactIff` | workload/validation/storage.py:247-250 | a completed run leaves exactly two items per transaction if and only if the bucket held no more to begin with and the shrink branch never fires with fewer than 1000 items to go |
| `HistoryCounts.ItemCountMissed` | workload/validation/storage.py:247-250 | a completed generation from an empty bucket, with 2470 transactions, that does not hold 4940 items |
| `HistoryCounts.ByteWindowIff` | workload/validation/storage.py:203-204 | for a request of at least one file target, and files of the last table within five percent of proportional to their rows, a completed generation lies in the byte window if and only if the tables before the last weigh at most five percent more than the request |
| `HistoryJob.ExistingParts` | workload/pipelines/history.py:163-185 | groups the listed parts by table, or refuses exactly when a Parquet object lacks row metadata |
| `HistoryJob.ListingResumes` | workload/pipelines/history.py:206-209 | the loop variables taken from a listing in any order resume where the tiling ends |
| `HistoryJob.Job.Upload` | workload/pipelines/history.py:231-240 | a part gets the next free number, so no existing object is overwritten |
| `HistoryJob.Job.GenerateTable` | workload/pipelines/history.py:203-247 | uploads what the specification produces, or the prefix of it that a kill allows, and returns the totals |
| `HistoryJob.Job.RunTables` | workload/pipelines/history.py:268-284 | the table loop is one run of the specification, with running totals and the last table's target |
| `HistoryJob.Job.Run` | workload/pipelines/history.py:250-306 | unreadable objects and unknown tables stop the run before anything is written; otherwise it keeps every object, and a completed run's manifest describes the bucket and meets the request |
| `HistoryRows.ItemsOfTransaction` | workload/validation/storage.py:121-160 | rows `2t - 1` and `2t` are two different canonical products of the vendor of `t` |
| `HistoryRows.ItemsSplitAmount` | workload/pipelines/history.py:96-105 | the two items of a transaction add up to its amount |
| `HistoryRows.ItemLine` | workload/pipelines/history.py:96-105 | item row `2 (t - 1) + line` is the `line`-th canonical product of the vendor of `t`, at 45 or 55 percent of its amount |
| `HistoryRows.ItemsDistinct` | workload/cybermarket/sql/schema.sql:81 | item primary keys never collide |
| `HistoryRows.ItemsCompleteIff` | workload/validation/storage.py:247-250 | every transaction has both items and every item its transaction if and only if there are twice as many items |
| `HistoryRows.ReferencesResolveIff` | workload/validation/storage.py:251-254 | references into the first million events all resolve if and only if the referenced table covers the part in use |
| `HistoryRows.NothingPredates` | workload/validation/storage.py:167-194 | no payment or prediction predates its transaction, at any row index |
| `HistoryRows.HistorySound` | workload/validation/storage.py:247-256 | with the row counts the validator asks for, items, payments and predictions all resolve |
| `HistoryRows.GeneratedTransactionPasses` | workload/validation/storage.py:95-119 | a generated transaction passes all checks on its printed columns if and only if its index fits the fourteen digits of its id |
| `HistoryRows.CheckItems` | workload/validation/storage.py:121-160 | the item checks accept exactly the samples whose rows fit their transactions and whose events show both products |
| `HistoryRows.GeneratedSamplePasses` | workload/validation/storage.py:121-160 | the first `k` generated items pass if and only if `k` is even |
| `Ids.ProductKeyInjective` | workload/cybermarket/ids.py:41-47 | vendor and listing age alone identify a canonical product |
| `Ids.HistoryIdRoundTrip` | workload/cybermarket/ids.py:36-37 | a printed history id reads back to its index if and only if the index has at most fourteen digits |
| `Relational.FanOutIff` | workload/pipelines/batch.py:50-53 | a left join keeps the number of left rows exactly when no joined key occurs twice on the right |
| `Relational.GroupsConserve` | workload/pipelines/batch.py:53 | the sums of all groups add up to the sum of the rows whose keys are grouped |
| `GoldProofs.DailyRefines` | workload/pipelines/batch.py:35-55 | every row of the daily metrics is the count, sum and filter-count of its own transactions, risk rows and payments, without join artefacts |
| `GoldProofs.VendorsRefine` | workload/pipelines/batch.py:56-69 | one row per vendor, equal to the direct count, distinct buyers, sum and high-risk count over its transactions |
| `GoldProofs.BuyersRefine` | workload/pipelines/batch.py:70-97 | one row per buyer; purchases and sessions are counted separately, never multiplied |
| `GoldProofs.ProductsRefine` | workload/pipelines/batch.py:98-116 | one row per product, equal to the direct sums over its items |
| `GoldTotals.CountsAgreeIff` | workload/validation/batch.py:140-149 | the totals of the Gold count columns equal the Silver row counts if and only if the dimension keys resolve |
| `GoldTotals.GoldMoney` | workload/pipelines/batch.py:34-117 | day, vendor and buyer totals are the value of the transactions, the product total that of the items |
| `GoldTotals.MoneyConserved` | workload/pipelines/batch.py:34-117 | when lines settle their transactions all four Gold models hold the same money |
| `LiveProofs.SeededProducts` | workload/cybermarket/live.py:105-115 | in the seeded universe the query returns exactly products `4v` and `4v - 3` of vendor `v`, so products are never missing |
| `LiveProofs.PurchaseKeeps` | workload/cybermarket/live.py:87-217 | a purchase keeps keys, references, line sums, times and counters |
| `LiveProofs.PurchaseLines` | workload/cybermarket/live.py:139-145 | after a purchase every transaction has two lines: the youngest listing of its own vendor for 45 percent of the amount, the next for 55 |
| `LiveProofs.VendorsCounted` | workload/cybermarket/live.py:208-217 | adding one through text keeps the text counter equal to the numeric one |
| `LiveProofs.BuyersCounted` | workload/cybermarket/live.py:199-207 | a purchase raises the total of the purchase counters by exactly one |
| `LiveProofs.PaymentUpdateTouches` | workload/cybermarket/live.py:229-239 | for a remembered pair the update replaces exactly one payment row of the database, the pair's own |
| `LiveProofs.StatusUpdateTouches` | workload/cybermarket/live.py:281-289 | for a remembered pair the update replaces exactly one transaction row, the pair's own, and leaves its amount |
| `LiveProofs.PaymentUpdateKeeps` | workload/cybermarket/live.py:225-239 | moving a payment to the present keeps the whole invariant |
| `LiveProofs.PredictionKeeps` | workload/cybermarket/live.py:241-277 | a prediction for a remembered pair resolves and does not predate its transaction |
| `LiveProofs.StatusUpdateKeeps` | workload/cybermarket/live.py:279-289 | a status update keeps amounts, keys and references |
| `LiveWriter.SkewedIndexInRange` | workload/cybermarket/live.py:44-45 | the skewed draw always names an existing entity |
| `LiveWriter.ReloadedPairs` | workload/cybermarket/live.py:31-39 | whatever the start-up query returns are pairs of a transaction and its own payment with a risk row |
| `LiveWriter.LiveEventWriter.constructor` | workload/cybermarket/live.py:25-39 | a restart re-establishes the writer's invariant |
| `LiveWriter.PurchaseErrors` | workload/cybermarket/live.py:105-217 | the only constraint a purchase can violate is the uniqueness of a UUID |
| `LiveWriter.LiveEventWriter.MakePurchase` | workload/cybermarket/live.py:87-218 | commits one transaction with the seven row changes, remembers the pair, keeps the invariant; it fails exactly when a UUID is taken and then changes nothing |
| `LiveWriter.LiveEventWriter.InsertSession` | workload/cybermarket/live.py:47-85 | one new session of an existing buyer |
| `LiveWriter.LiveEventWriter.ChooseRecent` | workload/cybermarket/live.py:220-223 | returns a remembered pair and buys only when nothing is remembered |
| `LiveWriter.LiveEventWriter.UpdatePayment` | workload/cybermarket/live.py:225-239 | settles the payment of the picked pair, after the purchase that provides one when nothing is remembered; fails exactly when that purchase does |
| `LiveWriter.LiveEventWriter.InsertPrediction` | workload/cybermarket/live.py:241-277 | inserts one prediction for the picked pair, after the purchase that provides one when nothing is remembered; fails exactly on a taken UUID, keeping a purchase already made |
| `LiveWriter.LiveEventWriter.UpdateStatus` | workload/cybermarket/live.py:279-289 | completes the transaction of the picked pair, after the purchase that provides one when nothing is remembered; fails exactly when that purchase does |
| `LiveWriter.LiveEventWriter.Emit` | workload/cybermarket/live.py:291-292 | every event keeps the invariant and writes its fixed row changes in one transaction; what it commits, also when it fails, is a run of enabled steps |
| `LiveRuns.RunKeeps` | workload/validation/postgres.py:91-114 | every run of live events keeps the invariant, which includes all the validator's assertions |
| `LiveRuns.RunSpends` | workload/cybermarket/live.py:87-289 | the value of the transactions grows by what is bought and by nothing else |
| `LiveRuns.RunInserts` | workload/cybermarket/live.py:47-289 | over every run each table grows by the rows its events insert |
| `LiveRuns.LiveRevenue` | workload/cybermarket/live.py:139-145 | in a live database the lines are worth what the transactions are |
| `Seed.SeedCountersAgreeIff` | workload/cybermarket/sql/seed.sql:24-41 | the two seeded vendor counters agree if and only if the index is below 4900 |
| `Seed.SeededInv` | workload/cybermarket/sql/seed.sql:24-61 | the seeded database satisfies the invariant |
| `Seed.CountersOverRuns` | workload/cybermarket/live.py:199-217 | over every run from the seed, purchase counters grow by the number of live transactions, and every text counter parses to its completed transactions |
| `Generator.Generate` | workload/pipelines/generator.py:52-62 | the loop writes the changes of the frame, repeated, counts its events, and never falls back to an extra purchase; wherever it stops, the database is where a run of enabled steps leads |
| `Generator.WholeFrames` | workload/validation/smoke.py:60-75 | `m` frames change exactly 56 rows each, with a fixed number for every table |
| `Generator.MixedInserts` | workload/validation/smoke.py:91-102 | what `m` frames insert, table by table |
| `Smoke.RowsAreChanges` | workload/validation/smoke.py:60-75 | a log that carries the events has as many rows, in all and by table, as the events changed |
| `Smoke.DrainedExactly` | workload/README.md:46-50 | once nothing is pending, deduplicating by `event_id` leaves exactly one event for each row of the log |
| `Smoke.DrainFrames` | workload/pipelines/cdc.py:27-46 | draining a log that carries `m` frames reports `56 m` changes whatever happened before, and everything is landed |
| `Smoke.NewObjectsExactly` | workload/validation/smoke.py:117-135 | with nothing half-landed before, the objects a drain adds hold exactly the pending changes, each with its own `event_id` |
| `Smoke.GenerateThenDrain` | workload/validation/smoke.py:60-136 | `m` seconds of the generator and one drain land `56 m` changes, the new objects hold that many lines and no event twice, exactly those of the log, and the fact tables grow by the fixed mix |
| `Snapshot.SnapshotKeys` | workload/README.md:26-29 | unique keys and dimension references hold over history and live rows read at different times |
| `Snapshot.SnapshotCounts` | workload/pipelines/batch.py:246-308 | Gold count totals equal Silver row counts whatever the writer commits between the table reads |
| `Snapshot.HistMoney` | workload/pipelines/history.py:79-105 | generated items are worth what generated transactions are |
| `Snapshot.SnapshotMoney` | workload/pipelines/batch.py:141-160 | the product total exceeds the other three by exactly the purchases committed between the reads of transactions and items |
| `Snapshot.QuiescentMoney` | workload/pipelines/batch.py:141-160 | all four totals agree if and only if nothing was bought in that gap |
| `BatchOverLive.SkewedSnapshot` | workload/pipelines/batch.py:141-160 | over any history with two items per transaction and the seeded database, one purchase between two reads is a possible snapshot from which both layers build, and its product total is too high by that purchase |
| `Catalog.EnsureNamespace` | workload/lakehouse/catalog.py:61-64 | afterwards the namespace exists with the tables it had; a failure changes no table |
| `Catalog.RemoveNamespace` | workload/lakehouse/catalog.py:67-73 | removes the namespace with all its tables and nothing else |
| `Publish.MovedStep` | workload/pipelines/batch.py:371-375 | replacing one more table is a purge followed by a rename |
| `Publish.PublishLayer` | workload/pipelines/batch.py:368-376 | makes exactly the purges and renames that come before the failing call, or with it when only its answer is lost; without a failure it replaces exactly the given tables and drops an emptied staging namespace |
| `Batch.BuildSilver` | workload/pipelines/batch.py:228-315 | touches its staging namespace only; without faults it succeeds exactly when all bronze tables are there with their manifest counts |
| `Batch.BuildGold` | workload/pipelines/batch.py:318-365 | touches its staging namespace only; without faults it succeeds exactly when no model is empty |
| `Batch.Run` | workload/pipelines/batch.py:379-404 | staging is removed and only the final namespaces change; it succeeds exactly when both layers build and no call fails, and otherwise the final tables have seen exactly the moves before the failure, Silver before Gold |
| `BatchRuns.OutcomeKeeps` | workload/pipelines/batch.py:390-404 | no run, failed or not, leaves a Gold table newer than a Silver table |
| `BatchRuns.OutcomeMisses` | workload/pipelines/batch.py:371-404 | a failed run adds at most one missing table; a successful one leaves none missing and one batch id |
| `BatchFailures.FailedRunIsWholeIff` | workload/pipelines/batch.py:368-404 | a failed run leaves the final layers as they were, or all of its own batch, if and only if its failing call comes before the first purge or rename to take effect or after the last |
| `BatchFailures.FailAfterMoves` | workload/pipelines/batch.py:368-404 | a healthy run and then one that fails after one or two moves: Silver is one table short, or complete but of two batches |
| `BatchRuns.RunsKeep` | workload/pipelines/batch.py:368-404 | over every sequence of runs Silver stays at or ahead of Gold |
| `BatchRuns.RunsMiss` | workload/pipelines/batch.py:368-404 | over every sequence of runs at most one table per failed run goes missing |
| `BatchRuns.Repaired` | workload/pipelines/batch.py:368-404 | one successful run repairs any state; later failed runs can only undo one table each |
| `BatchRuns.RunMany` | workload/pipelines/batch.py:379-404 | the job started any number of times on one catalog keeps the order of the layers and the bound on missing tables, and every success leaves one batch |
| `BatchCheck.CheckBatch` | workload/validation/batch.py:68-155 | accepts exactly the catalogs with one complete, consistent batch and no staging, and returns its id |
| `BatchCheck.SuccessIsAccepted` | workload/validation/batch.py:68-155 | a successful run over clean final namespaces is accepted while PostgreSQL holds what the run read |
| `BatchCheck.NonEmptyIff` | workload/pipelines/batch.py:358-360 | no Gold model is empty if and only if there are transactions, vendors, buyers and products |
| `BatchCheck.AcceptedIff` | workload/validation/batch.py:56-108 | with whatever counts PostgreSQL has when the validator runs, a successful run is accepted, under its own id only, if and only if these are the counts the run read |
| `BatchOverLive.LiveBatchAcceptedIff` | workload/validation/batch.py:56-155 | a successful run over history and a live database is accepted by a validator that counts later if and only if no table was inserted into between its own read and its own count |
| `BatchOverLive.AcceptedBatchBalances` | workload/validation/batch.py:56-155 | a batch accepted after the run holds the same money in all four Gold models |
| `BatchOverLive.RejectLateSale` | workload/validation/batch.py:68-155 | a successful run that is accepted before one more sale and rejected after it |
| `BatchOverLive.GoldBuildsIff` | workload/pipelines/batch.py:358-360 | over the seeded universe the Gold build succeeds if and only if there is a transaction |

## Left out

- Average and latest-timestamp columns of Gold, and the order of its rows: no total or count depends on them.
- Rows beyond the columns Gold and the writer use: session decoration, fraud scores, risk profiles, regions of live rows.
- Parquet, gzip and JSON encodings and the JSON-to-string rewriting: taken as lossless.
- SHA-256: modelled by the text it is applied to, which is shown to be unambiguous.
- float4 rounding of prices and double rounding of sizes: exact integers and reals stand for them.
- Creation of the replication slot, slot invalidation by the WAL cap, and a second consumer on the same slot.
- The quoting helpers for SQL identifiers and literals.
- Process wiring: signals and sleeping appear as choices of the schedule, command lines and printing not at all.
- Random distributions: every draw in range is allowed.
- `check_cdc`, the dimension samples of `check_history`, and column-name checks: they add easy members only.
- Failure of the cleanup after a failed batch, and two batches at once.
- The batch report object written after a successful run, and staged data files in object storage.
- `Batch.Run`: a failure of PostgreSQL, DuckDB or the object store is treated as the failure of the next catalog call.
- `BatchCheck.CheckBatch`: does not compare the column names of the tables.
- `LiveRuns.RunKeeps`: settling a payment or completing a transaction is allowed for any identifier, not only remembered ones.
- `History.ByteModeBound`: needs file sizes that are nearly linear in the rows; for arbitrary sizes only `ProducedFinishes` holds.
