# Client risk history: model and proofs

The repository keeps, for every client, a history of risk attributes: one row per change, each
with a validity window, in a type-2 slowly changing dimension fed by a change log. Facts
(deposits, trades) hold a foreign key to the version in force on their day. This project models
that engine and proves what its steps keep, undo and agree on.

Four procedures write the history, and they do not obviously fit together:

* **streaming** (`scd2_apply` calling `apply_cdc_event`) applies events in arrival order with a
  per-client watermark as the only guard, so late events are dropped for good;
* **reload** (`historical_reload` around `reset_client_for_reload`) deletes a client's tail,
  rolls the watermark back and replays the log in lsn order, while facts point into the rows it
  deletes;
* **fact loading** (`fact_upsert`) looks the version up and, for a client without history, makes
  a one-microsecond stopgap row with a negative lsn;
* **baseline seeding** (`scd2_baseline_seed`) replaces stopgaps by one open row with lsn 0.

## How the proofs are organised

| file | contents |
|---|---|
| Model, Lists, FiniteSets | entities, list and set vocabulary |
| Histories | chains of windows and the unordered as-of lookup |
| ClientCdc | one client: apply, delete guard, reset; the run invariant `Settled` |
| Rewind | a reset undoes exactly the events at or above its lsn |
| Streaming | arrival order: which events are applied, what does not depend on order, what is final |
| Replay, ClientReload | lsn order: placeholder, reset, replay; convergence |
| Stopgaps, StopgapReload | the same two for a client that still has stopgaps under its real rows |
| ReloadAgain | one client reloaded twice, and exactly when that changes nothing |
| Beginnings | the rows a client starts from, before any event of its log |
| Tombstones | the values a tombstone carries after arrivals in any order |
| Database | all tables as one value; every client sees its own events only |
| StreamRuns, StagedEvents | whole streaming runs: conservation, reruns, overlapping runs; what becomes of the staged rows |
| FactIntegrity, ReloadSteps | foreign keys through every statement of one client's reload |
| ReloadRuns, ReloadCount, ReloadTwice | a reload over all affected clients, how many events it hands over, and the same one again |
| Completion, ReloadChoices | every reload can be carried through; when a second one is idle whatever its placeholders copy |
| BaselineSeed, BaselineRuns, SeedTables | seeding one client, a whole seed run, and what it leaves in the tables and counts |
| FactLoad, FactDays | loading facts with stopgaps; which version a fact of a day may be on |
| StopgapRace | concurrent loaders allocating stopgaps under the advisory lock, as a state machine |
| Landing, LandingLogs | how arrival order is assigned in the raw and staging tables, and the change log they amount to |
| Reachability | all six steps in any order over whole lifetimes |
| Lifetimes | convergence over whole lifetimes |
| WatermarkRows, EventKinds | when a watermark implies rows; what it buys that a source never turns a delete into another event or another event into a delete |
| Boundaries | lifetimes and client states just outside the guarantees |
| Warehouse | the class whose fields are the tables and whose methods are the procedures |

The procedures update tables in place, so they are methods of two classes, `Warehouse` and
`LandingTables`. Each method is proved equal to a step on the tables taken as one value
(`Warehouse.State()`, of type `Db`); the theorems are about sequences of those steps.
`LayeredIn(db, logs, c)` is the invariant of every client: its rows with non-negative lsn are a
single chain of windows over its log, none above the watermark, and its stopgaps lie underneath,
never current. `Clean` is the case without stopgaps. `Sound` and `Ready` extend this to all tables.

## Conventions and assumptions

* The version table has two unique keys, the surrogate key and (client, lsn). It is a map indexed
  by the second; the surrogate key is a field, and its uniqueness an invariant (`KeysUnique`).
* Times are integer microseconds from 1970-01-01; 9999-12-31 ends an open window. Balances are
  integer cents. A fact's columns other than client, event day and version key are one opaque
  string; its client stands for the client key.
* Every query without an order (the as-of lookup, the row a placeholder copies, the facts found on
  doomed rows, the set of fact tables, orphan clients, staged facts) is an arbitrary choice, and
  the theorems hold for every choice. The clients of a reload come in the order of an arbitrary
  ranking, which stands for the database's collation.
* Of the change log the proofs assume: per client, lsns are unique and at least 1; commit times
  lie in range and do not decrease with the lsn; a redelivery may change an event's values but
  not its commit time; inserts and updates carry all attributes.
* `Streaming.AppliesStrictMaxima` and the theorems on reruns assume of each client that it has rows or
  nothing of it was applied yet (`RowsOrFresh`). Every state of a lifetime has that as long as
  deliveries keep the kind of an event (`EventKinds.AlwaysRowsOrFresh`); without that promise it
  holds exactly while no reload strips a client of its rows (`WatermarkRows.AlwaysHeardIff`), as
  happens after an insert is redelivered as a delete (`Boundaries.RedeliveryStripsClient`).
* No promise is made about scheduling. `Reachability` lets landing, staging, seeding, streaming,
  fact loading and reloading follow one another in any order, for clients seeded or not. The
  sensor before streaming (`code/dags/dag_factory.py:63-111`) lets a client through without a
  baseline when its first staged event is an insert, and the seed excludes clients whose
  lowest-lsn event is one, so stopgaps can meet real rows; where that costs a property, its exact
  condition is proved.
* A statement that raises is an `ok == false` or `None` result. Fresh surrogate keys are drawn even
  by an insert that conflicts, as identity columns do.

## Where the code and its comments part

Each entry names the theorem with the exact condition and, where there is one, the lemma in
`Boundaries` or `StopgapRace` with an input outside it.

* Comments in `_resolve_risk_snapshot_key` rule out overlaps of stopgaps and real history
  (`code/deriv_pipeline/layers/layer3_warehouse.py:65-75`). A client whose log starts with an insert
  is never seeded, so a stopgap made by an earlier fact stays, and streaming the insert makes a
  lookup with two answers unless every stopgap had ended by its commit time
  (`Stopgaps.StreamKeepsDisjointIff`, `Boundaries.InsertFirstClientIsAmbiguous`).
* The reset reactivates the highest lower lsn whatever its sign. Where only stopgaps survive it
  opens the first one made up to the end of time, and the replay closes it at its first event, over
  any stopgap in between (`StopgapReload.ReloadKeepsDisjointIff`, `Boundaries.ReloadWidensStopgap`).
* Facts of the same date are said to reuse one stopgap window
  (`code/deriv_pipeline/layers/layer3_warehouse.py:81-84`). The lookup is not repeated once the lock
  is held: two loaders with facts at an instant nothing covers can both make one
  (`StopgapRace.AlwaysDisjointIff`, `StopgapRace.SameDayTwice`).
* The reload's placeholder is described as having a negative lsn
  (`code/deriv_pipeline/reload.py:50`); the code gives it the reset lsn minus one. When the replayed
  log starts with a delete, the tombstone copies it, and the reload no longer ends with what its log
  says (`ClientReload.PlaceholderShowsIff`, `Lifetimes.LifetimeConvergesIff`,
  `Boundaries.ComebackDiverges`, `Boundaries.PlaceholderLeavesTombstone`). A seeded client never
  needs a placeholder (`Lifetimes.SeededConverges`).
* `scripts/verify.sh` expects a second reload to leave every row alone. For a client without
  survivors whose log starts with a delete, and with facts to park, it does so only if both
  placeholders copied the same values, and which row is copied is up to the database
  (`ReloadAgain.ReloadIsIdempotentIff`, `ReloadChoices.AnySecondRunIsIdleIff`,
  `Boundaries.SecondReloadDiffers`). Everywhere else rows and watermark come out the same up to
  surrogate keys.
* It also expects the fact lines of `dump_state` to agree. They print surrogate keys, and a reload
  gives every fact on a row it deletes a new one, so they agree if and only if there is no such
  fact (`ReloadRuns.FactDumpsAgreeIff`).
* A run of `scd2_apply` is described as a no-op the second time. A delete that found no row keeps
  being selected unless a later arrival overtook it (`StreamRuns.RerunIsIdleIff`,
  `Boundaries.BareDeleteComesBack`).
* Order does not matter for the current state, except for the values a tombstone carries
  (`Tombstones.ValuesAgreeIff`, `Boundaries.TombstoneDependsOnOrder`).

## Model

| member | source | states |
|---|---|---|
| Histories.LookupIsAsOf | sql/03_cdc_apply.sql:82-92 | the lookup has no ORDER BY, yet over chained windows it can return only the last version to have started, and nothing before the first |
| Histories.WindowsPartition | sql/03_cdc_apply.sql:37-51 | from the first version on, every instant lies in exactly one window |
| Histories.OneAnswerIffNoStopgap | sql/03_cdc_apply.sql:82-92 | for a seeded client the lookup has one answer at every instant if and only if no negative-lsn row is left |
| ClientCdc.AppliedRows | sql/03_cdc_apply.sql:37-65 | an accepted event closes the one open window at its commit time, flips one current flag, changes no other row, and opens its own row with its own values or, for a delete, with those of the highest row |
| ClientCdc.RunKeepsSettled | sql/03_cdc_apply.sql:17-71 | whatever events are handed over in whatever order, the rows of a client without stopgaps stay one chain of windows in lsn order with only the last current and none above the watermark |
| Rewind.ExactRewind | sql/04_backfill_reset.sql:26-48 | after events in lsn order, a reset at L leaves exactly the rows - windows, flags, keys - that applying only those below L would have left, and the watermark at L-1 |
| Rewind.ResetUndoesRun | sql/04_backfill_reset.sql:26-40 | events at or above the reset point are undone completely, in whatever order they had been applied |
| Rewind.ResetKeepsSettled | sql/04_backfill_reset.sql:15-49 | a reset at any positive lsn leaves a chain |
| Rewind.ReplayIsUndone | sql/04_backfill_reset.sql:26-40 | a second reset undoes the replay that followed the first, whatever rows, stopgaps or placeholder it started from |
| ClientReload.ResetTouchesOneRow | sql/04_backfill_reset.sql:26-40 | a reset removes exactly the rows from its lsn on and rewrites nothing but the window end and the flag of the highest row left |
| Streaming.AppliesStrictMaxima | code/deriv_pipeline/layers/layer3_warehouse.py:488-516 | streaming applies exactly the events above the starting watermark and above everything before them; the rest are quarantined, leading deletes of a client without rows as such and all others as stale |
| Streaming.AcceptedDecide | sql/03_cdc_apply.sql:30-35 | rejected events leave no trace: the accepted ones alone give the same rows and watermark |
| Streaming.AcceptedAscend | sql/03_cdc_apply.sql:30-35 | accepted events ascend by lsn, above the starting and up to the final watermark |
| Streaming.TopEventIsCurrent | sql/03_cdc_apply.sql:37-70 | the event with the highest lsn decides the current row and the watermark wherever it stands in the arrivals |
| Streaming.CurrentStateIgnoresOrder | sql/03_cdc_apply.sql:30-70 | two arrival lists of the same events end with the same current lsn, start, status, deleted flag and watermark, and the same values unless the row is a tombstone |
| Streaming.StepKeepsPast | sql/03_cdc_apply.sql:37-51 | an event leaves the answer at every instant before its commit time unchanged |
| Streaming.PastIsStable | sql/03_cdc_apply.sql:37-70 | once a version has started, no later streaming changes any answer before its start |
| Tombstones.ValuesInForce | sql/03_cdc_apply.sql:53-64 | after any arrivals the category and balance in force, a tombstone's included, are those of the last insert or update in the list above the starting watermark and everything before it |
| Tombstones.TombstoneCopiesPrefix | sql/03_cdc_apply.sql:53-64 | when the highest event is a delete, its row carries the values of the highest row there was at its first arrival, whatever arrives later |
| Tombstones.ValuesAgreeIff | sql/03_cdc_apply.sql:53-64 | arrival order and lsn order leave the same category and balance in force if and only if the highest insert or update arrives ahead of every higher delete, or the one applied last in its stead carries the same values |
| Tombstones.StartingValuesStay | sql/03_cdc_apply.sql:53-64 | without an insert or update above the watermark the starting category and balance stay in any order |
| Replay.ReplayJudges | code/deriv_pipeline/reload.py:180-214 | replay in lsn order rejects nothing as stale; only deletes at the head of an empty history are held back |
| Replay.ReplayMatchesLog | code/deriv_pipeline/reload.py:174-214 | after each replayed event the new rows match the log one to one with its values, tombstones carry the values in force before them, and older rows lose at most the last one's open window |
| Replay.AllLand | code/deriv_pipeline/reload.py:180-214 | replayed onto any row at all, every event lands with its own values |
| ClientReload.StepIgnoresKeys | sql/03_cdc_apply.sql:7-72 | the apply function never looks at a surrogate key: states equal up to keys are judged alike and stay equal up to keys |
| ClientReload.PlaceholderLeavesNoTrace | code/deriv_pipeline/reload.py:95-116 | unless the replayed log starts with a delete, a reload with a placeholder ends like one without, and the placeholder's window ends at the first event |
| ClientReload.PlaceholderShowsIff | code/deriv_pipeline/reload.py:95-116 | with nothing below the reset point the placeholder shows in the final rows if and only if the first replayed event is a delete |
| ClientReload.ReloadKeepsSettled | code/deriv_pipeline/reload.py:163-217 | after a reload, placeholder removal included, the rows of a client without stopgaps are one chain over its log again |
| ClientReload.Convergence | code/deriv_pipeline/reload.py:147-217 | stream in any order with repeats, then reload from the earliest event: the rows equal applying the log once in lsn order to the starting rows, if and only if no placeholder met a leading delete; then, with a starting row or a non-delete first, the watermark agrees too |
| Stopgaps.RunKeepsLayered | sql/03_cdc_apply.sql:37-70 | streaming over stopgaps leaves every stopgap as it is and the real rows one chain |
| Stopgaps.LayeredDisjointIff | sql/03_cdc_apply.sql:82-92 | a client's lookups are unambiguous if and only if its stopgaps are disjoint and each had ended when its real rows begin |
| Stopgaps.StreamKeepsDisjointIff | sql/03_cdc_apply.sql:37-51 | after any list of arrivals the windows are disjoint if and only if they were and, for a client without a real row, every stopgap had ended by the commit time of the first event above the watermark |
| StopgapReload.ReloadKeepsLayered | code/deriv_pipeline/reload.py:163-217 | a reload of any client, with stopgaps or without, leaves its real rows one chain over its log |
| StopgapReload.ResetKeepsDisjointIff | sql/04_backfill_reset.sql:32-40 | where no real row survives, the reset opens the highest stopgap to the end of time: windows are then disjoint if and only if the other stopgaps are and had ended when it starts |
| StopgapReload.ReloadKeepsDisjointIff | code/deriv_pipeline/reload.py:163-217 | after the whole reload: where a real row survives windows are disjoint if and only if they were; where none does, if and only if the other stopgaps are disjoint and had ended both when the reopened one and when the replay starts |
| StopgapReload.ReloadMatchesLogIff | code/deriv_pipeline/reload.py:171-214 | for any window and client the rows from the reset lsn on match the raw events with raw's present values, and lower rows keep all but one window and flag, if and only if no placeholder met a leading delete |
| StopgapReload.NothingStale | code/deriv_pipeline/reload.py:180-214 | no replayed event is rejected as stale |
| StopgapReload.ReloadLandsIff | code/deriv_pipeline/reload.py:180-214 | a replayed event ends with its version if and only if some row was there to start from or an insert or update stands at or before it |
| ReloadAgain.ReloadIsIdempotentIff | code/deriv_pipeline/reload.py:147-217 | reloading the same window again gives the same rows and watermark up to surrogate keys if and only if a version survives, the replayed log starts with an insert or update, no placeholder is needed either time, or both placeholders carry the same category and balance |
| ReloadAgain.AnyRepeatIsIdleIff | code/deriv_pipeline/reload.py:100-106 | under a leading delete without survivors the second reload changes nothing whichever rows are copied if and only if all rows to be deleted and all logged inserts and updates carry one value |
| ReloadAgain.RepeatKeepsWindows | code/deriv_pipeline/reload.py:147-217 | whatever values the placeholders carry, the second reload leaves the same windows |
| StopgapReload.RebuildCovers | code/deriv_pipeline/reload.py:128-139 | an instant that a deleted version had reached is covered after the replay by exactly one real row, from the reset lsn on and so not the placeholder |
| Database.HandleIsStep | code/deriv_pipeline/layers/layer3_warehouse.py:489-515 | one round of the loop is one guarded apply on the event's client; facts stay, and the quarantine gains exactly the rejection the verdict names |
| Database.ClientSeesItsOwn | code/deriv_pipeline/layers/layer3_warehouse.py:488-516 | interleaving with other clients' events costs a client nothing but different surrogate keys |
| StreamRuns.HandleKeepsClean | code/deriv_pipeline/layers/layer3_warehouse.py:488-516 | a streaming run over any events keeps every clean client clean |
| StreamRuns.HandleKeepsLayered | code/deriv_pipeline/layers/layer3_warehouse.py:488-516 | and keeps every client's real rows one chain and its stopgaps untouched |
| StreamRuns.SelectedKeepsOrder | code/deriv_pipeline/layers/layer3_warehouse.py:476-486 | the selection is exactly the staged rows whose client has no watermark row or one below their lsn, each once, in staging order |
| StagedEvents.StagedArePassed | code/deriv_pipeline/layers/layer3_warehouse.py:476-516 | after a run every staged event of a client that had rows is at or below that client's watermark |
| StagedEvents.AllStagedPassedIff | code/deriv_pipeline/layers/layer3_warehouse.py:476-516 | after a run all staged events are at or below their clients' watermarks if and only if for each client without rows every delete staged ahead of its first insert or update is overtaken by what is staged from there on |
| StagedEvents.StagedTopIsCurrent | code/deriv_pipeline/layers/layer3_warehouse.py:476-516 | wherever it is staged, a client's event with the highest lsn above the watermark gives the watermark, the highest row, its start, deleted flag and values after the run |
| StreamRuns.EventOnTables | sql/03_cdc_apply.sql:17-71 | what one event leaves in every table: quarantined with its reason, or the current row end-dated, one open row added with the event's values or the highest row's, and the watermark moved |
| StreamRuns.EventAddsOneRow | code/deriv_pipeline/layers/layer3_warehouse.py:488-516 | each event adds exactly one version row or exactly one quarantine row, so the conflict clause never fires |
| StreamRuns.RunConserves | code/deriv_pipeline/layers/layer3_warehouse.py:488-516 | over a run versions and quarantine rows together grow by one per event, none of either is lost, and no fact changes |
| StreamRuns.QuarantineGrows | sql/03_cdc_apply.sql:30-35 | the quarantine keeps its rows and gains, in order, one row with the right reason per rejected event |
| StreamRuns.JudgedAmongItsOwn | code/deriv_pipeline/layers/layer3_warehouse.py:488-516 | in a run over many clients an event is applied if and only if it is a strict maximum among its own client's events |
| StreamRuns.RerunIsIdleIff | code/deriv_pipeline/layers/layer3_warehouse.py:451-486 | a second run selects nothing, and then changes no table, if and only if every delete that came ahead of its client's first row was overtaken by a later arrival |
| StreamRuns.SecondPassIsIdleIff | code/deriv_pipeline/layers/layer3_warehouse.py:476-491 | two runs that selected the same events before taking the lock: the second pass leaves rows and watermark alone if and only if no un-overtaken bare delete meets a row |
| StreamRuns.RunOrderIsImmaterial | code/deriv_pipeline/layers/layer3_warehouse.py:436-446 | two runs over the same events in different orders leave a client with rows in the same current state and at the same watermark |
| StreamRuns.RunKeepsPast | sql/03_cdc_apply.sql:37-70 | no streaming run changes what a lookup before a started version's start returns, down to the key |
| FactIntegrity.EventPersists | sql/03_cdc_apply.sql:7-72 | apply never deletes a row, reuses a key or moves a start |
| FactIntegrity.HandleKeepsIntegrity | code/deriv_pipeline/layers/layer3_warehouse.py:488-516 | so over a run every fact stays on a version of its own client that had started by its day |
| ReloadSteps.ParkOnTables | code/deriv_pipeline/reload.py:57-124 | exactly the facts on the client's rows from the reset lsn on take the key of the highest row below it, or of a placeholder just below it that has always held; no other row or column changes |
| ReloadSteps.ResetOnTables | sql/04_backfill_reset.sql:26-48 | the client keeps exactly its rows below the reset lsn, the highest open and current again, and an existing watermark row stands just below; nothing else changes |
| ReloadSteps.ParkingKeepsIntegrity | code/deriv_pipeline/reload.py:78-125 | moving facts off doomed rows, onto a survivor or a placeholder, keeps each on a version of its own client, one that had started by its day unless the survivor is a stopgap, and clears the tail for deletion |
| ReloadSteps.NoGap | code/deriv_pipeline/reload.py:128-139 | when a parked fact is looked up again exactly one real row covers its day, from the reset lsn on |
| ReloadSteps.ReloadKeepsIntegrity | code/deriv_pipeline/reload.py:44-144 | after repoint, reset, replay, re-resolve and placeholder delete each fact names an existing version of its own client; one that had started by its day, except for facts parked on a stopgap until they are looked up again; both deletes pass the foreign key check and keys stay unique |
| ReloadSteps.TraceReloads | code/deriv_pipeline/reload.py:163-217 | the statements of one client's reload add up to the client-level reload |
| ReloadSteps.OthersUntouched | sql/04_backfill_reset.sql:15-49 | a reload of one client changes no other client's rows or watermark |
| ReloadSteps.OnlyParkedFactsMove | code/deriv_pipeline/reload.py:63-76 | only facts of the client that pointed at deleted rows move, and only their key changes |
| ReloadSteps.FactMovesIff | code/deriv_pipeline/reload.py:53-76 | a fact's key changes if and only if it pointed at a deleted row |
| ReloadSteps.MovedFactsAreAsOf | code/deriv_pipeline/reload.py:128-144 | each moved fact ends on a version whose window contains its day, the only one where windows are disjoint |
| ReloadRuns.ResetPoint | sql/04_backfill_reset.sql:60-63 | the reset lsn is a logged lsn inside the window and no larger than any other of the client inside it |
| ReloadRuns.ReplaysFromWindowOn | sql/04_backfill_reset.sql:60-63 | a client is reloaded if and only if it has an event in the window, and its reset lsn cuts the log exactly at the window's start |
| ReloadRuns.EventsFromLog | code/deriv_pipeline/reload.py:174-179 | the replay list is the client's log from the reset lsn on, complete and ascending |
| ReloadRuns.EventOfLog | code/deriv_pipeline/reload.py:174-179 | each replayed event carries the log's present values |
| ReloadRuns.RunKeepsSound | code/deriv_pipeline/reload.py:162-217 | after each client of a reload all tables are sound and every client's real rows still follow its log over the same stopgap lsns |
| ReloadRuns.OutsideWindowUntouched | code/deriv_pipeline/reload.py:148-157 | no row, watermark or fact of a client without an event in the window changes |
| ReloadRuns.RunReloads | code/deriv_pipeline/reload.py:162-217 | every affected client ends as its own reload says, whatever clients are reloaded around it |
| ReloadRuns.RunLandsFacts | code/deriv_pipeline/reload.py:128-144 | after the run each fact is unchanged or on a version covering its day, the only one where windows are disjoint |
| ReloadRuns.RunMovesFactIff | code/deriv_pipeline/reload.py:63-76 | over a run a fact's key changes if and only if the fact was on a row of an affected client from its reset lsn on |
| ReloadRuns.FactDumpsAgreeIff | code/deriv_pipeline/reload.py:246-253 | the fact lines dumped before and after a reload agree if and only if no fact was on such a row |
| ReloadCount.ReplayedCount | code/deriv_pipeline/reload.py:162-221 | the events handed over are as many as the logged events committed from the window's start on of the clients with an event in the window |
| FactDays.MovedFactIsInForce | code/deriv_pipeline/reload.py:128-144 | a fact a reload moves ends on a version of its client in force at the first instant of its day, the only one where windows are disjoint |
| ReloadRuns.RunMatchesLogIff | code/deriv_pipeline/reload.py:171-214 | after the run an affected client's rows match its log from the reset lsn on if and only if it needed no placeholder or its log starts there with an insert or update |
| ReloadRuns.PlaceholderIffNeeded | code/deriv_pipeline/reload.py:78-116 | a run makes a placeholder for a client exactly where the tables before the run have facts on doomed rows and no row below them |
| ReloadRuns.WindowIsRepairedIff | code/deriv_pipeline/reload.py:10-16 | after a reload an event from the reset lsn on has its version with the log's values if and only if a version survives below, a placeholder was needed, or an insert or update stands at or before it |
| ReloadRuns.ReloadedInOrderIff | code/deriv_pipeline/reload.py:163-217 | from any sound tables and for any window, an affected client ends with the rows and watermark that replaying its log onto the reset client gives, if and only if no placeholder was needed or the log starts there with an insert or update |
| ReloadRuns.WarehouseConverges | code/deriv_pipeline/reload.py:147-222 | from any sound tables, with facts on any rows, a window that reaches a client's earliest event leaves the rows of one lsn-order application of its log to its starting rows, if and only if no placeholder was needed or the log starts with an insert or update; the watermark agrees then too, unless no row is left to account for one set before |
| ReloadRuns.StreamedWarehouseConverges | code/deriv_pipeline/reload.py:147-222 | stream any events of any clients in any order onto tables that hold none of a client's events, then reload from its earliest: the rows are those of one lsn-order application, unconditionally |
| ReloadRuns.StreamingNeedsNoPlaceholder | code/deriv_pipeline/reload.py:78-116 | streaming alone never leads to a placeholder: it takes a fact loaded onto a streamed row |
| Beginnings.RunKeepsStart | sql/03_cdc_apply.sql:37-65 | streaming closes the highest row a client starts from and changes nothing else of its starting rows |
| Beginnings.ReloadKeepsStart | sql/04_backfill_reset.sql:26-40 | a reload of any window leaves the rows a client started from, keys included |
| Completion.WholeRunCompletes | code/deriv_pipeline/reload.py:147-222 | from sound tables a reload of any window can run to its end, whichever doomed rows its placeholders copy |
| Lifetimes.StartStays | code/deriv_pipeline/layers/layer3_warehouse.py:332-343 | over any stretch of a lifetime in which seeds and fact loads find the client begun, its starting rows stay |
| Lifetimes.LifetimeConvergesIff | code/deriv_pipeline/reload.py:147-222 | over such a stretch, whatever was landed, staged, streamed, loaded, seeded and reloaded in whatever order, a full reload at its end leaves the present log applied once to the starting rows of its first state, if and only if no placeholder was needed or the log starts with an insert or update |
| Lifetimes.SeededConverges | code/deriv_pipeline/reload.py:147-222 | from a client's seed on every full reload in every lifetime leaves the rows and the watermark of its present log applied once to its baseline, unconditionally |
| WatermarkRows.ReloadKeepsHeardIff | code/deriv_pipeline/layers/layer3_warehouse.py:492-510 | a reload leaves a client a watermark without rows if and only if it had rows, none survives, no placeholder stands in and the log holds only deletes from the reset point on |
| WatermarkRows.AlwaysHeardIff | code/deriv_pipeline/layers/layer3_warehouse.py:492-510 | in a lifetime every client with a watermark always has rows if and only if no reload strips one in that way |
| EventKinds.AlwaysRowsOrFresh | code/deriv_pipeline/layers/layer1_raw.py:92-99 | while deliveries change no event's kind, every client in every state has rows or nothing of it was applied |
| EventKinds.BegunStays | code/deriv_pipeline/layers/layer1_raw.py:92-99 | while deliveries change no event's kind, a client with a baseline or a logged version always has one |
| EventKinds.BegunConvergesIff | code/deriv_pipeline/reload.py:147-222 | then a full reload at any later time leaves rows and watermark of the present log applied once to the client's starting rows, if and only if no placeholder was needed or the log starts with an insert or update |
| ReloadTwice.SecondReloadIsIdleIff | code/scripts/verify.sh:50-61 | a second reload of a client leaves rows and watermark alike up to keys if and only if a version survives, an insert or update comes first, no placeholder is needed, or both copied the same values; where windows are disjoint each fact is on the same row in any case |
| ReloadTwice.SecondRunIsIdleIff | code/scripts/verify.sh:50-61 | the same condition, on the tables before each run, for two whole runs, whichever order the clients come in |
| ReloadChoices.AnySecondRunIsIdleIff | code/deriv_pipeline/reload.py:95-116 | two whole runs of a window leave every client's rows and watermark as one does, for every client order and every choice of the copied rows, if and only if for each client that needs a placeholder under a leading delete the doomed rows and the logged inserts and updates carry one value |
| BaselineSeed.EarliestOpPerClient | code/deriv_pipeline/transforms.py:46-61 | every client of the records is mapped to the operation of its first record with the lowest lsn, and no other client is |
| BaselineSeed.InsertFirstClients | code/deriv_pipeline/layers/layer3_warehouse.py:396-397 | the excluded clients are exactly those whose first record with the lowest lsn is an insert |
| BaselineSeed.FileOrderIrrelevant | code/deriv_pipeline/layers/layer3_warehouse.py:391-397 | with one record per client and lsn the result does not depend on file order |
| BaselineSeed.ClearingKeepsIntegrity | code/deriv_pipeline/layers/layer3_warehouse.py:290-320 | moving facts off stopgaps before deleting those never breaks a reference |
| BaselineSeed.ClearedRows | code/deriv_pipeline/layers/layer3_warehouse.py:297-320 | clearing takes out exactly the client's negative-lsn rows |
| BaselineRuns.SeedLeavesOneRow | code/deriv_pipeline/layers/layer3_warehouse.py:332-366 | a client without a row above lsn 0 ends with exactly one row, lsn 0, full window, current, and its stopgap facts on it |
| BaselineRuns.SeedRunOutcome | code/deriv_pipeline/layers/layer3_warehouse.py:407-433 | over a whole run every client that is not excluded, has no row above lsn 0 and has a profile row or a stopgap ends on its baseline alone, and an excluded client keeps its rows |
| SeedTables.SeedRunOnTables | code/deriv_pipeline/layers/layer3_warehouse.py:407-433 | a client that is excluded, has a row above lsn 0, or has neither profile row nor stopgap keeps its rows; any other ends with one row at lsn 0, its old one or an open one from 1970 with its first profile row's values or an orphan's unknown ones |
| SeedTables.OrphanIsSeeded | code/deriv_pipeline/layers/layer3_warehouse.py:421-431 | a client with stopgaps and no profile row ends on a baseline of category unknown, balance 0 and status unknown |
| SeedTables.SeedRunMovesFacts | code/deriv_pipeline/layers/layer3_warehouse.py:297-320 | over a run a fact changes in nothing but its key, and that only from a stopgap to the baseline of its client |
| SeedTables.RunCountsNewBaselines | code/deriv_pipeline/layers/layer3_warehouse.py:413-433 | the count is the number of clients with a row at lsn 0 after the run and none before |
| BaselineRuns.SeedRunLeaves | code/deriv_pipeline/layers/layer3_warehouse.py:338-343 | a client with a row above lsn 0, with a baseline and no stopgap, or with neither profile row nor stopgap keeps its rows |
| BaselineRuns.SecondSeedIsIdle | code/deriv_pipeline/layers/layer3_warehouse.py:369-377 | a second run seeds nobody, counts 0 and changes no table |
| FactLoad.StopgapLsnIsFree | code/deriv_pipeline/layers/layer3_warehouse.py:100-104 | the lsn drawn is below every row of the client, and negative where it has no history |
| FactLoad.StopgapAnswers | code/deriv_pipeline/layers/layer3_warehouse.py:105-121 | a new stopgap answers exactly its own instant and changes no other answer |
| FactLoad.LoadAddsOnlyStopgaps | code/deriv_pipeline/layers/layer3_warehouse.py:105-114 | a row a load adds has values unknown, 0, unknown, is neither current nor deleted, has a fresh key and a negative lsn one below the lowest, and covers exactly the first instant of its day |
| FactLoad.LoadOnTables | code/deriv_pipeline/layers/layer3_warehouse.py:170-206 | a load gives the fact its columns and the key of a row covering the first instant of its day; only where none did, for a client of stopgaps alone, is a row added, and no row is changed or lost |
| FactDays.LoadedFactIsInForce | code/deriv_pipeline/layers/layer3_warehouse.py:170-206 | after a load from unambiguous tables each staged row's fact is on the one version of its client in force at the first instant of its day |
| FactDays.NeverOnLaterVersion | code/deriv_pipeline/layers/layer3_warehouse.py:65-75 | in no state of any lifetime is a fact on a version that starts after the first instant of its day |
| Model.DayOfInstant | code/deriv_pipeline/layers/layer3_warehouse.py:174 | an instant belongs to day d if and only if it lies from midnight of d up to midnight of d + 1; time runs from day 0 to 9999-12-31 |
| FactLoad.RunKeepsDisjoint | code/deriv_pipeline/layers/layer3_warehouse.py:77-87 | windows that are disjoint stay so through a load |
| FactLoad.FactLoadIsAsOf | code/deriv_pipeline/layers/layer3_warehouse.py:170-206 | a load that does not raise leaves one fact per staged row on its client's unique version covering midnight of its day |
| FactLoad.SecondLoadIsIdle | code/deriv_pipeline/layers/layer3_warehouse.py:170-206 | a second load of the same rows, in any order, changes no table and draws no key |
| FactLoad.RaisesAsBefore | code/deriv_pipeline/layers/layer3_warehouse.py:90-99 | whether a row raises is decided by the tables before the run |
| FactLoad.LoadKeepsIntegrity | code/deriv_pipeline/layers/layer3_warehouse.py:176-204 | loading keeps every reference sound and keys unique |
| StopgapRace.RunKeepsInv | code/deriv_pipeline/layers/layer3_warehouse.py:53-121 | in every state of every interleaving only the lock holder has uncommitted rows, and what it has checked or computed still holds |
| StopgapRace.RunNeverFailsSpuriously | code/deriv_pipeline/layers/layer3_warehouse.py:53-63 | in no interleaving is an insert swallowed by the unique constraint or a second lookup empty; a loader raises only for a client with history |
| StopgapRace.AddedRowsAreNarrow | code/deriv_pipeline/layers/layer3_warehouse.py:81-84 | every row a run adds has a negative lsn and covers one instant, so windows for distinct days never overlap |
| StopgapRace.OverlapIffCovered | code/deriv_pipeline/layers/layer3_warehouse.py:105-114 | an insert makes two windows overlap if and only if its instant was covered already |
| StopgapRace.AlwaysDisjointIff | code/deriv_pipeline/layers/layer3_warehouse.py:45-64 | for a client without history every interleaving keeps windows disjoint if and only if no two loaders have facts at the same instant that nothing covers at the start |
| StopgapRace.StaleInsertMeansLateCommit | code/deriv_pipeline/layers/layer3_warehouse.py:45-64 | a loader about to insert for an instant covered by now means that another loader committed a row for that instant after this one's miss and before it had the lock |
| StopgapRace.InsertedBeforeTheMiss | code/deriv_pipeline/layers/layer3_warehouse.py:45-64 | that row may have been inserted before the miss |
| StopgapRace.SameDayTwice | code/deriv_pipeline/layers/layer3_warehouse.py:81-84 | an interleaving of two loaders with facts of one day that ends with two windows for the same instant |
| Landing.NumberedByFirstLanding | code/migrations/010_cdc_ingestion_order.sql:11 | a row keeps the sequence number of its key's first landing, however often it lands again |
| Landing.LandingKeepsAligned | code/deriv_pipeline/layers/layer1_raw.py:91-120 | landing new and repeated records keeps staging aligned with raw |
| Landing.StagingMirrors | code/deriv_pipeline/layers/layer2_staging.py:31-52 | a staging pass in raw order makes staging hold raw's rows, values and order |
| Landing.LatestValuesWin | code/deriv_pipeline/layers/layer1_raw.py:92-99 | a key landed again holds the values it landed with last; one that does not land keeps its row |
| Landing.StagingHoldsLatest | code/deriv_pipeline/layers/layer2_staging.py:17-56 | after any sequence of passes staging holds exactly the keys that landed, each with the values it landed with last |
| Landing.ArrivalOrderSurvives | code/deriv_pipeline/layers/layer2_staging.py:17-56 | after any sequence of landings and stagings the staging order of keys is their order of first landing, with the latest values |
| LandingLogs.StagedIsLogged | code/deriv_pipeline/layers/layer3_warehouse.py:476-486 | what a streaming run selects from staging, up to date or behind, is an event of the raw log |
| Reachability.AlwaysOk | sql/01_dimensions.sql:61-75 | in every state of every lifetime of landings, stagings, seeds, streams, loads and reloads in any order, keys are unique, facts are on versions of their own client that had started, and each client's real rows are one chain over its log |
| Reachability.SeededForGood | code/deriv_pipeline/layers/layer3_warehouse.py:323-366 | from its seed on, in every later state of every lifetime, a client's windows partition all of time and the lookup has one answer at every instant |
| Reachability.NeverAmbiguousIff | code/deriv_pipeline/layers/layer3_warehouse.py:65-75 | no lookup in a lifetime ever has two answers if and only if no streaming run hands a client its first event before its stopgaps end and no reload reopens a stopgap over another or past the start of the log |
| Boundaries.InsertFirstClientIsAmbiguous | code/deriv_pipeline/layers/layer3_warehouse.py:388-426 | a lifetime - a fact, a seed that skips the client, its insert landed, staged and streamed - that ends with a lookup of two answers |
| Boundaries.ReloadWidensStopgap | sql/04_backfill_reset.sql:32-40 | a client whose windows are disjoint until it is reloaded |
| Boundaries.PlaceholderLeavesTombstone | code/deriv_pipeline/reload.py:95-116 | a reachable state of a client deleted and inserted again whose every reload leaves a tombstone that lsn-order application does not |
| Boundaries.ComebackDiverges | code/deriv_pipeline/reload.py:95-116 | a whole lifetime - a delete and an insert streamed, a fact loaded onto the insert, a full reload - that does not end with its log applied once to its starting rows |
| Boundaries.RedeliveryStripsClient | code/deriv_pipeline/layers/layer1_raw.py:92-99 | a lifetime in which an insert is streamed, redelivered as a delete and reloaded: the client ends with watermark 1 and no rows |
| Boundaries.SecondReloadDiffers | code/deriv_pipeline/reload.py:100-106 | two reloads of one client whose placeholders copy different rows end differently |
| Boundaries.BareDeleteComesBack | code/deriv_pipeline/layers/layer3_warehouse.py:492-510 | a lifetime in which two streaming runs quarantine the same delete twice |
| Boundaries.TombstoneDependsOnOrder | sql/03_cdc_apply.sql:53-64 | two arrival orders of one update and one delete that leave different categories |
| Warehouse.Warehouse.ApplyCdcEvent | sql/03_cdc_apply.sql:7-72 | the statements in sequence leave the tables the apply step gives: gate, quarantine, end-date, append or tombstone, watermark |
| Warehouse.Warehouse.ResolveRiskSnapshotKey | sql/03_cdc_apply.sql:82-92 | returns the key of some covering row, and nothing only if none covers |
| Warehouse.Warehouse.ResetClientForReload | sql/04_backfill_reset.sql:15-49 | fails exactly when a fact refers to a doomed row; otherwise leaves the tables the reset step gives |
| Warehouse.Warehouse.HandleOne | code/deriv_pipeline/layers/layer3_warehouse.py:489-515 | one loop round of streaming and reload is one guarded apply |
| Warehouse.Warehouse.Scd2Apply | code/deriv_pipeline/layers/layer3_warehouse.py:436-516 | leaves the tables of a streaming run and returns the number of rows selected, which for logged events is the growth of versions and quarantine together |
| Warehouse.Warehouse.RepointFactsForReset | code/deriv_pipeline/reload.py:44-125 | returns exactly the facts on doomed rows with their days and leaves them on the survivor or on a new placeholder |
| Warehouse.Warehouse.ReresolveFactsAfterReload | code/deriv_pipeline/reload.py:128-144 | moves every parked fact to a row the lookup may return and drops the placeholder; fails only on a gap or a remaining reference |
| Warehouse.Warehouse.ReloadClient | code/deriv_pipeline/reload.py:163-217 | runs one client's statements as the trace the reload theorems speak of, and never fails from sound tables |
| Warehouse.Warehouse.HistoricalReload | code/deriv_pipeline/reload.py:147-222 | reloads each affected client exactly once in the order of the driver query, one from where the other ended, returns the number of logged events due, and never fails from sound tables |
| Warehouse.Warehouse.SelectAffected | code/deriv_pipeline/reload.py:148-157 | lists the clients with an event in the window, each once, in collation order |
| Warehouse.Warehouse.RunReload | code/dags/cdc_historical_reload.py:33-44 | a failed reload leaves every table as before |
| Warehouse.Warehouse.RepointAndClearStopgaps | code/deriv_pipeline/layers/layer3_warehouse.py:290-320 | clears the stopgaps, and never fails when the target is not one of them |
| Warehouse.Warehouse.SeedBaselineAndRepoint | code/deriv_pipeline/layers/layer3_warehouse.py:323-366 | leaves the tables of seeding one client and reports a new row exactly when all its rows were stopgaps |
| Warehouse.Warehouse.Scd2BaselineSeed | code/deriv_pipeline/layers/layer3_warehouse.py:369-433 | excludes exactly the clients whose first lowest-lsn record is an insert, seeds profile clients then orphans in any order, returns the number of clients with a new baseline, and never fails from sound tables |
| Warehouse.Warehouse.ResolveOrSeedStopgap | code/deriv_pipeline/layers/layer3_warehouse.py:43-121 | returns a covering row, or raises for a client with history, or makes a stopgap and returns its key |
| Warehouse.Warehouse.FactUpsert | code/deriv_pipeline/layers/layer3_warehouse.py:124-206 | raises exactly when some staged row's client has history but no version covering the day, with the rows before it loaded; otherwise loads every row |
| Warehouse.Warehouse.RunFactUpsert | code/dags/dag_factory.py:30-39 | a load that raises leaves every table as before |
| Landing.LandingTables.Load | code/deriv_pipeline/layers/layer1_raw.py:60-120 | no file is an error; otherwise raw is upserted row by row in file order and the rows are counted |
| Landing.LandingTables.SelectInOrder | code/deriv_pipeline/layers/layer2_staging.py:31-35 | lists every row once, in sequence order |
| Landing.LandingTables.StageTypedPassthrough | code/deriv_pipeline/layers/layer2_staging.py:17-56 | copies raw in raw order, makes staging mirror raw and returns the number of staged rows |

## Left out

- The database itself: SQL text generation, catalogue introspection, JSON and CSV parsing, column types. The two fact tables stand for what the introspection of foreign keys finds.
- Airflow DAGs, sensors and schedules: the steps come in any order, so nothing is assumed of them.
- Interleavings of streaming with reload, with seeding or with fact loads at statement level: a client's critical section between taking the lock and commit is one step, and streaming and fact loading take different locks. `StopgapRace` covers loaders among themselves, `SecondPassIsIdleIff` two streaming runs with overlapping selections. Deadlock freedom is not modelled.
- ResolveOrSeedStopgap: models the `snapshotted_fk` strategy only; with any other the source raises on a miss.
- FactUpsert: does not model resolution of client, date and instrument keys.
- Scd2BaselineSeed: leaves the tables open after a failed delete, which sound tables rule out.
- ApplyCdcEvent: does not model the width of bigint, the timestamp range or an event without attributes; the raw log is assumed to stay within them.
- The rollback of streaming, seeding, landing and staging runs; those of reloads and fact loads are modelled.
- Load: models the typed path of the raw load; the payload path, `stage` and `resolve_header` (sticky flags, header cache) are not part of this model.
- Timestamps of quarantine and staging rows, severities and source file names.
- `dump_state`, reconciliation, `dim_date`, `dimension_upsert`, `derived`, `generated` and `compute_late_arrival`: single loops or expressions that would add only easy members.
- Configuration, data-quality checks, migrations and the health view.
