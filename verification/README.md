# A verified model of the event-sourced exchange

The exchange is a pair of record streams. A gateway appends inbound records, a matcher answers them on the
outbound stream, and everything else — the ledger and its database tables, the gateway's risk state, the fan-out
books and bars, the archive — is a fold of the outbound stream. This project models those parts and proves what they
promise over whole runs, crashes, lost replies and failed writes included.

| part | files |
|---|---|
| price-time priority and the abstract engine | `Contracts`, `PriceTime`, `MatchingLoop`, `EngineSpec` |
| what the engine promises its clients, record by record | `EnginePromises`, `CancelPromises`, `EngineAnswers` |
| the C++ book and engine, as classes | `PriceLevels`, `CppOrderBook`, `Bookkeeping`, `SubmitSteps`, `CppStreamEngine` |
| the Python book and engine, as classes | `NaiveModel`, `NaiveAdapter` |
| snapshots, on values and on bytes | `Snapshots`, `LittleEndian`, `SnapshotCodec`, `SnapshotBytes`, `SnapshotLayout` |
| crash recovery, trimming, the matcher's runner | `Streams`, `Recovery`, `MatcherReturns`, `TrimRuns`, `MatcherRunner` |
| folding the outbound stream; the ledger and its tables | `OrderViews`, `MapSums`, `LedgerModel`, `Accounts`, `ReadModel`, `LedgerRuns`, `LedgerService` |
| the gateway's risk accounting and its runs | `RiskModel`, `RiskSteps`, `RiskReplay`, `RiskService`, `Gateway`, `GatewayRuns`, `GatewayClaims`, `CalmRuns`, `LostReplies`, `LateReplies`, `StrayAppends` |
| what changes hands, and what the risk check lets through | `Settlements` |
| write-once outcomes | `Idempotency` |
| fan-out books and bars | `MarketBooks`, `Bars`, `MarketService`, `Views` |
| prints, archived rows and bars, told from the fills | `Prints` |
| the archive | `ArchiveModel`, `ArchiveSpec`, `ArchiveSteps`, `ArchiveRuns`, `ArchiveHistory`, `ArchiveRests`, `ArchiveLosses`, `ArchiveService` |
| the GIF encoder | `Lzw`, `LzwBits` |

Code that changes objects in place is a class whose methods are proved to take a step of a specification function;
the theorems are about that function. A protocol is a state machine whose events are the steps that can be
interleaved, and its theorems hold of every state that any list of events reaches. `dafny verify dfyconfig.toml`
checks everything.

## Model

| member | source | states |
|---|---|---|
| PriceTime.GreedyHasPriority | engine/cpp/order_book.cpp:198-251 | the executions of one arrival respect price-time priority: each involves the newcomer, at the resting order's price, and no crossing order that is better priced or earlier is passed over |
| PriceTime.PriorityIsUnique | engine/naive_model.py:136-173 | price-time priority determines the executions: any two lists that respect it are equal |
| PriceTime.GreedyKeeps | engine/cpp/order_book.cpp:198-251 | after the executions no bid meets an ask, no untouched order changed, and what is left rests with positive quantity |
| MatchingLoop.MatchAllIsGreedy | engine/naive_model.py:136-173 | executing the two best fronts until they no longer cross gives the executions and the remainder of the greedy walk, on any book that only the newest order crosses |
| CppOrderBook.OrderBook.AddOrder | engine/cpp/order_book.cpp:42-64 | an id already present is refused and changes nothing; otherwise the order joins the back of its level's queue and every index stays consistent |
| CppOrderBook.OrderBook.RemoveOrder | engine/cpp/order_book.cpp:66-94 | the order leaves the map, its level and the arrival counter; emptied levels disappear; an unknown id changes nothing |
| CppOrderBook.OrderBook.Match | engine/cpp/order_book.cpp:198-251 | the loop over levels and queues produces exactly the matching loop's trades and leaves its orders, with all indexes consistent |
| NaiveModel.OrderBook.AddOrder | engine/naive_model.py:107-117 | the same, for the book of order objects in dictionaries of queues |
| NaiveModel.OrderBook.RemoveOrder | engine/naive_model.py:122-134 | the same removal, with the order object left as it was |
| NaiveModel.OrderBook.Match | engine/naive_model.py:136-173 | reducing order objects in place produces exactly the matching loop's trades |
| EngineSpec.Parity | engine/cpp/stream_engine.cpp:338-350 | over every inbound sequence the two engines reach the same state, with equally many outputs, and the outputs are identical if and only if no submit breaks both a price-or-quantity rule and a side-or-time-in-force rule |
| EngineSpec.ParityFails | services/matcher/adapter.py:368-385 | one submit with a bad side and a bad price is rejected for different reasons by the two engines |
| EngineSpec.OneAnchorEach | services/matcher/runner.py:68-77 | each of the five record types is answered by exactly one anchor record, and any other record by none |
| EngineSpec.AnchorsCountRecords | services/matcher/runner.py:68-77 | the anchors of a run count its inbound records if and only if all of them are of the five types |
| EnginePromises.IocNeverRests | services/matcher/adapter.py:314-331 | an accepted immediate-or-cancel order never rests: what its answer's fills leave of it is cancelled by the last record, as expired, and there is such a record if and only if something was left |
| EnginePromises.GtcRests | services/matcher/adapter.py:253-333 | an accepted good-till-cancelled order rests if and only if its fills fall short of its quantity, with what is left and every other term as submitted, and its answer cancels nothing |
| EnginePromises.OthersKeepTheRest | services/matcher/adapter.py:310-333 | every other order keeps exactly what the answer does not fill of it, and leaves if and only if nothing is kept |
| EnginePromises.FillsFollowPriority | services/matcher/adapter.py:310-366 | every fill record is the newcomer against a resting opposite order of its symbol within its limit, at that order's price, users and side, for as much as both have left; and its maker is first, by price and then age, of all that have not traded yet |
| EnginePromises.NothingLeftToTake | services/matcher/adapter.py:310-333 | an order is left unfilled only when every opposite order within its limit has traded |
| CancelPromises.CancelTakesItsOwn | services/matcher/adapter.py:387-416 | a cancel takes at most one order, of its own user and with the client id it names, and reports that order's remaining quantity; otherwise it is rejected and nothing changes |
| CancelPromises.IndexIsReached | engine/cpp/stream_engine.cpp:338-432 | over every run, what the index holds for a key is the order last accepted under it in the output, or nothing once any order of that key has left since |
| CancelPromises.CancelTakesTheLast | engine/cpp/stream_engine.cpp:406-432 | so the outbound records alone tell what a cancel will do: take that order, or be rejected |
| CancelPromises.RestingIsCancellable | services/matcher/adapter.py:387-416 | a submit that rests can be cancelled at once under its user and client id, by a cancel with any time and client id of its own, if and only if no other order of that user and client id left while it was matched |
| EngineAnswers.EachAnswered | services/matcher/adapter.py:198-416 | the anchors of a run's output are, one by one and in order, the answers to its records, field by field; a rejected submit names the first rule it breaks in its engine's order |
| EngineAnswers.IdsAreConsecutive | services/matcher/adapter.py:266-267 | accepted orders are numbered 1, 2, 3, ... in the order of acceptance |
| EngineAnswers.OnlyGtcRests | services/matcher/adapter.py:253-333 | whatever rests after a run was accepted in it as good till cancelled, and rests as accepted but for what was filled |
| CppStreamEngine.StreamEngine.Submit | engine/cpp/stream_engine.cpp:338-404 | one submit moves the tables, books and counters to the abstract engine's next state and returns its records, expiry included |
| CppStreamEngine.StreamEngine.Cancel | engine/cpp/stream_engine.cpp:406-432 | a cancel reaches the order the client-id index names, also when live orders share a key, or is rejected |
| CppStreamEngine.StreamEngine.Apply | engine/cpp/stream_engine.cpp:233-249 | every record type: the abstract engine's step under the C++ order of checks |
| CppStreamEngine.StreamEngine.TakeSnapshot | engine/cpp/stream_engine.cpp:161-183 | the rows are the abstract snapshot of the state, ascending by id |
| CppStreamEngine.StreamEngine.Restore | engine/cpp/stream_engine.cpp:187-231 | a fresh engine loads exactly the acceptable snapshots, into the state they describe |
| NaiveAdapter.NaiveMatcher.Submit | services/matcher/adapter.py:253-333 | one submit, with makers forgotten as their fills are reported, is the abstract engine's step |
| NaiveAdapter.NaiveMatcher.FillsAndForget | services/matcher/adapter.py:335-366 | the fill records in execution order, and afterwards the live table and index hold exactly what the abstract engine keeps |
| NaiveAdapter.NaiveMatcher.Cancel | services/matcher/adapter.py:387-416 | the abstract engine's cancel |
| NaiveAdapter.NaiveMatcher.Apply | services/matcher/adapter.py:198-207 | every record type: the abstract engine's step under the Python order of checks |
| NaiveAdapter.NaiveMatcher.TakeSnapshot | services/matcher/adapter.py:141-160 | the rows are the abstract snapshot of the state, including which orders a cancel can reach |
| NaiveAdapter.NaiveMatcher.Restore | services/matcher/adapter.py:162-194 | a new matcher loads exactly the acceptable snapshots, into the state they describe |
| Snapshots.RestoreUndoesTake | services/matcher/adapter.py:162-194 | restoring a snapshot of any reachable engine gives back that engine: id order is arrival order in every queue |
| Snapshots.SnapshotIsTransparent | services/matcher/adapter.py:141-194 | from then on the restored engine answers every sequence of records exactly as the original would have |
| LittleEndian.GetUndoesPut | engine/cpp/stream_engine.cpp:122-138 | reading a field back gives the value written, whenever it fits the width |
| LittleEndian.PutUndoesGet | engine/cpp/stream_engine.cpp:122-138 | writing a field that was read gives back the same bytes |
| LittleEndian.PutLe | engine/cpp/stream_engine.cpp:122-126 | the shift-and-mask loop appends exactly the value's low bytes, least significant first |
| LittleEndian.GetLe | engine/cpp/stream_engine.cpp:128-138 | the loop reads exactly that field, and fails if and only if the input is too short |
| SnapshotCodec.RoundTrip | services/matcher/snapshot.py:69-99 | unpacking what was packed gives the snapshot sorted by id, if and only if its ids are distinct and below the next id; otherwise it is refused |
| SnapshotCodec.PackUndoesUnpack | services/matcher/snapshot.py:82-99 | whatever unpacks is in range and in order, and packs back to the same bytes if and only if every flag byte is 0 or 1 |
| SnapshotCodec.FlagTwoIsLost | services/matcher/snapshot.py:82-99 | one order whose flag byte is 2 unpacks and packs back to other bytes |
| SnapshotBytes.UnpackBytes | services/matcher/snapshot.py:82-99 | the row-by-row loop accepts the same bytes with the same rows as the specification |
| SnapshotBytes.Encode | engine/cpp/stream_engine.cpp:161-183 | the C++ engine writes the very bytes the Python packer does |
| SnapshotBytes.Decode | engine/cpp/stream_engine.cpp:187-231 | the C++ engine reads the rows the Python unpacker does, and refuses the same bytes, once the frame test of `main` (engine/cpp/stream_engine.cpp:505-506) has looked at the magic |
| SnapshotBytes.BytesRestoreEngine | services/matcher/runner.py:124-172 | the bytes of any in-range engine's snapshot unpack and restore to that engine |
| SnapshotLayout.HeadLaidOut | services/matcher/snapshot.py:13-27 | an engine's snapshot begins with `QAS1`, the next id in bytes 4 to 11 and the number of live orders in bytes 12 to 15, and has 52 bytes for each |
| SnapshotLayout.OrderLaidOut | services/matcher/snapshot.py:18-29 | each live order, by ascending id, has its id, client id, user, symbol, side, index flag, price, remaining quantity and time at offsets 0, 8, 16, 24, 26, 27, 28, 36 and 44 |
| SnapshotLayout.LeastSignificantFirst | services/matcher/snapshot.py:48-49 | byte i of a field is its value shifted right by i bytes, modulo 256 |
| Streams.GuardIsExact | services/checkpoint.py:128-145 | the resume guard accepts exactly the positions after which nothing was lost, less those that were themselves trimmed while something newer remains; reading on from an accepted one misses no record |
| Streams.GuardAtEntry | services/checkpoint.py:106-145 | for a position that names a record, the guard accepts if and only if that record is retained, nothing was trimmed, or it is the newest |
| Streams.TrimKeepsPosition | services/checkpoint.py:163-188 | trimming below a minimum never removes the record a later position names |
| Recovery.ExactlyOnce | services/matcher/runner.py:124-246 | in every run of appends, batches, appends that fail before or after landing, crashes, checkpoints, trims and recoveries, the outbound stream is a fresh engine's output on a prefix of the inbound stream, and a running matcher's engine and both positions stand exactly there |
| Recovery.RecoveryAlwaysProceeds | services/matcher/runner.py:124-172 | no reachable start is refused by the guard, and no recovery finds more anchors than inbound records still retained |
| Recovery.TrimIsSafe | services/checkpoint.py:148-188 | with readers' positions read one at a time while they advance, no record after a listed reader's saved position is ever gone, and its restart is not refused |
| Recovery.NeverStuck | services/matcher/runner.py:124-172 | while a tail is replayed, the next read always finds the records that are still owed |
| Recovery.StartsFromTheLastSave | services/matcher/runner.py:124-186 | whatever happened since, a start takes up the very engine and both positions that the last save found in the running matcher, and without a save a fresh engine and the beginnings of both streams |
| MatcherReturns.CrashAndBack | services/matcher/runner.py:124-172 | a crash and the recovery after it change nothing: from any reachable running matcher, whatever the batch size, its own steps lead back to the very system it crashed in |
| MatcherReturns.ArrivalIsAnswered | services/matcher/runner.py:197-215 | once everything is answered, the next record to arrive is answered by the engine's step: its outputs land in one piece, and both positions move to the record and to the last output |
| TrimRuns.TrimHappens | services/checkpoint.py:163-188 | when every listed reader has saved a position, a job left alone can remove any prefix older than the oldest of them, and touches nothing else |
| TrimRuns.OnlySavesMovePositions | services/checkpoint.py:68-79 | a saved position is moved by its own reader's save alone, to where that reader stood |
| MatcherRunner.CountAnchorsAfter | services/matcher/checkpointing.py:37-52 | the batched reads count every anchor after the position, and end on the stream's last id |
| MatcherRunner.Matcher.Recover | services/matcher/runner.py:124-172 | recovery is refused, runs short, or replays exactly as many inbound records as there are anchors past the checkpoint, ending in the engine state of that replay |
| MatcherRunner.Matcher.Step | services/matcher/runner.py:197-215 | one cycle answers the next batch as the engine does, and positions move only when the append landed |
| MatcherRunner.RecoverAgrees | services/matcher/runner.py:124-172 | in every sound system the object's recovery succeeds, on the engine and at the positions the state machine says |
| OrderViews.RunFolds | services/fanout/state.py:82-128 | every record of any run makes sense to a reader of the records before it, and a reader of whole answers holds exactly the engine's live orders |
| OrderViews.OrdersAreConserved | services/ledger/ledger.py:138-222 | for every order, what was accepted is what was filled, cancelled or still rests, at every single record and against the engine's own quantities |
| LedgerModel.RecordConserves | services/ledger/ledger.py:138-222 | one record keeps user cash plus house fees in step with deposits if and only if it does not create an account whose user has a balance |
| LedgerModel.CashConserved | services/ledger/ledger.py:58-222 | for every stream, user cash plus fees is deposits less the balances that creations wrote over |
| LedgerModel.PositionsBalance | services/ledger/ledger.py:138-222 | positions in one symbol sum to zero after any records, self-trades included |
| LedgerModel.LedgerAgrees | services/ledger/ledger.py:138-222 | after any inbound records the ledger's open orders are the engine's live orders |
| Settlements.FeesAreFloors | services/ledger/ledger.py:58-67 | of the notional the resting side pays 2 and the arriving side 10 basis points, each rounded down once over the whole fill |
| Settlements.LedgerSettles | services/ledger/ledger.py:178-208 | a fill moves the arriving user's cash by the notional and the 10-point fee, the resting user's by the notional and the 2-point fee, the units the other way, and the fees to the house; nobody else's, and both for a user on both sides |
| Settlements.RowsAreAcceptances | services/ledger/ledger.py:155-168 | every open row has the original quantity, time in force, time and all other terms of an acceptance of that order |
| Accounts.ExchangeConservesCash | services/ledger/ledger.py:138-222 | with each account created once, before its other events, cash plus fees is exactly the deposits |
| Accounts.InboundConserves | services/ledger/ledger.py:138-158 | answering one inbound record conserves cash if and only if it is not a creation over a balance |
| Accounts.ConservationIsExact | services/ledger/ledger.py:138-222 | cash is conserved after every record of an inbound sequence if and only if no account in it is created over a balance |
| Accounts.CreatingTwiceLosesCash | services/ledger/ledger.py:138-158 | two creations of one account, sent through the engine, deposit two grants and leave one |
| LedgerService.Ledger.Apply | services/ledger/ledger.py:138-222 | the object takes one step of the fold, and the dirty keys it collects are exactly the rows the record touched |
| LedgerService.LedgerConsumer.FlushToDb | services/ledger/consumer.py:112-231 | one transaction replaces the rows as specified, or none of them, whatever the store reports |
| LedgerService.LedgerConsumer.RunBatch | services/ledger/consumer.py:233-264 | one turn of the loop, in which a failure reported by the store makes the next flush a full one |
| LedgerService.LedgerConsumer.Recover | services/ledger/consumer.py:62-79 | the checkpoint and the tail give the books of a genesis replay, and the tables are rewritten in full |
| ReadModel.IncrementalIsFull | services/ledger/consumer.py:112-231 | when the untouched rows already match, writing only the dirty ones gives the full projection |
| ReadModel.FullIsProjection | services/ledger/consumer.py:112-231 | a full flush gives the projection, whatever the tables held, if and only if no account row is of a user the ledger does not know |
| LedgerRuns.SuccessfulFlushIsFull | services/ledger/consumer.py:62-264 | whatever the database held, and over any interleaving of batches, failed flushes, commits whose answer is lost, crashes and recoveries, a flush that commits leaves the projection of a genesis replay over the first account rows, so the projection itself if and only if all of those are of users the ledger knows |
| LedgerRuns.SuccessfulFlushShows | services/ledger/consumer.py:112-231 | row by row, such a flush leaves every balance, every non-zero position, every open order and the fees of the ledger at the record it has reached, and besides only first account rows |
| LedgerRuns.RecoveryShows | services/ledger/consumer.py:62-79 | after a crash anywhere, a recovery that commits has and shows the books of a replay of the whole stream |
| LedgerRuns.StrangerStays | services/ledger/consumer.py:112-231 | a row of a user the stream never names survives a full flush |
| LedgerRuns.EngineOutputArrives | services/ledger/consumer.py:233-264 | whatever the engine emits can arrive, record by record: the consumer's assumption that no order id comes twice is the engine's promise |
| OrderViews.EngineAcceptsOnce | services/matcher/adapter.py:253-333 | the engine never accepts two orders under one id |
| RiskModel.AcceptKeepsBacked | services/gateway/risk.py:337-417 | accepting an order, with or without its own pending reservation, leaves commitments equal to what pending and open orders hold |
| RiskModel.AbandonKeepsBacked | services/gateway/routes_orders.py:134-149 | abandoning a pending reservation gives back exactly what it held |
| RiskSteps.RecordKeepsBacked | services/gateway/risk.py:337-417 | any record that makes sense keeps commitments backed and the gateway's open orders the stream's |
| RiskSteps.ChargeIsCovered | services/gateway/risk.py:58-72 | a fill at any price up to the limit, with its floored fee, costs no more than the per-unit ceiling reserved for that quantity |
| RiskSteps.RecordMirrors | services/gateway/risk.py:337-417 | the open orders stay the stream's through every record if and only if it is not an acceptance that adopts another order's reservation |
| RiskSteps.FillKeepsSolvent | services/gateway/risk.py:313-417 | while commitments are backed, a fill leaves nobody with less cash or inventory than is committed |
| RiskSteps.FillIsSolvent | services/gateway/risk.py:313-417 | even when they are not, a fill leaves everyone covered if and only if it takes neither the buyer's cash nor the inventory of a seller who may not be short below zero |
| RiskSteps.ReserveKeepsSolvent | services/gateway/risk.py:245-296 | reserving what the check allows leaves everyone covered |
| Settlements.GatewaySettles | services/gateway/risk.py:384-410 | a fill moves the gateway's settled cash and positions by the same amounts as the ledger's, whatever it releases |
| Settlements.FeeIsCeiling | services/gateway/risk.py:71 | the fee provided for a unit is 10 basis points of the limit, rounded up |
| Settlements.BuyCheckIsExact | services/gateway/risk.py:245-258 | a buy passes if and only if the uncommitted cash pays for every unit at the limit with some whole fee that covers 10 basis points; otherwise the reason is cash |
| Settlements.SellCheckIsExact | services/gateway/risk.py:260-265 | a sell passes if and only if the seller is a market maker or has the units uncommitted; otherwise the reason is the position |
| Settlements.CheckIsExact | services/gateway/risk.py:245-296 | while everyone is covered, the check passes exactly the orders whose reservation leaves everyone covered |
| RiskSteps.AdoptedLateIsSolvent | services/gateway/risk.py:337-417 | when an acceptance finds no reservation, everyone stays covered if and only if the check of a fresh submit would allow the order at that moment |
| RiskReplay.ReplaySound | services/gateway/risk.py:419-431 | replaying a stream gives backed commitments, no pending order, and the stream's open orders, balances and positions |
| RiskReplay.DumpIsExact | services/gateway/risk.py:128-159 | a live dump is the dump of a replay if and only if commitments are backed and the open orders are the stream's; reservations in flight make no difference |
| RiskReplay.LoadIsExact | services/gateway/risk.py:161-180 | a loaded dump is the replay if and only if the open orders are the stream's and the units committed are backed; cash commitments are recomputed |
| RiskReplay.ReplayIsSolvent | services/gateway/risk.py:419-431 | replaying what has been applied leaves everyone covered if and only if nobody's resting orders hold more than they own |
| RiskReplay.StepSame | services/gateway/risk.py:337-417 | states that differ in zero entries alone stay so through every record |
| RiskReplay.AbandonAfterAcceptance | services/gateway/routes_orders.py:134-149 | releasing what a reservation holds by now, when it is no longer pending, leaves commitments backed if and only if it holds nothing or there is nothing to free |
| RiskService.RiskState.ReserveOrder | services/gateway/risk.py:245-296 | a refusal names the check's reason and changes nothing; otherwise the cash or units are committed, and the caller and the pending table share one object |
| RiskService.RiskState.AbandonOrder | services/gateway/routes_orders.py:134-149 | the pending entry goes if it is the caller's own object, and what the object holds by now is released either way |
| RiskService.RiskState.AdoptOrder | services/gateway/risk.py:350-386 | the pending object itself becomes the open order's |
| RiskService.RiskState.ReleaseFilled | services/gateway/risk.py:320-335 | a partial fill frees its own share and lowers the shared object's quantity, and an exhausted order is dropped |
| RiskService.RiskState.Apply | services/gateway/risk.py:337-417 | the object takes one step of the accounting functions, for every record type |
| Gateway.GiveUpKeeps | services/gateway/routes_orders.py:275-302 | a task may give up before its append runs, while its order waits, or after fills of it were applied: balances, positions, the streams and the other tasks' objects are as they should be |
| Gateway.ScriptKeeps | services/gateway/streams.py:141-149 | an append that runs after its task has gone, or for a key claimed meanwhile, leaves each key with one submit |
| Gateway.ApplyTasks | services/gateway/risk.py:313-386 | through every record, a task holds the pending entry or the very object kept for its open order: fills lower it, a cancel does not |
| Gateway.RestartKeeps | services/gateway/risk.py:419-431 | a restart with orders in flight keeps every invariant of the system |
| Gateway.ApplyRisk | services/gateway/risk.py:337-417 | whatever was released twice, balances and positions stay the stream's and no commitment goes below zero |
| Gateway.AcceptsFollowSubmits | services/gateway/streams.py:141-149 | with each key claimed once, the engine accepts each key once and only after its submit |
| GatewayClaims.ClaimsAndStatuses | services/gateway/streams.py:141-149 | in every run a key is claimed if and only if exactly one order or cancel of it is on the inbound stream, and none has two; a task whose append landed has its own order there, one told of a duplicate lost its key to another, one not answered yet has its append queued |
| GatewayClaims.TasksComeAndGo | services/gateway/routes_orders.py:260-308 | a task is there from its submit until its reply, its giving up, or the end of its gateway |
| GatewayClaims.QueueOutlivesTasks | services/gateway/streams.py:264-360 | a queued append outlives its task and its gateway, and stays as it was sent until it runs or is lost |
| GatewayRuns.StepIsExact | services/gateway/risk.py:337-417 | for each aspect of the gateway's books (the open orders are the stream's; commitments are backed besides; everyone is covered; all of it), a step spoils it if and only if it is one of the steps named for it |
| GatewayRuns.RunIsExact | services/gateway/risk.py:245-417 | a run with tasks giving up and restarts anywhere keeps an aspect right throughout if and only if none of its steps is in it: an acceptance that adopts another order's reservation; a release of what is no longer pending; an acceptance without reservation that the check would refuse, a fill that overdraws, a restart over resting orders that hold too much |
| GatewayRuns.BackedSpendsRight | services/gateway/risk.py:245-417 | while commitments are backed, only the acceptance without reservation can leave somebody uncovered |
| CalmRuns.CalmRunsAreRight | services/gateway/routes_orders.py:260-308 | when tasks give up only once their append is known to have come to nothing, and restarts wait for every order, every aspect is right in every state |
| GatewayRuns.EveryoneIsBacked | services/gateway/risk.py:267-335 | in a run without misadoptions and double releases, committed cash and units are exactly the sums over pending and open orders |
| GatewayRuns.EveryoneIsSolvent | services/gateway/risk.py:245-417 | in a run without misadoptions and overspending steps, nobody has committed more cash than they settled, and only a market maker may be short |
| GatewayRuns.LiveDumpIsReplayedDump | services/gateway/risk.py:128-159 | in every run, a dump with orders in flight equals the dump of a fresh replay if and only if the open orders are the stream's and commitments are backed |
| GatewayRuns.ResumedIsReplayed | services/gateway/risk.py:161-180 | in every run, loading such a dump and applying any further records gives the balances, commitments and orders of replaying everything, if and only if the open orders are the stream's and the units committed are backed |
| LostReplies.LostReplyOvercommits | services/gateway/routes_orders.py:290-295 | a run in which a task gives up while its order waits, and 102 of a user's 100 are committed |
| LateReplies.LateReplyUnbacks | services/gateway/routes_orders.py:134-149 | a run in which a task gives up after its order was accepted: nothing is committed while an open order holds 100 |
| LateReplies.LateReplyOverhangs | services/gateway/routes_orders.py:134-149 | that run goes on: the check lets a second order of 100 through, and a restart finds 200 of the 100 held |
| StrayAppends.StrayAppendMisleads | services/gateway/streams.py:264-360 | a run in which a task gives up before its append has run, and the order is taken for the retry under its key |
| Idempotency.WrittenOnce | services/gateway/streams.py:141-149 | over all interleavings of lookups, claims, rejections, halts, lost replies and retries, a key has at most one record, its stored outcome tells the truth about it, and no key is told two outcomes |
| Idempotency.OutcomesLast | services/gateway/idempotency.py:73-98 | a stored outcome survives everything that can happen afterwards |
| Idempotency.RefetchNeverMisses | services/gateway/idempotency.py:85-98 | a rejection that lost the race finds the outcome that won |
| Idempotency.StoredAsAsked | services/gateway/streams.py:141-149 | in every run a record under a key is an order or a cancel as it was asked for under that key, and a stored rejection is of an order and names the reason it was refused for |
| Idempotency.RetryIsTold | services/gateway/idempotency.py:73-98 | asking again for a key that has an outcome is told it and changes nothing |
| Idempotency.ClaimIsTold | services/gateway/streams.py:141-149 | from any state a request that claims a free key appends its record once and is told where it stands |
| Idempotency.RefusalIsTold | services/gateway/idempotency.py:85-98 | from any state an order refused on a free key has the rejection stored and told, and nothing appended |
| Idempotency.LateRefusalIsTold | services/gateway/idempotency.py:85-98 | a refusal that finds the key taken is told the outcome that took it |
| Idempotency.OutcomeStore.ClaimAndAppend | services/gateway/streams.py:141-149 | either the key was free, and the record and its outcome appear together, or nothing changes and the stored outcome is returned |
| Idempotency.OutcomeStore.RecordRejected | services/gateway/idempotency.py:85-98 | a rejection is stored only on a free key; the stored outcome is returned |
| MarketBooks.MarketAgrees | services/fanout/state.py:82-128 | after any inbound records, each fan-out book is that symbol's part of the engine's orders |
| MarketBooks.Book.Levels | services/fanout/book.py:83-96 | exactly the best prices with resting quantity, best first, each with its whole quantity |
| MarketBooks.TopsDoNotCross | services/fanout/book.py:83-107 | levels taken from an uncrossed book do not meet |
| MarketService.MarketState.Apply | services/fanout/state.py:82-128 | the object moves its book, prints the fill and feeds every bar, as the fold says |
| MarketService.CheckpointLeavesNoTrace | services/fanout/state.py:147-191 | a process that stopped and loaded its checkpoint has, after any further records, the same books and open bars as one that never stopped |
| Prints.TapeIsPrints | services/fanout/state.py:105-112 | over any records, each symbol's tape gains one print for each of its fills, in order, with the fill's price, quantity, aggressor, time and stream position, and nothing else |
| Prints.MarketBarsAreCandles | services/fanout/state.py:113-119 | for every symbol and width, the bars closed in a run and the open one are the candles of the symbol's fills |
| Prints.CheckpointSplitsOutput | services/fanout/state.py:147-191 | what a process closed and printed before its checkpoint, and then what the process that loaded it does, is what one that never stopped closes and prints |
| Views.FourViewsAgree | services/fanout/state.py:82-128 | after any inbound records, the ledger, the gateway's replay and the fan-out books all hold the engine's ids and remaining quantities |
| Views.QuotesNeverCross | services/fanout/book.py:83-107 | the best bid that fan-out quotes is below the best ask it quotes |
| Views.LiveGatewayAgrees | services/gateway/risk.py:337-417 | a live gateway with orders in flight that has caught up holds the engine's orders if and only if its open orders are the stream's, which a run without misadoptions keeps |
| Bars.BarsReconcile | services/fanout/bars.py:93-148 | for trades in time order, the bars are exactly the buckets' open, high, low, close and volume, one bar for each bucket that traded, in order |
| Bars.CandleSays | services/fanout/bars.py:51-66 | a reconciled bar opens and closes at the first and last trade of its interval, reaches exactly from their lowest to their highest price, and adds their quantities up |
| ArchiveSpec.BucketInUnit | services/archiver/state.py:158-165 | a bar's bucket lies inside the flush unit of its trades whenever the width divides the unit |
| ArchiveSpec.BarsFileReconciles | services/archiver/state.py:254-270 | a unit's bars are, width by width, the candles of the same unit's trades |
| ArchiveSteps.Seals | services/archiver/state.py:306-337 | the first record of a later unit seals the open one with every trade and bar that belongs to it, and nothing is late |
| ArchiveSteps.SealedStaysSealed | services/archiver/state.py:209-232 | whatever the state, a record of a sealed unit does not open it again, its trade is counted late, and what waits to be written stays as it was |
| ArchiveSteps.CheckpointIsLeast | services/archiver/state.py:370-383 | the resume point is the one taken before the oldest open unit, or else the least taken before a unit that waits to be written, or else the last record |
| ArchiveRuns.MarkSaves | services/archiver/state.py:370-383 | moving the bookmark keeps everything before it on disk if and only if every file lost to a failed write is there from an earlier process |
| ArchiveHistory.StepSaved | services/archiver/runner.py:141-152 | only a bookmark written over a lost file makes the bookmark wrong, and it always does |
| ArchiveHistory.BookmarkIsExact | services/archiver/runner.py:120-176 | the bookmark can be trusted throughout a run if and only if no such write is in it |
| ArchiveHistory.BookmarkIsSafe | services/archiver/runner.py:120-152 | then it never moves back, and every file of every unit before it is on disk and right |
| ArchiveHistory.FailureIsTheEvents | services/archiver/runner.py:141-176 | what a failing `_write_ready` leaves behind is what the events drain, write some files, and fail leave |
| ArchiveHistory.WholeIsExact | services/archiver/runner.py:120-176 | an idle archive holds exactly the files of the finished units if and only if its bookmark is right and what it lost is on disk all the same |
| ArchiveHistory.CrashesLeaveNoTrace | services/archiver/runner.py:90-152 | with crashes anywhere between applying, writing files and writing the bookmark, an idle archive holds exactly the files of the finished units, each with its unit's rows |
| ArchiveRests.ComesToRest | services/archiver/runner.py:90-152 | from any reachable state, a crash and a restart that is left alone do end in such an idle archive |
| Prints.ArchivedTradesArePrints | services/archiver/state.py:240-252 | in such an archive, a finished unit has a trades file for a symbol if and only if the symbol traded during it, and the rows are those fills, as many, in order, with their price, quantity, aggressor, time and stream position |
| ArchiveHistory.SameFiles | services/archiver/runner.py:90-152 | so an interrupted and an uninterrupted archive of the same stream are equal |
| ArchiveHistory.ArchivedBarsReconcile | services/archiver/state.py:240-337 | in every run, every archived bars file reconciles, width by width, with the trades of its unit |
| Prints.ArchivedBarsAreCandles | services/archiver/state.py:254-270 | and every archived bars file has, for every width, the candles of the fills of its symbol during its unit |
| ArchiveLosses.FailedWriteIsForgotten | services/archiver/runner.py:159-176 | a run in which one write fails, the process goes on, and the next bookmark passes a trade that is in no file |
| ArchiveService.BarBuilder.AddTrade | services/fanout/bars.py:117-139 | one trade extends the open bar or closes it and opens another |
| ArchiveService.BarBuilder.Flush | services/fanout/bars.py:141-148 | after the last bar is closed, the bars reconcile with the trades |
| ArchiveService.ArchiveState.ForceCloseBars | services/archiver/state.py:306-324 | every bar whose bucket has ended is filed, symbol by symbol, and no other |
| ArchiveService.ArchiveState.SealEarlier | services/archiver/state.py:326-337 | earlier units are sealed oldest first, after their bars were closed |
| ArchiveService.ArchiveState.Apply | services/archiver/state.py:167-206 | the five steps of one record, in their order, are the specification's step |
| ArchiveService.Archiver.WriteReady | services/archiver/runner.py:141-152 | all drained files are in place before the bookmark moves; when one cannot be written, the units are gone from the state, the files before it are on disk, and the bookmark stays |
| LzwBits.RoundTrip | scripts/recovery_t6.py:740-780 | for every non-empty image, a decoder of Appendix F of the GIF89a specification reads the pixels back, across width growth, full tables and codes not yet defined, with any zero padding |
| LzwBits.LzwEncode | scripts/recovery_t6.py:740-780 | the loop with its bit buffer writes numbers below 256 that decode to the pixels |
| LzwBits.BitOfByte | scripts/recovery_t6.py:768-780 | bit 8k + j of the code stream is bit j of byte k, from the least significant |
| LzwBits.OnePixel | scripts/recovery_t6.py:740-780 | an image of the one pixel 1 is encoded as the bytes 4C 01 |

## Findings

Where the code does not meet a property, a lemma gives an input or says for which inputs it fails, and the exact
condition under which it does meet the property is proved beside it.

- `EngineSpec.ParityFails`: the engines check a submit's rules in different orders, so a submit that breaks one of each
  group is rejected for different reasons. Exact condition: `EngineSpec.Parity`.
- `LostReplies.LostReplyOvercommits`: routes_orders.py:290-295 calls releasing on a lost reply "still right". The cash
  can be promised again before the acceptance arrives, and is then committed twice.
- `LateReplies.LateReplyUnbacks`, `LateReplies.LateReplyOverhangs`: if the task gives up after the acceptance has been
  applied, `_abandon` finds no pending entry but releases all the same what the shared object holds by then: all of it
  before any fill, nothing after a full one, and once more after a cancel.
- `StrayAppends.StrayAppendMisleads`: a cancelled request leaves its append in the queue; if it runs after a retry with
  another price has reserved under the same key, the gateway books the order as the retry.
  Exact condition of all three, for every aspect of the books: `GatewayRuns.RunIsExact`.
- `LedgerRuns.StrangerStays`: recovery rewrites the tables in full, but accounts are upserted and never deleted. Exact
  condition: `ReadModel.FullIsProjection`, and over runs `LedgerRuns.SuccessfulFlushIsFull`.
- `Accounts.CreatingTwiceLosesCash`: a second account creation overwrites the balance. Exact condition:
  `Accounts.ConservationIsExact`.
- `ArchiveLosses.FailedWriteIsForgotten`: `run` says that nothing is lost by waiting after an exception, but the units
  were drained before they were written, and a later bookmark passes them. Exact condition:
  `ArchiveHistory.BookmarkIsExact`.
- `SnapshotCodec.FlagTwoIsLost`: a flag byte other than 0 and 1 is accepted and is not written back as it was read.
  Exact condition: `SnapshotCodec.PackUndoesUnpack`.
- The repository's README.md describes intrusive lists and constant-time cancels; the C++ book uses ordered maps, a
  deque and a linear search, and that is what is modelled.

## Left out

- Recovery.ExactlyOnce: the inbound stream carries the five known record types only; any other type yields no anchor, as `EngineSpec.AnchorsCountRecords` says.
- Bars.BarsReconcile: timestamps do not decrease; the same is asked of the records that arrive in the archive's runs.
- Accounts.ExchangeConservesCash: each account is created once, before its user's other events; without that, `Accounts.ConservationIsExact`.
- ArchiveHistory.SameFiles: speaks of runs in which no write fails; `ArchiveHistory.WholeIsExact` covers the others.
- `finish()` of the archiver: after a flush in the middle of a unit, a resumed process writes the same path with the later rows only.
- Book-snapshot rows in the archive: books restart empty, so they are not reproduced; the model keeps only whether a unit has any.
- Rows of a unit are kept by symbol, as the writer splits every table by symbol; the order between symbols is not kept. Stream positions in the archive are record counts.
- Machine widths: prices, quantities, ids and cash are unbounded integers, except in the snapshot codec and byte loops, where every field has its width. `|=` of disjoint byte ranges is an addition.
- The C++ order's client id is carried along and its original quantity omitted; order objects are told apart by id where the Python compares identity.
- Clocks, Redis commands, SQL, Parquet, asyncio queues and HTTP are steps of the state machines or parameters; JSON and compressed checkpoints are structured values.
- A failed append lands, or not, before anything else observes the stream.
- Idempotency keys do not expire.
- Market orders' banded price, the symbol registry, the rate limiter, and error branches that no caller can reach.
- `CppMatcher` in services/matcher/cpp_runner.py: the protocol of `Recovery` is over either engine; only the Python runner is a class here.
- The interior of a stream is never deleted; only trimming removes records, from the front.
- Publishing, halting and health checks, task scheduling of subscribers, bots, metrics, reports, benchmarks and the rest of `scripts/`.
