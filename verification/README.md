# A verified model of the gateway's stateful cores

This Dafny project models the parts of the AI gateway in which a loop, a buffer, an index or a protocol has to
agree with something simple, and proves that it does: for every input, every run and every interleaving the
statements name.  `dafny verify dfyconfig.toml` checks all of it.

Each core is written twice.  Once in the form of the source: a class whose methods update its fields, a loop
with invariants, an in-place array algorithm.  Once as plain functions on values, which the methods are proved
equal to and which the laws are about.

| files | what they model |
|---|---|
| `sequences.dfy`, `options.dfy` | what several modules need to know about sequences and optional values |
| `messages.dfy`, `message_laws.dfy`, `held_messages.dfy` | the tool-call history normaliser, on values and on content arrays that messages may share: idempotence, conservation, exactly which histories come out adjacent, which keep their text order, and which are changed in the caller's hands |
| `stream_invariant.dfy` | the online checker for streamed tool calls, against the shape of each call's own events |
| `rollups.dfy`, `row_columns.dfy`, `aggregator.dfy`, `pipeline.dfy`, `row_names.dfy`, `conservation.dfy` | rollup rows and upserts, what each column holds, the in-memory aggregator, overlapping flushes and the names they leave, what the three tables have in common |
| `rebuild.dfy`, `rebuild_runner.dfy` | the hour-sliced rebuild job against the one-transaction rebuild |
| `pricing.dfy`, `settlement.dfy`, `accounting.dfy` | what an entry costs, settling reports exactly once, and quota against rollups |
| `reporter.dfy`, `report_order.dfy` | the agent's usage reporter with overlapping flushes, and when they keep the order of entries |
| `routing_graph.dfy`, `routing_changes.dfy` | the routing validator's search, and what a change of some routings does to the cycles and paths of the graph |
| `routing_validation.dfy`, `routing_store.dfy` | the validators over the caching name provider with its failing queries, and the stored routings with their three mutations |
| `routing_laws.dfy`, `routing_limits.dfy`, `routing_twins.dfy` | what the mutations keep over every table and every run, and concrete ones that break it |
| `lru_cache.dfy`, `cache_coherence.dfy`, `cache_recency.dfy`, `token_store.dfy` | the entity cache, its coherence with the master, which entry a full one gives up, the token index over it |
| `route_index.dfy` | the agent route index and its four matching tiers |
| `cost_trend.dfy`, `trend_order.dfy` | the top-N stacked cost trend, and when its series order repeats a name |

Dates are day numbers, prices and ratios exact reals, prices truncate as in the source, and integers are
unbounded.  Clocks, failing reads and writes, loader answers and delivery results are parameters.  Where Go ranges
over a map the model picks an arbitrary order, and every statement holds for all of them.

## What the code does that its documentation does not say

- The normaliser promises not to mutate its input (internal/agent/relay/codec/messages.go:31), but it appends
  preamble text inside the caller's content blocks.  `Messages.InputUnchangedIff` says for which histories the
  promise holds, `Messages.InputCanChange` is one for which it does not.  Where another message shares such an
  array it is changed as well (`HeldMessages.SharedIsChanged`).
- Preambles overtake the text of an anchor behind the block they are appended to.  The order of lines is kept
  if and only if, at every anchor, they commute with those (`MessageLaws.NormalizeKeepsLineOrder`,
  `MessageLaws.TextOrderCanChange`).
- An entry of a private channel under an empty stored BYOK mode is zeroed and then goes through the public
  branch, so it is charged nothing while its log shows the public factor (internal/master/billing/settler.go:143-153,
  internal/dao/setting.go:73-79; `Pricing.UnderchargedOnlyByFallThrough`, `Pricing.EmptyModeUndercharges`).  The
  settings endpoint and the seed only ever store the two known modes, under which it cannot happen
  (`Pricing.WritableModesLoseLittle`); it takes a row edited by hand.
- Overlapping aggregator flushes keep every counter but can leave an older name
  (`Pipelines.OverlapCanLeaveOldName`): `RowNames.RowNames` gives, from the schedule, the log whose names a row
  shows, and when it is the newest.  Overlapping reporter flushes can reorder entries (`Reporting.OverlapReorders`);
  `ReportOrder.SentInOrderIff` says exactly when they do.
- The name provider of the routing validator swallows failing queries: a lookup that fails finds nothing, so a
  cycle behind it is not seen and can be stored (`RoutingLimits.LostLookupStoresCycle`), and a list query that
  fails lets a referenced routing be deleted (`RoutingLimits.MissedListDangles`).  `RoutingLaws.StepBreaksCycles`
  and `RoutingLaws.StepResolves` say exactly which failures do harm; failing writes and model queries never do.
- Renaming a routing checks the references it makes, not those made to it: `RoutingLaws.StepResolves` again,
  and `RoutingLimits.RenameCanDangle`.
- The search is made for the routing being saved, not for those above it, which it can take over the nesting
  limit (`RoutingLimits.DepthCanGrow`) or into a cycle through the saved name (`RoutingLimits.CycleCanArise`), so
  that they cannot be updated any more (`RoutingLaws.UnacceptedIsStuck`).  `RoutingLaws.StepKeepsAccepted` says
  exactly when all of them still pass, by the paths that meet in the saved name.
- That a global routing has no user is stated in a comment (internal/models/model_routing.go:11) but not
  enforced, so two global routings can have one name.  Renaming or deleting the one that lookups found uncovers the
  other, whose members were checked against an older graph: `RoutingTwins.SharedNameStoresCycle` is a run of five
  accepted mutations that ends with a cycle, and `RoutingLaws.StepBreaksCycles` says exactly when that happens.
- A token cached by a load is not in the id index, so deleting it by id leaves it cached
  (`TokenStores.LoadedTokenStays`; `TokenStores.DeleteByIdLeaves` says which tokens stay).
- The series order of the trend can list a name twice when a model is called "others" (`TrendOrder.OthersTwice`);
  `TrendOrder.OrderIsDistinct` and `TrendOrder.OrderRepeats` say for which rows it may and for which it must.
- The models of the trend are chosen by their cost over whole days, but only the window is shown, so a model with
  no cost in it can take the place of the only one that has some (`TrendOrder.EarlyTakesPlace`);
  `TrendOrder.ChosenIsShownTop` says for which rows the choice is also one by what is shown.

## Model

| member | source | states |
|---|---|---|
| `HeldMessages.NormalizeAssistantToolCallSequence` | internal/agent/relay/codec/messages.go:32-131 | for every history, also when messages share arrays, the two-index rewrite gives the output and leaves the arrays as `Rewrite` says; when none that it changes is shared, it returns the normalised history and leaves the caller's as `CallerAfter` says |
| `HeldMessages.UnsharedAgrees` | internal/agent/relay/codec/messages.go:32-131 | then the rewrite of arrays comes to the functions on values that the laws below are about |
| `HeldMessages.SharedIsChanged` | internal/agent/relay/codec/messages.go:106-116 | a user's message that shares the anchor's array and gets the preamble's text |
| `HeldMessages.WalkForward` | internal/agent/relay/codec/messages.go:45-99 | the inner loop collects calls, preamble texts and replies of one segment and stops where the segment does |
| `Messages.MergePreambles` | internal/agent/relay/codec/messages.go:102-124 | the content merge on the caller's array: appends to the first plain text block or adds one; the array stays untouched if and only if it has no such block |
| `Messages.InputUnchangedIff` | internal/agent/relay/codec/messages.go:28-131 | the caller's history is the same after the call if and only if no anchor the rewrite reaches has both a plain text block and absorbed text |
| `Messages.InputCanChange` | internal/agent/relay/codec/messages.go:101-116 | a two-message history that is changed |
| `Messages.NormalizeIdempotent` | internal/agent/relay/codec/messages.go:32-131 | normalising twice is normalising once, for every history, with duplicate ids, unanswered calls and stray replies |
| `MessageLaws.NormalizeConserves` | internal/agent/relay/codec/messages.go:45-128 | the sequence of non-assistant messages and the sequence of all assistant tool calls are exactly unchanged |
| `MessageLaws.NormalizeKeepsLines` | internal/agent/relay/codec/messages.go:45-128 | every line of assistant text is kept, as often as it occurred |
| `MessageLaws.NormalizeKeepsLineOrder` | internal/agent/relay/codec/messages.go:101-124 | in the same order if and only if at every anchor reached the absorbed lines and those behind the block they go into commute |
| `MessageLaws.NoTextToOvertake` | internal/agent/relay/codec/messages.go:101-124 | which they do when no anchor has text behind that block |
| `MessageLaws.SegmentKeepsTexts` | internal/agent/relay/codec/messages.go:45-128 | the stretch an anchor consumes goes on exactly as long as calls are open, over assistants and replies to open calls; its non-empty texts, all and in order, end one block of that anchor, its calls join that anchor, its replies follow it; the rest is normalised by itself |
| `MessageLaws.TextOrderCanChange` | internal/agent/relay/codec/messages.go:106-116 | a two-message history for which the order does change |
| `MessageLaws.MergeTouchesOneBlock` | internal/agent/relay/codec/messages.go:101-124 | all absorbed texts, joined in order, go behind the text of one plain text block or into a new last block; no other block changes |
| `MessageLaws.JoinedWhole` | internal/agent/relay/codec/messages.go:101-116 | texts are joined whole and in order, with one blank line between each two |
| `MessageLaws.ClosedBecomesAdjacent` | internal/agent/relay/codec/messages.go:51-128 | if only assistants and matching replies occur while calls are open, no open call is repeated and all are answered, every anchor of the output is followed by exactly one reply per call |
| `MessageLaws.AdjacentIffClosed` | internal/agent/relay/codec/messages.go:51-128 | with call ids never reused, that condition is also necessary |
| `MessageLaws.AdjacentIsUnchanged` | internal/agent/relay/codec/messages.go:32-131 | an adjacent history passes through unchanged, down to every block |
| `StreamInvariant.AssertStreamingToolCallInvariant` | internal/agent/relay/codec/streaming_invariants.go:15-58 | returns nil if and only if every call event has an id and each id's events are one Start, deltas, one End; an error names the event and the rule it breaks |
| `StreamInvariant.ExplainsIsEarliest` | internal/agent/relay/codec/streaming_invariants.go:15-58 | a reported event is the first that no well-formed stream can have there |
| `StreamInvariant.InterleavingWellFormed` | internal/agent/relay/codec/streaming_invariants.go:12-14 | an interleaving of streams with disjoint ids is accepted exactly when both are |
| `Rollups.BatchMerges` | internal/dao/billing.go:580-632 | a batch upsert merges every delta once, whatever order its rows are in |
| `Rollups.MergeOfFold` | internal/dao/billing.go:525-632 | buffering logs and flushing the buffer is upserting the logs one by one: counters, last_used_at, names, updated_at |
| `Rollups.StripPermuted` | internal/dao/billing.go:295-301 | counters and last_used_at depend only on which logs were counted, not on their order |
| `RowColumns.ColumnsAdd` | internal/dao/billing.go:525-578 | column by column, from the logs' own fields: a row is the one the table had plus the logs of its day or hour with its ids - requests, successes and failures by status, every token and cost column, every latency over the successful or streamed ones, names and updated_at of the last log, the latest time |
| `Aggregation.Database.BatchUpsertTokenDaily` | internal/dao/billing.go:580-632 | for any rows, repeated keys included, a written batch is one upsert per row, a failed one changes nothing |
| `Aggregation.Database.BatchUpsertChannelDaily` | internal/dao/billing.go:894-956 | the same for the channel table |
| `Aggregation.Database.BatchUpsertHourlyBucket` | internal/dao/billing.go:1068-1145 | the same for the hourly table |
| `Aggregation.Aggregator.Submit` | internal/master/billing/aggregator.go:184-310 | the three buffers stay the folds of the logs submitted since the last drain, each with the clock's time if it had none; the flush signal is raised at the row limit |
| `Aggregation.Aggregator.Drain` | internal/master/billing/aggregator.go:371-428 | the row slices list each buffered delta once, and the buffers are empty |
| `Aggregation.Aggregator.Flush` | internal/master/billing/aggregator.go:371-457 | every written table is what one upsert per pending log makes it, a table whose write fails loses exactly this batch, the first error in table order is returned |
| `Aggregation.BatchIsFold` | internal/master/billing/aggregator.go:371-457 | the fast form refines the simple one: flushed rows act like the logs they were made of |
| `Pipelines.RunKeepsInv` | internal/master/billing/aggregator.go:371-457 | for every interleaving of submits, drains, writes and failures: the table is a fold of the written logs, every batch of its own, and each log is stored, in flight, buffered or lost exactly once |
| `Pipelines.CountersSurviveOverlap` | internal/master/billing/aggregator.go:184-457 | stored rows merged with batches in flight and buffered deltas carry the counters and last_used_at of one upsert per log that is not in a lost batch |
| `Pipelines.InOrderIsExact` | internal/master/billing/aggregator.go:184-457 | when batches reach the table in order, whatever is lost: all columns, names included, are those of one upsert per kept log in submission order, and kept and lost logs make up the submitted ones |
| `RowNames.RowNames` | internal/master/billing/aggregator.go:371-457 | for every interleaving, the log whose names a row shows is read off the schedule, and it is the newest kept one if and only if no batch with the row's key that was drained later is written earlier |
| `Pipelines.OverlapCanLeaveOldName` | internal/master/billing/aggregator.go:427-457 | two flushes written in the other order leave the older name |
| `Conservation.RowMeaning` | internal/dao/billing.go:525-578 | a row exists exactly for keys with logs, and holds their sums, their latest time and the names of the last one |
| `Conservation.TotalIsSum` | internal/dao/billing.go:958-1026 | summing rows over any selection of keys is summing the logs that fall under them |
| `Conservation.FoldsConserve` | internal/master/billing/aggregator.go:202-297 | hourly rows sum to their channel row, token and channel totals agree per date, success + failed = requests, 0 <= stream requests <= successes |
| `Conservation.SystemConserves` | internal/master/billing/aggregator.go:184-457 | the same in every reachable state without a lost batch, however the three tables' writes interleave |
| `Rebuilds.HourRange` | internal/dao/billing.go:276-286 | an hour's window holds only logs of that date and hour; an hour outside 0-23 is refused |
| `Rebuilds.SliceMeaning` | internal/dao/billing.go:728-804 | row by row, a slice adds the logs of its hour to what the table had, or to nothing where it empties a row: its hourly ones always, its day's daily ones on request |
| `Rebuilds.RebuiltIsFold` | internal/dao/billing.go:728-804 | after n slices a table is what clearing n slices at once and replaying them in order gives |
| `Rebuilds.SlicesRebuildRange` | internal/dao/billing.go:634-804 | all slices of a range give the counters and last_used_at of the one-transaction rebuild, whatever was stored before |
| `Rebuilds.RebuildRepairs` | internal/dao/billing.go:634-713 | rebuilding a range, open at either end or not, leaves the whole table with the counters of its logs if and only if the rows outside the range had them |
| `Rebuilds.RangeRebuilt` | internal/dao/billing.go:634-713 | row by row: inside the range, its closed ends included, the table is what all logs give, outside it is as it was |
| `RebuildRunner.ResolveTargets` | internal/dao/billing.go:808-825 | no names mean all tables, any unknown name is an error, otherwise exactly the named tables |
| `RebuildRunner.TargetsMeaning` | internal/dao/billing.go:808-825 | which table each of the three names stands for |
| `RebuildRunner.RebuildHourSlice` | internal/dao/billing.go:728-804 | one committed slice rebuilds exactly the targeted tables, a failed one changes nothing |
| `RebuildRunner.RebuildDailyRollups` | internal/dao/billing.go:634-713 | the one-transaction rebuild of the targeted tables over a range that may be open at either end, all or nothing |
| `RebuildRunner.NormalizeRange` | internal/master/billing/rebuild_runner.go:164-182 | a missing end becomes the other one; two missing ends or a reversed range are refused |
| `RebuildRunner.EnumerateDays` | internal/master/billing/rebuild_runner.go:184-203 | every day of the closed range once, ascending |
| `RebuildRunner.RebuildJob.Run` | internal/master/billing/rebuild_runner.go:205-261 | however the job ends the tables hold exactly the committed slices; all slices are done if and only if it succeeded |
| `RebuildRunner.JobMatchesRollups` | internal/master/billing/rebuild_runner.go:205-261 | a succeeded job leaves every targeted table with the counters and last_used_at of RebuildDailyRollups and reports as many logs |
| `Pricing.NeverOvercharged` | internal/master/billing/settler.go:111-155 | the total is the sum of four non-negative buckets and at most factor times raw total |
| `Pricing.UnderchargedOnlyByFallThrough` | internal/master/billing/settler.go:136-155 | it falls short by less than 4 units, except exactly for private entries under an empty stored mode that would cost at least 4 |
| `Pricing.WritableModesLoseLittle` | internal/master/api/system/settings.go:103-110 | by less than 4 under every mode the settings endpoint accepts, and with no stored mode |
| `Pricing.RawIsExactPriceRoundedDown` | internal/master/billing/settler.go:111-124 | the raw total is the exact price less than 4 units rounded down |
| `Pricing.ChargeMonotone` | internal/master/billing/settler.go:111-155 | more tokens of any kind never cost less, bucket by bucket and in total |
| `Settlement.RunKeepsInv` | internal/master/billing/settler.go:87-301 | for any number of concurrent settlers, repeats and failures: rows are the old ones plus the committed ones under new ids, money moved by exactly what they cost |
| `Settlement.SubmittedOnceIffCommitted` | internal/master/billing/settler.go:212-301 | a row is handed to the aggregator (or about to be) once if it was committed and never otherwise |
| `Settlement.QuotaConserved` | internal/dao/user.go:159-173 | quota + used_quota of every user never changes, and used_quota grew by what the user's new rows cost |
| `Settlement.SpentIsTotalCost` | internal/master/billing/settler.go:281-287 | with no negative cost that growth is the plain sum of total_cost |
| `Settlement.BilledNotNegative` | internal/master/billing/settler.go:111-155 | non-negative prices and ratios give no negative cost |
| `Settlement.UsageDatabase.DeductQuota` | internal/dao/user.go:159-173 | moves the amount from quota to used_quota of one user and returns what is left |
| `Settlement.UsageDatabase.InsertAndDeduct` | internal/master/billing/settler.go:212-292 | the transaction: all of insert and deduction, or nothing |
| `Settlement.Settler.SettleOne` | internal/master/billing/settler.go:87-310 | a stored request changes nothing; otherwise one transaction stores a row that is billed by the entry's own fields, takes its total from the user if that is positive, and exactly an inserted log is submitted |
| `Settlement.BillsEntry` | internal/master/billing/settler.go:111-155 | each cost is its own token count at its own price times the factor, cut each time, and the total is the sum of four; free entries and private ones outside the service fee mode cost nothing; a private one takes the service fee, a public one a positive channel ratio; all other columns are copied |
| `Settlement.TransactMeaning` | internal/master/billing/settler.go:212-292 | when a row is stored, what it takes from which user, when that depletes the account, and that otherwise nothing changes |
| `Settlement.SettlesAlone` | internal/master/billing/settler.go:87-301 | an undisturbed settler stores and hands over a new row; a duplicate, or a failing check, ends it |
| `Accounting.UsedQuotaMatchesRollups` | internal/master/billing/settler.go:294-301 | with all rows handed over and no batch lost, used_quota has grown by the total cost of the user's token rollup rows |
| `Reporting.Reporter.Flush` | internal/agent/reporter/reporter.go:76-107 | with nothing else running: an accepted report, and one without a client, empties the buffer into sent or dropped; a rejected one leaves everything as it was, but for the oldest entries above ten buffers' worth |
| `Reporting.FlushMeaning` | internal/agent/reporter/reporter.go:76-107 | the same of the concurrent machine's steps |
| `Reporting.Reporter.OnUsageCompleted` | internal/agent/reporter/reporter.go:45-58 | append, and flush a full buffer, with what that leaves in the buffer, sent and dropped |
| `Reporting.NothingVanishes` | internal/agent/reporter/reporter.go:45-107 | under every interleaving, submitted = buffered + in flight + sent + dropped, as multisets |
| `Reporting.NothingDropped` | internal/agent/reporter/reporter.go:94-104 | over a run in which at most ten buffers' worth is outstanding at any time, and no batch is given up, no entry is dropped |
| `Reporting.SentInOrder` | internal/agent/reporter/reporter.go:76-107 | with one flush at a time the sent sequence keeps submission order |
| `Reporting.OverlapReorders` | internal/agent/reporter/reporter.go:76-107 | a run of overlapping flushes that sends a later entry first |
| `ReportOrder.SentInOrderIff` | internal/agent/reporter/reporter.go:45-107 | entries are accepted in the order they were appended in if and only if every batch is accepted in order and while no older entry is outstanding that a later event accepts |
| `ReportOrder.EntriesInOrder` | internal/agent/reporter/reporter.go:45-107 | then the accepted entries are a subsequence of the appended ones |
| `RoutingGraph.DfsAccepts` | internal/dao/model_routing_validate.go:93-131 | the search accepts exactly when every simple path from the start holds at most 5 routings and closes cycles only on names of real models |
| `RoutingGraph.EdgeMeaning` | internal/dao/model_routing_validate.go:117-128 | a routing leads to what its members refer to, also when their text could be decoded only in part |
| `RoutingGraph.DfsErrorIsReal` | internal/dao/model_routing_validate.go:93-131 | a reported cycle is a real walk to its first repetition and not a model's name; a reported depth error is a simple path of 6 routings |
| `RoutingGraph.DfsIgnoresVisited` | internal/dao/model_routing_validate.go:94-98 | the stored version of the routing under validation does not matter |
| `RoutingGraph.AcceptedBreaksCycles` | internal/dao/model_routing_validate.go:107-116 | every closed walk through an accepted routing meets the name of a real model |
| `RoutingValidation.DfsRouting` | internal/dao/model_routing_validate.go:101-131 | the recursion with its shared visited map computes the search, ends by the depth bound, and unmarks every name when it finds nothing |
| `RoutingValidation.ValidateRouting` | internal/dao/model_routing_validate.go:54-91 | the checks in their order, over what the queries of the caching provider find, failing ones included |
| `RoutingValidation.ValidateAccepts` | internal/dao/model_routing_validate.go:54-91 | a routing that passes has a good name, good members, refs that all resolve and, if global, an accepted graph, by what the lookups found; when no model query fails nothing else is refused |
| `RoutingValidation.BlindRefuses` | internal/dao/model_routing_validate.go:93-131 | a failing model query never lets more through: the search without it gives the same, or the error is a cycle on a model's name |
| `RoutingValidation.BadRefMeaning` | internal/dao/model_routing_validate.go:75-83 | the error names the first member whose ref is empty or found to resolve to nothing; with no failing model query it does not resolve |
| `RoutingValidation.ValidateDelete` | internal/dao/model_routing_validate.go:134-159 | refuses exactly global routings that other listed global routings refer to, with exactly their names |
| `RoutingValidation.NameProvider.GetGlobalRouting` | internal/dao/model_routing.go:192-208 | the memo always answers as the table does, for names whose query does not fail, and with nothing for the others |
| `RoutingValidation.NameProvider.AllGlobalRoutings` | internal/dao/model_routing.go:210-219 | exactly the global rows that the query gives |
| `RoutingValidation.NameProvider.HasModel` | internal/dao/model_routing.go:184-190 | a failing query says that there is no such model |
| `RoutingStores.RoutingStore.Create` | internal/dao/model_routing.go:94-112 | validates, stores, and disables with a second write; each failure leaves what it leaves |
| `RoutingStores.RoutingStore.Update` | internal/dao/model_routing.go:114-156 | only the four allowed keys change, after the whole next row was validated |
| `RoutingStores.RoutingStore.Delete` | internal/dao/model_routing.go:158-170 | removes a row that no listed row refers to |
| `RoutingLaws.CreateStores` | internal/dao/model_routing.go:94-112 | a create without error stores the routing as given, enabled or not; one with an error stores nothing, but for a disabled routing whose second write failed |
| `RoutingLaws.UpdateStores` | internal/dao/model_routing.go:114-156 | an update without error changes exactly the given columns of its row, one with an error nothing |
| `RoutingLaws.DeleteRefused` | internal/dao/model_routing.go:158-170 | a delete is refused for global routings that other listed ones refer to, with exactly their names, and otherwise done |
| `RoutingLaws.WhyRefused` | internal/dao/model_routing_validate.go:54-75 | which error a bad name or a wrong number of members gives, in the order of the checks |
| `RoutingChanges.ChangeBreaksCycles` | internal/dao/model_routing_validate.go:93-131 | after any change of routings the cycles are broken if and only if no changed name lies on one that meets no model |
| `RoutingLaws.StepBreaksCycles` | internal/dao/model_routing.go:94-170 | over every table: a mutation that goes through keeps every cycle of global routings on a real model's name if and only if a routing that it uncovers, and one whose lookup failed together with the saved one if that will be found, lies on no cycle without a model |
| `RoutingLaws.UniqueBreaksCycles` | internal/dao/model_routing.go:94-170 | with unique names only failed lookups matter |
| `RoutingLaws.RunBreaksCycles` | internal/dao/model_routing.go:94-170 | over every run of mutations that meet that condition, renames and failures included, every cycle of global routings passes through a real model's name |
| `RoutingLaws.AnsweredRunBreaksCycles` | internal/dao/model_routing.go:94-208 | so with all lookups answered, and nothing uncovered, that holds after any run, whatever writes, model queries and list queries fail in it |
| `RoutingLaws.LegalRunCovers` | internal/models/model_routing.go:9-14 | nothing is ever uncovered when no created global routing has a user |
| `RoutingTwins.SharedNameStoresCycle` | internal/master/api/model_routing/create.go:17-31 | five accepted mutations, without any failure, of which the last, a rename, uncovers a routing and stores a cycle without a model |
| `RoutingLimits.LostLookupStoresCycle` | internal/dao/model_routing.go:200-204 | a three-row table and an update that stores a cycle without a model while one lookup fails |
| `RoutingLaws.StepResolves` | internal/dao/model_routing.go:94-170 | over every table: a mutation that goes through keeps every member of every global routing resolved if and only if, before it, a model or another global routing has the old name, or no other routing refers to it - for a delete, and for a rename, whose new members must not either |
| `RoutingLaws.RunResolves` | internal/dao/model_routing.go:94-170 | over every run of such mutations every member of every stored global routing resolves, and member lists hold 1 to 32 entries |
| `RoutingLaws.RunKeepingNames` | internal/dao/model_routing.go:94-219 | so it holds after any run without renames in which no list query fails, whatever else does |
| `RoutingLimits.RenameCanDangle` | internal/dao/model_routing.go:114-156 | a two-row table and an accepted rename that leaves a member without a target |
| `RoutingLimits.MissedListDangles` | internal/dao/model_routing.go:210-219 | a two-row table and a delete that does, while the list query fails |
| `RoutingChanges.ChangeKeepsAccepted` | internal/dao/model_routing_validate.go:85-131 | when all routings pass the search, they all still do after a change if and only if, at each changed name, a path into it and a disjoint one out of it hold at most 5 routings together and the second leads back to neither but by a real model's name |
| `RoutingLaws.StepKeepsAccepted` | internal/dao/model_routing.go:94-170 | the same for each mutation over every table, for the global routings that lookups find: the changed names are the saved one and one that is uncovered |
| `RoutingLaws.RunKeepsAccepted` | internal/dao/model_routing.go:94-170 | over every run of such mutations all of them pass the search |
| `RoutingLaws.SavedIsAccepted` | internal/dao/model_routing_validate.go:85-89 | with all lookups answered the saved routing would pass again in the graph it leads to, if and only if it has no harmful path to one that it uncovered |
| `RoutingLimits.DepthCanGrow` | internal/dao/model_routing_validate.go:85-105 | six rows that all pass and an accepted update after which the first nests six deep |
| `RoutingLimits.CycleCanArise` | internal/dao/model_routing_validate.go:107-116 | one row that passes and an accepted create after which it leads back to itself |
| `RoutingLimits.CycleSticks` | internal/dao/model_routing.go:114-156 | from then on no update of it that keeps its name and its members goes through |
| `RoutingLaws.UnacceptedIsStuck` | internal/dao/model_routing.go:114-156 | a routing that does not pass cannot be updated unless its name or its members change |
| `LruCaches.AddKeeps` | internal/agent/cache/entitycache/lru.go:140-142 | an entry goes out exactly when the key is new and the cache full: the least recently used one |
| `LruCaches.SizeIsLength` | internal/agent/cache/entitycache/lru.go:188-190 | the number of entries is the length of the recency sequence and at most the capacity |
| `LruCaches.NewLruCache` | internal/agent/cache/entitycache/lru.go:59-82 | a capacity that is not positive is refused, otherwise the cache starts empty with all counters at zero |
| `LruCaches.LruCache.Get` | internal/agent/cache/entitycache/lru.go:98-121 | hit, negative hit, expiry, miss with and without a loader, with their counters |
| `LruCaches.LruCache.LoadAndStore` | internal/agent/cache/entitycache/lru.go:124-144 | a loaded value is stored, an absent key noted, an error passed on uncached |
| `LruCaches.LruCache.Apply` | internal/agent/cache/entitycache/lru.go:160-172 | apply-if-present |
| `LruCaches.LruCache.Set` | internal/agent/cache/entitycache/lru.go:175-179 | stores, over a negative entry too |
| `LruCaches.LruCache.Delete` | internal/agent/cache/entitycache/lru.go:182-185 | removes and runs the eviction callback for a value |
| `CacheCoherence.RunCoherent` | internal/agent/cache/entitycache/lru.go:94-185 | over all runs cached values are the master's and negative entries are for keys it does not have |
| `CacheCoherence.LookupIsCurrent` | internal/agent/cache/entitycache/lru.go:98-157 | for every capacity, lifetime, eviction history and clock a lookup gives the master's current answer; only a load that is needed and fails gives none |
| `CacheCoherence.SizeBounded` | internal/agent/cache/entitycache/lru.go:59-82 | size never exceeds capacity |
| `CacheCoherence.LookupsAreCounted` | internal/agent/cache/entitycache/lru.go:98-185 | hits + misses + negative hits = lookups, invalidations = removals asked for, load errors <= misses |
| `CacheRecency.EvictsLeastRecent` | internal/agent/cache/entitycache/lru.go:94-185 | after any run, an entry that has to go for another key was used before every other one, where a use is a lookup or a write into the cache |
| `CacheRecency.RunByLastUse` | internal/agent/cache/entitycache/lru.go:94-185 | over all runs the keys are in the order of their last use |
| `CacheRecency.NoteLasts` | internal/agent/cache/entitycache/lru.go:98-157 | a key the loader did not know is answered from the note for exactly the lifetime of negative entries; then, and always without a lifetime, the loader is asked again |
| `CacheRecency.LookupCounts` | internal/agent/cache/entitycache/lru.go:98-144 | a lookup counts a hit for a value, a negative hit for a note that is good, and else a miss, with a load error if the load fails |
| `TokenStores.TokenStore.Set` | internal/agent/cache/store_token.go:36-42 | stores in the cache, lets evictions clear their ids, then indexes |
| `TokenStores.TokenStore.Delete` | internal/agent/cache/store_token.go:45-50 | removes by key with its id |
| `TokenStores.TokenStore.DeleteById` | internal/agent/cache/store_token.go:53-58 | removes what the index leads to |
| `TokenStores.TokenStore.GetById` | internal/agent/cache/store_token.go:67-99 | index, cache, stale branch and fetcher |
| `TokenStores.TokenStore.Apply` | internal/agent/cache/store_token.go:104-115 | pushed changes |
| `TokenStores.SetKeepsSound` | internal/agent/cache/store_token.go:36-42 | storing keeps the index sound if and only if no other id leads to the token's key |
| `TokenStores.PushKeepsSound` | internal/agent/cache/store_token.go:104-115 | the same for pushed tokens; pushed deletes always do |
| `TokenStores.PushedDelete` | internal/agent/cache/store_token.go:104-115 | after a pushed delete the token's key is not cached and its id not indexed, all else is as before, and the next lookup by key asks the loader |
| `TokenStores.PushedSet` | internal/agent/cache/store_token.go:104-115 | after a pushed set a cached key holds the token; a store without the key is unchanged |
| `TokenStores.Removed` | internal/agent/cache/store_token.go:45-58 | removing by key or by id takes out exactly one key and its id |
| `TokenStores.SetMeaning` | internal/agent/cache/store_token.go:36-42 | after a set the token is cached at its key and its id leads there; no other entry changes, and one goes only from a full cache |
| `TokenStores.LookupById` | internal/agent/cache/store_token.go:67-99 | an id that is not indexed, or whose key has nothing to answer, asks the fetcher: what it fetches is stored and returned, its failure passed on |
| `TokenStores.DeleteKeepsSound` | internal/agent/cache/store_token.go:45-58 | removing by key or id keeps it sound, and what was removed is gone |
| `TokenStores.GetKeepsSound` | internal/agent/cache/store_token.go:61-63 | loading never puts a wrong entry behind an indexed id |
| `TokenStores.RunSound` | internal/agent/cache/store_token.go:36-115 | after any run in which no key stands for two ids, every indexed id leads to a cached token with that id |
| `TokenStores.IndexedIdHits` | internal/agent/cache/store_token.go:67-82 | a lookup by an indexed id is a hit for that id, without load or fetch: the stale branch is never reached |
| `TokenStores.RunIndexBounded` | internal/agent/cache/store.go:170-191 | the index never outgrows the cache's capacity |
| `TokenStores.LoadedTokenStays` | internal/agent/cache/store_token.go:53-63 | a run after which it is |
| `RouteIndexes.SortRoutesByPriority` | internal/agent/cache/route_index.go:137-145 | the in-place exchange sort gives a descending permutation |
| `RouteIndexes.RouteIndex.RebuildIndex` | internal/agent/cache/route_index.go:102-135 | both indexes hold, once each and sorted, exactly the stored routes of their kind |
| `RouteIndexes.RouteIndex.Load` | internal/agent/cache/route_index.go:67-87 | the stored routes are the given ones, later ids overriding |
| `RouteIndexes.LoadedMeaning` | internal/agent/cache/route_index.go:67-87 | the given routes are stored and no others, of several with one id the last |
| `RouteIndexes.RouteIndex.Put` | internal/agent/cache/route_index.go:90-93 | adds or replaces one route and reindexes |
| `RouteIndexes.RouteIndex.Delete` | internal/agent/cache/route_index.go:96-99 | removes one route and reindexes |
| `RouteIndexes.RouteIndex.Match` | internal/agent/cache/route_index.go:25-64 | the four tiers over the indexes |
| `RouteIndexes.MatchFindsAny` | internal/agent/cache/route_index.go:25-64 | nil exactly when no stored route applies |
| `RouteIndexes.MatchIsHighestTier` | internal/models/agent_route.go:17-33 | otherwise an applicable route of greatest CalcPriority |
| `RouteIndexes.MatchTiers` | internal/agent/cache/route_index.go:25-64 | a channel's route decides only when none of the token does, one for any model only when its source has none for this one |
| `RouteIndexes.MatchIsGreatest` | internal/agent/cache/route_index.go:126-145 | and of greatest stored priority among the routes of its source and model |
| `RouteIndexes.MatchIsScan` | internal/agent/cache/route_index.go:20-145 | with source and model unique the result is that of scanning the stored routes, whatever the map iteration order |
| `CostTrends.CostTrendStackedByModel` | internal/dao/stats.go:1175-1277 | empty for non-admins and empty windows, the query's error if it fails; otherwise the chosen models are a top N by falling total that leaves out no greater one, and the buckets are the regrouped rows |
| `CostTrends.SelectTop` | internal/dao/stats.go:1228-1239 | the selection with removal: the first N by falling cost, none left that exceeds a chosen one |
| `CostTrends.Regroup` | internal/dao/stats.go:1250-1272 | the second pass with its slot map is the row-by-row regrouping |
| `CostTrends.OverlapsIff` | internal/dao/stats.go:1254-1257 | a row is shown if and only if its day, or hour, has an instant in common with the window |
| `CostTrends.SlotsShown` | internal/dao/stats.go:1250-1266 | there is exactly one bucket for each such day or hour with a row, also where the window cuts it, and no other |
| `CostTrends.SlotsInRowOrder` | internal/dao/stats.go:1258-1266 | the buckets come in the order in which the rows first fall in them |
| `CostTrends.SlotsConserveCost` | internal/dao/stats.go:1250-1272 | one bucket for each slot with an overlapping row and no other; its series sum to exactly what those rows cost, name by name |
| `CostTrends.TrendConservesCost` | internal/dao/stats.go:1250-1272 | all series together are the cost of the rows overlapping the window |
| `CostTrends.SeriesAreListed` | internal/dao/stats.go:1267-1276 | every series name is in the series order |
| `TrendOrder.OrderSize` | internal/dao/stats.go:1179-1181 | the order has N names, or one a model if there are no more, five when none are asked for, and one for the rest |
| `TrendOrder.OrderIsDistinct` | internal/dao/stats.go:1219-1276 | no trend of the rows repeats a name if and only if there is no rest, no model is called "others", or N models cost more than it |
| `TrendOrder.OrderRepeats` | internal/dao/stats.go:1219-1276 | every trend repeats it if and only if there is a rest, a model is called "others", and fewer than N others cost as much |
| `TrendOrder.OthersTwice` | internal/dao/stats.go:1219-1276 | two rows for which the order is "others", "others" |
| `TrendOrder.ChosenIsShownTop` | internal/dao/stats.go:1212-1272 | every trend's choice is also a top N by the cost in the window if and only if, among the models that can be chosen, the totals rank no model above one that costs more there |
| `TrendOrder.EarlyTakesPlace` | internal/dao/stats.go:1212-1272 | two rows of one day and a window of its last hour: the chosen model shows nothing, the only one with a cost there is shown as "others" |

## Left out

- HeldMessages.NormalizeAssistantToolCallSequence: messages share whole arrays or nothing; slices that overlap in part, and `append` to a slice of tool calls with spare capacity, which can write behind the caller's, are not modelled.
- Rebuilds.SlicesRebuildRange: says nothing of names and updated_at, which follow hour order in the job and id order in the one-transaction form, so they can differ; logs have a creation time and do not change meanwhile.
- RebuildRunner.RebuildDailyRollups: batches of a hundred logs are one loop; that the database library may refuse to delete without any condition, when both ends are open, counts among the failures.
- Pipelines.CountersSurviveOverlap: one rebuild running beside live flushes, or two rebuilds of one day, are not modelled.
- Settlement.Settler.SettleOne: traces, metrics, log columns that do not enter pricing or rollups, and the depletion event's delivery are left out; looking up prices and settings is a parameter.
- Pricing.NeverOvercharged: exact reals in place of float64, unbounded integers in place of int64.
- Reporting.NothingVanishes: a rejected notification may have arrived all the same; the settler's deduplication, not the reporter, makes that harmless.  The buffer size is not negative.
- RoutingLaws.RunResolves: global routings only; a user routing's members can lose their target later, as deleting a routing looks at global ones alone.
- RoutingLaws.RunBreaksCycles: the set of real models is fixed; one that disappears can leave a cycle that went through its name.
- RoutingLaws.StepKeepsAccepted: says nothing of a global routing that no lookup finds because another one has its name.
- RoutingValidation.ValidateRouting: a name is looked up once a request, so one failure a name is all there is; what a member text that does not parse decodes to is given, not computed.
- CacheCoherence.LookupIsCurrent: loads are one step and pushes arrive in order; loads racing with invalidations and singleflight sharing are not modelled.
- TokenStores.RunSound: operations are sequential; nil tokens, which every method ignores, are left out, as is warming the user cache while loading a token.
- RouteIndexes.RouteIndex.Match: readers running while the maps are being rebuilt are not modelled.
- CostTrends.CostTrendStackedByModel: takes what the query returns, rows or a failure; grains other than hour and day, which no caller passes, and the printed form of labels are left out.
- The three rollup tables share one row type; JSON, SQL text, string formatting and created_at are abstracted away.
- Aggregator.Start and Stop, Snapshot, the job list and its garbage collection, DeleteHourlyBucketsBefore, Peek and Range over a cache: timers and plain reads.
- HTTP, WebSocket and RPC plumbing, forwarding, retries, circuit breakers, scripts, tokenizers, encryption and the web UI: input and output, or behaviour of libraries not in the repository.
- Dashboard queries other than the stacked trend, channel limits, settings parsing, protocol overrides and trace buffers: mostly small case analyses that would add easy members.
