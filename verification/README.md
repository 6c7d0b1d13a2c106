# A verified model of the research service

This project models the stateful parts of a stock research service in Dafny and proves what they
promise over whole runs: a durable task queue whose single worker resumes checkpointed agent graphs,
gap-free event delivery, a registry of model providers, a portfolio with scheduled close checks and
exact decimal sums, a verified instrument catalog, a decision log kept as text, the routing of the
agent graph, wall times, and the retention of release images.

`dafny verify dfyconfig.toml` checks all of it. Every lemma switches automatic induction off, so its
body is its proof.

## How the model is built

A database transaction, or the replacement of a file, is one atomic step. Where actors interleave,
the model is a state machine: a datatype of actions, one step function, and runs as sequences of
actions, with crashes, restarts, lost files and every clock reading as explicit actions or inputs.
Where the source updates an object, the model has a class with those fields whose methods are proved
against functions on its abstract value; the lemmas are about those functions. Model output, vendor
answers, quotes and graph states are arbitrary values. SHA-256 and HMAC are injective.

| part | modules |
|---|---|
| research engine | `TaskStore`, `Providers`, `Engine`, `EngineSafety`, `Runner`, `Delivery`, `RunPage` |
| decision log | `DecisionLog`, `DecisionRecords`, `DecisionHistory` |
| portfolio rules | `Decimals`, `Money`, `Percent`, `Plans`, `Valuation`, `Overview`, `OverviewLaws`, `Concentrations` |
| portfolio runs | `Portfolio`, `PortfolioService`, `CloseChecks`, `CloseCheckLaws`, `CloseCheckRuns`, `PortfolioOverview` |
| catalog | `Catalog`, `CatalogLookup` |
| agent graph, wall times, images | `AgentGraph`, `WallTimes`, `ImageRelease` |

A few definitions are sealed behind a quantifier over `Wrappers.Unsealed`, with a lemma named
`...Means` that opens them. This only keeps the solver from unfolding them everywhere.

## Where the code falls short of a plain promise

Each of these is proved with the exact condition under which the code keeps the promise.

- `decimal_text` is documented by its use as canonical, but zero has two texts, `0` and `-0`
  (`Decimals.ShowIsCanonical`, `Decimals.ZeroHasTwoTexts`). `positive_decimal` never produces the second.
- `store_decision` scans raw lines, so a stored text with a line that looks like a pending tag keeps
  that key from ever being stored (`DecisionHistory.StoreMeetsItsPromise`, `DecisionHistory.QuotedTagExists`).
- A batch update, reduced to one update per key, always rewrites and rotates the file, while single
  updates do so only on a match; so the two differ exactly when nothing matches and there is something
  to rotate (`DecisionHistory.BatchIsOneByOne`, `DecisionHistory.BatchCanDiffer`). Files the log has
  written under the same cap never get there (`DecisionHistory.BatchIsOneByOneInRuns`): it takes a cap
  lowered between runs, or a file edited from outside.
- A crash between creating the private key file and writing it leaves a file that is never repaired;
  from then on every fresh checkpointed run fails until someone removes it, and nothing else brings
  that about (`EngineSafety.KeyCanBeCutShort`, `EngineSafety.CutShortNeedsACut`,
  `EngineSafety.CutShortRefuses`). Resuming stays safe throughout.

## Model

| member | source | states |
|---|---|---|
| `TaskStore.Store.constructor` | web/store.py:43-95 | An empty store is consistent. |
| `TaskStore.Store.Create` | web/store.py:127-149 | Creating inserts one queued task after every other row, refuses a provider that is not joined, otherwise leaves the tables alone, and keeps them consistent. |
| `TaskStore.Store.ClaimNext` | web/store.py:168-182 | Nothing is claimed while a task runs; otherwise the claimed task heads the queue by (created_at, rowid) and only its status changes. |
| `TaskStore.Store.Append` | web/store.py:184-191 | An event of an existing task extends that task's trace by itself and no other trace, and event ids keep ascending; a missing task is refused. |
| `TaskStore.Store.Save` | web/store.py:200-207 | One section of one task is replaced, its status and every other task unchanged; on a task that has not completed the tables stay consistent. |
| `TaskStore.Store.FinishTask` | web/store.py:209-229 | Succeeds exactly for a known rating, a running task and a nonempty decision equal to its saved section; the task then keeps that decision, no other row changes, and after an announced run the tables stay consistent. |
| `TaskStore.Store.FailTask` | web/store.py:231-244 | Succeeds exactly for a running task, whose sections stay; no other row changes, and after an announced run the tables stay consistent. |
| `TaskStore.Store.RequeueInterrupted` | web/store.py:246-261 | Only an interrupted task is requeued, flagged for resuming. |
| `TaskStore.Store.InterruptAll` | web/store.py:263-276 | The loops over the running rows interrupt exactly those and log one event each; afterwards none runs. |
| `TaskStore.Store.Delete` | web/store.py:278-283 | A task and all its events disappear together, never while it runs. |
| `TaskStore.ChangeKeeps` | web/store.py:200-276 | Any status change whose event is legal in the task's phase keeps every task's event trace a legal life that agrees with its status. |
| `TaskStore.InterruptKeeps` | web/store.py:263-276 | With at most one running task, interrupting all of them is one legal status change. |
| `TaskStore.LegalLife` | web/store.py:168-276 | Every legal trace has milestones (interrupted queued)* followed by at most one of interrupted, completed, failed, and the last milestone fixes the status. |
| `TaskStore.SectionsInsideRuns` | web/worker.py:115-128 | Every section event follows a running event with only sections between. |
| `TaskStore.HeadUnique` | web/store.py:168-182 | The queue's head is unique. |
| `EngineSafety.RequestsLeaveRunning` | web/worker.py:50-68 | While a task runs no request changes its row, deletes it or adds to its events. |
| `EngineSafety.StepKeeps` | web/runner.py:116-235 | Every atomic step of every actor keeps the whole invariant: consistent tables, checkpoint rows bound to their tag, the worker's phase, the history of executions. |
| `EngineSafety.RunKeeps` | web/worker.py:23-136 | So does every sequence of claims, crashes, restarts, requests, losses of private files and worker steps. |
| `EngineSafety.ResumeContinuesOwnRows` | web/runner.py:60-98 | In every run, an execution that resumes starts from a nonempty checkpoint all of whose rows were written earlier by the same task, on the same thread, under the same credentials; any other starts from none. |
| `EngineSafety.ResumeNeedsAnEarlierRun` | web/runner.py:128-135 | A resume is admitted only under a signature and credentials the task has run under before, with the configuration resolved anew for every run; otherwise it is refused. No file changes. |
| `EngineSafety.CutShortNeedsACut` | web/runner.py:72-84 | In every run a key file is left without its bytes only when a crash or an error fell between creating and writing it. |
| `EngineSafety.CutShortStays` | web/runner.py:72-84 | Once cut short the key file stays so in every continuation until it is removed. |
| `EngineSafety.CutShortRefuses` | web/runner.py:72-98 | As long as it does, binding a fresh checkpointed run fails that run, and no step gets it admitted. |
| `EngineSafety.KeyCanBeCutShort` | web/runner.py:72-84 | A concrete run that ends there. |
| `EngineSafety.StartsFreshAtMostOnce` | web/store.py:246-261 | Of one task's executions only the first is fresh. |
| `EngineSafety.FailWork` | web/worker.py:115-136 | Inside an execution `fail` cannot raise, so the worker goes back to idle. |
| `EngineSafety.FinishWork` | web/worker.py:115-136 | Inside an execution `finish` succeeds only with a known rating and the saved decision. |
| `EngineSafety.WorkerSurvives` | web/worker.py:103-136 | In every run at most one task is running, it is the worker's own, and no exception ends the worker thread. |
| `EngineSafety.LivesAreLegal` | web/worker.py:103-136 | In every run each task's events form a legal life that agrees with its status, with sections only inside announced runs. |
| `EngineSafety.EndedForever` | web/store.py:209-276 | Completed and failed are absorbing until the task is deleted. |
| `EngineSafety.CompletedKeepsDecision` | web/store.py:209-229 | A completed task keeps for good a nonempty decision equal to its saved decision section. |
| `EngineSafety.RegistryStaysSound` | web/settings.py:127-200 | Once the joined list is persisted and sound, every interleaving keeps it so: the default provider and every unfinished task's provider are joined, ids and case-folded names unique. |
| `Providers.SettingsService.AddProvider` | web/settings.py:127-154 | Joining a built-in provider is refused unless it is supported, new and its name free; soundness is kept. |
| `Providers.SettingsService.AddCustomProvider` | web/settings.py:127-154 | Joining a custom provider needs a free name of 1 to 64 characters; with a new id soundness is kept. |
| `Providers.SettingsService.EditProvider` | web/settings.py:156-182 | An edit rewrites one provider in place; built-in names and URLs are refused, as are a taken name and a key replaced and cleared at once. |
| `Providers.SettingsService.RemoveProvider` | web/settings.py:184-200 | A provider goes only when joined, not the default and not needed by an unfinished task, in one transaction with that check. |
| `Providers.SettingsService.JoinEach` | web/settings.py:276-293 | The loop that joins keyed built-in providers one by one computes the recursive definition, taken names refused. |
| `Providers.SettingsService.UpdateSettings` | web/settings.py:221-294 | An update joins what it keys, or is refused with nothing changed; soundness is kept. |
| `Providers.RemoveKeeps` | web/settings.py:184-200 | Removal leaves every other provider joined and the removed one gone. |
| `Providers.UpdateKeeps` | web/settings.py:221-294 | An update keeps the registry sound although it saw the default provider in an earlier transaction. |
| `Runner.GraphRunner.CredentialBinding` | web/runner.py:60-98 | With `create` the thread's tag becomes this task's under the one key file, unless that file has been cut short, which changes nothing; without, the files are untouched and the answer is whether the stored tag is the one that would be written. |
| `Runner.GraphRunner.CanResume` | web/runner.py:100-114 | The probe changes nothing and answers: checkpointing is on, the thread has rows, the tag is this task's. |
| `Runner.GraphRunner.Prepare` | web/runner.py:128-174 | A resume is admitted exactly when the probe would say so and touches nothing; a fresh run clears the thread and only then binds it, which fails exactly for a key file cut short. |
| `Runner.GraphRunner.Stream` | web/runner.py:195-205 | The loop with its `previous` dictionary emits exactly the nonblank texts that differ from their section's last nonblank text. |
| `Runner.EmissionsKeepTheLast` | web/runner.py:195-205 | Saving the emissions in order leaves each section's last nonblank text. |
| `Runner.EmissionsChange` | web/runner.py:195-205 | Nothing blank is emitted, and no section twice in a row with one text. |
| `Runner.AdmissionIsItsSteps` | web/runner.py:164-174 | The method's admission is the worker's four crash-separated steps taken together, and a fresh run is admitted exactly unless the key file has been cut short. |
| `Delivery.NextKeeps` | web/worker.py:76-101 | Every step of every actor, of the waiter, the stream and the browser keeps the delivery invariant. |
| `Delivery.ReceivedIsAPrefix` | web/api.py:306-325 | For every interleaving the client has, with what is in flight, exactly a prefix of the task's committed events past its starting cursor, each once and in order, across any number of reconnections. |
| `Delivery.ClosesOnlyAfterTheEnding` | web/api.py:306-325 | A stream that closes by itself has yielded an ending event of the task. |
| `Delivery.NoLostWakeup` | web/worker.py:76-101 | A waiter asleep with no notify to come has nothing left to be delivered. |
| `Delivery.PendingAt` | web/store.py:193-198 | Reading past the cursor of any position returns exactly the rest of what is due. |
| `RunPage.SettlesOnTheLatest` | web/client/src/pages/Run.tsx:42-66 | When no load is under way and the last one succeeded, the page shows a task that reflects every event received: no refresh is lost to the load in progress. |
| `RunPage.KeepsTrying` | web/client/src/pages/Run.tsx:67-102 | Until the task has ended or the page is left, a connection is open, about to be opened or scheduled; after that there is none. |
| `RunPage.RunEffect.Receive` | web/client/src/pages/Run.tsx:42-66 | An ended task closes connection and retry; a request that came meanwhile starts a load that covers everything received; otherwise what is shown reflects every event received. The page invariant is kept. |
| `RunPage.RunEffect.OnEvent` | web/client/src/pages/Run.tsx:74-78 | A newer event moves the cursor, and a load begun after it is under way or owed; an older one changes nothing. The page invariant is kept. |
| `RunPage.RunEffect.OnError` | web/client/src/pages/Run.tsx:79-86 | Afterwards the connection is closed, a retry is scheduled from the same cursor and a load is under way or owed. The page invariant is kept. |
| `RunPage.RunEffect.Connect` | web/client/src/pages/Run.tsx:67-70 | Afterwards a connection is open unless the task has ended or the page is left. |
| `DecisionLog.TradingMemoryLog.StoreDecision` | tradingagents/agents/utils/memory.py:30-51 | Appends a pending entry unless some line of the file already looks like that key's pending tag. |
| `DecisionLog.TradingMemoryLog.LoadEntries` | tradingagents/agents/utils/memory.py:53-64 | The file split at its separators, blanks dropped, every parsable block read. |
| `DecisionLog.TradingMemoryLog.ApplyRotation` | tradingagents/agents/utils/memory.py:248-283 | The loop drops the oldest resolved blocks beyond the cap and nothing else. |
| `DecisionLog.TradingMemoryLog.ReplaceFirst` | tradingagents/agents/utils/memory.py:111-175 | The loop rewrites the first pending block of that key only. |
| `DecisionLog.TradingMemoryLog.UpdateWithOutcome` | tradingagents/agents/utils/memory.py:111-175 | The file is rewritten, rotated, exactly when a block matched. |
| `DecisionLog.TradingMemoryLog.BatchUpdateWithOutcomes` | tradingagents/agents/utils/memory.py:177-232 | One pass: each block takes the first outstanding update that matches and uses it up; then rotation. |
| `DecisionLog.TradingMemoryLog.SelectPast` | tradingagents/agents/utils/memory.py:70-109 | The single backward loop with its early exit selects the newest n_same and n_cross known entries. |
| `DecisionRecords.ParseBlock` | tradingagents/agents/utils/memory.py:285-316 | Printing a record and parsing the block gives it back, texts trimmed. |
| `DecisionRecords.LoadRendered` | tradingagents/agents/utils/memory.py:53-64 | Loading the file of any records returns exactly those records. |
| `DecisionRecords.UpdatedRendered` | tradingagents/agents/utils/memory.py:111-175 | An update of the file is: settle the first pending record of the key, then rotate the records. |
| `DecisionHistory.HistoryRoundTrips` | tradingagents/agents/utils/memory.py:30-232 | After every history of stores, single and batch updates, repeated keys included, the file is the printing of its records, loads back as them, and has at most one pending entry per (date, ticker). |
| `DecisionHistory.StoreMeetsItsPromise` | tradingagents/agents/utils/memory.py:30-51 | Storing appends unless the key is pending, if and only if the key is pending or no line of a stored text poses as its pending tag. |
| `DecisionHistory.QuotedTagExists` | tradingagents/agents/utils/memory.py:30-51 | Two concrete records: the second is never written although its key is not pending. |
| `DecisionHistory.BatchIsOneByOne` | tradingagents/agents/utils/memory.py:177-232 | A batch writes byte for byte what the updates of its keyed dictionary would one by one, rotation included, if and only if some update matches or there is nothing to rotate. |
| `DecisionHistory.BatchCanDiffer` | tradingagents/agents/utils/memory.py:177-232 | A concrete file, batch and cap for which the two differ. |
| `DecisionHistory.BatchIsOneByOneInRuns` | tradingagents/agents/utils/memory.py:177-232 | On every file the log itself has written under one cap, batch and one by one agree for every batch, matched or not. |
| `DecisionHistory.HistoryWithinCap` | tradingagents/agents/utils/memory.py:248-283 | Under one cap no history holds more settled records than the cap. |
| `DecisionHistory.KeyedIsDistinct` | tradingagents/agents/utils/memory.py:177-200 | Supporting: the dictionary of any batch has distinct keys. |
| `DecisionHistory.DistinctKeyed` | tradingagents/agents/utils/memory.py:177-200 | Supporting: a batch with distinct keys is its own dictionary. |
| `DecisionHistory.EachIsAll` | tradingagents/agents/utils/memory.py:177-232 | Block by block and update by update settle the same records. |
| `DecisionHistory.ForgetAroundSettle` | tradingagents/agents/utils/memory.py:248-283 | Forgetting the oldest commutes with settling one more pending record. |
| `DecisionHistory.RotationKeepsNewest` | tradingagents/agents/utils/memory.py:248-283 | Rotation drops no pending record and keeps exactly the newest settled ones, in order. |
| `DecisionHistory.RotationShows` | tradingagents/agents/utils/memory.py:248-283 | The file changes exactly when there is something to drop. |
| `DecisionHistory.NewestIsSimple` | tradingagents/agents/utils/memory.py:70-109 | The selection is: filter by ticker, reverse, take the first n. |
| `DecisionHistory.NoHindsight` | tradingagents/agents/utils/memory.py:70-109 | With a cutoff no selected entry is pending, undated or resolved after it. |
| `Decimals.ShowParses` | web/portfolio/domain.py:15-17 | Printing then parsing returns the same number and sign. |
| `Decimals.ShowIsCanonical` | web/portfolio/domain.py:15-17 | Two decimals print alike if and only if they are equal and not zeros of different sign. |
| `Decimals.ZeroHasTwoTexts` | web/portfolio/domain.py:15-17 | The exception: equal zeros print as 0 and -0. |
| `Decimals.PositiveDecimalProjects` | web/portfolio/domain.py:20-27 | What `positive_decimal` returns is in its own grammar, is returned unchanged again, and is the same positive number. |
| `Decimals.PositiveDecimalIsCanonical` | web/portfolio/domain.py:20-27 | Two inputs get one text exactly when they are one number. |
| `Plans.ValidatePlan` | web/portfolio/domain.py:46-76 | The checks and updates of one dictionary, in their order, compute the first complaint or the normal form. |
| `Plans.AcceptedWhen` | web/portfolio/domain.py:46-76 | A dictionary is accepted exactly when it has only known keys and each field passes its own test. |
| `Plans.AcceptedIsNormal` | web/portfolio/domain.py:46-76 | What is accepted is the dictionary of a plan in normal form. |
| `Plans.ValidationProjects` | web/portfolio/domain.py:46-76 | Validation is idempotent. |
| `Plans.PatchKeepsTheRest` | web/portfolio/store.py:165-179 | A patch changes only what it names. |
| `Money.AddIsExact` | web/portfolio/domain.py:155-162 | A sum below the precision is exact and no negative zero. |
| `Money.SubIsExact` | web/portfolio/domain.py:98-107 | So is a difference. |
| `Money.TimesIsExact` | web/portfolio/domain.py:98-107 | A product with a whole number is exact while its coefficient fits. |
| `Percent.DivIsRatio` | web/portfolio/domain.py:165 | The quotient at 40 digits is the exact ratio of the amounts, rounded half to even once, at a known scale. |
| `Percent.TriggerIsExact` | web/portfolio/domain.py:165-172 | Although the share is a rounded quotient, it reaches a limit exactly when 100 value >= limit total over the rationals. |
| `Percent.ShownIsNear` | web/portfolio/domain.py:165-169 | A displayed share, rounded twice, is within half a hundredth of a percent and a sliver of the exact one. |
| `Valuation.ValidWhenUsable` | web/portfolio/domain.py:79-133 | A reading is valid exactly for a plan with known cost and an error-free close of that stock on that date; exactly then it has amounts and no error. |
| `Valuation.AmountsAreExact` | web/portfolio/domain.py:98-107 | Market value and profit of a valid reading are exact, as printed. |
| `Valuation.SignalsMean` | web/portfolio/domain.py:97-124 | Each signal fires exactly on its condition, and the conclusion follows from them. |
| `Valuation.NeverBothLimits` | web/portfolio/domain.py:97-103 | Lower and upper signals never fire together. |
| `Valuation.Readings` | web/portfolio/worker.py:88-117 | A check's results are the pointwise evaluation of its snapshot. |
| `Valuation.CountValid` | web/portfolio/worker.py:88-117 | The count behind the status: all valid, none valid, or some. |
| `Overview.Choose` | web/portfolio/domain.py:146-154 | The loop selects one current valid reading per active plan or gives up. |
| `Overview.AddUp` | web/portfolio/domain.py:155-162 | The accumulators are the sums in plan order. |
| `Overview.WeighAll` | web/portfolio/domain.py:163-172 | One weight per stock, in order. |
| `Overview.Summarize` | web/portfolio/domain.py:136-179 | The whole summary, as an imperative body against its definition. |
| `OverviewLaws.SelectMeans` | web/portfolio/domain.py:146-152 | A selection exists exactly when every active plan has a current valid reading, and then consists of those. |
| `OverviewLaws.CompleteWhen` | web/portfolio/domain.py:143-154 | A summary is complete exactly when there is no active plan, or all have current valid readings of one date. |
| `OverviewLaws.TotalValueIsExact` | web/portfolio/domain.py:155-157 | The total value of up to 10^13 readings is the exact sum of close times shares. |
| `OverviewLaws.TotalPnlIsExact` | web/portfolio/domain.py:155-158 | The total profit or loss is the exact sum of its parts. |
| `OverviewLaws.CompleteMeansCurrent` | web/portfolio/domain.py:136-179 | A complete summary is about the plans as they are now, and value minus profit is the exact sum of cost times shares. |
| `OverviewLaws.NothingHeld` | web/portfolio/domain.py:143-145 | Without active plans the totals are zero. |
| `Concentrations.StocksAreLedger` | web/portfolio/domain.py:159-162 | The dictionary has one entry per stock held, each the exact value of that stock's plans, together the total. |
| `Concentrations.SortedKeeps` | web/portfolio/domain.py:164 | Sorting rearranges the entries. |
| `Concentrations.SortedOrders` | web/portfolio/domain.py:164 | Larger values come first, equal ones by symbol. |
| `Concentrations.TriggersAreExact` | web/portfolio/domain.py:163-172 | A stock triggers exactly when its exact value reaches the limit's exact share of the total, for totals below 2*10^26. |
| `Concentrations.ManyPlansFit` | web/portfolio/domain.py:163-172 | Two hundred thousand plans stay below that total. |
| `Concentrations.PercentagesAddUp` | web/portfolio/domain.py:163-172 | Displayed percentages are whole hundredths adding up to 100 within half a hundredth per stock. |
| `PortfolioService.PortfolioStore.constructor` | web/portfolio/store.py:12-49 | The empty portfolio is valid: valid plans of verified instruments, a hundred stocks at most, a comparable limit, one check in flight. |
| `PortfolioService.PortfolioStore.UpsertInstrument` | web/portfolio/store.py:63-83 | The instrument is known afterwards, none is forgotten, and the portfolio stays valid. |
| `PortfolioService.PortfolioStore.LimitReached` | web/portfolio/store.py:85-93 | The union of watched and actively held symbols decides: a hundred at most. |
| `PortfolioService.PortfolioStore.AddWatch` | web/portfolio/store.py:95-105 | Succeeds only for a verified stock that is not watched; no other entry is touched; the portfolio, its hundred stocks included, stays valid. |
| `PortfolioService.PortfolioStore.UpdateWatch` | web/portfolio/store.py:107-115 | Only that stock's reason can change; the watched stocks stay the same. |
| `PortfolioService.PortfolioStore.RemoveWatch` | web/portfolio/store.py:117-120 | Succeeds exactly for a watched stock; it is gone afterwards and every other entry is as before. |
| `PortfolioService.PortfolioStore.CreatePlan` | web/portfolio/store.py:152-163 | The new plan passes the guard at revision 1, all earlier rows stay, and the portfolio stays valid. |
| `PortfolioService.PortfolioStore.CheckGuard` | web/portfolio/store.py:180-187 | The guard passes exactly an existing, active plan of that very revision. |
| `PortfolioService.PortfolioStore.UpdatePlan` | web/portfolio/store.py:165-179 | After a success the same revision is refused as a conflict and the next one is accepted; every other plan is as before; the portfolio stays valid. |
| `PortfolioService.PortfolioStore.ClosePlan` | web/portfolio/store.py:189-199 | After a success every revision of that plan is refused; every other plan is as before; the portfolio stays valid. |
| `PortfolioService.PortfolioStore.UpdateSettings` | web/portfolio/store.py:207-227 | A refusal changes nothing; a stored limit is one a summary can compare with. |
| `PortfolioService.PortfolioStore.EnqueueManual` | web/portfolio/store.py:238-267 | Afterwards a check is pending; when one was already, nothing is added; still at most one is in flight and ended checks are as before. |
| `PortfolioService.PortfolioStore.EnqueueAutomatic` | web/portfolio/store.py:238-267 | Nothing is added while a check is pending or when that day's attempt exists; afterwards one of both holds; still at most one check is in flight. |
| `PortfolioService.PortfolioStore.Claim` | web/portfolio/store.py:269-286 | A claimed check is running with the active plans of this moment frozen in it; without a queued check nothing changes; ended checks are final. |
| `PortfolioService.PortfolioStore.SetTarget` | web/portfolio/store.py:288-293 | Only the date of that check can change, and not once it has ended. |
| `PortfolioService.PortfolioStore.Complete` | web/portfolio/store.py:295-308 | On success the results are stored on the frozen plans and no check is in flight any more; ended checks are final. |
| `PortfolioService.PortfolioStore.Fail` | web/portfolio/store.py:310-319 | The check is not running afterwards, its results untouched; if it was, no check is in flight any more. |
| `PortfolioService.PortfolioStore.Recover` | web/portfolio/store.py:356-362 | Afterwards no check is running, and ended checks are as before. |
| `Portfolio.CreateKeeps` | web/portfolio/store.py:152-163 | Creating keeps plans valid and stocks at most a hundred. |
| `Portfolio.UpdateKeeps` | web/portfolio/store.py:165-179 | So does updating, whatever the patch. |
| `Portfolio.CloseKeeps` | web/portfolio/store.py:189-199 | So does closing. |
| `Portfolio.LimitIsComparable` | web/portfolio/store.py:207-227 | A settings update stores only limits a summary can compare with. |
| `Portfolio.EmptyPatchKeepsData` | web/portfolio/store.py:165-179 | The empty patch is accepted and changes the revision alone. |
| `CloseCheckRuns.StepKeeps` | web/portfolio/worker.py:55-117 | Every transaction of ticks, requests, edits and restarts keeps the invariant; ended checks and frozen plans never change. |
| `CloseCheckRuns.RunKeeps` | web/portfolio/worker.py:55-117 | So does every run. |
| `CloseCheckRuns.OnePending` | web/portfolio/store.py:238-267 | In every run at most one check is queued or running. |
| `CloseCheckRuns.EndedForever` | web/portfolio/store.py:295-319 | An ended check never changes again. |
| `CloseCheckRuns.ClaimedEnds` | web/portfolio/worker.py:88-117 | In every run the tick that claimed a check ends it, whatever calendar, quotes and failures it meets and whatever requests and edits of others come before and between its transactions. |
| `CloseCheckRuns.ScheduleIsKept` | web/portfolio/worker.py:55-86 | In every run and for every clock, each day's automatic checks are numbered 1 to n with n at most 3, at least 30 minutes apart, at or after 16:30 on that weekday. |
| `CloseCheckRuns.NoneAfterSuccess` | web/portfolio/worker.py:55-86 | No automatic check follows a completed check for its day. |
| `CloseCheckRuns.AutomaticKeepsItsDay` | web/portfolio/worker.py:88-117 | An automatic check never stores a result for another date than its own. |
| `CloseCheckRuns.ResultsAreGraded` | web/portfolio/worker.py:88-117 | In every run stored results are the pointwise evaluation of the frozen snapshot, for the check's date with one quote per stock; completed means all are valid, failed none. |
| `PortfolioOverview.CompletedIsLatest` | web/portfolio/worker.py:13-21 | `completed_date` is the latest trading day whose cutoff has passed, or there is none or no coverage. |
| `PortfolioOverview.CompletedIsMonotone` | web/portfolio/worker.py:13-21 | It never goes back for one calendar. |
| `PortfolioOverview.RevisionIsAStamp` | web/portfolio/store.py:165-199 | Whatever happens between reading plans and reading a check, a plan and a snapshot with one id and revision have the same data. |
| `PortfolioOverview.StoredLimit` | web/portfolio/store.py:207-227 | In every run a stored limit is comparable. |
| `PortfolioOverview.OverviewIsCurrent` | web/portfolio/api.py:168-211 | Although plans and check are read in separate transactions, a complete summary consists of one valid reading of each active plan as read, of one date and one close per stock, with exact totals. |
| `PortfolioOverview.ConcentrationsAreCurrent` | web/portfolio/api.py:168-211 | Its percentages add up to 100 within 0.5, over at most a hundred stocks, and up to 200,000 plans its warnings are the exact rational test. |
| `AgentGraph.AddNodes` | tradingagents/graph/setup.py:97-111 | The graph is refused exactly when an analyst is selected twice. |
| `AgentGraph.AddAnalystEdges` | tradingagents/graph/setup.py:117-135 | The loop lays for each analyst its tools and back, and on to the next analyst or the debate. |
| `AgentGraph.AddSharedEdges` | tradingagents/graph/setup.py:137-154 | With the shared nodes the edges are exactly those defined. |
| `AgentGraph.SetupGraph` | tradingagents/graph/setup.py:61-156 | A graph results exactly for a nonempty duplicate-free selection, with exactly the defined edges. |
| `AgentGraph.DebateSpeechWrites` | tradingagents/agents/researchers/bull_researcher.py:52-60 | One speech extends the common history and its side's history by itself and is the current response. |
| `AgentGraph.RiskSpeechWrites` | tradingagents/agents/risk_mgmt/aggressive_debator.py:46-60 | The same for the three risk speakers. |
| `AgentGraph.DebateIsTold` | tradingagents/agents/researchers/bear_researcher.py:54-64 | After n speeches the history is their concatenation, each side's history its projection, each last response that side's last speech. |
| `AgentGraph.RiskIsTold` | tradingagents/agents/risk_mgmt/neutral_debator.py:46-62 | The same after n risk speeches, for all three sides. |
| `AgentGraph.DebateRuns` | tradingagents/graph/conditional_logic.py:52-61 | The debate alternates from Bull for exactly its number of turns and then goes to the manager. |
| `AgentGraph.RiskRuns` | tradingagents/graph/conditional_logic.py:63-73 | The risk discussion cycles Aggressive, Conservative, Neutral for exactly its number of turns. |
| `AgentGraph.RunIsExpected` | tradingagents/graph/setup.py:98-154 | Every run executes exactly the expected nodes and ends, with exactly the told histories. |
| `AgentGraph.OnlyOneRun` | tradingagents/graph/conditional_logic.py:14-73 | A run to the end is unique. |
| `AgentGraph.RunLength` | tradingagents/graph/setup.py:98-154 | A run executes sum(2k+2) + 2d + 3r + 3 nodes. |
| `AgentGraph.DeepestRunFits` | web/validation.py:16-24 | Four analysts at five rounds fit in 100 nodes exactly up to 32 tool rounds. |
| `AgentGraph.RoutersStayOnTheMap` | tradingagents/graph/conditional_logic.py:14-73 | Supporting: in every state every router answers within its path map. |
| `Catalog.PublishedReadsBack` | web/portfolio/market.py:133-163 | A published catalog validates to itself. |
| `Catalog.RunKeeps` | web/portfolio/market.py:193-248 | In every interleaving the provider calls for one exchange start at least five minutes apart; that they never overlap is what the modelled lock gives. |
| `Catalog.ExchangesAreIndependent` | web/portfolio/market.py:193-248 | Supporting: a step for one exchange changes nothing of another. |
| `Catalog.OwnRefreshesDecide` | web/portfolio/market.py:193-248 | Over whole runs an exchange depends on its own steps alone. |
| `Catalog.OnlyValidReplaces` | web/portfolio/market.py:193-248 | Supporting: a file changes exactly when a refresh ends with a valid list that can be written, and then to that list. |
| `Catalog.MigrationKeepsTime` | web/portfolio/market.py:174-191 | Supporting: migration never replaces a file and never renews a timestamp. |
| `CatalogLookup.ListedWhileUsable` | web/portfolio/market.py:250-289 | Supporting: items are listed exactly while the exchange is fresh or stale. |
| `CatalogLookup.ResolvesWhenUnique` | web/portfolio/market.py:309-336 | `resolve` succeeds exactly when, for the trimmed text in ASCII upper case, one exchange and only one has a fitting identity verified within seven days, and returns it. |
| `CatalogLookup.UnverifiedMeansSearched` | web/portfolio/market.py:309-336 | Supporting: "Unverified" is answered only when every relevant exchange had a usable list. |
| `CatalogLookup.AShareMarket.Migrate` | web/portfolio/market.py:174-191 | The loop over the exchanges migrates each as specified. |
| `CatalogLookup.AShareMarket.BeginRefresh` | web/portfolio/market.py:193-222 | Up to the provider call: freshness, stop and retry spacing decide, other exchanges untouched. |
| `CatalogLookup.AShareMarket.EndRefresh` | web/portfolio/market.py:223-248 | Validate, publish and release; a failure leaves the file and records its code. |
| `WallTimes.AnalystWallTimeTracker.MarkStarted` | tradingagents/graph/analyst_execution.py:82-85 | The first start is kept: recorded starts never change, at most this one is added, durations are untouched. |
| `WallTimes.AnalystWallTimeTracker.MarkCompleted` | tradingagents/graph/analyst_execution.py:87-100 | The first completion is kept: recorded durations never change, a new one is not negative and leads from the start to now unless the clock went back. |
| `WallTimes.AnalystWallTimeTracker.Sync` | tradingagents/graph/analyst_execution.py:117-135 | The loop over the plan touches each analyst as specified. |
| `WallTimes.AlwaysTiled` | tradingagents/graph/analyst_execution.py:117-135 | For distinct analysts, a clock that does not go back and reports that grow as a prefix of the plan, each analyst starts when its predecessor completes. |
| `WallTimes.DurationsTelescope` | tradingagents/graph/analyst_execution.py:76-103 | The durations add up to the last completion minus the first start. |
| `WallTimes.DurationsStay` | tradingagents/graph/analyst_execution.py:76-103 | A recorded duration never changes, whatever chunks come. |
| `ImageRelease.Releases.Cleanup` | scripts/local_image_release.py:122-156 | The loops unlink what the definition says, or report and unlink nothing. |
| `ImageRelease.Releases.Publish` | scripts/local_image_release.py:159-218 | Success means a managed image of that commit is stable; a failure changes neither tags nor stable, or comes after promoting and then has added at most the commit's own tag; soundness is kept and no tag re-pointed. |
| `ImageRelease.Releases.Rollback` | scripts/local_image_release.py:221-228 | Succeeds exactly for a tagged managed image of that commit, which is then stable; a failure leaves stable alone; soundness is kept. |
| `ImageRelease.StepKeeps` | scripts/local_image_release.py:159-228 | Every step keeps stable on a managed image that has its own commit tag and re-points no commit tag. |
| `ImageRelease.RunKeeps` | scripts/local_image_release.py:159-228 | So does every sequence of publishes and rollbacks. |
| `ImageRelease.CleanupRetains` | scripts/local_image_release.py:122-156 | A cleanup keeps stable and the keep-1 newest, at most `keep` in all, and unlinks exactly the other listed commits not in use. |
| `ImageRelease.InUseStays` | scripts/local_image_release.py:122-156 | A tag in use is never removed. |
| `ImageRelease.AtMostKeepUnused` | scripts/local_image_release.py:122-156 | After a cleanup every listed commit is one of the kept or in use. |
| `ImageRelease.SortedIsNewestFirst` | scripts/local_image_release.py:59-72 | The order in which images are kept is newest first. |

## Left out

- LLM clients, prompts, vendor fetchers, indicators, the CLI, React rendering, the HTTP server, log redaction and static files: opaque calls or plumbing.
- Subprocess reaping, file permissions, fsync, SQLite locking and schema upgrades: a transaction or file replacement is one step; I/O errors appear only as refused writes and failed quotes, calendars, builds and smoke runs.
- The worker thread and the event loop are steps of state machines (`Engine.Work`, `Delivery.Next`) rather than methods with loops: their interleaving with other actors is the point.
- `stop`, the wake event and the bounded join of the worker: an `Exit` or a `Crash` may come at any idle or any moment, which covers them.
- Task listing, search, reports, instrument lookup for tickers and model identifiers of settings: lookups.
- Delivery.ReceivedIsAPrefix: one subscriber and one task that nobody deletes while it is followed.
- EngineSafety.RegistryStaysSound: starts from a persisted provider list; the unpersisted legacy list is read, never written, and has no such invariant.
- EngineSafety.ResumeContinuesOwnRows: the data directory is used by this worker alone, and clearing a checkpoint succeeds.
- Runner.GraphRunner.Stream: report sections arrive already redacted; environment variables and the run lock are not part of this model.
- A key file counts as cut short or whole, not byte by byte; row numbers of deleted tasks are not reused; tickers arrive normalised.
- Provider base URLs are taken as validated, credentials as text, and new identifiers as fresh.
- Unicode: case folding is ASCII, trimming knows the ASCII white space, and `\n` is the only line break `splitlines` sees.
- DecisionHistory.HistoryRoundTrips: tag fields are trimmed, on one line and without `|` or an end marker, decisions contain no `REFLECTION:`, texts no end marker; the raw return is not the word `pending` and a resolution date is not empty.
- The texts `get_past_context` formats from its selection, and the deferred reflection that produces outcomes.
- Money: exponents of exact results, clamping and the flags of decimal contexts; a quotient is the exact ratio rounded half to even once, which is what the context delivers.
- Plans: field values other than text, whole numbers, booleans and null are one kind of foreign value; field texts beyond those tests are not interpreted.
- The instrument embedded in a plan's snapshot: it can change without a new revision, and no result uses it.
- PortfolioOverview.OverviewIsCurrent: up to 10^13 active plans, below which the 40-digit sums cannot round; the warnings are exact up to 200,000 plans (totals below 2*10^26).
- PortfolioOverview.CompletedIsMonotone: for one calendar, while the local time does not go back; zone conversion is part of the clock readings.
- Lists ordered by creation time are ordered by insertion; the reports and the per-plan results the overview adds.
- CatalogLookup.AShareMarket.BeginRefresh: a call is made only while that exchange's lock is free, as the lock guarantees; a restarted market object forgets its attempts, so spacing is per object.
- Calendars, quotes, name search and corrupt cache files of the market: fetched data or unreadable files, which count as absent.
- AgentGraph: what the managers write, message deletion, and LangGraph's own accounting of steps; the limit of 100 is compared with node executions.
- WallTimes: durations are real numbers; the summary text is not built.
- ImageRelease: candidate tags, which a publish always removes again, and failures of the container engine other than those of builds and smoke runs.
