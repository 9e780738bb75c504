# Athenaeum front end: a verified model of its client-side state machines

This Dafny project models the hard logic of the web front end: callbacks, state updaters and
network answers that interleave over shared mutable refs, and a few text transformations whose
exactness the rest of the program relies on. Check it with `dafny verify dfyconfig.toml`.

## How it models the program

- **One module for each component.** A module holds the state as a datatype, every callback or
  stretch of code between two `await`s as a step function, `Exec` over event sequences, an
  invariant, and theorems about all runs. Where the component updates refs or fields in place, a
  class beside it has those fields and imperative methods, and each method's `ensures` says that the
  new state is the step of the old one; its loops are proved against the specification functions.
- **Atomic commit.** A React state updater, the render it causes and the effects that render
  triggers belong to the step that caused them. Between steps the environment may do anything:
  answer calls in any order, answer late, refuse, fire timers, deliver events.
- **The environment is a parameter.** Backend answers, clocks, timers, blob URLs, location keys and
  stored JSON arrive as event arguments or as lists of what is still owed.
- Numbers are mathematical integers and reals; identifiers that the source only compares are integers.

## What is proved, component by component

- `WorkLists`, `DeepVerify`: each comparison is enqueued once, in its own place; conservation over
  every interleaving of the slots of any number of overlapping runs, no slot idle while work is left,
  the exact outcome, progress and badges of undisturbed and of cancelled runs, and that a superseded
  run is invisible: the run with all its later steps deleted looks the same.
- `SharedSource`: who is registered, and one open connection that matches, read off the calls made so far, and
  dispatch over it simulates one connection for each listener, with handlers that throw, listen,
  unlisten or change the key in the middle of the loop.
- `TransferRows`, `TransferRates`: five sources merged into rows with distinct keys that cover the
  union once, each from its best source; what each row shows, its speed included, follows the trace of
  events; the smoothed speed and the remaining-time basis characterised from the trace of byte ticks.
- `TransferViews`: the same queue seen one transfer at a time. The lists and maps refine a small
  record for each transfer, changed by its own events only, and each row is the one that record calls for.
- `Notifications`: the capped cache is exactly the most recently fired keys, so suppression has a
  closed description over all runs; what is news heads the history, and a reload is invisible.
- `AutosavePaths`, `AutosaveDocument`: lens laws of the dotted paths, and when the screen and the
  backend agree at the end of the save protocol, with the exception the code really has.
- `BlinkCache`, `BlinkEpochs`, `BlinkZoom`: a bounded pool that is always exact and saturated and takes
  the nearest frames, an epoch that keeps the other variant's pictures off the screen while the ones
  asked for get there, and geometry over the reals.
- `NavHistory`: the tracked keys are always a window of the browser's own stack, and each navigation
  moves both alike.
- `Csv`, `DateRanges`, `RemapCoalescer`: a reader undoes the printer; string order of partial dates
  is calendar order; no remap count is lost or told twice.

`Common`, `Lists` and `Text` hold the shared value types and the language's own operations on lists
and strings (`filter`, `map`, `slice`, `split`, `join`, decimal text, string comparison).

## Where the code and its documentation differ

The model follows the code.

- The group status type declares a value `error` (src/hooks/useDeepVerify.ts:29); `groupVerifyStatus`
  never returns it. An error in a settled group gives `partial` (src/hooks/useDeepVerify.ts:296-320).
- `cancel` is documented to bump the run token (src/hooks/useDeepVerify.ts:87); it only sets the flag
  (src/hooks/useDeepVerify.ts:96-98), so a cancelled run still owns the visible state and shows its summary.
- `toISODateRange` is documented to return null for a day without a month
  (src/components/DateRangeFilter.tsx:231-232); the code ignores the day and returns the bound of the year.
- The comment on the clamp speaks of a tenth of the image staying visible; what the code bounds is the blank
  stripe, at most a tenth of the canvas once the picture fills it (src/components/BlinkViewer.tsx:713-735).
- The preload pool is described as working "by proximity"; the code only looks forward, cyclically
  (src/hooks/useBlinkCache.ts:28, src/hooks/useBlinkCache.ts:60-77). `BlinkCache.PickIsNearestBothWays`
  says exactly when the two agree, `BlinkCache.CloserFrameBehindIsSkipped` gives an input where they do not.
- `sendPending` and the reset reload suggest that a settled form shows what is stored. It does, unless
  a save is sent while a reload is on its way: then the answer of the reload overwrites the edit on
  screen while the backend keeps it (`AutosaveDocument.EditDuringReloadIsLostOnScreen`).
  `AutosaveDocument.SettledMeansSaved` proves it for all runs without such a save, refusals included, and
  `AutosaveDocument.SaveKeepsInStepExactly` gives the exact condition for each save of any run whose
  requests are then all granted: no load on its way, or a reset still waiting, or a load that brings the
  very document saved. A failed reload also leaves `error` set, so "settled" includes that no error shows.
- The end of a month is taken from `new Date(year, month, 0)`, which reads the years 0 to 99 as 1900
  to 1999. This is wrong for one partial date only, February of year 0, and the theorems of
  `DateRanges` say so with an if-and-only-if. The text order is that of the days exactly up to year 9999
  (`DateRanges.OrderHoldsToFourDigits`).

## Model

| member | source | states |
|---|---|---|
| `WorkLists.WorkListPlaces` | src/hooks/useDeepVerify.ts:122-140 | file `j` of group `g` is enqueued once, after all its predecessors, against the first file of its own group |
| `WorkLists.WorkListLength` | src/hooks/useDeepVerify.ts:115-140 | the work list has (size − 1) items for each group of two or more, and none for others |
| `DeepVerify.EveryInterleavingConserves` | src/hooks/useDeepVerify.ts:174-253 | in every reachable state, for every run, current or superseded: claimed = completed + in flight, in flight ≤ min(3, total), no item is claimed twice, and the counters count the answers by kind |
| `DeepVerify.UndisturbedRunCompletes` | src/hooks/useDeepVerify.ts:106-278 | a run neither cancelled nor superseded that returned is shown as done, its counts add up to the number of comparisons, and every non-anchor file shows the verdict of its own comparison with its own anchor, whatever happened before and however the slots interleaved |
| `DeepVerify.RunIsNeverStuck` | src/hooks/useDeepVerify.ts:179-253 | in every sound state a run that has not returned has a comparison under way or can finish |
| `DeepVerify.AnswerAdvances` | src/hooks/useDeepVerify.ts:203-246 | under any schedule each answer brings a run one item closer to its end, so it takes at most as many answers as it has items |
| `DeepVerify.UndisturbedRunCanReturn` | src/hooks/useDeepVerify.ts:106-278 | from wherever an undisturbed run stands, answering its comparisons, whatever they answer, makes it return, within one step more than the number of comparisons |
| `DeepVerify.CancelledRunSettlesItsClaims` | src/hooks/useDeepVerify.ts:96-278 | a run cancelled before it returned and not superseded ends as cancelled: its cursor stays where it was at the cancel, every claimed item shows what its comparison answered, every other is still pending, and the summary total is the number of items claimed |
| `DeepVerify.CancelStopsClaims` | src/hooks/useDeepVerify.ts:96-98 | after a cancel no run that exists claims another comparison, whatever events follow, new starts and resets included |
| `DeepVerify.CancelledRunCanReturn` | src/hooks/useDeepVerify.ts:174-253 | wherever a run is cancelled, answering the comparisons under way, at most three, lets it return |
| `DeepVerify.OutcomeStays` | src/hooks/useDeepVerify.ts:252-278 | once a run has returned its outcome stays on screen until the next start or reset; a late cancel does not change it |
| `DeepVerify.NothingToCompareIsDone` | src/hooks/useDeepVerify.ts:142-151 | a start with no group of two files is done at once with all counts zero, and stays so |
| `DeepVerify.SlotsAreBusy` | src/hooks/useDeepVerify.ts:247-253 | in every reachable state an uncancelled current run has three comparisons under way, or all that remain when they are fewer |
| `DeepVerify.ProgressIsExact` | src/hooks/useDeepVerify.ts:187-245 | in every reachable state the progress of the current run counts its answers, gives their share to the nearest percent, and names the file claimed last, one that is still being compared, or none; it names one while work is left |
| `DeepVerify.StaleRunsAreSilent` | src/hooks/useDeepVerify.ts:106-110 | deleting every later step of superseded runs from any event sequence leaves the visible state the same at its end |
| `DeepVerify.ResetStaysIdle` | src/hooks/useDeepVerify.ts:100-104 | a reset after any run clears phase, progress, results and summary, and they stay clear until the next start, however many old calls still settle |
| `DeepVerify.StartedRunIsCurrent` | src/hooks/useDeepVerify.ts:106-112 | until the next start or reset the started run owns the token and keeps its work list |
| `DeepVerify.BadgeOfSettledGroup` | src/hooks/useDeepVerify.ts:296-320 | for a settled group the badge is verified exactly when every comparison was, and partial exactly when one of them failed |
| `DeepVerify.BadgeIsExact` | src/hooks/useDeepVerify.ts:296-320 | for any group and any list: running exactly when a comparison is under way, partial exactly when none is and one failed, verified exactly when some file was verified and none is under way, different or failed |
| `DeepVerify.BadgeWhileComparing` | src/hooks/useDeepVerify.ts:296-320 | in every reachable state a group with a claimed and unanswered comparison of the current run shows running |
| `DeepVerify.BadgeAfterCompletedRun` | src/hooks/useDeepVerify.ts:106-320 | at the end of every run neither cancelled nor superseded the badge of each group is verified exactly when all its own comparisons were, and partial exactly when one failed |
| `DeepVerify.DeepVerifyHook.BuildWorkList` | src/hooks/useDeepVerify.ts:122-140 | the two nested loops build the specified work list |
| `DeepVerify.DeepVerifyHook.StartRun` | src/hooks/useDeepVerify.ts:106-252 | the imperative `start` performs the start step on the hook's whole state |
| `DeepVerify.DeepVerifyHook.LoopHead` | src/hooks/useDeepVerify.ts:179-203 | the head of a slot's loop claims the item under the cursor or ends the slot, as the step says |
| `DeepVerify.DeepVerifyHook.SettleSlot` | src/hooks/useDeepVerify.ts:203-248 | a settled comparison performs the settle step, stale runs included |
| `DeepVerify.DeepVerifyHook.FinishRun` | src/hooks/useDeepVerify.ts:252-278 | the code after `Promise.all` performs the finish step |
| `SharedSource.OneSourceCarriesEverything` | src/api/http.ts:87-116 | after any calls a source is open exactly while some registration is held; it is the only one, its address has the key set last exactly when that is not empty, each event held and no other has one dispatcher of its own on it, and no registration set is empty |
| `SharedSource.StepKeeps` | src/api/http.ts:11-18 | listen, unlisten and a key change each keep the agreement of all four pieces of mutable state |
| `SharedSource.ListenersFollowTheCalls` | src/api/http.ts:141-167 | after any calls the module holds for each event exactly the registrations listened and not unlistened since, oldest first, and the key set last |
| `SharedSource.ListenMakesLive` | src/api/http.ts:141-150 | a `listen` makes its new registration live under its event and takes nobody else's away |
| `SharedSource.UnlistenKills` | src/api/http.ts:152-165 | an unlisten removes its registration |
| `SharedSource.SecondUnlistenIsHarmless` | src/api/http.ts:152-165 | the same unlisten called again after any other activity, new listens for its event included, changes nothing |
| `SharedSource.SurvivorsAreCalledOnce` | src/api/http.ts:64-85 | a registration present from the start to the end of a delivery is called exactly once, whatever the handlers do or throw |
| `SharedSource.RemovedAreNotCalled` | src/api/http.ts:75-83 | a registration that a handler unlistens is not called after that handler |
| `SharedSource.LoopCallsOnce` | src/api/http.ts:75-83 | one delivery calls nobody twice, those that join during the loop included |
| `SharedSource.LoopCalls` | src/api/http.ts:75-83 | only what is live at or after the loop's place, or joined later, is called |
| `SharedSource.LoopIsPerListenerFirst` | src/api/http.ts:64-85 | the shared loop equals one connection for each listener of the snapshot followed by the loop over late joiners, state and exceptions included |
| `SharedSource.DispatchRefinesOneConnectionEach` | src/api/http.ts:64-85 | after any calls a delivery over the shared source starts with exactly the calls and throws that one connection for each registration held would have made; anyone else it calls joined during the loop |
| `SharedSource.QuietDeliveryReachesAll` | src/api/http.ts:64-85 | when no handler calls back into the module, a delivery calls every registration held, oldest first, whoever throws, and a payload that does not parse reaches nobody |
| `SharedSource.HttpEvents.Ensure` | src/api/http.ts:96-108 | the imperative `ensureSource` performs the step: closes, reopens and reattaches every registered event, or does nothing |
| `SharedSource.HttpEvents.SetKey` | src/api/http.ts:11-18 | changing the key rebuilds an open stream built with another one |
| `SharedSource.HttpEvents.AddListener` | src/api/http.ts:141-150 | `listen` performs the listen step |
| `SharedSource.HttpEvents.RemoveListener` | src/api/http.ts:110-116 | `unlisten` with the teardown performs the unlisten step |
| `SharedSource.HttpEvents.Dispatch` | src/api/http.ts:64-85 | the dispatcher's loop over a set that its own handlers change delivers as specified, bad payloads and throws included |
| `Notifications.SuppressedExactlyWhenRecent` | src/contexts/NotificationContext.tsx:178-221 | from any stored value, after any run of notifies, clears, list edits and reloads, a non-empty key is suppressed exactly when it fired since the last clear and fewer than 200 distinct other keys fired after its last firing, loaded keys counting as fired in stored order |
| `Notifications.CacheIsMostRecent` | src/contexts/NotificationContext.tsx:187-206 | in every state reachable from any storage the set is, in order, the last 200 distinct keys by last firing, and storage agrees with memory |
| `Notifications.RecencyAfter` | src/contexts/NotificationContext.tsx:193-206 | delete-then-add keeps after a key exactly the distinct keys fired after it |
| `Notifications.ReloadIsInvisible` | src/contexts/NotificationContext.tsx:124-181 | reloading a settled store brings back the same store |
| `Notifications.AnyStorageBootsSound` | src/contexts/NotificationContext.tsx:124-150 | whatever JSON is stored, missing, malformed or oversized, the provider starts settled |
| `Notifications.UnkeyedNeverTouchesCache` | src/contexts/NotificationContext.tsx:187-221 | an input without a key is always accepted and leaves the cache as it was |
| `Notifications.NewsHeadsTheHistory` | src/contexts/NotificationContext.tsx:187-221 | from any storage, after any run: an input without a usable key, or whose key did not fire recently, heads the history with one unread note over the newest 99; any other leaves the history as it was |
| `Notifications.ListEditsAreExact` | src/contexts/NotificationContext.tsx:309-324 | marking all as read changes only the marks, dismissing an id drops exactly the notes with it, and neither touches the keys |
| `Notifications.ClearForgets` | src/contexts/NotificationContext.tsx:317-320 | after a clear nothing is listed and the next input is news whatever its key |
| `Notifications.LoadsWhatIsWellFormed` | src/contexts/NotificationContext.tsx:124-150 | only a readable value of version 1 is loaded, and of it every well-formed note and key, up to 100 and 200 |
| `Notifications.NotificationProvider.PushNotification` | src/contexts/NotificationContext.tsx:187-221 | the imperative callback, eviction included, performs the notify step and the persist effect |
| `Notifications.NotificationProvider.ClearNotifications` | src/contexts/NotificationContext.tsx:317-320 | clearing empties the history and the cache and persists both |
| `TransferRates.MedianHalves` | src/hooks/useTransferQueue.ts:91-95 | at least half of any samples are at most their median and at least half are at least it |
| `TransferRates.SortedFacts` | src/hooks/useTransferQueue.ts:91-95 | the sorted samples ascend and are the same samples |
| `TransferRates.TrackIsTrackerOf` | src/hooks/useTransferQueue.ts:102-121 | one tick takes the tracker of a sample list to the tracker of the longer list |
| `TransferRates.TrackersFollowTheTrace` | src/hooks/useTransferQueue.ts:375-401 | after any ticks and finishes each tracker is exactly that of the samples since the last byte-bearing stage change or finish of its transfer |
| `TransferRates.EmaIsBetween` | src/hooks/useTransferQueue.ts:102-121 | the smoothed speed lies between the least and the greatest accepted rate |
| `TransferRates.ReadingIsExact` | src/hooks/useTransferQueue.ts:64-121 | a speed shows exactly when a rate was accepted and lies within the rates; the window is exactly the last 48 accepted; the basis of the remaining time exists exactly from six on and halves the window |
| `TransferRates.TickMovesTheSpeedHalfWay` | src/hooks/useTransferQueue.ts:102-121 | after any events a tick in the same stage with more bytes at a later time moves the speed half way to the rate that moved those bytes, the first one all the way, and puts that rate into the window of 48; any other tick leaves speed and window alone |
| `TransferRates.SpeedRefs.TrackBytes` | src/hooks/useTransferQueue.ts:102-121 | the in-place tracker update and the reading returned |
| `TransferRates.SpeedRefs.OnProgress` | src/hooks/useTransferQueue.ts:375-401 | the progress listener, with its stage reset, performs the tick step and returns a reading exactly for byte-bearing events |
| `TransferRows.EveryTransferOnceFromItsBestSource` | src/hooks/useTransferQueue.ts:529-835 | after any polls, durable reads, ticks, finishes, resends and deletes the rows have distinct keys and are exactly those of the union: outbound live over durable over ledger, inbound live over durable, one ghost for each queued announce |
| `TransferRows.OneRowForEachTransfer` | src/hooks/useTransferQueue.ts:529-835 | in each direction an id known to any of its sources has exactly one row and any other id has none, ghosts aside |
| `TransferRows.KeysAreInjective` | src/hooks/useTransferQueue.ts:529-835 | row keys of the three kinds never collide, across kinds or within one |
| `TransferRows.RowKeysDistinct` | src/hooks/useTransferQueue.ts:529-835 | with ids distinct inside each source list the row keys are pairwise distinct |
| `TransferRows.SentRowsFollowTheTrace` | src/hooks/useTransferQueue.ts:375-440 | after any run an outbound row shows the bytes, stage, smoothed speed and median that the byte ticks of its own transfer since its last stage change or finish give, rates only while moving; a live row is one the poll lists, and it moves exactly while the poll says transferring or preparing, or queued with the indexing stage ticked last; a settled row shows none, and the nonce counts the finishes |
| `TransferRows.ReceivedRowsFollowTheTrace` | src/hooks/useTransferQueue.ts:397-514 | an inbound row never shows fewer bytes than last ticked since its package finished, shows the speed and median its ticks give only while fetching, and its nonce counts the finishes |
| `TransferRows.ShownRatesAreReal` | src/hooks/useTransferQueue.ts:97-121 | no row of either direction ever shows a speed outside the rates accepted since its tracker started afresh; the basis of the remaining time shows from six rates on and halves the last 48 |
| `TransferRows.RatesFollowTheTrace` | src/hooks/useTransferQueue.ts:375-433 | among all other events of the queue the outbound trackers are those of its ticks and finishes alone |
| `TransferRows.DeletedBatchIsGone` | src/hooks/useTransferQueue.ts:982-1012 | right after a successful delete no settled row of that direction carries the batch |
| `TransferRows.ResendSettlesTheOldRow` | src/hooks/useTransferQueue.ts:917-958 | a resend that keeps the id leaves no settled row of it; under a new id no settled row of the old id can be sent again, unless the durable list holds it |
| `TransferRows.FailureShowsUntilActedOn` | src/hooks/useTransferQueue.ts:446-496 | after a send fails or is cancelled, through any further polls, durable reads, ticks, finishes, resends and deletes of others, a settled row with what was known of it, its outcome and a resend button shows whenever neither poll nor durable read lists the id |
| `TransferRows.PolledIsKnown` | src/hooks/useTransferQueue.ts:321-333 | what is known of a send is what a poll last showed of it |
| `TransferViews.SendsAreTheirOwn` | src/hooks/useTransferQueue.ts:321-514 | after any run what the lists and maps of the queue hold of one send, polled, remembered, in the ledger and durable, is what that send's own events made of it, resends and deletes of its batch included |
| `TransferViews.ReceivesAreTheirOwn` | src/hooks/useTransferQueue.ts:982-1012 | the same for what is polled and durable of one received transfer |
| `TransferViews.SendRowIsItsOwn` | src/hooks/useTransferQueue.ts:530-686 | after any run the row of a send is the one its own events call for, live before durable before ledger, with each field of its source: state, label, stall and retry, batch, resend button, and whether it moves |
| `TransferViews.SendHasOneRow` | src/hooks/useTransferQueue.ts:530-686 | a send has exactly one row while its own events leave it polled, durable or in the ledger, and none otherwise |
| `TransferViews.PolledTransferMoves` | src/hooks/useTransferQueue.ts:577-585 | every send that the poll says is transferring or preparing has a moving row with the bytes and the speed of its own ticks |
| `TransferViews.ReceiveRowIsItsOwn` | src/hooks/useTransferQueue.ts:687-779 | the row of a received transfer is the one its own events call for, live before durable; a live one shows the greater of the polled and the ticked bytes |
| `TransferViews.ReceiveHasOneRow` | src/hooks/useTransferQueue.ts:687-779 | a received transfer has exactly one row while its own events leave it polled or durable, and none otherwise |
| `TransferViews.GhostRowsAreQueued` | src/hooks/useTransferQueue.ts:780-834 | the ghost rows are those of the announces queued in the latest poll, with nothing done and nothing to act on |
| `TransferViews.RowsAreGrouped` | src/hooks/useTransferQueue.ts:529-835 | polled sends come first, then ledger sends, durable sends, polled receives, durable receives and ghosts |
| `TransferRows.TransferQueueHook.BuildRows` | src/hooks/useTransferQueue.ts:529-835 | the six push loops build the specified row list in the code's order |
| `TransferRows.TransferQueueHook.RefreshSeen` | src/hooks/useTransferQueue.ts:321-333 | the bookkeeping effect remembers active sends and forgets what is neither active nor pinned |
| `TransferRows.TransferQueueHook.OnOutTick` | src/hooks/useTransferQueue.ts:379-396 | the progress listener for sends performs the tick step, the stage reset included |
| `TransferRows.TransferQueueHook.OnInTick` | src/hooks/useTransferQueue.ts:397-400 | the progress listener for receives performs the tick step |
| `TransferRows.TransferQueueHook.OnFinishedReceived` | src/hooks/useTransferQueue.ts:498-513 | the finish listener for receives performs the finish step |
| `TransferRows.TransferQueueHook.OnFinishedSent` | src/hooks/useTransferQueue.ts:425-514 | the finish listener performs the finish step, promotion into the ledger included |
| `TransferRows.TransferQueueHook.OnResent` | src/hooks/useTransferQueue.ts:917-958 | both branches of `resend` perform the resend step |
| `TransferRows.TransferQueueHook.OnDeleted` | src/hooks/useTransferQueue.ts:982-1012 | both directions of a successful delete perform the delete step |
| `AutosavePaths.GetAfterSet` | src/hooks/useAutosaveDocument.ts:27-52 | reading at or below a path just set reads the value set, missing and non-object levels on the way included |
| `AutosavePaths.GetUnrelated` | src/hooks/useAutosaveDocument.ts:37-52 | every path that is neither a prefix nor an extension of the one set reads as before |
| `AutosavePaths.SetTwice` | src/hooks/useAutosaveDocument.ts:37-52 | the last value set at a path wins, field order included |
| `AutosavePaths.SetBack` | src/hooks/useAutosaveDocument.ts:37-52 | writing back what a path reads changes nothing exactly when the path exists |
| `AutosavePaths.ResetFieldIsExact` | src/hooks/useAutosaveDocument.ts:198-218 | resetting a field makes it default and changes neither the value nor the default-ness of any unrelated path |
| `AutosavePaths.DottedPathReads` | src/hooks/useAutosaveDocument.ts:27-32 | a path joined from dot-free names reads those very segments |
| `AutosavePaths.SetByWalking` | src/hooks/useAutosaveDocument.ts:37-52 | the cursor that walks down over copied levels builds the specified document |
| `AutosavePaths.GetByFolding` | src/hooks/useAutosaveDocument.ts:27-32 | the fold over the segments reads the specified value |
| `AutosaveDocument.LoadingNeverSaves` | src/hooks/useAutosaveDocument.ts:118-173 | there are never more saves than patches, so loads, resets and timers alone never save |
| `AutosaveDocument.TimerSendsWhatIsShown` | src/hooks/useAutosaveDocument.ts:136-173 | in every reachable state a debounced save sends the document on screen and clears the pending edit |
| `AutosaveDocument.BurstIsSavedOnce` | src/hooks/useAutosaveDocument.ts:136-196 | once the document is there, any burst of patches inside the debounce time is saved once, as its last patch left it |
| `AutosaveDocument.SameObjectIsNotSaved` | src/hooks/useAutosaveDocument.ts:163-196 | a patch that hands back the very object shown is not saved |
| `AutosaveDocument.FirstLoadShowsTheStored` | src/hooks/useAutosaveDocument.ts:118-134 | patches before the first load are dropped; the load then shows what is stored and saves nothing, or an error |
| `AutosaveDocument.SaveAnswered` | src/hooks/useAutosaveDocument.ts:142-158 | a granted save is stored and clears the error, a refused one shows it; neither changes what is shown or still to be saved |
| `AutosaveDocument.ResetShowsTheDefaults` | src/hooks/useAutosaveDocument.ts:220-247 | with nothing else on its way a granted reset drops the pending edit, shows and stores what the backend reset to and saves nothing; a refused one keeps the edit and shows an error |
| `AutosaveDocument.UnmountFlushesOnce` | src/hooks/useAutosaveDocument.ts:175-184 | unmounting with an edit pending sends the last document once, without one sends nothing, and nothing is sent afterwards |
| `AutosaveDocument.SettledMeansSaved` | src/hooks/useAutosaveDocument.ts:136-247 | in every run that sends no save across a load, whenever nothing is dirty or in flight and no error shows, the screen equals the backend |
| `AutosaveDocument.NoPatchWhileReloadingMeansSaved` | src/hooks/useAutosaveDocument.ts:220-247 | the same for every run with no patch between the answer of a reset and the answer of its reload; patches before the first load are allowed |
| `AutosaveDocument.EditDuringReloadIsLostOnScreen` | src/hooks/useAutosaveDocument.ts:220-247 | a concrete run with such a patch ends settled with screen and backend different |
| `AutosaveDocument.SaveKeepsInStepExactly` | src/hooks/useAutosaveDocument.ts:118-247 | after any run, a pending save that is dispatched and has everything then granted leaves the form settled, and showing what is stored if and only if at the dispatch no load was on its way, or a reset was waiting, or the load was to bring the very document saved |
| `AutosaveDocument.AnswersDrain` | src/hooks/useAutosaveDocument.ts:226-246 | granting the outstanding requests, and the reload each reset asks for, always comes to an end |
| `AutosaveDocument.AutosaveHook.Flush` | src/hooks/useAutosaveDocument.ts:136-161 | `sendPending` up to its `await` |
| `AutosaveDocument.AutosaveHook.PatchDoc` | src/hooks/useAutosaveDocument.ts:186-196 | `patch` with the debounce effect it triggers |
| `AutosaveDocument.AutosaveHook.OnAnswer` | src/hooks/useAutosaveDocument.ts:118-160 | the code after each `await`, successful or not, for loads, saves, resets and reloads |
| `AutosaveDocument.AutosaveHook.OnUnmount` | src/hooks/useAutosaveDocument.ts:175-184 | the clean-up effects |
| `BlinkCache.PickIsNearestAhead` | src/hooks/useBlinkCache.ts:60-77 | the pick is the available frame the fewest cyclic steps ahead, and there is none only when none is available |
| `BlinkCache.PickIsNearestBothWays` | src/hooks/useBlinkCache.ts:28-28 | the pick is the nearest available frame both ways if and only if only one frame is available or some available frame lies no farther ahead than any available frame lies behind |
| `BlinkCache.CloserFrameBehindIsSkipped` | src/hooks/useBlinkCache.ts:60-77 | a concrete restart whose new pool picks a frame farther away than the available one just behind |
| `BlinkCache.PoolIsExactAndSaturated` | src/hooks/useBlinkCache.ts:53-138 | over every run of restarts, navigation and late settlements the limit is the one given or 8, the count in flight is that of the current pool's unsettled loads and at most the limit, no index is dispatched twice in one pool, and either the limit is reached or every frame is loaded or dispatched |
| `BlinkCache.IdlePoolHasDispatchedEverything` | src/hooks/useBlinkCache.ts:79-133 | a pool with nothing in flight has loaded or dispatched every frame |
| `BlinkCache.AbandonedSettlementIsSilent` | src/hooks/useBlinkCache.ts:91-95 | a load of an abandoned pool that settles changes no count and dispatches nothing |
| `BlinkCache.NavigateTakesTheNearest` | src/hooks/useBlinkCache.ts:135-138 | going to a frame makes it the current one, and the free slots take the available frames nearest ahead of it, in that order |
| `BlinkCache.RestartAsksAfresh` | src/hooks/useBlinkCache.ts:115-129 | a restart forgets what was asked before: the new pool asks for the frames nearest ahead that are not loaded, the current one first, and counts just those |
| `BlinkCache.LoadedIsNotAskedFor` | src/hooks/useBlinkCache.ts:66-67 | a frame that got loaded some other way is not asked for any more until the next restart |
| `BlinkCache.CleanedUpPoolAsksNothing` | src/hooks/useBlinkCache.ts:79-133 | after an unmount, or a restart with nothing to preload, a running pool asks for nothing more, whatever settles or is navigated to |
| `BlinkCache.BlinkCacheHook.PickNextJob` | src/hooks/useBlinkCache.ts:60-77 | the offset loop finds the specified pick |
| `BlinkCache.BlinkCacheHook.DispatchAll` | src/hooks/useBlinkCache.ts:79-97 | the dispatch loop performs the saturating pass |
| `BlinkCache.BlinkCacheHook.OnRestart` | src/hooks/useBlinkCache.ts:115-133 | the restart effect, its clean-up included, performs the restart step |
| `BlinkEpochs.OnlyThisVariantIsShown` | src/components/BlinkViewer.tsx:297-354 | in every reachable state the decode lock is held exactly by one pending decode of this epoch, and all that is cached or painted is the current variant's picture of its index |
| `BlinkEpochs.FlipRetiresWhatCameBefore` | src/components/BlinkViewer.tsx:632-656 | a preview, full-resolution load or decode begun before a flip leaves cache, canvas, lock and loading marks alone when it settles after it, however late |
| `BlinkEpochs.PendingAtFlipIsOld` | src/components/BlinkViewer.tsx:632-656 | whatever is pending at a flip is retired by it, and the new epoch starts with no decode |
| `BlinkEpochs.NoIndexIsStuck` | src/components/BlinkViewer.tsx:297-354 | an index marked as loading always has a load under way that will clear the mark |
| `BlinkEpochs.RequestedPictureIsPainted` | src/components/BlinkViewer.tsx:297-458 | in every reachable state a preview neither cached nor loading, asked for while the lock is free, is painted once it has loaded and decoded: the picture of its own index in the variant on screen |
| `BlinkEpochs.FlipShowsTheOtherVariant` | src/components/BlinkViewer.tsx:632-656 | a flip blanks the screen, and from there every index can be asked for at once and is painted in the other variant |
| `BlinkEpochs.FullResolutionIsPainted` | src/components/BlinkViewer.tsx:659-711 | a full-resolution picture that arrives is painted for the index asked for, in the variant on screen |
| `BlinkEpochs.DecodePaints` | src/components/BlinkViewer.tsx:441-455 | a decode of this epoch paints its picture and frees the lock; a failed one only frees the lock |
| `BlinkEpochs.LoadFillsTheCache` | src/components/BlinkViewer.tsx:333-353 | a preview of this epoch that arrives is cached under its own index and no other; arrived or refused, the index is not loading any more |
| `BlinkEpochs.VariantFollowsTheSwitch` | src/components/BlinkViewer.tsx:262-263 | with aligned frames to show the viewer opens on them and every flip changes sides, renders in between or not |
| `BlinkEpochs.NothingToDrawAnew` | src/components/BlinkViewer.tsx:423-436 | a preview on the canvas already is not decoded again, and nothing changes when there is nothing to draw on or a full-resolution load is refused |
| `BlinkEpochs.NoIndexLoadsTwice` | src/components/BlinkViewer.tsx:300-309 | until the first flip at most one request for an index is under way however often it is asked for, and none once it is cached |
| `BlinkEpochs.FlipLetsALoadInTwice` | src/components/BlinkViewer.tsx:300-317 | with a flip between the gate and the reading of the epoch two requests for one index can be under way, both for the new variant |
| `BlinkEpochs.BlinkViewerRefs.OnPreview` | src/components/BlinkViewer.tsx:333-353 | the end of `loadImage`, success, failure and `finally`, performs the settle step |
| `BlinkEpochs.BlinkViewerRefs.Render` | src/components/BlinkViewer.tsx:423-458 | `renderImage` up to the decode |
| `BlinkEpochs.BlinkViewerRefs.OnImageLoad` | src/components/BlinkViewer.tsx:441-449 | a finished decode paints and releases the lock only in its own epoch |
| `BlinkEpochs.BlinkViewerRefs.ToggleAligned` | src/components/BlinkViewer.tsx:632-656 | the flip performs the toggle step |
| `BlinkZoom.PictureStaysInView` | src/components/BlinkViewer.tsx:714-768 | with a picture drawn, after any wheel, drag, key and reset events zoom is in [1, 20], pan is zero at zoom 1, and the blank gap at each edge is at most the larger of a tenth of the canvas and the centred gap |
| `BlinkZoom.RestsCentredOncePictured` | src/components/BlinkViewer.tsx:714-735 | pan is zero at zoom 1 after all sequences of events if and only if a picture was drawn; before that the pan is never clamped |
| `BlinkZoom.ZoomStaysInRange` | src/components/BlinkViewer.tsx:738-768 | zoom is in [1, 20] after any events, picture or none |
| `BlinkZoom.WheelKeepsPointUnlessClamped` | src/components/BlinkViewer.tsx:1021-1052 | a wheel step keeps the image point under the cursor, on each axis, if and only if the zoom stays, no picture was drawn yet, or the pan that follows the point lies within the margin of the new zoom (is zero, at zoom 1) |
| `BlinkZoom.AllowedIsInView` | src/components/BlinkViewer.tsx:714-735 | an enlarged picture may be panned exactly to where its blank stripes stay within the allowed gap |
| `BlinkZoom.ZoomInEnlarges` | src/components/BlinkViewer.tsx:746-756 | zooming in by key enlarges by a quarter, up to 20, and never moves the picture |
| `BlinkZoom.ZoomOutUndoesZoomIn` | src/components/BlinkViewer.tsx:746-768 | zooming in and out by key restores zoom and pan if and only if the zoom was at most 16 |
| `BlinkZoom.WheelBackRestoresZoom` | src/components/BlinkViewer.tsx:1035-1040 | a wheel turn towards enlarges below the limit, and turning back restores the zoom if and only if the first turn did not run into the limit |
| `BlinkZoom.ResetShowsAll` | src/components/BlinkViewer.tsx:738-743 | a reset after anything shows the whole picture, centred |
| `BlinkZoom.MoveFollowsTheMouse` | src/components/BlinkViewer.tsx:1066-1082 | while the button is held the pan follows the mouse, and where that is not allowed it goes to the nearest place that is, on each axis |
| `BlinkZoom.DragMovesThePicture` | src/components/BlinkViewer.tsx:1055-1088 | a whole drag of an enlarged picture inside the margin moves it exactly as far as the mouse and leaves the zoom alone |
| `BlinkZoom.OnlyADragPans` | src/components/BlinkViewer.tsx:1055-1082 | without a press of the left button on an enlarged picture the mouse moves nothing |
| `BlinkZoom.ZoomRefs.OnWheel` | src/components/BlinkViewer.tsx:1021-1052 | the wheel handler performs the wheel step |
| `BlinkZoom.ZoomRefs.OnMouseMove` | src/components/BlinkViewer.tsx:1066-1082 | the drag handler performs the move step |
| `NavHistory.TrackedIsAWindow` | src/contexts/NavHistoryContext.tsx:55-76 | after any pushes, replaces, pops, jumps and repeated renders the tracked keys are a contiguous window of the browser's stack with cursor and index on the same entry, holding only keys this session rendered |
| `NavHistory.GoMovesTheIndex` | src/contexts/NavHistoryContext.tsx:62-69 | a jump moves the index with the browser's cursor inside the window and resets to the one entry shown outside it |
| `NavHistory.PushOpensAPage` | src/contexts/NavHistoryContext.tsx:72-75 | a push puts a new page on top of the one shown, with a way back and none forward, in browser and provider alike |
| `NavHistory.ReplaceSwapsThePage` | src/contexts/NavHistoryContext.tsx:70-71 | a replace puts a new page in the place of the one shown and changes nothing around it, in browser and provider alike |
| `NavHistory.GoMovesTheCursor` | src/contexts/NavHistoryContext.tsx:62-69 | a jump goes as far as asked if the stack reaches that far, else nothing changes |
| `NavHistory.OnlyShownPagesAreTracked` | src/contexts/NavHistoryContext.tsx:55-76 | a session starts with no way back or forward whatever the browser holds, and tracks only pages it has shown |
| `NavHistory.RenderIsIdempotent` | src/contexts/NavHistoryContext.tsx:58-76 | a repeated render changes nothing, whatever navigation type it is told |
| `NavHistory.StepsStayInTheSession` | src/contexts/NavHistoryContext.tsx:81-87 | `back` and `forward` land on an entry this session rendered and leave window and stack as they were |
| `NavHistory.BackIsExact` | src/contexts/NavHistoryContext.tsx:78-87 | `canBack` and `canForward` hold exactly when the neighbouring browser entry is one of the session's; then the cursor moves by one, otherwise nothing happens |
| `NavHistory.BackThenForward` | src/contexts/NavHistoryContext.tsx:81-87 | `back` then `forward` restores browser and provider alike, and the other way round |
| `NavHistory.BacksUndoPushes` | src/contexts/NavHistoryContext.tsx:55-87 | any bracketed run of pushes and backs leads to the page and the place in the window it came from |
| `NavHistory.BackOrIsExact` | src/contexts/NavHistoryContext.tsx:89-95 | `backOr` is `back` where there is a way back; otherwise it opens a new entry from which `back` returns |
| `NavHistory.NavHistoryProvider.OnRender` | src/contexts/NavHistoryContext.tsx:58-76 | the reconciliation of the two refs, the search for the key included |
| `NavHistory.NavHistoryProvider.BackOr` | src/contexts/NavHistoryContext.tsx:89-95 | for every browser stack the provider is a window of, doing what the callback asks and rendering is the `backOr` step of the session, and it asks for one step back exactly when the browser's entry behind the cursor is one of the session's |
| `NavHistory.NavHistoryProvider.Back` | src/contexts/NavHistoryContext.tsx:81-83 | the same for `back`: a step back exactly when the entry behind the cursor is the session's, else nothing |
| `NavHistory.NavHistoryProvider.Forward` | src/contexts/NavHistoryContext.tsx:85-87 | the same for `forward` and the entry ahead of the cursor |
| `Csv.ReaderUndoesPrinter` | src/components/LightsAnalysisView.tsx:503-524 | a reader by RFC 4180 section 2, rules 5 to 7, returns the headers and exactly the original cells of every row, for all cell texts, commas, quotes and line breaks included |
| `Csv.ExportReadsBack` | src/components/LightsAnalysisView.tsx:503-524 | every export with the thirteen headers reads back |
| `Csv.PrintIsInjective` | src/components/LightsAnalysisView.tsx:506-524 | different tables never print the same file |
| `DateRanges.StartBoundIsExact` | src/components/DateRangeFilter.tsx:218-258 | a day is, in string order, at or past the start bound exactly when it does not come before what was typed |
| `DateRanges.EndBoundIsExact` | src/components/DateRangeFilter.tsx:248-254 | a day is, in string order, at or before the end bound exactly when it does not come after what was typed, for every date but the leap day of year 0 |
| `DateRanges.RangeIsExact` | src/components/DateRangeFilter.tsx:218-258 | the days between the two bounds are exactly those that agree with every part given, if and only if the parts are not February of year 0 |
| `DateRanges.RangeIsBound` | src/components/DateRangeFilter.tsx:234-258 | the helper returns text exactly when the parts mean something, and from year 0 on it is the ISO text of the calendar bound of that meaning |
| `DateRanges.ParseIntReads` | src/components/DateRangeFilter.tsx:236-256 | a typed part is read as blanks, a sign if any and digits, whatever follows, and is no number without a digit there |
| `DateRanges.BoundIsDay` | src/components/DateRangeFilter.tsx:248-257 | the bound is a day of the calendar if and only if no day was typed past the end of its month |
| `DateRanges.IsoOrder` | src/components/DateRangeFilter.tsx:208-216 | up to year 9999 the order of ISO texts is the order of the days |
| `DateRanges.ChartKeepsOverlaps` | src/pages/SkyChart.tsx:155-168 | the sky chart keeps a location exactly when the days it was imaged, stamped with or without a time, meet the days asked for, the leap day of year 0 aside; an absent stamp and a meaningless bound limit nothing |
| `DateRanges.OrderHoldsToFourDigits` | src/components/DateRangeFilter.tsx:208-258 | for all dates of the years up to `n` the order of ISO texts is the order of the days if and only if `n` is at most 9999 |
| `DateRanges.PartsRoundTrip` | src/components/DateRangeFilter.tsx:210-268 | reading back a printed complete date gives its parts exactly when they hold no dash and were already padded |
| `DateRanges.TextRoundTrip` | src/components/DateRangeFilter.tsx:260-268 | what is read holds no dash, and printing it gives the text back exactly when its parts are as wide as printed ones |
| `DateRanges.HelpersAgree` | src/components/DateRangeFilter.tsx:210-258 | on typed digits a possible complete date gives both helpers the same text, on both sides |
| `RemapCoalescer.NothingIsLost` | src/hooks/useCollabNotifications.ts:261-309 | in every reachable state, for each project, counts told plus the count pending equal the counts heard, and one timer is live exactly for what is pending |
| `RemapCoalescer.CleanUpTellsTheRest` | src/hooks/useCollabNotifications.ts:303-308 | after the clean-up everything heard has been told, the pending entries in their order, and no entry and no timer is left |
| `RemapCoalescer.ReceivedIsHeard` | src/hooks/useCollabNotifications.ts:279-287 | a count is heard exactly when it is not zero and reaches the listener of the mount it happens in |
| `RemapCoalescer.SilentAfterCleanUp` | src/hooks/useCollabNotifications.ts:284-308 | until the hook mounts again nothing that still arrives, late timers and listeners included, tells anything |
| `RemapCoalescer.BurstIsOneNotice` | src/hooks/useCollabNotifications.ts:285-294 | through any events but a clean-up, a mount or the firing of the project's own timer, other projects' changes and notices included, nothing of the project is told; then its timer tells, in one notice, what was pending and all that came in |
| `RemapCoalescer.FlushKeysEmpties` | src/hooks/useCollabNotifications.ts:307-307 | flushing the copied keys empties the Map and tells each entry once, in order |
| `RemapCoalescer.CollabNotifications.FlushRemap` | src/hooks/useCollabNotifications.ts:261-274 | `flushRemap` clears the timer, drops the entry and tells its count, or does nothing |
| `RemapCoalescer.CollabNotifications.OnRemapped` | src/hooks/useCollabNotifications.ts:283-294 | the listener replaces the timer and adds the count, ignoring zero counts and cancelled runs |
| `RemapCoalescer.CollabNotifications.OnCleanUp` | src/hooks/useCollabNotifications.ts:303-308 | the clean-up loop over the copied keys performs the clean-up step |

## Left out

- React rendering, StrictMode double effects and scheduler timing finer than a step: not decided by this code.
- The backend, fetch, `EventSource` internals, image decoding and canvas drawing: they appear only as answers and events.
- IEEE rounding: speeds, zoom and pan are exact reals, and percentages are rounded exactly.
- `localStorage` that throws on write, which the code ignores: here storage always takes what is written.
- Toasts, and the content of notification texts, ids and timestamps beyond what the properties need.
- `DeepVerify`: the group key text that a work item carries along, which nothing else reads.
- `SharedSource`: events are delivered to a registered dispatcher one at a time, and the `Promise` that wraps an unlisten is not modelled.
- `DeepVerify.UndisturbedRunCompletes`: asks for distinct file ids, because two items with one id share one result entry in the code.
- `TransferRows.EveryTransferOnceFromItsBestSource`: asks for ids distinct inside each list the backend sends; the fields every row copies unchanged are grouped in one record.
- `TransferRows.DeletedBatchIsGone`: says nothing about a later durable read that brings the batch back; the active count and the short peer and package names are left out.
- `AutosavePaths.ResetFieldIsExact`: documents are record trees; arrays, array-only segments such as `length`, prototype names and `NaN` in `JSON.stringify` are left out, and so is the reordering of integer-like keys.
- `AutosavePaths.SetByWalking`: the copied levels are values, so which levels the old and new document share in memory is not captured.
- `AutosaveDocument.SettledMeansSaved`: assumes that no save is sent across a load, which the code does not prevent; changes of the debounce time are left out, and requests are handled in the order sent.
- `AutosaveDocument.SaveKeepsInStepExactly`: speaks of one dispatched save whose outstanding requests are all granted with no edit in between; a refused reset or reload shows an error instead.
- `BlinkCache.PoolIsExactAndSaturated`: asks that the current index is a frame of the list, and keeps the limit fixed for the life of the hook; the caching progress shown is left out.
- `BlinkEpochs.OnlyThisVariantIsShown`: the list of frames is fixed while the viewer is open; error texts, revoking blob URLs and which frame is current are left out.
- `BlinkEpochs.NoIndexLoadsTwice`: asks that nothing was flipped yet, since a flip can let one index load twice (`BlinkEpochs.FlipLetsALoadInTwice`).
- `BlinkEpochs.DecodePaints`: a canvas lost between the start and the end of a decode is not modelled.
- `BlinkZoom.ZoomInEnlarges`: asks that a picture's fitted size is not negative, which the fit guarantees.
- `BlinkZoom.PictureStaysInView`: asks that a picture was drawn, since before that the code does not clamp the pan (`BlinkZoom.RestsCentredOncePictured`); canvas and fitted picture keep their sizes, so a first picture in the middle of a run is not covered; contour mode and overlays are left out.
- `NavHistory.TrackedIsAWindow`: each navigation is rendered before the next one, and location keys are never reused; a `backOr` fallback is a push.
- `Csv.ReaderUndoesPrinter`: turning a frame into its thirteen cell texts is left out, and so are the blob and the file name.
- `DateRanges.RangeIsBound`: says nothing about the text of a negative year, which `padStart` prints as in `00-5`.
- `DateRanges.RangeIsExact`: days and typed years run from 0 to 9999; years beyond the range of `Date` and years so long that a number prints with an exponent are left out.
- `RemapCoalescer.NothingIsLost`: counts are naturals; the other notices of the hook, the notice texts and the promise that hands over the unlisten function are left out.
- Plate-solve and analysis queues, coordinate parsing, tables, dialogs, pages and the Rust crates: plumbing, facts settled by one branch, or claims the code does not keep.
