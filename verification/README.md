# Daon: a Dafny model of its promises over whole runs

The project models the places where Daon keeps a promise over a whole run and proves these promises: the operator snapshot
guard, the forms whose requests may end with an unknown result, the account security reducer, SHA-256 in JavaScript
numbers, the WAV validator and transcript normalizer, the bounded stream readers, and two client reducers.
`dafny verify dfyconfig.toml` checks everything.

## What is modelled

**Snapshot guard** (`SnapshotGuard`, `OperatorInterleaving`, `OperatorGuarantees`, `OperatorRuns`, `OperatorTrails`,
`GuardedRun`, `PinnedContainers`, `GuardedCapture`). The files are a map; every step of a run can raise an error that is uncertain,
ordinary or an interruption, some failing steps may still have taken effect, and a run can crash anywhere. Unwinding is an
explicit stack on which a later exception replaces the pending one. Any number of operators take turns step by step.
`OperatorTrails` records what each run has done: nothing is certified without the final check, not even a capture that was there.
`GuardedRun.Run` is one run with its fields changed in place; it is proved to do what the model of a run says.
`PinnedContainers` holds the containers, the runtime target and the disjointness of roots; `GuardedCapture` the order of
pins, rechecks and receipt.

**Requests of unknown result** (`OrganizationRequests`, `OrganizationRuns`, `OrganizationGuarantees`, `OrganizationPage`;
`TenantSwitch`, `TenantMenu`, `NotebookHomePage`; `AdminUsers`, `AdminUsersPage`; `ProviderSettings`, `ProviderSettingsPage`). The code
between two awaits is one step. User actions, page events and answers of every class come in any order. Beside the
organization forms stands a server that applies a key at most once and takes up a transmission whenever it likes; requests,
their keys and their transmissions are told apart, and fresh keys are a hypothesis. The `Page`, `Home` and `Shell` classes hold
the references and records of the components; their callbacks are proved to be the steps of the model, whole runs included.

**Account security** (`AccountSecurity`, `AccountSecurityRuns`, `RealmMoveOrder`), **SHA-256** (`BitStrings`,
`PrimeNumbers`, `SecureHashStandard`, `JsNumbers`, `LawHash`), **citation windows** (`Numerals`, `LawCitation`), **stream readers** (`BoundedReader`),
**WAV files** (`WavFile`, `WavValidator`), **transcripts** (`Doubles`, `Transcript`), **desktop shell** (`DesktopShell`,
`DesktopShellPage`), **offline studio** (`OfflineStudio`) and **model lists** (`LogicalModels`).

The modules whose names end in `Effects` say of each state machine, in terms of the states before and after an event, what the
event does and exactly when it does it; what a whole run keeps is proved in the modules beside them.

`SecureHashStandard` restates FIPS 180-4 on strings of bits, independently of the program: sections 2.2.2, 4.1.2, 4.2.2,
5.1.1, 5.2.1, 5.3.3 and 6.2. Its constants are proved to be the roots that the standard says they are, and its table to be the first 64 primes.

## Where a promise fails, and exactly when it holds

- An absent operator lock proves that every new receipt was rechecked exactly if the callback that clears the HTTP pool
  raises no ordinary exception (`OperatorRuns.TrustedExactlyWhenClearIsQuiet`): such an exception would replace the
  uncertain error before the lock's exit sees it.
- The realm move completes its steps in the fixed order except that a finished move advanced without naming a step appends
  an undefined step (`AccountSecurityRuns.OrderBreaksExactlyWhen`, `RealmMoveOrder.OrderCanBreak`).
- `lawSha256` pads as the standard does exactly for messages shorter than 2^29 bytes, because it writes a 32-bit length
  (`LawHash.PaddingIsStandard`).
- The INFO test of `validate_wav` reads four bytes even where a LIST chunk is shorter, so that it looks into the next chunk.
  No file is accepted because of it: what would pass the test makes the next chunk unreadable
  (`WavValidator.ShortListIsDoomed`, `WavValidator.DoomedFails`).
- Confirmed offline settings stay confirmable under every action but two, and under these two exactly if the selected model
  is still usable, or no raw source is needed or a selected one is still there (`OfflineStudio.ModelsKeepConfirmed`,
  `OfflineStudio.SourcesKeepConfirmed`).
- A provider save is confirmed at the version it was to create exactly if it had no answer or one of that version; an answer
  that shows the old version is refused, and yet the unchanged list then counts as a confirmation, even where it clears a mark
  (`ProviderSettings.ClearedMeansConfirmed`, `ProviderSettings.OldAnswerConfirms`, `ProviderSettings.OldVersionCanClear`).
- The handler of the tenant switch can send something that is no longer the operation exactly if it is used while a load may
  still find another session (`TenantMenu.RogueExactlyWhenExposed`, `TenantMenu.TwoSwitchesCanBeSent`); its menu is not shown
  then, so that used from the menu it never does (`TenantMenu.NoSecondSwitch`).
- A transcript segment contains its input exactly if the products with 1000 were not rounded past a whole millisecond
  (`Transcript.SegmentContainsItem`, `Transcript.SegmentCanEndEarly`). Segments that touch are accepted only where that product
  is a whole millisecond: at 4.02 seconds it is rounded to less than 4020, and they are refused
  (`Transcript.TouchingFitsExactlyOnWholeMs`, `Transcript.TouchingCanBeRefused`). A time that is finite but too large raises an
  overflow, which is not one of the function's two value errors.
- The home list of the desktop shell belongs to the current session exactly until that changes, and stays until home is loaded
  again (`DesktopShell.HomeStaysRightExactlyWhen`, `DesktopShell.ListOutlivesSession`).

## Assumptions

- Exclusive creation of the lock file, renaming and unlinking are atomic: a failing unlink removes nothing. A new capture
  leaves a receipt only if it returned; failing, it may leave its folder; either way it overwrites what is there. Tokens of
  different runs differ. Leaving the hold on the runtime releases nothing and can only be interrupted.
- Versions of containers only grow, and a witness determines the version it was taken of; the same for the runtime's evidence.
- A server answers success only for a key it has applied. A status from 1 to 499 other than 408, or one from 500 on that says the
  workflow is unavailable, means that it will never apply that transmission (`OrganizationRequests.Refuses`).
- Where a result says so, idempotency keys are fresh (`OrganizationGuarantees.FreshKeys`), the tenant switch is used only from
  its menu (`TenantMenu.FromMenu`), and products are rounded to a nearest double (`Doubles.IsRounding`).
- Sessions, tenants, users and connections are compared for equality only and are numbered.

## Model

| member | source | states |
|---|---|---|
| OperatorRuns.TrustedExactlyWhenClearIsQuiet | deploy/daon-user/capture-service-snapshot.py:780-886 | In every interleaving of any number of operators an absent lock proves that each new receipt was rechecked on exit, exactly if clearing the pool raises no ordinary exception |
| OperatorRuns.ClearCanMask | deploy/daon-user/capture-service-snapshot.py:828 | From any start with a free lock and a new capture, the run in which a raising clear callback hides a failed recheck and removes the lock |
| OperatorRuns.CleanRun | deploy/daon-user/capture-service-snapshot.py:811-886 | A run that nothing disturbs ends without error, its receipt written and confirmed and the lock given up, for any number of roots and images |
| OperatorGuarantees.AtMostOneInside | deploy/daon-user/capture-service-snapshot.py:780-796 | At most one run is past the lock, over all interleavings and crashes |
| OperatorGuarantees.OnlyTheOwnerMovesTheLock | deploy/daon-user/capture-service-snapshot.py:783-796 | The lock file is created only where there is none, and written or removed only by the run whose token it holds |
| OperatorGuarantees.UncertainEndBlocksLaterRuns | deploy/daon-user/capture-service-snapshot.py:787-796 | After an uncertain end nothing changes on disk and every later run fails without holding the lock |
| OperatorGuarantees.BlockedForever | deploy/daon-user/capture-service-snapshot.py:784-796 | A lock left by a crash, a failed token or an uncertain end stays, and so does everything else on disk |
| OperatorGuarantees.UncertainExactlyIfLockKept | deploy/daon-user/capture-service-snapshot.py:787-796 | A run past the lock ends uncertain exactly if it left the lock behind, when closing the roots raises nothing |
| OperatorGuarantees.ConfirmedOrGuarded | deploy/daon-user/capture-service-snapshot.py:196-239 | Every receipt written by a run is confirmed by its exit recheck or still guarded by its lock |
| OperatorGuarantees.FailedRecheckIsContained | deploy/daon-user/capture-service-snapshot.py:206-239 | A run whose recheck failed keeps the lock; its receipt is renamed to receipt.uncertain or under that lock; it ends uncertain |
| OperatorGuarantees.QuarantineRenames | deploy/daon-user/capture-service-snapshot.py:206-239 | Unless prevented, the quarantine renames exactly the run's own receipt and raises the uncertain error |
| OperatorGuarantees.ExistingCaptureUntouched | deploy/daon-user/capture-service-snapshot.py:878-883 | A capture that existed is never written, renamed or removed by any run, although writing a receipt overwrites what is there |
| OperatorGuarantees.NothingAppearsAfterTheLook | deploy/daon-user/capture-service-snapshot.py:878-883 | From a look that found no capture until the receipt is written none appears, whatever the other runs do |
| OperatorGuarantees.SettledReceiptStays | deploy/daon-user/capture-service-snapshot.py:883-886 | Once its run has ended, no run touches a receipt |
| OperatorInterleaving.MoveKeeps | deploy/daon-user/capture-service-snapshot.py:811-886 | Every step of every operator keeps the invariant of all: stack shape, who holds the lock, what an unconfirmed receipt owes |
| OperatorTrails.StepsComeInOrder | deploy/daon-user/capture-service-snapshot.py:811-886 | In every interleaving what a run has done so far came in its order, and every image was archived between two rechecks of pins and runtime with nothing expensive between |
| OperatorTrails.NoReceiptUnchecked | deploy/daon-user/capture-service-snapshot.py:871-878 | No run writes a receipt unless, after it had copied the data, every image was found unchanged, pins and runtime were rechecked after that, and again after the physical recheck with nothing but the receipt behind |
| OperatorTrails.NoneConfirmedUnchecked | deploy/daon-user/capture-service-snapshot.py:749-757 | Nor is a run confirmed without that final check, whether it wrote the capture or verified one that was there |
| GuardedRun.Run.Go | deploy/daon-user/capture-service-snapshot.py:811-886 | The run on its mutable fields does what the model of one run says, for every list of answers |
| GuardedRun.Run.Pop | deploy/daon-user/capture-service-snapshot.py:192-194 | One frame leaves the exit stack, last in first out, and its exception replaces the pending one |
| GuardedRun.Run.ExitNewCapture | deploy/daon-user/capture-service-snapshot.py:206-239 | Quarantine of the remembered receipt, always ending uncertain; nothing without an error or a new capture |
| GuardedRun.Run.ExitOperatorLock | deploy/daon-user/capture-service-snapshot.py:787-796 | The lock is kept under an uncertain or interrupted end or a foreign token, else it goes on to be unlinked |
| GuardedRun.Run.CreateLockFile | deploy/daon-user/capture-service-snapshot.py:782-785 | Exclusive creation of the lock; any failure is BUSY, an interruption passes |
| PinnedContainers.Containers.PinAll | deploy/daon-user/capture-service-snapshot.py:351-361 | Pins succeed exactly if every reference has an acceptable container, ids are distinct and their set is the approved one |
| PinnedContainers.Containers.Recheck | deploy/daon-user/capture-service-snapshot.py:363-366 | A recheck succeeds exactly if every pinned container shows its recorded witness |
| PinnedContainers.RuntimeTarget | deploy/daon-user/capture-service-snapshot.py:368-382 | There is a runtime target exactly if one mount, and no other, can hold all runtime files |
| PinnedContainers.RootsApproved | deploy/daon-user/capture-service-snapshot.py:799-808 | Roots are approved exactly if no written root and read path have a common path below them |
| PinnedContainers.Overlap | deploy/daon-user/capture-service-snapshot.py:481-483 | Two directories share a path exactly when one lies inside the other |
| PinnedContainers.NothingChanged | deploy/daon-user/capture-service-snapshot.py:351-366 | If witnesses show versions that only grow, no container changed from the end of pinning to the start of a successful recheck |
| PinnedContainers.DirectoryIsExclusive | deploy/daon-user/capture-service-snapshot.py:676-684 | No other running container can write below the directory of the runtime files |
| GuardedCapture.Capture | deploy/daon-user/capture-service-snapshot.py:830-886 | A receipt is written exactly if everything that certifies it holds: pins of exactly the approved containers, the witnesses in every recheck, equal looks at the runtime and no failing check; confirmed exactly if the look on exit is equal too |
| GuardedCapture.ReceiptProves | deploy/daon-user/capture-service-snapshot.py:830-886 | So a receipt proves that no pinned container changed from pinning to the last recheck, nor the runtime up to the last look, up to exit if confirmed |
| GuardedCapture.QuiescentRuntime.Enter | deploy/daon-user/capture-service-snapshot.py:689-700 | Entering finds the only target and records its first look; every other pinned container runs |
| GuardedCapture.RuntimeUnchanged | deploy/daon-user/capture-service-snapshot.py:702-708 | Between the first look and the one on exit the runtime and its files did not change at any moment |
| OrganizationGuarantees.UnconfirmedIsExclusive | apps/web/components/organization-admin-console.jsx:109-142 | From being unconfirmed on, only the same request with its own key, arguments, tenant and session is sent, until success, another session or leaving the page |
| OrganizationGuarantees.StepHolds | apps/web/components/organization-join-form.jsx:58-88 | The same for one step, for either form: no failure of a recheck clears an unconfirmed request |
| OrganizationGuarantees.AppliedAtMostOnce | apps/web/components/organization-admin-console.jsx:143-150 | All transmissions of a submission carry its one key and what was submitted, so that a server that applies each key once applies each submission at most once |
| OrganizationGuarantees.KeysAreDistinct | apps/web/components/organization-admin-console.jsx:143-150 | If every submission draws a fresh key, distinct submissions have distinct keys in every run |
| OrganizationGuarantees.AppliedIsOwn | apps/web/components/organization-admin-console.jsx:120 | With fresh keys a key has been applied exactly if that very submission has |
| OrganizationGuarantees.LetGoMeansApplied | apps/web/components/organization-admin-console.jsx:49-55 | Within its session and without a reload, an unconfirmed request is let go only once that very submission has been applied |
| OrganizationGuarantees.SentOnlyWhenChecked | apps/web/components/organization-admin-console.jsx:114-120 | Nothing is sent but the operation, after a check that found its own session, nothing being invalidated since the send began |
| OrganizationGuarantees.DropReasons | apps/web/components/organization-admin-console.jsx:49-55 | A request is let go only after success, for another session, on leaving, or when nothing sent for it can take effect |
| OrganizationGuarantees.FirstFailureDecides | apps/web/components/organization-admin-console.jsx:130-136 | A live first transmission stays the operation, unconfirmed and uncertain, exactly if its failure has no status, or 408, or one from 500 on but for the answer that the workflow is unavailable, which the console takes only with 503; any other status lets it go |
| OrganizationGuarantees.LaterAnswerDecides | apps/web/components/organization-join-form.jsx:69-82 | No failing answer resolves an unconfirmed live request; a success settles it, and one with a wrong result is no success on the join form |
| OrganizationGuarantees.NeverAppliedLater | apps/web/components/organization-admin-console.jsx:129-136 | What was let go as never sent or definitely refused never takes effect later |
| OrganizationGuarantees.NeverStuck | apps/web/components/organization-join-form.jsx:58-98 | A live request with nothing in flight is uncertain, keeps its arguments, and retrying sends it again |
| OrganizationGuarantees.BusyMeansWorking | apps/web/components/organization-admin-console.jsx:141 | The page is busy only while a send of the current session has not ended |
| OrganizationRuns.StepKeeps | apps/web/components/organization-admin-console.jsx:49-150 | Every event keeps: the operation is of the current session with its arguments, transmissions carry the request, one send before the result is unknown |
| OrganizationEffects.SubmitsExactlyWhen | apps/web/components/organization-admin-console.jsx:143-150 | A submission is taken exactly on a ready page with a session and no operation, and becomes the operation with its own key, arguments, session and tenant |
| OrganizationEffects.RetriesExactlyWhen | apps/web/components/organization-admin-console.jsx:163 | The operation is sent again exactly if it is uncertain on a ready page and, in the console, of the tenant that is shown |
| OrganizationEffects.SendsAfterGoodCheck | apps/web/components/organization-admin-console.jsx:114-120 | After a good check the operation is sent exactly if nothing was invalidated since and its tenant is still shown; else nothing is sent |
| OrganizationEffects.OtherSessionLetsGo | apps/web/components/organization-admin-console.jsx:117 | A check that finds another session lets the operation go and reads anew |
| OrganizationEffects.FailedCheckDecides | apps/web/components/organization-join-form.jsx:77-82 | A check that fails leaves what was never sent behind and what may have been applied uncertain |
| OrganizationEffects.HidingInvalidates | apps/web/components/organization-admin-console.jsx:49-55 | Leaving the page keeps what was sent, uncertain, and lets go what was only being checked, as each form does |
| OrganizationEffects.BootsExactlyWhen | apps/web/components/organization-admin-console.jsx:78-83 | A boot begins exactly if none is under way, and only its read is of the new generation |
| OrganizationEffects.SessionReadAdopts | apps/web/components/organization-admin-console.jsx:84-95 | A session that was read becomes the current one; another than before lets the operation go and frees the page |
| OrganizationEffects.TenantStaysExactlyWhen | apps/web/components/organization-admin-console.jsx:92-94 | The chosen tenant stays chosen exactly if the session is the same and still manages it |
| OrganizationEffects.ReadyExactlyWhen | apps/web/components/organization-admin-console.jsx:70-76 | A page becomes ready exactly with good contents of the present generation, in the console read for the present session |
| OrganizationEffects.FailedReadInvalidates | apps/web/components/organization-admin-console.jsx:56-62 | A read that fails invalidates the page exactly if it is of the present generation |
| OrganizationPage.Page.InvalidatePage | apps/web/components/organization-admin-console.jsx:49-55 | Invalidation marks what was sent, and drops what was only being checked, as each form does |
| OrganizationPage.Page.SessionChecked | apps/web/components/organization-admin-console.jsx:114-120 | After the session check the request is sent, dropped for another session, or left |
| OrganizationPage.Page.ReplyArrived | apps/web/components/organization-join-form.jsx:69-87 | After the reply the request is settled, kept as unconfirmed or dropped, by class of answer |
| OrganizationPage.Page.AdoptSession | apps/web/components/organization-admin-console.jsx:85-88 | A changed session lets the operation go and frees the page |
| OrganizationPage.Page.Handle | apps/web/components/organization-admin-console.jsx:41-150 | Every callback, on the mutable references, is the step of the model |
| OrganizationPage.Replay | apps/web/components/organization-admin-console.jsx:41-150 | After any events the page is in the state that the model runs to |
| TenantMenu.DropReasons | apps/web/components/notebook-home-workspace.jsx:217-268 | Used from its menu, a switch is let go only by its own answer, by a check that sent nothing, or by an own-session read showing another session or started after the result was unknown |
| TenantMenu.NoSecondSwitch | packages/ui/src/notebook-home.jsx:22-34 | Used from its menu, the switch sends only the operation, once, from its own unchanged session, and nothing while one is under way or unknown |
| TenantMenu.RogueExactlyWhenExposed | apps/web/components/notebook-home-workspace.jsx:217-235 | Used in any reachable state, the handler can go on to send a switch that is not the operation exactly if a load under way may still find another session; with the menu shown there is none |
| TenantMenu.TwoSwitchesCanBeSent | apps/web/components/notebook-home-workspace.jsx:217-235 | A run without the menu in which two switches are sent |
| TenantSwitch.SentAtMostOnce | apps/web/components/notebook-home-workspace.jsx:217-235 | Every use of the switch sends at most once |
| TenantSwitch.ShownIsCurrent | apps/web/components/notebook-home-workspace.jsx:51-119 | What is shown comes from the latest load under the current session, and so does every notebook in it |
| TenantSwitch.OnlyLatestInstalls | apps/web/components/notebook-home-workspace.jsx:66-99 | Only the latest load, with the session it has read, changes what is shown or the session; a created notebook only joins its list |
| TenantSwitch.OnlyLatestAsks | apps/web/components/notebook-home-workspace.jsx:66-75 | Only the latest load goes on to ask for tenants and notebooks |
| TenantEffects.LoadLetsGoExactlyWhen | apps/web/components/notebook-home-workspace.jsx:85-96 | In every run a load lets the operation go exactly if it is current, has a valid scope, and read another session than the source or was started when the result of that very switch was unknown |
| TenantEffects.LoadShows | apps/web/components/notebook-home-workspace.jsx:76-102 | A current load shows the session it has read, with the notebooks of the answer in their order exactly if its scope is valid; an overtaken one shows nothing |
| TenantEffects.ChecksDecide | apps/web/components/notebook-home-workspace.jsx:225-233 | A check sends the switch exactly if it finds the source session in the epoch of the switch, and lets it go otherwise |
| TenantEffects.RepliesDecide | apps/web/components/notebook-home-workspace.jsx:233-266 | A clear reply ends the operation; an unclear one leaves it unknown and, in its own epoch, starts the load that may confirm it |
| TenantEffects.SwitchesExactlyWhen | apps/web/components/notebook-home-workspace.jsx:217-221 | A switch begins exactly with a session and without an operation |
| TenantEffects.CreatesExactlyWhen | apps/web/components/notebook-home-workspace.jsx:151-154 | A creation begins exactly if the shown session is the current one and no switch is an operation |
| TenantEffects.CreationShows | apps/web/components/notebook-home-workspace.jsx:158-170 | A creation verified in its session and epoch lists its notebook first, once, and keeps the others |
| NotebookHomePage.Home.LoadCompletes | apps/web/components/notebook-home-workspace.jsx:66-99 | The end of a load on the mutable references |
| NotebookHomePage.Home.SwitchReplied | apps/web/components/notebook-home-workspace.jsx:231-262 | The end of a switch on the mutable references |
| NotebookHomePage.Home.CreateVerified | apps/web/components/notebook-home-workspace.jsx:151-171 | A created notebook is listed only under the epoch and session it was created in |
| NotebookHomePage.Replay | apps/web/components/notebook-home-workspace.jsx:40-268 | After any events the page is in the state that the model runs to |
| AdminUsers.MarkRemovedOnlyBy | apps/web/components/admin-user-console.jsx:86-115 | While the session stays, a save mark goes only by its own save or by a list asked for after the save had settled |
| AdminUsers.NothingElseSent | apps/web/components/admin-user-console.jsx:171-331 | While a save is marked nothing is saved, approved or reset for that user but by the save itself |
| AdminUsers.SettledStays | apps/web/components/admin-user-console.jsx:244-247 | A request object that has settled stays settled |
| AdminUsersEffects.LaterListConfirms | apps/web/components/admin-user-console.jsx:98-107 | A save that had settled when a list was asked for is marked no longer once that list has come, whatever happened in between, if the load is then still current |
| AdminUsersEffects.ListAsksExactlyWhen | apps/web/components/admin-user-console.jsx:90-100 | A list is asked for with exactly the saves that are marked and have settled; another session has no marks |
| AdminUsersEffects.ListDropsExactlyWhen | apps/web/components/admin-user-console.jsx:101-107 | A good list drops a mark exactly if it is current and was asked for with that very save; resets stay |
| AdminUsersEffects.SavesExactlyWhen | apps/web/components/admin-user-console.jsx:171-193 | A save is sent, marked by a request object of its own, exactly from a dialog while nothing runs and no save of the user is marked |
| AdminUsersEffects.ResetsExactlyWhen | apps/web/components/admin-user-console.jsx:302-310 | A reset is sent exactly if, besides, no reset of the user is marked |
| AdminUsersEffects.SaveSucceeds | apps/web/components/admin-user-console.jsx:226-233 | With calls left the next is sent; with none its own mark goes, a reset stays, and the dialog closes |
| AdminUsersEffects.SaveFails | apps/web/components/admin-user-console.jsx:234-247 | A save that fails stays marked, by a new request object that has settled |
| AdminUsersEffects.RecheckDecides | apps/web/components/admin-user-console.jsx:249-274 | A good recheck removes the marked save of its user and nothing else; a failed one removes nothing |
| AdminUsersEffects.ResetDecides | apps/web/components/admin-user-console.jsx:312-330 | A good reset removes its own mark and keeps a save; a failed one stays marked, and settles |
| AdminUsersEffects.StaleAnswerEnds | apps/web/components/admin-user-console.jsx:234-247 | An answer of an earlier epoch changes no mark and frees the page |
| AdminUsersEffects.LostSessionForgets | apps/web/components/admin-user-console.jsx:77-84 | A lost session forgets every mark and closes the dialog |
| AdminUsers.StepKeeps | apps/web/components/admin-user-console.jsx:86-331 | Every event keeps: one edit at a time, a marked save is settled or running, a load confirms only settled saves |
| AdminUsersPage.Page.LoadUsers | apps/web/components/admin-user-console.jsx:98-107 | A list drops the marks of the settled saves that are still the same |
| AdminUsersPage.Page.Continue | apps/web/components/admin-user-console.jsx:201-247 | An edit goes on, succeeds, fails with a new mark, or is stale, and always ends in its finally block |
| AdminUsersPage.Replay | apps/web/components/admin-user-console.jsx:86-331 | After any events the page is in the state that the model runs to |
| ProviderSettings.UncertainIsFrozen | apps/web/components/provider-settings-workspace.jsx:285-298 | While a connection is uncertain nothing is created, updated, replaced, deleted or refreshed for it, whatever is selected, loaded or cancelled, until a matching read or another workspace |
| ProviderSettings.PersonalStaysUncertain | apps/web/components/provider-settings-workspace.jsx:581-621 | Within a workspace no read and no version clears the uncertainty of a personal key |
| ProviderSettings.MarkedStaysFrozen | apps/web/components/provider-settings-workspace.jsx:477-579 | The same for one step: only a matching reading of the marked provider save clears its mark |
| ProviderSettings.ClearedMeansConfirmed | apps/web/components/provider-settings-workspace.jsx:477-492 | In every run, within a workspace, a mark is cleared only by a reading of its own save, whose values are then shown, and under the version it was to create exactly if it had no answer or one of that version |
| ProviderSettings.OldVersionCanClear | apps/web/components/provider-settings-workspace.jsx:477-492 | A run in which a mark is cleared and the old version shown |
| ProviderSettings.OldAnswerConfirms | apps/web/components/provider-settings-workspace.jsx:560-573 | A run in which an answer with the old version is refused and the unchanged list then confirms the save |
| ProviderSettingsEffects.UnclearIsMarked | apps/web/components/provider-settings-workspace.jsx:560-579 | In every run, within its workspace, a provider save whose reply was unclear waits for the list, or is marked for its connection, or a reading of the list has shown it |
| ProviderSettingsEffects.PersonalMarkedExactlyWhen | apps/web/components/provider-settings-workspace.jsx:598-621 | A current personal save is marked with itself exactly if its reply is open or names another connection; a refusal or a fitting answer marks nothing |
| ProviderSettingsEffects.RefusalMarksNothing | apps/web/components/provider-settings-workspace.jsx:565-579 | A refusal marks nothing, shows the failure and frees the page, for either kind of save |
| ProviderSettingsEffects.ProviderWaitsExactlyWhen | apps/web/components/provider-settings-workspace.jsx:560-569 | A current provider save that is not refused waits for a reading of the list, with what it was answered |
| ProviderSettingsEffects.ListDecides | apps/web/components/provider-settings-workspace.jsx:563-575 | A reading confirms a waiting save exactly if it shows it; otherwise an answered one is read once more or fails, and an unanswered one is marked |
| ProviderSettingsEffects.MatchesExactlyWhen | apps/web/components/provider-settings-workspace.jsx:477-487 | A list shows a save exactly if the first item of its connection has the values and the version of the answer or, without one, of the draft and the next version, no key being part of it |
| ProviderSettingsEffects.RecheckDecides | apps/web/components/provider-settings-workspace.jsx:494-503 | A reading asked for again confirms its save or leaves it marked, and only while nothing else has begun |
| ProviderSettingsEffects.RechecksExactlyWhen | apps/web/components/provider-settings-workspace.jsx:494-497 | The list is read again exactly if something is uncertain about what is shown and nothing is under way |
| ProviderSettingsEffects.SavesExactlyWhen | apps/web/components/provider-settings-workspace.jsx:505-529 | A save is sent, with the draft as it stands, exactly if none is under way and nothing is uncertain about the draft |
| ProviderSettingsEffects.SavesKeyExactlyWhen | apps/web/components/provider-settings-workspace.jsx:598-605 | A personal key is sent exactly if no save is under way and its connection is not marked |
| ProviderSettingsEffects.MutatesExactlyWhen | apps/web/components/provider-settings-workspace.jsx:698-730 | Deleting and refreshing are sent exactly for a selected connection that is not marked, with no save under way |
| ProviderSettingsEffects.LeavingSparesMarks | apps/web/components/provider-settings-workspace.jsx:389-403 | Cancelling and leaving forget what is shown, never a mark |
| ProviderSettingsEffects.SelectingShows | apps/web/components/provider-settings-workspace.jsx:285-298 | Selecting shows the connection as listed, and what is uncertain about it with the save to ask about |
| ProviderSettingsPage.Page.ListArrived | apps/web/components/provider-settings-workspace.jsx:563-579 | A save after a reading of the list: confirmed, failed, read once more, or uncertain |
| ProviderSettingsPage.Page.SelectConnection | apps/web/components/provider-settings-workspace.jsx:285-298 | Selecting a connection brings back what is uncertain about it |
| ProviderSettingsPage.Replay | apps/web/components/provider-settings-workspace.jsx:285-621 | After any events the page is in the state that the model runs to |
| LogicalModels.NormalizedGivesModels | apps/web/components/provider-settings-workspace.jsx:185-187 | A model list is trimmed, without empty entries, separators or repetitions |
| LogicalModels.SidesAreReadAlone | apps/web/components/provider-settings-workspace.jsx:185-187 | Around a comma or a line end both sides are normalized by themselves, and what the left side has is not listed again |
| LogicalModels.OnePiece | apps/web/components/provider-settings-workspace.jsx:185-187 | A text without separators is read as what stands between its outer blanks, or as nothing |
| LogicalModels.LinesReadBack | apps/web/components/provider-settings-workspace.jsx:69-86 | Models written as the lines of a draft read back as exactly those models |
| LogicalModels.NormalizingAgainChangesNothing | apps/web/components/provider-settings-workspace.jsx:69-86 | The lines of a normalized draft normalize to the same models |
| AccountSecurityRuns.AuthorizationsBalance | packages/ui/src/account-security-model.js:237-254 | Used authorizations are as many as domain mutations plus one for an approved move, and approval implies a used, matching authorization, in every reachable state |
| AccountSecurityRuns.RunKeeps | packages/ui/src/account-security-model.js:283-463 | Every run keeps scope and identity, only shrinks grants, only extends the audit log and the completed steps, and moves authorizations only from issued to used or expired |
| AccountSecurityRuns.OnlyTheLatestIsConsumed | packages/ui/src/account-security-model.js:250-254 | One action touches at most the latest authorization and appends at most one |
| AccountSecurityRuns.NoRoleEscalation | packages/ui/src/account-security-model.js:204-225 | After any actions a new authorization, a mutation and each of the last four steps of the move need the membership's own role and a grant that was there at the start; a mutation also a covering authorization |
| AccountSecurityRuns.DenialsStand | packages/ui/src/account-security-model.js:100-107 | An account permission that is denied stays denied for the same reason after any run |
| AccountSecurityRuns.OrderBreaksExactlyWhen | packages/ui/src/account-security-model.js:419-456 | One action breaks the fixed order of the move exactly if the move is finished and no step is named |
| AccountSecurityRuns.NamedStepsStayInOrder | packages/ui/src/account-security-model.js:419-456 | If callers always name the step, completed steps are a prefix of the fixed order in every run |
| AccountSecurityEffects.PerformedExactlyWhen | packages/ui/src/account-security-model.js:354-392 | An action is performed exactly if the latest authorization covers it and it may be done now; it then uses that authorization, counts and is logged, and revoke_device, and it alone, revokes the first device with the target, whose preview is shown |
| AccountSecurityEffects.DeniedOtherwise | packages/ui/src/account-security-model.js:354-377 | Otherwise nothing is done: the denial is logged with its code, and only a late authorization changes, to expired |
| AccountSecurityEffects.AuthorizedExactlyWhen | packages/ui/src/account-security-model.js:204-225 | A request may act exactly if a definition allows its action on its target, actor, policy, scope and role are the present ones, the role is allowed, and a needed permission is granted |
| AccountSecurityEffects.ValidExactlyWhen | packages/ui/src/account-security-model.js:237-248 | The latest authorization passes exactly if it is issued, not late, and of the actor, action, target and policy of the request |
| AccountSecurityEffects.IssuedExactlyWhen | packages/ui/src/account-security-model.js:331-353 | An authorization is issued, for just what the request names, exactly if the request may act; else the denial is logged |
| AccountSecurityEffects.IssuedCovers | packages/ui/src/account-security-model.js:237-248 | What was issued covers the same request exactly if that names actor and policy, and until it is late |
| AccountSecurityEffects.CompletedExactlyWhen | packages/ui/src/account-security-model.js:419-456 | A step of the move is completed exactly if it is the next one and what it needs is there: present access, for the approval an authorization that covers it, and for the last steps a used one |
| AccountSecurityEffects.MoveAllowedExactlyWhen | packages/ui/src/account-security-model.js:227-235 | The last steps are not denied exactly if the move may be done now and the authorization of its approval is used and of the present scope |
| AccountSecurityEffects.PermittedExactlyWhen | packages/ui/src/account-security-model.js:100-107 | A permission is given exactly in the own scope, to the active membership, under its own role if one is named, by a grant |
| AccountSecurityEffects.RevocationTakesEffect | packages/ui/src/account-security-model.js:303-307 | Revoking takes away the one grant and no other, and nothing that needs it is permitted afterwards |
| AccountSecurityEffects.RegisteredActions | packages/ui/src/account-security-model.js:15-23 | What the seven registered actions need: roles, permission and targets, whatever the organization defines |
| AccountSecurityEffects.PolicyShownExactlyWhen | packages/ui/src/account-security-model.js:314-323 | A change of policy is shown exactly to an organization admin who may approve deliveries |
| AccountSecurityEffects.EvaluationJudgesNow | packages/ui/src/account-security-model.js:397-418 | Past results are judged by the present access, always recorded, and rerun exactly if not blocked |
| RealmMoveOrder.OrderCanBreak | packages/ui/src/account-security-model.js:419-456 | A run from the initial state that finishes the move and then appends an undefined step |
| AccountSecurity.PerformSensitive | packages/ui/src/account-security-model.js:354-392 | The sensitive action on a changing clone of the state: denied, expired, or consumed, applied and audited |
| AccountSecurity.AdvanceMove | packages/ui/src/account-security-model.js:419-456 | The move step on a changing clone of the state, with its order, authorization and approval |
| AccountSecurity.IssueStepUpFor | packages/ui/src/account-security-model.js:331-353 | Issuing an authorization on a changing clone of the state |
| AccountSecurity.TransitionAccountSecurityState | packages/ui/src/account-security-model.js:283-463 | One action on a changing clone of the state |
| LawHash.LawSha256 | apps/web/lib/product-workspace-api.js:37-62 | The text is the SHA-256 of FIPS 180-4 for every message shorter than 2^29 bytes |
| LawHash.DigestIsStandard | apps/web/lib/product-workspace-api.js:37-62 | Hashing the program's padding is the standard's hash below 2^29 bytes |
| LawHash.PaddingIsStandard | apps/web/lib/product-workspace-api.js:49-50 | The padding is the standard's exactly for messages shorter than 2^29 bytes |
| LawHash.CompressBlock | apps/web/lib/product-workspace-api.js:55-59 | One block in place: the state holds the standard's next hash value |
| LawHash.ExpandSchedule | apps/web/lib/product-workspace-api.js:53-54 | The words array holds the standard's message schedule |
| LawHash.RoundRefines | apps/web/lib/product-workspace-api.js:56-58 | One round on mixed signed and unsigned numbers is the standard's round |
| LawHash.ScheduleWordRefines | apps/web/lib/product-workspace-api.js:54 | Sums of signed and unsigned terms are exact and, reduced, the standard's schedule word |
| LawHash.RotateRefines | apps/web/lib/product-workspace-api.js:51 | The signed result of rotate stands for the standard's rotation |
| LawHash.PaddedHexIsHex | apps/web/lib/product-workspace-api.js:61 | toString(16) padded to eight characters is the hexadecimal text of the word |
| SecureHashStandard.HexOfWordsIsHex | apps/web/lib/product-workspace-api.js:61 | Spelling the words one by one spells the digest, four bits to a character |
| SecureHashStandard.FirstPrimesAreFirst | apps/web/lib/product-workspace-api.js:40-47 | The table of primes holds all primes up to its last, in order |
| SecureHashStandard.RoundConstantsAreCubeRoots | apps/web/lib/product-workspace-api.js:40-47 | The round constants are the fractional parts of the cube roots of the first primes |
| SecureHashStandard.InitialHashIsSquareRoots | apps/web/lib/product-workspace-api.js:48 | The initial state is the fractional parts of the square roots of the first primes |
| LawCitation.FindWindow | apps/web/lib/product-workspace-api.js:153-159 | The window is found exactly if it is the only one with the cited identifier that is not blank; it starts at a multiple of 1024 and ends after 1024 points or with the text |
| LawCitation.MintedWindowIsFound | apps/web/lib/product-workspace-api.js:153-159 | If identifiers do not collide, a citation minted from a window that is not blank is found as that window |
| LawCitation.SpanNameReads | apps/web/lib/product-workspace-api.js:155 | The hashed text is the version, a bar and the shortest decimal numeral of the start, so that different windows of a version have different texts |
| Numerals.NumeralReads | apps/web/lib/product-workspace-api.js:155 | A numeral reads back as its number, with the reading that also bounds a declared length |
| BoundedReader.ReadBounded | apps/web/lib/bff-api-proxy.js:1125-1143 | The bytes are accepted exactly if declared and actual size are within the bound and the stream ends well; they are the chunks in order |
| BoundedReader.ReadBody | apps/web/lib/website-source-api.js:36-49 | What is held never exceeds the bound |
| BoundedReader.Assemble | apps/web/lib/product-workspace-api.js:146-147 | Copying the chunks one after the other gives their concatenation |
| BoundedReader.FlattenConcatenates | apps/web/lib/product-workspace-api.js:146-147 | One chunk gives its bytes, and chunks one after the other their bytes one after the other |
| WavValidator.ValidateWav | services/asr-base/server.py:17-41 | Accepts exactly the files that are tiled by at most 64 padded chunks, with one format, one data chunk and bounded metadata, and returns their length between one second and two minutes |
| WavValidator.OnlyParse | services/asr-base/server.py:20-36 | The chunks that were walked are the only way to read the file |
| WavValidator.ShortListIsDoomed | services/asr-base/server.py:32-34 | Where the INFO test looks past a short LIST chunk, what follows cannot be a chunk |
| WavFile.ChunkAtIsUnique | services/asr-base/server.py:23-26 | A written chunk is read back as itself, odd sizes padded |
| WavFile.FormatRoundTrip | services/asr-base/server.py:27-28 | The six fields of any format are read back as written, as far as a file has room for them |
| WavFile.FieldsOfFormat | services/asr-base/server.py:27 | Which bytes of a format hold which field, the least significant first |
| WavFile.PlainFileIsAcceptable | services/asr-base/server.py:37-41 | A plain file is accepted exactly if it is 16-bit PCM, mono or stereo, at one of the five rates, with whole frames for one second to two minutes; its length comes back from its frames and rate |
| Transcript.NormalizeSegments | services/asr-base/server.py:43-53 | However products are rounded, accepts exactly ordered, disjoint, non-empty segments within the duration and text bounds, with ids from one on, and raises an overflow exactly where the first item that is not fine is too large |
| Transcript.SegmentContainsItem | services/asr-base/server.py:47 | A segment contains its start and end exactly if their products were not rounded past a whole millisecond |
| Transcript.SegmentIsClose | services/asr-base/server.py:47 | With rounding to the nearest double neither end is off by a millisecond |
| Transcript.SegmentCanEndEarly | services/asr-base/server.py:47 | The double nearest to 0.001 gives a segment that ends before it |
| Transcript.TouchingFitsExactlyOnWholeMs | services/asr-base/server.py:47-48 | Segments that touch are in order exactly if their common product is a whole millisecond |
| Transcript.TouchingCanBeRefused | services/asr-base/server.py:47-48 | Segments that touch at 4.02 seconds are refused |
| Doubles.RoundingStaysBetween | services/asr-base/server.py:47 | Rounding to the nearest double moves no product past a whole number |
| Transcript.CoverageFits | services/asr-base/server.py:43-53 | Accepted segments cover no more time than the recording lasts |
| DesktopShell.ShownNotebookIsCurrent | apps/desktop/src/desktop-shell.jsx:108-142 | A shown notebook always belongs to the current session and workspace |
| DesktopShell.OnlyTheLatestInstalls | apps/desktop/src/desktop-shell.jsx:175-229 | A step shows what a request brought exactly if it answers that request and this is the latest, begun under the very session that is current |
| DesktopShell.NothingOldInstalls | apps/desktop/src/desktop-shell.jsx:108-120 | What was begun before a change of identity is never shown after it, though the first session come back |
| DesktopShell.HomeStaysRightExactlyWhen | apps/desktop/src/desktop-shell.jsx:108-120 | The home list goes on belonging to the current session and workspace exactly if these stay or it is empty |
| DesktopShell.ListOutlivesSession | apps/desktop/src/desktop-shell.jsx:108-120 | A run in which one session's list is still there when another has come |
| DesktopShell.IdentityChangeEndsRequests | apps/desktop/src/desktop-shell.jsx:108-120 | A change of identity, even one and back, makes every earlier request stale for good |
| DesktopShellEffects.ShownNotebookIsTheOneAsked | apps/desktop/src/desktop-shell.jsx:210-223 | In every run the notebook that is shown is the one named by the route that the request which brought it was for |
| DesktopShellEffects.OpenBegins | apps/desktop/src/desktop-shell.jsx:210-214 | Opening a notebook begins a request for exactly its route, if the rendered session is signed in |
| DesktopShellEffects.GoHomeBegins | apps/desktop/src/desktop-shell.jsx:193-199 | Going home leaves the notebook and begins a request for the list, if the rendered session is signed in |
| DesktopShellEffects.ContextShows | apps/desktop/src/desktop-shell.jsx:216-228 | A current context shows the notebook of its request under its route; a failing one leads home; an overtaken one does nothing |
| DesktopShellEffects.ListShows | apps/desktop/src/desktop-shell.jsx:200-207 | A current list shows exactly the notebooks of the reply, in its order; a failing one shows none |
| DesktopShellEffects.CreationShows | apps/desktop/src/desktop-shell.jsx:296-304 | A current creation puts its notebook first and keeps every other one |
| DesktopShellEffects.NotebookGoesOn | apps/desktop/src/desktop-shell.jsx:215-228 | A current notebook goes on to its context; a failing one leads home |
| DesktopShellEffects.StatusDecides | apps/desktop/src/desktop-shell.jsx:108-122 | Another identity ends all requests and leaves the notebook; the same one changes nothing |
| DesktopShellEffects.RevalidationBegins | apps/desktop/src/desktop-shell.jsx:239-255 | A revalidation makes every earlier request stale and is for the address and the session of that moment |
| DesktopShellEffects.RevalidationLeads | apps/desktop/src/desktop-shell.jsx:256-270 | A revalidation in force leads out of the session without an answer, into another one, or anew to the notebook or list of its address |
| DesktopShell.StepKeeps | apps/desktop/src/desktop-shell.jsx:108-313 | Every event keeps what is shown and the epochs right |
| DesktopShellPage.Shell.ApplySession | apps/desktop/src/desktop-shell.jsx:108-120 | Another identity starts new epochs and leaves the notebook |
| DesktopShellPage.Shell.ContextArrived | apps/desktop/src/desktop-shell.jsx:216-228 | A notebook is shown, or the home list opened, only by the current request |
| DesktopShellPage.Shell.CreatedArrived | apps/desktop/src/desktop-shell.jsx:296-304 | A created notebook comes first in the list, once, only by the current request |
| DesktopShellPage.Replay | apps/desktop/src/desktop-shell.jsx:108-325 | After any events the shell is in the state that the model runs to |
| OfflineStudio.RunKeeps | apps/desktop/src/offline-studio-model.js:87-190 | In every reachable state confirmed settings and their flag agree, selected sources are available, the selected version exists and the context is normalized |
| OfflineStudio.RunExtends | apps/desktop/src/offline-studio-model.js:87-104 | Versions are only appended and the request revision never falls |
| OfflineStudio.LateRepliesAreIgnored | apps/desktop/src/offline-studio-model.js:91-95 | A reply to an earlier request changes nothing once a later request has started |
| OfflineStudio.ConfirmedStays | apps/desktop/src/offline-studio-model.js:148-162 | Every action but the two that replace inputs keeps confirmed settings confirmable |
| OfflineStudio.ModelsKeepConfirmed | apps/desktop/src/offline-studio-model.js:102-104 | A list of models does exactly if the selected model in it is usable |
| OfflineStudio.SourcesKeepConfirmed | apps/desktop/src/offline-studio-model.js:105-125 | A list of sources does exactly if no raw source is needed or a selected one is still available |
| OfflineStudioEffects.ConfirmedExactlyWhen | apps/desktop/src/offline-studio-model.js:67-85 | Settings are confirmed exactly if the first model with the selected id runs on this server and is ready, and the context holds what its mode needs |
| OfflineStudioEffects.SelectionDecides | apps/desktop/src/offline-studio-model.js:126-147 | An available source is selected or deselected, the raw items of the context are those of the selection, and the settings are no longer confirmed |
| OfflineStudioEffects.SourcesDecide | apps/desktop/src/offline-studio-model.js:105-125 | A new list keeps exactly the selected sources that it has, and the raw items of the context follow |
| OfflineStudioEffects.ChoicesUnconfirm | apps/desktop/src/offline-studio-model.js:148-154 | A new model or a valid context takes the confirmation away; an invalid context changes nothing |
| OfflineStudioEffects.StartsExactlyWhen | apps/desktop/src/offline-studio-model.js:98-101 | A request starts exactly with a later revision, the only one that replies may then carry |
| OfflineStudioEffects.VersionsAreAppended | apps/desktop/src/offline-studio-model.js:163-176 | Drafts and versions are appended and selected |
| OfflineStudioEffects.FailureIsSafe | apps/desktop/src/offline-studio-model.js:180-185 | A failure shows a code of capitals, digits and underscores, and a general one for any other text |
| OfflineStudio.ConfirmedCanBreak | apps/desktop/src/offline-studio-model.js:102-104 | A reachable state whose confirmed settings an empty list of models makes unconfirmable |

## Left out

- React rendering, styles, focus handling and stale render closures: every handler sees the current state, except in the
  desktop shell, where the rendered session may lag behind.
- Docker, PostgreSQL, MinIO, `/proc`, forking, HTTP servers, the speech model and the Tauri bridge are answers that the
  environment gives. `_PosixFiles`, `ServiceSnapshotExecutor` and `ImageArchiveStore` are not part of this model beyond the
  assumptions above.
- `parse_config` and its validators, the checks of file modes, links and digests, and the fields of a container row that are
  only compared as a whole.
- The BFF route table, the response validators, `createAbortScope` and `waitWithAbort`: an abort is the number of reads after
  which it happens.
- Unmounting the organization and provider pages without rebuilding them: a page that is left sends nothing.
- OrganizationPage.Page.AdoptSession: aborting a request is modelled by what its answer may then be, not by a signal.
- The busy flag does not guard a retry in the organization forms, so that more interleavings are covered than a user can reach.
- GuardedCapture.Capture: the checks of images, identity and time between the rechecks are one failure that may happen there;
  their order is in `OperatorTrails`.
- LawHash.LawSha256: messages whose length in bits a JavaScript number cannot hold exactly are not covered.
- Transcript.NormalizeSegments: rounding is any rounding to a nearest binary64 number, ties and the choice of mode left open.
- LawCitation.FindWindow: source versions are ASCII; decoding the text is not modelled.
- LogicalModels.LinesReadBack: white space is space, tab and line ends.
- AdminUsers.NothingElseSent: deleting users is not guarded by the marks and is not modelled; the calls inside a role change
  are one call.
- TenantSwitch.DropReasons: a session check that fails with a code that would refuse a switch is treated as any failing check.
- DesktopShell.StepKeeps: a revalidation ends when it hands over to loading or opening, not when that is done.
- DesktopShell.HomeStaysRightExactlyWhen: the effect that loads home after a render is an event that may come at any time.
  Concealing and revealing the page are not modelled.
- AccountSecurity.AdvanceMove: a target that is missing altogether is not modelled; requests name one.
- Usage figures, messages and texts shown to the user.
