# Certificate rotation on an A10 appliance, verified

This project models the certificate synchronization of `pkg/a10` in Dafny and
proves what it keeps, whatever the appliance answers and, where it says so,
whoever else writes.

The appliance is a class whose every request is one atomic step with an
arbitrary response and an arbitrary admissible effect: a request that reports
failure may have been applied, a bind may append or replace a sole entry, a
response may list bindings in any order with any generated metadata. With
`Mode.rival` the whole state may change before any call; without it (a *sole
writer*) only the calls change it. SHA-256 is an injective function, so a
revision is represented by the canonical state that is hashed.

A session records each call in a ghost journal, together with what was known
before it. `Monitor` says which request is justified by that knowledge, and
every mutating wrapper demands it; the number of calls the appliance received is
part of the session invariant, so nothing is sent past the journal. `Safety`
shows that justified requests keep the appliance safe when nobody else writes,
and `Traces` turns a valid journal into statements about the calls alone.

| file | content |
|---|---|
| `JsonTree`, `Templates`, `Sorting`, `Revision`, `Contents` | decoded responses, typed templates, the canonical revision, congruence of adding and removing a binding |
| `References`, `Responses` | the reference scan and its relation to the raw response; states have responses |
| `Appliance`, `Monitor`, `Safety`, `Session` | environment, justified requests, invariants, journal |
| `Rollback`, `Restore` | undoing uploads; bringing the template back |
| `Targets`, `Checks`, `Uploads`, `Rotation`, `Persisting`, `Cleanup`, `Sync`, `Synchronization` | the phases of a synchronization, in order |
| `Traces` | theorems about whole runs |
| `Repetition` | the next call, after a completed or an interrupted one |
| `PreStaging` | creation of an unbound managed pair |
| `Lifecycle`, `ManagedQueue` | sessions under concurrency |
| `Names`, `Collision`, `BundleEncoding` | managed names, collision check, hashed bytes |
| `Witnesses` | starting points from which a failed save is not rolled back, or with old names that cannot be sent |

Main results, in the order of the protocol:

* `Synchronization.SyncCertificate`: without a fault the final revision is that
  of the baseline with the desired entry added if absent and the selected old
  certificate removed, on all three paths and under any interference, and that
  state was read after the last binding change. A failure is explained by what
  was read. With a sole writer and no failing call the end is decided: a
  collision if an existing managed file is not described as the bundle's, a
  conflict if the desired name is bound otherwise (the bind has then overwritten
  that entry), else the goal, unless the old certificate name cannot be sent and
  the appliance did not replace the entry by itself; a cleanup then completes
  exactly if every disposable name can be sent.
* `Traces.ForwardChangesFollowReads`, `Traces.StopsAfterMismatch`: fail closed.
* `Traces.ReferencesAlwaysResolved`, `Traces.ServiceContinues`: no dangling
  reference and no gap in service after any call, rollback included.
* `Restore.RollbackSynchronization`: soundness under any interference; a sole
  writer succeeds only if the run is restorable (`Restore.Restorable`), and
  exactly then if no call fails. A run is restorable if the desired name was free
  at the start and the entry to put back, if any, has names that the client
  sends, or if the desired entry was bound already and none was to be replaced.
  The repository's README and its production notes promise that the baseline is
  restored, and a `RollbackError` if the compensation is incomplete; they do not
  say that it can be impossible although no request of it fails. `Witnesses` has
  two families of such states. The model follows the code, which reports an
  ambiguous state there; `SyncCertificate` states the condition for the whole
  operation.
* `Repetition.SyncAgain`: repeating a completed synchronization sends only reads
  and changes nothing. `Repetition.Retry`: after a run that ended in whatever
  way, with the desired name free or bound as desired, a call with the same
  arguments has the same goal and reaches it without a failing call. The
  repository says that such a call converges; there are two exceptions.
  A call that names no certificate takes the desired entry as current once it is
  bound: an old entry beside it stays, and a goal that was not saved is not saved.
  And a call that names the old certificate is refused once that is gone.
* `Revision.RevisionCharacterisation`: what a revision identifies.
* `PreStaging.CreateManagedCertificate`: all or nothing.
* `Lifecycle.SessionOrderly`, `ManagedQueue.OperationsSequential`: every
  interleaving of any number of threads.

Where documentation and code differ the model follows the code: after an
accepted bind a third state is reported as a conflict, while the repository's
README speaks of an ambiguous state for every third state.

Assumptions of the sole-writer statements: certificate names are unique within
a template (the appliance keys the list by them), and every named file exists at
the start. Crash safety of the saved configuration further needs a failed save
to have no effect and, with saving switched off, cleanup to be off as well:
with saving off and cleanup on the program deletes replaced files that the saved
configuration may still name (`Synchronization.UnsavedCleanupDangles`), and a
failed save that was applied names uploads that a rollback then deletes
(`Safety.LossySaveDangles`). Exact
restoration of the stores needs a failed upload to have no effect. These are the
flags `Mode.lossySave`, `Mode.lossyUpload` and `Run.guarded`; nothing else
depends on them.

Check everything with `dafny verify dfyconfig.toml`.

## Model

| member | source | states |
|---|---|---|
| JsonTree.RemoveGeneratedMetadata | pkg/a10/state.go:82-95 | the walk deletes exactly what the mathematical strip removes, at every depth |
| JsonTree.StripAt | pkg/a10/state.go:82-95 | a path survives stripping exactly when it existed and runs through no generated key, and leads to the stripped form of what was there |
| JsonTree.StripIdempotent | pkg/a10/state.go:82-95 | stripping twice is stripping once |
| JsonTree.ScanIsExact | pkg/a10/sync.go:921-939 | the scan succeeds exactly when some path ends in the target string |
| JsonTree.StripKeepsStrings | pkg/a10/state.go:82-95 | stripping never invents a string |
| Templates.FindBinding | pkg/a10/sync.go:950-957 | finds a binding with the name, or none has it |
| Templates.TemplateWithoutCertificate | pkg/a10/state.go:212-221 | the copying loop keeps exactly the other bindings, in order |
| Revision.EntryTextInjective | pkg/a10/state.go:41-59 | different entries have different JSON texts, so sorting by text has no ties between different entries |
| Revision.InOrderIsTotalOrder | pkg/a10/state.go:55-59 | the comparison of the sort is a total order |
| Sorting.SortedUnique | pkg/a10/state.go:55-59 | a multiset has only one sorted arrangement, so input order does not matter |
| Revision.ComputeRevision | pkg/a10/state.go:40-80 | the program computes a function of logical content alone |
| Revision.RevisionInjective | pkg/a10/state.go:60-80 | equal revisions mean equal content |
| Revision.RevisionCharacterisation | pkg/a10/state.go:40-80 | revisions are equal exactly when names, multisets of entries and stripped remaining trees are equal |
| Contents.WithBindingContent | pkg/a10/state.go:203-210 | adding a binding adds its entry to the content unless present |
| Contents.WithoutCertificateContent | pkg/a10/state.go:212-221 | removing by name removes exactly the entries of that name |
| Contents.RevisionCongruence | pkg/a10/state.go:203-221 | revision equality is preserved by adding the same binding and by removing the same name |
| Contents.GoalEntries | pkg/a10/sync.go:468-557 | the goal keeps name, rest and every unselected entry, holds the desired entry and no entry of the replaced name |
| Contents.HasBindingMember | pkg/a10/sync.go:959-966 | the search for an equal binding decides membership of the logical entry |
| References.ClientScanIsRawScan | pkg/a10/sync.go:871-893 | for a decoded client-SSL template the typed checks add nothing: the answer is whether the name is a string of the response |
| References.ServerScanIsRawScan | pkg/a10/sync.go:895-904 | the same for server-SSL templates |
| References.EntryIsLeaf | pkg/a10/sync.go:906-919 | every file a binding names is a string of the response |
| References.RestIsLeaf | pkg/a10/sync.go:906-919 | a string of the revision state outside the bindings is a string of the response |
| Responses.ResponseShows | pkg/a10/certificates.go:215-236 | decoding the response of a state gives back that state |
| Appliance.Device.GetTemplate | pkg/a10/certificates.go:499-514 | a successful read shows the template as it is, in some order and with some metadata |
| Appliance.Device.ListCertificates | pkg/a10/certificates.go:447-484 | a listing shows the store without empty names |
| Appliance.Device.UploadKey | pkg/a10/certificates.go:568-586 | an acknowledged upload adds the file; a refused one adds it or not |
| Appliance.Device.UploadCertificate | pkg/a10/certificates.go:531-566 | the same for certificates and chains, with their metadata |
| Appliance.Device.Bind | pkg/a10/certificates.go:619-646 | overwrites by name, or replaces a sole entry; a refused bind may have done either |
| Appliance.Device.Unbind | pkg/a10/certificates.go:649-658 | drops the entries of the name; a refused unbind may have done so |
| Appliance.Device.Delete | pkg/a10/certificates.go:661-685 | deletes the selected files; a refused deletion may have stopped half way |
| Appliance.Device.WriteMemory | pkg/a10/certificates.go:688-698 | copies the running to the saved configuration; a refused save leaves it unless saves are lossy |
| Monitor.JournalExtends | pkg/a10/sync.go:346-595 | appending a justified call with a safe outcome keeps the journal valid |
| Safety.UploadKeySafe | pkg/a10/sync.go:429-436 | a justified key upload keeps the sole-writer invariant, acknowledged or not |
| Safety.UploadCertificateSafe | pkg/a10/sync.go:437-460 | the same for certificate and chain uploads |
| Safety.BindSafe | pkg/a10/sync.go:470-484 | a justified bind keeps the invariant under both bind semantics, acknowledged or not |
| Safety.BindServes | pkg/a10/sync.go:470-515 | both outcomes of a justified bind keep old or desired entry and all unselected ones bound |
| Safety.UnbindSafe | pkg/a10/sync.go:535-546 | a justified unbind keeps the invariant, forward and in a rollback |
| Safety.SaveSafe | pkg/a10/sync.go:558-579 | a justified save keeps the invariant |
| Safety.NoUploadIfBound | pkg/a10/sync.go:400-414 | if the desired entry was bound at the start, the run has uploaded nothing |
| Safety.UndoWorld | pkg/a10/sync.go:649-659 | undoing uploads deletes nothing that a running or saved template names |
| Safety.UndoSafe | pkg/a10/sync.go:649-659 | undoing uploads keeps the invariant |
| Safety.PurgeResolved | pkg/a10/sync.go:811-869 | deleting names that no response mentions leaves every reference resolved |
| Safety.PurgeSafe | pkg/a10/sync.go:849-867 | cleanup keeps the invariant |
| Sessions.Session.GetClientSSLTemplate | pkg/a10/certificates.go:499-514 | the read is journalled, and true with a sole writer |
| Sessions.Session.ListCertificateFiles | pkg/a10/certificates.go:392-402 | the listing is journalled, drops empty names, and is true with a sole writer |
| Sessions.Session.ListKeyFiles | pkg/a10/certificates.go:406-416 | the same for keys |
| Sessions.Session.UploadKey | pkg/a10/certificates.go:568-586 | sent only when justified and with a valid name; journalled |
| Sessions.Session.UploadCertificate | pkg/a10/certificates.go:531-566 | the same for certificates and chains |
| Sessions.Session.BindCertificate | pkg/a10/certificates.go:619-646 | sent only when justified and with valid names; accepted, the content changed as one of the two semantics says |
| Sessions.Session.UnbindCertificate | pkg/a10/certificates.go:649-658 | sent only when justified; accepted, exactly the name is gone |
| Sessions.Session.DeleteUploaded | pkg/a10/certificates.go:661-685 | deletes only own uploads, and only when justified |
| Sessions.Session.DeleteReplaced | pkg/a10/certificates.go:661-685 | deletes replaced files, only when justified; accepted, exactly those are gone |
| Sessions.Session.WriteMemory | pkg/a10/certificates.go:688-698 | saves only when justified; journalled |
| Rollback.RollbackUploadedMaterial | pkg/a10/sync.go:649-672 | success means the uploads are no longer listed and, with a sole writer, gone; without a failing call a sole writer always succeeds; bindings are untouched |
| Restore.RestoringBind | pkg/a10/sync.go:616-629 | from the goal, either bind semantics and the removal of the desired name give the baseline |
| Restore.RestoringUnbind | pkg/a10/sync.go:625-629 | with no entry to put back, removing the desired name gives the baseline |
| Restore.PreviousGone | pkg/a10/sync.go:616-619 | once the goal is read the replaced entry is absent, so the restoring bind is always sent |
| Restore.ReverseBinding | pkg/a10/sync.go:606-629 | with a sole writer, success means the baseline is back; it succeeds only if the replaced entry can be sent, and then always unless a call fails |
| Restore.RestoreTemplate | pkg/a10/sync.go:597-632 | a sole writer gets through only with the baseline back, or with nothing changed because the desired entry was bound already; a restorable run gets through unless a call fails |
| Restore.Inspect | pkg/a10/sync.go:633-639 | a matching inspection read exactly the reference content; with a sole writer and no failing call it matches exactly when the content is there |
| Restore.RestoreBaseline | pkg/a10/sync.go:597-639 | success means the baseline was read after the last binding change; a sole writer succeeds only if the run is restorable, and exactly then if no call fails |
| Restore.PersistBaseline | pkg/a10/sync.go:640-646 | the restored state is saved after the uploads were seen gone; with a sole writer the stores are as before |
| Restore.RollbackSynchronization | pkg/a10/sync.go:597-647 | soundness, full restoration of template, stores and saved state, and the exact condition: a sole writer succeeds only if the run is restorable, and exactly then if no call fails |
| Restore.GoalIsBaseline | pkg/a10/sync.go:605-632 | nothing has to change exactly when the desired entry is bound at the start and none is to be replaced |
| Restore.BoundIsSame | pkg/a10/sync.go:605-632 | with unique names, the entry found under the desired name decides whether the desired entry was bound |
| Witnesses.BareResponse | pkg/a10/certificates.go:215-236 | every list of entries is shown by some response, so the states below can be read |
| Witnesses.BothBound | pkg/a10/sync.go:605-638 | old and desired entry side by side: not restorable |
| Witnesses.OldRefused | pkg/a10/certificates.go:619-630 | a sole old entry whose key has a name that the client refuses to send: not restorable |
| Witnesses.SyncUnrestorable | pkg/a10/sync.go:564-573 | from either state a whole call whose save fails ends with a failed rollback, even if no other request fails |
| Witnesses.SyncSoleOld | pkg/a10/sync.go:534-546 | replacing a sole entry without cleanup: key and chain names do not matter, and a certificate name that cannot be sent stops the call exactly if the appliance did not replace the entry by itself |
| Targets.SelectionSound | pkg/a10/sync.go:739-759 | selection stays inside the list and never passes over a sole binding |
| Targets.RestoresTheSelected | pkg/a10/sync.go:606-615 | whenever a rollback looks for the entry to put back it finds the selected one |
| Targets.SelectsDesired | pkg/a10/sync.go:747-749 | without a named certificate a bound desired entry is selected, even beside others |
| Targets.SelectsNamed | pkg/a10/sync.go:740-746 | naming a bound certificate selects its entry |
| Targets.UnselectableExactly | pkg/a10/sync.go:739-759 | exactly when selection fails |
| Checks.RequireTemplateRevision | pkg/a10/state.go:186-201 | agreement means the expected content was read by the last call; a conflict carries the awaited revision and that of the state just read; a sole writer always agrees |
| Checks.Compare | pkg/a10/state.go:197-200 | comparing revisions decides equality of content |
| Uploads.ReadInventories | pkg/a10/sync.go:416-427 | the three inventories, true of a sole writer |
| Uploads.StageCertificate | pkg/a10/sync.go:437-448 | a listed file must carry the metadata of the certificate, a missing one is uploaded; a collision is reported exactly when there is one |
| Uploads.StageKey | pkg/a10/sync.go:428-436 | a missing key is uploaded, a listed one reused |
| Uploads.UploadMaterial | pkg/a10/sync.go:428-460 | success means nothing collides and leaves exactly the missing files uploaded; a reported collision is one; otherwise a call failed |
| Uploads.MaterialIsReady | pkg/a10/sync.go:428-461 | after that every file of the desired entry was listed or uploaded |
| Uploads.FitsIsFree | pkg/a10/sync.go:437-460 | the operational metadata in the stores fits exactly if the listings show no collision |
| Uploads.StageMaterial | pkg/a10/sync.go:416-461 | inventories and uploads together; with a sole writer success and collision say whether the metadata in the stores fits; any other failure is a failing call |
| Rotation.BindOutcomeExact | pkg/a10/sync.go:496-515 | the classification of a bind is total and exact: continue, retryable, ambiguous, conflict |
| Rotation.BindExpectations | pkg/a10/sync.go:471-475 | the two templates an accepted bind may lead to have the content of baseline plus desired and of the goal |
| Rotation.ClassifyBind | pkg/a10/sync.go:496-515 | comparing revisions computes that classification |
| Rotation.AcceptedBindRecognised | pkg/a10/sync.go:496-502 | an accepted bind of a free name is recognised under either semantics |
| Rotation.OverwritingBind | pkg/a10/sync.go:503-515 | an accepted bind of a name that is bound otherwise loses the other entry, and the result is neither of the expected states |
| Rotation.InterpretBind | pkg/a10/sync.go:486-515 | which error reports which observation |
| Rotation.SendBind | pkg/a10/sync.go:470-519 | after the bind the read-back decides; without a failing call a sole writer continues if the name was free, and ends in a conflict with the other entry overwritten if it was not |
| Rotation.ConfirmBound | pkg/a10/sync.go:520-525 | an already bound entry only needs the baseline to stand |
| Rotation.BindDesired | pkg/a10/sync.go:462-525 | the baseline was read directly before the bind; a bind is sent exactly when the entry is not bound |
| Rotation.OldStillThere | pkg/a10/sync.go:527-533 | after an addition the old name is bound, and with unique names unchanged |
| Rotation.OldGone | pkg/a10/sync.go:547-551 | after a replacement the old name is gone |
| Rotation.RequestUnbind | pkg/a10/sync.go:535-541 | the state with both entries was read directly before the unbind |
| Rotation.UnbindCurrent | pkg/a10/sync.go:534-546 | success means the goal was read after the unbind |
| Rotation.RemoveCurrent | pkg/a10/sync.go:527-555 | clears the old entry; the missing-without-replacement branch is unreachable, the changed-entry branch needs duplicate names; a sole writer with an old name that cannot be sent gets through exactly if the entry was replaced already |
| Persisting.SaveGoal | pkg/a10/sync.go:557-565 | the goal was read directly before the save |
| Persisting.Persist | pkg/a10/sync.go:557-579 | saved, refused before the save, rolled back, or stuck, with the meaning of each; for a sole writer rolled back only if restorable, and stuck after no other failing call only if not |
| Cleanup.ReferencedByClients | pkg/a10/sync.go:820-826 | the scanning loop decides whether a listed response contains the name |
| Cleanup.ReferencedByServers | pkg/a10/sync.go:827-833 | the same for server-SSL templates |
| Cleanup.Referenced | pkg/a10/sync.go:820-834 | a negative answer means no listed response contains the name |
| Cleanup.DecideDisposal | pkg/a10/sync.go:835-856 | exactly the replaced names that no response contains; a failing scan decides nothing |
| Cleanup.DeleteDisposal | pkg/a10/sync.go:857-867 | exactly those files are deleted; without a failing call exactly if all names can be sent |
| Cleanup.DeleteUnreferenced | pkg/a10/sync.go:811-869 | lists first, scans second, deletes last; with a sole writer the stores lose exactly the disposable names |
| Sync.ClearOld | pkg/a10/sync.go:527-555 | the goal is settled whether or not an old entry had to be removed |
| Sync.Rotate | pkg/a10/sync.go:462-555 | binding change as a whole: settled goal, or a fault that says what was seen; without a failing call a sole writer is stopped exactly by an occupied name, or by an old name that cannot be sent of an entry that the appliance did not replace by itself |
| Sync.CleanUp | pkg/a10/sync.go:580-593 | cleanup is saved if it deleted anything and saving is on; without a failing call it completes exactly if every disposable name can be sent |
| Sync.Conclude | pkg/a10/sync.go:556-595 | save, then cleanup; the goal stands after either outcome of the cleanup, which the lists decide unless a call fails |
| Sync.UploadsMeanUnbound | pkg/a10/sync.go:400-414 | with a sole writer uploads happen only when the desired entry was not bound |
| Sync.StoresRestored | pkg/a10/sync.go:400-414 | with the uploads gone the stores are as at the start |
| Sync.Compensate | pkg/a10/sync.go:402-414 | the deferred compensation deletes own uploads only, turns its own failure into an ambiguous error, and without a failing call of its own a sole writer always succeeds |
| Sync.CompensatesEarly | pkg/a10/sync.go:402-414 | with a sole writer the deferred compensation runs only while the template is the baseline |
| Sync.FaultExplained | pkg/a10/sync.go:462-579 | every reported failure is explained by what the last template read showed: a conflict or an ambiguous error reports the revision of that state, which is no expected one, and a conflict follows the read with nothing but compensation in between |
| Sync.GoalMeansFree | pkg/a10/sync.go:496-515 | a sole writer that reaches the goal had found the desired name free or bound as desired |
| Sync.FailedSaveIsAmbiguous | pkg/a10/sync.go:564-573 | a failed save that was not rolled back is an ambiguous error |
| Sync.SyncSelected | pkg/a10/sync.go:400-595 | success reaches, observes and reports the goal exactly; a failure explains itself and says what it left; without a failing call the start of a sole writer, its old names and the lists of a cleanup decide how it ends |
| Synchronization.InitialSole | pkg/a10/sync.go:371-378 | the invariant holds when the first read returns |
| Synchronization.SelectionRight | pkg/a10/sync.go:388-398 | which entry of the baseline is replaced |
| Synchronization.DesiredManaged | pkg/a10/sync.go:357-366 | managed names can always be sent |
| Synchronization.OpenRun | pkg/a10/sync.go:346-392 | a call that stops before the run has a stated reason and sent only reads |
| Synchronization.SyncCertificate | pkg/a10/sync.go:346-595 | the whole operation: refinement and observation of the goal, explained failures, the exact condition of a rollback after a failed save, the exact outcome without a failing call, and safety after every call |
| Synchronization.UnsavedCleanupDangles | pkg/a10/sync.go:580-592 | with saving off and the running configuration saved at the start, the saved one is resolved exactly while the files of the old entry exist, however the call ends; after a completed call exactly if nothing was deleted |
| Safety.UnsavedResolvedExactly | pkg/a10/sync.go:849-867 | the same after whatever calls of a run |
| Synchronization.DeletedIsMissing | pkg/a10/sync.go:580-593 | a completed run has kept the files of the old entry exactly if it reports no deletion |
| Safety.LossySaveDangles | pkg/a10/sync.go:640-659 | a failed save that was applied while the desired entry was bound: undoing an upload leaves the saved configuration dangling |
| Repetition.SyncAgain | pkg/a10/sync.go:335-344 | repeating a completed synchronization sends only reads and leaves the appliance unchanged, whichever reads fail; if none fails it succeeds and reports no change |
| Repetition.LeftBaselineOrDesired | pkg/a10/sync.go:400-647 | however a run of a sole writer ends, it leaves the baseline or a template that binds the desired entry |
| Repetition.StatesLeft | pkg/a10/sync.go:400-647 | unless the desired name was bound otherwise, a run leaves the baseline, the state with both entries, or the goal |
| Repetition.SelectedOnce | pkg/a10/sync.go:739-759 | the same names select the same entry of the same template |
| Repetition.Unselected | pkg/a10/sync.go:739-759 | the next call is refused a selection only if it names a certificate that is no longer bound |
| Repetition.NextPlan | pkg/a10/sync.go:388-398 | the next run has the goal of the first, except that a call that names no certificate keeps an old entry beside the desired one |
| Repetition.Retry | pkg/a10/sync.go:335-344 | what a retry does from every state that a run left: same goal and, without a failing call, in it; but without a named certificate it only reads once the desired entry is bound, so that an old entry beside it stays and an unsaved goal is not saved |
| Repetition.RepeatHasNothingToDo | pkg/a10/sync.go:747-749 | a run that starts from its own goal has nothing to upload, bind or replace |
| Traces.ForwardChangesFollowReads | pkg/a10/sync.go:462-565 | bind, unbind and first save each directly follow a read of exactly the expected state, under any interference |
| Traces.StopsAfterMismatch | pkg/a10/sync.go:383-414 | after a read of any state but the one the program goes on with, only reads follow and, if no bind was sent, deletions |
| Traces.LastRead | pkg/a10/state.go:193-197 | a read that still counts at the end was the last call |
| Traces.LastSettled | pkg/a10/state.go:193-197 | what the final knowledge says of the template was shown by a read, with no binding change after it |
| Traces.UndoDeletesOwnUploads | pkg/a10/sync.go:649-659 | compensation deletes only files that an earlier call of the run uploaded |
| Traces.PurgeFollowsListings | pkg/a10/sync.go:811-869 | a cleanup deletion follows complete listings that contain none of its names, with no binding change between |
| Traces.PurgeFollowsSave | pkg/a10/sync.go:556-592 | with saving on, replaced files go only after the goal was read and saved |
| Traces.RollbackSaveFollowsRestoration | pkg/a10/sync.go:633-646 | a rollback saves only after the baseline was read since the last binding change and no upload is listed since the last deletion |
| Traces.ReferencesAlwaysResolved | pkg/a10/sync.go:400-672 | after every call every file named by a running template exists, and by a saved one if saving is on or cleanup off, and a failed save has no effect |
| Traces.UploadsAreNew | pkg/a10/sync.go:429-460 | with a sole writer no upload goes to a name that existed at the start |
| Traces.ServiceContinues | pkg/a10/sync.go:470-555 | after every call the template binds the old or the desired entry and every unselected one, which only the desired entry may displace under its name; other templates are untouched |
| Traces.OnlyReads | pkg/a10/sync.go:335-344 | a sole writer that finds the desired entry bound and nothing to replace sends only reads, whichever of them fail |
| PreStaging.StageNext | pkg/a10/sync.go:298-321 | one more file: reused if it matches, uploaded if missing; the record of uploads stays exact |
| PreStaging.UploadAll | pkg/a10/sync.go:291-321 | key, certificate, chain; stops at the first failure with an exact record |
| PreStaging.UndoUploads | pkg/a10/sync.go:649-672 | with a sole writer it restores the stores and never reports a file as remaining; only own uploads are deleted |
| PreStaging.TakeBack | pkg/a10/sync.go:260-278 | compensation, and the save of the cleaned state if a save was tried |
| PreStaging.SaveStaged | pkg/a10/sync.go:322-331 | the save of the uploads, tried only if something was uploaded and saving is on |
| PreStaging.PreStage | pkg/a10/sync.go:279-333 | from the inventories to the save: all files, each uploaded or listed with fitting metadata whoever else writes, or the stores as before, or an ambiguous error; success and collision say whether the metadata in the stores fits |
| PreStaging.CreateManagedCertificate | pkg/a10/sync.go:239-333 | pre-staging is all or nothing, never deletes an earlier file, fails without a failing call only for stated reasons, a collision only if a file in the stores is described otherwise, and succeeds only when its calls uploaded or listed every file |
| Lifecycle.LocksKept | pkg/a10/client.go:305-348 | readers and writer are the threads inside, never both |
| Lifecycle.RequestSent | pkg/a10/client.go:338-348 | a request goes out only while no close is at work |
| Lifecycle.LogoffSent | pkg/a10/client.go:305-320 | logoff goes out only while no request is in flight |
| Lifecycle.RunInvariant | pkg/a10/client.go:305-348 | the invariant holds after every schedule of any number of threads |
| Lifecycle.SessionOrderly | pkg/a10/client.go:305-348 | no request in flight at logoff, none after it, at most one logoff, always the own token |
| ManagedQueue.OperationsSequential | pkg/a10/sync.go:193-235 | managed operations of one client never overlap: each closes its session before the next login, and every session whose login was answered is closed when none is inside; one whose login was lost is never used and stays open |
| ManagedQueue.OpenUntilClosed | pkg/a10/client.go:222-252 | an opened session is open until it is closed |
| ManagedQueue.LostIsNeverTouched | pkg/a10/client.go:222-252 | a session whose login got no answer is never used and never closed |
| ManagedQueue.TellsFitting | pkg/a10/client.go:222-252 | signals fit the open session, and a thread that leaves its session, on whichever way, closes it |
| Names.SanitizeName | pkg/a10/sync.go:713-729 | the loop computes the sanitised name |
| Names.SanitizeShape | pkg/a10/sync.go:713-729 | allowed characters only, no dash or dot at the ends, never longer |
| Names.SanitizeIdempotent | pkg/a10/sync.go:713-729 | sanitising twice is sanitising once |
| Names.RunBecomesDash | pkg/a10/sync.go:716-726 | a run of other characters between allowed ones becomes exactly one dash |
| Names.SanitizeKeepsSignificant | pkg/a10/sync.go:713-729 | letters, digits and underscores survive in order |
| Names.ManagedNamesValid | pkg/a10/sync.go:692-737 | both names can be sent, fit, keep a prefix and end in the digest |
| Names.DigestsSeparateNames | pkg/a10/sync.go:692-711 | different truncated digests give different names, of pairs and of chains |
| Names.NamesCoincideExactly | pkg/a10/sync.go:705-709 | when pair name and chain name are the same |
| Names.DefaultNamesDiffer | pkg/a10/sync.go:684-690 | with a template name as prefix they differ |
| Names.NamesMayCoincide | pkg/a10/sync.go:731-737 | a prefix for which they coincide |
| Collision.SerialsCompareNumerically | pkg/a10/sync.go:785-792 | normalised serials are equal exactly when the numbers are |
| Collision.CollisionFreeExactly | pkg/a10/sync.go:780-809 | the check accepts a listed name exactly when its metadata fits |
| BundleEncoding.NumberOfBigEndian | pkg/a10/certificate.go:307-310 | the length prefix can be read back |
| BundleEncoding.DecodeEncode | pkg/a10/certificate.go:305-319 | the hashed bytes decode to exactly the parts |
| BundleEncoding.EncodeDecode | pkg/a10/certificate.go:305-319 | only encodings decode |
| BundleEncoding.PreimagesIdentify | pkg/a10/certificate.go:305-319 | bundles feed equal bytes to the hash exactly when their checksums are equal |
| BundleEncoding.HashedBytes | pkg/a10/certificate.go:305-319 | the writing loop produces the encoding |
| Appliance.Device.ListClients | pkg/a10/certificates.go:487-496 | a successful listing shows every client-SSL template, each decoded from its response |
| Appliance.Device.ListServers | pkg/a10/certificates.go:519-528 | the same for server-SSL templates |
| Sessions.Session.ListCertificates | pkg/a10/certificates.go:358-371 | operational metadata, journalled and true with a sole writer |
| Sessions.Session.ListClientSSLTemplates | pkg/a10/certificates.go:487-496 | the listing is journalled, decoded, and complete with a sole writer |
| Sessions.Session.ListServerSSLTemplates | pkg/a10/certificates.go:519-528 | the same for server-SSL templates |
| Safety.BindEffectContent | pkg/a10/sync.go:498-502 | what a bind does to the logical content: overwrite by name, or replacement of a sole entry |
| Safety.UnbindEffectContent | pkg/a10/sync.go:539-543 | what an unbind does to the logical content |
| Safety.UndoKeepsStart | pkg/a10/sync.go:649-659 | every file of the start survives an undo |
| Safety.UnmentionedSlot | pkg/a10/sync.go:871-893 | a name that no response contains is named by no client-SSL template, in a binding or elsewhere |
| Rollback.DeleteIfUploaded | pkg/a10/sync.go:650-659 | one deletion request of own uploads, none for empty names |
| Rollback.DeleteMaterial | pkg/a10/sync.go:650-659 | the pair in one request, then the chain |
| Restore.RestorePrevious | pkg/a10/sync.go:616-624 | an accepted restoring bind is read back |
| Restore.EnsurePrevious | pkg/a10/sync.go:606-624 | the replaced entry, if any, is put back first |
| Restore.RemoveDesired | pkg/a10/sync.go:625-629 | the desired name is removed if it is still bound, after the old entry is back |
| Restore.SaveBaseline | pkg/a10/sync.go:643-646 | saved, the appliance shows no trace of the run |
| Checks.ReadBack | pkg/a10/state.go:193-197 | a read of the forward part; whether it shows a state the run explains |
| Uploads.UploadPair | pkg/a10/sync.go:428-448 | key and certificate, with an exact record after a failure in between |
| Rotation.RequestBind | pkg/a10/sync.go:480-485 | only the bind is sent; accepted, the content is one of the two expected if the name was free, and overwritten otherwise |
| Rotation.SendUnbind | pkg/a10/sync.go:539-541 | only the unbind is sent; accepted, the old name is gone; a name that cannot be sent changes nothing |
| Persisting.SendSave | pkg/a10/sync.go:562-564 | an accepted save makes the saved configuration the running one |
| Cleanup.ListTemplates | pkg/a10/sync.go:811-819 | both listings, or none to work with |
| Cleanup.PlanDisposal | pkg/a10/sync.go:811-856 | the decision is taken on the lists last read, before any deletion |
| Cleanup.DeleteNames | pkg/a10/sync.go:857-867 | one deletion request for names that may go |
| Sync.SaveChanges | pkg/a10/sync.go:556-579 | nothing is saved when nothing changed or saving is off |
| Sync.Tidy | pkg/a10/sync.go:580-595 | cleanup only if asked for and an entry was replaced; the goal stands |
| Sync.Proceed | pkg/a10/sync.go:462-595 | binding change, save and cleanup with the meaning of every exit |
| Sync.Try | pkg/a10/sync.go:416-595 | one attempt from the inventories to the end, with the meaning of every exit |
| Sync.Judged | pkg/a10/sync.go:416-595 | the report of an attempt claims exactly what was done |
| Sync.CompensateAttempt | pkg/a10/sync.go:402-414 | after the compensation the report is still honest and the cause still explained; a sole writer with no further failing call reports the cause itself |
| Synchronization.StartHolds | pkg/a10/sync.go:371-398 | what a sole writer can rely on at the start of a run |
| Synchronization.BeginAndSync | pkg/a10/sync.go:371-595 | the run starts at the state that was read |
| PreStaging.StageFile | pkg/a10/sync.go:298-308 | a listed file must match, a missing one is uploaded |
| PreStaging.StageKeyFile | pkg/a10/sync.go:291-297 | a missing key is uploaded, and known as uploaded only when acknowledged |
| PreStaging.DeleteFiles | pkg/a10/sync.go:649-659 | own uploads only; the files of the start survive |
| PreStaging.ReadStores | pkg/a10/sync.go:279-290 | the three inventories, true of a sole writer |
| Names.LimitedIsValid | pkg/a10/sync.go:731-737 | a limited name is valid, keeps a prefix and ends in the digest |

## Left out

- HTTP, TLS, multipart bodies, URLs, status codes, error texts and authentication payloads: a call is a step of the appliance with an outcome.
- X.509, PEM, PKCS#8 and SHA-256: certificates are their identifying metadata, the hash is injective, and bundle validation is a flag of the bundle with the promise that a valid bundle has a well-formed checksum.
- Parsing of bundles and the signature loop over the chain: with signatures abstract they are simple list filters.
- JSON text, number formatting and case-insensitive key matching: decoding starts from a tree. A retained response that is the JSON value null is not part of the model.
- The recursive metadata filter and the copied binding lists are modelled on values: aliasing between a decoded map and its children is not captured.
- The command line, environment, live tests, VIP lookup, the version pattern, partition selection and typed identifier wrappers.
- Contexts, timeouts and passphrases: a call may succeed or fail at any time, and a rebind during a rollback may simply be refused.
- The exportable flag of an uploaded key has no effect on any modelled state.
- Reads outside a synchronization, such as the managed certificate state and the VIP inventory.
- Liveness against a rival writer: the last interval between a read and a write cannot be closed, so only what was observed is claimed.
- Overlap between sessions that callers open directly: only managed operations are serialized by the client.
- Traces.ServiceContinues: an unselected baseline entry that already carries the desired name is displaced by the desired entry, because the appliance keys entries by name.
- Traces.ReferencesAlwaysResolved: the saved configuration is not covered where it cannot be: when a failed save may have been applied, and when saving is off and cleanup on, for which `Safety.LossySaveDangles` and `Synchronization.UnsavedCleanupDangles` state the failure.
- PreStaging.CreateManagedCertificate: speaks of the stores only for a sole writer; under a rival it says which files its calls uploaded or listed.
- The undo of uploads is written twice, for a synchronization on its session and for pre-staging, which has no run and no template, on the appliance.
