# Root-ETag change tracking and download completion, modelled in Dafny

This project models two small state machines of a file synchronisation client.

- **CryptoFolder root-ETag tracking** (`etag_tracking.dfy`, module `EtagTracking`).
  The folder keeps the last root ETag it has seen (`lastEtag`). It also keeps a guard pointer to the ETag request in flight (`requestEtagJob`).
  `RunEtagJob` starts a request, with a 60 000 ms timeout, only when none is in flight and the folder may sync.
  `EtagRetrieved` stores a differing ETag at once and schedules a sync of the folder. It always re-enables sync and tags the account's last successful ETag request.
  `EtagRetrievedFromSyncEngine` overwrites the stored ETag without scheduling anything.
  The class `CryptoFolder` holds the real fields and ghost counters for the outside effects.
  Its abstract state (`EtagState`) is driven by `Step` and `Run` over events. The lemmas about runs are proved on those.
- **GETFileJob completion latch and PropagateDownloadFile defaults** (`propagate_download.dfy`, module `PropagateDownload`).
  `GETFileJob.Finished` returns false and changes nothing while the reply still has bytes.
  Once the reply is drained it unregisters from the bandwidth manager (if one is set). It then emits the finished signal unless the latch is already set, sets the latch and returns true.
  The abstract latch (`LatchState`) is driven by `FinishedStep` and `FinishedRun`. The at-most-once property is proved over any sequence of non-nested calls.

Outside calls whose code is not part of this model are inputs or ghost counters:
- `canSync()` is a parameter of `RunEtagJob`.
- The reply's `bytesAvailable()` is a parameter of `Finished`.
- FolderMan's scheduling and sync enabling, AccountState's tagging, `AbstractFolder::startSync`, the finished signal and the bandwidth manager's unregistration are counters.
- The request deleting itself when it finishes (which nulls the guard pointer) is the method `EtagJobDeleted`.

The stored ETag is replaced as soon as a change is detected (src/gui/cryptofolder.cpp:101), before the scheduled sync runs. Nothing restores the old ETag if that sync fails, and the model states exactly this.

## Model

| member | source | states |
|---|---|---|
| EtagTracking.CryptoFolder.constructor | src/gui/cryptofolder.cpp:49-60 | a new folder has no request in flight, an empty stored ETag and has started no sync |
| EtagTracking.FirstEtagIsChange | src/gui/cryptofolder.h:67 | since the stored ETag starts empty, the first non-empty ETag fetched schedules a sync and is stored |
| EtagTracking.CryptoFolder.EtagJob | src/gui/cryptofolder.h:52 | returns the in-flight request handle, changes nothing, and is non-null exactly when a request is in flight |
| EtagTracking.CryptoFolder.RunEtagJob | src/gui/cryptofolder.cpp:67-92 | with a request in flight, or when the folder cannot sync, nothing changes; otherwise exactly one fresh request for the folder's remote path is recorded, with a 60 000 ms timeout, and scheduled once |
| EtagTracking.RequestEtagJob.constructor | src/gui/cryptofolder.cpp:86 | a new request is created for the folder's remote path |
| EtagTracking.RequestEtagJob.SetTimeout | src/gui/cryptofolder.cpp:87 | the request's timeout becomes the given value |
| EtagTracking.CryptoFolder.EtagJobDeleted | src/gui/cryptofolder.cpp:91 | when the self-deleting request finishes, the guard pointer is null, so "in flight" is exactly "pointer non-null" |
| EtagTracking.RequestsNeverOverlap | src/gui/cryptofolder.cpp:73-91 | over any run, requests scheduled never exceed the deletions seen (plus one if none was in flight at the start), nor the requests asked for while the folder could sync |
| EtagTracking.CryptoFolder.EtagRetrieved | src/gui/cryptofolder.cpp:94-106 | afterwards the stored ETag is the fetched one; a sync is scheduled exactly when it differed; sync is re-enabled and the account tagged in every case |
| EtagTracking.FetchStoresAndSchedulesOnChange | src/gui/cryptofolder.cpp:97-105 | the same single-fetch facts on the abstract state: stored in every case, one sync exactly on a change, one enable and one tag always |
| EtagTracking.FetchTwiceSchedulesAtMostOnce | src/gui/cryptofolder.cpp:99-103 | fetching the same ETag twice in a row schedules at most one sync |
| EtagTracking.RepeatedFetchSchedulesAtMostOnce | src/gui/cryptofolder.cpp:99-103 | fetching one ETag n times in a row schedules exactly one sync if it differs from the stored ETag and none otherwise |
| EtagTracking.SyncsScheduledCountChanges | src/gui/cryptofolder.cpp:94-106 | a run of fetches schedules one sync per change between consecutive ETags (the first compared with the stored one), enables sync and tags once per fetch, and leaves the last ETag stored |
| EtagTracking.CryptoFolder.EtagRetrievedFromSyncEngine | src/gui/cryptofolder.cpp:108-113 | the stored ETag becomes the engine's, the account is tagged, and no sync is scheduled |
| EtagTracking.EngineEtagSuppressesSync | src/gui/cryptofolder.cpp:99-113 | after the sync engine reported an ETag, fetching that same ETag schedules nothing |
| EtagTracking.StoredEtagIsLastReceived | src/gui/cryptofolder.cpp:94-113 | after any run, the stored ETag is the one carried by the last fetched or engine-reported ETag, and the account was tagged once per such event |
| EtagTracking.CryptoFolder.StartSync | src/gui/cryptofolder.cpp:115-118 | starting a sync (the path list defaults to empty) only delegates, handing the path list on unchanged; the stored ETag and the request in flight are unchanged |
| EtagTracking.StartSyncKeepsEtagState | src/gui/cryptofolder.h:56 | on the abstract state, starting a sync leaves the stored ETag, the in-flight flag and the scheduled syncs unchanged |
| PropagateDownload.GETFileJob.constructor | src/libsync/propagatedownload.h:43-47 | a new job has not emitted its finished signal and does not yet save the body to file |
| PropagateDownload.GETFileJob.Finished | src/libsync/propagatedownload.h:66-80 | returns true exactly when no bytes remain; with bytes left nothing changes; on the true path the job unregisters if a bandwidth manager is set, emits the finished signal only if not yet emitted, and the latch is set; no other field (error status and string, modification time, bandwidth manager, body flag) is written |
| PropagateDownload.FinishedStepLatches | src/libsync/propagatedownload.h:66-80 | one call: with bytes left the latch state is unchanged and the result false; drained, the latch is set and the result true; latch agreement is preserved |
| PropagateDownload.FinishedSignalAtMostOnce | src/libsync/propagatedownload.h:74-77 | over any sequence of non-nested calls the finished signal is emitted at most once, and the latch is set at the end exactly when it was set before or some call found the reply drained |
| PropagateDownload.FreshJobSignalsOnceDrained | src/libsync/propagatedownload.h:66-80 | from a new job, the signal count after any sequence of calls is one exactly when some call found the reply drained, zero otherwise |
| PropagateDownload.UnregisterOnEveryDrainedCall | src/libsync/propagatedownload.h:71-73 | every call that finds the reply drained with a bandwidth manager set unregisters once, and no other call does |
| PropagateDownload.GETFileJob.Destroy | src/libsync/propagatedownload.h:58-63 | the destructor unregisters from the bandwidth manager exactly when one is set, and writes nothing else |
| PropagateDownload.GETFileJob.SetErrorString | src/libsync/propagatedownload.h:91 | the stored error string becomes the given one |
| PropagateDownload.GETFileJob.ErrorStatus | src/libsync/propagatedownload.h:93 | returns the stored error status and reads nothing else |
| PropagateDownload.GETFileJob.SetErrorStatus | src/libsync/propagatedownload.h:94 | after setting a status, ErrorStatus() returns it; only the status field is written |
| PropagateDownload.GETFileJob.ResumeStart | src/libsync/propagatedownload.h:99 | returns the stored resume offset |
| PropagateDownload.GETFileJob.LastModified | src/libsync/propagatedownload.h:100 | returns the stored modification time |
| PropagateDownload.PropagateDownloadFile.constructor | src/libsync/propagatedownload.h:153-159 | a new download has resume start 0, download progress 0 and does not delete an existing folder |
| PropagateDownload.PropagateDownloadFile.IsLikelyFinishedQuickly | src/libsync/propagatedownload.h:164 | holds exactly when the item size is below the propagator's small-file threshold |

## Left out

- Network I/O: the body of `RequestEtagJob`, and `GETFileJob::start`, `slotReadyRead`, `slotMetaDataChanged`, `newReplyHook`, `onTimedOut`, `currentDownloadPosition`. Their code is not part of this model; it is transport plumbing.
- `RequestEtagJob`'s default timeout: the request class is in networkjobs, which is not part of this model, so only the timeout the folder sets is stated.
- `canSync()`, FolderMan, AccountState and AbstractFolder are foreign calls. They are boolean inputs or ghost counters.
- PropagateDownload.FinishedSignalAtMostOnce: calls of `finished()` are taken as non-nested. The source emits the finished signal before it sets the latch (src/libsync/propagatedownload.h:75-77), so a slot connected directly to that signal that calls `finished()` again on a drained reply would emit the signal a second time. The model's `Finished` counts the signal and sets the latch in one step and does not show that window.
- Qt signal/slot wiring and logging. The connections made in the constructor and in `RunEtagJob` are represented only by which method runs on which event.
- PropagateDownload.GETFileJob.constructor: the constructors' bodies are in propagatedownload.cpp, which is not part of this model. Only `_saveBodyToFile = false` is shown. The latch and the error string are assumed to start cleared. Resume start, modification time, error status and whether a bandwidth manager is set are taken as given.
- `setBandwidthManager`, `setChoked`, `setBandwidthLimited`, `giveBandwidthQuota`: declarations only, and their behaviour is I/O throttling. The bandwidth-manager guard pointer is a boolean field that the model never changes.
- `_saveBodyToFile` is only set by `slotMetaDataChanged` (when a 2xx header arrives), whose body is not part of this model. The model states its initial value only.
- `errorString()`, `etag()`: declared in propagatedownload.h but defined elsewhere, or returning a reference into the job; not modelled.
- `PropagateDownloadFile::setDeleteExistingFolder`, `start`, `committedDiskSpace`, the download flow slots (checksum validation, `updateMetadata`, conflict handling) and `abort`: declared only, bodies not part of this model.
- PropagateDownload.PropagateDownloadFile.IsLikelyFinishedQuickly: the item size and the propagator's small-file threshold are fixed when the download is created. The source reads both live, through the item and the propagator, and they could change later.
- Integer widths: `quint64`/`qint64` offsets and sizes are unbounded `nat`/`int`. Nothing in the modelled code does arithmetic on them, so wrap-around cannot arise.
- Chunked upload, asynchronous polling and the error blacklist are exercised by test/testasyncop.cpp and implemented in files this model does not cover.
