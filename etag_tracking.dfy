/**
 * Root-ETag change tracking of a CryptoFolder.
 *
 * The folder remembers the last root ETag it has seen and keeps a guard
 * pointer to the ETag request in flight. A new request is started only when
 * none is in flight and the folder may sync; a fetched ETag that differs from
 * the stored one is stored at once and schedules a sync of this folder; an
 * ETag reported by the sync engine overwrites the stored one silently.
 *
 * The calls the folder makes into code outside this model (FolderMan's
 * scheduling and sync enabling, AccountState's tagging of the last successful
 * ETag request, AbstractFolder::startSync) are recorded as counters.
 */
module EtagTracking {

  /** Timeout given to every root ETag request, in milliseconds. */
  const EtagJobTimeoutMs: nat := 60 * 1000

  // ---------------------------------------------------------------------
  // Abstract state and the events that drive it
  // ---------------------------------------------------------------------

  /**
   * What the folder's ETag logic can observe and what it has done to the
   * outside world: the stored ETag, whether a request is in flight, and how
   * often each outside effect happened.
   */
  datatype EtagState = EtagState(
    lastEtag: string,
    jobInFlight: bool,
    syncsScheduled: nat,     // FolderMan: this folder scheduled for a sync
    syncEnables: nat,        // FolderMan: sync re-enabled
    etagTags: nat,           // AccountState: last successful ETag request tagged
    etagJobsScheduled: nat,  // FolderMan: a new ETag request scheduled
    syncsStarted: nat)       // AbstractFolder::startSync delegated to

  /** The state of a newly constructed folder: the stored ETag is empty. */
  function InitialState(): EtagState
  {
    EtagState("", false, 0, 0, 0, 0, 0)
  }

  /** Everything that can happen to the folder's ETag logic. */
  datatype Event =
    | RunRequested(canSync: bool)   // slotRunEtagJob, with canSync() as input
    | EtagFetched(etag: string)     // etagRetreived, the request's answer
    | EngineEtag(etag: string)      // etagRetreivedFromSyncEngine
    | JobDeleted                    // the request deleted itself; the guard pointer became null
    | SyncStarted                   // startSync

  /** The effect of one event. */
  function Step(s: EtagState, ev: Event): EtagState
  {
    match ev
    case RunRequested(canSync) =>
      if s.jobInFlight || !canSync then s
      else s.(jobInFlight := true, etagJobsScheduled := s.etagJobsScheduled + 1)
    case EtagFetched(e) =>
      var t := s.(syncEnables := s.syncEnables + 1, etagTags := s.etagTags + 1);
      if s.lastEtag != e then t.(lastEtag := e, syncsScheduled := s.syncsScheduled + 1) else t
    case EngineEtag(e) =>
      s.(lastEtag := e, etagTags := s.etagTags + 1)
    case JobDeleted =>
      s.(jobInFlight := false)
    case SyncStarted =>
      s.(syncsStarted := s.syncsStarted + 1)
  }

  /** The effect of a sequence of events, in order. */
  function Run(s: EtagState, evs: seq<Event>): EtagState
    decreases |evs|
  {
    if evs == [] then s else Run(Step(s, evs[0]), evs[1..])
  }

  // ---------------------------------------------------------------------
  // Reference definitions used to state what a run does
  // ---------------------------------------------------------------------

  /** The ETag carried by the last ETag-bearing event of `evs`, or `fallback` if none carries one. */
  function LastEtagIn(evs: seq<Event>, fallback: string): string
    decreases |evs|
  {
    if evs == [] then fallback
    else match evs[|evs| - 1]
      case EtagFetched(e) => e
      case EngineEtag(e) => e
      case _ => LastEtagIn(evs[..|evs| - 1], fallback)
  }

  /** One fetched-ETag event per element of `etags`. */
  function Fetches(etags: seq<string>): seq<Event>
  {
    if etags == [] then [] else [EtagFetched(etags[0])] + Fetches(etags[1..])
  }

  /** `n` copies of the same ETag. */
  function Repeat(e: string, n: nat): (r: seq<string>)
    ensures |r| == n
    ensures forall i :: 0 <= i < n ==> r[i] == e
  {
    if n == 0 then [] else [e] + Repeat(e, n - 1)
  }

  /**
   * How many elements of `etags` differ from the one before them, the first
   * being compared with `prev`.
   */
  function Changes(prev: string, etags: seq<string>): (n: nat)
    ensures n == 0 <==> forall i :: 0 <= i < |etags| ==> etags[i] == prev
    decreases |etags|
  {
    if etags == [] then 0
    else (if etags[0] != prev then 1 else 0) + Changes(etags[0], etags[1..])
  }

  /** How many events of `evs` are the in-flight request deleting itself. */
  function Deletions(evs: seq<Event>): nat
    decreases |evs|
  {
    if evs == [] then 0 else (if evs[0] == JobDeleted then 1 else 0) + Deletions(evs[1..])
  }

  /** How many events of `evs` ask for a request while the folder may sync. */
  function SyncableRequests(evs: seq<Event>): nat
    decreases |evs|
  {
    if evs == [] then 0 else (if evs[0] == RunRequested(true) then 1 else 0) + SyncableRequests(evs[1..])
  }

  /** How many events of `evs` carry an ETag (fetched or from the sync engine). */
  function EtagEvents(evs: seq<Event>): nat
    decreases |evs|
  {
    if evs == [] then 0
    else (if evs[0].EtagFetched? || evs[0].EngineEtag? then 1 else 0) + EtagEvents(evs[1..])
  }

  // ---------------------------------------------------------------------
  // Properties of single events
  // ---------------------------------------------------------------------

  /** A fetched ETag is stored in every case, and schedules a sync exactly when it differs. */
  lemma FetchStoresAndSchedulesOnChange(s: EtagState, e: string)
    ensures Step(s, EtagFetched(e)).lastEtag == e
    ensures Step(s, EtagFetched(e)).syncsScheduled == s.syncsScheduled + (if s.lastEtag != e then 1 else 0)
    ensures Step(s, EtagFetched(e)).syncEnables == s.syncEnables + 1
    ensures Step(s, EtagFetched(e)).etagTags == s.etagTags + 1
    ensures Step(s, EtagFetched(e)).jobInFlight == s.jobInFlight
  {
  }

  /** Fetching the same ETag twice in a row schedules at most one sync. */
  lemma FetchTwiceSchedulesAtMostOnce(s: EtagState, e: string)
    ensures Run(s, [EtagFetched(e), EtagFetched(e)]).syncsScheduled <= s.syncsScheduled + 1
    ensures Run(s, [EtagFetched(e), EtagFetched(e)]).lastEtag == Step(s, EtagFetched(e)).lastEtag
  {
    var s1 := Step(s, EtagFetched(e));
    assert Run(s, [EtagFetched(e), EtagFetched(e)]) == Run(s1, [EtagFetched(e)]);
    assert Run(s1, [EtagFetched(e)]) == Step(s1, EtagFetched(e));
  }

  /** After the sync engine reported `e`, fetching `e` schedules nothing. */
  lemma EngineEtagSuppressesSync(s: EtagState, e: string)
    ensures Run(s, [EngineEtag(e), EtagFetched(e)]).syncsScheduled == s.syncsScheduled
    ensures Run(s, [EngineEtag(e), EtagFetched(e)]).lastEtag == e
  {
    var s1 := Step(s, EngineEtag(e));
    assert Run(s, [EngineEtag(e), EtagFetched(e)]) == Run(s1, [EtagFetched(e)]);
    assert Run(s1, [EtagFetched(e)]) == Step(s1, EtagFetched(e));
  }

  /** A new folder's stored ETag is empty, so the first non-empty ETag fetched schedules a sync. */
  lemma FirstEtagIsChange(e: string)
    requires e != ""
    ensures Step(InitialState(), EtagFetched(e)).syncsScheduled == 1
    ensures Step(InitialState(), EtagFetched(e)).lastEtag == e
  {
  }

  // ---------------------------------------------------------------------
  // Properties of runs
  // ---------------------------------------------------------------------

  /** Running two sequences one after the other is running their concatenation. */
  lemma {:induction false} RunAppend(s: EtagState, a: seq<Event>, b: seq<Event>)
    ensures Run(s, a + b) == Run(Run(s, a), b)
    decreases |a|
  {
    if a == [] {
      assert a + b == b;
    } else {
      assert (a + b)[0] == a[0];
      assert (a + b)[1..] == a[1..] + b;
      RunAppend(Step(s, a[0]), a[1..], b);
    }
  }

  /**
   * After any run, the stored ETag is the one carried by the last
   * ETag-bearing event, whichever of the two slots received it, and the
   * account was tagged once per such event.
   */
  lemma {:induction false} StoredEtagIsLastReceived(s: EtagState, evs: seq<Event>)
    ensures Run(s, evs).lastEtag == LastEtagIn(evs, s.lastEtag)
    ensures Run(s, evs).etagTags == s.etagTags + EtagEvents(evs)
    decreases |evs|
  {
    if evs != [] {
      var init, last := evs[..|evs| - 1], evs[|evs| - 1];
      assert evs == init + [last];
      RunAppend(s, init, [last]);
      StoredEtagIsLastReceived(s, init);
      EtagEventsAppend(init, last);
      assert Run(Run(s, init), [last]) == Step(Run(s, init), last);
    }
  }

  /** Counting ETag-bearing events distributes over appending one event. */
  lemma {:induction false} EtagEventsAppend(evs: seq<Event>, ev: Event)
    ensures EtagEvents(evs + [ev]) == EtagEvents(evs) + (if ev.EtagFetched? || ev.EngineEtag? then 1 else 0)
    decreases |evs|
  {
    if evs == [] {
      assert [] + [ev] == [ev];
    } else {
      assert (evs + [ev])[1..] == evs[1..] + [ev];
      EtagEventsAppend(evs[1..], ev);
    }
  }

  /**
   * A run of fetched ETags schedules one sync per change between
   * consecutive ETags (the first compared with the stored one), re-enables
   * sync and tags the account once per fetch, and leaves the last one stored.
   */
  lemma {:induction false} SyncsScheduledCountChanges(s: EtagState, etags: seq<string>)
    ensures Run(s, Fetches(etags)).syncsScheduled == s.syncsScheduled + Changes(s.lastEtag, etags)
    ensures Run(s, Fetches(etags)).syncEnables == s.syncEnables + |etags|
    ensures Run(s, Fetches(etags)).etagTags == s.etagTags + |etags|
    ensures Run(s, Fetches(etags)).lastEtag == if etags == [] then s.lastEtag else etags[|etags| - 1]
    decreases |etags|
  {
    if etags != [] {
      var evs := Fetches(etags);
      assert evs[1..] == Fetches(etags[1..]);
      SyncsScheduledCountChanges(Step(s, EtagFetched(etags[0])), etags[1..]);
    }
  }

  /** Repeating one ETag changes something only at the first position, and only if it differs from `prev`. */
  lemma RepeatChangesAtMostOnce(prev: string, e: string, n: nat)
    ensures Changes(prev, Repeat(e, n)) == if n > 0 && prev != e then 1 else 0
  {
  }

  /**
   * Fetching the same ETag any number of times in a row schedules at most
   * one sync: exactly one when it differs from the stored ETag, none otherwise.
   */
  lemma RepeatedFetchSchedulesAtMostOnce(s: EtagState, e: string, n: nat)
    ensures Run(s, Fetches(Repeat(e, n))).syncsScheduled
            == s.syncsScheduled + (if n > 0 && s.lastEtag != e then 1 else 0)
  {
    SyncsScheduledCountChanges(s, Repeat(e, n));
    RepeatChangesAtMostOnce(s.lastEtag, e, n);
  }

  /**
   * Requests never overlap: a new ETag request is scheduled only after the
   * previous one deleted itself, so over any run the requests scheduled are
   * bounded by the deletions seen (plus one when none was in flight at the
   * start) and by the requests asked for while the folder could sync.
   */
  lemma {:induction false} RequestsNeverOverlap(s: EtagState, evs: seq<Event>)
    ensures Run(s, evs).etagJobsScheduled + (if s.jobInFlight then 1 else 0)
            <= s.etagJobsScheduled + Deletions(evs) + (if Run(s, evs).jobInFlight then 1 else 0)
    ensures Run(s, evs).etagJobsScheduled <= s.etagJobsScheduled + SyncableRequests(evs)
    decreases |evs|
  {
    if evs != [] {
      RequestsNeverOverlap(Step(s, evs[0]), evs[1..]);
    }
  }

  /** Starting a sync only delegates: no ETag state changes. */
  lemma StartSyncKeepsEtagState(s: EtagState)
    ensures Step(s, SyncStarted).lastEtag == s.lastEtag && Step(s, SyncStarted).jobInFlight == s.jobInFlight
    ensures Step(s, SyncStarted).syncsScheduled == s.syncsScheduled
  {
  }

  // ---------------------------------------------------------------------
  // The folder object
  // ---------------------------------------------------------------------

  /**
   * A root ETag request. It deletes itself when it finishes. The request
   * class itself lives in networkjobs, which is not part of this model: only
   * the path it is created for and the timeout it is given are kept.
   */
  class RequestEtagJob {
    const path: string
    var timeoutMs: nat

    /** A request for the folder's remote path. */
    constructor (path: string)
      ensures this.path == path
    {
      this.path := path;
    }

    method SetTimeout(ms: nat)
      modifies this
      ensures timeoutMs == ms
    {
      timeoutMs := ms;
    }
  }

  class CryptoFolder {
    const remotePath: string
    /** Guard pointer: null exactly when no request is in flight. */
    var requestEtagJob: RequestEtagJob?
    var lastEtag: string

    ghost var syncsScheduled: nat
    ghost var syncEnables: nat
    ghost var etagTags: nat
    ghost var etagJobsScheduled: nat
    ghost var syncsStarted: nat
    /** The path lists handed to the base folder's startSync, in order. */
    ghost var startedWith: seq<seq<string>>

    /** The folder's ETag logic seen as an abstract state. */
    ghost function State(): EtagState
      reads this
    {
      EtagState(lastEtag, requestEtagJob != null, syncsScheduled, syncEnables,
                etagTags, etagJobsScheduled, syncsStarted)
    }

    /** A new folder has no request in flight and an empty stored ETag. */
    constructor (remotePath: string)
      ensures this.remotePath == remotePath
      ensures requestEtagJob == null && lastEtag == ""
      ensures State() == InitialState() && startedWith == []
    {
      this.remotePath := remotePath;
      requestEtagJob := null;
      lastEtag := "";
      syncsScheduled, syncEnables, etagTags, etagJobsScheduled, syncsStarted := 0, 0, 0, 0, 0;
      startedWith := [];
    }

    /** The request in flight, or null. */
    method EtagJob() returns (job: RequestEtagJob?)
      ensures job == requestEtagJob
      ensures job != null <==> State().jobInFlight
    {
      job := requestEtagJob;
    }

    /**
     * Starts a root ETag request unless one is in flight or the folder
     * cannot sync; in those two cases nothing changes.
     */
    method RunEtagJob(canSync: bool)
      modifies this`requestEtagJob, this`etagJobsScheduled
      ensures State() == Step(old(State()), RunRequested(canSync))
      ensures old(requestEtagJob) != null || !canSync ==> unchanged(this)
      ensures old(requestEtagJob) == null && canSync ==>
                requestEtagJob != null && fresh(requestEtagJob)
                && requestEtagJob.path == remotePath
                && requestEtagJob.timeoutMs == EtagJobTimeoutMs
                && etagJobsScheduled == old(etagJobsScheduled) + 1
      ensures lastEtag == old(lastEtag) && startedWith == old(startedWith)
    {
      if requestEtagJob != null {
        return;
      }
      if !canSync {
        return;
      }
      var job := new RequestEtagJob(remotePath);
      job.SetTimeout(EtagJobTimeoutMs);
      requestEtagJob := job;
      etagJobsScheduled := etagJobsScheduled + 1;
    }

    /** The request in flight deleted itself; the guard pointer becomes null. */
    method EtagJobDeleted()
      modifies this`requestEtagJob
      ensures State() == Step(old(State()), JobDeleted)
      ensures requestEtagJob == null && lastEtag == old(lastEtag)
      ensures startedWith == old(startedWith)
    {
      requestEtagJob := null;
    }

    /**
     * A request answered with `etag`: sync is re-enabled, a differing ETag is
     * stored and schedules a sync of this folder, and the account is tagged.
     */
    method EtagRetrieved(etag: string)
      modifies this`lastEtag, this`syncsScheduled, this`syncEnables, this`etagTags
      ensures State() == Step(old(State()), EtagFetched(etag))
      ensures lastEtag == etag
      ensures syncsScheduled == old(syncsScheduled) + (if old(lastEtag) != etag then 1 else 0)
      ensures syncEnables == old(syncEnables) + 1 && etagTags == old(etagTags) + 1
      ensures requestEtagJob == old(requestEtagJob) && startedWith == old(startedWith)
    {
      syncEnables := syncEnables + 1;
      if lastEtag != etag {
        lastEtag := etag;
        syncsScheduled := syncsScheduled + 1;
      }
      etagTags := etagTags + 1;
    }

    /** The sync engine reported the root ETag: store it and tag the account, schedule nothing. */
    method EtagRetrievedFromSyncEngine(etag: string)
      modifies this`lastEtag, this`etagTags
      ensures State() == Step(old(State()), EngineEtag(etag))
      ensures lastEtag == etag && syncsScheduled == old(syncsScheduled)
      ensures etagTags == old(etagTags) + 1 && requestEtagJob == old(requestEtagJob)
      ensures startedWith == old(startedWith)
    {
      etagTags := etagTags + 1;
      lastEtag := etag;
    }

    /** Delegates to the base folder's sync; the ETag state is untouched. */
    method StartSync(pathList: seq<string> := [])
      modifies this`syncsStarted, this`startedWith
      ensures State() == Step(old(State()), SyncStarted)
      ensures lastEtag == old(lastEtag) && requestEtagJob == old(requestEtagJob)
      ensures startedWith == old(startedWith) + [pathList]
    {
      syncsStarted := syncsStarted + 1;
      startedWith := startedWith + [pathList];
    }
  }
}
