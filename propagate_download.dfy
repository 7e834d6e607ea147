/**
 * Completion latch of a file download request (GETFileJob) and the simple
 * state of a file download (PropagateDownloadFile).
 *
 * A GETFileJob is finished only once its reply has no bytes left to read.
 * At that point it unregisters from its bandwidth manager, if it has one,
 * and emits its finished signal, at most once over any sequence of
 * non-nested finished() calls.
 */
module PropagateDownload {

  /**
   * A SyncFileItem::Status value. The enumeration lives in syncfileitem.h,
   * which is not part of this model; a status is carried by its code.
   */
  datatype SyncFileItemStatus = SyncFileItemStatus(code: nat)

  // ---------------------------------------------------------------------
  // The finished() latch as a state machine
  // ---------------------------------------------------------------------

  /**
   * The part of a GETFileJob that finished() reads and writes: the latch,
   * and how often the finished signal was emitted and the job unregistered
   * from its bandwidth manager.
   */
  datatype LatchState = LatchState(
    hasEmittedFinishedSignal: bool,
    finishedSignals: nat,
    unregisterCalls: nat)

  /** One call of finished(): the bytes the reply still has, and whether a bandwidth manager is set. */
  datatype FinishedCall = FinishedCall(bytesAvailable: nat, hasBandwidthManager: bool)

  /** The latch of a new job: nothing emitted, nothing unregistered. */
  function FreshLatch(): LatchState
  {
    LatchState(false, 0, 0)
  }

  /** The latch agrees with the signals emitted: at most one, and one exactly when latched. */
  predicate LatchAgrees(s: LatchState)
  {
    s.finishedSignals == if s.hasEmittedFinishedSignal then 1 else 0
  }

  /** The effect of one finished() call on the latch. */
  function FinishedStep(s: LatchState, call: FinishedCall): LatchState
  {
    if call.bytesAvailable > 0 then s
    else LatchState(
      true,
      if s.hasEmittedFinishedSignal then s.finishedSignals else s.finishedSignals + 1,
      if call.hasBandwidthManager then s.unregisterCalls + 1 else s.unregisterCalls)
  }

  /** What one finished() call returns: whether the job is done and may be discarded. */
  function FinishedResult(call: FinishedCall): (done: bool)
  {
    call.bytesAvailable == 0
  }

  /** The effect of a sequence of finished() calls, in order. */
  function FinishedRun(s: LatchState, calls: seq<FinishedCall>): LatchState
    decreases |calls|
  {
    if calls == [] then s else FinishedRun(FinishedStep(s, calls[0]), calls[1..])
  }

  /** Some call of `calls` found the reply drained. */
  predicate SomeDrained(calls: seq<FinishedCall>)
  {
    exists i :: 0 <= i < |calls| && FinishedResult(calls[i])
  }

  /** How many calls of `calls` found the reply drained while a bandwidth manager was set. */
  function DrainedWithManager(calls: seq<FinishedCall>): nat
    decreases |calls|
  {
    if calls == [] then 0
    else (if calls[0].bytesAvailable == 0 && calls[0].hasBandwidthManager then 1 else 0)
         + DrainedWithManager(calls[1..])
  }

  /** While the reply has bytes, finished() changes nothing; once drained, the latch is set. */
  lemma FinishedStepLatches(s: LatchState, call: FinishedCall)
    ensures call.bytesAvailable > 0 ==> FinishedStep(s, call) == s && !FinishedResult(call)
    ensures call.bytesAvailable == 0 ==> FinishedStep(s, call).hasEmittedFinishedSignal && FinishedResult(call)
    ensures LatchAgrees(s) ==> LatchAgrees(FinishedStep(s, call))
  {
  }

  /**
   * Over any sequence of non-nested finished() calls the finished signal is emitted at
   * most once: the latch keeps agreeing with the signals emitted, and it is
   * set at the end exactly when it was set at the start or some call found
   * the reply drained.
   */
  lemma {:induction false} FinishedSignalAtMostOnce(s: LatchState, calls: seq<FinishedCall>)
    requires LatchAgrees(s)
    ensures LatchAgrees(FinishedRun(s, calls))
    ensures FinishedRun(s, calls).finishedSignals <= 1
    ensures FinishedRun(s, calls).hasEmittedFinishedSignal <==> s.hasEmittedFinishedSignal || SomeDrained(calls)
    decreases |calls|
  {
    if calls != [] {
      var s1 := FinishedStep(s, calls[0]);
      FinishedSignalAtMostOnce(s1, calls[1..]);
      if SomeDrained(calls[1..]) {
        var i :| 0 <= i < |calls[1..]| && FinishedResult(calls[1..][i]);
        assert FinishedResult(calls[i + 1]);
      }
      if SomeDrained(calls) && !FinishedResult(calls[0]) {
        var i :| 0 <= i < |calls| && FinishedResult(calls[i]);
        assert i > 0 && FinishedResult(calls[1..][i - 1]);
      }
    }
  }

  /** Starting from a new job, the finished signal is emitted once exactly when some call found the reply drained. */
  lemma FreshJobSignalsOnceDrained(calls: seq<FinishedCall>)
    ensures FinishedRun(FreshLatch(), calls).finishedSignals == if SomeDrained(calls) then 1 else 0
  {
    FinishedSignalAtMostOnce(FreshLatch(), calls);
  }

  /** Every call that finds the reply drained with a bandwidth manager set unregisters once, and no other call does. */
  lemma {:induction false} UnregisterOnEveryDrainedCall(s: LatchState, calls: seq<FinishedCall>)
    ensures FinishedRun(s, calls).unregisterCalls == s.unregisterCalls + DrainedWithManager(calls)
    decreases |calls|
  {
    if calls != [] {
      UnregisterOnEveryDrainedCall(FinishedStep(s, calls[0]), calls[1..]);
    }
  }

  // ---------------------------------------------------------------------
  // The download request object
  // ---------------------------------------------------------------------

  class GETFileJob {
    var resumeStart: nat
    var lastModified: int
    var errorString: string
    var errorStatus: SyncFileItemStatus
    /** The bandwidth manager guard pointer is set. */
    var hasBandwidthManager: bool
    var hasEmittedFinishedSignal: bool
    /** Set once a 2xx response header has been seen. */
    var saveBodyToFile: bool

    ghost var finishedSignals: nat
    ghost var unregisterCalls: nat

    /** The latch seen as an abstract state. */
    ghost function Latch(): LatchState
      reads this
    {
      LatchState(hasEmittedFinishedSignal, finishedSignals, unregisterCalls)
    }

    /** Object invariant: the latch agrees with the finished signals emitted. */
    ghost predicate Valid()
      reads this
    {
      LatchAgrees(Latch())
    }

    /**
     * A new job. The constructors' bodies are not part of this model; the
     * latch and the body flag start cleared, the rest is given.
     */
    constructor (resumeStart: nat, lastModified: int, errorStatus: SyncFileItemStatus, hasBandwidthManager: bool)
      ensures this.resumeStart == resumeStart && this.lastModified == lastModified
      ensures this.errorStatus == errorStatus && this.hasBandwidthManager == hasBandwidthManager
      ensures !saveBodyToFile && errorString == ""
      ensures Valid() && Latch() == FreshLatch()
    {
      this.resumeStart := resumeStart;
      this.lastModified := lastModified;
      this.errorStatus := errorStatus;
      this.hasBandwidthManager := hasBandwidthManager;
      errorString := "";
      hasEmittedFinishedSignal := false;
      saveBodyToFile := false;
      finishedSignals, unregisterCalls := 0, 0;
    }

    /**
     * Whether the job is done. False, with nothing changed, while the reply
     * still has bytes; otherwise unregisters from the bandwidth manager (if
     * set), emits the finished signal unless already emitted, sets the latch
     * and returns true.
     */
    method Finished(bytesAvailable: nat) returns (done: bool)
      requires Valid()
      modifies this`hasEmittedFinishedSignal, this`finishedSignals, this`unregisterCalls
      ensures Valid()
      ensures Latch() == FinishedStep(old(Latch()), FinishedCall(bytesAvailable, old(hasBandwidthManager)))
      ensures done <==> bytesAvailable == 0
      ensures bytesAvailable > 0 ==> unchanged(this)
      ensures done ==> hasEmittedFinishedSignal && finishedSignals == 1
      ensures done ==> finishedSignals == old(finishedSignals) + (if old(hasEmittedFinishedSignal) then 0 else 1)
      ensures done ==> unregisterCalls == old(unregisterCalls) + (if hasBandwidthManager then 1 else 0)
      ensures errorStatus == old(errorStatus) && errorString == old(errorString)
      ensures hasBandwidthManager == old(hasBandwidthManager) && saveBodyToFile == old(saveBodyToFile)
      ensures lastModified == old(lastModified)
    {
      if bytesAvailable > 0 {
        return false;
      }
      if hasBandwidthManager {
        unregisterCalls := unregisterCalls + 1;
      }
      if !hasEmittedFinishedSignal {
        finishedSignals := finishedSignals + 1;
      }
      hasEmittedFinishedSignal := true;
      return true;
    }

    /** The destructor: unregisters from the bandwidth manager if one is set. */
    method Destroy()
      requires Valid()
      modifies this`unregisterCalls
      ensures Valid()
      ensures unregisterCalls == old(unregisterCalls) + (if hasBandwidthManager then 1 else 0)
      ensures hasEmittedFinishedSignal == old(hasEmittedFinishedSignal) && finishedSignals == old(finishedSignals)
      ensures hasBandwidthManager == old(hasBandwidthManager)
    {
      if hasBandwidthManager {
        unregisterCalls := unregisterCalls + 1;
      }
    }

    function ErrorStatus(): (s: SyncFileItemStatus)
      reads this
      ensures s == errorStatus
    {
      errorStatus
    }

    /** Stores the status; the next ErrorStatus() returns it. */
    method SetErrorStatus(s: SyncFileItemStatus)
      modifies this`errorStatus
      ensures ErrorStatus() == s
    {
      errorStatus := s;
    }

    method SetErrorString(s: string)
      modifies this`errorString
      ensures errorString == s
    {
      errorString := s;
    }

    function ResumeStart(): (r: nat)
      reads this
      ensures r == resumeStart
    {
      resumeStart
    }

    function LastModified(): (t: int)
      reads this
      ensures t == lastModified
    {
      lastModified
    }
  }

  // ---------------------------------------------------------------------
  // The file download
  // ---------------------------------------------------------------------

  class PropagateDownloadFile {
    /** The size of the item to download. */
    const itemSize: nat
    /** The propagator's small-file threshold. */
    const smallFileSize: nat
    var resumeStart: nat
    var downloadProgress: int
    var deleteExisting: bool

    /** A new download starts at offset 0, with no progress, and does not delete an existing folder. */
    constructor (itemSize: nat, smallFileSize: nat)
      ensures this.itemSize == itemSize && this.smallFileSize == smallFileSize
      ensures resumeStart == 0 && downloadProgress == 0 && !deleteExisting
    {
      this.itemSize := itemSize;
      this.smallFileSize := smallFileSize;
      resumeStart := 0;
      downloadProgress := 0;
      deleteExisting := false;
    }

    /** A download is likely to finish quickly exactly when the item is smaller than the small-file threshold. */
    predicate IsLikelyFinishedQuickly()
      ensures IsLikelyFinishedQuickly() <==> itemSize < smallFileSize
    {
      itemSize < smallFileSize
    }
  }
}
