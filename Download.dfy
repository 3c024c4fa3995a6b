/**
 * The bounded-concurrency download scheduler. The source keeps its state in
 * module-level variables (the descriptor list, the admitted and completed
 * counters, the success list) that every task's callbacks update in place;
 * here that state is one `Downloader` object and each callback is a method:
 * a run start, the admission routine `Download`, and the completion events
 * of an admitted task (a response, or a transport error). Completions arrive
 * in any order the network chooses; a caller may deliver an event for any
 * task that is in flight.
 */
module Download {
  import opened Status
  import opened Bytes
  import opened Registry

  /** Why a run rejected. */
  datatype RunError =
    | MissingInputDir
    | MissingPlaylist
    | PlaylistUnreadable
    | NoMatchingLinks
    | Transport(index: nat)

  /** The run's promise: pending, resolved with the succeeded segments, or rejected. */
  datatype Settlement = Unsettled | Resolved(segments: seq<Segment>) | Rejected(error: RunError)

  /** Reading the playlist file: a read error, or the URLs the URL pattern matched, in file order. */
  datatype Playlist = Unreadable | Read(urls: seq<string>)

  /** One increment of the progress bar: the outcome and the segment's file name. */
  datatype Report = Report(outcome: Outcome, text: string)

  /**
   * How many tasks the initial loop admits with limit `max` and `n`
   * descriptors: it stops when the admitted count reaches `max`, which a
   * negative limit never does.
   */
  function InitialBatchSize(max: int, n: nat): nat
  {
    if 0 <= max < n then max else n
  }

  class Downloader {
    var objArray: seq<Segment>
    var downloadStartCount: nat
    var downloadEndCount: nat
    var successObjArray: seq<Segment>
    /** The run's concurrency limit. */
    var downloadThread: int
    /** The first `caughtCount` tasks carry the run's rejection handler; later ones have none. */
    var caughtCount: nat
    /** The cache folder: file name to contents. */
    var files: map<string, seq<byte>>
    /** The progress bar's increments in this run, and whether it was started and stopped. */
    var progress: seq<Report>
    var barStarted: bool
    var barStopped: bool
    var settlement: Settlement

    /** The state of each descriptor's task. */
    ghost var state: seq<TaskState>
    /** The index of each entry of `successObjArray`. */
    ghost var successIdx: seq<nat>
    /** A run has passed its checks and waits for the playlist file's contents. */
    ghost var awaitingPlaylist: bool

    /** The registry as a value. */
    ghost function View(): RegistryState
      reads this
    {
      RegistryState(objArray, state, downloadStartCount, downloadEndCount, successObjArray, successIdx, files)
    }

    /** What holds of the registry between any two steps of an event. */
    ghost predicate Tracked()
      reads this
    {
      && Inv(View())
      && caughtCount <= downloadStartCount
      && |progress| == downloadEndCount
    }

    /**
     * Slots: no more tasks hold one than the initial loop admitted, and
     * exactly that many while any task is pending, since every completion
     * admits the next one.
     */
    ghost predicate Slots()
      reads this
    {
      && caughtCount == InitialBatchSize(downloadThread, |objArray|)
      && downloadStartCount - downloadEndCount <= caughtCount
      && (downloadStartCount < |objArray| ==> downloadStartCount - downloadEndCount == caughtCount)
    }

    /** The progress bar and the run's promise against the counters. */
    ghost predicate RunTracked()
      reads this
    {
      && (barStarted <==> |objArray| > 0)
      && (awaitingPlaylist ==> View() == Idle && settlement.Unsettled?)
      && (barStopped <==> settlement.Resolved?)
      // the run resolves exactly when the last task has ended, with the success list
      && (settlement.Resolved? <==> 0 < |objArray| == downloadEndCount)
      && (settlement.Resolved? ==> settlement.segments == successObjArray)
      && (settlement.Rejected? ==>
            if settlement.error.Transport? then
              settlement.error.index < caughtCount && settlement.error.index < |state|
              && state[settlement.error.index] == Stalled
            else |objArray| == 0)
    }

    /** The scheduler's invariant between events. */
    ghost predicate Valid()
      reads this
    {
      Tracked() && Slots() && RunTracked()
    }

    /** The module's state when it is first loaded. */
    constructor ()
      ensures Valid()
      ensures View() == Idle && settlement == Unsettled && progress == []
    {
      objArray, successObjArray := [], [];
      downloadStartCount, downloadEndCount := 0, 0;
      downloadThread, caughtCount := 0, 0;
      files, progress := map[], [];
      barStarted, barStopped := false, false;
      settlement := Unsettled;
      state, successIdx := [], [];
      awaitingPlaylist := false;
    }

    /**
     * Admits the next pending descriptor, if any: opens (creates or
     * truncates) its file and counts it as started.
     */
    method Download() returns (admitted: bool)
      requires |state| == |objArray|
      modifies this`downloadStartCount, this`state, this`files
      ensures admitted <==> old(downloadStartCount) < |objArray|
      ensures View() == Admit(old(View()))
    {
      admitted := downloadStartCount < |objArray|;
      if admitted {
        var obj := objArray[downloadStartCount];
        state := state[downloadStartCount := InFlight];
        downloadStartCount := downloadStartCount + 1;
        files := files[obj.name := []];
      }
    }

    /** Builds the descriptor list from the playlist's URLs, naming entry `index` after it. */
    method ReadDescriptors(urls: seq<string>)
      requires objArray == [] && state == []
      modifies this`objArray, this`state
      ensures objArray == Descriptors(urls) && |objArray| == |urls|
      ensures state == seq(|urls|, _ => Pending) && |state| == |urls|
    {
      var index := 0;
      while index < |urls|
        invariant 0 <= index <= |urls|
        invariant |objArray| == index && |state| == index
        invariant forall i :: 0 <= i < index ==> objArray[i] == Segment(urls[i], FileName(i))
        invariant forall i :: 0 <= i < index ==> state[i] == Pending
      {
        objArray := objArray + [Segment(urls[index], FileName(index))];
        state := state + [Pending];
        index := index + 1;
      }
    }

    /**
     * The initial loop: admits tasks until all are admitted or as many as
     * the limit allows, and attaches the run's rejection handler to each.
     */
    method AdmitInitialBatch()
      requires Tracked() && downloadStartCount == 0 && caughtCount == 0
      modifies this`downloadStartCount, this`state, this`files, this`caughtCount
      ensures Tracked()
      ensures caughtCount == InitialBatchSize(downloadThread, |objArray|) && downloadStartCount == caughtCount
      ensures View() == AdmitMany(old(View()), caughtCount)
    {
      var start := downloadStartCount;
      ghost var r0 := View();
      while downloadStartCount < |objArray|
        invariant caughtCount == downloadStartCount
        invariant 0 <= downloadThread ==> downloadStartCount <= downloadThread
        invariant View() == AdmitMany(r0, downloadStartCount)
        decreases |objArray| - downloadStartCount
      {
        if downloadStartCount == start + downloadThread {
          break;
        }
        AdmitCaught();
      }
      AdmitManyInv(r0, caughtCount);
    }

    /** One admission of the initial loop, which attaches the run's rejection handler to the task. */
    method AdmitCaught()
      requires |state| == |objArray| && caughtCount == downloadStartCount < |objArray|
      modifies this`downloadStartCount, this`state, this`files, this`caughtCount
      ensures caughtCount == downloadStartCount == old(downloadStartCount) + 1
      ensures View() == Admit(old(View()))
    {
      var admitted := Download();
      caughtCount := downloadStartCount;
    }

    /**
     * The counters' bounds: no task ends before it starts, none starts
     * beyond the list, and with a non-negative limit no more than the limit
     * hold a slot.
     */
    lemma SlotBounds()
      requires Valid()
      ensures downloadEndCount <= downloadStartCount <= |objArray|
      ensures 0 <= downloadThread ==> downloadStartCount - downloadEndCount <= downloadThread
    {
    }

    /**
     * With a non-zero limit, a started run whose tasks have not all ended
     * has a task holding a slot: it is in flight, or it stalled on a
     * transport error. So only a transport error can stop a run short of
     * its resolution.
     */
    lemma NoDeadlock() returns (j: nat)
      requires Valid() && barStarted && downloadEndCount < |objArray| && downloadThread != 0
      ensures j < |state| && state[j] in Active
    {
      j := CountPositive(state, Active);
    }

    /** The state right after a reset satisfies the invariant. */
    lemma ResetValid()
      requires objArray == [] && successObjArray == [] && state == [] && successIdx == []
      requires downloadStartCount == 0 && downloadEndCount == 0 && caughtCount == 0
      requires progress == [] && !barStarted && !barStopped && !awaitingPlaylist
      requires settlement == Unsettled || (settlement.Rejected? && !settlement.error.Transport?)
      ensures Valid() && View() == Idle.(files := files)
    {
      IdleInv(files);
      assert View() == Idle.(files := files);
    }

    /** The state right after the initial loop satisfies the invariant. */
    lemma BatchValid()
      requires Tracked() && 0 < |objArray| && downloadEndCount == 0
      requires caughtCount == InitialBatchSize(downloadThread, |objArray|) && downloadStartCount == caughtCount
      requires barStarted && !barStopped && settlement == Unsettled && !awaitingPlaylist
      ensures Valid()
    {
    }

    /** While the playlist is being read, the registry is empty and nothing has been reported. */
    lemma AwaitingIdle()
      requires Valid() && awaitingPlaylist
      ensures objArray == [] && successObjArray == [] && state == [] && successIdx == [] && files == map[]
      ensures downloadStartCount == 0 && downloadEndCount == 0 && caughtCount == 0
      ensures progress == [] && !barStarted && !barStopped && settlement == Unsettled
    {
    }

    /** Empties the descriptor and success lists and zeroes the counters. */
    method ResetRegistry()
      modifies this`downloadStartCount, this`downloadEndCount, this`objArray, this`successObjArray,
               this`state, this`successIdx, this`caughtCount
      ensures View() == Idle.(files := old(files)) && caughtCount == 0
    {
      downloadStartCount, downloadEndCount, caughtCount := 0, 0, 0;
      objArray, successObjArray := [], [];
      state, successIdx := [], [];
    }

    /** A fresh promise, a progress bar not yet started, and the run's limit. */
    method ResetRun(max: int)
      modifies this`settlement, this`progress, this`barStarted, this`barStopped,
               this`downloadThread, this`awaitingPlaylist
      ensures settlement == Unsettled && downloadThread == max && !awaitingPlaylist
      ensures progress == [] && !barStarted && !barStopped
    {
      settlement := Unsettled;
      progress, barStarted, barStopped := [], false, false;
      downloadThread := max;
      awaitingPlaylist := false;
    }

    /**
     * The reset at the start of a run: counters to zero, empty descriptor
     * and success lists, a fresh promise, a progress bar not yet started.
     */
    method Reset(max: int)
      modifies this
      ensures Valid()
      ensures View() == Idle.(files := old(files))
      ensures settlement == Unsettled && downloadThread == max && !awaitingPlaylist
      ensures progress == [] && !barStarted && !barStopped
    {
      ResetRegistry();
      ResetRun(max);
      ResetValid();
    }

    /**
     * A run's synchronous part: resets the module state, checks the input
     * folder and the playlist file, and wipes the cache folder; the playlist
     * is then read in the background (see `OnPlaylistRead`).
     */
    method Start(inputDirExists: bool, playlistExists: bool, max: int)
      modifies this
      ensures Valid()
      ensures downloadThread == max && progress == [] && !barStarted && !barStopped
      ensures !inputDirExists ==>
                settlement == Rejected(MissingInputDir) && !awaitingPlaylist && View() == Idle.(files := old(files))
      ensures inputDirExists && !playlistExists ==>
                settlement == Rejected(MissingPlaylist) && !awaitingPlaylist && View() == Idle.(files := old(files))
      ensures inputDirExists && playlistExists ==>
                settlement == Unsettled && awaitingPlaylist && View() == Idle
    {
      Reset(max);
      if !inputDirExists {
        settlement := Rejected(MissingInputDir);
      } else if !playlistExists {
        settlement := Rejected(MissingPlaylist);
      } else {
        // the cache folder is removed and created again
        files := map[];
        awaitingPlaylist := true;
      }
    }

    /** Starts the progress bar over the descriptor list built from `urls` and admits the initial batch. */
    method BeginDownloads(ghost urls: seq<string>)
      requires objArray == Descriptors(urls) && state == seq(|urls|, _ => Pending) && |urls| > 0
      requires successObjArray == [] && successIdx == [] && files == map[]
      requires downloadStartCount == 0 && downloadEndCount == 0 && caughtCount == 0
      requires progress == [] && !barStarted && !barStopped && settlement == Unsettled && !awaitingPlaylist
      modifies this`barStarted, this`downloadStartCount, this`state, this`files, this`caughtCount
      ensures Valid() && barStarted
      ensures View() == AdmitMany(Fresh(urls), InitialBatchSize(downloadThread, |urls|))
    {
      FreshInv(urls);
      assert View() == Fresh(urls);
      barStarted := true;
      AdmitInitialBatch();
      BatchValid();
    }

    /**
     * The playlist has been read, or reading it failed: rejects on a read
     * error, builds the descriptor list, rejects an empty one, and otherwise
     * starts the progress bar and admits the initial batch.
     */
    method OnPlaylistRead(playlist: Playlist)
      requires Valid() && awaitingPlaylist
      modifies this`awaitingPlaylist, this`settlement, this`objArray, this`state, this`barStarted,
               this`downloadStartCount, this`files, this`caughtCount
      ensures Valid() && !awaitingPlaylist
      ensures settlement == (if playlist.Unreadable? then Rejected(PlaylistUnreadable)
                             else if playlist.urls == [] then Rejected(NoMatchingLinks)
                             else Unsettled)
      ensures View() == if playlist.Unreadable? then Idle
                        else AdmitMany(Fresh(playlist.urls), InitialBatchSize(downloadThread, |playlist.urls|))
    {
      AwaitingIdle();
      awaitingPlaylist := false;
      if playlist.Unreadable? {
        settlement := Rejected(PlaylistUnreadable);
        ResetValid();
      } else {
        ReadDescriptors(playlist.urls);
        if |objArray| == 0 {
          // the cache folder is removed
          settlement := Rejected(NoMatchingLinks);
          ResetValid();
        } else {
          BeginDownloads(playlist.urls);
        }
      }
    }

    /** Writes the received chunks, in order, to the open file `name`. */
    method WriteChunks(name: string, chunks: seq<seq<byte>>)
      requires name in files && files[name] == []
      modifies this`files
      ensures files == old(files)[name := Concat(chunks)]
    {
      var key := 0;
      while key < |chunks|
        invariant 0 <= key <= |chunks|
        invariant files == old(files)[name := Concat(chunks[..key])]
      {
        assert chunks[..key + 1][..key] == chunks[..key];
        files := files[name := files[name] + chunks[key]];
        key := key + 1;
      }
      assert chunks[..|chunks|] == chunks;
    }

    /**
     * The terminal check that follows every completion: once the ended count
     * reaches the number of descriptors, the progress bar stops and the run
     * resolves with the success list.
     */
    method SettleIfLast()
      requires Tracked() && Slots()
      requires 0 < |objArray| && barStarted && !barStopped && !settlement.Resolved? && !awaitingPlaylist
      requires settlement.Rejected? ==>
                 settlement.error.Transport? && settlement.error.index < caughtCount
                 && settlement.error.index < |state| && state[settlement.error.index] == Stalled
      modifies this`barStopped, this`settlement
      ensures Valid()
      ensures barStopped == (downloadEndCount == |objArray|)
      ensures settlement == if downloadEndCount == |objArray| then Resolved(successObjArray) else old(settlement)
    {
      if downloadEndCount == |objArray| {
        if settlement.Rejected? {
          StalledBlocksEnd(View(), settlement.error.index);
        }
        barStopped := true;
        if settlement.Unsettled? {
          settlement := Resolved(successObjArray);
        }
      }
    }

    /**
     * Task `i` receives an HTTP error status (4xx or 5xx): its file is closed
     * and deleted, it is counted as ended, the progress bar reports the
     * failure, the next pending task is admitted and the run resolves if
     * this was the last task.
     */
    method OnHttpError(i: nat, statusCode: nat)
      requires Valid()
      requires i < |state| && state[i] == InFlight
      requires 400 <= statusCode <= 599
      modifies this`downloadStartCount, this`downloadEndCount, this`files,
               this`progress, this`barStopped, this`settlement, this`state
      ensures Valid()
      ensures View() == Admit(EndFailed(old(View()), i))
      ensures progress == old(progress) + [Report(Classify(statusCode), objArray[i].name)]
      ensures settlement == if downloadEndCount == |objArray| then Resolved(successObjArray) else old(settlement)
    {
      ghost var r := View();
      EndWithHttpError(i, statusCode);
      var admitted := Download();
      FailedThenAdmit(r, i);
      SettleIfLast();
    }

    /** The error path up to admission: close and delete the file, count the end, report it. */
    method EndWithHttpError(i: nat, statusCode: nat)
      requires Tracked()
      requires i < |state| && state[i] == InFlight
      modifies this`downloadEndCount, this`files, this`progress, this`state
      ensures View() == EndFailed(old(View()), i)
      ensures progress == old(progress) + [Report(Classify(statusCode), objArray[i].name)]
    {
      var obj := objArray[i];
      files := files - {obj.name};
      downloadEndCount := downloadEndCount + 1;
      state := state[i := Failed];
      progress := progress + [Report(Classify(statusCode), obj.name)];
    }

    /**
     * Task `i` receives any other status and its body arrives as `chunks`:
     * the chunks are written to its file in order, it is counted as ended,
     * the progress bar reports it, its descriptor joins the success list,
     * the next pending task is admitted and the run resolves if this was
     * the last task.
     */
    method OnSuccess(i: nat, chunks: seq<seq<byte>>)
      requires Valid()
      requires i < |state| && state[i] == InFlight
      modifies this`downloadStartCount, this`downloadEndCount, this`successObjArray, this`files,
               this`progress, this`barStopped, this`settlement, this`state, this`successIdx
      ensures Valid()
      ensures View() == Admit(EndSucceeded(old(View()), i, Concat(chunks)))
      ensures progress == old(progress) + [Report(Success, objArray[i].name)]
      ensures settlement == if downloadEndCount == |objArray| then Resolved(successObjArray) else old(settlement)
    {
      ghost var r := View();
      EndWithSuccess(i, chunks);
      var admitted := Download();
      SucceededThenAdmit(r, i, Concat(chunks));
      SettleIfLast();
    }

    /**
     * The success path up to admission: write the chunks and close the
     * file, count the end, report it, append the descriptor to the success list.
     */
    method EndWithSuccess(i: nat, chunks: seq<seq<byte>>)
      requires Tracked()
      requires i < |state| && state[i] == InFlight
      modifies this`downloadEndCount, this`successObjArray, this`files, this`progress, this`state, this`successIdx
      ensures View() == EndSucceeded(old(View()), i, Concat(chunks))
      ensures progress == old(progress) + [Report(Success, objArray[i].name)]
    {
      var obj := objArray[i];
      WriteChunks(obj.name, chunks);
      downloadEndCount := downloadEndCount + 1;
      state := state[i := Succeeded];
      progress := progress + [Report(Success, obj.name)];
      successObjArray := successObjArray + [obj];
      successIdx := successIdx + [i];
    }

    /**
     * The response handler: a status matching the error pattern takes the
     * error path, every other status the success path.
     */
    method OnResponse(i: nat, statusCode: nat, chunks: seq<seq<byte>>)
      requires Valid()
      requires i < |state| && state[i] == InFlight
      modifies this`downloadStartCount, this`downloadEndCount, this`successObjArray, this`files,
               this`progress, this`barStopped, this`settlement, this`state, this`successIdx
      ensures Valid()
      ensures View() == if 400 <= statusCode <= 599 then Admit(EndFailed(old(View()), i))
                        else Admit(EndSucceeded(old(View()), i, Concat(chunks)))
      ensures progress == old(progress) + [Report(Classify(statusCode), objArray[i].name)]
      ensures settlement == if downloadEndCount == |objArray| then Resolved(successObjArray) else old(settlement)
    {
      if Classify(statusCode) != Success {
        OnHttpError(i, statusCode);
      } else {
        OnSuccess(i, chunks);
      }
    }

    /**
     * The request of task `i` fails at the transport level. Its promise
     * rejects; only a task of the initial batch passes that on to the run.
     * The task never ends, so the run can no longer resolve.
     */
    method OnTransportError(i: nat)
      requires Valid()
      requires i < |state| && state[i] == InFlight
      modifies this`state, this`settlement
      ensures Valid()
      ensures View() == Stall(old(View()), i)
      ensures settlement == if i < caughtCount && old(settlement).Unsettled? then Rejected(Transport(i))
                            else old(settlement)
    {
      StallInv(View(), i);
      state := state[i := Stalled];
      if i < caughtCount && settlement.Unsettled? {
        settlement := Rejected(Transport(i));
      }
    }
  }
}
