/**
 * Whole runs driven event by event, each with the outcome it must reach:
 * the scheduler's guarantees applied to concrete playlists. The registry
 * after each event is written out as a value.
 */
module Scenarios {
  import opened Bytes
  import opened Registry
  import opened Download

  const Urls: seq<string> := ["a", "b", "c"]
  const Seg0 := Segment("a", "0.ts")
  const Seg1 := Segment("b", "1.ts")
  const Seg2 := Segment("c", "2.ts")

  /** The files of the first three segments. */
  lemma FirstNames()
    ensures FileName(0) == "0.ts" && FileName(1) == "1.ts" && FileName(2) == "2.ts"
  {
  }

  /** The descriptors of `Urls`. */
  lemma UrlDescriptors()
    ensures Descriptors(Urls) == [Seg0, Seg1, Seg2]
  {
    FirstNames();
  }

  /** The registry after each event of `ExpiredSegmentRun`. */
  const Batch := RegistryState([Seg0, Seg1, Seg2], [InFlight, InFlight, Pending], 2, 0, [], [],
                               map["0.ts" := [], "1.ts" := []])
  const AfterExpired := RegistryState([Seg0, Seg1, Seg2], [InFlight, Failed, InFlight], 3, 1, [], [],
                                      map["0.ts" := [], "2.ts" := []])
  const AfterFirst := RegistryState([Seg0, Seg1, Seg2], [Succeeded, Failed, InFlight], 3, 2, [Seg0], [0],
                                    map["0.ts" := [1, 2], "2.ts" := []])
  const AfterLast := RegistryState([Seg0, Seg1, Seg2], [Succeeded, Failed, Succeeded], 3, 3, [Seg0, Seg2], [0, 2],
                                   map["0.ts" := [1, 2], "2.ts" := [3]])

  /** With a limit of two, the initial loop puts segments 0 and 1 in flight. */
  lemma FirstBatch()
    ensures AdmitMany(Fresh(Urls), InitialBatchSize(2, |Urls|)) == Batch
  {
    UrlDescriptors();
    AdmitManyFresh(Urls, 2);
    FirstNames();
    assert EmptyFiles(2) == map["0.ts" := [], "1.ts" := []];
  }

  /** Segment 1 fails: its file goes and segment 2 is admitted. */
  lemma ExpiredStep()
    ensures Admit(EndFailed(Batch, 1)) == AfterExpired
  {
  }

  /** Segment 0 succeeds with two chunks: no segment is left to admit. */
  lemma FirstStep()
    ensures Admit(EndSucceeded(AfterExpired, 0, Concat([[1], [2]]))) == AfterFirst
  {
    var chunks: seq<seq<byte>> := [[1], [2]];
    assert chunks[..1] == [[1]];
    assert Concat([[1]]) == [1];
    assert Concat(chunks) == [1, 2];
    assert AfterExpired.files["0.ts" := [1, 2]] == AfterFirst.files;
  }

  /** Segment 2 succeeds with one chunk, the last to end. */
  lemma LastStep()
    ensures Admit(EndSucceeded(AfterFirst, 2, Concat([[3]]))) == AfterLast
  {
    assert Concat([[3]]) == [3];
  }

  /**
   * Three segments, a limit of two, and the second segment's link has
   * expired (status 403): its file is deleted and segment 2 takes its slot;
   * the run resolves with the other two segments, in completion order, and
   * the progress bar has counted all three.
   */
  method ExpiredSegmentRun() returns (result: Settlement, files: map<string, seq<byte>>, reports: nat)
    ensures result == Resolved([Seg0, Seg2])
    ensures files == map["0.ts" := [1, 2], "2.ts" := [3]]
    ensures reports == 3
  {
    var d := new Downloader();
    d.Start(true, true, 2);
    d.OnPlaylistRead(Read(Urls));
    FirstBatch();
    ExpiredStep();
    d.OnResponse(1, 403, []);
    FirstStep();
    d.OnResponse(0, 200, [[1], [2]]);
    LastStep();
    d.OnResponse(2, 200, [[3]]);
    result, files, reports := d.settlement, d.files, |d.progress|;
  }

  /** The registry after each event of `CaughtTransportErrorRun`. */
  const AfterStall := RegistryState([Seg0, Seg1, Seg2], [Stalled, InFlight, Pending], 2, 0, [], [],
                                    map["0.ts" := [], "1.ts" := []])
  const AfterSecond := RegistryState([Seg0, Seg1, Seg2], [Stalled, Succeeded, InFlight], 3, 1, [Seg1], [1],
                                     map["0.ts" := [], "1.ts" := [4], "2.ts" := []])
  const AfterThird := RegistryState([Seg0, Seg1, Seg2], [Stalled, Succeeded, Succeeded], 3, 2, [Seg1, Seg2], [1, 2],
                                    map["0.ts" := [], "1.ts" := [4], "2.ts" := [5]])

  /** Segment 0 stalls and keeps its slot. */
  lemma StallStep()
    ensures Stall(Batch, 0) == AfterStall
  {
  }

  /** Segment 1 succeeds while segment 0 is stalled: segment 2 is admitted all the same. */
  lemma SecondStep()
    ensures Admit(EndSucceeded(AfterStall, 1, Concat([[4]]))) == AfterSecond
  {
    assert Concat([[4]]) == [4];
    assert AfterStall.files["1.ts" := [4]]["2.ts" := []] == AfterSecond.files;
  }

  /** Segment 2 succeeds; segment 0 never ends. */
  lemma ThirdStep()
    ensures Admit(EndSucceeded(AfterSecond, 2, Concat([[5]]))) == AfterThird
  {
    assert Concat([[5]]) == [5];
  }

  /**
   * Three segments, a limit of two, and segment 0 of the initial batch
   * fails at the transport level: the run rejects with that error. The
   * other tasks go on; a completion still admits the next segment, and
   * their successes are recorded, but the run never resolves.
   */
  method CaughtTransportErrorRun() returns (result: Settlement, started: nat, ended: nat, successes: seq<Segment>)
    ensures result == Rejected(Transport(0))
    ensures started == 3 && ended == 2 && successes == [Seg1, Seg2]
  {
    var d := new Downloader();
    d.Start(true, true, 2);
    d.OnPlaylistRead(Read(Urls));
    FirstBatch();
    StallStep();
    d.OnTransportError(0);
    SecondStep();
    d.OnResponse(1, 200, [[4]]);
    ThirdStep();
    d.OnResponse(2, 200, [[5]]);
    result, started, ended, successes := d.settlement, d.downloadStartCount, d.downloadEndCount, d.successObjArray;
  }

  /** The registry after each event of `UncaughtTransportErrorRun`. */
  const SingleBatch := RegistryState([Seg0, Seg1, Seg2], [InFlight, Pending, Pending], 1, 0, [], [],
                                     map["0.ts" := []])
  const AfterOnly := RegistryState([Seg0, Seg1, Seg2], [Succeeded, InFlight, Pending], 2, 1, [Seg0], [0],
                                   map["0.ts" := [1], "1.ts" := []])
  const Hung := RegistryState([Seg0, Seg1, Seg2], [Succeeded, Stalled, Pending], 2, 1, [Seg0], [0],
                              map["0.ts" := [1], "1.ts" := []])

  /** With a limit of one, the initial loop puts segment 0 alone in flight. */
  lemma SingleFirstBatch()
    ensures AdmitMany(Fresh(Urls), InitialBatchSize(1, |Urls|)) == SingleBatch
  {
    UrlDescriptors();
    AdmitManyFresh(Urls, 1);
    FirstNames();
    assert EmptyFiles(1) == map["0.ts" := []];
  }

  /** Segment 0 succeeds and segment 1 takes its slot. */
  lemma OnlyStep()
    ensures Admit(EndSucceeded(SingleBatch, 0, Concat([[1]]))) == AfterOnly
  {
    assert Concat([[1]]) == [1];
    assert SingleBatch.files["0.ts" := [1]]["1.ts" := []] == AfterOnly.files;
  }

  /** Segment 1 stalls. */
  lemma HangStep()
    ensures Stall(AfterOnly, 1) == Hung
  {
  }

  /**
   * Three segments and a limit of one: segment 0 succeeds, and segment 1,
   * admitted by that completion, fails at the transport level. Its
   * rejection has no handler, so the run stays unsettled; no task is in
   * flight and segment 2 is never admitted, so no event can follow.
   */
  method UncaughtTransportErrorRun() returns (result: Settlement, started: nat, ended: nat, ghost states: seq<TaskState>)
    ensures result == Unsettled && started == 2 && ended == 1
    ensures |states| == 3 && forall j :: 0 <= j < 3 ==> states[j] != InFlight
  {
    var d := new Downloader();
    d.Start(true, true, 1);
    d.OnPlaylistRead(Read(Urls));
    SingleFirstBatch();
    OnlyStep();
    d.OnResponse(0, 200, [[1]]);
    HangStep();
    d.OnTransportError(1);
    result, started, ended := d.settlement, d.downloadStartCount, d.downloadEndCount;
    states := d.state;
  }
}
