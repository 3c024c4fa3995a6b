/**
 * The task registry: the ordered segment descriptors and the state each
 * segment's task is in. The descriptor list is built once per run from the
 * playlist's URLs, in the order they were found; entry `i` is written to the
 * file `i.ts`.
 */
module Registry {
  import opened Text
  import opened Bytes

  /** One segment descriptor: where it is fetched from and the file it is written to. */
  datatype Segment = Segment(url: string, name: string)

  /** The file name of the segment with index `i`. */
  function FileName(i: nat): string
  {
    DecimalString(i) + ".ts"
  }

  /** No two segments share a file. */
  lemma FileNameInjective(i: nat, j: nat)
    requires FileName(i) == FileName(j)
    ensures i == j
  {
    var a, b := FileName(i), FileName(j);
    assert a[..|a| - 3] == DecimalString(i);
    assert b[..|b| - 3] == DecimalString(j);
    DecimalInjective(i, j);
  }

  /** The descriptors of a run whose playlist yielded `urls`, in extraction order. */
  function Descriptors(urls: seq<string>): (d: seq<Segment>)
  {
    seq(|urls|, i requires 0 <= i < |urls| => Segment(urls[i], FileName(i)))
  }

  lemma DescriptorNamesDistinct(urls: seq<string>)
    ensures forall i, j :: 0 <= i < j < |urls| ==> Descriptors(urls)[i].name != Descriptors(urls)[j].name
  {
    forall i, j | 0 <= i < j < |urls|
      ensures Descriptors(urls)[i].name != Descriptors(urls)[j].name
    {
      if FileName(i) == FileName(j) {
        FileNameInjective(i, j);
      }
    }
  }

  /**
   * The life of one segment's task. `Stalled` is a task whose request failed
   * at the transport level: it never completes.
   */
  datatype TaskState = Pending | InFlight | Succeeded | Failed | Stalled

  /** States of tasks that have completed and been counted. */
  const Done: set<TaskState> := {Succeeded, Failed}
  /** States of tasks that hold a concurrency slot. */
  const Active: set<TaskState> := {InFlight, Stalled}

  /** The number of tasks in `s` whose state is one of `k`. */
  function Count(s: seq<TaskState>, k: set<TaskState>): (n: nat)
    ensures n <= |s|
  {
    if s == [] then 0 else (if s[0] in k then 1 else 0) + Count(s[1..], k)
  }

  /** Changing the state of one task moves the counts by at most one. */
  lemma {:induction false} CountUpdate(s: seq<TaskState>, i: nat, x: TaskState, k: set<TaskState>)
    requires i < |s|
    ensures Count(s[i := x], k) == Count(s, k) - (if s[i] in k then 1 else 0) + (if x in k then 1 else 0)
  {
    if i == 0 {
      assert s[i := x][1..] == s[1..];
    } else {
      assert s[i := x][1..] == s[1..][i - 1 := x];
      CountUpdate(s[1..], i - 1, x, k);
    }
  }

  /** A task outside `k` keeps the count of `k` below the number of tasks. */
  lemma {:induction false} CountMissing(s: seq<TaskState>, i: nat, k: set<TaskState>)
    requires i < |s| && s[i] !in k
    ensures Count(s, k) < |s|
  {
    if i > 0 {
      CountMissing(s[1..], i - 1, k);
    }
  }

  /** No task in `k` means a count of zero. */
  lemma {:induction false} CountNone(s: seq<TaskState>, k: set<TaskState>)
    requires forall i :: 0 <= i < |s| ==> s[i] !in k
    ensures Count(s, k) == 0
  {
    if s != [] {
      assert forall i :: 0 <= i < |s[1..]| ==> s[1..][i] == s[i + 1];
      CountNone(s[1..], k);
    }
  }

  /**
   * The registry's state: the descriptors, each task's state, the admitted
   * and ended counters, the success list (with the index of each entry) and
   * the cache folder's files.
   */
  datatype RegistryState = RegistryState(
    objs: seq<Segment>,
    state: seq<TaskState>,
    started: nat,
    ended: nat,
    succ: seq<Segment>,
    idx: seq<nat>,
    files: map<string, seq<byte>>)

  /** No two entries share a file. */
  ghost predicate DistinctNames(objs: seq<Segment>)
  {
    forall i, j :: 0 <= i < j < |objs| ==> objs[i].name != objs[j].name
  }

  /** Admission is FIFO: exactly the first `started` tasks have left `Pending`. */
  ghost predicate Admitted(state: seq<TaskState>, started: nat)
  {
    && started <= |state|
    && (forall i :: 0 <= i < |state| ==> (state[i] == Pending <==> started <= i))
  }

  /** Each ended task is counted once; every other admitted task holds a slot. */
  ghost predicate Counted(state: seq<TaskState>, started: nat, ended: nat)
  {
    && ended == Count(state, Done)
    && started - ended == Count(state, Active)
  }

  /** The success list holds each succeeded segment once, and nothing else. */
  ghost predicate SuccessesExact(objs: seq<Segment>, state: seq<TaskState>, succ: seq<Segment>, idx: seq<nat>)
  {
    && |idx| == |succ|
    && (forall k :: 0 <= k < |idx| ==> idx[k] < |objs| && succ[k] == objs[idx[k]])
    && (forall k, l :: 0 <= k < l < |idx| ==> idx[k] != idx[l])
    && (forall i :: 0 <= i < |state| ==> (state[i] == Succeeded <==> i in idx))
  }

  /** A task's file exists from admission on, empty until written, and is gone after an HTTP error. */
  ghost predicate FilesMatch(objs: seq<Segment>, state: seq<TaskState>, files: map<string, seq<byte>>)
  {
    && |state| == |objs|
    && (forall i :: 0 <= i < |objs| ==> (objs[i].name in files <==> state[i] in {InFlight, Stalled, Succeeded}))
    && (forall i :: 0 <= i < |objs| && state[i] == InFlight ==> files[objs[i].name] == [])
  }

  /** The registry's invariant. */
  ghost predicate Inv(r: RegistryState)
  {
    && |r.state| == |r.objs|
    && DistinctNames(r.objs)
    && Admitted(r.state, r.started)
    && Counted(r.state, r.started, r.ended)
    && SuccessesExact(r.objs, r.state, r.succ, r.idx)
    && FilesMatch(r.objs, r.state, r.files)
  }

  /** The registry with no descriptors: the module's initial state, and that of a run rejected before any URL was read. */
  const Idle: RegistryState := RegistryState([], [], 0, 0, [], [], map[])

  /** A run's registry after the playlist yielded `urls`: all pending, nothing counted, no files. */
  function Fresh(urls: seq<string>): RegistryState
  {
    RegistryState(Descriptors(urls), seq(|urls|, _ => Pending), 0, 0, [], [], map[])
  }

  /** Admission: the pending task with the lowest index, if any, goes in flight and its file is opened empty. */
  function Admit(r: RegistryState): RegistryState
    requires |r.state| == |r.objs|
  {
    if r.started < |r.objs| then
      r.(state := r.state[r.started := InFlight], started := r.started + 1,
         files := r.files[r.objs[r.started].name := []])
    else r
  }

  /** `k` admissions in a row. */
  function AdmitMany(r: RegistryState, k: nat): (r': RegistryState)
    requires |r.state| == |r.objs|
    ensures |r'.state| == |r'.objs|
  {
    if k == 0 then r else Admit(AdmitMany(r, k - 1))
  }

  /** Task `i` ends with an HTTP error: counted, and its file deleted. */
  function EndFailed(r: RegistryState, i: nat): RegistryState
    requires i < |r.state| == |r.objs|
  {
    r.(state := r.state[i := Failed], ended := r.ended + 1, files := r.files - {r.objs[i].name})
  }

  /** Task `i` ends successfully: counted, `body` written to its file, its descriptor appended to the success list. */
  function EndSucceeded(r: RegistryState, i: nat, body: seq<byte>): RegistryState
    requires i < |r.state| == |r.objs|
  {
    r.(state := r.state[i := Succeeded], ended := r.ended + 1, succ := r.succ + [r.objs[i]],
       idx := r.idx + [i], files := r.files[r.objs[i].name := body])
  }

  /** Task `i` fails at the transport level: it never ends. */
  function Stall(r: RegistryState, i: nat): RegistryState
    requires i < |r.state|
  {
    r.(state := r.state[i := Stalled])
  }

  /** An empty file for each of the first `k` segments, and nothing else. */
  function EmptyFiles(k: nat): map<string, seq<byte>>
  {
    if k == 0 then map[] else EmptyFiles(k - 1)[FileName(k - 1) := []]
  }

  /** A registry with no descriptors satisfies the invariant, whatever files are around. */
  lemma IdleInv(files: map<string, seq<byte>>)
    ensures Inv(Idle.(files := files))
  {
  }

  /** A run starts in a state that satisfies the invariant. */
  lemma FreshInv(urls: seq<string>)
    ensures Inv(Fresh(urls))
  {
    var state := seq(|urls|, _ => Pending);
    DescriptorNamesDistinct(urls);
    CountNone(state, Done);
    CountNone(state, Active);
  }

  /** Admitting the next pending task keeps the invariant. */
  lemma AdmitInv(r: RegistryState)
    requires Inv(r)
    ensures Inv(Admit(r))
  {
    if r.started < |r.objs| {
      CountUpdate(r.state, r.started, InFlight, Done);
      CountUpdate(r.state, r.started, InFlight, Active);
      var r' := Admit(r);
      forall i | 0 <= i < |r.objs|
        ensures r.objs[i].name in r'.files <==> r'.state[i] in {InFlight, Stalled, Succeeded}
        ensures r'.state[i] == InFlight ==> r'.files[r.objs[i].name] == []
      {
        if i != r.started {
          assert r.objs[i].name != r.objs[r.started].name;
        }
      }
    }
  }

  /** Ending an in-flight task with an HTTP error keeps the invariant. */
  lemma EndFailedInv(r: RegistryState, i: nat)
    requires Inv(r) && i < |r.objs| && r.state[i] == InFlight
    ensures Inv(EndFailed(r, i))
  {
    CountUpdate(r.state, i, Failed, Done);
    CountUpdate(r.state, i, Failed, Active);
    var r' := EndFailed(r, i);
    forall j | 0 <= j < |r.objs|
      ensures r.objs[j].name in r'.files <==> r'.state[j] in {InFlight, Stalled, Succeeded}
      ensures r'.state[j] == InFlight ==> r'.files[r.objs[j].name] == []
    {
      if j != i {
        assert r.objs[j].name != r.objs[i].name;
      }
    }
  }

  /** Ending an in-flight task successfully keeps the invariant: it joins the success list exactly once. */
  lemma EndSucceededInv(r: RegistryState, i: nat, body: seq<byte>)
    requires Inv(r) && i < |r.objs| && r.state[i] == InFlight
    ensures Inv(EndSucceeded(r, i, body))
  {
    CountUpdate(r.state, i, Succeeded, Done);
    CountUpdate(r.state, i, Succeeded, Active);
    var r' := EndSucceeded(r, i, body);
    forall j | 0 <= j < |r.objs|
      ensures r.objs[j].name in r'.files <==> r'.state[j] in {InFlight, Stalled, Succeeded}
      ensures r'.state[j] == InFlight ==> r'.files[r.objs[j].name] == []
    {
      if j != i {
        assert r.objs[j].name != r.objs[i].name;
      }
    }
    assert i !in r.idx;
  }

  /** A transport error keeps the invariant; the task keeps its slot. */
  lemma StallInv(r: RegistryState, i: nat)
    requires Inv(r) && i < |r.objs| && r.state[i] == InFlight
    ensures Inv(Stall(r, i))
  {
    CountUpdate(r.state, i, Stalled, Done);
    CountUpdate(r.state, i, Stalled, Active);
  }

  /**
   * What a completion followed by the admission it triggers does to the
   * counters: same descriptors, one more ended task, one more admitted
   * task while any is pending, and every stalled task stays stalled.
   */
  ghost predicate Completes(r: RegistryState, r': RegistryState)
  {
    && r'.objs == r.objs
    && r'.ended == r.ended + 1
    && r'.started == (if r.started < |r.objs| then r.started + 1 else r.started)
    && |r'.state| == |r.state|
    && (forall j :: 0 <= j < |r.state| && r.state[j] == Stalled ==> r'.state[j] == Stalled)
  }

  /** An HTTP error followed by an admission keeps the invariant and frees a slot for the admitted task. */
  lemma FailedThenAdmit(r: RegistryState, i: nat)
    requires Inv(r) && i < |r.objs| && r.state[i] == InFlight
    ensures Inv(Admit(EndFailed(r, i))) && Completes(r, Admit(EndFailed(r, i)))
  {
    EndFailedInv(r, i);
    AdmitInv(EndFailed(r, i));
  }

  /** A success followed by an admission keeps the invariant and frees a slot for the admitted task. */
  lemma SucceededThenAdmit(r: RegistryState, i: nat, body: seq<byte>)
    requires Inv(r) && i < |r.objs| && r.state[i] == InFlight
    ensures Inv(Admit(EndSucceeded(r, i, body))) && Completes(r, Admit(EndSucceeded(r, i, body)))
  {
    EndSucceededInv(r, i, body);
    AdmitInv(EndSucceeded(r, i, body));
  }

  /** Any number of admissions keeps the invariant, the descriptors, the ended count and the success list. */
  lemma {:induction false} AdmitManyInv(r: RegistryState, k: nat)
    requires Inv(r)
    ensures var r' := AdmitMany(r, k);
            Inv(r') && r'.objs == r.objs && r'.ended == r.ended && r'.succ == r.succ
  {
    if k > 0 {
      AdmitManyInv(r, k - 1);
      AdmitInv(AdmitMany(r, k - 1));
    }
  }

  /** Some task is counted in `k` whenever the count is positive. */
  lemma {:induction false} CountPositive(s: seq<TaskState>, k: set<TaskState>) returns (i: nat)
    requires Count(s, k) > 0
    ensures i < |s| && s[i] in k
  {
    if s[0] in k {
      i := 0;
    } else {
      var j := CountPositive(s[1..], k);
      i := j + 1;
    }
  }

  /** The success list, read as a set of segments, is exactly the set of succeeded descriptors. */
  lemma SuccessesAreSucceeded(r: RegistryState)
    requires Inv(r)
    ensures forall i :: 0 <= i < |r.objs| ==> (r.objs[i] in r.succ <==> r.state[i] == Succeeded)
  {
  }

  /** While some task is stalled, not every task can have ended. */
  lemma StalledBlocksEnd(r: RegistryState, i: nat)
    requires Inv(r) && i < |r.objs| && r.state[i] == Stalled
    ensures r.ended < |r.objs|
  {
    CountMissing(r.state, i, Done);
  }

  /**
   * `k` admissions from a fresh registry put exactly the tasks `0..k-1` in
   * flight, leave the rest pending and open an empty file for each.
   */
  lemma {:induction false} AdmitManyFresh(urls: seq<string>, k: nat)
    requires k <= |urls|
    ensures var r := AdmitMany(Fresh(urls), k);
            && r.objs == Descriptors(urls) && r.started == k && r.ended == 0
            && r.succ == [] && r.idx == [] && r.files == EmptyFiles(k)
            && forall i :: 0 <= i < |urls| ==> r.state[i] == (if i < k then InFlight else Pending)
  {
    if k > 0 {
      AdmitManyFresh(urls, k - 1);
    }
  }
}
