/**
 * `NomadJobExecutor#deploy!`, `#job_error_result` and `#allocation_log`.
 * The control plane is the caller-supplied `ControlPlane`: the answer to the
 * job submission, the successive evaluation snapshots, the allocation list,
 * the successive snapshots of each allocation and the outcome of each log
 * request. Every request the executor would send is recorded, in order, in
 * the `requests` of its `Progress`, so that what is polled, in which order,
 * and what is never asked for can be stated.
 */
module Executor {
  import opened Options
  import opened OrderedHash
  import opened Results
  import opened Jobs
  import opened Poll

  /** The allocation client statuses `deploy!` stops on, and its "no allocations" message. */
  const ALLOCATION_COMPLETE := "complete"
  const ALLOCATION_FAILED := "failed"
  const NOTHING_WAS_RUN := "Nothing was run"

  datatype Stream = Stdout | Stderr

  /** The answer to the job submission: its `EvalID` and the other fields. */
  datatype Submission = Submission(evalId: string, rest: Hash<string, Json>)

  /** An evaluation snapshot; only its `Status` is read. */
  datatype Evaluation = Evaluation(status: string)

  /** An allocation snapshot: `ID`, `ClientStatus` and the keys of `TaskStates`, in order. */
  datatype Allocation = Allocation(id: string, clientStatus: string, taskStates: seq<string>)

  /** The requests the executor sends. */
  datatype Request =
    | SubmitJob(job: Job, enforceIndex: int)           // POST /v1/job/{Name}
    | GetEvaluation(evalId: string)                    // GET /v1/evaluation/{EvalID}
    | ListAllocations(evalId: string)                  // GET /v1/evaluation/{EvalID}/allocations
    | GetAllocation(allocId: string)                   // GET /v1/allocation/{ID}
    | GetLog(allocId: string, task: string, stream: Stream)  // GET /v1/client/fs/logs/{ID}?type=..&task=..

  /**
   * The decoded `Data` of a log request, or `None` when the request raised
   * one of the errors `allocation_log` rescues.
   */
  type LogSource = (string, string, Stream) -> Option<string>

  datatype ControlPlane = ControlPlane(
    submission: Submission,
    evaluations: seq<Evaluation>,
    allocationIds: seq<string>,
    snapshots: string -> seq<Allocation>,
    logs: LogSource)

  /** The `{stdout:, stderr:}` hash recorded per task. */
  datatype Streams = Streams(stdout: string, stderr: string)

  /** The data a `Result` of this executor carries. */
  datatype Payload =
    | EmptyHash                           // `{}`, the factories' default
    | Text(text: string)                  // a plain string
    | Submitted(response: Submission)     // the submission's answer, returned as is
    | TaskOutput(tasks: Hash<string, Streams>)  // task name => {stdout:, stderr:}

  /**
   * The argument of `job_error_result`: a hash with a `:data` key holding an
   * allocation, or any other value, of which only its `inspect` string is used.
   */
  datatype ErrorInput = DataKeyed(allocation: Allocation) | Unkeyed(inspected: string)

  /** The requests sent so far and, once the source would have returned, its result. */
  datatype Progress = Progress(requests: seq<Request>, outcome: Option<Result<Payload>>)

  datatype Diagnosis = Diagnosis(requests: seq<Request>, result: Result<Payload>)

  function Repeat<T>(x: T, n: nat): (s: seq<T>)
    ensures |s| == n
    ensures forall i :: 0 <= i < n ==> s[i] == x
  {
    seq(n, _ => x)
  }

  /** `allocation_log`: the decoded log, or `''` when fetching it raised a rescued error. */
  function AllocationLog(logs: LogSource, allocId: string, task: string, stream: Stream): (text: string)
    ensures logs(allocId, task, stream).None? ==> text == ""
    ensures logs(allocId, task, stream).Some? ==> text == logs(allocId, task, stream).value
  {
    match logs(allocId, task, stream)
    case Some(text) => text
    case None => ""
  }

  function TaskStreams(allocId: string, task: string, logs: LogSource): Streams {
    Streams(AllocationLog(logs, allocId, task, Stdout), AllocationLog(logs, allocId, task, Stderr))
  }

  /** The log requests `job_error_result` sends: per task in order, stdout then stderr. */
  function LogRequests(allocId: string, tasks: seq<string>): (qs: seq<Request>)
    ensures |qs| == 2 * |tasks|
    ensures forall i :: 0 <= i < |tasks| ==>
      qs[2 * i] == GetLog(allocId, tasks[i], Stdout) && qs[2 * i + 1] == GetLog(allocId, tasks[i], Stderr)
    ensures forall q :: q in qs ==> q.GetLog? && q.allocId == allocId
    decreases |tasks|
  {
    if |tasks| == 0 then []
    else [GetLog(allocId, tasks[0], Stdout), GetLog(allocId, tasks[0], Stderr)] + LogRequests(allocId, tasks[1..])
  }

  /** `tasks.map { |t| [t, {stdout:, stderr:}] }.to_h`, built left to right. */
  function TaskOutputs(allocId: string, tasks: seq<string>, logs: LogSource): (h: Hash<string, Streams>)
    ensures forall name :: name in Keys(h) <==> name in tasks
    ensures forall name :: name in tasks ==> Get(h, name) == Some(TaskStreams(allocId, name, logs))
    ensures UniqueKeys(h)
    ensures Distinct(tasks) ==> Keys(h) == tasks
    decreases |tasks|
  {
    if |tasks| == 0 then []
    else
      var init := tasks[..|tasks| - 1];
      var last := tasks[|tasks| - 1];
      var h := TaskOutputs(allocId, init, logs);
      OutputsSnoc(allocId, tasks, logs, h, Put(h, last, TaskStreams(allocId, last, logs)));
      Put(h, last, TaskStreams(allocId, last, logs))
  }

  /** Adding the entry of one more task to the task-output hash of the others. */
  lemma OutputsSnoc(allocId: string, tasks: seq<string>, logs: LogSource, h: Hash<string, Streams>, r: Hash<string, Streams>)
    requires |tasks| > 0
    requires var init := tasks[..|tasks| - 1];
      && (forall name :: name in Keys(h) <==> name in init)
      && (forall name :: name in init ==> Get(h, name) == Some(TaskStreams(allocId, name, logs)))
      && UniqueKeys(h)
      && (Distinct(init) ==> Keys(h) == init)
    requires r == Put(h, tasks[|tasks| - 1], TaskStreams(allocId, tasks[|tasks| - 1], logs))
    ensures forall name :: name in Keys(r) <==> name in tasks
    ensures forall name :: name in tasks ==> Get(r, name) == Some(TaskStreams(allocId, name, logs))
    ensures UniqueKeys(r)
    ensures Distinct(tasks) ==> Keys(r) == tasks
  {
    var init, last := tasks[..|tasks| - 1], tasks[|tasks| - 1];
    LastSplit(tasks);
    forall name
      ensures name in Keys(r) <==> name in tasks
    {
      assert name in tasks <==> name in init || name == last;
    }
    forall name | name in tasks
      ensures Get(r, name) == Some(TaskStreams(allocId, name, logs))
    {
      if name != last {
        assert name in init;
      }
    }
    if Distinct(tasks) {
      DistinctSnoc(init, last);
      assert Keys(r) == Keys(h) + [last];
    }
  }

  lemma LastSplit<T>(s: seq<T>)
    requires |s| > 0
    ensures s == s[..|s| - 1] + [s[|s| - 1]]
  {
  }

  /** A duplicate-free list stays so without its last element, which is not among the others. */
  lemma DistinctSnoc<T>(init: seq<T>, last: T)
    ensures Distinct(init + [last]) ==> Distinct(init) && last !in init
  {
    var s := init + [last];
    if Distinct(s) {
      forall i, j | 0 <= i < j < |init|
        ensures init[i] != init[j]
      {
        assert s[i] == init[i] && s[j] == init[j];
      }
      forall i | 0 <= i < |init|
        ensures init[i] != last
      {
        assert s[i] == init[i] && s[|init|] == last;
      }
    }
  }

  /** `job_error_result(result)` */
  function JobErrorResult(input: ErrorInput, logs: LogSource): (d: Diagnosis)
    ensures d.result.IsError()
    ensures input.Unkeyed? ==> d.result.data == Text(input.inspected) && d.requests == []
    ensures input.DataKeyed? ==>
      && d.result.data.TaskOutput?
      && d.requests == LogRequests(input.allocation.id, input.allocation.taskStates)
      && (forall name :: name in Keys(d.result.data.tasks) <==> name in input.allocation.taskStates)
      && (forall name :: name in input.allocation.taskStates ==>
            Get(d.result.data.tasks, name) == Some(TaskStreams(input.allocation.id, name, logs)))
    ensures input.DataKeyed? && Distinct(input.allocation.taskStates) ==>
      Keys(d.result.data.tasks) == input.allocation.taskStates
  {
    match input
    case DataKeyed(a) =>
      Diagnosis(LogRequests(a.id, a.taskStates), Error(TaskOutput(TaskOutputs(a.id, a.taskStates, logs))))
    case Unkeyed(inspected) =>
      Diagnosis([], Error(Text(inspected)))
  }

  /**
   * A log request that fails blanks that one stream of that one task: the
   * other stream keeps its decoded text.
   */
  lemma LogFailureBlanksOneStream(a: Allocation, logs: LogSource, task: string)
    requires task in a.taskStates
    ensures var entry := Get(JobErrorResult(DataKeyed(a), logs).result.data.tasks, task);
      && entry.Some?
      && (logs(a.id, task, Stdout).None? ==> entry.value.stdout == "")
      && (logs(a.id, task, Stdout).Some? ==> entry.value.stdout == logs(a.id, task, Stdout).value)
      && (logs(a.id, task, Stderr).None? ==> entry.value.stderr == "")
      && (logs(a.id, task, Stderr).Some? ==> entry.value.stderr == logs(a.id, task, Stderr).value)
  {
  }

  /** The wait and error clauses of the allocation poll. */
  function Complete(a: Allocation): bool {
    a.clientStatus == ALLOCATION_COMPLETE
  }

  function Failed(a: Allocation): bool {
    a.clientStatus == ALLOCATION_FAILED
  }

  /** The wait clause of the evaluation poll. */
  function StatusIs(wait: string): Evaluation -> bool {
    (e: Evaluation) => e.status == wait
  }

  /** The `allocations.each` loop of `deploy!`. */
  function PollAllocations(ids: seq<string>, cp: ControlPlane): (run: Progress)
    ensures run.outcome.Some? ==>
      run.outcome == Some(Ok(EmptyHash)) || (run.outcome.value.IsError() && run.outcome.value.data.TaskOutput?)
    ensures forall q :: q in run.requests ==> q.GetAllocation? || q.GetLog?
    decreases |ids|
  {
    if |ids| == 0 then Progress([], Some(Ok(EmptyHash)))
    else
      var id := ids[0];
      match ReqUntil(cp.snapshots(id), Complete, Failed)
      case StillWaiting =>
        Progress(Repeat(GetAllocation(id), |cp.snapshots(id)|), None)
      case Settled(result, n) =>
        var polls := Repeat(GetAllocation(id), n);
        if result.IsError() then
          var d := JobErrorResult(DataKeyed(result.data.data), cp.logs);
          Progress(polls + d.requests, Some(d.result))
        else
          var more := PollAllocations(ids[1..], cp);
          Progress(polls + more.requests, more.outcome)
  }

  /** `deploy!(job:, wait:)` */
  function Deploy(job: Job, wait: string, cp: ControlPlane): (run: Progress)
    ensures |run.requests| >= 1 && run.requests[0] == SubmitJob(job, job.modifyIndex)
    ensures forall q :: q in run.requests[1..] ==> !q.SubmitJob?
    ensures wait == "" ==>
      run.requests == [SubmitJob(job, job.modifyIndex)] && run.outcome == Some(Ok(Submitted(cp.submission)))
    ensures run.outcome.Some? && run.outcome.value.IsError() ==>
      run.outcome.value.data.Text? || run.outcome.value.data.TaskOutput?
  {
    var submit := SubmitJob(job, job.modifyIndex);
    if wait == "" then Progress([submit], Some(Ok(Submitted(cp.submission))))
    else
      var watch := Watch(wait, cp);
      assert ([submit] + watch.requests)[1..] == watch.requests;
      Progress([submit] + watch.requests, watch.outcome)
  }

  /** What `deploy!` does after the submission when it waits: the evaluation poll, the listing and the allocation loop. */
  function Watch(wait: string, cp: ControlPlane): (run: Progress)
    ensures forall q :: q in run.requests ==> !q.SubmitJob?
    ensures run.outcome.Some? && run.outcome.value.IsError() ==>
      run.outcome.value.data.Text? || run.outcome.value.data.TaskOutput?
  {
    var evalId := cp.submission.evalId;
    match ReqUntil(cp.evaluations, StatusIs(wait), DefaultErrorClause())
    case StillWaiting =>
      Progress(Repeat(GetEvaluation(evalId), |cp.evaluations|), None)
    case Settled(_, n) =>
      var listed := Repeat(GetEvaluation(evalId), n) + [ListAllocations(evalId)];
      if |cp.allocationIds| == 0 then Progress(listed, Some(Error(Text(NOTHING_WAS_RUN))))
      else
        var allocs := PollAllocations(cp.allocationIds, cp);
        Progress(listed + allocs.requests, allocs.outcome)
  }

  // ----- What the allocation loop does, stated per allocation -----

  /** The poll of an allocation stops on a `complete` snapshot. */
  ghost predicate SettlesComplete(snaps: seq<Allocation>) {
    exists n: nat :: StopsAt(snaps, Complete, Failed, n) && Complete(snaps[n])
  }

  /** The poll of an allocation stops on the `failed` snapshot `a`. */
  ghost predicate SettlesFailed(snaps: seq<Allocation>, a: Allocation) {
    exists n: nat :: StopsAt(snaps, Complete, Failed, n) && !Complete(snaps[n]) && snaps[n] == a
  }

  /** No supplied snapshot of the allocation is `complete` or `failed`. */
  ghost predicate NeverSettles(snaps: seq<Allocation>) {
    forall j :: 0 <= j < |snaps| ==> Quiet(snaps[j], Complete, Failed)
  }

  ghost predicate AllComplete(ids: seq<string>, cp: ControlPlane) {
    forall i :: 0 <= i < |ids| ==> SettlesComplete(cp.snapshots(ids[i]))
  }

  /** Allocation `k` is the first that does not complete, and it fails on snapshot `a`. */
  ghost predicate FirstFailure(ids: seq<string>, cp: ControlPlane, k: nat, a: Allocation) {
    k < |ids| && AllComplete(ids[..k], cp) && SettlesFailed(cp.snapshots(ids[k]), a)
  }

  /** Allocation `k` is the first that does not complete, and it never settles. */
  ghost predicate FirstStuck(ids: seq<string>, cp: ControlPlane, k: nat) {
    k < |ids| && AllComplete(ids[..k], cp) && NeverSettles(cp.snapshots(ids[k]))
  }

  /**
   * `reqs` is exactly the allocation polls of `ids`: for each in list order,
   * one poll per snapshot up to and including the first snapshot on which it
   * is `complete` or `failed`, and nothing else.
   */
  ghost predicate PolledUntilSettled(reqs: seq<Request>, ids: seq<string>, cp: ControlPlane)
    decreases |ids|
  {
    if |ids| == 0 then reqs == []
    else exists n: nat ::
      && StopsAt(cp.snapshots(ids[0]), Complete, Failed, n)
      && n + 1 <= |reqs|
      && reqs[..n + 1] == Repeat(GetAllocation(ids[0]), n + 1)
      && PolledUntilSettled(reqs[n + 1..], ids[1..], cp)
  }

  /** How the poll of one allocation ends, in terms of its snapshots. */
  lemma AllocationFate(snaps: seq<Allocation>)
    ensures var p := ReqUntil(snaps, Complete, Failed);
      && (p.Settled? && p.result.IsOk() <==> SettlesComplete(snaps))
      && (forall a :: SettlesFailed(snaps, a) <==> p.Settled? && p.result.IsError() && p.result.data.data == a)
      && (p.StillWaiting? <==> NeverSettles(snaps))
  {
    var p := ReqUntil(snaps, Complete, Failed);
    if p.Settled? {
      forall m | StopsAt(snaps, Complete, Failed, m)
        ensures m == p.fetches - 1
      {
        StopIndexUnique(snaps, Complete, Failed, m, p.fetches - 1);
      }
      if p.result.IsOk() {
        assert StopsAt(snaps, Complete, Failed, p.fetches - 1) && Complete(snaps[p.fetches - 1]);
      } else {
        assert StopsAt(snaps, Complete, Failed, p.fetches - 1) && !Complete(snaps[p.fetches - 1]);
      }
    } else {
      forall m: nat | m < |snaps|
        ensures !StopsAt(snaps, Complete, Failed, m)
      {
        assert Quiet(snaps[m], Complete, Failed);
      }
    }
  }

  lemma AllCompleteCons(ids: seq<string>, cp: ControlPlane)
    requires |ids| > 0
    ensures AllComplete(ids, cp) <==> SettlesComplete(cp.snapshots(ids[0])) && AllComplete(ids[1..], cp)
  {
    if SettlesComplete(cp.snapshots(ids[0])) && AllComplete(ids[1..], cp) {
      forall i | 0 <= i < |ids|
        ensures SettlesComplete(cp.snapshots(ids[i]))
      {
        if i > 0 {
          assert ids[i] == ids[1..][i - 1];
        }
      }
    }
  }

  /** Unfolding the first allocation off the front of the list. */
  lemma ConsPrefix(ids: seq<string>, cp: ControlPlane)
    requires |ids| > 0
    ensures forall a :: FirstFailure(ids, cp, 0, a) <==> SettlesFailed(cp.snapshots(ids[0]), a)
    ensures FirstStuck(ids, cp, 0) <==> NeverSettles(cp.snapshots(ids[0]))
    ensures forall k: nat, a :: k >= 1 ==>
      (FirstFailure(ids, cp, k, a) <==> SettlesComplete(cp.snapshots(ids[0])) && FirstFailure(ids[1..], cp, k - 1, a))
    ensures forall k: nat :: k >= 1 ==>
      (FirstStuck(ids, cp, k) <==> SettlesComplete(cp.snapshots(ids[0])) && FirstStuck(ids[1..], cp, k - 1))
  {
    AllCompleteCons(ids, cp);
    forall k: nat | 1 <= k < |ids|
      ensures AllComplete(ids[..k], cp) <==> SettlesComplete(cp.snapshots(ids[0])) && AllComplete(ids[1..][..k - 1], cp)
      ensures ids[1..][k - 1] == ids[k]
    {
      AllCompleteCons(ids[..k], cp);
      assert ids[..k][1..] == ids[1..][..k - 1];
    }
  }

  /** Polling the first allocation until it settles on snapshot `n - 1`, then the rest. */
  lemma PolledHead(ids: seq<string>, n: nat, rest: seq<Request>, cp: ControlPlane)
    requires |ids| > 0 && n >= 1 && StopsAt(cp.snapshots(ids[0]), Complete, Failed, n - 1)
    requires PolledUntilSettled(rest, ids[1..], cp)
    ensures PolledUntilSettled(Repeat(GetAllocation(ids[0]), n) + rest, ids, cp)
  {
    var reqs := Repeat(GetAllocation(ids[0]), n) + rest;
    assert reqs[..n] == Repeat(GetAllocation(ids[0]), n);
    assert reqs[n..] == rest;
  }

  /**
   * The allocation loop returns `Result.ok` exactly when every allocation
   * completes, an error exactly when some allocation fails before any
   * earlier one stops completing, and is still polling exactly when the
   * first allocation that does not complete never settles.
   */
  lemma {:induction false} AllocationPhase(ids: seq<string>, cp: ControlPlane)
    ensures var run := PollAllocations(ids, cp);
      && (run.outcome == Some(Ok(EmptyHash)) <==> AllComplete(ids, cp))
      && (run.outcome.Some? && run.outcome.value.IsError() <==> exists k: nat, a :: FirstFailure(ids, cp, k, a))
      && (run.outcome.None? <==> exists k: nat :: FirstStuck(ids, cp, k))
    decreases |ids|
  {
    if |ids| > 0 {
      var snaps := cp.snapshots(ids[0]);
      var p := ReqUntil(snaps, Complete, Failed);
      AllocationFate(snaps);
      ConsPrefix(ids, cp);
      AllCompleteCons(ids, cp);
      if p.Settled? && p.result.IsOk() {
        AllocationPhase(ids[1..], cp);
        if exists k: nat, a :: FirstFailure(ids[1..], cp, k, a) {
          var k: nat, a :| FirstFailure(ids[1..], cp, k, a);
          assert FirstFailure(ids, cp, k + 1, a);
        }
        if exists k: nat, a :: FirstFailure(ids, cp, k, a) {
          var k: nat, a :| FirstFailure(ids, cp, k, a);
          assert FirstFailure(ids[1..], cp, k - 1, a);
        }
        if exists k: nat :: FirstStuck(ids[1..], cp, k) {
          var k: nat :| FirstStuck(ids[1..], cp, k);
          assert FirstStuck(ids, cp, k + 1);
        }
        if exists k: nat :: FirstStuck(ids, cp, k) {
          var k: nat :| FirstStuck(ids, cp, k);
          assert FirstStuck(ids[1..], cp, k - 1);
        }
      } else if p.Settled? {
        assert FirstFailure(ids, cp, 0, p.result.data.data);
        assert !exists k: nat :: FirstStuck(ids, cp, k);
      } else {
        assert FirstStuck(ids, cp, 0);
        assert !exists k: nat, a :: FirstFailure(ids, cp, k, a);
      }
    }
  }

  /**
   * When every allocation completes, each is polled in list order once per
   * snapshot up to the first `complete` one, and nothing else is requested.
   */
  lemma {:induction false} AllCompletePollsEach(ids: seq<string>, cp: ControlPlane)
    requires AllComplete(ids, cp)
    ensures PolledUntilSettled(PollAllocations(ids, cp).requests, ids, cp)
    ensures forall q :: q in PollAllocations(ids, cp).requests ==> q.GetAllocation?
    decreases |ids|
  {
    if |ids| > 0 {
      var snaps := cp.snapshots(ids[0]);
      AllocationFate(snaps);
      AllCompleteCons(ids, cp);
      AllCompletePollsEach(ids[1..], cp);
      var p := ReqUntil(snaps, Complete, Failed);
      var more := PollAllocations(ids[1..], cp);
      PolledHead(ids, p.fetches, more.requests, cp);
    }
  }

  /**
   * `run` ended with the diagnosis `d`: its result is `d`'s, and its
   * requests are exactly the polls of `ids` until each settles, followed by
   * `d`'s log requests.
   */
  ghost predicate EndsWithReport(run: Progress, ids: seq<string>, cp: ControlPlane, d: Diagnosis) {
    && run.outcome == Some(d.result)
    && |d.requests| <= |run.requests|
    && run.requests[|run.requests| - |d.requests|..] == d.requests
    && PolledUntilSettled(run.requests[..|run.requests| - |d.requests|], ids, cp)
  }

  /**
   * The first failing allocation wins: the result is `job_error_result` of
   * its failed snapshot, the allocations after it are never polled, and the
   * last requests sent are that snapshot's log requests.
   */
  lemma {:induction false} FirstFailureWins(ids: seq<string>, cp: ControlPlane, k: nat, a: Allocation)
    requires FirstFailure(ids, cp, k, a)
    ensures EndsWithReport(PollAllocations(ids, cp), ids[..k + 1], cp, JobErrorResult(DataKeyed(a), cp.logs))
    decreases k
  {
    if k == 0 {
      FailingHeadWins(ids, cp, a);
    } else {
      FailureBeyondHead(ids, cp, k, a);
      FirstFailureWins(ids[1..], cp, k - 1, a);
      var n := CompletingHeadUnfolds(ids, cp);
      CompletingHeadStep(ids, k, n, cp, PollAllocations(ids[1..], cp), PollAllocations(ids, cp), JobErrorResult(DataKeyed(a), cp.logs));
    }
  }

  lemma FailureBeyondHead(ids: seq<string>, cp: ControlPlane, k: nat, a: Allocation)
    requires k >= 1 && FirstFailure(ids, cp, k, a)
    ensures SettlesComplete(cp.snapshots(ids[0])) && FirstFailure(ids[1..], cp, k - 1, a)
  {
    ConsPrefix(ids, cp);
  }

  lemma FailingHeadWins(ids: seq<string>, cp: ControlPlane, a: Allocation)
    requires |ids| > 0 && SettlesFailed(cp.snapshots(ids[0]), a)
    ensures EndsWithReport(PollAllocations(ids, cp), ids[..1], cp, JobErrorResult(DataKeyed(a), cp.logs))
  {
    var snaps := cp.snapshots(ids[0]);
    var p := ReqUntil(snaps, Complete, Failed);
    AllocationFate(snaps);
    assert p.Settled? && p.result.IsError() && p.result.data.data == a;
    assert p == Settled(Error(Polled(a)), p.fetches);
    HeadFails(ids, cp, a, p.fetches);
    FailedHeadReport(ids, p.fetches, cp, JobErrorResult(DataKeyed(a), cp.logs), PollAllocations(ids, cp));
  }

  /** The report of a first allocation that fails on snapshot `n - 1`. */
  lemma FailedHeadReport(ids: seq<string>, n: nat, cp: ControlPlane, d: Diagnosis, run: Progress)
    requires |ids| > 0 && n >= 1 && StopsAt(cp.snapshots(ids[0]), Complete, Failed, n - 1)
    requires run == Progress(Repeat(GetAllocation(ids[0]), n) + d.requests, Some(d.result))
    ensures EndsWithReport(run, ids[..1], cp, d)
  {
    var polls := Repeat(GetAllocation(ids[0]), n);
    assert PolledUntilSettled([], ids[..1][1..], cp);
    PolledHead(ids[..1], n, [], cp);
    assert polls + [] == polls;
    SplitAtSuffix(polls, d.requests);
  }

  lemma SplitAtSuffix<T>(a: seq<T>, b: seq<T>)
    ensures (a + b)[|a + b| - |b|..] == b && (a + b)[..|a + b| - |b|] == a
  {
  }

  /** The loop's progress after a first allocation that completes after `n` polls, from the rest's. */
  lemma CompletingHeadStep(ids: seq<string>, k: nat, n: nat, cp: ControlPlane, more: Progress, run: Progress, d: Diagnosis)
    requires 1 <= k < |ids| && n >= 1 && StopsAt(cp.snapshots(ids[0]), Complete, Failed, n - 1)
    requires run == Progress(Repeat(GetAllocation(ids[0]), n) + more.requests, more.outcome)
    requires EndsWithReport(more, ids[1..][..k], cp, d)
    ensures EndsWithReport(run, ids[..k + 1], cp, d)
  {
    var polls := Repeat(GetAllocation(ids[0]), n);
    var rest := more.requests[..|more.requests| - |d.requests|];
    assert ids[..k + 1][1..] == ids[1..][..k];
    PolledHead(ids[..k + 1], n, rest, cp);
    SuffixOfConcat(polls, more.requests, |d.requests|);
  }

  lemma SuffixOfConcat<T>(a: seq<T>, b: seq<T>, m: nat)
    requires m <= |b|
    ensures (a + b)[|a + b| - m..] == b[|b| - m..]
    ensures (a + b)[..|a + b| - m] == a + b[..|b| - m]
  {
  }

  /** When the first allocation completes after `n` polls, the loop moves on to the rest of the list. */
  lemma CompletingHeadUnfolds(ids: seq<string>, cp: ControlPlane) returns (n: nat)
    requires |ids| > 0 && SettlesComplete(cp.snapshots(ids[0]))
    ensures n >= 1 && StopsAt(cp.snapshots(ids[0]), Complete, Failed, n - 1)
    ensures var more := PollAllocations(ids[1..], cp);
      PollAllocations(ids, cp) == Progress(Repeat(GetAllocation(ids[0]), n) + more.requests, more.outcome)
  {
    var snaps := cp.snapshots(ids[0]);
    AllocationFate(snaps);
    n := ReqUntil(snaps, Complete, Failed).fetches;
  }

  // ----- What deploy! does, stated on the evaluation and allocation snapshots -----

  /** Evaluation snapshot `n` is the first whose status is the wait status. */
  ghost predicate FirstAtStatus(evals: seq<Evaluation>, wait: string, n: nat) {
    && n < |evals|
    && evals[n].status == wait
    && forall j :: 0 <= j < n ==> evals[j].status != wait
  }

  ghost predicate ReachesStatus(evals: seq<Evaluation>, wait: string) {
    exists n: nat :: FirstAtStatus(evals, wait, n)
  }

  /** How the evaluation poll ends, in terms of the evaluation snapshots. */
  lemma EvaluationFate(evals: seq<Evaluation>, wait: string)
    ensures var p := ReqUntil(evals, StatusIs(wait), DefaultErrorClause());
      && (p.StillWaiting? <==> forall j :: 0 <= j < |evals| ==> evals[j].status != wait)
      && (p.StillWaiting? <==> !ReachesStatus(evals, wait))
      && (forall n: nat :: FirstAtStatus(evals, wait, n) ==> p == Settled(Ok(Polled(evals[n])), n + 1))
  {
    var p := ReqUntil(evals, StatusIs(wait), DefaultErrorClause());
    forall n: nat | FirstAtStatus(evals, wait, n)
      ensures p == Settled(Ok(Polled(evals[n])), n + 1)
    {
      FirstWaitMatchIsOk(evals, StatusIs(wait), DefaultErrorClause(), n);
    }
    if p.Settled? {
      assert FirstAtStatus(evals, wait, p.fetches - 1);
    }
  }

  /** While no evaluation snapshot has the wait status, the deploy keeps polling the evaluation. */
  lemma WatchStuck(wait: string, cp: ControlPlane)
    requires !ReachesStatus(cp.evaluations, wait)
    ensures Watch(wait, cp) == Progress(Repeat(GetEvaluation(cp.submission.evalId), |cp.evaluations|), None)
  {
    EvaluationFate(cp.evaluations, wait);
  }

  /** Once snapshot `n` is the first with the wait status, the allocations are listed after `n + 1` polls. */
  lemma WatchListed(wait: string, cp: ControlPlane, n: nat)
    requires FirstAtStatus(cp.evaluations, wait, n)
    ensures var evalId := cp.submission.evalId;
            var listed := Repeat(GetEvaluation(evalId), n + 1) + [ListAllocations(evalId)];
            var allocs := PollAllocations(cp.allocationIds, cp);
      Watch(wait, cp) == if |cp.allocationIds| == 0 then Progress(listed, Some(Error(Text(NOTHING_WAS_RUN))))
                         else Progress(listed + allocs.requests, allocs.outcome)
  {
    EvaluationFate(cp.evaluations, wait);
  }

  /**
   * With a wait status, `deploy!` polls the evaluation until its status
   * equals it, one request per snapshot, and only then lists the
   * evaluation's allocations; while no snapshot matches it is still polling.
   */
  lemma EvaluationPolledUntilWait(job: Job, wait: string, cp: ControlPlane)
    requires wait != ""
    ensures var run := Deploy(job, wait, cp);
            var evalId := cp.submission.evalId;
      && (!ReachesStatus(cp.evaluations, wait) ==>
            && run.outcome.None?
            && run.requests == [SubmitJob(job, job.modifyIndex)] + Repeat(GetEvaluation(evalId), |cp.evaluations|))
      && (forall n: nat :: FirstAtStatus(cp.evaluations, wait, n) ==>
            && |run.requests| >= n + 3
            && run.requests[1..n + 2] == Repeat(GetEvaluation(evalId), n + 1)
            && run.requests[n + 2] == ListAllocations(evalId))
  {
    if !ReachesStatus(cp.evaluations, wait) {
      WatchStuck(wait, cp);
    }
    forall n: nat | FirstAtStatus(cp.evaluations, wait, n)
      ensures var run := Deploy(job, wait, cp);
        && |run.requests| >= n + 3
        && run.requests[1..n + 2] == Repeat(GetEvaluation(cp.submission.evalId), n + 1)
        && run.requests[n + 2] == ListAllocations(cp.submission.evalId)
    {
      WatchListed(wait, cp, n);
      ListedPrefix(SubmitJob(job, job.modifyIndex), Repeat(GetEvaluation(cp.submission.evalId), n + 1),
                   ListAllocations(cp.submission.evalId), Watch(wait, cp).requests);
    }
  }

  /** The submission, the evaluation polls and the listing come first, in that order. */
  lemma ListedPrefix(submit: Request, polls: seq<Request>, list: Request, rest: seq<Request>)
    requires |rest| >= |polls| + 1 && rest[..|polls| + 1] == polls + [list]
    ensures ([submit] + rest)[1..|polls| + 1] == polls
    ensures ([submit] + rest)[|polls| + 1] == list
  {
    assert ([submit] + rest)[1..|polls| + 1] == rest[..|polls|];
    assert rest[..|polls|] == (polls + [list])[..|polls|];
  }

  /**
   * `deploy!` returns `Result.error('Nothing was run')` exactly when it
   * waited for the evaluation and the allocation list came back empty; then
   * no allocation is polled and no log requested.
   */
  lemma NothingWasRun(job: Job, wait: string, cp: ControlPlane)
    ensures var run := Deploy(job, wait, cp);
      && (run.outcome == Some(Error(Text(NOTHING_WAS_RUN))) <==>
            wait != "" && ReachesStatus(cp.evaluations, wait) && |cp.allocationIds| == 0)
      && (run.outcome == Some(Error(Text(NOTHING_WAS_RUN))) ==>
            forall q :: q in run.requests ==> !q.GetAllocation? && !q.GetLog?)
  {
    EvaluationFate(cp.evaluations, wait);
  }

  /**
   * With a wait status, `deploy!` returns `Result.ok` exactly when the
   * evaluation reaches it, there are allocations and each completes; and
   * returns the task-output error exactly when one of them fails first.
   */
  lemma DeployOutcome(job: Job, wait: string, cp: ControlPlane)
    requires wait != ""
    ensures var run := Deploy(job, wait, cp);
      && (run.outcome == Some(Ok(EmptyHash)) <==>
            ReachesStatus(cp.evaluations, wait) && |cp.allocationIds| > 0 && AllComplete(cp.allocationIds, cp))
      && (run.outcome.Some? && run.outcome.value.IsError() && run.outcome.value.data.TaskOutput? <==>
            ReachesStatus(cp.evaluations, wait) && exists k: nat, a :: FirstFailure(cp.allocationIds, cp, k, a))
  {
    EvaluationFate(cp.evaluations, wait);
    AllocationPhase(cp.allocationIds, cp);
    if |cp.allocationIds| == 0 {
      assert AllComplete(cp.allocationIds, cp);
    }
  }

  /**
   * When allocation `k` is the first to fail, `deploy!` returns its
   * `job_error_result` and, after listing the allocations, polls them in
   * list order up to `k` and no further before requesting its logs.
   */
  lemma DeployFirstFailureWins(job: Job, wait: string, cp: ControlPlane, n: nat, k: nat, a: Allocation)
    requires wait != "" && FirstAtStatus(cp.evaluations, wait, n)
    requires FirstFailure(cp.allocationIds, cp, k, a)
    ensures var run := Deploy(job, wait, cp);
      && |run.requests| >= n + 3
      && EndsWithReport(Progress(run.requests[n + 3..], run.outcome), cp.allocationIds[..k + 1], cp,
                        JobErrorResult(DataKeyed(a), cp.logs))
  {
    WatchListed(wait, cp, n);
    FirstFailureWins(cp.allocationIds, cp, k, a);
    var evalId := cp.submission.evalId;
    ReportAfterListing(SubmitJob(job, job.modifyIndex), Repeat(GetEvaluation(evalId), n + 1) + [ListAllocations(evalId)],
                       PollAllocations(cp.allocationIds, cp), Deploy(job, wait, cp),
                       cp.allocationIds[..k + 1], cp, JobErrorResult(DataKeyed(a), cp.logs));
  }

  lemma ReportAfterListing(submit: Request, listed: seq<Request>, allocs: Progress, run: Progress,
                           ids: seq<string>, cp: ControlPlane, d: Diagnosis)
    requires run == Progress([submit] + (listed + allocs.requests), allocs.outcome)
    requires EndsWithReport(allocs, ids, cp, d)
    ensures |run.requests| >= |listed| + 1
    ensures EndsWithReport(Progress(run.requests[|listed| + 1..], run.outcome), ids, cp, d)
  {
    assert run.requests[|listed| + 1..] == allocs.requests;
  }

  /**
   * Two allocations, the first of which fails with a task `web` whose
   * stderr cannot be fetched: whatever the second would do, the loop stops
   * after the first, never polls the second, and reports `web`'s stdout with
   * an empty stderr.
   */
  lemma TwoAllocationsFirstFails(cp: ControlPlane)
    requires cp.allocationIds == ["a1", "a2"]
    requires cp.snapshots("a1") == [Allocation("a1", ALLOCATION_FAILED, ["web"])]
    requires cp.logs("a1", "web", Stdout) == Some("boom") && cp.logs("a1", "web", Stderr) == None
    ensures PollAllocations(cp.allocationIds, cp)
         == Progress([GetAllocation("a1"), GetLog("a1", "web", Stdout), GetLog("a1", "web", Stderr)],
                     Some(Error(TaskOutput([("web", Streams("boom", ""))]))))
  {
    var failed := Allocation("a1", ALLOCATION_FAILED, ["web"]);
    FirstErrorMatchIsError(cp.snapshots("a1"), Complete, Failed, 0);
    HeadFails(cp.allocationIds, cp, failed, 1);
    SingleTaskReport(failed, "web", cp.logs);
    WebReport(cp.logs, JobErrorResult(DataKeyed(failed), cp.logs), PollAllocations(cp.allocationIds, cp));
  }

  /** The run of `TwoAllocationsFirstFails`, from its single-task report. */
  lemma WebReport(logs: LogSource, d: Diagnosis, run: Progress)
    requires logs("a1", "web", Stdout) == Some("boom") && logs("a1", "web", Stderr) == None
    requires d == Diagnosis([GetLog("a1", "web", Stdout), GetLog("a1", "web", Stderr)],
                            Error(TaskOutput([("web", TaskStreams("a1", "web", logs))])))
    requires run == Progress(Repeat(GetAllocation("a1"), 1) + d.requests, Some(d.result))
    ensures run == Progress([GetAllocation("a1"), GetLog("a1", "web", Stdout), GetLog("a1", "web", Stderr)],
                            Some(Error(TaskOutput([("web", Streams("boom", ""))]))))
  {
    assert TaskStreams("a1", "web", logs) == Streams("boom", "");
    assert Repeat(GetAllocation("a1"), 1) == [GetAllocation("a1")];
  }

  /** The loop's progress when the first allocation fails on snapshot `a` after `n` polls. */
  lemma HeadFails(ids: seq<string>, cp: ControlPlane, a: Allocation, n: nat)
    requires |ids| > 0 && ReqUntil(cp.snapshots(ids[0]), Complete, Failed) == Settled(Error(Polled(a)), n)
    ensures var d := JobErrorResult(DataKeyed(a), cp.logs);
      PollAllocations(ids, cp) == Progress(Repeat(GetAllocation(ids[0]), n) + d.requests, Some(d.result))
  {
  }

  /** The failure report of an allocation with a single task. */
  lemma SingleTaskReport(a: Allocation, task: string, logs: LogSource)
    requires a.taskStates == [task]
    ensures JobErrorResult(DataKeyed(a), logs)
         == Diagnosis([GetLog(a.id, task, Stdout), GetLog(a.id, task, Stderr)],
                      Error(TaskOutput([(task, TaskStreams(a.id, task, logs))])))
  {
    assert [task][..0] == [];
    assert TaskOutputs(a.id, [task], logs) == [(task, TaskStreams(a.id, task, logs))];
  }

}
