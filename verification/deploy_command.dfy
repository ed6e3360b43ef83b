/**
 * deploy.rb: the `Deploy` command that holds the invocation parameters,
 * runs the mutate-then-deploy pipeline and maps the `Result` onto the
 * process's output and exit status. Printed output is one string per `puts`.
 */
module DeployCommand {
  import opened Options
  import opened OrderedHash
  import opened Results
  import opened Jobs
  import opened Executor

  /** The related service used when none is given. */
  const DEFAULT_RELATED_SERVICE := "nomad.service.consul"

  const SEPARATOR := "------------------------"
  const STDERR_HEADER := "STDERR \U{1F447}"
  const STDOUT_HEADER := "STDOUT \U{1F447}"

  datatype Deploy = Deploy(
    sshUser: string,
    sshHost: string,
    dockerImage: string,
    tag: string,
    waitStatus: string,
    waitTaskGroup: string,
    branchName: string,
    jobName: string,
    nomadUrl: string,
    jobRelatedService: string)

  /** `Deploy.new(...)` */
  function NewDeploy(
    sshUser: string, sshHost: string, dockerImage: string, tag: string, waitStatus: string,
    waitTaskGroup: string, branchName: string, jobName: string, nomadUrl: string,
    jobRelatedService: string): (d: Deploy)
    ensures d.jobRelatedService != ""
    ensures jobRelatedService != "" ==> d.jobRelatedService == jobRelatedService
    ensures jobRelatedService == "" ==> d.jobRelatedService == DEFAULT_RELATED_SERVICE
    ensures d.sshUser == sshUser && d.sshHost == sshHost && d.dockerImage == dockerImage && d.tag == tag
    ensures d.waitStatus == waitStatus && d.waitTaskGroup == waitTaskGroup && d.branchName == branchName
    ensures d.jobName == jobName && d.nomadUrl == nomadUrl
  {
    Deploy(sshUser, sshHost, dockerImage, tag, waitStatus, waitTaskGroup, branchName, jobName, nomadUrl,
           if jobRelatedService == "" then DEFAULT_RELATED_SERVICE else jobRelatedService)
  }

  /** Building a command from an already built command's parameters gives it back. */
  lemma NewDeployIdempotent(d: Deploy)
    requires d.jobRelatedService != ""
    ensures NewDeploy(d.sshUser, d.sshHost, d.dockerImage, d.tag, d.waitStatus, d.waitTaskGroup,
                      d.branchName, d.jobName, d.nomadUrl, d.jobRelatedService) == d
  {
  }

  /** What `show_result_error` prints for one task: its name, then stderr, then stdout. */
  function TaskBlock(task: string, output: Streams): seq<string> {
    [task + " Output:", STDERR_HEADER, SEPARATOR, output.stderr, STDOUT_HEADER, SEPARATOR, output.stdout]
  }

  /** The `result.data.each` loop over a task-output hash. */
  function TaskReport(tasks: Hash<string, Streams>): seq<string>
    decreases |tasks|
  {
    if |tasks| == 0 then []
    else TaskBlock(tasks[0].0, tasks[0].1) + TaskReport(tasks[1..])
  }

  /** The report holds one seven-line block per task, in the hash's order. */
  lemma {:induction false} TaskReportShape(tasks: Hash<string, Streams>)
    ensures |TaskReport(tasks)| == 7 * |tasks|
    ensures forall i :: 0 <= i < |tasks| ==>
      TaskReport(tasks)[7 * i..7 * i + 7] == TaskBlock(tasks[i].0, tasks[i].1)
    decreases |tasks|
  {
    if |tasks| > 0 {
      TaskReportShape(tasks[1..]);
      var head := TaskBlock(tasks[0].0, tasks[0].1);
      var rest := TaskReport(tasks[1..]);
      forall i | 0 <= i < |tasks|
        ensures TaskReport(tasks)[7 * i..7 * i + 7] == TaskBlock(tasks[i].0, tasks[i].1)
      {
        if i > 0 {
          assert tasks[1..][i - 1] == tasks[i];
          assert (head + rest)[7 * i..7 * i + 7] == rest[7 * (i - 1)..7 * (i - 1) + 7];
        }
      }
    }
  }

  /**
   * `show_result_error`: hash-like data is printed task by task, each task's
   * stderr before its stdout; anything else is printed as it is. The answer
   * to a job submission is left out (see the README).
   */
  function ShowResultError(data: Payload): (lines: seq<string>)
    requires !data.Submitted?
    ensures data.Text? ==> lines == [data.text]
    ensures data.EmptyHash? ==> lines == []
    ensures data.TaskOutput? ==> |lines| == 7 * |data.tasks|
    ensures data.TaskOutput? ==> forall i :: 0 <= i < |data.tasks| ==>
      lines[7 * i..7 * i + 7] == TaskBlock(data.tasks[i].0, data.tasks[i].1)
  {
    match data
    case TaskOutput(tasks) => TaskReportShape(tasks); TaskReport(tasks)
    case EmptyHash => []
    case Text(text) => [text]
  }

  /** The process's exit status and printed output. */
  datatype Exit = Exit(status: int, printed: seq<string>)

  /** How `run!` ends: exited, or still polling when the supplied responses run out. */
  datatype Ending = Exited(requests: seq<Request>, exit: Exit) | Polling(requests: seq<Request>)

  function ErrorBanner(jobName: string): string {
    "\U{1F534} Error trying to execute '" + jobName + "' job"
  }

  function CompletedBanner(jobName: string): string {
    "\U{1F680} Completed '" + jobName + "' job!"
  }

  /** The end of `run!`: exit 1 after the report on `error?`, otherwise report completion. */
  function Finish(jobName: string, result: Result<Payload>): (e: Exit)
    requires result.IsError() ==> !result.data.Submitted?
    ensures e.status == 1 <==> result.IsError()
    ensures e.status == 0 <==> !result.IsError()
    ensures result.IsError() ==>
      |e.printed| >= 1 && e.printed[0] == ErrorBanner(jobName) && e.printed[1..] == ShowResultError(result.data)
    ensures !result.IsError() ==> e.printed == [CompletedBanner(jobName)]
  {
    if result.IsError() then Exit(1, [ErrorBanner(jobName)] + ShowResultError(result.data))
    else Exit(0, [CompletedBanner(jobName)])
  }

  /**
   * `run!` as it is evidently meant to run: the fetched job (absent when no job
   * was obtained) gets the image and tag, then the deploy metadata
   * with the SSH user and the branch, then is deployed waiting for the wait
   * status. `deployAt` is the clock reading `set_deployed_info` formats.
   */
  function Run(d: Deploy, fetched: Option<Job>, deployAt: string, cp: ControlPlane): (e: Ending)
    ensures fetched.None? ==> e == Exited([], Exit(1, []))
    ensures fetched.Some? ==> |e.requests| >= 1 && e.requests[0].SubmitJob?
    ensures e.Exited? && fetched.Some? ==> e.exit.status == 0 || e.exit.status == 1
  {
    match fetched
    case None =>
      // update_image indexes the nil job: NoMethodError, exit status 1
      Exited([], Exit(1, []))
    case Some(job) =>
      Conclude(d.jobName, Executor.Deploy(Prepare(d, job, deployAt), d.waitStatus, cp))
  }

  /** The job `run!` submits: the fetched one re-tagged, then stamped with the user, branch and time. */
  function Prepare(d: Deploy, job: Job, deployAt: string): (r: Job)
    ensures r.name == job.name && r.modifyIndex == job.modifyIndex && r.rest == job.rest
    ensures |r.taskGroups| == |job.taskGroups|
    ensures forall g, t :: 0 <= g < |job.taskGroups| && 0 <= t < |job.taskGroups[g].tasks| ==>
      |r.taskGroups[g].tasks| == |job.taskGroups[g].tasks| &&
      TaskUpdated(job.taskGroups[g].tasks[t], r.taskGroups[g].tasks[t], d.dockerImage, d.tag)
    ensures r.meta.Some? && MetaStamped(OrEmpty(job.meta), Some(d.sshUser), Some(d.branchName), deployAt, r.meta.value)
  {
    SetDeployedInfo(UpdateImage(job, d.dockerImage, d.tag), Some(d.sshUser), Some(d.branchName), deployAt)
  }

  /** After `deploy!`: still polling, or exited as `Finish` says. */
  function Conclude(jobName: string, run: Progress): (e: Ending)
    requires run.outcome.Some? && run.outcome.value.IsError() ==> !run.outcome.value.data.Submitted?
    ensures e.requests == run.requests
    ensures e.Polling? <==> run.outcome.None?
    ensures e.Exited? ==> (e.exit.status == 1 <==> run.outcome.value.IsError())
    ensures e.Exited? ==> (e.exit.status == 0 <==> !run.outcome.value.IsError())
    ensures e.Exited? && run.outcome.value.IsError() ==> |e.exit.printed| >= 1 && e.exit.printed[0] == ErrorBanner(jobName)
  {
    match run.outcome
    case None => Polling(run.requests)
    case Some(result) => Exited(run.requests, Finish(jobName, result))
  }

  /**
   * The job `run!` submits is the fetched one with every task re-tagged and
   * the deploy metadata of this user, branch and time, under the fetched
   * job's modify index.
   */
  lemma RunSubmitsMutatedJob(d: Deploy, job: Job, deployAt: string, cp: ControlPlane)
    ensures var e := Run(d, Some(job), deployAt, cp);
            var q := e.requests[0];
      && q.SubmitJob?
      && q.enforceIndex == job.modifyIndex
      && q.job.name == job.name
      && q.job.rest == job.rest
      && |q.job.taskGroups| == |job.taskGroups|
      && (forall g, t :: 0 <= g < |job.taskGroups| && 0 <= t < |job.taskGroups[g].tasks| ==>
            |q.job.taskGroups[g].tasks| == |job.taskGroups[g].tasks| &&
            TaskUpdated(job.taskGroups[g].tasks[t], q.job.taskGroups[g].tasks[t], d.dockerImage, d.tag))
      && q.job.meta.Some?
      && MetaStamped(OrEmpty(job.meta), Some(d.sshUser), Some(d.branchName), deployAt, q.job.meta.value)
  {
  }

  /** `run!` exits with status 1 exactly when the deploy returned an error. */
  lemma RunExitStatus(d: Deploy, job: Job, deployAt: string, cp: ControlPlane)
    ensures var run := Executor.Deploy(Prepare(d, job, deployAt), d.waitStatus, cp);
            var e := Run(d, Some(job), deployAt, cp);
      && (run.outcome.None? <==> e.Polling?)
      && (e.Exited? ==> (e.exit.status == 1 <==> run.outcome.value.IsError()))
      && (e.Exited? && run.outcome.value.IsError() ==> e.exit.printed[0] == ErrorBanner(d.jobName))
  {
  }

  /**
   * `run!` as written: the block holding the pipeline is passed to
   * `client`, which never yields, so nothing is fetched, mutated or
   * submitted; `result` is then an undefined name at the `error?` test, and
   * the resulting NameError ends the process with status 1.
   */
  function RunAsWritten(d: Deploy, fetched: Option<Job>, deployAt: string, cp: ControlPlane): (e: Ending)
    ensures e.Exited? && e.exit.status == 1
  {
    Exited([], Exit(1, []))
  }

  /**
   * For every input on which the intended pipeline submits a job, the code
   * as written sends no request at all and fails.
   */
  lemma RunAsWrittenNeverSubmits(d: Deploy, job: Job, deployAt: string, cp: ControlPlane)
    ensures RunAsWritten(d, Some(job), deployAt, cp).requests == []
    ensures RunAsWritten(d, Some(job), deployAt, cp).exit.status == 1
    ensures Run(d, Some(job), deployAt, cp).requests[0].SubmitJob?
  {
  }

}
