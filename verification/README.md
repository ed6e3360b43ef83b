# Nomad job deployer, modelled in Dafny

This project models the core of a small Ruby deployment tool. The tool takes a
Nomad job, re-tags the Docker image of every task, and stamps the job with
deploy metadata: user, branch and time. It then submits the job to the Nomad
HTTP API, optionally waits for the evaluation and for every allocation to
settle, and turns the outcome into an exit status and a report. When an
allocation fails, the report holds each task's stdout and stderr.

The modules follow the two Ruby files:

- `Results` (`results.dfy`): the `Result` value with its `ok`/`error` status.
- `OrderedHash` (`ordered_hash.dfy`): Ruby's insertion-ordered `Hash`, as an association list with `Get` and `Put` (`h[k] = v`).
- `Jobs` (`jobs.dfy`): the job document and `NomadJobExecutor#update_image` and `#set_deployed_info`.
- `Poll` (`poll.dfy`): `TunneledClient#req_until` / `#get_until`, run over a finite sequence of responses.
- `Executor` (`executor.dfy`): `NomadJobExecutor#deploy!`, `#job_error_result` and `#allocation_log`.
  - The Nomad server is a `ControlPlane` value. It holds the submission answer, the successive evaluation snapshots, the allocation list, each allocation's successive snapshots, and the outcome of each log request.
  - Every request sent is recorded in order, so the polling order and the requests that are never sent can be stated.
- `DeployCommand` (`deploy_command.dfy`): the `Deploy` command from `deploy.rb`. It covers its construction, the pipeline of `run!`, the mapping from result to exit status, and `show_result_error`.

Printed output is one string per `puts`.

The clock reading that `set_deployed_info` formats is a parameter, `deployAt`.

A poll is a finite sequence of responses. When that sequence runs out before the poll would stop, the outcome is `StillWaiting`. A deploy in that state is still polling (`Progress.outcome == None`, `Ending.Polling`).

## Model

| member | source | states |
|---|---|---|
| Results.Ok | nomad.rb:13-15 | the result is ok, is not an error, and carries the given data |
| Results.Error | nomad.rb:17-19 | the result is an error, is not ok, and carries the given data |
| Results.NeverBoth | nomad.rb:21-27 | no result is both `ok?` and `error?` |
| OrderedHash.Put | nomad.rb:75-76 | assigning a key keeps the key order and appends a new key at the end; the key then reads the new value; every other key reads as before; distinct keys stay distinct |
| Jobs.UpdateTask | nomad.rb:70-77 | for one task, `Config.image` becomes `image:tag`, and `Env` exists (created empty when absent) with `DD_VERSION` and `RELEASE_VERSION` set to the tag; every other config and env entry, the name and the other fields are unchanged; distinct keys stay distinct |
| Jobs.UpdateTaskLastWins | nomad.rb:70-77 | re-tagging a task twice equals re-tagging it once with the second image and tag |
| Jobs.UpdateImage | nomad.rb:68-80 | every task of every group is updated as in `Jobs.UpdateTask`; the number and order of groups and tasks, the names, `Meta`, the modify index and all other fields are unchanged |
| Jobs.UpdateImageLastWins | nomad.rb:68-80 | `update_image` twice equals the second call alone, so the same arguments are idempotent |
| Jobs.RetagScenario | nomad.rb:68-80 | a task on `app:old` with no `Env`, re-tagged to `v2`, gets image `app:v2` and an `Env` of `DD_VERSION` and `RELEASE_VERSION` set to `v2` |
| Jobs.PutIfGiven | nomad.rb:85-86 | a given value is stored under the key; an absent one leaves the key as it was; other keys are untouched |
| Jobs.SetDeployedInfo | nomad.rb:82-89 | `Meta` exists afterwards; `deploy-at` is the clock reading; `deploy-user` and `deploy-branch` are set when given and otherwise keep their earlier value; every other `Meta` entry and the rest of the job are unchanged |
| Jobs.SetDeployedInfoLastWins | nomad.rb:82-89 | calling it again with the same user and branch only moves `deploy-at` |
| Jobs.MutationsCommute | nomad.rb:68-89 | `update_image` and `set_deployed_info` touch disjoint parts of the job, so their order does not matter |
| Poll.ReqUntil | nomad.rb:173-182 | the poll is still waiting exactly when no response satisfies either clause; otherwise it stops at the first response that satisfies one of them, returns that response, and is ok exactly when the wait clause holds there (the wait clause is checked first) |
| Poll.FirstWaitMatchIsOk | nomad.rb:174-176 | if response n is the first to satisfy either clause and it satisfies the wait clause, the poll makes n+1 requests and returns ok with that response |
| Poll.FirstErrorMatchIsError | nomad.rb:174-177 | if response n is the first to satisfy either clause and it satisfies only the error clause, the poll makes n+1 requests and returns an error with that response |
| Poll.DefaultErrorClauseNeverFires | nomad.rb:165-167 | with the default error clause, `get_until` never returns an error: it returns ok or keeps polling |
| Executor.LogRequests | nomad.rb:131-137 | for each task in order, one stdout log request and then one stderr log request, all for this allocation |
| Executor.TaskOutputs | nomad.rb:130-138 | the task-output hash has exactly the `TaskStates` names as keys; each maps to that task's stdout and stderr; with distinct names the keys keep the `TaskStates` order |
| Executor.AllocationLog | nomad.rb:149-156 | the decoded log text when it can be fetched, `''` when fetching it fails with a rescued error |
| Executor.JobErrorResult | nomad.rb:125-145 | always an error; input without a `:data` key gives its `inspect` text and sends no request; an allocation gives a hash keyed by its task names, with each task's two log streams, after exactly the log requests of `Executor.LogRequests` |
| Executor.LogFailureBlanksOneStream | nomad.rb:149-156 | a log request that fails blanks only that stream of that task; a successful one gives the decoded text |
| Executor.PollAllocations | nomad.rb:112-122 | the allocation loop ends in `Result.ok` with `{}` or in an error carrying task output, and sends only allocation polls and log requests |
| Executor.AllocationFate | nomad.rb:113-119 | an allocation's poll is ok exactly when it stops on a `complete` snapshot; it is an error carrying snapshot `a` exactly when it stops on `a` and `a` is not `complete`; it is still waiting exactly when no snapshot is `complete` or `failed` |
| Executor.AllocationPhase | nomad.rb:112-122 | the loop is ok exactly when every allocation completes, is an error exactly when some allocation fails after all earlier ones completed, and is still polling exactly when the first allocation that does not complete never settles |
| Executor.AllCompletePollsEach | nomad.rb:112-122 | when all allocations complete, the requests are exactly, for each allocation in list order, one poll per snapshot up to and including its first `complete` one; no log is requested |
| Executor.FirstFailureWins | nomad.rb:112-121 | the first failing allocation's `job_error_result` is the result; the requests are exactly the polls of the allocations up to it, each until it settles, followed by its log requests; no later allocation is polled |
| Executor.Watch | nomad.rb:103-122 | after the submission, `deploy!` never submits again, and an error it returns carries text or task output |
| Executor.Deploy | nomad.rb:96-123 | the first request submits the job under `EnforceIndex` = its `JobModifyIndex` and the job is never submitted again; with an empty wait status that is the only request and the submission answer is returned as ok; an error carries text or task output |
| Executor.EvaluationFate | nomad.rb:104 | the evaluation poll stops, with ok, at the first snapshot whose `Status` equals the wait status, and is still waiting exactly when no snapshot has it |
| Executor.WatchStuck | nomad.rb:103-104 | while no evaluation snapshot has the wait status, the only requests are one evaluation poll per snapshot, and no result is returned |
| Executor.WatchListed | nomad.rb:103-122 | once snapshot n is the first with the wait status, the evaluation is polled n+1 times and the allocations are listed; an empty list gives `Nothing was run`, and otherwise the allocation loop follows |
| Executor.EvaluationPolledUntilWait | nomad.rb:103-105 | with a wait status, the evaluation is polled once per snapshot up to the first with that status, and only then are its allocations listed |
| Executor.NothingWasRun | nomad.rb:105-110 | the result is the error `Nothing was run` exactly when the deploy waited, the evaluation reached the wait status and the allocation list is empty; no allocation or log is then requested |
| Executor.DeployOutcome | nomad.rb:101-122 | with a wait status, the deploy is ok exactly when the evaluation reaches it, there are allocations and all complete; it returns task output exactly when one allocation fails first |
| Executor.DeployFirstFailureWins | nomad.rb:103-121 | when allocation k is the first to fail, the deploy returns its `job_error_result`; after the listing, the requests are exactly the polls of allocations 0 to k, each until it settles, then allocation k's log requests |
| Executor.TwoAllocationsFirstFails | nomad.rb:112-156 | two allocations where the first fails and its task's stderr log cannot be fetched: whatever the second would do, it is never polled; the requests are one poll and two log requests, and the report has the task's stdout with an empty stderr |
| Executor.SingleTaskReport | nomad.rb:125-145 | the report for an allocation with one task is one stdout and one stderr request, and a one-entry hash |
| DeployCommand.NewDeploy | deploy.rb:6-17 | every parameter is kept; an empty related service becomes `nomad.service.consul`, and any other value is kept |
| DeployCommand.NewDeployIdempotent | deploy.rb:16 | building a command again from a built command's own parameters gives the same command |
| DeployCommand.TaskReportShape | deploy.rb:44-51 | the report has seven lines per task, in hash order: the task header, then the stderr header, separator and text, then the stdout header, separator and text |
| DeployCommand.ShowResultError | deploy.rb:42-55 | hash-like data is printed as in `DeployCommand.TaskReportShape` (`{}` prints nothing); any other data is printed as one line |
| DeployCommand.Finish | deploy.rb:29-35 | exit status 1 exactly when the result is an error, after the error banner and the `show_result_error` report; otherwise status 0 and only the completion banner |
| DeployCommand.Conclude | deploy.rb:26-35 | `run!` keeps polling exactly when `deploy!` does; once it exits, the status is 1 exactly when the result is an error, and the error banner comes first |
| DeployCommand.Prepare | deploy.rb:24-25 | the job `run!` submits is the fetched one with every task re-tagged, and with `Meta` stamped with the SSH user, the branch and the clock reading; name, modify index and other fields are unchanged |
| DeployCommand.Run | deploy.rb:19-36 | with no job fetched, the process exits 1 and sends no request; otherwise the first request submits the job, and the exit status is 0 or 1 |
| DeployCommand.RunSubmitsMutatedJob | deploy.rb:24-26 | the submitted job is the fetched one with every task re-tagged to the command's image and tag, and with `Meta` stamped with the SSH user, the branch and the clock reading; it is submitted under the fetched modify index; name and other fields are unchanged |
| DeployCommand.RunExitStatus | deploy.rb:26-35 | `run!` is still polling exactly when the deploy is; once it exits, the status is 1 exactly when the deploy's result is an error, and the error banner comes first |
| DeployCommand.RunAsWritten | deploy.rb:19-33 | for every input, `run!` as written ends with status 1 |
| DeployCommand.RunAsWrittenNeverSubmits | deploy.rb:19-33 | for every job the intended pipeline would submit, `run!` as written sends no request and exits 1 |

## Left out

- The SSH gateway, the tunnel and `TunneledClient#method_missing`: transport only. Each request is a recorded `Request`, and its answer comes from the `ControlPlane`.
- `NomadJobExecutor#job`, the job lookup with its remote fallback, which reads the job file over SSH with `cat` and posts it to `/v1/jobs/parse`: SSH and remote commands. `DeployCommand.Run` takes its result as an `Option<Job>`, where `None` means that no job was obtained, whether the lookup raised or returned nil. Either way the process ends with status 1 before any modelled request.
- `NomadJobExecutor#versions`: not used by the deploy.
- `puts`/`p` progress logging and `sleep 1` between polls: output and timing only. The report that `run!` prints on failure is modelled.
- `Time.now.strftime`: the formatted clock reading is the parameter `deployAt`.
- `Base64.decode64` of the log `Data` field: the `LogSource` returns the decoded text. Any failure that `allocation_log` rescues (an HTTP client error or a JSON parse error) is `None`.
- Unbounded polling: `req_until` loops forever on responses that satisfy neither clause. The model polls a finite sequence of responses and reports that it is still waiting when they run out.
- HTTP errors that are not rescued: a failing submit or poll, or a server error on a log request, raises out of `deploy!`. These paths are not modelled.
- Ruby runtime failures on malformed documents are excluded by the typed shapes, because every field the code indexes is present. The excluded cases are a nil job, `TaskGroups`, `Tasks` or `Config` in `update_image`, and a nil `TaskStates` in `job_error_result`.
- Symbol versus string keys: `deploy!` reads `job['Name']` and `job['JobModifyIndex']`, while `update_image` reads `job[:TaskGroups]`. With a plain Ruby hash, one of the two styles would find nothing. The model reads each field once, by name.
- Task-group filtering: `deploy!` waits for every allocation of the evaluation. The command's `wait_task_group` is stored but never used by the code that runs.
- Floating-point JSON numbers: `Jobs.Json` numbers are integers. The deploy never looks at them.
- ShowResultError: requires that the data is not the raw submission answer. In Ruby, that hash would reach the `output[stream]` branch with non-hash values. `deploy!` returns that answer only as an ok result, and `run!` prints only errors, so the case cannot arise.
- Result statuses other than `ok` and `error`: `Result.new` accepts any status, and `Results.Result` keeps the status as a string, but only the two factories are used.

### Behaviour worth noting

- The evaluation poll waits for `Status == wait_status`. Allocations wait for `ClientStatus == 'complete'` and fail on `'failed'`.
- `set_deployed_info` skips only a nil user or branch. An empty string is still written.
- There is no poll timeout. `req_until` loops until a clause holds.
- No task-group filtering takes place (see above).

## Findings

| source | as written | input that shows it | evidently intended | confidence | as-written member | corrected member |
|---|---|---|---|---|---|---|
| deploy.rb:20-33 | The pipeline sits in a block passed to `NomadJobExecutor#client`, which takes no block and never yields. Nothing is fetched, mutated or submitted. `result` at line 29 is then an undefined name, so the process dies with a NameError and status 1. Lines 24 and 26 also call `get_job` and pass `wait_status:`/`wait_task_group:`, none of which `NomadJobExecutor` defines. | any invocation, e.g. job `web`, image `app`, tag `v2`, wait status `complete` | fetch the job, re-tag it, stamp the deploy metadata, deploy with the wait status, then exit 1 exactly on an error result | high (not executed) | DeployCommand.RunAsWrittenNeverSubmits | DeployCommand.RunSubmitsMutatedJob |
