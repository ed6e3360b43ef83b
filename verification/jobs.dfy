/**
 * The job document and the two mutations `NomadJobExecutor` applies before
 * submitting it: `update_image` and `set_deployed_info`. The document keeps
 * the fields the mutations read or write as typed fields and everything else
 * as opaque JSON in `rest`, so "the rest is untouched" can be stated.
 */
module Jobs {
  import opened Options
  import opened OrderedHash

  /** A JSON value, for the parts of the document the deploy never looks at. */
  datatype Json =
    | Null
    | Bool(b: bool)
    | Num(n: int)
    | Str(s: string)
    | Arr(items: seq<Json>)
    | Obj(fields: Hash<string, Json>)

  /** A task: its driver `Config`, its `Env` (absent or nil as `None`) and its other fields. */
  datatype Task = Task(
    name: string,
    config: Hash<string, Json>,
    env: Option<Hash<string, string>>,
    rest: Hash<string, Json>)

  datatype TaskGroup = TaskGroup(name: string, tasks: seq<Task>, rest: Hash<string, Json>)

  /** A job: `Name`, `JobModifyIndex`, `TaskGroups`, `Meta` (absent or nil as `None`) and its other fields. */
  datatype Job = Job(
    name: string,
    modifyIndex: int,
    taskGroups: seq<TaskGroup>,
    meta: Option<Hash<string, string>>,
    rest: Hash<string, Json>)

  const IMAGE := "image"
  const DD_VERSION := "DD_VERSION"
  const RELEASE_VERSION := "RELEASE_VERSION"
  const DEPLOY_USER := "deploy-user"
  const DEPLOY_BRANCH := "deploy-branch"
  const DEPLOY_AT := "deploy-at"

  /** The image reference `"#{image}:#{tag}"`. */
  function ImageRef(image: string, tag: string): string {
    image + ":" + tag
  }

  /** `field ||= {}`: an absent or nil hash field reads as a fresh empty hash. */
  function OrEmpty<V>(h: Option<Hash<string, V>>): Hash<string, V> {
    if h.Some? then h.value else []
  }

  /** What `update_image` promises of each task it visits, stated on its own. */
  ghost predicate TaskUpdated(before: Task, after: Task, image: string, tag: string) {
    && after.name == before.name
    && after.rest == before.rest
    && ImageSet(before.config, after.config, ImageRef(image, tag))
    && after.env.Some?
    && VersionsSet(OrEmpty(before.env), after.env.value, tag)
  }

  /** `after` is the driver config `before` with `image` set to `ref`. */
  ghost predicate ImageSet(before: Hash<string, Json>, after: Hash<string, Json>, ref: string) {
    && Get(after, IMAGE) == Some(Str(ref))
    && (forall k :: k != IMAGE ==> Get(after, k) == Get(before, k))
    && (UniqueKeys(before) ==> UniqueKeys(after))
  }

  /** `after` is the environment `before` with both version variables set to `tag`. */
  ghost predicate VersionsSet(before: Hash<string, string>, after: Hash<string, string>, tag: string) {
    && Get(after, DD_VERSION) == Some(tag)
    && Get(after, RELEASE_VERSION) == Some(tag)
    && (forall k :: k != DD_VERSION && k != RELEASE_VERSION ==> Get(after, k) == Get(before, k))
    && (UniqueKeys(before) ==> UniqueKeys(after))
  }

  /** The loop body of `update_image` for one task. */
  function UpdateTask(t: Task, image: string, tag: string): (r: Task)
    ensures TaskUpdated(t, r, image, tag)
  {
    var config := Put(t.config, IMAGE, Str(ImageRef(image, tag)));
    var env := Put(Put(OrEmpty(t.env), DD_VERSION, tag), RELEASE_VERSION, tag);
    AssignImage(t.config, ImageRef(image, tag));
    StampVersions(OrEmpty(t.env), tag);
    t.(config := config, env := Some(env))
  }

  lemma AssignImage(config: Hash<string, Json>, ref: string)
    ensures ImageSet(config, Put(config, IMAGE, Str(ref)), ref)
  {
  }

  /** Setting both version variables, one after the other. */
  lemma StampVersions(env: Hash<string, string>, tag: string)
    ensures VersionsSet(env, Put(Put(env, DD_VERSION, tag), RELEASE_VERSION, tag), tag)
  {
    assert DD_VERSION != RELEASE_VERSION;
  }

  function UpdateGroup(g: TaskGroup, image: string, tag: string): (r: TaskGroup)
    ensures r.name == g.name && r.rest == g.rest
    ensures |r.tasks| == |g.tasks|
    ensures forall i :: 0 <= i < |g.tasks| ==> TaskUpdated(g.tasks[i], r.tasks[i], image, tag)
  {
    g.(tasks := seq(|g.tasks|, i requires 0 <= i < |g.tasks| => UpdateTask(g.tasks[i], image, tag)))
  }

  /** `update_image(job:, image:, tag:)` */
  function UpdateImage(j: Job, image: string, tag: string): (r: Job)
    ensures r.name == j.name && r.modifyIndex == j.modifyIndex
    ensures r.meta == j.meta && r.rest == j.rest
    ensures |r.taskGroups| == |j.taskGroups|
    ensures forall g :: 0 <= g < |j.taskGroups| ==>
      && r.taskGroups[g].name == j.taskGroups[g].name
      && r.taskGroups[g].rest == j.taskGroups[g].rest
      && |r.taskGroups[g].tasks| == |j.taskGroups[g].tasks|
    ensures forall g, t :: 0 <= g < |j.taskGroups| && 0 <= t < |j.taskGroups[g].tasks| ==>
      TaskUpdated(j.taskGroups[g].tasks[t], r.taskGroups[g].tasks[t], image, tag)
  {
    j.(taskGroups := seq(|j.taskGroups|, i requires 0 <= i < |j.taskGroups| => UpdateGroup(j.taskGroups[i], image, tag)))
  }

  /** `set_deployed_info(job:, user:, branch:)`, the clock reading passed in as `deployAt`. */
  function SetDeployedInfo(j: Job, user: Option<string>, branch: Option<string>, deployAt: string): (r: Job)
    ensures r.name == j.name && r.modifyIndex == j.modifyIndex
    ensures r.taskGroups == j.taskGroups && r.rest == j.rest
    ensures r.meta.Some?
    ensures MetaStamped(OrEmpty(j.meta), user, branch, deployAt, r.meta.value)
  {
    var meta := Stamp(OrEmpty(j.meta), user, branch, deployAt);
    StampedMeta(OrEmpty(j.meta), user, branch, deployAt);
    j.(meta := Some(meta))
  }

  /** The three `Meta` assignments of `set_deployed_info`. */
  function Stamp(meta: Hash<string, string>, user: Option<string>, branch: Option<string>, deployAt: string): Hash<string, string> {
    Put(PutIfGiven(PutIfGiven(meta, DEPLOY_USER, user), DEPLOY_BRANCH, branch), DEPLOY_AT, deployAt)
  }

  /** `h[k] = v if v`. */
  function PutIfGiven(h: Hash<string, string>, k: string, v: Option<string>): (r: Hash<string, string>)
    ensures Get(r, k) == if v.Some? then v else Get(h, k)
    ensures forall j :: j != k ==> Get(r, j) == Get(h, j)
    ensures UniqueKeys(h) ==> UniqueKeys(r)
  {
    if v.Some? then Put(h, k, v.value) else h
  }

  /**
   * `after` is `before` with `deploy-at` set to the clock reading, `deploy-user`
   * and `deploy-branch` set when given and otherwise kept, and every other
   * entry kept.
   */
  ghost predicate MetaStamped(before: Hash<string, string>, user: Option<string>, branch: Option<string>,
                              deployAt: string, after: Hash<string, string>) {
    && Get(after, DEPLOY_AT) == Some(deployAt)
    && Get(after, DEPLOY_USER) == (if user.Some? then user else Get(before, DEPLOY_USER))
    && Get(after, DEPLOY_BRANCH) == (if branch.Some? then branch else Get(before, DEPLOY_BRANCH))
    && (forall k :: k != DEPLOY_USER && k != DEPLOY_BRANCH && k != DEPLOY_AT ==> Get(after, k) == Get(before, k))
    && (UniqueKeys(before) ==> UniqueKeys(after))
  }

  lemma StampedMeta(meta: Hash<string, string>, user: Option<string>, branch: Option<string>, deployAt: string)
    ensures MetaStamped(meta, user, branch, deployAt, Stamp(meta, user, branch, deployAt))
  {
    var withUser := PutIfGiven(meta, DEPLOY_USER, user);
    var withBranch := PutIfGiven(withUser, DEPLOY_BRANCH, branch);
    assert DEPLOY_USER != DEPLOY_BRANCH && DEPLOY_USER != DEPLOY_AT && DEPLOY_BRANCH != DEPLOY_AT;
    assert Get(withBranch, DEPLOY_USER) == Get(withUser, DEPLOY_USER);
  }

  /** Re-tagging a task replaces the earlier image and version values and nothing else. */
  lemma UpdateTaskLastWins(t: Task, image1: string, tag1: string, image2: string, tag2: string)
    ensures UpdateTask(UpdateTask(t, image1, tag1), image2, tag2) == UpdateTask(t, image2, tag2)
  {
    var ref1 := Str(ImageRef(image1, tag1));
    var ref2 := Str(ImageRef(image2, tag2));
    PutPut(t.config, IMAGE, ref1, ref2);
    var env := OrEmpty(t.env);
    var e1 := Put(env, DD_VERSION, tag1);
    assert DD_VERSION in Keys(e1);
    PutCommute(e1, DD_VERSION, tag2, RELEASE_VERSION, tag1);
    PutPut(env, DD_VERSION, tag1, tag2);
    PutPut(Put(env, DD_VERSION, tag2), RELEASE_VERSION, tag1, tag2);
  }

  /**
   * Running `update_image` again with another image and tag gives the job
   * the second call alone would give: the mutation is a pure overwrite, so
   * with the same arguments it is idempotent.
   */
  lemma UpdateImageLastWins(j: Job, image1: string, tag1: string, image2: string, tag2: string)
    ensures UpdateImage(UpdateImage(j, image1, tag1), image2, tag2) == UpdateImage(j, image2, tag2)
  {
    var once := UpdateImage(j, image2, tag2);
    var twice := UpdateImage(UpdateImage(j, image1, tag1), image2, tag2);
    forall g | 0 <= g < |j.taskGroups|
      ensures twice.taskGroups[g] == once.taskGroups[g]
    {
      var tg := j.taskGroups[g];
      forall t | 0 <= t < |tg.tasks|
        ensures twice.taskGroups[g].tasks[t] == once.taskGroups[g].tasks[t]
      {
        UpdateTaskLastWins(tg.tasks[t], image1, tag1, image2, tag2);
      }
    }
  }

  /**
   * Calling `set_deployed_info` again with the same user and branch and a
   * later clock reading only moves `deploy-at`: the user and branch entries
   * it owns are idempotent.
   */
  lemma SetDeployedInfoLastWins(j: Job, user: Option<string>, branch: Option<string>, at1: string, at2: string)
    ensures SetDeployedInfo(SetDeployedInfo(j, user, branch, at1), user, branch, at2)
         == SetDeployedInfo(j, user, branch, at2)
  {
    StampLastWins(OrEmpty(j.meta), user, branch, at1, at2);
  }

  lemma StampLastWins(meta: Hash<string, string>, user: Option<string>, branch: Option<string>, at1: string, at2: string)
    ensures Stamp(Stamp(meta, user, branch, at1), user, branch, at2) == Stamp(meta, user, branch, at2)
  {
    var withBranch := PutIfGiven(PutIfGiven(meta, DEPLOY_USER, user), DEPLOY_BRANCH, branch);
    var m1 := Put(withBranch, DEPLOY_AT, at1);
    StampedMeta(meta, user, branch, at1);
    if user.Some? {
      PutPresent(m1, DEPLOY_USER, user.value);
    }
    if branch.Some? {
      PutPresent(m1, DEPLOY_BRANCH, branch.value);
    }
    PutPut(withBranch, DEPLOY_AT, at1, at2);
  }

  /** The two mutations touch disjoint parts of the job, so their order does not matter. */
  lemma MutationsCommute(j: Job, image: string, tag: string, user: Option<string>, branch: Option<string>, deployAt: string)
    ensures SetDeployedInfo(UpdateImage(j, image, tag), user, branch, deployAt)
         == UpdateImage(SetDeployedInfo(j, user, branch, deployAt), image, tag)
  {
  }

  /**
   * One task group with one task on `app:old` and no `Env`: re-tagging to
   * `v2` sets the image to `app:v2` and creates `Env` with both version
   * variables set to `v2`.
   */
  lemma RetagScenario()
    ensures var task := Task("web", [(IMAGE, Str("app:old"))], None, []);
            var job := Job("app", 7, [TaskGroup("main", [task], [])], None, []);
            var r := UpdateImage(job, "app", "v2");
      && r.taskGroups[0].tasks[0].config == [(IMAGE, Str("app:v2"))]
      && r.taskGroups[0].tasks[0].env == Some([(DD_VERSION, "v2"), (RELEASE_VERSION, "v2")])
  {
    var task := Task("web", [(IMAGE, Str("app:old"))], None, []);
    var job := Job("app", 7, [TaskGroup("main", [task], [])], None, []);
    assert UpdateImage(job, "app", "v2").taskGroups[0].tasks[0] == UpdateTask(task, "app", "v2");
    RetagTask(task);
  }

  lemma RetagTask(task: Task)
    requires task.config == [(IMAGE, Str("app:old"))] && task.env == None
    ensures UpdateTask(task, "app", "v2").config == [(IMAGE, Str("app:v2"))]
    ensures UpdateTask(task, "app", "v2").env == Some([(DD_VERSION, "v2"), (RELEASE_VERSION, "v2")])
  {
    assert ImageRef("app", "v2") == "app:v2";
    assert Put([(IMAGE, Str("app:old"))], IMAGE, Str("app:v2")) == [(IMAGE, Str("app:v2"))];
    assert Put([], DD_VERSION, "v2") == [(DD_VERSION, "v2")];
    assert Put([(DD_VERSION, "v2")], RELEASE_VERSION, "v2") == [(DD_VERSION, "v2"), (RELEASE_VERSION, "v2")];
  }

}
