/**
 * The pure rules of the server's scheduler (`src/laminar.cpp`): which node
 * may take a run, where a run's directories and scripts are, and how the
 * parameters a run is queued with are split.
 */
module SchedulerRules {
  import opened Wrappers
  import opened Strings

  /** A build node: its name, executor capacity, executors in use and tags. */
  datatype Node = Node(name: string, numExecutors: int, busyExecutors: nat, tags: set<string>)

  /**
   * What the filesystem answers: the paths that exist, and the directories
   * `create_directory`/`create_directories` would succeed in creating.
   */
  datatype FileSystem = FileSystem(existing: set<string>, creatable: set<string>)
  {
    predicate Exists(path: string) {
      path in existing
    }

    /** Whether creating the directory `path` would succeed now (it does not exist yet). */
    predicate CanCreate(path: string) {
      path !in existing && path in creatable
    }

    /** The filesystem once the directory `path` exists. */
    function Created(path: string): (after: FileSystem)
      ensures after.Exists(path) && !after.CanCreate(path)
      ensures forall p :: p != path ==> (after.Exists(p) <==> Exists(p)) && (after.CanCreate(p) <==> CanCreate(p))
    {
      FileSystem(existing + {path}, creatable)
    }

    /** The filesystem once `remove_all(path)` has deleted the directory `path`. */
    function Removed(path: string): (after: FileSystem)
      ensures !after.Exists(path) && after.CanCreate(path)
      ensures forall p :: p != path ==> (after.Exists(p) <==> Exists(p)) && (after.CanCreate(p) <==> CanCreate(p))
    {
      FileSystem(existing - {path}, creatable + {path})
    }
  }

  /** The tags configured for a job, if its `.config` file gave any. */
  function JobTagsOf(jobTags: map<string, set<string>>, job: string): Option<set<string>> {
    if job in jobTags then Some(jobTags[job]) else None
  }

  /**
   * The admission rule: a node with a free executor takes a job when
   * neither is tagged, or when both are and they share a tag.
   */
  predicate Admits(jobTags: map<string, set<string>>, node: Node, job: string) {
    && node.busyExecutors < node.numExecutors
    && match JobTagsOf(jobTags, job)
       case None => node.tags == {}
       case Some(tags) => node.tags != {} && tags * node.tags != {}
  }

  /** `Laminar::nodeCanQueue`: the early-return loop over the job's tags. */
  method NodeCanQueue(jobTags: map<string, set<string>>, node: Node, job: string) returns (ok: bool)
    ensures ok <==> Admits(jobTags, node, job)
    ensures node.busyExecutors >= node.numExecutors ==> !ok
  {
    if node.busyExecutors >= node.numExecutors {
      return false;
    }
    if job !in jobTags && node.tags == {} {
      assert JobTagsOf(jobTags, job) == None;
      return true;
    }
    if job !in jobTags || node.tags == {} {
      return false;
    }
    var rest := jobTags[job];
    while rest != {}
      invariant rest <= jobTags[job]
      invariant (jobTags[job] - rest) * node.tags == {}
      decreases rest
    {
      var tag :| tag in rest;
      if tag in node.tags {
        assert tag in jobTags[job] * node.tags;
        return true;
      }
      rest := rest - {tag};
    }
    return false;
  }

  /** The first node, in iteration order, that admits the job. */
  function FirstAdmitting(jobTags: map<string, set<string>>, nodes: seq<Node>, job: string): (k: Option<nat>)
    ensures k.Some? ==> k.value < |nodes| && Admits(jobTags, nodes[k.value], job)
    ensures k.Some? ==> forall j :: 0 <= j < k.value ==> !Admits(jobTags, nodes[j], job)
    ensures k.None? <==> forall j :: 0 <= j < |nodes| ==> !Admits(jobTags, nodes[j], job)
  {
    if nodes == [] then None
    else if Admits(jobTags, nodes[0], job) then Some(0)
    else match FirstAdmitting(jobTags, nodes[1..], job)
      case None => None
      case Some(k) => Some(k + 1)
  }

  /** The inner `for(auto& sn : nodes)` search of `assignNewJobs`. */
  method FirstAdmittingNode(jobTags: map<string, set<string>>, nodes: seq<Node>, job: string) returns (k: Option<nat>)
    ensures k == FirstAdmitting(jobTags, nodes, job)
  {
    var i := 0;
    while i < |nodes|
      invariant 0 <= i <= |nodes|
      invariant forall j :: 0 <= j < i ==> !Admits(jobTags, nodes[j], job)
    {
      var ok := NodeCanQueue(jobTags, nodes[i], job);
      if ok {
        FirstAdmittingIsLeast(jobTags, nodes, job, i);
        return Some(i);
      }
      i := i + 1;
    }
    return None;
  }

  lemma FirstAdmittingIsLeast(jobTags: map<string, set<string>>, nodes: seq<Node>, job: string, i: nat)
    requires i < |nodes| && Admits(jobTags, nodes[i], job)
    requires forall j :: 0 <= j < i ==> !Admits(jobTags, nodes[j], job)
    ensures FirstAdmitting(jobTags, nodes, job) == Some(i)
  {
    var k := FirstAdmitting(jobTags, nodes, job);
    assert k.Some?;
  }

  // Paths under LAMINAR_HOME.

  function CfgDir(home: string): string {
    Join(home, "cfg")
  }

  /**
   * `cfg/jobs/<job><ext>`: the `operator+` helper adds `ext` to the last
   * component, which is `jobs` itself for the empty job name.
   */
  function JobFile(home: string, job: string, ext: string): string {
    JoinName(Join(CfgDir(home), "jobs"), job) + ext
  }

  /**
   * `cfg/nodes/<node><ext>`; for the default node, whose name is empty,
   * `cfg/nodes<ext>`.
   */
  function NodeFile(home: string, node: string, ext: string): string {
    JoinName(Join(CfgDir(home), "nodes"), node) + ext
  }

  /**
   * The default node, named "", has its hook files beside the `nodes`
   * directory: `cfg/nodes.before`, `cfg/nodes.after`, `cfg/nodes.env`.
   */
  lemma DefaultNodeFile(home: string, ext: string)
    ensures NodeFile(home, "", ext) == home + "/cfg/nodes" + ext
    ensures NodeFile(home, "", ext) != Join(Join(CfgDir(home), "nodes"), "") + ext
  {
    var n := |home| + 10;
    assert (home + "/cfg/nodes" + ext)[..n] == home + "/cfg/nodes";
    assert (Join(Join(CfgDir(home), "nodes"), "") + ext)[n] == '/';
    assert |Join(Join(CfgDir(home), "nodes"), "") + ext| > |home + "/cfg/nodes" + ext|;
  }

  function Workspace(home: string, job: string): string {
    Join(JoinName(Join(home, "run"), job), "workspace")
  }

  function WorkDir(home: string, job: string, build: int): string {
    Join(JoinName(Join(home, "run"), job), IntToString(build))
  }

  function ArchiveDir(home: string, job: string, build: int): string {
    Join(JoinName(Join(home, "archive"), job), IntToString(build))
  }

  function IfExists(fs: FileSystem, probe: string, path: string): seq<string> {
    if fs.Exists(probe) then [path] else []
  }

  /**
   * The scripts `assignNewJobs` queues for a run, in execution order:
   * global, node and job "before" scripts, the job's `.run` script, then
   * job, node and global "after" scripts, each only if the file its slot
   * tests for exists.
   */
  function ScriptsFor(fs: FileSystem, home: string, node: string, job: string): seq<string> {
    BeforeScripts(fs, home, node, job) + [JobFile(home, job, ".run")] + AfterScripts(fs, home, node, job)
  }

  /**
   * The global, node and job "before" slots as `assignNewJobs` writes
   * them: the node slot tests for the node's `.before` file but queues
   * `cfg/before` (see `NodeBeforeAsWrittenQueuesWrongFile`).
   */
  function BeforeScripts(fs: FileSystem, home: string, node: string, job: string): seq<string> {
    var cfg := CfgDir(home);
    IfExists(fs, Join(cfg, "before"), Join(cfg, "before"))
    + IfExists(fs, NodeFile(home, node, ".before"), Join(cfg, "before"))
    + IfExists(fs, JobFile(home, job, ".before"), JobFile(home, job, ".before"))
  }

  /** The "before" slots with the node slot queueing the file it tests for, as the "after" slots do. */
  function IntendedBeforeScripts(fs: FileSystem, home: string, node: string, job: string): seq<string> {
    var cfg := CfgDir(home);
    IfExists(fs, Join(cfg, "before"), Join(cfg, "before"))
    + IfExists(fs, NodeFile(home, node, ".before"), NodeFile(home, node, ".before"))
    + IfExists(fs, JobFile(home, job, ".before"), JobFile(home, job, ".before"))
  }

  /** The job, node and global "after" slots. */
  function AfterScripts(fs: FileSystem, home: string, node: string, job: string): seq<string> {
    var cfg := CfgDir(home);
    IfExists(fs, JobFile(home, job, ".after"), JobFile(home, job, ".after"))
    + IfExists(fs, NodeFile(home, node, ".after"), NodeFile(home, node, ".after"))
    + IfExists(fs, Join(cfg, "after"), Join(cfg, "after"))
  }

  /** The environment files, global, node, then job. */
  function EnvFor(fs: FileSystem, home: string, node: string, job: string): seq<string> {
    var cfg := CfgDir(home);
    IfExists(fs, Join(cfg, "env"), Join(cfg, "env"))
    + IfExists(fs, NodeFile(home, node, ".env"), NodeFile(home, node, ".env"))
    + IfExists(fs, JobFile(home, job, ".env"), JobFile(home, job, ".env"))
  }

  /** The job's `.run` script is always queued, after every "before" script and before every "after" script. */
  lemma MainScriptPosition(fs: FileSystem, home: string, node: string, job: string)
    ensures var s := ScriptsFor(fs, home, node, job);
      exists i :: 0 <= i <= 3 && i < |s| && s[i] == JobFile(home, job, ".run")
        && |s| - i - 1 <= 3
  {
    var before := BeforeScripts(fs, home, node, job);
    var s := ScriptsFor(fs, home, node, job);
    assert s[|before|] == JobFile(home, job, ".run");
  }

  /**
   * With the node slot corrected, every hook script queued around the
   * `.run` script is a file that exists, the node's own `.before` file is
   * queued whenever it exists, and every environment file listed exists.
   */
  lemma QueuedFilesExist(fs: FileSystem, home: string, node: string, job: string)
    ensures forall s :: s in IntendedBeforeScripts(fs, home, node, job) ==> fs.Exists(s)
    ensures fs.Exists(NodeFile(home, node, ".before")) ==> NodeFile(home, node, ".before") in IntendedBeforeScripts(fs, home, node, job)
    ensures forall s :: s in AfterScripts(fs, home, node, job) ==> fs.Exists(s)
    ensures forall s :: s in EnvFor(fs, home, node, job) ==> fs.Exists(s)
  {
  }

  /**
   * As written, a node with its own `.before` file and no global
   * `cfg/before` gets the missing `cfg/before` queued in its place; with
   * both present `cfg/before` is queued twice and the node's file never.
   */
  lemma NodeBeforeAsWrittenQueuesWrongFile(fs: FileSystem, home: string, node: string, job: string)
    requires fs.Exists(NodeFile(home, node, ".before"))
    ensures var s := BeforeScripts(fs, home, node, job);
      && Join(CfgDir(home), "before") in s && NodeFile(home, node, ".before") !in s
      && (!fs.Exists(Join(CfgDir(home), "before")) ==> exists i :: 0 <= i < |s| && !fs.Exists(s[i]))
      && (fs.Exists(Join(CfgDir(home), "before")) ==> |s| >= 2 && s[0] == s[1] == Join(CfgDir(home), "before"))
  {
    var cfg := CfgDir(home);
    var s := BeforeScripts(fs, home, node, job);
    NodeFileIsNotGlobal(home, node, job);
    if !fs.Exists(Join(cfg, "before")) {
      assert s[0] == Join(cfg, "before");
    }
  }

  /** Only a node with its own `.before` file sees the difference: for any other node the two lists agree. */
  lemma IntendedAgreesWithoutNodeBefore(fs: FileSystem, home: string, node: string, job: string)
    requires !fs.Exists(NodeFile(home, node, ".before"))
    ensures BeforeScripts(fs, home, node, job) == IntendedBeforeScripts(fs, home, node, job)
  {
  }

  /** A node's file is neither the global `cfg/before` nor a job's file: they part right after `cfg/`. */
  lemma NodeFileIsNotGlobal(home: string, node: string, job: string)
    ensures NodeFile(home, node, ".before") != Join(CfgDir(home), "before")
    ensures NodeFile(home, node, ".before") != JobFile(home, job, ".before")
  {
    var n := |home| + 5;
    assert NodeFile(home, node, ".before")[n] == 'n';
    assert Join(CfgDir(home), "before")[n] == 'b';
    assert JobFile(home, job, ".before")[n] == 'j';
  }

  /** An internal parameter is one whose key starts with '='. */
  predicate IsInternal(key: string) {
    |key| > 0 && key[0] == '='
  }

  function Lookup(params: map<string, string>, key: string): string {
    if key in params then params[key] else ""
  }

  /**
   * The parameter loop of `Laminar::queueJob`: every '='-prefixed key is
   * removed; `=parentJob`, `=parentBuild` (through atoi) and `=reason`
   * fill the run's upstream name, upstream build and reason, any other
   * internal key is dropped; every other key is kept with its value.
   */
  method SplitParams(params: map<string, string>)
    returns (rest: map<string, string>, parentName: string, parentBuild: int, reasonMsg: string)
    ensures forall k :: k in rest <==> k in params && !IsInternal(k)
    ensures forall k :: k in rest ==> rest[k] == params[k]
    ensures parentName == Lookup(params, "=parentJob")
    ensures parentBuild == if "=parentBuild" in params then Atoi(params["=parentBuild"]) else 0
    ensures reasonMsg == Lookup(params, "=reason")
  {
    rest := params;
    parentName, parentBuild, reasonMsg := "", 0, "";
    var todo := params.Keys;
    while todo != {}
      invariant todo <= params.Keys
      invariant forall k :: k in rest <==> k in params && (k in todo || !IsInternal(k))
      invariant forall k :: k in rest ==> rest[k] == params[k]
      invariant parentName == if "=parentJob" in params && "=parentJob" !in todo then params["=parentJob"] else ""
      invariant parentBuild == if "=parentBuild" in params && "=parentBuild" !in todo then Atoi(params["=parentBuild"]) else 0
      invariant reasonMsg == if "=reason" in params && "=reason" !in todo then params["=reason"] else ""
      decreases todo
    {
      var key :| key in todo;
      if IsInternal(key) {
        if key == "=parentJob" {
          parentName := params[key];
        } else if key == "=parentBuild" {
          parentBuild := Atoi(params[key]);
        } else if key == "=reason" {
          reasonMsg := params[key];
        }
        // any other internal key is reported and dropped
        rest := rest - {key};
      }
      todo := todo - {key};
    }
  }

  /** Node `k` with one more executor busy, the others as they were. */
  function Occupy(nodes: seq<Node>, k: nat): (after: seq<Node>)
    requires k < |nodes|
    ensures |after| == |nodes| && after[k].busyExecutors == nodes[k].busyExecutors + 1
    ensures after[k] == nodes[k].(busyExecutors := after[k].busyExecutors)
    ensures forall j :: 0 <= j < |nodes| && j != k ==> after[j] == nodes[j]
  {
    nodes[k := nodes[k].(busyExecutors := nodes[k].busyExecutors + 1)]
  }

  /** Node `k` with one executor fewer busy, the others as they were. */
  function Vacate(nodes: seq<Node>, k: nat): (after: seq<Node>)
    requires k < |nodes| && nodes[k].busyExecutors > 0
    ensures |after| == |nodes| && after[k].busyExecutors == nodes[k].busyExecutors - 1
    ensures after[k] == nodes[k].(busyExecutors := after[k].busyExecutors)
    ensures forall j :: 0 <= j < |nodes| && j != k ==> after[j] == nodes[j]
  {
    nodes[k := nodes[k].(busyExecutors := nodes[k].busyExecutors - 1)]
  }

  /** `buildNums[name]`: the last build number given to the job, 0 for a job never built. */
  function BuildNum(buildNums: map<string, nat>, job: string): nat {
    if job in buildNums then buildNums[job] else 0
  }

  /**
   * The `queueIndex` that `assignNewJobs` puts in `job_started` for the run
   * at queue position `i`, as written: `std::distance(it, queuedJobs.begin())`
   * counts from the run's position forward to the head, which is defined
   * (and 0) only when the run is the head. None stands for the value the
   * code leaves undefined.
   */
  function QueueIndexAsWritten(i: nat): (q: Option<int>)
    ensures q.Some? <==> i == 0
    ensures q.Some? ==> q.value == i
  {
    if i == 0 then Some(0) else None
  }

  /** How one pass of `assignNewJobs` over a queued run ends. */
  datatype Attempt =
    | NoNode                                  // no node admits the job: stays queued
    | NoWorkdir(node: nat, build: nat)        // the working directory could not be created
    | NoArchive(node: nat, build: nat)        // the archive directory could not be created
    | Started(node: nat, build: nat)          // the run starts on `node` as build `build`

  /**
   * The decision `assignNewJobs` takes for a queued run of `job`: the first
   * admitting node, the next build number, then the working directory
   * (which must be new) and the archive directory (which may exist).
   */
  function Plan(jobTags: map<string, set<string>>, nodes: seq<Node>, fs: FileSystem, home: string,
                buildNums: map<string, nat>, job: string): (a: Attempt)
    ensures a == NoNode <==> FirstAdmitting(jobTags, nodes, job) == None
    ensures !a.NoNode? ==>
      && FirstAdmitting(jobTags, nodes, job) == Some(a.node)
      && a.node < |nodes| && Admits(jobTags, nodes[a.node], job)
      && a.build == BuildNum(buildNums, job) + 1
    ensures a.Started? ==> fs.CanCreate(WorkDir(home, job, a.build))
    ensures a.NoWorkdir? <==> !a.NoNode? && !fs.CanCreate(WorkDir(home, job, a.build))
  {
    match FirstAdmitting(jobTags, nodes, job)
    case None => NoNode
    case Some(k) =>
      var b := BuildNum(buildNums, job) + 1;
      var wd := WorkDir(home, job, b);
      var archive := ArchiveDir(home, job, b);
      if !fs.CanCreate(wd) then NoWorkdir(k, b)
      else if !fs.Created(wd).Exists(archive) && !fs.Created(wd).CanCreate(archive) then NoArchive(k, b)
      else Started(k, b)
  }

  /** The filesystem after the directories of a planned start were created. */
  function PlannedFs(fs: FileSystem, home: string, job: string, a: Attempt): FileSystem {
    match a
    case NoNode => fs
    case NoWorkdir(_, _) => fs
    case NoArchive(_, b) => fs.Created(WorkDir(home, job, b))
    case Started(_, b) =>
      var fs1 := fs.Created(WorkDir(home, job, b));
      if fs1.Exists(ArchiveDir(home, job, b)) then fs1 else fs1.Created(ArchiveDir(home, job, b))
  }

  /** What a pass of `assignNewJobs` reads and changes besides the queue: nodes, filesystem and build numbers. */
  datatype Pool = Pool(nodes: seq<Node>, fs: FileSystem, buildNums: map<string, nat>)

  /** The pool after `Plan`'s decision for one queued run of `job`. */
  function Turn(jobTags: map<string, set<string>>, home: string, p: Pool, job: string): (q: Pool)
    ensures |q.nodes| == |p.nodes|
  {
    var a := Plan(jobTags, p.nodes, p.fs, home, p.buildNums, job);
    if a.Started? then Pool(Occupy(p.nodes, a.node), PlannedFs(p.fs, home, job, a), p.buildNums[job := a.build])
    else Pool(p.nodes, PlannedFs(p.fs, home, job, a), p.buildNums)
  }

  /** The pool after one turn for each of `jobs`, oldest first. */
  function Pass(jobTags: map<string, set<string>>, home: string, p: Pool, jobs: seq<string>): (q: Pool)
    ensures |q.nodes| == |p.nodes|
    decreases |jobs|
  {
    if jobs == [] then p
    else Turn(jobTags, home, Pass(jobTags, home, p, jobs[..|jobs| - 1]), jobs[|jobs| - 1])
  }

  /** The decision each turn of the pass takes, in queue order. */
  function Attempts(jobTags: map<string, set<string>>, home: string, p: Pool, jobs: seq<string>): (atts: seq<Attempt>)
    ensures |atts| == |jobs|
    decreases |jobs|
  {
    if jobs == [] then []
    else
      var q := Pass(jobTags, home, p, jobs[..|jobs| - 1]);
      Attempts(jobTags, home, p, jobs[..|jobs| - 1]) + [Plan(jobTags, q.nodes, q.fs, home, q.buildNums, jobs[|jobs| - 1])]
  }

  /** The (job, build) of every run the pass starts, in the order they start. */
  function History(jobs: seq<string>, atts: seq<Attempt>): seq<(string, int)>
    requires |jobs| == |atts|
    decreases |jobs|
  {
    if jobs == [] then []
    else
      var n := |jobs| - 1;
      History(jobs[..n], atts[..n]) + (if atts[n].Started? then [(jobs[n], atts[n].build)] else [])
  }

  /** No node admits `job`, or the working directory of its next build cannot be created. */
  predicate Stuck(jobTags: map<string, set<string>>, home: string, p: Pool, job: string) {
    || FirstAdmitting(jobTags, p.nodes, job).None?
    || !p.fs.CanCreate(WorkDir(home, job, BuildNum(p.buildNums, job) + 1))
  }

  /** A stuck job is exactly one whose turn would end with no node or no working directory. */
  lemma StuckIsRefusal(jobTags: map<string, set<string>>, home: string, p: Pool, job: string)
    ensures var a := Plan(jobTags, p.nodes, p.fs, home, p.buildNums, job);
      Stuck(jobTags, home, p, job) <==> a.NoNode? || a.NoWorkdir?
  {
  }

  /** A busier node admits no job the node did not admit before. */
  lemma OccupyAdmitsLess(jobTags: map<string, set<string>>, nodes: seq<Node>, k: nat, job: string)
    requires k < |nodes| && FirstAdmitting(jobTags, nodes, job).None?
    ensures FirstAdmitting(jobTags, Occupy(nodes, k), job).None?
  {
    var after := Occupy(nodes, k);
    forall j | 0 <= j < |after| ensures !Admits(jobTags, after[j], job) {
      assert !Admits(jobTags, nodes[j], job);
    }
  }

  /** Creating a turn's directories makes no directory creatable that was not. */
  lemma PlannedFsKeepsUncreatable(fs: FileSystem, home: string, job: string, a: Attempt, path: string)
    requires !fs.CanCreate(path)
    ensures !PlannedFs(fs, home, job, a).CanCreate(path)
  {
  }

  /** A turn keeps every job stuck that was stuck: executors and directories are only taken. */
  lemma TurnKeepsStuck(jobTags: map<string, set<string>>, home: string, p: Pool, job: string, other: string)
    requires Stuck(jobTags, home, p, other)
    ensures Stuck(jobTags, home, Turn(jobTags, home, p, job), other)
  {
    if FirstAdmitting(jobTags, p.nodes, other).None? {
      TurnKeepsNoNode(jobTags, home, p, job, other);
    } else {
      TurnKeepsNoWorkdir(jobTags, home, p, job, other);
    }
  }

  /** A turn takes executors only, so a job no node admits stays so. */
  lemma TurnKeepsNoNode(jobTags: map<string, set<string>>, home: string, p: Pool, job: string, other: string)
    requires FirstAdmitting(jobTags, p.nodes, other).None?
    ensures FirstAdmitting(jobTags, Turn(jobTags, home, p, job).nodes, other).None?
  {
    var a := Plan(jobTags, p.nodes, p.fs, home, p.buildNums, job);
    if a.Started? {
      OccupyAdmitsLess(jobTags, p.nodes, a.node, other);
    }
  }

  /**
   * A turn for another job leaves the job's build number alone and only
   * creates directories, so its next working directory stays uncreatable.
   */
  lemma TurnKeepsNoWorkdir(jobTags: map<string, set<string>>, home: string, p: Pool, job: string, other: string)
    requires Stuck(jobTags, home, p, other)
    requires !p.fs.CanCreate(WorkDir(home, other, BuildNum(p.buildNums, other) + 1))
    ensures var q := Turn(jobTags, home, p, job);
      !q.fs.CanCreate(WorkDir(home, other, BuildNum(q.buildNums, other) + 1))
  {
    var a := Plan(jobTags, p.nodes, p.fs, home, p.buildNums, job);
    var q := Turn(jobTags, home, p, job);
    var b := BuildNum(p.buildNums, other);
    if a.Started? {
      assert other != job by { StuckIsRefusal(jobTags, home, p, other); }
    }
    assert BuildNum(q.buildNums, other) == b;
    PlannedFsKeepsUncreatable(p.fs, home, job, a, WorkDir(home, other, b + 1));
  }

  /** A turn that does not start its run leaves that job stuck. */
  lemma TurnRefusedIsStuck(jobTags: map<string, set<string>>, home: string, p: Pool, job: string)
    requires !Plan(jobTags, p.nodes, p.fs, home, p.buildNums, job).Started?
    ensures Stuck(jobTags, home, Turn(jobTags, home, p, job), job)
  {
  }

  /** A job stuck after the first `m` turns is stuck after all of them. */
  lemma {:induction false} PassKeepsStuck(jobTags: map<string, set<string>>, home: string, p: Pool,
                                          jobs: seq<string>, m: nat, job: string)
    requires m <= |jobs| && Stuck(jobTags, home, Pass(jobTags, home, p, jobs[..m]), job)
    ensures Stuck(jobTags, home, Pass(jobTags, home, p, jobs), job)
    decreases |jobs|
  {
    if m == |jobs| {
      assert jobs[..m] == jobs;
    } else {
      var init := jobs[..|jobs| - 1];
      assert init[..m] == jobs[..m];
      PassKeepsStuck(jobTags, home, p, init, m, job);
      TurnKeepsStuck(jobTags, home, Pass(jobTags, home, p, init), jobs[|jobs| - 1], job);
    }
  }

  /** The `k`-th decision is `Plan` on the pool the first `k` turns leave. */
  lemma AttemptIsPlanAtTurn(jobTags: map<string, set<string>>, home: string, p: Pool, jobs: seq<string>, k: nat)
    requires k < |jobs|
    ensures var q := Pass(jobTags, home, p, jobs[..k]);
      Attempts(jobTags, home, p, jobs)[k] == Plan(jobTags, q.nodes, q.fs, home, q.buildNums, jobs[k])
  {
    var pre := jobs[..k + 1];
    TakeTake(jobs, k + 1, k);
    AttemptsPrefix(jobTags, home, p, jobs, k + 1);
    AttemptsLast(jobTags, home, p, pre);
  }

  /** The decisions of the first `m` turns do not depend on the jobs queued after them. */
  lemma {:induction false} AttemptsPrefix(jobTags: map<string, set<string>>, home: string, p: Pool, jobs: seq<string>, m: nat)
    requires m <= |jobs|
    ensures Attempts(jobTags, home, p, jobs[..m]) == Attempts(jobTags, home, p, jobs)[..m]
    decreases |jobs|
  {
    if m == |jobs| {
      assert jobs[..m] == jobs;
    } else {
      var init := jobs[..|jobs| - 1];
      AttemptsPrefix(jobTags, home, p, init, m);
      assert init[..m] == jobs[..m];
      assert Attempts(jobTags, home, p, jobs)[..m] == Attempts(jobTags, home, p, init)[..m];
    }
  }

  /** The last decision of a pass is `Plan` on the pool all earlier turns leave. */
  lemma AttemptsLast(jobTags: map<string, set<string>>, home: string, p: Pool, jobs: seq<string>)
    requires |jobs| > 0
    ensures var q := Pass(jobTags, home, p, jobs[..|jobs| - 1]);
      Attempts(jobTags, home, p, jobs)[|jobs| - 1] == Plan(jobTags, q.nodes, q.fs, home, q.buildNums, jobs[|jobs| - 1])
  {
  }

  /** The pool after `k + 1` turns is one turn after the pool after `k`. */
  lemma PassStep(jobTags: map<string, set<string>>, home: string, p: Pool, jobs: seq<string>, k: nat)
    requires k < |jobs|
    ensures Pass(jobTags, home, p, jobs[..k + 1]) == Turn(jobTags, home, Pass(jobTags, home, p, jobs[..k]), jobs[k])
    ensures var q := Pass(jobTags, home, p, jobs[..k]);
      Attempts(jobTags, home, p, jobs[..k + 1])
        == Attempts(jobTags, home, p, jobs[..k]) + [Plan(jobTags, q.nodes, q.fs, home, q.buildNums, jobs[k])]
  {
    assert jobs[..k + 1][..k] == jobs[..k];
  }

  /**
   * Once a pass is over, no run it left queued could start: no node admits
   * its job, or the next working directory of its job cannot be created.
   */
  lemma PassLeavesRefusedStuck(jobTags: map<string, set<string>>, home: string, p: Pool, jobs: seq<string>, k: nat)
    requires k < |jobs| && !Attempts(jobTags, home, p, jobs)[k].Started?
    ensures Stuck(jobTags, home, Pass(jobTags, home, p, jobs), jobs[k])
    ensures var q := Pass(jobTags, home, p, jobs);
      !Plan(jobTags, q.nodes, q.fs, home, q.buildNums, jobs[k]).Started?
  {
    AttemptIsPlanAtTurn(jobTags, home, p, jobs, k);
    TurnRefusedIsStuck(jobTags, home, Pass(jobTags, home, p, jobs[..k]), jobs[k]);
    PassStep(jobTags, home, p, jobs, k);
    PassKeepsStuck(jobTags, home, p, jobs, k + 1, jobs[k]);
    var q := Pass(jobTags, home, p, jobs);
    StuckIsRefusal(jobTags, home, q, jobs[k]);
  }

  /** Later in a pass no job's last build number is lower. */
  lemma {:induction false} PassBuildsGrow(jobTags: map<string, set<string>>, home: string, p: Pool,
                                          jobs: seq<string>, m: nat)
    requires m <= |jobs|
    ensures forall job :: BuildNum(Pass(jobTags, home, p, jobs[..m]).buildNums, job)
                          <= BuildNum(Pass(jobTags, home, p, jobs).buildNums, job)
    decreases |jobs|
  {
    if m == |jobs| {
      assert jobs[..m] == jobs;
    } else {
      var init := jobs[..|jobs| - 1];
      assert init[..m] == jobs[..m];
      PassBuildsGrow(jobTags, home, p, init, m);
    }
  }

  lemma TakeTake<T>(s: seq<T>, l: nat, m: nat)
    requires m <= l <= |s|
    ensures s[..l][..m] == s[..m]
  {
  }

  /** A turn that starts its run records the run's build as its job's last. */
  lemma TurnRecordsBuild(jobTags: map<string, set<string>>, home: string, p: Pool, job: string)
    requires Plan(jobTags, p.nodes, p.fs, home, p.buildNums, job).Started?
    ensures BuildNum(Turn(jobTags, home, p, job).buildNums, job) == Plan(jobTags, p.nodes, p.fs, home, p.buildNums, job).build
  {
  }

  /** Two runs of one job started by a pass get build numbers in the order they started. */
  lemma PassBuildsIncrease(jobTags: map<string, set<string>>, home: string, p: Pool, jobs: seq<string>, k: nat, l: nat)
    requires k < l < |jobs| && jobs[k] == jobs[l]
    requires Attempts(jobTags, home, p, jobs)[k].Started? && Attempts(jobTags, home, p, jobs)[l].Started?
    ensures Attempts(jobTags, home, p, jobs)[k].build < Attempts(jobTags, home, p, jobs)[l].build
  {
    var atts := Attempts(jobTags, home, p, jobs);
    var qk, qk1, ql := Pass(jobTags, home, p, jobs[..k]), Pass(jobTags, home, p, jobs[..k + 1]), Pass(jobTags, home, p, jobs[..l]);
    AttemptIsPlanAtTurn(jobTags, home, p, jobs, k);
    AttemptIsPlanAtTurn(jobTags, home, p, jobs, l);
    PassStep(jobTags, home, p, jobs, k);
    TurnRecordsBuild(jobTags, home, qk, jobs[k]);
    assert BuildNum(qk1.buildNums, jobs[k]) == atts[k].build;
    TakeTake(jobs, l, k + 1);
    PassBuildsGrow(jobTags, home, p, jobs[..l], k + 1);
    assert BuildNum(qk1.buildNums, jobs[k]) <= BuildNum(ql.buildNums, jobs[l]);
  }

  /** What the first turns of a pass decided: the pool they leave, each turn's decision, and the builds started. */
  datatype Trace = Trace(pool: Pool, atts: seq<Attempt>, history: seq<(string, int)>)

  /** The first `n` turns of a pass over the jobs `jobs` from the pool `st`, computed turn by turn. */
  function Scan(jobTags: map<string, set<string>>, home: string, st: Pool, jobs: seq<string>, n: nat): (t: Trace)
    requires n <= |jobs|
    ensures |t.atts| == n
    decreases n, 1
  {
    if n == 0 then Trace(st, [], []) else ScanTurn(jobTags, home, st, jobs, n)
  }

  /** The trace of the first `n - 1` turns, extended by the turn of `jobs[n - 1]`. */
  function ScanTurn(jobTags: map<string, set<string>>, home: string, st: Pool, jobs: seq<string>, n: nat): (t: Trace)
    requires 0 < n <= |jobs|
    ensures |t.atts| == n
    decreases n, 0
  {
    var t := Scan(jobTags, home, st, jobs, n - 1);
    var a := Plan(jobTags, t.pool.nodes, t.pool.fs, home, t.pool.buildNums, jobs[n - 1]);
    Trace(Turn(jobTags, home, t.pool, jobs[n - 1]), t.atts + [a],
          t.history + (if a.Started? then [(jobs[n - 1], a.build)] else []))
  }

  /** One more turn, with `Plan`'s decision `a` for the next job, extends the trace. */
  lemma ScanStep(jobTags: map<string, set<string>>, home: string, st: Pool, jobs: seq<string>, n: nat,
                 t: Trace, a: Attempt, t': Trace)
    requires n < |jobs| && Scan(jobTags, home, st, jobs, n) == t
    requires a == Plan(jobTags, t.pool.nodes, t.pool.fs, home, t.pool.buildNums, jobs[n])
    requires t' == Trace(Turn(jobTags, home, t.pool, jobs[n]), t.atts + [a],
                         t.history + (if a.Started? then [(jobs[n], a.build)] else []))
    ensures Scan(jobTags, home, st, jobs, n + 1) == t'
  {
    var m := n + 1;
    assert m - 1 == n;
    assert Scan(jobTags, home, st, jobs, m) == ScanTurn(jobTags, home, st, jobs, m);
  }

  /** The trace agrees with the folds `Pass`, `Attempts` and `History` over the first `n` jobs. */
  lemma {:induction false} ScanIsPass(jobTags: map<string, set<string>>, home: string, st: Pool, jobs: seq<string>,
                                      n: nat)
    requires n <= |jobs|
    ensures var t := Scan(jobTags, home, st, jobs, n);
      && t.atts == Attempts(jobTags, home, st, jobs[..n])
      && t.pool == Pass(jobTags, home, st, jobs[..n])
      && t.history == History(jobs[..n], t.atts)
    decreases n
  {
    if n > 0 {
      var t := Scan(jobTags, home, st, jobs, n);
      assert t == ScanTurn(jobTags, home, st, jobs, n);
      ScanIsPass(jobTags, home, st, jobs, n - 1);
      PassStep(jobTags, home, st, jobs, n - 1);
      assert t.atts[..n - 1] == Scan(jobTags, home, st, jobs, n - 1).atts;
      assert jobs[..n][..n - 1] == jobs[..n - 1];
    }
  }
}
