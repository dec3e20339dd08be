/**
 * The server's scheduler, class `Laminar` (`src/laminar.h`,
 * `src/laminar.cpp`): the FIFO queue of runs waiting for an executor, the
 * nodes and their executor accounting, the per-job build numbers, the set of
 * active runs and the clients waiting for a run to finish.
 *
 * The filesystem is the field `fs`; processes are `Child` values the
 * caller supplies (the pid and output pipe a fork would produce); messages
 * to dashboard clients are appended to `sent`.
 */
module Scheduler {
  import opened Wrappers
  import opened Strings
  import opened RunStates
  import opened Runs
  import opened RunSets
  import opened SchedulerRules

  /**
   * The status messages broadcast to dashboard clients. A `job_started`
   * message's `queueIndex` is None where the code sends a value it leaves
   * undefined.
   */
  datatype Message =
    | JobQueued(name: string)
    | JobStarted(queueIndex: Option<int>, name: string, number: int, reason: string)
    | JobCompleted(name: string, number: int, result: RunState, reason: string)

  /** A process started for a script: its pid and the read end of its output pipe. */
  datatype Child = Child(pid: int, fd: int)

  /** The number of runs in `runs` executing on node `k`. */
  ghost function OnNode(runs: seq<Run>, k: nat): nat
    reads runs`node
  {
    if runs == [] then 0 else (if runs[0].node == Some(k) then 1 else 0) + OnNode(runs[1..], k)
  }

  lemma {:induction false} OnNodeAppend(runs: seq<Run>, r: Run)
    ensures forall k: nat :: OnNode(runs + [r], k) == OnNode(runs, k) + (if r.node == Some(k) then 1 else 0)
  {
    if runs != [] {
      assert (runs + [r])[1..] == runs[1..] + [r];
      OnNodeAppend(runs[1..], r);
    }
  }

  lemma {:induction false} OnNodeWithout(runs: seq<Run>, r: Run)
    requires Distinct(runs) && r in runs
    ensures forall k: nat :: OnNode(Without(runs, r), k) + (if r.node == Some(k) then 1 else 0) == OnNode(runs, k)
  {
    if runs[0] == r {
      assert r !in runs[1..];
      assert Without(runs[1..], r) == runs[1..];
    } else {
      assert Distinct(runs[1..]);
      OnNodeWithout(runs[1..], r);
      assert ([runs[0]] + Without(runs[1..], r))[1..] == Without(runs[1..], r);
    }
  }

  /** The count depends on nothing but the runs' `node` fields. */
  twostate lemma {:induction false} OnNodeFrame(runs: seq<Run>)
    requires forall i :: 0 <= i < |runs| ==> old(runs[i].node) == runs[i].node
    ensures forall k: nat :: OnNode(runs, k) == old(OnNode(runs, k))
  {
    if runs != [] {
      OnNodeFrame(runs[1..]);
    }
  }

  /**
   * `kept` and `moved` split `whole` between them, each keeping the order
   * the runs had in `whole`.
   */
  predicate Interleaving(whole: seq<Run>, kept: seq<Run>, moved: seq<Run>)
    decreases |whole|
  {
    if whole == [] then kept == [] && moved == []
    else
      var last := whole[|whole| - 1];
      var init := whole[..|whole| - 1];
      || (kept != [] && kept[|kept| - 1] == last && Interleaving(init, kept[..|kept| - 1], moved))
      || (moved != [] && moved[|moved| - 1] == last && Interleaving(init, kept, moved[..|moved| - 1]))
  }

  lemma InterleavingKeep(whole: seq<Run>, kept: seq<Run>, moved: seq<Run>, x: Run)
    requires Interleaving(whole, kept, moved)
    ensures Interleaving(whole + [x], kept + [x], moved)
  {
    assert (whole + [x])[..|whole|] == whole;
    assert (kept + [x])[..|kept|] == kept;
  }

  lemma InterleavingMove(whole: seq<Run>, kept: seq<Run>, moved: seq<Run>, x: Run)
    requires Interleaving(whole, kept, moved)
    ensures Interleaving(whole + [x], kept, moved + [x])
  {
    assert (whole + [x])[..|whole|] == whole;
    assert (moved + [x])[..|moved|] == moved;
  }

  /** An interleaving loses and duplicates nothing. */
  lemma {:induction false} InterleavingConserves(whole: seq<Run>, kept: seq<Run>, moved: seq<Run>)
    requires Interleaving(whole, kept, moved)
    ensures multiset(whole) == multiset(kept) + multiset(moved)
    decreases |whole|
  {
    if whole != [] {
      var last := whole[|whole| - 1];
      var init := whole[..|whole| - 1];
      assert whole == init + [last];
      if kept != [] && kept[|kept| - 1] == last && Interleaving(init, kept[..|kept| - 1], moved) {
        InterleavingConserves(init, kept[..|kept| - 1], moved);
        assert kept == kept[..|kept| - 1] + [last];
      } else {
        InterleavingConserves(init, kept, moved[..|moved| - 1]);
        assert moved == moved[..|moved| - 1] + [last];
      }
    }
  }

  /** `ms` is `count` `job_started` messages and nothing else. */
  predicate StartsOnly(ms: seq<Message>, count: nat) {
    |ms| == count && forall k :: 0 <= k < |ms| ==> ms[k].JobStarted?
  }

  lemma StartsOnlyStep(before: seq<Message>, after: seq<Message>, base: nat, count: nat)
    requires base <= |before| && StartsOnly(before[base..], count)
    requires |after| == |before| + 1 && before <= after && after[|before|].JobStarted?
    ensures StartsOnly(after[base..], count + 1)
  {
    assert after[base..] == before[base..] + [after[|before|]];
  }

  /** A `job_queued` message followed by `job_started` messages only. */
  lemma StartsAfterQueued(s0: seq<Message>, s1: seq<Message>, s2: seq<Message>, name: string, count: nat)
    requires s1 == s0 + [JobQueued(name)] && s1 <= s2 && StartsOnly(s2[|s1|..], count)
    ensures s0 + [JobQueued(name)] <= s2 && StartsOnly(s2[|s0| + 1..], count)
  {
  }

  /**
   * Loop state of `assignNewJobs`: of the first `i + |moved|` runs of the
   * original queue, the first `i` of `queue` stayed and `moved` left;
   * the rest of `queue` is the unvisited rest of the original.
   */
  ghost predicate Scanned(queue0: seq<Run>, queue: seq<Run>, i: nat, moved: seq<Run>) {
    && i <= |queue| && i + |moved| <= |queue0|
    && Interleaving(queue0[..i + |moved|], queue[..i], moved)
    && queue[i..] == queue0[i + |moved|..]
  }

  lemma ScannedKeep(queue0: seq<Run>, queue: seq<Run>, i: nat, moved: seq<Run>)
    requires Scanned(queue0, queue, i, moved) && i < |queue|
    ensures Scanned(queue0, queue, i + 1, moved)
  {
    var p := i + |moved|;
    assert queue[i] == queue0[p];
    assert queue0[..p + 1] == queue0[..p] + [queue[i]];
    assert queue[..i + 1] == queue[..i] + [queue[i]];
    InterleavingKeep(queue0[..p], queue[..i], moved, queue[i]);
    assert queue[i + 1..] == queue[i..][1..];
  }

  lemma ScannedMove(queue0: seq<Run>, queue: seq<Run>, i: nat, moved: seq<Run>)
    requires Scanned(queue0, queue, i, moved) && i < |queue|
    ensures Scanned(queue0, queue[..i] + queue[i + 1..], i, moved + [queue[i]])
  {
    var p := i + |moved|;
    var rest := queue[..i] + queue[i + 1..];
    assert queue[i] == queue0[p];
    assert queue0[..p + 1] == queue0[..p] + [queue[i]];
    assert rest[..i] == queue[..i];
    assert rest[i..] == queue[i + 1..] == queue[i..][1..];
    InterleavingMove(queue0[..p], queue[..i], moved, queue[i]);
  }

  lemma ScannedAll(queue0: seq<Run>, queue: seq<Run>, moved: seq<Run>)
    requires Scanned(queue0, queue, |queue|, moved)
    ensures Interleaving(queue0, queue, moved)
  {
    assert queue0[..|queue| + |moved|] == queue0;
    assert queue[..|queue|] == queue;
  }

  /** The job names of `runs`, in order. */
  ghost function Names(runs: seq<Run>): (ns: seq<string>)
    ensures |ns| == |runs| && forall k :: 0 <= k < |runs| ==> ns[k] == runs[k].name
    decreases |runs|
  {
    if runs == [] then [] else Names(runs[..|runs| - 1]) + [runs[|runs| - 1].name]
  }

  /** The runs whose turn started them, in queue order. */
  function Picked(runs: seq<Run>, atts: seq<Attempt>): seq<Run>
    requires |runs| == |atts|
    decreases |runs|
  {
    if runs == [] then []
    else
      var n := |runs| - 1;
      Picked(runs[..n], atts[..n]) + (if atts[n].Started? then [runs[n]] else [])
  }

  /** The runs whose turn left them queued, in queue order. */
  function Left(runs: seq<Run>, atts: seq<Attempt>): seq<Run>
    requires |runs| == |atts|
    decreases |runs|
  {
    if runs == [] then []
    else
      var n := |runs| - 1;
      Left(runs[..n], atts[..n]) + (if atts[n].Started? then [] else [runs[n]])
  }

  /** A run left queued is one of the runs whose turn did not start it. */
  lemma {:induction false} LeftMember(runs: seq<Run>, atts: seq<Attempt>, x: Run)
    requires |runs| == |atts| && x in Left(runs, atts)
    ensures exists k :: 0 <= k < |runs| && runs[k] == x && !atts[k].Started?
    decreases |runs|
  {
    var n := |runs| - 1;
    if x in Left(runs[..n], atts[..n]) {
      LeftMember(runs[..n], atts[..n], x);
      var k :| 0 <= k < n && runs[..n][k] == x && !atts[..n][k].Started?;
      assert runs[k] == x && !atts[k].Started?;
    } else {
      assert runs[n] == x && !atts[n].Started?;
    }
  }

  /** One more turn, with decision `a` for the run `queue[p]`, extends the runs started and kept. */
  lemma PickedStep(queue: seq<Run>, atts: seq<Attempt>, a: Attempt, p: nat)
    requires p < |queue| && |atts| == p
    ensures Picked(queue[..p + 1], atts + [a]) == Picked(queue[..p], atts) + (if a.Started? then [queue[p]] else [])
    ensures Left(queue[..p + 1], atts + [a]) == Left(queue[..p], atts) + (if a.Started? then [] else [queue[p]])
  {
    assert queue[..p + 1][..p] == queue[..p] && (atts + [a])[..p] == atts;
  }

  /** The runs started and the runs kept split the queue between them, each in queue order. */
  lemma {:induction false} PickedLeftInterleave(runs: seq<Run>, atts: seq<Attempt>)
    requires |runs| == |atts|
    ensures Interleaving(runs, Left(runs, atts), Picked(runs, atts))
    decreases |runs|
  {
    if runs != [] {
      var n := |runs| - 1;
      PickedLeftInterleave(runs[..n], atts[..n]);
      var kept, moved := Left(runs[..n], atts[..n]), Picked(runs[..n], atts[..n]);
      if atts[n].Started? {
        InterleavingMove(runs[..n], kept, moved, runs[n]);
        assert Left(runs, atts) == kept + [] == kept;
      } else {
        InterleavingKeep(runs[..n], kept, moved, runs[n]);
        assert Picked(runs, atts) == moved + [] == moved;
      }
      assert runs[..n] + [runs[n]] == runs;
    }
  }

  /**
   * At the end of the pass: every run kept could not start from the pool
   * the pass leaves, and no job's last build number went down.
   */
  lemma ScanDone(jobTags: map<string, set<string>>, home: string, st: Pool, queue: seq<Run>, jobs: seq<string>,
                 t: Trace)
    requires Named(queue, jobs) && Scan(jobTags, home, st, jobs, |queue|) == t
    ensures t.atts == Attempts(jobTags, home, st, jobs) && t.pool == Pass(jobTags, home, st, jobs)
    ensures t.history == History(jobs, t.atts)
    ensures forall x :: x in Left(queue, t.atts) ==>
      Plan(jobTags, t.pool.nodes, t.pool.fs, home, t.pool.buildNums, x.name).NoNode? ||
      Plan(jobTags, t.pool.nodes, t.pool.fs, home, t.pool.buildNums, x.name).NoWorkdir?
    ensures forall job :: BuildNum(st.buildNums, job) <= BuildNum(t.pool.buildNums, job)
  {
    ScanIsPass(jobTags, home, st, jobs, |queue|);
    assert jobs[..|queue|] == jobs;
    forall x | x in Left(queue, t.atts)
      ensures Plan(jobTags, t.pool.nodes, t.pool.fs, home, t.pool.buildNums, x.name).NoNode?
           || Plan(jobTags, t.pool.nodes, t.pool.fs, home, t.pool.buildNums, x.name).NoWorkdir?
    {
      LeftMember(queue, t.atts, x);
      var k :| 0 <= k < |queue| && queue[k] == x && !t.atts[k].Started?;
      PassLeavesRefusedStuck(jobTags, home, st, jobs, k);
      StuckIsRefusal(jobTags, home, t.pool, x.name);
    }
    PassBuildsGrow(jobTags, home, st, jobs, 0);
    assert jobs[..0] == [];
  }

  /** The node, build and pid of each run of `runs`. */
  ghost function Fields(runs: seq<Run>): (fs: seq<(Option<nat>, int, int)>)
    reads runs`node, runs`build, runs`pid
    ensures |fs| == |runs| && forall k :: 0 <= k < |runs| ==> fs[k] == (runs[k].node, runs[k].build, runs[k].pid)
    decreases |runs|
  {
    if runs == [] then [] else
      var x := runs[|runs| - 1];
      Fields(runs[..|runs| - 1]) + [(x.node, x.build, x.pid)]
  }

  /** The fields of `q` agree with `f0` everywhere but at position `p`, which holds `q[p]`'s. */
  lemma FieldsOneChanged(q: seq<Run>, p: nat, f0: seq<(Option<nat>, int, int)>)
    requires p < |q| == |f0|
    requires forall k :: 0 <= k < |q| && k != p ==> f0[k] == (q[k].node, q[k].build, q[k].pid)
    ensures Fields(q) == f0[p := (q[p].node, q[p].build, q[p].pid)]
  {
  }

  /** The names and fields of a queue with one more run at its back. */
  lemma NamesFieldsSnoc(runs: seq<Run>, r: Run)
    ensures Names(runs + [r]) == Names(runs) + [r.name]
    ensures Fields(runs + [r]) == Fields(runs) + [(r.node, r.build, r.pid)]
  {
    assert (runs + [r])[..|runs|] == runs;
  }

  /**
   * Of the node, build and pid `fields` of the runs of a queue, those of
   * each run that one of the turns `atts` started carry that turn's node
   * and build; every other run keeps the fields `before` it had.
   */
  predicate Placed(fields: seq<(Option<nat>, int, int)>, before: seq<(Option<nat>, int, int)>, atts: seq<Attempt>) {
    && |before| == |fields| && |atts| <= |fields|
    && forall k :: 0 <= k < |fields| ==>
      if k < |atts| && atts[k].Started? then fields[k].1 == atts[k].build && fields[k].0 == Some(atts[k].node)
      else fields[k] == before[k]
  }

  /** One more turn, with decision `a`, that sets the fields of its own run `x` only. */
  lemma PlacedStep(f0: seq<(Option<nat>, int, int)>, f1: seq<(Option<nat>, int, int)>,
                   before: seq<(Option<nat>, int, int)>, atts: seq<Attempt>, a: Attempt, x: (Option<nat>, int, int))
    requires Placed(f0, before, atts) && |atts| < |f0| && f1 == f0[|atts| := x]
    requires a.Started? ==> x.1 == a.build && x.0 == Some(a.node)
    requires !a.Started? ==> x == f0[|atts|]
    ensures Placed(f1, before, atts + [a])
  {
  }

  /** The runs `runs` belong to the jobs `jobs`, in order. */
  ghost predicate Named(runs: seq<Run>, jobs: seq<string>)
  {
    |runs| == |jobs| && forall k :: 0 <= k < |runs| ==> runs[k].name == jobs[k]
  }

  /** The run at the front of the not yet visited part of the queue. */
  lemma QueueAt(kept: seq<Run>, queue0: seq<Run>, p: nat)
    requires p < |queue0|
    ensures (kept + queue0[p..])[|kept|] == queue0[p]
  {
  }

  /** A turn takes the run at the front of the unvisited part out of the queue, or keeps it. */
  lemma QueueStep(q: seq<Run>, q': seq<Run>, kept: seq<Run>, queue0: seq<Run>, p: nat, i: nat, started: bool)
    requires p < |queue0| && q == kept + queue0[p..] && i == |kept|
    requires q' == if started then q[..i] + q[i + 1..] else q
    ensures q' == (kept + (if started then [] else [queue0[p]])) + queue0[p + 1..]
  {
    assert q[..i] == kept;
    assert q[i + 1..] == queue0[p + 1..];
    if !started {
      assert q == (kept + [queue0[p]]) + queue0[p + 1..];
    }
  }

  /** The parts of the scheduler's state a pass of `assignNewJobs` changes, with the node, build and pid of its runs. */
  datatype View = View(queue: seq<Run>, active: seq<Run>, builds: seq<(string, int)>, sent: seq<Message>, pool: Pool,
                       fields: seq<(Option<nat>, int, int)>)

  /** What the pass of `assignNewJobs` started from. */
  datatype Start = Start(queue: seq<Run>, jobs: seq<string>, pool: Pool, fields: seq<(Option<nat>, int, int)>,
                         active: seq<Run>, builds: seq<(string, int)>, sent: seq<Message>, existing: set<string>)

  lemma AppendAssoc<T>(a: seq<T>, b: seq<T>, c: seq<T>)
    ensures (a + b) + c == a + (b + c)
  {
  }

  lemma SliceStep<T>(q: seq<T>, i: nat)
    requires i < |q|
    ensures q[..i + 1] == q[..i] + [q[i]]
    ensures (q[..i] + q[i + 1..])[..i] == q[..i]
  {
  }

  /** Build numbers handed out, per job strictly increasing and never above `buildNums`. */
  ghost predicate BuildsIncrease(history: seq<(string, int)>, buildNums: map<string, nat>) {
    && (forall i, j :: 0 <= i < j < |history| && history[i].0 == history[j].0 ==> history[i].1 < history[j].1)
    && (forall i :: 0 <= i < |history| ==> history[i].1 <= BuildNum(buildNums, history[i].0))
  }

  lemma BuildsIncreaseStep(history: seq<(string, int)>, buildNums: map<string, nat>, job: string)
    requires BuildsIncrease(history, buildNums)
    ensures var b := BuildNum(buildNums, job) + 1;
      BuildsIncrease(history + [(job, b)], buildNums[job := b])
  {
  }

  /** `addScript(script)` when `probe` exists. */
  method AddScriptIf(r: Run, fs: FileSystem, probe: string, script: string)
    requires r.Valid()
    modifies r`scripts, r`added
    ensures r.Valid()
    ensures r.added == old(r.added) + IfExists(fs, probe, script) && r.scripts == old(r.scripts) + IfExists(fs, probe, script)
  {
    if fs.Exists(probe) {
      r.AddScript(script);
    }
  }

  /** `addEnv(path)` when `path` exists. */
  method AddEnvIf(r: Run, fs: FileSystem, path: string)
    modifies r`env
    ensures r.env == old(r.env) + IfExists(fs, path, path)
  {
    if fs.Exists(path) {
      r.AddEnv(path);
    }
  }

  /** The run holds the scripts and environment files `assignNewJobs` gives it on the node `nodeName`. */
  ghost predicate Prepared(r: Run, fs: FileSystem, home: string, nodeName: string)
    reads r`added, r`env
  {
    r.added == ScriptsFor(fs, home, nodeName, r.name) && r.env == EnvFor(fs, home, nodeName, r.name)
  }

  /**
   * The scripts and environment files `assignNewJobs` gives a run about to
   * start on the node `nodeName`, in execution order.
   */
  method Prepare(r: Run, fs: FileSystem, home: string, nodeName: string)
    requires r.Valid() && r.added == [] && r.env == []
    modifies r`scripts, r`added, r`env
    ensures r.Valid()
    ensures r.added == ScriptsFor(fs, home, nodeName, r.name) && r.scripts == r.added
    ensures r.env == EnvFor(fs, home, nodeName, r.name)
    ensures r.started == [] && r.scripts != []
  {
    AddScripts(r, fs, home, nodeName);
    AddEnvs(r, fs, home, nodeName);
    assert r.scripts[|BeforeScripts(fs, home, nodeName, r.name)|] == JobFile(home, r.name, ".run");
  }

  /** The seven script slots, in order. */
  method AddScripts(r: Run, fs: FileSystem, home: string, nodeName: string)
    requires r.Valid() && r.added == []
    modifies r`scripts, r`added
    ensures r.Valid()
    ensures r.added == ScriptsFor(fs, home, nodeName, r.name) && r.scripts == r.added
  {
    AddBefore(r, fs, home, nodeName);
    r.AddScript(JobFile(home, r.name, ".run"));
    AddAfter(r, fs, home, nodeName);
  }

  method AddBefore(r: Run, fs: FileSystem, home: string, nodeName: string)
    requires r.Valid() && r.added == []
    modifies r`scripts, r`added
    ensures r.Valid()
    ensures r.added == BeforeScripts(fs, home, nodeName, r.name) && r.scripts == r.added
  {
    var cfg := CfgDir(home);
    AddScriptIf(r, fs, Join(cfg, "before"), Join(cfg, "before"));
    // the node's own before script is tested for, but `cfg/before` is queued
    AddScriptIf(r, fs, NodeFile(home, nodeName, ".before"), Join(cfg, "before"));
    AddScriptIf(r, fs, JobFile(home, r.name, ".before"), JobFile(home, r.name, ".before"));
  }

  method AddAfter(r: Run, fs: FileSystem, home: string, nodeName: string)
    requires r.Valid()
    modifies r`scripts, r`added
    ensures r.Valid()
    ensures r.added == old(r.added) + AfterScripts(fs, home, nodeName, r.name)
    ensures r.scripts == old(r.scripts) + AfterScripts(fs, home, nodeName, r.name)
  {
    var cfg := CfgDir(home);
    ghost var a0, s0 := r.added, r.scripts;
    ghost var x := IfExists(fs, JobFile(home, r.name, ".after"), JobFile(home, r.name, ".after"));
    ghost var y := IfExists(fs, NodeFile(home, nodeName, ".after"), NodeFile(home, nodeName, ".after"));
    ghost var z := IfExists(fs, Join(cfg, "after"), Join(cfg, "after"));
    AddScriptIf(r, fs, JobFile(home, r.name, ".after"), JobFile(home, r.name, ".after"));
    AddScriptIf(r, fs, NodeFile(home, nodeName, ".after"), NodeFile(home, nodeName, ".after"));
    AddScriptIf(r, fs, Join(cfg, "after"), Join(cfg, "after"));
    assert a0 + x + y + z == a0 + (x + y + z) && s0 + x + y + z == s0 + (x + y + z);
  }

  /** The environment files: global, node, then job. */
  method AddEnvs(r: Run, fs: FileSystem, home: string, nodeName: string)
    requires r.env == []
    modifies r`env
    ensures r.env == EnvFor(fs, home, nodeName, r.name)
  {
    var cfg := CfgDir(home);
    AddEnvIf(r, fs, Join(cfg, "env"));
    AddEnvIf(r, fs, NodeFile(home, nodeName, ".env"));
    AddEnvIf(r, fs, JobFile(home, r.name, ".env"));
  }

  /** The run is put on node `k` as build `build` and its first script starts as `child`. */
  method Launch(r: Run, k: nat, home: string, build: nat, child: Child)
    requires r.Valid() && r.started == [] && r.scripts != []
    modifies r`node, r`laminarHome, r`build
    modifies r`result, r`statuses, r`currentScript, r`scripts, r`started, r`pid, r`fd
    ensures r.Valid()
    ensures r.node == Some(k) && r.laminarHome == home && r.build == build
    ensures r.added == old(r.added) && r.started == [old(r.scripts)[0]] && r.pid == child.pid && r.fd == child.fd
    ensures r.result == old(r.result)
  {
    r.node, r.laminarHome, r.build := Some(k), home, build;
    var done := r.Step(child.pid, child.fd);
    assert !done;
  }

  /** A queued run: nothing added to it yet. */
  ghost predicate Waiting(r: Run)
    reads r`result, r`statuses, r`added, r`started, r`scripts, r`currentScript, r`env
  {
    r.Valid() && r.added == [] && r.env == []
  }

  /** An active run: placed on one of the `nodeCount` nodes, with a build number already handed out. */
  ghost predicate Running(r: Run, nodeCount: nat, buildNums: map<string, nat>)
    reads r`result, r`statuses, r`added, r`started, r`scripts, r`currentScript, r`node, r`build
  {
    r.Valid() && r.node.Some? && r.node.value < nodeCount && r.build <= BuildNum(buildNums, r.name)
  }

  /**
   * The scheduler's invariant over its queue, active runs, nodes and
   * build numbers: a run is queued or active, never both; each node's
   * busy count is the number of active runs on it and, once it is
   * non-zero, within the node's capacity; build numbers handed out per
   * job strictly increase.
   */
  ghost predicate Scheduled(active: seq<Run>, queue: seq<Run>, nodes: seq<Node>,
                            buildNums: map<string, nat>, builds: seq<(string, int)>)
    reads active`result, active`statuses, active`added, active`started, active`scripts, active`currentScript,
          active`node, active`build
    reads queue`result, queue`statuses, queue`added, queue`started, queue`scripts, queue`currentScript, queue`env
  {
    && Distinct(queue)
    && (forall r :: r in queue ==> r !in active && Waiting(r))
    && (forall r :: r in active ==> Running(r, |nodes|, buildNums))
    && (forall k :: 0 <= k < |nodes| ==> nodes[k].busyExecutors == OnNode(active, k))
    && (forall k :: 0 <= k < |nodes| ==>
          nodes[k].busyExecutors == 0 || nodes[k].busyExecutors <= nodes[k].numExecutors)
    && BuildsIncrease(builds, buildNums)
  }

  /** The arguments of `Scheduled`, as one value for the lemma that carries it from one heap to another. */
  datatype Snapshot = Snapshot(active: seq<Run>, queue: seq<Run>, nodes: seq<Node>,
                               buildNums: map<string, nat>, builds: seq<(string, int)>)

  /** The invariant survives any step that leaves its queued and active runs alone. */
  twostate lemma ScheduledFrame(st: Snapshot)
    requires old(Scheduled(st.active, st.queue, st.nodes, st.buildNums, st.builds))
    requires forall x :: x in st.active ==>
      unchanged(x`result, x`statuses, x`added, x`started, x`scripts, x`currentScript, x`node, x`build)
    requires forall x :: x in st.queue ==>
      unchanged(x`result, x`statuses, x`added, x`started, x`scripts, x`currentScript, x`env)
    ensures Scheduled(st.active, st.queue, st.nodes, st.buildNums, st.builds)
  {
    assert forall i :: 0 <= i < |st.active| ==> st.active[i] in st.active;
    OnNodeFrame(st.active);
  }

  /** Taking the run at `i` out of the queue keeps the invariant. */
  lemma DequeueKeeps(active: seq<Run>, queue: seq<Run>, nodes: seq<Node>,
                     buildNums: map<string, nat>, builds: seq<(string, int)>, i: nat)
    requires Scheduled(active, queue, nodes, buildNums, builds) && i < |queue|
    ensures Scheduled(active, queue[..i] + queue[i + 1..], nodes, buildNums, builds)
    ensures queue[i] !in queue[..i] + queue[i + 1..] && queue[i] !in active
  {
    RemoveAtDistinct(queue, i);
  }

  /** A run with a build number beyond its job's last and a process no active run has clashes with none of them. */
  lemma NoClash(active: seq<Run>, nodeCount: nat, buildNums: map<string, nat>, r: Run)
    requires forall x :: x in active ==> Running(x, nodeCount, buildNums)
    requires r !in active && r.build > BuildNum(buildNums, r.name)
    requires forall x :: x in active ==> x.pid != r.pid
    ensures !Clashes(active, r)
  {
    forall j | 0 <= j < |active|
      ensures active[j] != r && active[j].pid != r.pid
      ensures active[j].name != r.name || active[j].build != r.build
    {
      assert active[j] in active;
    }
  }

  /** A new run that is neither queued nor active joins the back of the queue. */
  lemma EnqueueKeeps(active: seq<Run>, queue: seq<Run>, nodes: seq<Node>,
                     buildNums: map<string, nat>, builds: seq<(string, int)>, r: Run)
    requires Scheduled(active, queue, nodes, buildNums, builds)
    requires Waiting(r) && r !in active && r !in queue
    ensures Scheduled(active, queue + [r], nodes, buildNums, builds)
  {
    assert forall j :: 0 <= j < |queue| ==> (queue + [r])[j] == queue[j];
  }

  /** Starting the (already launched) run `r` on node `k` as the job's next build keeps the invariant. */
  lemma StartKeeps(active: seq<Run>, queue: seq<Run>, nodes: seq<Node>,
                   buildNums: map<string, nat>, builds: seq<(string, int)>, r: Run, k: nat)
    requires Scheduled(active, queue, nodes, buildNums, builds)
    requires r !in active && r !in queue
    requires k < |nodes| && nodes[k].busyExecutors < nodes[k].numExecutors
    requires r.Valid() && r.node == Some(k) && r.build == BuildNum(buildNums, r.name) + 1
    ensures Scheduled(active + [r], queue, Occupy(nodes, k), buildNums[r.name := r.build],
                      builds + [(r.name, r.build)])
  {
    var after := buildNums[r.name := r.build];
    forall x | x in active + [r] ensures Running(x, |nodes|, after) {
      if x != r {
        RunningWithLaterBuilds(x, |nodes|, buildNums, after);
      }
    }
    OnNodeAppend(active, r);
    BuildsIncreaseStep(builds, buildNums, r.name);
  }

  lemma RunningWithLaterBuilds(r: Run, nodeCount: nat, before: map<string, nat>, after: map<string, nat>)
    requires Running(r, nodeCount, before)
    requires forall job :: BuildNum(before, job) <= BuildNum(after, job)
    ensures Running(r, nodeCount, after)
  {
  }

  /** Every ticket handed out so far, waiting or released, is below `next`. */
  predicate Ticketed(waiters: map<Run, seq<nat>>, released: map<nat, RunState>, next: nat) {
    && (forall r :: r in waiters ==> forall t :: t in waiters[r] ==> t < next)
    && (forall t :: t in released ==> t < next)
  }

  /** Taking the finished `r` off its node and out of the active runs keeps the invariant. */
  lemma FinishKeeps(active: seq<Run>, queue: seq<Run>, nodes: seq<Node>,
                    buildNums: map<string, nat>, builds: seq<(string, int)>, r: Run)
    requires Scheduled(active, queue, nodes, buildNums, builds) && Distinct(active) && r in active
    ensures r.node.Some? && r.node.value < |nodes| && nodes[r.node.value].busyExecutors > 0
    ensures Scheduled(Without(active, r), queue, Vacate(nodes, r.node.value), buildNums, builds)
  {
    OnNodeWithout(active, r);
    assert OnNode(active, r.node.value) > 0;
  }

  /** The tickets waiting for `r`, in the order they were handed out. */
  function TicketsOf(waiters: map<Run, seq<nat>>, r: Run): seq<nat> {
    if r in waiters then waiters[r] else []
  }

  /** `released` once each of `tickets`, in order, has been released with `state`. */
  function Release(released: map<nat, RunState>, tickets: seq<nat>, state: RunState): map<nat, RunState> {
    if tickets == [] then released
    else Release(released, tickets[..|tickets| - 1], state)[tickets[|tickets| - 1] := state]
  }

  /** Every released ticket receives `state`; other tickets keep what they had. */
  lemma {:induction false} ReleaseReleases(released: map<nat, RunState>, tickets: seq<nat>, state: RunState)
    ensures forall t :: t in Release(released, tickets, state) <==> t in released || t in tickets
    ensures forall t :: t in tickets ==> Release(released, tickets, state)[t] == state
    ensures forall t :: t in released && t !in tickets ==> Release(released, tickets, state)[t] == released[t]
  {
    if tickets != [] {
      var init := tickets[..|tickets| - 1];
      ReleaseReleases(released, init, state);
      assert tickets == init + [tickets[|tickets| - 1]];
    }
  }

  /** What `waitForRun` hands back: a state at once, or a ticket released when the run finishes. */
  datatype Wait = Resolved(state: RunState) | Pending(ticket: nat)

  /**
   * The run `queueJob` makes for job `name`: every '='-prefixed parameter
   * taken out, the three it knows filling the upstream job, the upstream
   * build (through atoi) and the reason; the other parameters kept as given.
   */
  ghost predicate MadeFrom(r: Run, name: string, params: map<string, string>)
    reads r`params
  {
    && r.name == name
    && (forall k :: k in r.params <==> k in params && !IsInternal(k))
    && (forall k :: k in r.params ==> r.params[k] == params[k])
    && r.parentName == Lookup(params, "=parentJob") && r.reasonMsg == Lookup(params, "=reason")
    && r.parentBuild == if "=parentBuild" in params then Atoi(params["=parentBuild"]) else 0
  }

  /** What `MadeFrom` reads is all it depends on. */
  /** The fields of `r` that `MadeFrom` reads, as one value. */
  ghost function Origin(r: Run): (string, map<string, string>, string, int, string)
    reads r`params
  {
    (r.name, r.params, r.parentName, r.parentBuild, r.reasonMsg)
  }

  twostate lemma MadeFromKept(r: Run)
    requires Origin(r) == old(Origin(r))
    ensures forall name, params :: old(MadeFrom(r, name, params)) ==> MadeFrom(r, name, params)
  {
  }

  /**
   * A fresh run of job `name` as `queueJob` makes it, its parameters split
   * by `SplitParams`.
   */
  method NewRun(name: string, params: map<string, string>) returns (r: Run)
    ensures fresh(r) && Waiting(r) && r.result == SUCCESS && (r.node, r.build, r.pid) == (None, 0, 0)
    ensures MadeFrom(r, name, params)
  {
    var rest, parentName, parentBuild, reasonMsg := SplitParams(params);
    r := new Run(name, parentName, parentBuild, reasonMsg);
    r.params := rest;
  }

  /** Every run of the original queue stays queued or moves. */
  lemma InterleavingMember(whole: seq<Run>, kept: seq<Run>, moved: seq<Run>, x: Run)
    requires Interleaving(whole, kept, moved) && x in whole
    ensures x in kept || x in moved
  {
    InterleavingConserves(whole, kept, moved);
    assert x in multiset(whole);
  }

  class Laminar {
    const homeDir: string
    const jobTags: map<string, set<string>>
    const activeJobs: RunSet
    var nodes: seq<Node>
    var fs: FileSystem
    var queuedJobs: seq<Run>                     // front is the oldest
    var buildNums: map<string, nat>
    var waiters: map<Run, seq<nat>>              // the tickets waiting for each run
    var released: map<nat, RunState>             // the state each released ticket received
    var nextTicket: nat
    var sent: seq<Message>
    ghost var builds: seq<(string, int)>       // (job, build) of every run started

    ghost predicate Valid()
      reads this`nodes, this`queuedJobs, this`buildNums, this`builds, this`waiters, this`released, this`nextTicket
      reads activeJobs`runs
      reads activeJobs.runs`pid, activeJobs.runs`build, activeJobs.runs`node
      reads activeJobs.runs`result, activeJobs.runs`statuses, activeJobs.runs`added, activeJobs.runs`started,
            activeJobs.runs`scripts, activeJobs.runs`currentScript
      reads queuedJobs`result, queuedJobs`statuses, queuedJobs`added, queuedJobs`started, queuedJobs`scripts,
            queuedJobs`currentScript, queuedJobs`env
    {
      && activeJobs.Valid()
      && Scheduled(activeJobs.runs, queuedJobs, nodes, buildNums, builds)
      && Ticketed(waiters, released, nextTicket)
    }

    /**
     * The server as it starts: build numbers read back from the database,
     * nodes and job tags as configured (a single untagged node named ""
     * with 6 executors when none is configured), nothing queued or active.
     */
    constructor (home: string, tags: map<string, set<string>>, configured: seq<Node>,
                 lastBuilds: map<string, nat>, fs0: FileSystem)
      requires forall k :: 0 <= k < |configured| ==> configured[k].busyExecutors == 0
      ensures Valid()
      ensures homeDir == home && jobTags == tags && buildNums == lastBuilds && fs == fs0
      ensures nodes == if configured == [] then [Node("", 6, 0, {})] else configured
      ensures queuedJobs == [] && activeJobs.runs == [] && fresh(activeJobs)
      ensures waiters == map[] && released == map[] && sent == []
    {
      homeDir, jobTags, buildNums, fs := home, tags, lastBuilds, fs0;
      nodes := if configured == [] then [Node("", 6, 0, {})] else configured;
      activeJobs := new RunSet();
      queuedJobs, waiters, released, nextTicket, sent := [], map[], map[], 0, [];
      builds := [];
    }

    /** None of the processes `children[from..]` is the process of an active run. */
    ghost predicate PidsFree(children: seq<Child>, from: nat)
      reads activeJobs`runs, activeJobs.runs`pid
    {
      forall x, j :: x in activeJobs.runs && from <= j < |children| ==> x.pid != children[j].pid
    }

    /**
     * A step of the active run `r` (its latched result and scripts, and a
     * new process that no other active run has) keeps the invariant.
     */
    twostate lemma StepKeeps(r: Run)
      requires old(Valid()) && r in activeJobs.runs
      requires unchanged(this`nodes, this`queuedJobs, this`buildNums, this`builds, this`waiters, this`released)
      requires unchanged(this`nextTicket, activeJobs`runs)
      requires r.Valid() && unchanged(r`node, r`build)
      requires forall x :: x in activeJobs.runs && x != r ==> x.pid != r.pid
      requires forall x :: x in activeJobs.runs && x != r ==>
        unchanged(x`pid, x`result, x`statuses, x`added, x`started, x`scripts, x`currentScript, x`node, x`build)
      requires forall x :: x in queuedJobs ==>
        unchanged(x`result, x`statuses, x`added, x`started, x`scripts, x`currentScript, x`env)
      ensures Valid()
    {
      var active := activeJobs.runs;
      assert forall i :: 0 <= i < |active| ==> active[i] in active;
      OnNodeFrame(active);
    }

    /**
     * `assignNewJobs`: every queued run, oldest first, is offered to the
     * nodes; those that start leave the queue for the active set, the
     * others stay queued in their order. The `p`-th run looked at starts,
     * if it does, as the process `children[p]`. The whole pass is the fold
     * `Pass` of `Plan`'s decisions over the queue's jobs.
     */
    method AssignNewJobs(children: seq<Child>) returns (ghost moved: seq<Run>)
      requires Valid() && |children| >= |queuedJobs|
      requires forall j, k :: 0 <= j < k < |children| ==> children[j].pid != children[k].pid
      requires PidsFree(children, 0)
      modifies this`nodes, this`fs, this`queuedJobs, this`buildNums, this`builds, this`sent, activeJobs`runs
      modifies queuedJobs`wd, queuedJobs`scripts, queuedJobs`added, queuedJobs`env, queuedJobs`node
      modifies queuedJobs`laminarHome, queuedJobs`build, queuedJobs`result, queuedJobs`statuses
      modifies queuedJobs`currentScript, queuedJobs`started, queuedJobs`pid, queuedJobs`fd
      ensures Valid()
      ensures Assigned(old(Pool(nodes, fs, buildNums)), old(queuedJobs), old(Names(queuedJobs)), old(Fields(queuedJobs)),
                       old(builds), moved)
      ensures old(builds) <= builds
      ensures Interleaving(old(queuedJobs), queuedJobs, moved)
      ensures activeJobs.runs == old(activeJobs.runs) + moved
      ensures old(sent) <= sent && StartsOnly(sent[|old(sent)|..], |moved|)
      ensures old(fs).existing <= fs.existing
    {
      ghost var s0 := Start(queuedJobs, Names(queuedJobs), Pool(nodes, fs, buildNums), Fields(queuedJobs),
                            activeJobs.runs, builds, sent, fs.existing);
      ghost var t, p, i;
      moved, t, p, i := Sweep(children, s0);
      TracedDone(s0, p, i, moved, t, Now(s0.queue));
      PickedLeftInterleave(s0.queue, t.atts);
      ScanDone(jobTags, homeDir, s0.pool, s0.queue, s0.jobs, t);
    }

    /**
     * `assignNewJobs` right after the run `r` of `name` joined the back of
     * the queue `q`: the state it starts from is named (the pool `st`, the
     * names `n` and fields `f` of the whole queue, the history `b`, the
     * messages `s0` sent before `r` was queued); `r` keeps what it was made
     * from.
     */
    method AssignQueued(children: seq<Child>, r: Run, name: string, ghost st: Pool,
                        ghost q: seq<Run>, ghost n: seq<string>, ghost f: seq<(Option<nat>, int, int)>,
                        ghost b: seq<(string, int)>, ghost s0: seq<Message>)
      returns (ghost moved: seq<Run>)
      requires Valid() && |children| >= |queuedJobs|
      requires forall j, k :: 0 <= j < k < |children| ==> children[j].pid != children[k].pid
      requires PidsFree(children, 0)
      requires st == Pool(nodes, fs, buildNums) && queuedJobs == q + [r] && b == builds && sent == s0 + [JobQueued(name)]
      requires n == Names(queuedJobs) && f == Fields(queuedJobs)
      modifies this`nodes, this`fs, this`queuedJobs, this`buildNums, this`builds, this`sent, activeJobs`runs
      modifies q`wd, q`scripts, q`added, q`env, q`node, q`laminarHome, q`build, q`result, q`statuses
      modifies q`currentScript, q`started, q`pid, q`fd
      modifies r`wd, r`scripts, r`added, r`env, r`node, r`laminarHome, r`build, r`result, r`statuses
      modifies r`currentScript, r`started, r`pid, r`fd
      ensures Valid() && Origin(r) == old(Origin(r))
      ensures Assigned(st, q + [r], n, f, b, moved) && b <= builds
      ensures Interleaving(q + [r], queuedJobs, moved)
      ensures activeJobs.runs == old(activeJobs.runs) + moved
      ensures s0 + [JobQueued(name)] <= sent && StartsOnly(sent[|s0| + 1..], |moved|)
      ensures st.fs.existing <= fs.existing
    {
      moved := AssignNewJobs(children);
      StartsAfterQueued(s0, old(sent), sent, name, |moved|);
    }

    /**
     * The state after a pass of `assignNewJobs` from the pool `st` and the
     * build history `builds0` over the queue `runs`, of the jobs `jobs`,
     * whose node, build and pid were `before`: the pool is the fold `Pass`
     * of the turns' decisions; the runs started are `moved` and those kept
     * are the queue, each in queue order; the builds started extend the
     * history; each run started carries its turn's node and build and
     * every other run kept its node, build and pid; no run left queued
     * could start now; and no job's last build number went down.
     */
    ghost predicate Assigned(st: Pool, runs: seq<Run>, jobs: seq<string>, before: seq<(Option<nat>, int, int)>,
                             builds0: seq<(string, int)>, moved: seq<Run>)
      reads this, runs, queuedJobs
    {
      && |runs| == |jobs|
      && (forall job :: BuildNum(st.buildNums, job) <= BuildNum(buildNums, job))
      && (forall x :: x in queuedJobs ==>
            Plan(jobTags, nodes, fs, homeDir, buildNums, x.name).NoNode? ||
            Plan(jobTags, nodes, fs, homeDir, buildNums, x.name).NoWorkdir?)
      && var atts := Attempts(jobTags, homeDir, st, jobs);
      && Pool(nodes, fs, buildNums) == Pass(jobTags, homeDir, st, jobs)
      && moved == Picked(runs, atts) && queuedJobs == Left(runs, atts)
      && builds == builds0 + History(jobs, atts)
      && Placed(Fields(runs), before, atts)
    }

    /** The parts of the state a pass of `assignNewJobs` changes, with the fields of the runs `q0`. */
    ghost function Now(q0: seq<Run>): View
      reads this, activeJobs, q0
    {
      View(queuedJobs, activeJobs.runs, builds, sent, Pool(nodes, fs, buildNums), Fields(q0))
    }

    /**
     * State `v` of the `assignNewJobs` loop after the first `p` turns, from
     * the state `s0` the pass started in: the trace `t` of those turns, the
     * runs `moved` they started, and the `i` runs they kept at the front
     * of the queue, whose rest is the original queue not yet looked at.
     */
    ghost predicate Traced(s0: Start, p: nat, i: nat, moved: seq<Run>, t: Trace, v: View) {
      && |s0.queue| == |s0.jobs| && p <= |s0.queue|
      && Scan(jobTags, homeDir, s0.pool, s0.jobs, p) == t && t.pool == v.pool
      && moved == Picked(s0.queue[..p], t.atts) && i == |Left(s0.queue[..p], t.atts)|
      && v.queue == Left(s0.queue[..p], t.atts) + s0.queue[p..]
      && v.active == s0.active + moved && v.builds == s0.builds + t.history
      && Placed(v.fields, s0.fields, t.atts)
      && s0.sent <= v.sent && StartsOnly(v.sent[|s0.sent|..], |moved|) && s0.existing <= v.pool.fs.existing
    }

    /**
     * One turn's effect on the queue, the active runs, the build history,
     * the messages and the pool, from state `v0` to `v1`: decision `a` for
     * the run `r` of job `name` at queue index `i`.
     */
    ghost predicate Moved(v0: View, v1: View, a: Attempt, r: Run, name: string, i: nat) {
      && a == Plan(jobTags, v0.pool.nodes, v0.pool.fs, homeDir, v0.pool.buildNums, name)
      && v1.pool == Turn(jobTags, homeDir, v0.pool, name)
      && v1.builds == v0.builds + (if a.Started? then [(name, a.build)] else [])
      && i < |v0.queue| && v1.queue == (if a.Started? then v0.queue[..i] + v0.queue[i + 1..] else v0.queue)
      && v1.active == v0.active + (if a.Started? then [r] else [])
      && (a.Started? ==> |v1.sent| == |v0.sent| + 1 && v0.sent <= v1.sent && v1.sent[|v0.sent|].JobStarted?)
      && (!a.Started? ==> v1.sent == v0.sent)
      && v0.pool.fs.existing <= v1.pool.fs.existing
    }

    /**
     * The whole of one turn's effect: `Moved`, and the run, the `p`-th of
     * the pass, is the only one whose node, build and pid change, to `x`.
     */
    ghost predicate Stepped(v0: View, v1: View, a: Attempt, r: Run, name: string, i: nat, p: nat,
                            x: (Option<nat>, int, int)) {
      && Moved(v0, v1, a, r, name, i)
      && p < |v0.fields| && v1.fields == v0.fields[p := x]
      && (a.Started? ==> x.1 == a.build && x.0 == Some(a.node))
      && (!a.Started? ==> x == v0.fields[p])
    }

    /** A turn extends the loop state by its decision. */
    lemma TracedStep(s0: Start, p: nat, i: nat, moved: seq<Run>, t: Trace, v0: View, v1: View, a: Attempt, r: Run,
                     x: (Option<nat>, int, int))
      requires Traced(s0, p, i, moved, t, v0) && p < |s0.queue| && s0.queue[p] == r
      requires Stepped(v0, v1, a, r, s0.jobs[p], i, p, x)
      ensures Traced(s0, p + 1, if a.Started? then i else i + 1, moved + (if a.Started? then [r] else []),
                     Trace(v1.pool, t.atts + [a], t.history + (if a.Started? then [(s0.jobs[p], a.build)] else [])), v1)
    {
      var kept := Left(s0.queue[..p], t.atts);
      var t' := Trace(v1.pool, t.atts + [a], t.history + (if a.Started? then [(s0.jobs[p], a.build)] else []));
      ScanStep(jobTags, homeDir, s0.pool, s0.jobs, p, t, a, t');
      PickedStep(s0.queue, t.atts, a, p);
      QueueStep(v0.queue, v1.queue, kept, s0.queue, p, i, a.Started?);
      PlacedStep(v0.fields, v1.fields, s0.fields, t.atts, a, x);
      AppendAssoc(s0.active, moved, if a.Started? then [r] else []);
      AppendAssoc(s0.builds, t.history, if a.Started? then [(s0.jobs[p], a.build)] else []);
      if a.Started? {
        StartsOnlyStep(v0.sent, v1.sent, |s0.sent|, |moved|);
      }
    }

    /** Before the first turn, the loop state is the state the pass started in. */
    lemma TracedInit(s0: Start, v: View)
      requires |s0.queue| == |s0.jobs| && |s0.fields| == |s0.queue|
      requires v == View(s0.queue, s0.active, s0.builds, s0.sent, s0.pool, s0.fields) && s0.existing <= s0.pool.fs.existing
      ensures Traced(s0, 0, 0, [], Trace(s0.pool, [], []), v)
    {
      assert s0.queue[..0] == [] && s0.queue[0..] == s0.queue && s0.sent[|s0.sent|..] == [];
    }

    /** Once no run is left to look at, every turn was taken: the loop state covers the whole queue. */
    lemma TracedDone(s0: Start, p: nat, i: nat, moved: seq<Run>, t: Trace, v: View)
      requires Traced(s0, p, i, moved, t, v) && i >= |v.queue|
      ensures p == |s0.queue| && Scan(jobTags, homeDir, s0.pool, s0.jobs, |s0.queue|) == t
      ensures moved == Picked(s0.queue, t.atts) && v.queue == Left(s0.queue, t.atts)
    {
      assert p == |s0.queue| && s0.queue[..p] == s0.queue && s0.queue[p..] == [];
    }

    /** The loop state of `assignNewJobs`, in the current state. */
    ghost predicate Swept(s0: Start, children: seq<Child>, p: nat, i: nat, moved: seq<Run>, t: Trace)
      reads this, activeJobs, activeJobs.runs, queuedJobs, s0.queue
    {
      Valid() && Named(s0.queue, s0.jobs) && PidsFree(children, p) && Traced(s0, p, i, moved, t, Now(s0.queue))
    }

    /**
     * The loop of `assignNewJobs`, with the trace `t` of its turns over
     * the jobs of the queue: the runs it started are `moved`, those it
     * kept are the new queue.
     */
    method Sweep(children: seq<Child>, ghost s0: Start) returns (ghost moved: seq<Run>, ghost t: Trace, ghost p: nat,
                                                          ghost i: nat)
      requires Valid() && |children| >= |queuedJobs|
      requires forall j, k :: 0 <= j < k < |children| ==> children[j].pid != children[k].pid
      requires PidsFree(children, 0)
      requires s0 == Start(queuedJobs, Names(queuedJobs), Pool(nodes, fs, buildNums), Fields(queuedJobs),
                           activeJobs.runs, builds, sent, fs.existing)
      modifies this`nodes, this`fs, this`queuedJobs, this`buildNums, this`builds, this`sent, activeJobs`runs
      modifies s0.queue`wd, s0.queue`scripts, s0.queue`added, s0.queue`env, s0.queue`node
      modifies s0.queue`laminarHome, s0.queue`build, s0.queue`result, s0.queue`statuses
      modifies s0.queue`currentScript, s0.queue`started, s0.queue`pid, s0.queue`fd
      ensures Valid() && Named(s0.queue, s0.jobs)
      ensures Traced(s0, p, i, moved, t, Now(s0.queue)) && i >= |queuedJobs|
    {
      t, moved := Trace(s0.pool, [], []), [];
      var p': nat, i': nat := 0, 0;
      TracedInit(s0, Now(s0.queue));
      while i' < |queuedJobs|
        invariant Swept(s0, children, p', i', moved, t)
        decreases |s0.queue| - p'
      {
        i', moved, t := AdvanceOne(children, s0, p', i', moved, t);
        p' := p' + 1;
      }
      p, i := p', i';
    }

    /** One turn of the `assignNewJobs` loop: `AssignOne` for the run `queuedJobs[i]`, the `p`-th looked at. */
    method AdvanceOne(children: seq<Child>, ghost s0: Start, p: nat, i: nat, ghost moved: seq<Run>, ghost t: Trace)
      returns (i': nat, ghost moved': seq<Run>, ghost t': Trace)
      requires Swept(s0, children, p, i, moved, t) && i < |queuedJobs|
      requires |children| >= |s0.queue| && Distinct(s0.queue)
      requires forall j, k :: 0 <= j < k < |children| ==> children[j].pid != children[k].pid
      modifies this`nodes, this`fs, this`queuedJobs, this`buildNums, this`builds, this`sent, activeJobs`runs
      modifies s0.queue`wd, s0.queue`scripts, s0.queue`added, s0.queue`env, s0.queue`node
      modifies s0.queue`laminarHome, s0.queue`build, s0.queue`result, s0.queue`statuses
      modifies s0.queue`currentScript, s0.queue`started, s0.queue`pid, s0.queue`fd
      ensures Swept(s0, children, p + 1, i', moved', t')
    {
      ghost var v0 := Now(s0.queue);
      QueueAt(Left(s0.queue[..p], t.atts), s0.queue, p);
      var r := queuedJobs[i];
      var a := AssignOne(r, i, children, p, s0.queue);
      TracedStep(s0, p, i, moved, t, v0, Now(s0.queue), a, r, (r.node, r.build, r.pid));
      i', moved' := if a.Started? then i else i + 1, moved + (if a.Started? then [r] else []);
      t' := Trace(Pool(nodes, fs, buildNums), t.atts + [a], t.history + (if a.Started? then [(s0.jobs[p], a.build)] else []));
    }

    /**
     * `TryAssign` for the run at queue index `i`, which is `q0[p]` and
     * nowhere else in `q0`, with the pids of the children from `p` on
     * still unused: its effect on the state is the turn `Stepped` for its
     * decision, and no other run of `q0` changes its node, build or pid.
     */
    method AssignOne(r: Run, i: nat, children: seq<Child>, p: nat, ghost q0: seq<Run>) returns (a: Attempt)
      requires Valid() && i < |queuedJobs| && queuedJobs[i] == r && p < |children|
      requires forall j, k :: 0 <= j < k < |children| ==> children[j].pid != children[k].pid
      requires PidsFree(children, p)
      requires p < |q0| && q0[p] == r && forall k :: 0 <= k < |q0| && k != p ==> q0[k] != r
      modifies this`nodes, this`fs, this`queuedJobs, this`buildNums, this`builds, this`sent, activeJobs`runs
      modifies r`wd, r`scripts, r`added, r`env, r`node, r`laminarHome, r`build
      modifies r`result, r`statuses, r`currentScript, r`started, r`pid, r`fd
      ensures Valid() && PidsFree(children, p + 1)
      ensures Stepped(old(Now(q0)), Now(q0), a, r, r.name, i, p, (r.node, r.build, r.pid))
    {
      ghost var f0 := Fields(q0);
      a := MoveOne(r, i, children, p, q0);
      assert forall k :: 0 <= k < |q0| && k != p ==> q0[k] != r;
      FieldsOneChanged(q0, p, f0);
    }

    /** `TryAssign` for the run at queue index `i`, with the pids of the children from `p` on still unused. */
    method MoveOne(r: Run, i: nat, children: seq<Child>, p: nat, ghost q0: seq<Run>) returns (a: Attempt)
      requires Valid() && i < |queuedJobs| && queuedJobs[i] == r && p < |children|
      requires forall j, k :: 0 <= j < k < |children| ==> children[j].pid != children[k].pid
      requires PidsFree(children, p)
      modifies this`nodes, this`fs, this`queuedJobs, this`buildNums, this`builds, this`sent, activeJobs`runs
      modifies r`wd, r`scripts, r`added, r`env, r`node, r`laminarHome, r`build
      modifies r`result, r`statuses, r`currentScript, r`started, r`pid, r`fd
      ensures Valid() && PidsFree(children, p + 1)
      ensures Moved(old(Now(q0)), Now(q0), a, r, r.name, i)
      ensures a.Started? ==> r.build == a.build && r.node == Some(a.node)
      ensures !a.Started? ==> r.node == old(r.node) && r.build == old(r.build) && r.pid == old(r.pid)
    {
      a := TryAssign(r, i, children[p]);
    }

    /**
     * One turn of the `assignNewJobs` loop for the queued run at index `i`:
     * the first node admitting it, if any, takes it with the next build
     * number once its working and archive directories exist; the run then
     * gets its scripts and environment files, starts its first script as
     * `child`, and moves from the queue to the active set.
     */
    method TryAssign(r: Run, i: nat, child: Child) returns (a: Attempt)
      requires Valid() && i < |queuedJobs| && queuedJobs[i] == r
      requires forall x :: x in activeJobs.runs ==> x.pid != child.pid
      modifies this`nodes, this`fs, this`queuedJobs, this`buildNums, this`builds, this`sent, activeJobs`runs
      modifies r`wd, r`scripts, r`added, r`env, r`node, r`laminarHome, r`build
      modifies r`result, r`statuses, r`currentScript, r`started, r`pid, r`fd
      ensures Valid()
      ensures a == Plan(jobTags, old(nodes), old(fs), homeDir, old(buildNums), r.name)
      ensures fs == PlannedFs(old(fs), homeDir, r.name, a)
      ensures (a.Started? || a.NoArchive?) ==> r.wd == WorkDir(homeDir, r.name, a.build)
      ensures a.Started? ==>
        && queuedJobs == old(queuedJobs[..i] + queuedJobs[i + 1..])
        && activeJobs.runs == old(activeJobs.runs) + [r]
        && nodes == Occupy(old(nodes), a.node)
        && buildNums == old(buildNums)[r.name := a.build]
        && builds == old(builds) + [(r.name, a.build)]
        && r.build == a.build && r.node == Some(a.node) && r.pid == child.pid
        && sent == old(sent) + [JobStarted(QueueIndexAsWritten(i), r.name, a.build, r.Reason())]
      ensures !a.Started? ==>
        && queuedJobs == old(queuedJobs) && activeJobs.runs == old(activeJobs.runs)
        && nodes == old(nodes) && sent == old(sent) && builds == old(builds)
        && buildNums == old(buildNums)
        && r.node == old(r.node) && r.build == old(r.build) && r.pid == old(r.pid)
        && (!a.NoArchive? ==> r.wd == old(r.wd))
    {
      a := Reserve(r.name);
      if a.Started? {
        Admit(r, i, a, child);
      } else {
        KeepQueued(r, a);
      }
    }

    /** A turn that leaves the run queued: only a working directory created before the archive failed is recorded. */
    method KeepQueued(r: Run, a: Attempt)
      requires Valid() && !a.Started?
      modifies r`wd
      ensures Valid()
      ensures a.NoArchive? ==> r.wd == WorkDir(homeDir, r.name, a.build)
      ensures !a.NoArchive? ==> r.wd == old(r.wd)
    {
      if a.NoArchive? {
        // the run's working directory is recorded as soon as it exists
        r.wd := WorkDir(homeDir, r.name, a.build);
      }
    }

    /** The part of a turn that cannot fail once the directories exist. */
    method Admit(r: Run, i: nat, a: Attempt, child: Child)
      requires Valid() && i < |queuedJobs| && queuedJobs[i] == r && a.Started?
      requires a.node < |nodes| && nodes[a.node].busyExecutors < nodes[a.node].numExecutors
      requires a.build == BuildNum(buildNums, r.name) + 1
      requires forall x :: x in activeJobs.runs ==> x.pid != child.pid
      modifies this`nodes, this`queuedJobs, this`buildNums, this`builds, this`sent, activeJobs`runs
      modifies r`wd, r`scripts, r`added, r`env, r`node, r`laminarHome, r`build
      modifies r`result, r`statuses, r`currentScript, r`started, r`pid, r`fd
      ensures Valid() && r.wd == WorkDir(homeDir, r.name, a.build)
      ensures queuedJobs == old(queuedJobs[..i] + queuedJobs[i + 1..])
        && activeJobs.runs == old(activeJobs.runs) + [r]
        && nodes == Occupy(old(nodes), a.node)
        && buildNums == old(buildNums)[r.name := a.build]
        && builds == old(builds) + [(r.name, a.build)]
        && r.build == a.build && r.node == Some(a.node) && r.pid == child.pid
        && sent == old(sent) + [JobStarted(QueueIndexAsWritten(i), r.name, a.build, r.Reason())]
    {
      Unqueue(r, i, WorkDir(homeDir, r.name, a.build));
      StartRun(r, a.node, a.build, QueueIndexAsWritten(i), child);
    }

    /** The run at queue index `i` records its new working directory `wd` and leaves the queue. */
    method Unqueue(r: Run, i: nat, wd: string)
      requires Valid() && i < |queuedJobs| && queuedJobs[i] == r
      modifies this`queuedJobs, r`wd
      ensures Valid() && r.wd == wd
      ensures queuedJobs == old(queuedJobs[..i] + queuedJobs[i + 1..])
      ensures r !in queuedJobs && r !in activeJobs.runs && Waiting(r)
    {
      // the run's working directory is recorded as soon as it exists
      r.wd := wd;
      Dequeue(i);
    }

    /**
     * The part of a turn that can fail: the first node admitting the run,
     * then its working directory (which must be new) and its archive
     * directory (which may already exist) for the job's next build.
     */
    method Reserve(name: string) returns (a: Attempt)
      modifies this`fs
      ensures a == Plan(jobTags, nodes, old(fs), homeDir, buildNums, name)
      ensures fs == PlannedFs(old(fs), homeDir, name, a)
    {
      var k := FirstAdmittingNode(jobTags, nodes, name);
      if k.None? {
        return NoNode;
      }
      var build := BuildNum(buildNums, name) + 1;
      var wd := WorkDir(homeDir, name, build);
      if !fs.CanCreate(wd) {
        return NoWorkdir(k.value, build);
      }
      fs := fs.Created(wd);
      var archive := ArchiveDir(homeDir, name, build);
      if fs.Exists(archive) {
        // only a warning: the existing directory is reused
      } else if !fs.CanCreate(archive) {
        return NoArchive(k.value, build);
      } else {
        fs := fs.Created(archive);
      }
      a := Started(k.value, build);
    }

    /** `queuedJobs.erase(it)` for a run about to become active. */
    method Dequeue(i: nat)
      requires Valid() && i < |queuedJobs|
      modifies this`queuedJobs
      ensures Valid()
      ensures queuedJobs == old(queuedJobs[..i] + queuedJobs[i + 1..])
      ensures old(queuedJobs[i]) !in queuedJobs && old(queuedJobs[i]) !in activeJobs.runs
      ensures Waiting(old(queuedJobs[i]))
    {
      DequeueKeeps(activeJobs.runs, queuedJobs, nodes, buildNums, builds, i);
      queuedJobs := queuedJobs[..i] + queuedJobs[i + 1..];
    }

    /**
     * The start of a dequeued run on node `k` as build `build`: its
     * scripts and environment files, its first script as `child`, and the
     * scheduler's bookkeeping.
     */
    method StartRun(r: Run, k: nat, build: nat, index: Option<int>, child: Child)
      requires Valid() && r !in queuedJobs && r !in activeJobs.runs && Waiting(r)
      requires k < |nodes| && nodes[k].busyExecutors < nodes[k].numExecutors
      requires build == BuildNum(buildNums, r.name) + 1
      requires forall x :: x in activeJobs.runs ==> x.pid != child.pid
      modifies this`nodes, this`buildNums, this`builds, this`sent, activeJobs`runs
      modifies r`scripts, r`added, r`env, r`node, r`laminarHome, r`build
      modifies r`result, r`statuses, r`currentScript, r`started, r`pid, r`fd
      ensures Valid()
      ensures activeJobs.runs == old(activeJobs.runs) + [r]
      ensures nodes == Occupy(old(nodes), k)
      ensures buildNums == old(buildNums)[r.name := build]
      ensures builds == old(builds) + [(r.name, build)]
      ensures r.build == build && r.node == Some(k) && r.laminarHome == homeDir
      ensures Prepared(r, fs, homeDir, old(nodes[k].name))
      ensures r.started == [r.added[0]] && r.pid == child.pid && r.fd == child.fd
      ensures r.result == old(r.result)
      ensures sent == old(sent) + [JobStarted(index, r.name, build, r.Reason())]
    {
      ghost var active0, nodes0, buildNums0, builds0 := activeJobs.runs, nodes, buildNums, builds;
      label entry:
      Prepare(r, fs, homeDir, nodes[k].name);
      Launch(r, k, homeDir, build, child);
      ScheduledFrame@entry(Snapshot(active0, queuedJobs, nodes0, buildNums0, builds0));
      StartKeeps(active0, queuedJobs, nodes0, buildNums0, builds0, r, k);
      NoClash(active0, |nodes|, buildNums, r);
      Commit(r, k, build, index);
    }

    /**
     * The scheduler's half of a start, once the run itself is launched:
     * the node's executor, the job's build number, the `job_started`
     * message and the insertion into the active set.
     */
    method Commit(r: Run, k: nat, build: nat, index: Option<int>)
      requires activeJobs.Valid() && !Clashes(activeJobs.runs, r) && k < |nodes|
      requires Scheduled(activeJobs.runs + [r], queuedJobs, Occupy(nodes, k), buildNums[r.name := build],
                         builds + [(r.name, build)])
      requires Ticketed(waiters, released, nextTicket)
      modifies this`nodes, this`buildNums, this`builds, this`sent, activeJobs`runs
      ensures Valid()
      ensures activeJobs.runs == old(activeJobs.runs) + [r]
      ensures nodes == Occupy(old(nodes), k)
      ensures buildNums == old(buildNums)[r.name := build]
      ensures builds == old(builds) + [(r.name, build)]
      ensures sent == old(sent) + [JobStarted(index, r.name, build, r.Reason())]
    {
      label entry:
      var inserted := activeJobs.Insert(r);
      assert inserted;
      nodes, buildNums, builds, sent :=
        Occupy(nodes, k),
        buildNums[r.name := build],
        builds + [(r.name, build)],
        sent + [JobStarted(index, r.name, build, r.Reason())];
      ScheduledFrame@entry(Snapshot(activeJobs.runs, queuedJobs, nodes, buildNums, builds));
    }

    /**
     * `runFinished`: the run's executor is freed, clients hear the
     * completion with the latched result, every waiter for the run is
     * released with that result, the working directory is removed and the
     * run leaves the active set.
     */
    method RunFinished(r: Run)
      requires Valid() && r in activeJobs.runs
      modifies this`nodes, this`fs, this`sent, this`waiters, this`released, activeJobs`runs
      ensures Valid()
      ensures r.node.Some? && r.node.value < |old(nodes)| && old(nodes)[r.node.value].busyExecutors > 0
      ensures nodes == Vacate(old(nodes), r.node.value)
      ensures activeJobs.runs == Without(old(activeJobs.runs), r)
      ensures sent == old(sent) + [JobCompleted(r.name, r.build, r.result, r.Reason())]
      ensures released == Release(old(released), TicketsOf(old(waiters), r), r.result)
      ensures waiters == old(waiters) - {r}
      ensures fs == old(fs).Removed(r.wd)
      ensures queuedJobs == old(queuedJobs)
    {
      Retire(r);
      ReleaseWaiters(r);
    }

    /** The executor, the `job_completed` message, the working directory and the active set. */
    method Retire(r: Run)
      requires Valid() && r in activeJobs.runs
      modifies this`nodes, this`fs, this`sent, activeJobs`runs
      ensures Valid()
      ensures r.node.Some? && r.node.value < |old(nodes)| && old(nodes)[r.node.value].busyExecutors > 0
      ensures nodes == Vacate(old(nodes), r.node.value)
      ensures activeJobs.runs == Without(old(activeJobs.runs), r)
      ensures sent == old(sent) + [JobCompleted(r.name, r.build, r.result, r.Reason())]
      ensures fs == old(fs).Removed(r.wd)
    {
      ghost var active0 := activeJobs.runs;
      FinishKeeps(active0, queuedJobs, nodes, buildNums, builds, r);
      label entry:
      nodes, sent, fs :=
        Vacate(nodes, r.node.value),
        sent + [JobCompleted(r.name, r.build, r.result, r.Reason())],
        fs.Removed(r.wd);
      activeJobs.Erase(r);
      ScheduledFrame@entry(Snapshot(Without(active0, r), queuedJobs, nodes, buildNums, builds));
    }

    /** The waiters loop of `runFinished`: each of the run's tickets, in order, receives its result. */
    method ReleaseWaiters(r: Run)
      requires Valid()
      modifies this`waiters, this`released
      ensures Valid()
      ensures released == Release(old(released), TicketsOf(old(waiters), r), r.result)
      ensures waiters == old(waiters) - {r}
    {
      var tickets := if r in waiters then waiters[r] else [];
      for j := 0 to |tickets|
        invariant released == Release(old(released), tickets[..j], r.result)
        invariant waiters == old(waiters)
        invariant forall t :: t in released ==> t < nextTicket
      {
        assert tickets[j] in tickets && tickets[..j + 1][..j] == tickets[..j];
        released := released[tickets[j] := r.result];
      }
      assert tickets[..|tickets|] == tickets;
      waiters := waiters - {r};
    }

    /**
     * `queueJob`: refused (null) for a job without a `.run` script or whose
     * workspace is missing and cannot be created; otherwise a new run joins
     * the back of the queue, clients hear `job_queued`, and the queue is
     * offered to the nodes.
     */
    method QueueJob(name: string, params: map<string, string>, children: seq<Child>)
      returns (r: Run?, ghost moved: seq<Run>)
      requires Valid() && |children| > |queuedJobs|
      requires forall j, k :: 0 <= j < k < |children| ==> children[j].pid != children[k].pid
      requires PidsFree(children, 0)
      modifies this`nodes, this`fs, this`queuedJobs, this`buildNums, this`builds, this`sent, activeJobs`runs
      modifies queuedJobs`wd, queuedJobs`scripts, queuedJobs`added, queuedJobs`env, queuedJobs`node
      modifies queuedJobs`laminarHome, queuedJobs`build, queuedJobs`result, queuedJobs`statuses
      modifies queuedJobs`currentScript, queuedJobs`started, queuedJobs`pid, queuedJobs`fd
      ensures Valid()
      ensures r == null <==>
        || !old(fs).Exists(JobFile(homeDir, name, ".run"))
        || (!old(fs).Exists(Workspace(homeDir, name)) && !old(fs).CanCreate(Workspace(homeDir, name)))
      ensures r == null ==> fs == old(fs) && queuedJobs == old(queuedJobs) && sent == old(sent)
                            && activeJobs.runs == old(activeJobs.runs) && moved == []
      ensures r != null ==> fresh(r) && r.name == name && (r in queuedJobs || r in activeJobs.runs)
      ensures r != null ==> MadeFrom(r, name, params)
      ensures old(builds) <= builds
      ensures r != null ==> Interleaving(old(queuedJobs) + [r], queuedJobs, moved)
                            && activeJobs.runs == old(activeJobs.runs) + moved
      ensures r != null ==> old(sent) + [JobQueued(name)] <= sent && StartsOnly(sent[|old(sent)| + 1..], |moved|)
      ensures r != null ==> fs.Exists(Workspace(homeDir, name)) && old(fs).existing <= fs.existing
      ensures r != null ==>
        var ws := Workspace(homeDir, name);
        Assigned(Pool(old(nodes), if old(fs).Exists(ws) then old(fs) else old(fs).Created(ws), old(buildNums)),
                 old(queuedJobs) + [r], Names(old(queuedJobs)) + [name], old(Fields(queuedJobs)) + [(None, 0, 0)],
                 old(builds), moved)
    {
      moved := [];
      if !fs.Exists(JobFile(homeDir, name, ".run")) {
        return null, [];
      }
      var workspace := Workspace(homeDir, name);
      if !fs.Exists(workspace) {
        if !fs.CanCreate(workspace) {
          return null, [];
        }
        fs := fs.Created(workspace);
      }
      var run;
      run, moved := Submit(name, params, children,
                           Pool(old(nodes), if old(fs).Exists(workspace) then old(fs) else old(fs).Created(workspace),
                                old(buildNums)),
                           old(queuedJobs), old(Fields(queuedJobs)), old(builds), old(sent), old(activeJobs.runs));
      r := run;
    }

    /**
     * A new run of `name` is queued and the queue is offered to the nodes.
     * The state it starts from is named: the pool `st`, the queue `q` and
     * its fields `f`, the history `b`, the messages `s0` and the active
     * runs `a0`.
     */
    method Submit(name: string, params: map<string, string>, children: seq<Child>, ghost st: Pool, ghost q: seq<Run>,
                  ghost f: seq<(Option<nat>, int, int)>, ghost b: seq<(string, int)>, ghost s0: seq<Message>,
                  ghost a0: seq<Run>)
      returns (r: Run, ghost moved: seq<Run>)
      requires Valid() && |children| > |queuedJobs|
      requires forall j, k :: 0 <= j < k < |children| ==> children[j].pid != children[k].pid
      requires PidsFree(children, 0)
      requires st == Pool(nodes, fs, buildNums) && q == queuedJobs && f == Fields(queuedJobs)
      requires b == builds && s0 == sent && a0 == activeJobs.runs
      modifies this`nodes, this`fs, this`queuedJobs, this`buildNums, this`builds, this`sent, activeJobs`runs
      modifies queuedJobs`wd, queuedJobs`scripts, queuedJobs`added, queuedJobs`env, queuedJobs`node
      modifies queuedJobs`laminarHome, queuedJobs`build, queuedJobs`result, queuedJobs`statuses
      modifies queuedJobs`currentScript, queuedJobs`started, queuedJobs`pid, queuedJobs`fd
      ensures Valid()
      ensures fresh(r) && MadeFrom(r, name, params)
      ensures Assigned(st, q + [r], Names(q) + [name], f + [(None, 0, 0)], b, moved) && b <= builds
      ensures Interleaving(q + [r], queuedJobs, moved) && (r in queuedJobs || r in activeJobs.runs)
      ensures activeJobs.runs == a0 + moved
      ensures s0 + [JobQueued(name)] <= sent && StartsOnly(sent[|s0| + 1..], |moved|)
      ensures st.fs.existing <= fs.existing
    {
      r := Enqueue(name, params, children);
      NamesFieldsSnoc(q, r);
      label queued:
      moved := AssignQueued(children, r, name, st, q, Names(q) + [name], f + [(None, 0, 0)], b, s0);
      MadeFromKept@queued(r);
      InterleavingMember(q + [r], queuedJobs, moved, r);
    }

    /**
     * A new run of `name` joins the back of the queue and clients hear
     * `job_queued`; no active run changes, so `children` stay free.
     */
    method Enqueue(name: string, params: map<string, string>, children: seq<Child>) returns (r: Run)
      requires Valid() && PidsFree(children, 0)
      modifies this`queuedJobs, this`sent
      ensures Valid() && PidsFree(children, 0) && fresh(r) && r.name == name && (r.node, r.build, r.pid) == (None, 0, 0)
      ensures queuedJobs == old(queuedJobs) + [r] && sent == old(sent) + [JobQueued(name)]
      ensures MadeFrom(r, name, params)
    {
      ghost var queue := queuedJobs;
      label entry:
      r := NewRun(name, params);
      ScheduledFrame@entry(Snapshot(activeJobs.runs, queue, nodes, buildNums, builds));
      EnqueueKeeps(activeJobs.runs, queue, nodes, buildNums, builds, r);
      queuedJobs, sent := queuedJobs + [r], sent + [JobQueued(r.name)];
    }

    /**
     * `waitForRun(name, num)`: for an active run a ticket that its
     * completion releases; for any other (unknown, or already finished)
     * UNKNOWN at once.
     */
    method WaitForRun(name: string, num: int) returns (w: Wait)
      requires Valid()
      modifies this`waiters, this`nextTicket
      ensures Valid()
      ensures var r := FindKey(activeJobs.runs, name, num);
        && (r == null ==> w == Resolved(UNKNOWN) && waiters == old(waiters) && nextTicket == old(nextTicket))
        && (r != null ==> w == Pending(old(nextTicket))
                          && waiters == old(waiters)[r := TicketsOf(old(waiters), r) + [w.ticket]])
    {
      var r := FindKey(activeJobs.runs, name, num);
      if r == null {
        return Resolved(UNKNOWN);
      }
      var t := WaitForRunObj(r);
      w := Pending(t);
    }

    /** `waitForRun(run)`: a new ticket, never handed out before, joins the run's waiters. */
    method WaitForRunObj(r: Run) returns (t: nat)
      requires Valid()
      modifies this`waiters, this`nextTicket
      ensures Valid()
      ensures t == old(nextTicket) && t !in released && forall x :: x in old(waiters) ==> t !in old(waiters)[x]
      ensures waiters == old(waiters)[r := TicketsOf(old(waiters), r) + [t]]
    {
      t := nextTicket;
      waiters := waiters[r := TicketsOf(waiters, r) + [t]];
      nextTicket := nextTicket + 1;
    }

    /** `setParam`: only an active run takes the parameter; every other run is left alone. */
    method SetParam(job: string, num: int, param: string, value: string) returns (ok: bool)
      modifies activeJobs.runs`params
      ensures ok <==> FindKey(activeJobs.runs, job, num) != null
      ensures ok ==> var r := FindKey(activeJobs.runs, job, num); r.params == old(r.params)[param := value]
      ensures forall x :: x in activeJobs.runs && x != FindKey(activeJobs.runs, job, num) ==> x.params == old(x.params)
    {
      var r := FindKey(activeJobs.runs, job, num);
      if r == null {
        return false;
      }
      r.params := r.params[param := value];
      ok := true;
    }

    /**
     * One pass of `reapAdvance`'s loop: the exit status of `pid` reaches its
     * run, which steps on (its next script as `child`) or, with nothing
     * left, is finished.
     */
    method ReapAdvance(pid: int, status: int, child: Child) returns (done: bool)
      requires Valid() && FindPid(activeJobs.runs, pid) != null
      requires forall x :: x in activeJobs.runs && x != FindPid(activeJobs.runs, pid) ==> x.pid != child.pid
      modifies this`nodes, this`fs, this`sent, this`waiters, this`released, activeJobs`runs
      modifies activeJobs.runs`procStatus, activeJobs.runs`result, activeJobs.runs`statuses
      modifies activeJobs.runs`currentScript, activeJobs.runs`scripts, activeJobs.runs`started
      modifies activeJobs.runs`pid, activeJobs.runs`fd
      ensures Valid()
      ensures var r := old(FindPid(activeJobs.runs, pid));
        && r.procStatus == status
        && r.result == (if old(r.currentScript) != "" && status != 0 then FAILED else old(r.result))
        && (done <==> old(r.scripts) == [])
      ensures var r := old(FindPid(activeJobs.runs, pid));
        !done ==> r in activeJobs.runs && r.pid == child.pid && r.currentScript == old(r.scripts)[0]
      ensures !done ==> nodes == old(nodes) && sent == old(sent) && waiters == old(waiters)
                        && released == old(released) && fs == old(fs) && activeJobs.runs == old(activeJobs.runs)
      ensures var r := old(FindPid(activeJobs.runs, pid));
        done ==> r !in activeJobs.runs && (r.result == FAILED <==> Failed(r.statuses))
                 && sent == old(sent) + [JobCompleted(r.name, r.build, r.result, r.Reason())]
      ensures var r := old(FindPid(activeJobs.runs, pid));
        done ==> r.node.Some? && r.node.value < |old(nodes)| && old(nodes)[r.node.value].busyExecutors > 0
                 && nodes == Vacate(old(nodes), r.node.value)
                 && activeJobs.runs == Without(old(activeJobs.runs), r)
      ensures var r := old(FindPid(activeJobs.runs, pid));
        done ==> released == Release(old(released), TicketsOf(old(waiters), r), r.result)
                 && waiters == old(waiters) - {r} && fs == old(fs).Removed(r.wd)
    {
      var r := FindPid(activeJobs.runs, pid);
      done := Advance(r, status, child);
      if done {
        RunFinished(r);
        assert r !in activeJobs.runs by { RemoveAtDistinct(old(activeJobs.runs), 0); }
      }
    }

    /** `reaped` then `stepRun` on an active run. */
    method Advance(r: Run, status: int, child: Child) returns (done: bool)
      requires Valid() && r in activeJobs.runs
      requires forall x :: x in activeJobs.runs && x != r ==> x.pid != child.pid
      modifies r`procStatus, r`result, r`statuses, r`currentScript, r`scripts, r`started, r`pid, r`fd
      ensures Valid()
      ensures r.procStatus == status
      ensures done <==> old(r.scripts) == []
      ensures r.result == if old(r.currentScript) != "" && status != 0 then FAILED else old(r.result)
      ensures done ==> (r.result == FAILED <==> Failed(r.statuses))
      ensures !done ==> r.pid == child.pid && r.currentScript == old(r.scripts)[0]
    {
      ghost var queue := queuedJobs;
      assert r !in queue;
      label entry:
      r.Reaped(status);
      done := r.Step(child.pid, child.fd);
      StepKeeps@entry(r);
    }
  }
}
