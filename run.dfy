/**
 * One execution of a job (class `Run`): its metadata, the FIFO queue of
 * scripts it still has to execute, and the result it latches as those
 * scripts exit. Starting a script (fork and exec) is an opaque action:
 * `Step` is told the pid and the pipe descriptor the fork would produce,
 * and the exit status arrives through `Reaped`.
 */
module Runs {
  import opened Wrappers
  import opened RunStates
  import opened Strings

  const UpstreamPrefix := "Triggered by upstream "

  /**
   * The result latched by a run whose steps observed the exit statuses
   * `statuses` (oldest first): it starts as SUCCESS and becomes FAILED at
   * the first non-zero status.
   */
  function Outcome(statuses: seq<int>): (r: RunState)
    ensures r == SUCCESS || r == FAILED
  {
    if statuses == [] then SUCCESS
    else if statuses[|statuses| - 1] != 0 then FAILED
    else Outcome(statuses[..|statuses| - 1])
  }

  predicate Failed(statuses: seq<int>) {
    exists i :: 0 <= i < |statuses| && statuses[i] != 0
  }

  /** A run ends FAILED exactly when some observed exit status was non-zero. */
  lemma {:induction false} OutcomeFailedIff(statuses: seq<int>)
    ensures Outcome(statuses) == FAILED <==> Failed(statuses)
  {
    if statuses != [] {
      var init := statuses[..|statuses| - 1];
      OutcomeFailedIff(init);
      if Failed(init) {
        var i :| 0 <= i < |init| && init[i] != 0;
        assert statuses[i] != 0;
      }
      if statuses[|statuses| - 1] == 0 && Failed(statuses) {
        var i :| 0 <= i < |statuses| && statuses[i] != 0;
        assert init[i] != 0;
      }
    }
  }

  lemma OutcomeAppend(statuses: seq<int>, status: int)
    ensures Outcome(statuses + [status]) == if status != 0 then FAILED else Outcome(statuses)
  {
    assert (statuses + [status])[..|statuses|] == statuses;
  }

  /** FAILED is sticky: no later status brings a failed run back to SUCCESS. */
  lemma FailedIsSticky(statuses: seq<int>, later: seq<int>)
    requires Outcome(statuses) == FAILED
    ensures Outcome(statuses + later) == FAILED
  {
    OutcomeFailedIff(statuses);
    OutcomeFailedIff(statuses + later);
    var i :| 0 <= i < |statuses| && statuses[i] != 0;
    assert (statuses + later)[i] != 0;
  }

  class Run {
    var node: Option<nat>          // index of the executing node; unset until assigned
    var result: RunState
    var lastResult: RunState
    var laminarHome: string
    const name: string
    var wd: string
    const parentName: string
    const parentBuild: int
    const reasonMsg: string
    var build: int
    var log: string
    var pid: int
    var fd: int
    var procStatus: int
    var params: map<string, string>
    var scripts: seq<string>       // still to execute, front first
    var currentScript: string
    var env: seq<string>

    // The history behind the fields above.
    ghost var statuses: seq<int>   // exit statuses seen by Step after a script had started
    ghost var added: seq<string>   // every script ever passed to AddScript
    ghost var started: seq<string> // every script Step started, in order

    ghost predicate Valid()
      reads this`result, this`statuses, this`added, this`started, this`scripts, this`currentScript
    {
      && result == Outcome(statuses)
      && added == started + scripts
      && (started == [] ==> currentScript == "")
      && (started != [] ==> currentScript == started[|started| - 1])
    }

    /**
     * `Run::Run()` together with the member defaults of `run.h`, given at
     * once the job name and the upstream job, upstream build and reason
     * that `queueJob` sets right after construction and never changes.
     */
    constructor (name: string, parentName: string, parentBuild: int, reasonMsg: string)
      ensures Valid()
      ensures result == SUCCESS && lastResult == UNKNOWN
      ensures this.name == name && this.parentName == parentName
      ensures this.parentBuild == parentBuild && this.reasonMsg == reasonMsg
      ensures build == 0 && pid == 0 && wd == "" && log == "" && laminarHome == ""
      ensures node == None && params == map[]
      ensures scripts == [] && currentScript == "" && env == []
      ensures statuses == [] && added == [] && started == []
    {
      node := None;
      result := SUCCESS;
      lastResult := UNKNOWN;
      this.name, this.parentName, this.parentBuild, this.reasonMsg := name, parentName, parentBuild, reasonMsg;
      laminarHome, wd, log := "", "", "";
      build := 0;
      pid, fd, procStatus := 0, 0, 0;
      params := map[];
      scripts, currentScript, env := [], "", [];
      statuses, added, started := [], [], [];
    }

    /**
     * `Run::reason()`: a run triggered by an upstream job names that job and
     * then its build number (see `ReasonReadsBack`); any other run gives the
     * free-text reason it was queued with.
     */
    function Reason(): (r: string)
      ensures parentName == "" ==> r == reasonMsg
      ensures parentName != "" ==> UpstreamPrefix + parentName + " #" < r
    {
      if parentName != "" then
        UpstreamPrefix + parentName + " #" + IntToString(parentBuild)
      else reasonMsg
    }

    /**
     * `Run::step()`: first latch FAILED if the script that just finished
     * exited non-zero, then start the next script; report true (nothing left
     * to do, the caller must complete the run) iff the queue was empty.
     */
    method Step(forkPid: int, forkFd: int) returns (done: bool)
      requires Valid()
      modifies this`result, this`statuses, this`currentScript, this`scripts, this`started, this`pid, this`fd
      ensures Valid()
      ensures done <==> old(scripts) == []
      ensures result == if old(currentScript) != "" && old(procStatus) != 0 then FAILED else old(result)
      ensures statuses == if old(currentScript) != "" then old(statuses) + [old(procStatus)] else old(statuses)
      ensures !done ==> currentScript == old(scripts)[0] && scripts == old(scripts)[1..]
                        && started == old(started) + [currentScript]
                        && pid == forkPid && fd == forkFd
      ensures done ==> currentScript == old(currentScript) && scripts == [] && started == old(started)
                       && pid == old(pid) && fd == old(fd)
      ensures done ==> (result == FAILED <==> Failed(statuses))
    {
      if currentScript != "" && procStatus != 0 {
        result := FAILED;
      }
      if currentScript != "" {
        OutcomeAppend(statuses, procStatus);
        statuses := statuses + [procStatus];
      }
      if |scripts| > 0 {
        currentScript := scripts[0];
        scripts := scripts[1..];
        started := started + [currentScript];
        // the script is now executing as child process `forkPid`, its output on `forkFd`
        pid, fd := forkPid, forkFd;
        done := false;
      } else {
        done := true;
        OutcomeFailedIff(statuses);
      }
    }

    /** `Run::addScript`: the script joins the back of the queue. */
    method AddScript(script: string)
      requires Valid()
      modifies this`scripts, this`added
      ensures Valid()
      ensures scripts == old(scripts) + [script] && added == old(added) + [script]
    {
      scripts := scripts + [script];
      added := added + [script];
    }

    /** `Run::addEnv`: the environment file joins the back of the list. */
    method AddEnv(path: string)
      modifies this`env
      ensures env == old(env) + [path]
    {
      env := env + [path];
    }

    /** `Run::reaped`: only the exit status is recorded. */
    method Reaped(status: int)
      modifies this`procStatus
      ensures procStatus == status
    {
      procStatus := status;
    }
  }

  /** The number after the upstream job's name in `Reason()` reads back, with atoi, as the upstream build. */
  lemma ReasonReadsBack(run: Run)
    requires run.parentName != ""
    ensures var head := UpstreamPrefix + run.parentName + " #";
      Atoi(run.Reason()[|head|..]) == run.parentBuild
  {
    var head := UpstreamPrefix + run.parentName + " #";
    assert run.Reason()[|head|..] == IntToString(run.parentBuild);
    AtoiOfIntToString(run.parentBuild);
  }
}
