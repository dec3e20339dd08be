/**
 * What the server's `job_*` messages do to the dashboard. The scheduler
 * keeps its queue oldest first and appends to the back; the home page keeps
 * its queued list newest first, putting each `job_queued` record in front
 * and taking a started run out `queueIndex` places from the back. These
 * lemmas show that the two lists stay one the reverse of the other.
 */
module Protocol {
  import opened Wrappers
  import opened RunStates
  import opened Runs
  import Scheduler
  import Dashboard
  import SchedulerRules

  /**
   * The message's `data` as the dashboard reads it; fields the message does
   * not carry read as "" or 0, and an undefined `queueIndex` reads as
   * whatever value `unknown` the server happened to send.
   */
  function EntryOf(m: Scheduler.Message, unknown: int): (e: Dashboard.Entry)
    ensures e.name == m.name
    ensures m.JobStarted? ==> e.number == m.number
    ensures m.JobStarted? && m.queueIndex.Some? ==> e.queueIndex == m.queueIndex.value
    ensures m.JobStarted? && m.queueIndex.None? ==> e.queueIndex == unknown
    ensures m.JobCompleted? ==> e.number == m.number && Parse(e.result) == m.result
  {
    match m
    case JobQueued(name) => Dashboard.Entry(name, 0, "", 0, 0, 0, [])
    case JobStarted(q, name, number, _) => Dashboard.Entry(name, number, "", q.GetOr(unknown), 0, 0, [])
    case JobCompleted(name, number, result, _) => Dashboard.Entry(name, number, ToString(result), 0, 0, 0, [])
  }

  /** The client's list, newest first, names the server's queue, oldest first, back to front. */
  predicate Mirror(server: seq<string>, client: seq<Dashboard.Entry>) {
    |server| == |client| && forall j :: 0 <= j < |client| ==> client[j].name == server[|server| - 1 - j]
  }

  /** `queueJob` appends to the queue; the home page's `job_queued` handler puts the record in front. */
  lemma MirrorEnqueue(server: seq<string>, page: Dashboard.HomeState, name: string, d: Dashboard.Payload)
    requires Mirror(server, page.queued) && d.entry == EntryOf(Scheduler.JobQueued(name), 0)
    ensures Mirror(server + [name], Dashboard.HomeStep(page, "job_queued", d).queued)
  {
  }

  /**
   * A run leaving the queue from position `i` and announced with that
   * position as `queueIndex`: the home page's splice takes out exactly its
   * record, and the lists still mirror each other.
   */
  lemma MirrorStart(server: seq<string>, page: Dashboard.HomeState, m: Scheduler.Message, unknown: int,
                    d: Dashboard.Payload)
    requires Mirror(server, page.queued) && m.JobStarted? && m.queueIndex.Some? && 0 <= m.queueIndex.value < |server|
    requires d.entry == EntryOf(m, unknown)
    ensures var i := m.queueIndex.value;
      Mirror(server[..i] + server[i + 1..], Dashboard.HomeStep(page, "job_started", d).queued)
  {
    MirrorRemove(server, page.queued, m.queueIndex.value);
  }

  /**
   * The message the scheduler sends for a run started from the head of the
   * queue carries index 0, and the home page takes out exactly that run's
   * record.
   */
  lemma HeadStartKeepsMirror(server: seq<string>, page: Dashboard.HomeState, number: int, reason: string,
                              unknown: int, d: Dashboard.Payload)
    requires Mirror(server, page.queued) && |server| > 0
    requires d.entry == EntryOf(Scheduler.JobStarted(SchedulerRules.QueueIndexAsWritten(0), server[0], number, reason), unknown)
    ensures Mirror(server[1..], Dashboard.HomeStep(page, "job_started", d).queued)
  {
    MirrorRemove(server, page.queued, 0);
    assert server[..0] + server[1..] == server[1..];
  }

  /** Removing position `i` of the server's list and position `|client| - i - 1` of the client's keeps the mirror. */
  lemma MirrorRemove(server: seq<string>, client: seq<Dashboard.Entry>, i: nat)
    requires Mirror(server, client) && i < |server|
    ensures Mirror(server[..i] + server[i + 1..], Dashboard.SpliceOut(client, |client| - i - 1))
  {
    var n := |server|;
    var c := n - i - 1;
    Dashboard.SpliceFromEnd(client, i);
    var server', client' := server[..i] + server[i + 1..], client[..c] + client[c + 1..];
    assert client[..n - i - 1] + client[n - i..] == client';
    forall j | 0 <= j < n - 1
      ensures client'[j].name == server'[n - 2 - j]
    {
      RemoveAtIndex(client, c, j);
      RemoveAtIndex(server, i, n - 2 - j);
      if j < c {
        assert client[j].name == server[n - 1 - j];
      } else {
        assert client[j + 1].name == server[n - 2 - j];
      }
    }
  }

  lemma RemoveAtIndex<T>(s: seq<T>, k: nat, j: nat)
    requires k < |s| && j < |s| - 1
    ensures (s[..k] + s[k + 1..])[j] == if j < k then s[j] else s[j + 1]
  {
  }

  /**
   * With jobs `a` then `b` queued (the home page showing `[b, a]`) and `b`
   * started from position 1, the home page with `queueIndex` `u` still
   * mirrors the queue `[a]`.
   */
  predicate TakesOutB(u: int) {
    var ea, eb := EntryOf(Scheduler.JobQueued("a"), 0), EntryOf(Scheduler.JobQueued("b"), 0);
    Mirror(["a"], Dashboard.SpliceOut([eb, ea], 2 - u - 1))
  }

  /**
   * With jobs `a` then `b` queued and only `b` able to start, `b` starts
   * from position 1: the code as written gives no defined index there.
   * The home page takes out `b`'s record exactly for the index 1 and, as
   * `splice` clamps a start below the front to 0, for every index from 3
   * on; 0 (the only value the code defines) and 2 take out `a`'s record,
   * and a negative index takes out nothing.
   */
  lemma LaterStartNeedsItsPosition()
    ensures SchedulerRules.QueueIndexAsWritten(1).None?
    ensures var ea, eb := EntryOf(Scheduler.JobQueued("a"), 0), EntryOf(Scheduler.JobQueued("b"), 0);
      Mirror(["a", "b"], [eb, ea])
    ensures forall u: int :: TakesOutB(u) <==> u == 1 || u >= 3
  {
    var ea, eb := EntryOf(Scheduler.JobQueued("a"), 0), EntryOf(Scheduler.JobQueued("b"), 0);
    assert !Mirror(["a"], [eb]) by {
      assert [eb][0].name[0] != ["a"][0][0];
    }
    forall u: int
      ensures TakesOutB(u) <==> u == 1 || u >= 3
    {
      var start := 2 - u - 1;
      if u == 1 || u >= 3 {
        assert Dashboard.SpliceStart(2, start) == 0;
        assert Dashboard.SpliceOut([eb, ea], start) == [ea];
      } else if u == 0 || u == 2 {
        assert Dashboard.SpliceStart(2, start) == 1;
        assert Dashboard.SpliceOut([eb, ea], start) == [eb];
      } else {
        assert Dashboard.SpliceOut([eb, ea], start) == [eb, ea];
      }
    }
  }

  /**
   * A finished run's `job_completed` record always shows as complete on
   * the run page, with a cross exactly when one of its scripts exited
   * non-zero and a tick otherwise.
   */
  lemma FinishedRunShowsComplete(name: string, number: int, statuses: seq<int>, reason: string)
    ensures var e := EntryOf(Scheduler.JobCompleted(name, number, Outcome(statuses), reason), 0);
      && Dashboard.RunComplete(Some(e))
      && (Dashboard.RunIcon(e.result) == Dashboard.Cross <==> Failed(statuses))
      && (Dashboard.RunIcon(e.result) == Dashboard.Tick <==> !Failed(statuses))
  {
    OutcomeFailedIff(statuses);
  }

  /** The run page counts a `job_completed` result as complete exactly for the three final states. */
  lemma CompleteResults(m: Scheduler.Message)
    requires m.JobCompleted?
    ensures Dashboard.RunComplete(Some(EntryOf(m, 0))) <==> m.result in {ABORTED, FAILED, SUCCESS}
  {
    assert Parse(EntryOf(m, 0).result) == m.result;
  }
}
