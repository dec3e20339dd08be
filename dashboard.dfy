/**
 * The dashboard's view models (`src/resources/js/app.js`): the four pages
 * Home, Jobs, Job and Run each keep newest-first lists of build records
 * that the server's `status`, `job_queued`, `job_started` and
 * `job_completed` messages update in place, and a websocket handler routes
 * each message to the page it belongs to.
 *
 * A JSON record is an `Entry` holding the fields the pages read; a field
 * the server leaves out reads as its default ("" or 0).
 */
module Dashboard {
  import opened Wrappers

  /** A build or job record as the pages see it. */
  datatype Entry = Entry(name: string, number: int, result: string, queueIndex: int,
                         etc: int, latestNum: int, tags: seq<string>)

  /**
   * The `data` of a message: the record a `job_*` message (or a run
   * page's `status`) carries, and the lists of a `status` message.
   */
  datatype Payload = Payload(entry: Entry, queued: seq<Entry>, running: seq<Entry>, recent: seq<Entry>,
                             jobs: seq<Entry>, lastSuccess: Option<Entry>, lastFailed: Option<Entry>)

  datatype Message = Message(kind: string, title: string, data: Payload)

  // ---------------------------------------------------------------------
  // Array.prototype.splice with a delete count of one

  /** Where `splice(start, …)` starts on an array of length `len`: a negative start counts from the end. */
  function SpliceStart(len: nat, start: int): (k: nat)
    ensures k <= len
    ensures 0 <= start <= len ==> k == start
    ensures start < 0 && len + start >= 0 ==> k == len + start
    ensures start > len || len + start < 0 ==> k == (if start > len then len else 0)
  {
    if start < 0 then (if len + start < 0 then 0 else len + start)
    else if start > len then len
    else start
  }

  /** `s.splice(start, 1)`: the element at the effective start is taken out, if there is one. */
  function SpliceOut<T>(s: seq<T>, start: int): (r: seq<T>)
  {
    var k := SpliceStart(|s|, start);
    if k < |s| then s[..k] + s[k + 1..] else s
  }

  /** At most one element goes, and the others keep their order. */
  lemma SpliceOutRemovesOne<T>(s: seq<T>, start: int)
    ensures var k := SpliceStart(|s|, start);
      && (k < |s| ==> |SpliceOut(s, start)| == |s| - 1 && s == SpliceOut(s, start)[..k] + [s[k]] + SpliceOut(s, start)[k..])
      && (k == |s| ==> SpliceOut(s, start) == s)
  {
    var k := SpliceStart(|s|, start);
    if k < |s| {
      var r := SpliceOut(s, start);
      assert r[..k] == s[..k] && r[k..] == s[k + 1..];
    }
  }

  /** For `0 <= i < |s|`, `s.splice(|s| - i - 1, 1)` removes the `i`-th element counting from the end. */
  lemma SpliceFromEnd<T>(s: seq<T>, i: int)
    requires 0 <= i < |s|
    ensures SpliceOut(s, |s| - i - 1) == s[..|s| - i - 1] + s[|s| - i..]
  {
  }

  /** A start at or past the end removes nothing. */
  lemma SplicePastEnd<T>(s: seq<T>, start: int)
    requires start >= |s|
    ensures SpliceOut(s, start) == s
  {
  }

  // ---------------------------------------------------------------------
  // Searching a list of records

  /** How a `job_completed` handler recognises its record. */
  datatype Key =
    | ByBuild(name: string, number: int)  // Home: name and number
    | ByNumber(number: int)                 // Job: number only
    | ByName(name: string)                  // Jobs: name only

  predicate Matches(key: Key, e: Entry) {
    match key
    case ByBuild(name, number) => e.name == name && e.number == number
    case ByNumber(number) => e.number == number
    case ByName(name) => e.name == name
  }

  /** The index of the first record `key` matches, if any. */
  function FirstMatch(s: seq<Entry>, key: Key): (k: Option<nat>)
    ensures k.Some? ==> k.value < |s| && Matches(key, s[k.value])
    ensures k.Some? ==> forall j :: 0 <= j < k.value ==> !Matches(key, s[j])
    ensures k.None? <==> forall j :: 0 <= j < |s| ==> !Matches(key, s[j])
  {
    if s == [] then None
    else if Matches(key, s[0]) then Some(0)
    else
      var k := FirstMatch(s[1..], key);
      assert forall j :: 1 <= j < |s| ==> s[j] == s[1..][j - 1];
      if k.Some? then Some(k.value + 1) else None
  }

  /** The record at `i` is the first match when it matches and nothing before it does. */
  lemma FirstMatchAt(s: seq<Entry>, key: Key, i: nat)
    requires i < |s| && Matches(key, s[i])
    requires forall j :: 0 <= j < i ==> !Matches(key, s[j])
    ensures FirstMatch(s, key) == Some(i)
  {
  }

  /**
   * `running` and `recent` after a completion matched by `key`: the first
   * match leaves `running`, the completed record heads `recent`; with no
   * match both stay as they were.
   */
  function Completed(running: seq<Entry>, recent: seq<Entry>, key: Key, data: Entry): (seq<Entry>, seq<Entry>) {
    match FirstMatch(running, key)
    case Some(k) => (running[..k] + running[k + 1..], [data] + recent)
    case None => (running, recent)
  }

  /** The jobs list after a completion: the first job named like `data` takes the new record. */
  function Refreshed(jobs: seq<Entry>, data: Entry): seq<Entry> {
    match FirstMatch(jobs, ByName(data.name))
    case Some(k) => jobs[k := data]
    case None => jobs
  }

  /** A completion moves one record and duplicates nothing: every record is still counted once. */
  lemma CompletedMoves(running: seq<Entry>, recent: seq<Entry>, key: Key, data: Entry)
    ensures var (running', recent') := Completed(running, recent, key, data);
      match FirstMatch(running, key)
      case Some(k) =>
        && multiset(running') + multiset{running[k]} == multiset(running)
        && recent' == [data] + recent && |running'| == |running| - 1
      case None => running' == running && recent' == recent
  {
    match FirstMatch(running, key)
    case Some(k) => RemoveAtCounts(running, k);
    case None =>
  }

  /** Taking out the element at `k` takes exactly one occurrence of it out of the multiset. */
  lemma RemoveAtCounts<T>(s: seq<T>, k: nat)
    requires k < |s|
    ensures multiset(s[..k] + s[k + 1..]) + multiset{s[k]} == multiset(s)
  {
    assert s == s[..k] + [s[k]] + s[k + 1..];
  }

  // ---------------------------------------------------------------------
  // The jobs page's filter and tag list

  /** `s.indexOf(sub) > -1`: `sub` occurs in `s`. */
  predicate Contains(s: string, sub: string)
    decreases |s|
  {
    (|sub| <= |s| && s[..|sub|] == sub) || (s != [] && Contains(s[1..], sub))
  }

  /** Whether the jobs page lists `job`: it has the selected tag (if one is set) and its name contains `search` (if non-empty). */
  predicate Wanted(job: Entry, tag: Option<string>, search: string) {
    && (tag.Some? && tag.value != "" ==> tag.value in job.tags)
    && (search != "" ==> Contains(job.name, search))
  }

  function ByTag(jobs: seq<Entry>, tag: string): seq<Entry> {
    if jobs == [] then []
    else (if tag in jobs[0].tags then [jobs[0]] else []) + ByTag(jobs[1..], tag)
  }

  function BySearch(jobs: seq<Entry>, search: string): seq<Entry> {
    if jobs == [] then []
    else (if Contains(jobs[0].name, search) then [jobs[0]] else []) + BySearch(jobs[1..], search)
  }

  /** The `filteredJobs` computed property: the tag filter, then the name filter, each only when set. */
  function FilteredJobs(jobs: seq<Entry>, tag: Option<string>, search: string): seq<Entry> {
    var tagged := if tag.Some? && tag.value != "" then ByTag(jobs, tag.value) else jobs;
    if search != "" then BySearch(tagged, search) else tagged
  }

  /** `sub` is `s` with some elements left out, the rest in their order. */
  predicate Subsequence<T(==)>(sub: seq<T>, s: seq<T>)
    decreases |s|
  {
    if sub == [] then true
    else if s == [] then false
    else (sub[0] == s[0] && Subsequence(sub[1..], s[1..])) || Subsequence(sub, s[1..])
  }

  lemma {:induction false} SubsequenceTrans<T>(a: seq<T>, b: seq<T>, c: seq<T>)
    requires Subsequence(a, b) && Subsequence(b, c)
    ensures Subsequence(a, c)
    decreases |c|
  {
    if a != [] && b != [] && c != [] {
      if b[0] == c[0] && Subsequence(b[1..], c[1..]) {
        if a[0] == b[0] && Subsequence(a[1..], b[1..]) {
          SubsequenceTrans(a[1..], b[1..], c[1..]);
        } else {
          SubsequenceTrans(a, b[1..], c[1..]);
        }
      } else {
        SubsequenceTrans(a, b, c[1..]);
      }
    }
  }

  lemma {:induction false} SubsequenceRefl<T>(s: seq<T>)
    ensures Subsequence(s, s)
  {
    if s != [] {
      SubsequenceRefl(s[1..]);
    }
  }

  lemma {:induction false} ByTagExactly(jobs: seq<Entry>, tag: string)
    ensures Subsequence(ByTag(jobs, tag), jobs)
    ensures forall j :: j in ByTag(jobs, tag) <==> j in jobs && tag in j.tags
  {
    if jobs != [] {
      ByTagExactly(jobs[1..], tag);
      assert jobs == [jobs[0]] + jobs[1..];
      var sub := ByTag(jobs, tag);
      if tag in jobs[0].tags {
        assert sub[0] == jobs[0] && sub[1..] == ByTag(jobs[1..], tag);
      } else {
        assert sub == ByTag(jobs[1..], tag);
      }
    }
  }

  lemma {:induction false} BySearchExactly(jobs: seq<Entry>, search: string)
    ensures Subsequence(BySearch(jobs, search), jobs)
    ensures forall j :: j in BySearch(jobs, search) <==> j in jobs && Contains(j.name, search)
  {
    if jobs != [] {
      BySearchExactly(jobs[1..], search);
      assert jobs == [jobs[0]] + jobs[1..];
      var sub := BySearch(jobs, search);
      if Contains(jobs[0].name, search) {
        assert sub[0] == jobs[0] && sub[1..] == BySearch(jobs[1..], search);
      } else {
        assert sub == BySearch(jobs[1..], search);
      }
    }
  }

  /** The filter keeps the jobs' order and lists exactly the wanted jobs. */
  lemma FilteredJobsExactly(jobs: seq<Entry>, tag: Option<string>, search: string)
    ensures Subsequence(FilteredJobs(jobs, tag, search), jobs)
    ensures forall j :: j in FilteredJobs(jobs, tag, search) <==> j in jobs && Wanted(j, tag, search)
  {
    var tagged := if tag.Some? && tag.value != "" then ByTag(jobs, tag.value) else jobs;
    if tag.Some? && tag.value != "" {
      ByTagExactly(jobs, tag.value);
    } else {
      SubsequenceRefl(jobs);
    }
    if search != "" {
      BySearchExactly(tagged, search);
      SubsequenceTrans(BySearch(tagged, search), tagged, jobs);
    }
  }

  /** Filtering what is already filtered changes nothing. */
  lemma {:induction false} ByTagIdempotent(jobs: seq<Entry>, tag: string)
    ensures ByTag(ByTag(jobs, tag), tag) == ByTag(jobs, tag)
  {
    if jobs != [] {
      ByTagIdempotent(jobs[1..], tag);
      if tag in jobs[0].tags {
        var kept := ByTag(jobs, tag);
        assert kept == [jobs[0]] + ByTag(jobs[1..], tag);
        assert kept[0] == jobs[0] && kept[1..] == ByTag(jobs[1..], tag);
        assert tag in kept[0].tags;
        assert ByTag(kept, tag) == [kept[0]] + ByTag(kept[1..], tag);
      } else {
        assert ByTag(jobs, tag) == ByTag(jobs[1..], tag);
      }
    }
  }

  /** All the jobs' tags, job by job, each job's in its own order. */
  function AllTags(jobs: seq<Entry>): seq<string> {
    if jobs == [] then [] else AllTags(jobs[..|jobs| - 1]) + jobs[|jobs| - 1].tags
  }

  /** `s` with every repeat of an earlier element left out. */
  function Dedup(s: seq<string>): (d: seq<string>)
    ensures forall x :: x in d <==> x in s
  {
    if s == [] then []
    else
      var d := Dedup(s[..|s| - 1]);
      assert forall x :: x in s <==> x in s[..|s| - 1] || x == s[|s| - 1] by {
        assert s == s[..|s| - 1] + [s[|s| - 1]];
      }
      if s[|s| - 1] in d then d else d + [s[|s| - 1]]
  }

  lemma DedupAppend(s: seq<string>, t: string)
    ensures Dedup(s + [t]) == if t in Dedup(s) then Dedup(s) else Dedup(s) + [t]
  {
    assert (s + [t])[..|s|] == s;
  }

  lemma AllTagsSnoc(jobs: seq<Entry>, i: nat)
    requires i < |jobs|
    ensures AllTags(jobs[..i + 1]) == AllTags(jobs[..i]) + jobs[i].tags
  {
    assert jobs[..i + 1][..i] == jobs[..i];
  }

  lemma MergeStep(seen: seq<string>, own: seq<string>, j: nat, r: seq<string>)
    requires j < |own| && r == Dedup(seen + own[..j])
    ensures Dedup(seen + own[..j + 1]) == if own[j] in r then r else r + [own[j]]
  {
    DedupAppend(seen + own[..j], own[j]);
    assert seen + own[..j + 1] == (seen + own[..j]) + [own[j]];
  }

  /** The inner loop of the `status` handler: each of `own` joins `found` unless it is already there. */
  method MergeTags(found: seq<string>, ghost seen: seq<string>, own: seq<string>) returns (r: seq<string>)
    requires found == Dedup(seen)
    ensures r == Dedup(seen + own)
  {
    r := found;
    assert seen + own[..0] == seen;
    for j := 0 to |own|
      invariant r == Dedup(seen + own[..j])
    {
      var t := own[j];
      MergeStep(seen, own, j, r);
      if t !in r {
        r := r + [t];
      }
    }
    assert own[..|own|] == own;
  }

  predicate NoRepeats(s: seq<string>) {
    forall i, j :: 0 <= i < j < |s| ==> s[i] != s[j]
  }

  lemma {:induction false} DedupNoRepeats(s: seq<string>)
    ensures NoRepeats(Dedup(s))
  {
    if s != [] {
      DedupNoRepeats(s[..|s| - 1]);
    }
  }

  /** The tag list holds each tag some job carries, once. */
  lemma TagListExactly(jobs: seq<Entry>)
    ensures NoRepeats(Dedup(AllTags(jobs)))
    ensures forall t :: t in Dedup(AllTags(jobs)) <==> exists i :: 0 <= i < |jobs| && t in jobs[i].tags
  {
    DedupNoRepeats(AllTags(jobs));
    AllTagsHas(jobs);
  }

  lemma {:induction false} AllTagsHas(jobs: seq<Entry>)
    ensures forall t :: t in AllTags(jobs) <==> exists i :: 0 <= i < |jobs| && t in jobs[i].tags
  {
    if jobs != [] {
      var init := jobs[..|jobs| - 1];
      AllTagsHas(init);
      forall t | t in AllTags(jobs) ensures exists i :: 0 <= i < |jobs| && t in jobs[i].tags {
        if t in AllTags(init) {
          var i :| 0 <= i < |init| && t in init[i].tags;
          assert jobs[i] == init[i];
        } else {
          assert t in jobs[|jobs| - 1].tags;
        }
      }
      forall t | exists i :: 0 <= i < |jobs| && t in jobs[i].tags ensures t in AllTags(jobs) {
        var i :| 0 <= i < |jobs| && t in jobs[i].tags;
        if i < |jobs| - 1 {
          assert init[i] == jobs[i];
        }
      }
    }
  }

  // ---------------------------------------------------------------------
  // Pure helpers of the pages

  datatype Icon = Tick | Cross | NoIcon

  /** `runIcon`: a tick for success, a cross for failed or aborted, nothing otherwise. */
  function RunIcon(result: string): (i: Icon)
    ensures i == Tick <==> result == "success"
    ensures i == Cross <==> result == "failed" || result == "aborted"
  {
    if result == "success" then Tick
    else if result == "failed" || result == "aborted" then Cross
    else NoIcon
  }

  /** `runComplete`: the run exists and has one of the three final results. */
  function RunComplete(run: Option<Entry>): bool {
    run.Some? && (run.value.result == "aborted" || run.value.result == "failed" || run.value.result == "success")
  }

  /** A run counts as complete exactly when its icon is shown. */
  lemma CompleteIffIcon(e: Entry)
    ensures RunComplete(Some(e)) <==> RunIcon(e.result) != NoIcon
  {
  }

  // ---------------------------------------------------------------------
  // The pages

  /** The home page's state. */
  class HomeView {
    var jobsQueued: seq<Entry>   // newest first
    var jobsRunning: seq<Entry>
    var jobsRecent: seq<Entry>

    function State(): HomeState
      reads this
    {
      HomeState(jobsQueued, jobsRunning, jobsRecent)
    }

    constructor ()
      ensures jobsQueued == [] && jobsRunning == [] && jobsRecent == []
    {
      jobsQueued, jobsRunning, jobsRecent := [], [], [];
    }

    method Status(p: Payload)
      modifies this
      ensures jobsQueued == p.queued && jobsRunning == p.running && jobsRecent == p.recent
    {
      jobsQueued, jobsRunning, jobsRecent := p.queued, p.running, p.recent;
    }

    /** `job_queued`: the new record goes in front. */
    method JobQueued(data: Entry)
      modifies this`jobsQueued
      ensures jobsQueued == [data] + old(jobsQueued)
      ensures |jobsQueued| == |old(jobsQueued)| + 1
      ensures forall i :: 0 <= i < |old(jobsQueued)| ==> jobsQueued[i + 1] == old(jobsQueued)[i]
    {
      jobsQueued := [data] + jobsQueued;
    }

    /** `job_started`: the queued record `queueIndex` places from the back goes; the record heads the running list. */
    method JobStarted(data: Entry)
      modifies this`jobsQueued, this`jobsRunning
      ensures jobsQueued == SpliceOut(old(jobsQueued), |old(jobsQueued)| - data.queueIndex - 1)
      ensures jobsRunning == [data] + old(jobsRunning)
    {
      jobsQueued := SpliceOut(jobsQueued, |jobsQueued| - data.queueIndex - 1);
      jobsRunning := [data] + jobsRunning;
    }

    /** `job_completed`: the first running record with this name and number moves to the front of the recent list. */
    method JobCompleted(data: Entry)
      modifies this`jobsRunning, this`jobsRecent
      ensures (jobsRunning, jobsRecent) == Completed(old(jobsRunning), old(jobsRecent), ByBuild(data.name, data.number), data)
    {
      var key := ByBuild(data.name, data.number);
      var i := 0;
      while i < |jobsRunning|
        invariant i <= |jobsRunning| && jobsRunning == old(jobsRunning) && jobsRecent == old(jobsRecent)
        invariant forall j :: 0 <= j < i ==> !Matches(key, jobsRunning[j])
      {
        var job := jobsRunning[i];
        if job.name == data.name && job.number == data.number {
          FirstMatchAt(jobsRunning, key, i);
          jobsRunning := jobsRunning[..i] + jobsRunning[i + 1..];
          jobsRecent := [data] + jobsRecent;
          return;
        }
        i := i + 1;
      }
    }
  }

  /** The jobs page's state; `search` and `tag` are bound to inputs of the page. */
  class JobsView {
    var jobs: seq<Entry>
    var search: string
    var tags: seq<string>
    var tag: Option<string>

    function State(): JobsState
      reads this
    {
      JobsState(jobs, search, tags, tag)
    }

    constructor ()
      ensures jobs == [] && search == "" && tags == [] && tag == None
    {
      jobs, search, tags, tag := [], "", [], None;
    }

    /** `status`: the job list, and the tags of all jobs in first-seen order, each once. */
    method Status(p: Payload)
      modifies this`jobs, this`tags
      ensures jobs == p.jobs && tags == Dedup(AllTags(p.jobs))
    {
      var all := p.jobs;
      var found: seq<string> := [];
      for i := 0 to |all|
        invariant found == Dedup(AllTags(all[..i]))
      {
        AllTagsSnoc(all, i);
        found := MergeTags(found, AllTags(all[..i]), all[i].tags);
      }
      assert all[..|all|] == all;
      jobs, tags := all, found;
    }

    /** `job_completed`: the first job of that name takes the new record; the others, and the length, stay. */
    method JobCompleted(data: Entry)
      modifies this`jobs
      ensures jobs == Refreshed(old(jobs), data)
    {
      var i := 0;
      while i < |jobs|
        invariant i <= |jobs| && jobs == old(jobs)
        invariant forall j :: 0 <= j < i ==> !Matches(ByName(data.name), jobs[j])
      {
        if jobs[i].name == data.name {
          FirstMatchAt(jobs, ByName(data.name), i);
          jobs := jobs[i := data];
          return;
        }
        i := i + 1;
      }
    }
  }

  /** A job's page: its running and recent builds and how many of its runs are queued. */
  class JobView {
    var jobsRunning: seq<Entry>
    var jobsRecent: seq<Entry>
    var lastSuccess: Option<Entry>
    var lastFailed: Option<Entry>
    var nQueued: int

    function State(): JobState
      reads this
    {
      JobState(jobsRunning, jobsRecent, lastSuccess, lastFailed, nQueued)
    }

    constructor ()
      ensures jobsRunning == [] && jobsRecent == [] && lastSuccess == None && lastFailed == None && nQueued == 0
    {
      jobsRunning, jobsRecent, lastSuccess, lastFailed, nQueued := [], [], None, None, 0;
    }

    /** `status` replaces the lists and the last results; `nQueued` is not touched. */
    method Status(p: Payload)
      modifies this`jobsRunning, this`jobsRecent, this`lastSuccess, this`lastFailed
      ensures jobsRunning == p.running && jobsRecent == p.recent
      ensures lastSuccess == p.lastSuccess && lastFailed == p.lastFailed
    {
      jobsRunning, jobsRecent, lastSuccess, lastFailed := p.running, p.recent, p.lastSuccess, p.lastFailed;
    }

    method JobQueued()
      modifies this`nQueued
      ensures nQueued == old(nQueued) + 1
    {
      nQueued := nQueued + 1;
    }

    method JobStarted(data: Entry)
      modifies this`nQueued, this`jobsRunning
      ensures nQueued == old(nQueued) - 1 && jobsRunning == [data] + old(jobsRunning)
    {
      nQueued := nQueued - 1;
      jobsRunning := [data] + jobsRunning;
    }

    /** `job_completed` matches on the build number alone. */
    method JobCompleted(data: Entry)
      modifies this`jobsRunning, this`jobsRecent
      ensures (jobsRunning, jobsRecent) == Completed(old(jobsRunning), old(jobsRecent), ByNumber(data.number), data)
    {
      var i := 0;
      while i < |jobsRunning|
        invariant i <= |jobsRunning| && jobsRunning == old(jobsRunning) && jobsRecent == old(jobsRecent)
        invariant forall j :: 0 <= j < i ==> !Matches(ByNumber(data.number), jobsRunning[j])
      {
        var job := jobsRunning[i];
        if job.number == data.number {
          FirstMatchAt(jobsRunning, ByNumber(data.number), i);
          jobsRunning := jobsRunning[..i] + jobsRunning[i + 1..];
          jobsRecent := [data] + jobsRecent;
          return;
        }
        i := i + 1;
      }
    }
  }

  /**
   * A run's page. `firstLog` belongs to the page's module, not to one
   * visit: it is set by the first log chunk ever received and never
   * cleared.
   */
  class RunView {
    var job: Entry
    var latestNum: int
    var log: string
    var autoscroll: bool
    var jobsRunning: seq<Entry>
    var firstLog: bool

    function State(): RunPageState
      reads this
    {
      RunPageState(job, latestNum, log, autoscroll, jobsRunning, firstLog)
    }

    constructor ()
      ensures log == "" && !autoscroll && jobsRunning == [] && !firstLog
    {
      job := Entry("", 0, "", 0, 0, 0, []);
      latestNum, log, autoscroll, jobsRunning, firstLog := 0, "", false, [], false;
    }

    /**
     * `logHandler`: the chunk is appended as received; the page scrolls
     * to the bottom only when autoscroll is on and the chunk is not the
     * first ever received.
     */
    method LogChunk(chunk: string) returns (scrolled: bool)
      modifies this`log, this`firstLog
      ensures log == old(log) + chunk && firstLog
      ensures scrolled <==> old(firstLog) && autoscroll
    {
      log := log + chunk;
      if !firstLog {
        firstLog := true;
        scrolled := false;
      } else {
        scrolled := autoscroll;
      }
    }

    /** `status`: log cleared, the run's record and latest number taken; the running list only when `etc` is set. */
    method Status(p: Payload)
      modifies this`log, this`job, this`latestNum, this`jobsRunning
      ensures log == "" && job == p.entry && latestNum == p.entry.latestNum
      ensures jobsRunning == if p.entry.etc != 0 then [p.entry] else old(jobsRunning)
    {
      log := "";
      job := p.entry;
      latestNum := p.entry.latestNum;
      if job.etc != 0 {
        jobsRunning := [p.entry];
      }
    }

    method JobStarted()
      modifies this`latestNum
      ensures latestNum == old(latestNum) + 1
    {
      latestNum := latestNum + 1;
    }

    method JobCompleted(data: Entry)
      modifies this`job, this`jobsRunning
      ensures job == data && jobsRunning == []
    {
      job := data;
      jobsRunning := [];
    }
  }

  // ---------------------------------------------------------------------
  // Routing messages

  datatype Page = HomePage | JobsPage | JobPage | RunPage

  /** The message types a page has a handler for. */
  function Handlers(page: Page): set<string> {
    match page
    case HomePage => {"status", "job_queued", "job_started", "job_completed"}
    case JobsPage => {"status", "job_completed"}
    case JobPage => {"status", "job_queued", "job_started", "job_completed"}
    case RunPage => {"status", "job_started", "job_completed"}
  }

  /**
   * What each page keeps, as a value, and what each message type does to
   * it: a type the page has no handler for leaves it as it is.
   */
  datatype HomeState = HomeState(queued: seq<Entry>, running: seq<Entry>, recent: seq<Entry>)
  datatype JobsState = JobsState(jobs: seq<Entry>, search: string, tags: seq<string>, tag: Option<string>)
  datatype JobState = JobState(running: seq<Entry>, recent: seq<Entry>, lastSuccess: Option<Entry>,
                               lastFailed: Option<Entry>, nQueued: int)
  datatype RunPageState = RunPageState(job: Entry, latestNum: int, log: string, autoscroll: bool,
                               running: seq<Entry>, firstLog: bool)

  function HomeStep(s: HomeState, kind: string, d: Payload): HomeState {
    if kind == "status" then HomeState(d.queued, d.running, d.recent)
    else if kind == "job_queued" then s.(queued := [d.entry] + s.queued)
    else if kind == "job_started" then
      s.(queued := SpliceOut(s.queued, |s.queued| - d.entry.queueIndex - 1), running := [d.entry] + s.running)
    else if kind == "job_completed" then
      var (running, recent) := Completed(s.running, s.recent, ByBuild(d.entry.name, d.entry.number), d.entry);
      s.(running := running, recent := recent)
    else s
  }

  function JobsStep(s: JobsState, kind: string, d: Payload): JobsState {
    if kind == "status" then s.(jobs := d.jobs, tags := Dedup(AllTags(d.jobs)))
    else if kind == "job_completed" then s.(jobs := Refreshed(s.jobs, d.entry))
    else s
  }

  function JobStep(s: JobState, kind: string, d: Payload): JobState {
    if kind == "status" then s.(running := d.running, recent := d.recent, lastSuccess := d.lastSuccess,
                                lastFailed := d.lastFailed)
    else if kind == "job_queued" then s.(nQueued := s.nQueued + 1)
    else if kind == "job_started" then s.(nQueued := s.nQueued - 1, running := [d.entry] + s.running)
    else if kind == "job_completed" then
      var (running, recent) := Completed(s.running, s.recent, ByNumber(d.entry.number), d.entry);
      s.(running := running, recent := recent)
    else s
  }

  function RunStep(s: RunPageState, kind: string, d: Payload): RunPageState {
    if kind == "status" then
      s.(log := "", job := d.entry, latestNum := d.entry.latestNum,
         running := if d.entry.etc != 0 then [d.entry] else s.running)
    else if kind == "job_started" then s.(latestNum := s.latestNum + 1)
    else if kind == "job_completed" then s.(job := d.entry, running := [])
    else s
  }

  /** A page's step changes it only for the message types it has a handler for. */
  lemma StepsFollowHandlers(kind: string, d: Payload, h: HomeState, js: JobsState, j: JobState, r: RunPageState)
    ensures kind !in Handlers(HomePage) ==> HomeStep(h, kind, d) == h
    ensures kind !in Handlers(JobsPage) ==> JobsStep(js, kind, d) == js
    ensures kind !in Handlers(JobPage) ==> JobStep(j, kind, d) == j
    ensures kind !in Handlers(RunPage) ==> RunStep(r, kind, d) == r
  {
  }

  /**
   * `WebsocketHandler`: the page component bound to the socket (none until
   * the first `status` arrives), the page title, and the four pages' state.
   */
  class Socket {
    var comp: Option<Page>
    var title: string
    const home: HomeView
    const jobs: JobsView
    const job: JobView
    const run: RunView

    constructor (home: HomeView, jobs: JobsView, job: JobView, run: RunView)
      ensures comp == None && title == ""
      ensures this.home == home && this.jobs == jobs && this.job == job && this.run == run
    {
      comp, title := None, "";
      this.home, this.jobs, this.job, this.run := home, jobs, job, run;
    }

    /**
     * `onmessage`: `status` binds the page being navigated to and calls its
     * handler; any other message goes to the bound page's handler for its
     * type. Before a page is bound it is dropped (with an error), and a
     * type the page has no handler for changes nothing.
     */
    method OnMessage(msg: Message, target: Page)
      modifies this`comp, this`title, home, jobs, job, run
      ensures msg.kind == "status" ==> comp == Some(target) && title == msg.title
      ensures msg.kind != "status" ==> comp == old(comp) && title == old(title)
      ensures msg.kind != "status" && (old(comp).None? || msg.kind !in Handlers(old(comp).value)) ==>
        unchanged(home, jobs, job, run)
      ensures comp != Some(HomePage) || msg.kind !in Handlers(HomePage) ==> unchanged(home)
      ensures comp != Some(JobsPage) || msg.kind !in Handlers(JobsPage) ==> unchanged(jobs)
      ensures comp != Some(JobPage) || msg.kind !in Handlers(JobPage) ==> unchanged(job)
      ensures comp != Some(RunPage) || msg.kind !in Handlers(RunPage) ==> unchanged(run)
      ensures comp == Some(HomePage) ==> home.State() == HomeStep(old(home.State()), msg.kind, msg.data)
      ensures comp == Some(JobsPage) ==> jobs.State() == JobsStep(old(jobs.State()), msg.kind, msg.data)
      ensures comp == Some(JobPage) ==> job.State() == JobStep(old(job.State()), msg.kind, msg.data)
      ensures comp == Some(RunPage) ==> run.State() == RunStep(old(run.State()), msg.kind, msg.data)
    {
      if msg.kind == "status" {
        comp, title := Some(target), msg.title;
        Dispatch(target, msg);
      } else if comp.None? {
        // "Page component was undefined": dropped
      } else if msg.kind in Handlers(comp.value) {
        Dispatch(comp.value, msg);
      }
    }

    /** The page's handler for the message's type. */
    method Dispatch(page: Page, msg: Message)
      requires msg.kind in Handlers(page)
      modifies home, jobs, job, run
      ensures page != HomePage ==> unchanged(home)
      ensures page != JobsPage ==> unchanged(jobs)
      ensures page != JobPage ==> unchanged(job)
      ensures page != RunPage ==> unchanged(run)
      ensures page == HomePage ==> home.State() == HomeStep(old(home.State()), msg.kind, msg.data)
      ensures page == JobsPage ==> jobs.State() == JobsStep(old(jobs.State()), msg.kind, msg.data)
      ensures page == JobPage ==> job.State() == JobStep(old(job.State()), msg.kind, msg.data)
      ensures page == RunPage ==> run.State() == RunStep(old(run.State()), msg.kind, msg.data)
    {
      var d := msg.data;
      match page
      case HomePage =>
        if msg.kind == "status" { home.Status(d); }
        else if msg.kind == "job_queued" { home.JobQueued(d.entry); }
        else if msg.kind == "job_started" { home.JobStarted(d.entry); }
        else { home.JobCompleted(d.entry); }
      case JobsPage =>
        if msg.kind == "status" { jobs.Status(d); }
        else { jobs.JobCompleted(d.entry); }
      case JobPage =>
        if msg.kind == "status" { job.Status(d); }
        else if msg.kind == "job_queued" { job.JobQueued(); }
        else if msg.kind == "job_started" { job.JobStarted(d.entry); }
        else { job.JobCompleted(d.entry); }
      case RunPage =>
        if msg.kind == "status" { run.Status(d); }
        else if msg.kind == "job_started" { run.JobStarted(); }
        else { run.JobCompleted(d.entry); }
    }
  }
}
