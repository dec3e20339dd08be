/**
 * `RunSet`, the container of active runs. Its three unique indices (by pid,
 * by job name and build number, by object) are modelled as one invariant
 * over a sequence of runs; an insertion that would break any of them is
 * refused, as a Boost multi-index container refuses it.
 */
module RunSets {
  import opened Runs

  predicate Distinct<T(==)>(s: seq<T>) {
    forall i, j :: 0 <= i < j < |s| ==> s[i] != s[j]
  }

  /** Each run at most once, and no two runs share a pid or a (name, build) pair. */
  ghost predicate Unique(runs: seq<Run>)
    reads runs`pid, runs`build
  {
    && Distinct(runs)
    && forall a, b :: a in runs && b in runs && a != b ==>
         a.pid != b.pid && (a.name != b.name || a.build != b.build)
  }

  /** Taking out the element at `i` keeps the others, each once. */
  lemma RemoveAtDistinct<T>(s: seq<T>, i: nat)
    requires Distinct(s) && i < |s|
    ensures Distinct(s[..i] + s[i + 1..])
    ensures forall x :: x in s[..i] + s[i + 1..] <==> x in s && x != s[i]
  {
    var t := s[..i] + s[i + 1..];
    assert forall j :: 0 <= j < |t| ==> t[j] == if j < i then s[j] else s[j + 1];
    forall x | x in s && x != s[i] ensures x in t {
      var j :| 0 <= j < |s| && s[j] == x;
      if j < i { assert t[j] == x; } else { assert t[j - 1] == x; }
    }
  }

  /** Whether `r` collides with `runs` on one of the three unique keys. */
  predicate Clashes(runs: seq<Run>, r: Run)
    reads runs`pid, runs`build, r`pid, r`build
  {
    exists i | 0 <= i < |runs| ::
      runs[i] == r || runs[i].pid == r.pid || (runs[i].name == r.name && runs[i].build == r.build)
  }

  /** `runs` with the run `r` taken out, the others in their order. */
  function Without(runs: seq<Run>, r: Run): (s: seq<Run>)
    ensures forall x :: x in s ==> x in runs && x != r
    ensures forall x :: x in runs && x != r ==> x in s
    ensures Distinct(runs) ==> Distinct(s)
    ensures r !in runs ==> s == runs
    ensures Distinct(runs) && r in runs ==> |s| == |runs| - 1
  {
    if runs == [] then []
    else if runs[0] == r then Without(runs[1..], r)
    else
      var t := Without(runs[1..], r);
      assert Distinct(runs) ==> forall j :: 0 <= j < |t| ==> t[j] != runs[0] by {
        if Distinct(runs) {
          forall j | 0 <= j < |t| ensures t[j] != runs[0] {
            assert t[j] in t;
            assert t[j] in runs[1..];
            var k :| 0 <= k < |runs[1..]| && runs[1..][k] == t[j];
            assert runs[k + 1] == t[j];
          }
        }
      }
      [runs[0]] + t
  }

  /** The run with job name `name` and build number `build`, or null. */
  function FindKey(runs: seq<Run>, name: string, build: int): (r: Run?)
    reads runs`build
    ensures r == null <==> forall x :: x in runs ==> !(x.name == name && x.build == build)
    ensures r != null ==> r in runs && r.name == name && r.build == build
  {
    if runs == [] then null
    else if runs[0].name == name && runs[0].build == build then runs[0]
    else FindKey(runs[1..], name, build)
  }

  /** The run whose current process is `pid`, or null. */
  function FindPid(runs: seq<Run>, pid: int): (r: Run?)
    reads runs`pid
    ensures r == null <==> forall x :: x in runs ==> x.pid != pid
    ensures r != null ==> r in runs && r.pid == pid
  {
    if runs == [] then null
    else if runs[0].pid == pid then runs[0]
    else FindPid(runs[1..], pid)
  }

  class RunSet {
    var runs: seq<Run>

    ghost predicate Valid()
      reads this`runs, runs`pid, runs`build
    {
      Unique(runs)
    }

    constructor ()
      ensures Valid() && runs == []
    {
      runs := [];
    }

    /** `insert`: refused (false, nothing changes) when a unique key is already taken. */
    method Insert(r: Run) returns (inserted: bool)
      requires Valid()
      modifies this`runs
      ensures Valid()
      ensures inserted <==> !Clashes(old(runs), r)
      ensures runs == if inserted then old(runs) + [r] else old(runs)
    {
      inserted := !Clashes(runs, r);
      if inserted {
        runs := runs + [r];
      }
    }

    /** `get<2>().erase(r)`: remove by object. */
    method Erase(r: Run)
      requires Valid()
      modifies this`runs
      ensures Valid()
      ensures runs == Without(old(runs), r)
    {
      runs := Without(runs, r);
    }
  }

  /** In a valid set a (name, build) pair picks out one run: the lookup is exact. */
  lemma KeyLookupIsExact(runs: seq<Run>, r: Run)
    requires Unique(runs) && r in runs
    ensures FindKey(runs, r.name, r.build) == r
  {
  }

  /** Likewise for pids. */
  lemma PidLookupIsExact(runs: seq<Run>, r: Run)
    requires Unique(runs) && r in runs
    ensures FindPid(runs, r.pid) == r
  {
  }
}
