/**
 * The overlap layout of the day view (`layoutJobs`): jobs are sorted by
 * start time, longer jobs first on ties; swept into clusters of jobs that
 * reach into each other; and inside each cluster given columns first-fit,
 * every job of the cluster carrying the cluster's column count.
 */
module DayViewLayout {
  import opened Schedule
  import DayView

  // ── Sort order ─────────────────────────────────────────────

  function Duration(j: Job): int { j.end - j.start }

  /** The sort comparator returns ≤ 0: `a` starts earlier, or at the same time and lasts at least as long. */
  predicate NoLaterThan(a: Job, b: Job)
  {
    a.start < b.start || (a.start == b.start && Duration(a) >= Duration(b))
  }

  /** The comparator returns 0: same start and same duration. */
  predicate SameRank(a: Job, b: Job)
  {
    a.start == b.start && Duration(a) == Duration(b)
  }

  predicate SortedJobs(s: seq<Job>)
  {
    forall i, j :: 0 <= i < j < |s| ==> NoLaterThan(s[i], s[j])
  }

  /** Inserts `x` after every job that sorts no later than it. */
  function Insert(sorted: seq<Job>, x: Job): (r: seq<Job>)
    ensures |r| == |sorted| + 1
    ensures multiset(r) == multiset(sorted) + multiset{x}
  {
    if sorted == [] then [x]
    else if NoLaterThan(sorted[|sorted| - 1], x) then sorted + [x]
    else
      assert sorted == sorted[..|sorted| - 1] + [sorted[|sorted| - 1]];
      Insert(sorted[..|sorted| - 1], x) + [sorted[|sorted| - 1]]
  }

  /**
   * `[...jobs].sort(cmp)`. JavaScript's sort is stable; it is modelled by a
   * stable insertion sort, so the order of equally ranked jobs is the input order.
   */
  function SortJobs(jobs: seq<Job>): (r: seq<Job>)
    ensures |r| == |jobs|
    ensures multiset(r) == multiset(jobs)
  {
    if jobs == [] then []
    else
      assert jobs == jobs[..|jobs| - 1] + [jobs[|jobs| - 1]];
      Insert(SortJobs(jobs[..|jobs| - 1]), jobs[|jobs| - 1])
  }

  lemma {:induction false} InsertSorted(sorted: seq<Job>, x: Job)
    requires SortedJobs(sorted)
    ensures SortedJobs(Insert(sorted, x))
  {
    if sorted != [] {
      var init, last := sorted[..|sorted| - 1], sorted[|sorted| - 1];
      if NoLaterThan(last, x) {
        forall e | e in sorted ensures NoLaterThan(e, x) {
          var p :| 0 <= p < |sorted| && sorted[p] == e;
          assert p == |sorted| - 1 || NoLaterThan(sorted[p], last);
        }
        SortedSnoc(sorted, x);
      } else {
        assert SortedJobs(init) by {
          forall i, j | 0 <= i < j < |init| ensures NoLaterThan(init[i], init[j]) {
            assert init[i] == sorted[i] && init[j] == sorted[j];
          }
        }
        InsertSorted(init, x);
        var r0 := Insert(init, x);
        forall e | e in r0 ensures NoLaterThan(e, last) {
          InsertMembers(init, x, e);
          if e != x {
            var p :| 0 <= p < |init| && init[p] == e;
            assert sorted[p] == e;
          }
        }
        SortedSnoc(r0, last);
      }
    }
  }

  /** A job that sorts no earlier than every job of a sorted sequence extends it. */
  lemma SortedSnoc(s: seq<Job>, y: Job)
    requires SortedJobs(s)
    requires forall e :: e in s ==> NoLaterThan(e, y)
    ensures SortedJobs(s + [y])
  {
    var r := s + [y];
    forall i, j | 0 <= i < j < |r| ensures NoLaterThan(r[i], r[j]) {
      assert r[i] == s[i];
      if j < |s| {
        assert r[j] == s[j];
      } else {
        assert r[i] in s;
      }
    }
  }

  /** Every job of `Insert(sorted, x)` is `x` or a job of `sorted`. */
  lemma InsertMembers(sorted: seq<Job>, x: Job, e: Job)
    requires e in Insert(sorted, x)
    ensures e == x || e in sorted
  {
    assert e in multiset(Insert(sorted, x));
  }

  /** The sorted copy is in comparator order and holds exactly the input jobs. */
  lemma {:induction false} SortJobsSorted(jobs: seq<Job>)
    ensures SortedJobs(SortJobs(jobs))
  {
    if jobs != [] {
      SortJobsSorted(jobs[..|jobs| - 1]);
      InsertSorted(SortJobs(jobs[..|jobs| - 1]), jobs[|jobs| - 1]);
    }
  }

  /** The jobs of `s` ranked equal to `k`, in their order in `s`. */
  function RankRun(s: seq<Job>, k: Job): seq<Job>
  {
    if s == [] then []
    else RankRun(s[..|s| - 1], k) + (if SameRank(s[|s| - 1], k) then [s[|s| - 1]] else [])
  }

  lemma {:induction false} InsertStable(sorted: seq<Job>, x: Job, k: Job)
    ensures RankRun(Insert(sorted, x), k) == RankRun(sorted, k) + RankRun([x], k)
  {
    if sorted == [] {
      assert Insert(sorted, x) == [x];
      assert RankRun(sorted, k) == [];
    } else if NoLaterThan(sorted[|sorted| - 1], x) {
      RankRunSnoc(sorted, x, k);
    } else {
      var init, last := sorted[..|sorted| - 1], sorted[|sorted| - 1];
      assert sorted == init + [last];
      InsertStable(init, x, k);
      InsertBeforeLast(init, last, x, k);
    }
  }

  /** The step of `InsertStable` where `x` goes before the last job. */
  lemma InsertBeforeLast(init: seq<Job>, last: Job, x: Job, k: Job)
    requires !NoLaterThan(last, x)
    requires RankRun(Insert(init, x), k) == RankRun(init, k) + RankRun([x], k)
    ensures RankRun(Insert(init + [last], x), k) == RankRun(init + [last], k) + RankRun([x], k)
  {
    var sorted := init + [last];
    var a, xs, ls := RankRun(init, k), RankRun([x], k), RankRun([last], k);
    assert RankRun(Insert(sorted, x), k) == a + xs + ls by {
      assert sorted[..|sorted| - 1] == init && sorted[|sorted| - 1] == last;
      assert Insert(sorted, x) == Insert(init, x) + [last];
      RankRunSnoc(Insert(init, x), last, k);
    }
    assert RankRun(sorted, k) == a + ls by {
      RankRunSnoc(init, last, k);
    }
    // `x` sorts before `last`, so the two are not both ranked equal to `k`.
    assert xs == [] || ls == [] by {
      RankRunSingle(x, k);
      RankRunSingle(last, k);
    }
    assert a + xs + ls == (a + ls) + xs by {
      if xs == [] {
        assert a + xs == a && (a + ls) + xs == a + ls;
      } else {
        assert ls == [];
        assert a + xs + ls == a + xs && a + ls == a;
      }
    }
  }

  lemma RankRunSingle(x: Job, k: Job)
    ensures RankRun([x], k) == if SameRank(x, k) then [x] else []
  {
    assert [x][..0] == [];
  }

  lemma RankRunSnoc(s: seq<Job>, e: Job, k: Job)
    ensures RankRun(s + [e], k) == RankRun(s, k) + RankRun([e], k)
  {
    assert (s + [e])[..|s|] == s;
    RankRunSingle(e, k);
  }

  /** Stability: sorting keeps the relative order of equally ranked jobs. */
  lemma {:induction false} SortJobsStable(jobs: seq<Job>, k: Job)
    ensures RankRun(SortJobs(jobs), k) == RankRun(jobs, k)
  {
    if jobs != [] {
      var init, x := jobs[..|jobs| - 1], jobs[|jobs| - 1];
      assert jobs == init + [x];
      SortJobsStable(init, k);
      InsertStable(SortJobs(init), x, k);
      RankRunSnoc(init, x, k);
    }
  }

  predicate UniqueIds(s: seq<Job>)
  {
    forall i, j :: 0 <= i < j < |s| ==> s[i].id != s[j].id
  }

  /** Every job ends no earlier than it starts. */
  predicate WellTimed(s: seq<Job>)
  {
    forall j :: j in s ==> j.start <= j.end
  }

  lemma {:induction false} InsertUniqueIds(sorted: seq<Job>, x: Job)
    requires UniqueIds(sorted)
    requires forall e :: e in sorted ==> e.id != x.id
    ensures UniqueIds(Insert(sorted, x))
  {
    if sorted != [] && !NoLaterThan(sorted[|sorted| - 1], x) {
      var init, last := sorted[..|sorted| - 1], sorted[|sorted| - 1];
      assert forall e :: e in init ==> e in sorted;
      InsertUniqueIds(init, x);
      var r0 := Insert(init, x);
      forall i | 0 <= i < |r0| ensures r0[i].id != last.id {
        assert r0[i] in multiset(r0);
        if r0[i] != x {
          assert r0[i] in multiset(init);
          var p :| 0 <= p < |init| && init[p] == r0[i];
          assert sorted[p] == init[p];
        }
      }
    }
  }

  /** Sorting neither duplicates nor loses an id. */
  lemma {:induction false} SortJobsUniqueIds(jobs: seq<Job>)
    requires UniqueIds(jobs)
    ensures UniqueIds(SortJobs(jobs))
  {
    if jobs != [] {
      var init, x := jobs[..|jobs| - 1], jobs[|jobs| - 1];
      SortJobsUniqueIds(init);
      forall e | e in SortJobs(init) ensures e.id != x.id {
        assert e in multiset(SortJobs(init));
        var p :| 0 <= p < |init| && init[p] == e;
        assert jobs[p] == e;
      }
      InsertUniqueIds(SortJobs(init), x);
    }
  }

  // ── Clustering ─────────────────────────────────────────────

  function Max(a: int, b: int): int { if a >= b then a else b }

  /** The running `clusterEnd` after the jobs of `c`, starting from `base`. */
  function Reach(c: seq<Job>, base: int): (r: int)
    ensures r >= base
    ensures forall k :: 0 <= k < |c| ==> c[k].end <= r
  {
    if c == [] then base else Max(Reach(c[..|c| - 1], base), c[|c| - 1].end)
  }

  /**
   * Where `clusterEnd` starts for the cluster at index `ci`: 0 for the first
   * cluster (the variable's initial value) and the first job's end for every
   * later one.
   */
  function StartReach(ci: nat, c: seq<Job>): int
    requires c != []
  {
    if ci == 0 then 0 else c[0].end
  }

  /** The `clusterEnd` reached when the cluster at index `ci` is closed. */
  function ClusterReach(ci: nat, c: seq<Job>): int
    requires c != []
  {
    Reach(c, StartReach(ci, c))
  }

  /** Every job after the first starts before the running end of the jobs before it. */
  predicate Chained(c: seq<Job>, base: int)
  {
    forall k :: 1 <= k < |c| ==> c[k].start < Reach(c[..k], base)
  }

  /**
   * The cluster at index `ci` is one the sweep builds: non-empty, chained,
   * and starting at or after the reach of the cluster before it.
   */
  predicate SweepCluster(clusters: seq<seq<Job>>, ci: nat)
    requires ci < |clusters|
  {
    && clusters[ci] != []
    && Chained(clusters[ci], StartReach(ci, clusters[ci]))
    && (0 < ci ==> clusters[ci - 1] != [] && clusters[ci][0].start >= ClusterReach(ci - 1, clusters[ci - 1]))
  }

  predicate IsSweep(clusters: seq<seq<Job>>)
  {
    forall ci :: 0 <= ci < |clusters| ==> SweepCluster(clusters, ci)
  }

  /** Every job of an earlier cluster ends by the time any job of a later cluster starts. */
  predicate Separated(clusters: seq<seq<Job>>)
  {
    forall ci, cj, a, b :: 0 <= ci < cj < |clusters| && 0 <= a < |clusters[ci]| && 0 <= b < |clusters[cj]| ==>
      clusters[ci][a].end <= clusters[cj][b].start
  }

  function Flatten(clusters: seq<seq<Job>>): seq<Job>
  {
    if clusters == [] then [] else Flatten(clusters[..|clusters| - 1]) + clusters[|clusters| - 1]
  }

  lemma FlattenSnoc(clusters: seq<seq<Job>>, c: seq<Job>)
    ensures Flatten(clusters + [c]) == Flatten(clusters) + c
  {
    assert (clusters + [c])[..|clusters|] == clusters;
  }

  lemma {:induction false} FlattenAppend(a: seq<seq<Job>>, b: seq<seq<Job>>)
    ensures Flatten(a + b) == Flatten(a) + Flatten(b)
    decreases |b|
  {
    if b == [] {
      assert a + b == a;
    } else {
      var b0, z := b[..|b| - 1], b[|b| - 1];
      assert a + b == (a + b0) + [z];
      assert b == b0 + [z];
      calc {
        Flatten(a + b);
        Flatten((a + b0) + [z]);
        { FlattenSnoc(a + b0, z); }
        Flatten(a + b0) + z;
        { FlattenAppend(a, b0); }
        Flatten(a) + Flatten(b0) + z;
        { FlattenSnoc(b0, z); }
        Flatten(a) + Flatten(b);
      }
    }
  }

  /** Where the `b`-th job of cluster `ci` sits in the flattened sequence. */
  lemma FlattenIndex(clusters: seq<seq<Job>>, ci: nat, b: nat)
    requires ci < |clusters| && b < |clusters[ci]|
    ensures |Flatten(clusters[..ci])| + b < |Flatten(clusters)|
    ensures Flatten(clusters)[|Flatten(clusters[..ci])| + b] == clusters[ci][b]
    ensures |Flatten(clusters[..ci + 1])| == |Flatten(clusters[..ci])| + |clusters[ci]|
  {
    assert clusters == clusters[..ci] + [clusters[ci]] + clusters[ci + 1..];
    FlattenAppend(clusters[..ci] + [clusters[ci]], clusters[ci + 1..]);
    FlattenSnoc(clusters[..ci], clusters[ci]);
    assert clusters[..ci + 1] == clusters[..ci] + [clusters[ci]];
  }

  predicate StartsAscending(s: seq<Job>)
  {
    forall i, j :: 0 <= i < j < |s| ==> s[i].start <= s[j].start
  }

  /** Every job of a closed cluster ends by the start of every job not yet closed. */
  predicate ClosedBefore(sorted: seq<Job>, clusters: seq<seq<Job>>)
  {
    forall ci, a, k :: 0 <= ci < |clusters| && 0 <= a < |clusters[ci]| && |Flatten(clusters)| <= k < |sorted| ==>
      clusters[ci][a].end <= sorted[k].start
  }

  /** What holds of the sweep after it has seen the first `i` sorted jobs. */
  ghost predicate SweepState(sorted: seq<Job>, i: nat, clusters: seq<seq<Job>>, current: seq<Job>, clusterEnd: int)
  {
    && StartsAscending(sorted)
    && i <= |sorted|
    && Flatten(clusters) + current == sorted[..i]
    && (i == 0 ==> clusters == [] && current == [] && clusterEnd == 0)
    && (i > 0 ==> current != [] && IsSweep(clusters + [current]) &&
                  clusterEnd == ClusterReach(|clusters|, current))
    && Separated(clusters)
    && ClosedBefore(sorted, clusters)
  }

  /**
   * The cluster sweep of `layoutJobs` over the sorted jobs: a job joins the current
   * cluster when the cluster is empty or the job starts before `clusterEnd`,
   * and otherwise closes it and opens a new one.
   */
  method GroupClusters(sorted: seq<Job>) returns (clusters: seq<seq<Job>>)
    requires StartsAscending(sorted)
    ensures Flatten(clusters) == sorted
    ensures IsSweep(clusters)
    ensures Separated(clusters)
  {
    clusters := [];
    var current: seq<Job> := [];
    var clusterEnd := 0;
    var i := 0;
    SweepStart(sorted);
    while i < |sorted|
      invariant SweepState(sorted, i, clusters, current, clusterEnd)
    {
      var job := sorted[i];
      if current == [] || job.start < clusterEnd {
        assert SweepState(sorted, i + 1, clusters, current + [job], Max(clusterEnd, job.end)) by {
          JoinCluster(sorted, i, clusters, current, clusterEnd);
        }
        current := current + [job];
        clusterEnd := Max(clusterEnd, job.end);
      } else {
        assert SweepState(sorted, i + 1, clusters + [current], [job], job.end) by {
          CloseCluster(sorted, i, clusters, current, clusterEnd);
          OpenCluster(sorted, i, clusters + [current], clusterEnd);
        }
        clusters := clusters + [current];
        current := [job];
        clusterEnd := job.end;
      }
      i := i + 1;
    }
    if current != [] {
      assert Flatten(clusters + [current]) == sorted && IsSweep(clusters + [current]) && Separated(clusters + [current]) by {
        CloseCluster(sorted, i, clusters, current, clusterEnd);
        assert sorted[..i] == sorted;
      }
      clusters := clusters + [current];
    } else {
      SweepEmpty(sorted, i, clusters, clusterEnd);
    }
  }

  /** Before the first job: no clusters, an empty open cluster and `clusterEnd` at 0. */
  lemma SweepStart(sorted: seq<Job>)
    requires StartsAscending(sorted)
    ensures SweepState(sorted, 0, [], [], 0)
  {
    assert Flatten([]) + [] == sorted[..0];
  }

  /** The open cluster is empty only before the first job, so a finished sweep of nothing has no clusters. */
  lemma SweepEmpty(sorted: seq<Job>, i: nat, clusters: seq<seq<Job>>, clusterEnd: int)
    requires SweepState(sorted, i, clusters, [], clusterEnd) && i == |sorted|
    ensures Flatten(clusters) == sorted && IsSweep(clusters) && Separated(clusters)
  {
  }

  /** A job that starts before `clusterEnd` (or finds no cluster open) joins the open cluster. */
  lemma JoinCluster(sorted: seq<Job>, i: nat, clusters: seq<seq<Job>>, current: seq<Job>, clusterEnd: int)
    requires i < |sorted| && SweepState(sorted, i, clusters, current, clusterEnd)
    requires current == [] || sorted[i].start < clusterEnd
    ensures SweepState(sorted, i + 1, clusters, current + [sorted[i]], Max(clusterEnd, sorted[i].end))
  {
    var job := sorted[i];
    var c := current + [job];
    assert c[..|c| - 1] == current;
    if current != [] {
      assert c[0] == current[0];
      assert StartReach(|clusters|, c) == StartReach(|clusters|, current);
    }
    assert ClusterReach(|clusters|, c) == Max(Reach(current, StartReach(|clusters|, c)), job.end);
    assert sorted[..i + 1] == sorted[..i] + [job];
    var cs: seq<seq<Job>> := clusters + [c];
    var old_cs := clusters + [current];
    forall ci | 0 <= ci < |cs| ensures SweepCluster(cs, ci) {
      if ci < |clusters| {
        assert cs[ci] == old_cs[ci];
        assert SweepCluster(old_cs, ci);
        if 0 < ci {
          assert cs[ci - 1] == old_cs[ci - 1];
        }
      } else if current == [] {
        assert c == [job];
      } else {
        assert SweepCluster(old_cs, ci);
        assert StartReach(ci, c) == StartReach(ci, current);
        forall k | 1 <= k < |c| ensures c[k].start < Reach(c[..k], StartReach(ci, c)) {
          if k < |current| {
            assert c[..k] == current[..k];
          } else {
            assert c[..k] == current;
          }
        }
        if 0 < ci {
          assert cs[ci - 1] == old_cs[ci - 1];
        }
      }
    }
  }

  /**
   * A job at or after `clusterEnd` closes the open cluster: that cluster ends
   * before every job still to come, in particular the one that closes it.
   */
  lemma CloseCluster(sorted: seq<Job>, i: nat, clusters: seq<seq<Job>>, current: seq<Job>, clusterEnd: int)
    requires SweepState(sorted, i, clusters, current, clusterEnd) && current != []
    requires i < |sorted| ==> sorted[i].start >= clusterEnd
    ensures Flatten(clusters + [current]) == sorted[..i]
    ensures IsSweep(clusters + [current])
    ensures Separated(clusters + [current])
    ensures ClosedBefore(sorted, clusters + [current])
  {
    FlattenSnoc(clusters, current);
    SeparatedSnoc(sorted, i, clusters, current);
    ClosedBeforeSnoc(sorted, i, clusters, current, clusterEnd);
  }

  /** Closing the current cluster keeps the closed clusters apart from each other. */
  lemma SeparatedSnoc(sorted: seq<Job>, i: nat, clusters: seq<seq<Job>>, current: seq<Job>)
    requires i <= |sorted| && Flatten(clusters) + current == sorted[..i]
    requires Separated(clusters) && ClosedBefore(sorted, clusters)
    ensures Separated(clusters + [current])
  {
    var cs: seq<seq<Job>> := clusters + [current];
    var off := |Flatten(clusters)|;
    forall b | 0 <= b < |current| ensures current[b] == sorted[off + b] {
      assert sorted[..i][off + b] == current[b];
    }
    forall ci, cj, a, b | 0 <= ci < cj < |cs| && 0 <= a < |cs[ci]| && 0 <= b < |cs[cj]|
      ensures cs[ci][a].end <= cs[cj][b].start
    {
      assert cs[ci] == clusters[ci];
      if cj == |clusters| {
        assert cs[cj][b] == sorted[off + b];
      } else {
        assert cs[cj] == clusters[cj];
      }
    }
  }

  /** The closed cluster ends by the start of the job that closes it, and so of every later job. */
  lemma ClosedBeforeSnoc(sorted: seq<Job>, i: nat, clusters: seq<seq<Job>>, current: seq<Job>, clusterEnd: int)
    requires StartsAscending(sorted) && i <= |sorted| && |Flatten(clusters + [current])| == i
    requires current != [] && clusterEnd == ClusterReach(|clusters|, current)
    requires ClosedBefore(sorted, clusters) && |Flatten(clusters)| <= i
    requires i < |sorted| ==> sorted[i].start >= clusterEnd
    ensures ClosedBefore(sorted, clusters + [current])
  {
    var cs: seq<seq<Job>> := clusters + [current];
    forall ci, a, k | 0 <= ci < |cs| && 0 <= a < |cs[ci]| && i <= k < |sorted|
      ensures cs[ci][a].end <= sorted[k].start
    {
      if ci == |clusters| {
        assert cs[ci][a].end <= clusterEnd <= sorted[i].start <= sorted[k].start;
      } else {
        assert cs[ci] == clusters[ci];
      }
    }
  }

  /** The closing job opens a new cluster of its own. */
  lemma OpenCluster(sorted: seq<Job>, i: nat, closed: seq<seq<Job>>, clusterEnd: int)
    requires StartsAscending(sorted) && i < |sorted| && closed != [] && closed[|closed| - 1] != []
    requires Flatten(closed) == sorted[..i]
    requires IsSweep(closed) && Separated(closed) && ClosedBefore(sorted, closed)
    requires clusterEnd == ClusterReach(|closed| - 1, closed[|closed| - 1])
    requires sorted[i].start >= clusterEnd
    ensures SweepState(sorted, i + 1, closed, [sorted[i]], sorted[i].end)
  {
    var job := sorted[i];
    TakeSnoc(sorted, i);
    SingleCluster(|closed|, job);
    SweepSnoc(closed, [job]);
  }

  lemma TakeSnoc<T>(s: seq<T>, i: nat)
    requires i < |s|
    ensures s[..i + 1] == s[..i] + [s[i]]
  {
  }

  /** A cluster of one job is chained, and its reach is that job's end. */
  lemma SingleCluster(ci: nat, job: Job)
    ensures Chained([job], StartReach(ci, [job]))
    ensures ci > 0 ==> ClusterReach(ci, [job]) == job.end
  {
    assert [job][..0] == [];
  }

  /** A new cluster that is chained and starts at or after the reach of the last one extends a sweep. */
  lemma SweepSnoc(closed: seq<seq<Job>>, c: seq<Job>)
    requires IsSweep(closed) && closed != [] && closed[|closed| - 1] != []
    requires c != [] && Chained(c, StartReach(|closed|, c))
    requires c[0].start >= ClusterReach(|closed| - 1, closed[|closed| - 1])
    ensures IsSweep(closed + [c])
  {
    var cs := closed + [c];
    forall ci | 0 <= ci < |cs| ensures SweepCluster(cs, ci) {
      if ci < |closed| {
        assert cs[ci] == closed[ci];
        assert SweepCluster(closed, ci);
        if 0 < ci {
          assert cs[ci - 1] == closed[ci - 1];
        }
      } else {
        assert cs[ci - 1] == closed[ci - 1];
      }
    }
  }

  // ── Column assignment ──────────────────────────────────────

  /**
   * `columns.findIndex(colEnd => colEnd <= start)`: the first column whose
   * last job has ended by `start`, or -1 when every column is still busy.
   */
  function FindFree(ends: seq<int>, start: int): (i: int)
    ensures -1 <= i < |ends|
    ensures 0 <= i ==> ends[i] <= start && forall k :: 0 <= k < i ==> ends[k] > start
    ensures i == -1 ==> forall k :: 0 <= k < |ends| ==> ends[k] > start
  {
    if ends == [] then -1
    else if ends[0] <= start then 0
    else
      var r := FindFree(ends[1..], start);
      if r == -1 then -1 else r + 1
  }

  /**
   * The column a job starting at `start` is put in, first fit: a column that
   * is free by then with none free before it, or a new one at the end when
   * every existing column is still busy.
   */
  function ColumnFor(ends: seq<int>, start: int): (c: nat)
    ensures c <= |ends|
    ensures c < |ends| ==> ends[c] <= start
    ensures forall k :: 0 <= k < c ==> ends[k] > start
  {
    var i := FindFree(ends, start);
    if i == -1 then |ends| else i
  }

  /** `columns` after placing a job: its column (appended when new) now ends at the job's end, the others are unchanged. */
  function Place(ends: seq<int>, job: Job): (r: seq<int>)
    ensures |r| == if ColumnFor(ends, job.start) == |ends| then |ends| + 1 else |ends|
    ensures r[ColumnFor(ends, job.start)] == job.end
    ensures forall k :: 0 <= k < |ends| && k != ColumnFor(ends, job.start) ==> r[k] == ends[k]
  {
    var c := ColumnFor(ends, job.start);
    var grown := if c == |ends| then ends + [0] else ends;
    grown[c := job.end]
  }

  /** The column end times after first fit has placed every job of `cluster`: at least one column, at most one per job. */
  function ColumnEnds(cluster: seq<Job>): (ends: seq<int>)
    ensures |ends| <= |cluster|
    ensures cluster != [] ==> 1 <= |ends|
  {
    if cluster == [] then [] else Place(ColumnEnds(cluster[..|cluster| - 1]), cluster[|cluster| - 1])
  }

  /** The columns first fit gives the jobs of `cluster`, in order: each job's column is chosen against the jobs before it. */
  function Placements(cluster: seq<Job>): (cols: seq<nat>)
    ensures |cols| == |cluster|
  {
    if cluster == [] then []
    else
      var init := cluster[..|cluster| - 1];
      Placements(init) + [ColumnFor(ColumnEnds(init), cluster[|cluster| - 1].start)]
  }

  /** The placements of a prefix are a prefix of the placements. */
  lemma {:induction false} PlacementsPrefix(cluster: seq<Job>, n: nat)
    requires n <= |cluster|
    ensures Placements(cluster[..n]) == Placements(cluster)[..n]
    decreases |cluster|
  {
    if n < |cluster| {
      var init := cluster[..|cluster| - 1];
      PlacementsPrefix(init, n);
      assert init[..n] == cluster[..n];
    } else {
      assert cluster[..n] == cluster;
    }
  }

  /** Every job is placed in one of the columns of its cluster. */
  lemma {:induction false} PlacementsInRange(cluster: seq<Job>)
    ensures forall k :: 0 <= k < |cluster| ==> Placements(cluster)[k] < |ColumnEnds(cluster)|
  {
    if cluster != [] {
      var init, job := cluster[..|cluster| - 1], cluster[|cluster| - 1];
      PlacementsInRange(init);
    }
  }

  /** Every placed job ends no later than the current end time of its column. */
  lemma {:induction false} EndsDominate(cluster: seq<Job>)
    requires WellTimed(cluster)
    ensures forall k :: 0 <= k < |cluster| ==>
              Placements(cluster)[k] < |ColumnEnds(cluster)| &&
              cluster[k].end <= ColumnEnds(cluster)[Placements(cluster)[k]]
  {
    if cluster != [] {
      var init, job := cluster[..|cluster| - 1], cluster[|cluster| - 1];
      assert WellTimed(init) by {
        forall j | j in init ensures j in cluster { }
      }
      EndsDominate(init);
      assert job in cluster;
      assert cluster == init + [job];
      EndsDominateStep(init, job);
    }
  }

  /** Placing one more job keeps every earlier job within its column's end and puts the new one at it. */
  lemma EndsDominateStep(init: seq<Job>, job: Job)
    requires job.start <= job.end
    requires forall k :: 0 <= k < |init| ==>
               Placements(init)[k] < |ColumnEnds(init)| &&
               init[k].end <= ColumnEnds(init)[Placements(init)[k]]
    ensures var cluster := init + [job];
            forall k :: 0 <= k < |cluster| ==>
              Placements(cluster)[k] < |ColumnEnds(cluster)| &&
              cluster[k].end <= ColumnEnds(cluster)[Placements(cluster)[k]]
  {
    var cluster := init + [job];
    assert cluster[..|cluster| - 1] == init;
    var ends, next := ColumnEnds(init), ColumnEnds(cluster);
    assert next == Place(ends, job);
    var placed := Placements(cluster);
    assert placed == Placements(init) + [ColumnFor(ends, job.start)];
    forall k | 0 <= k < |cluster|
      ensures placed[k] < |next| && cluster[k].end <= next[placed[k]]
    {
      if k < |init| {
        var ck := Placements(init)[k];
        assert placed[k] == ck && cluster[k] == init[k];
        PlaceKeepsEnd(ends, job, ck, cluster[k].end);
      } else {
        assert placed[k] == ColumnFor(ends, job.start) && cluster[k] == job;
      }
    }
  }

  /** Placing a job never lowers a column's end time. */
  lemma PlaceKeepsEnd(ends: seq<int>, job: Job, col: nat, e: int)
    requires col < |ends| && e <= ends[col] && job.start <= job.end
    ensures col < |Place(ends, job)| && e <= Place(ends, job)[col]
  {
    var c := ColumnFor(ends, job.start);
    if col == c {
      assert ends[c] <= job.start;
    }
  }

  /**
   * No collision: two jobs of a cluster that share a column do not overlap,
   * the earlier one ending by the time the later one starts.
   */
  lemma FirstFitNoCollision(cluster: seq<Job>, k: nat, l: nat)
    requires WellTimed(cluster)
    requires k < l < |cluster|
    requires Placements(cluster)[k] == Placements(cluster)[l]
    ensures cluster[k].end <= cluster[l].start
  {
    var before := cluster[..l];
    var ends := ColumnEnds(before);
    var col := Placements(cluster)[l];
    assert col == ColumnFor(ends, cluster[l].start) && Placements(before)[k] == col by {
      PlacementAt(cluster, l);
      PlacementsPrefix(cluster, l);
    }
    assert col < |ends| && cluster[k].end <= ends[col] by {
      assert WellTimed(before) by {
        forall j | j in before ensures j in cluster { }
      }
      EndsDominate(before);
      assert before[k] == cluster[k];
    }
  }

  /** The `l`-th job's column is chosen against the column ends left by the jobs before it. */
  lemma PlacementAt(cluster: seq<Job>, l: nat)
    requires l < |cluster|
    ensures Placements(cluster)[l] == ColumnFor(ColumnEnds(cluster[..l]), cluster[l].start)
  {
    var c := cluster[..l + 1];
    assert Placements(cluster)[l] == Placements(c)[l] by {
      PlacementsPrefix(cluster, l + 1);
    }
    assert Placements(c)[l] == ColumnFor(ColumnEnds(c[..l]), c[l].start) by {
      PlacementLast(c);
    }
    assert c[..l] == cluster[..l] && c[l] == cluster[l];
  }

  lemma PlacementLast(c: seq<Job>)
    requires c != []
    ensures Placements(c)[|c| - 1] == ColumnFor(ColumnEnds(c[..|c| - 1]), c[|c| - 1].start)
  {
  }

  lemma FirstFitStep(cluster: seq<Job>, i: nat)
    requires i < |cluster|
    ensures ColumnEnds(cluster[..i + 1]) == Place(ColumnEnds(cluster[..i]), cluster[i])
    ensures Placements(cluster[..i + 1]) == Placements(cluster[..i]) + [ColumnFor(ColumnEnds(cluster[..i]), cluster[i].start)]
  {
    assert cluster[..i + 1][..i] == cluster[..i];
  }

  /**
   * One step of the column loop: the job goes into the first free column,
   * or into a new one pushed at the end, whose end time becomes the job's end.
   */
  method PlaceJob(columns: seq<int>, job: Job) returns (placed: seq<int>, col: nat)
    ensures col == ColumnFor(columns, job.start) && placed == Place(columns, job)
    ensures col < |placed| && placed[col] == job.end
  {
    var free := FindFree(columns, job.start);
    placed := columns;
    if free == -1 {
      col := |placed|;
      placed := placed + [0];
    } else {
      col := free;
    }
    placed := placed[col := job.end];
  }

  /**
   * The `assignments` map after recording, in order, column `cols[k]` for
   * the `k`-th job: a later job with the same id overwrites an earlier one.
   */
  function AssignmentMap(cluster: seq<Job>, cols: seq<nat>): map<string, nat>
    requires |cols| == |cluster|
  {
    if cluster == [] then map[]
    else AssignmentMap(cluster[..|cluster| - 1], cols[..|cols| - 1])[cluster[|cluster| - 1].id := cols[|cols| - 1]]
  }

  lemma AssignmentStep(cluster: seq<Job>, cols: seq<nat>, i: nat, col: nat)
    requires i < |cluster| && |cols| == i
    ensures AssignmentMap(cluster[..i + 1], cols + [col]) == AssignmentMap(cluster[..i], cols)[cluster[i].id := col]
  {
    assert cluster[..i + 1][..i] == cluster[..i];
    assert (cols + [col])[..i] == cols;
  }

  /** Every job's id is recorded, with one of the recorded columns. */
  lemma {:induction false} AssignmentMapCovers(cluster: seq<Job>, cols: seq<nat>, n: nat)
    requires |cols| == |cluster|
    requires forall k :: 0 <= k < |cols| ==> cols[k] < n
    ensures forall k :: 0 <= k < |cluster| ==> cluster[k].id in AssignmentMap(cluster, cols)
    ensures forall id :: id in AssignmentMap(cluster, cols) ==> AssignmentMap(cluster, cols)[id] < n
  {
    if cluster != [] {
      AssignmentMapCovers(cluster[..|cluster| - 1], cols[..|cols| - 1], n);
    }
  }

  /** With distinct ids, each job's id maps to exactly the column recorded for that job. */
  lemma {:induction false} AssignmentMapUnique(cluster: seq<Job>, cols: seq<nat>)
    requires |cols| == |cluster| && UniqueIds(cluster)
    ensures forall k :: 0 <= k < |cluster| ==>
              cluster[k].id in AssignmentMap(cluster, cols) && AssignmentMap(cluster, cols)[cluster[k].id] == cols[k]
  {
    if cluster != [] {
      var init := cluster[..|cluster| - 1];
      AssignmentMapUnique(init, cols[..|cols| - 1]);
      forall k | 0 <= k < |cluster|
        ensures cluster[k].id in AssignmentMap(cluster, cols) && AssignmentMap(cluster, cols)[cluster[k].id] == cols[k]
      {
        if k < |init| {
          assert cluster[k].id != cluster[|cluster| - 1].id;
          assert init[k] == cluster[k];
        }
      }
    }
  }

  /**
   * The column loop of `layoutJobs` for one cluster: `columns` holds each
   * column's latest end time and `assignments` maps a job id to its column.
   */
  method AssignColumns(cluster: seq<Job>) returns (columns: seq<int>, assignments: map<string, nat>, ghost placed: seq<nat>)
    ensures columns == ColumnEnds(cluster) && placed == Placements(cluster)
    ensures assignments == AssignmentMap(cluster, placed)
    ensures cluster != [] ==> 1 <= |columns| <= |cluster|
    ensures forall k :: 0 <= k < |cluster| ==> placed[k] < |columns|
    ensures forall k :: 0 <= k < |cluster| ==> cluster[k].id in assignments
    ensures forall id :: id in assignments ==> assignments[id] < |columns|
    ensures UniqueIds(cluster) ==> forall k :: 0 <= k < |cluster| ==> assignments[cluster[k].id] == placed[k]
  {
    columns, assignments, placed := [], map[], [];
    var i := 0;
    while i < |cluster|
      invariant 0 <= i <= |cluster|
      invariant columns == ColumnEnds(cluster[..i]) && placed == Placements(cluster[..i])
      invariant assignments == AssignmentMap(cluster[..i], placed)
    {
      var job := cluster[i];
      FirstFitStep(cluster, i);
      AssignmentStep(cluster, placed, i, ColumnFor(columns, job.start));
      var col;
      columns, col := PlaceJob(columns, job);
      assignments := assignments[job.id := col];
      placed := placed + [col];
      i := i + 1;
    }
    assert cluster[..i] == cluster;
    PlacementsInRange(cluster);
    AssignmentMapCovers(cluster, placed, |columns|);
    if UniqueIds(cluster) {
      AssignmentMapUnique(cluster, placed);
    }
  }

  // ── Layout ─────────────────────────────────────────────────

  /** One laid-out card: the job, its vertical offset and height, its column and its cluster's column count. */
  datatype LayoutJob = LayoutJob(job: Job, top: real, height: real, column: nat, totalColumns: nat)

  /** `assignments.get(id) ?? 0`: the recorded column, or the first column for a job with none. */
  function Lookup(assignments: map<string, nat>, id: string): (column: nat)
    ensures id in assignments ==> column == assignments[id]
    ensures id !in assignments ==> column == 0
  {
    if id in assignments then assignments[id] else 0
  }

  /** Two jobs overlap in time. */
  predicate Overlap(a: Job, b: Job)
  {
    a.start < b.end && b.start < a.end
  }

  /** Cards whose jobs overlap carry the same column count. */
  predicate SharedTotals(cards: seq<LayoutJob>)
  {
    forall k, l :: 0 <= k < |cards| && 0 <= l < |cards| && Overlap(cards[k].job, cards[l].job) ==>
      cards[k].totalColumns == cards[l].totalColumns
  }

  /** Two different cards whose jobs overlap are in different columns. */
  predicate NoCollision(cards: seq<LayoutJob>)
  {
    forall k, l :: 0 <= k < |cards| && 0 <= l < |cards| && k != l && Overlap(cards[k].job, cards[l].job) ==>
      cards[k].column != cards[l].column
  }

  /** The vertical geometry of a card comes from its job's local start and end times. */
  predicate Positioned(card: LayoutJob, utcOffset: int)
  {
    && card.top == DayView.TimeToY(MinuteOfDay(card.job.start, utcOffset))
    && card.height == DayView.JobHeight(MinuteOfDay(card.job.start, utcOffset), MinuteOfDay(card.job.end, utcOffset))
  }

  /** The card `layoutJobs` stamps for one job: placed by the job's local times, in the given column. */
  function Card(job: Job, utcOffset: int, column: nat, totalColumns: nat): (card: LayoutJob)
    ensures card.job == job && Positioned(card, utcOffset)
    ensures card.column == column && card.totalColumns == totalColumns
  {
    var startMinute, endMinute := MinuteOfDay(job.start, utcOffset), MinuteOfDay(job.end, utcOffset);
    LayoutJob(job, DayView.TimeToY(startMinute), DayView.JobHeight(startMinute, endMinute), column, totalColumns)
  }

  /** The cards of one cluster, in order, each with its recorded column and the cluster's column count. */
  function StampCluster(cluster: seq<Job>, utcOffset: int): (cards: seq<LayoutJob>)
    ensures |cards| == |cluster|
  {
    Stamp(cluster, utcOffset, AssignmentMap(cluster, Placements(cluster)), |ColumnEnds(cluster)|)
  }

  /** Every job of `cluster` stamped with the column `assignments` records for it and the given column count. */
  function Stamp(cluster: seq<Job>, utcOffset: int, assignments: map<string, nat>, totalColumns: nat): (cards: seq<LayoutJob>)
    ensures |cards| == |cluster|
  {
    seq(|cluster|, b requires 0 <= b < |cluster| =>
      Card(cluster[b], utcOffset, Lookup(assignments, cluster[b].id), totalColumns))
  }

  /** The cards of all clusters, cluster after cluster: one card per job. */
  function Layout(clusters: seq<seq<Job>>, utcOffset: int): (cards: seq<LayoutJob>)
    ensures |cards| == |Flatten(clusters)|
  {
    if clusters == [] then []
    else Layout(clusters[..|clusters| - 1], utcOffset) + StampCluster(clusters[|clusters| - 1], utcOffset)
  }

  lemma LayoutStep(clusters: seq<seq<Job>>, ci: nat, utcOffset: int)
    requires ci < |clusters|
    ensures Layout(clusters[..ci + 1], utcOffset) == Layout(clusters[..ci], utcOffset) + StampCluster(clusters[ci], utcOffset)
  {
    assert clusters[..ci + 1][..ci] == clusters[..ci];
  }

  /**
   * `layoutJobs`: the jobs sorted, swept into clusters and stamped cluster by
   * cluster. One card per job, in sorted order, each inside its cluster's
   * columns; overlapping jobs share their column count and, when ids are
   * distinct and no job ends before it starts, never share a column.
   */
  method LayoutJobs(jobs: seq<Job>, utcOffset: int) returns (result: seq<LayoutJob>, ghost clusters: seq<seq<Job>>)
    ensures Flatten(clusters) == SortJobs(jobs) && IsSweep(clusters) && Separated(clusters)
    ensures result == Layout(clusters, utcOffset)
    ensures |result| == |jobs|
    ensures forall k :: 0 <= k < |result| ==>
              result[k].job == SortJobs(jobs)[k] && Positioned(result[k], utcOffset) &&
              result[k].column < result[k].totalColumns
    ensures SharedTotals(result)
    ensures UniqueIds(jobs) && WellTimed(jobs) ==> NoCollision(result)
  {
    result, clusters := [], [];
    if |jobs| == 0 {
      return;
    }
    var sorted := SortJobs(jobs);
    SortJobsSorted(jobs);
    var groups := GroupClusters(sorted);
    clusters := groups;
    var ci := 0;
    while ci < |groups|
      invariant 0 <= ci <= |groups|
      invariant result == Layout(groups[..ci], utcOffset)
    {
      var cards := StampCards(groups[ci], utcOffset);
      LayoutStep(groups, ci, utcOffset);
      result := result + cards;
      ci := ci + 1;
    }
    assert groups[..ci] == groups;
    LayoutOfSorted(jobs, clusters, utcOffset);
  }

  /**
   * The column loop and the card stamping for one cluster: assign the columns, then stamp every job of
   * the cluster with its column and the cluster's column count.
   */
  method StampCards(cluster: seq<Job>, utcOffset: int) returns (cards: seq<LayoutJob>)
    ensures cards == StampCluster(cluster, utcOffset)
  {
    var columns, assignments, placed := AssignColumns(cluster);
    cards := StampJobs(cluster, utcOffset, assignments, |columns|);
  }

  /** The card stamping: one card per job, in order, with the job's recorded column and the column count. */
  method StampJobs(cluster: seq<Job>, utcOffset: int, assignments: map<string, nat>, totalColumns: nat)
    returns (cards: seq<LayoutJob>)
    ensures cards == Stamp(cluster, utcOffset, assignments, totalColumns)
  {
    ghost var stamp := Stamp(cluster, utcOffset, assignments, totalColumns);
    cards := [];
    var b := 0;
    while b < |cluster|
      invariant 0 <= b <= |cluster|
      invariant cards == stamp[..b]
    {
      var job := cluster[b];
      var startMinute, endMinute := MinuteOfDay(job.start, utcOffset), MinuteOfDay(job.end, utcOffset);
      var card := LayoutJob(job, DayView.TimeToY(startMinute), DayView.JobHeight(startMinute, endMinute),
                            Lookup(assignments, job.id), totalColumns);
      assert card == stamp[b];
      TakeSnoc(stamp, b);
      cards := cards + [card];
      b := b + 1;
    }
    assert stamp[..b] == stamp;
  }

  /** What the layout of the clusters of the sorted jobs promises. */
  lemma LayoutOfSorted(jobs: seq<Job>, clusters: seq<seq<Job>>, utcOffset: int)
    requires Flatten(clusters) == SortJobs(jobs) && Separated(clusters)
    ensures |Layout(clusters, utcOffset)| == |jobs|
    ensures forall k :: 0 <= k < |jobs| ==>
              && Layout(clusters, utcOffset)[k].job == SortJobs(jobs)[k]
              && Positioned(Layout(clusters, utcOffset)[k], utcOffset)
              && Layout(clusters, utcOffset)[k].column < Layout(clusters, utcOffset)[k].totalColumns
    ensures SharedTotals(Layout(clusters, utcOffset))
    ensures UniqueIds(jobs) && WellTimed(jobs) ==> NoCollision(Layout(clusters, utcOffset))
  {
    LayoutShape(clusters, utcOffset);
    LayoutSharedTotals(clusters, utcOffset);
    if UniqueIds(jobs) && WellTimed(jobs) {
      SortJobsUniqueIds(jobs);
      forall c | c in clusters ensures UniqueIds(c) && WellTimed(c) {
        ClusterOfSorted(jobs, clusters, c);
      }
      LayoutNoCollision(clusters, utcOffset);
    }
  }

  /** A cluster of the sorted jobs keeps the distinct ids and the well-timedness of the jobs. */
  lemma ClusterOfSorted(jobs: seq<Job>, clusters: seq<seq<Job>>, c: seq<Job>)
    requires Flatten(clusters) == SortJobs(jobs) && c in clusters
    requires UniqueIds(SortJobs(jobs)) && WellTimed(jobs)
    ensures UniqueIds(c) && WellTimed(c)
  {
    var ci :| 0 <= ci < |clusters| && clusters[ci] == c;
    forall a, b | 0 <= a < b < |c| ensures c[a].id != c[b].id {
      FlattenIndex(clusters, ci, a);
      FlattenIndex(clusters, ci, b);
    }
    forall j | j in c ensures j.start <= j.end {
      var a :| 0 <= a < |c| && c[a] == j;
      FlattenIndex(clusters, ci, a);
      assert j in multiset(SortJobs(jobs));
    }
  }

  /** Every card of a cluster is positioned from its job and sits inside the cluster's columns. */
  lemma StampFacts(cluster: seq<Job>, utcOffset: int)
    ensures forall b :: 0 <= b < |cluster| ==>
              && StampCluster(cluster, utcOffset)[b].job == cluster[b]
              && Positioned(StampCluster(cluster, utcOffset)[b], utcOffset)
              && StampCluster(cluster, utcOffset)[b].totalColumns == |ColumnEnds(cluster)|
              && StampCluster(cluster, utcOffset)[b].column < |ColumnEnds(cluster)|
    ensures UniqueIds(cluster) ==>
              forall b :: 0 <= b < |cluster| ==> StampCluster(cluster, utcOffset)[b].column == Placements(cluster)[b]
  {
    PlacementsInRange(cluster);
    AssignmentMapCovers(cluster, Placements(cluster), |ColumnEnds(cluster)|);
    if UniqueIds(cluster) {
      AssignmentMapUnique(cluster, Placements(cluster));
    }
  }

  /** The layout has one card per job of the flattened clusters, in the same order. */
  lemma {:induction false} LayoutShape(clusters: seq<seq<Job>>, utcOffset: int)
    ensures |Layout(clusters, utcOffset)| == |Flatten(clusters)|
    ensures forall k :: 0 <= k < |Flatten(clusters)| ==>
              && Layout(clusters, utcOffset)[k].job == Flatten(clusters)[k]
              && Positioned(Layout(clusters, utcOffset)[k], utcOffset)
              && Layout(clusters, utcOffset)[k].column < Layout(clusters, utcOffset)[k].totalColumns
  {
    if clusters != [] {
      var init, c := clusters[..|clusters| - 1], clusters[|clusters| - 1];
      var before, stamp := Layout(init, utcOffset), StampCluster(c, utcOffset);
      var cards, jobs := Layout(clusters, utcOffset), Flatten(clusters);
      assert cards == before + stamp && jobs == Flatten(init) + c;
      LayoutShape(init, utcOffset);
      assert |before| == |Flatten(init)| && |stamp| == |c|;
      assert forall b :: 0 <= b < |c| ==>
               stamp[b].job == c[b] && Positioned(stamp[b], utcOffset) && stamp[b].column < stamp[b].totalColumns by {
        StampFacts(c, utcOffset);
      }
      forall k | 0 <= k < |jobs|
        ensures cards[k].job == jobs[k] && Positioned(cards[k], utcOffset) && cards[k].column < cards[k].totalColumns
      {
        AppendIndex(before, stamp, k);
        AppendIndex(Flatten(init), c, k);
      }
    }
  }

  /** Every job of `s` ends by the time any job of `c` starts. */
  predicate EndsBefore(s: seq<Job>, c: seq<Job>)
  {
    forall k, b :: 0 <= k < |s| && 0 <= b < |c| ==> s[k].end <= c[b].start
  }

  /** The jobs of the flattened clusters all end by the time any job of `c` starts. */
  lemma {:induction false} FlattenEndsBy(clusters: seq<seq<Job>>, c: seq<Job>)
    requires forall ci, a, b :: 0 <= ci < |clusters| && 0 <= a < |clusters[ci]| && 0 <= b < |c| ==>
               clusters[ci][a].end <= c[b].start
    ensures EndsBefore(Flatten(clusters), c)
  {
    if clusters != [] {
      var init, last := clusters[..|clusters| - 1], clusters[|clusters| - 1];
      FlattenEndsBy(init, c);
      forall k, b | 0 <= k < |Flatten(clusters)| && 0 <= b < |c| ensures Flatten(clusters)[k].end <= c[b].start {
        if k >= |Flatten(init)| {
          assert Flatten(clusters)[k] == last[k - |Flatten(init)|];
        }
      }
    }
  }

  /** Dropping the last cluster keeps the clusters separated, and its jobs start after all the others end. */
  lemma SeparatedInit(clusters: seq<seq<Job>>)
    requires Separated(clusters) && clusters != []
    ensures Separated(clusters[..|clusters| - 1])
    ensures EndsBefore(Flatten(clusters[..|clusters| - 1]), clusters[|clusters| - 1])
  {
    FlattenEndsBy(clusters[..|clusters| - 1], clusters[|clusters| - 1]);
  }

  /** Every card of `before` ends by the time any card of `after` starts. */
  predicate CardsBefore(before: seq<LayoutJob>, after: seq<LayoutJob>)
  {
    forall k, l :: 0 <= k < |before| && 0 <= l < |after| ==> before[k].job.end <= after[l].job.start
  }

  /** A card of an earlier cluster ends by the time any card of the last cluster starts. */
  lemma CrossClusterOrder(clusters: seq<seq<Job>>, utcOffset: int)
    requires Separated(clusters) && clusters != []
    ensures CardsBefore(Layout(clusters[..|clusters| - 1], utcOffset), StampCluster(clusters[|clusters| - 1], utcOffset))
  {
    var init, c := clusters[..|clusters| - 1], clusters[|clusters| - 1];
    var before, stamp := Layout(init, utcOffset), StampCluster(c, utcOffset);
    assert |before| == |Flatten(init)| && forall k :: 0 <= k < |before| ==> before[k].job == Flatten(init)[k] by {
      LayoutShape(init, utcOffset);
    }
    assert |stamp| == |c| && forall b :: 0 <= b < |c| ==> stamp[b].job == c[b] by {
      StampFacts(c, utcOffset);
    }
    assert EndsBefore(Flatten(init), c) by {
      SeparatedInit(clusters);
    }
    CardsOfJobsBefore(before, stamp, Flatten(init), c);
  }

  /** Cards carrying jobs that end before the jobs of other cards end before those cards. */
  lemma CardsOfJobsBefore(before: seq<LayoutJob>, after: seq<LayoutJob>, s: seq<Job>, c: seq<Job>)
    requires |before| == |s| && forall k :: 0 <= k < |before| ==> before[k].job == s[k]
    requires |after| == |c| && forall b :: 0 <= b < |c| ==> after[b].job == c[b]
    requires EndsBefore(s, c)
    ensures CardsBefore(before, after)
  {
  }

  lemma AppendIndex<T>(a: seq<T>, b: seq<T>, i: nat)
    requires i < |a| + |b|
    ensures (a + b)[i] == if i < |a| then a[i] else b[i - |a|]
  {
  }

  /** Overlapping cards come from one cluster, so they carry the same column count. */
  lemma {:induction false} LayoutSharedTotals(clusters: seq<seq<Job>>, utcOffset: int)
    requires Separated(clusters)
    ensures SharedTotals(Layout(clusters, utcOffset))
  {
    if clusters != [] {
      var init, c := clusters[..|clusters| - 1], clusters[|clusters| - 1];
      var before, stamp := Layout(init, utcOffset), StampCluster(c, utcOffset);
      assert Layout(clusters, utcOffset) == before + stamp;
      assert SharedTotals(before) by {
        SeparatedInit(clusters);
        LayoutSharedTotals(init, utcOffset);
      }
      assert SharedTotals(stamp) by {
        StampFacts(c, utcOffset);
      }
      CrossClusterOrder(clusters, utcOffset);
      SharedTotalsAppend(before, stamp);
    }
  }

  /** Two runs of cards that each share their column counts, the first ending before the second starts, share them together. */
  lemma SharedTotalsAppend(before: seq<LayoutJob>, after: seq<LayoutJob>)
    requires SharedTotals(before) && SharedTotals(after) && CardsBefore(before, after)
    ensures SharedTotals(before + after)
  {
    var cards, n := before + after, |before|;
    forall k, l | 0 <= k < |cards| && 0 <= l < |cards|
      ensures Overlap(cards[k].job, cards[l].job) ==> cards[k].totalColumns == cards[l].totalColumns
    {
      AppendIndex(before, after, k);
      AppendIndex(before, after, l);
      if k < n && l >= n {
        assert !Overlap(cards[k].job, cards[l].job) by {
          assert before[k].job.end <= after[l - n].job.start;
        }
      } else if l < n && k >= n {
        assert !Overlap(cards[k].job, cards[l].job) by {
          assert before[l].job.end <= after[k - n].job.start;
        }
      }
    }
  }

  /** First fit inside one cluster: overlapping cards of the cluster never share a column. */
  lemma StampNoCollision(cluster: seq<Job>, utcOffset: int)
    requires UniqueIds(cluster) && WellTimed(cluster)
    ensures NoCollision(StampCluster(cluster, utcOffset))
  {
    StampFacts(cluster, utcOffset);
    var placed, stamp := Placements(cluster), StampCluster(cluster, utcOffset);
    forall k, l | 0 <= k < |stamp| && 0 <= l < |stamp| && k != l
      ensures Overlap(stamp[k].job, stamp[l].job) ==> stamp[k].column != stamp[l].column
    {
      assert stamp[k].job == cluster[k] && stamp[k].column == placed[k];
      assert stamp[l].job == cluster[l] && stamp[l].column == placed[l];
      if placed[k] == placed[l] {
        if k < l {
          FirstFitNoCollision(cluster, k, l);
        } else {
          FirstFitNoCollision(cluster, l, k);
        }
      }
    }
  }

  /** With distinct ids and well-timed jobs in every cluster, overlapping cards never share a column. */
  lemma {:induction false} LayoutNoCollision(clusters: seq<seq<Job>>, utcOffset: int)
    requires Separated(clusters)
    requires forall c :: c in clusters ==> UniqueIds(c) && WellTimed(c)
    ensures NoCollision(Layout(clusters, utcOffset))
  {
    if clusters != [] {
      var init, c := clusters[..|clusters| - 1], clusters[|clusters| - 1];
      var before, stamp := Layout(init, utcOffset), StampCluster(c, utcOffset);
      assert Layout(clusters, utcOffset) == before + stamp;
      assert NoCollision(before) by {
        SeparatedInit(clusters);
        assert forall d :: d in init ==> d in clusters;
        LayoutNoCollision(init, utcOffset);
      }
      assert NoCollision(stamp) by {
        assert c in clusters;
        StampNoCollision(c, utcOffset);
      }
      CrossClusterOrder(clusters, utcOffset);
      NoCollisionAppend(before, stamp);
    }
  }

  /** Two collision-free runs of cards, the first ending before the second starts, stay collision-free together. */
  lemma NoCollisionAppend(before: seq<LayoutJob>, after: seq<LayoutJob>)
    requires NoCollision(before) && NoCollision(after) && CardsBefore(before, after)
    ensures NoCollision(before + after)
  {
    var cards, n := before + after, |before|;
    forall k, l | 0 <= k < |cards| && 0 <= l < |cards| && k != l
      ensures Overlap(cards[k].job, cards[l].job) ==> cards[k].column != cards[l].column
    {
      AppendIndex(before, after, k);
      AppendIndex(before, after, l);
      if k < n && l >= n {
        assert !Overlap(cards[k].job, cards[l].job) by {
          assert before[k].job.end <= after[l - n].job.start;
        }
      } else if l < n && k >= n {
        assert !Overlap(cards[k].job, cards[l].job) by {
          assert before[l].job.end <= after[k - n].job.start;
        }
      }
    }
  }
}
