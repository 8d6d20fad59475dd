/** `projects.sort((a, b) => a.priority - b.priority)`. The comparator sort of JavaScript is stable,
    so it is modelled as an insertion sort that keeps equal priorities in their input order. */
module Ordering {
  import opened Types

  ghost predicate SortedByPriority(s: seq<Project>) {
    forall i, j :: 0 <= i < j < |s| ==> s[i].priority <= s[j].priority
  }

  /** The projects of priority `k`, in their order in `s`. */
  function PriorityRun(s: seq<Project>, k: int): (r: seq<Project>)
    ensures forall i :: 0 <= i < |r| ==> r[i].priority == k
    ensures multiset(r) <= multiset(s)
  {
    if s == [] then []
    else
      assert s == [s[0]] + s[1..];
      if s[0].priority == k then [s[0]] + PriorityRun(s[1..], k) else PriorityRun(s[1..], k)
  }

  /** Inserts `x` before the first project whose priority is at least its own. */
  function Insert(x: Project, s: seq<Project>): (r: seq<Project>)
    ensures multiset(r) == multiset(s) + multiset{x}
    ensures |r| == |s| + 1
    ensures r[0] == x || (s != [] && r[0] == s[0])
  {
    if s == [] || x.priority <= s[0].priority then [x] + s
    else
      var rest := Insert(x, s[1..]);
      assert s == [s[0]] + s[1..];
      [s[0]] + rest
  }

  /** Insertion keeps a sorted sequence sorted. */
  lemma {:induction false} InsertSorted(x: Project, s: seq<Project>)
    requires SortedByPriority(s)
    ensures SortedByPriority(Insert(x, s))
    decreases |s|
  {
    if s != [] && s[0].priority < x.priority {
      assert SortedByPriority(s[1..]);
      InsertSorted(x, s[1..]);
    }
  }

  function SortByPriority(s: seq<Project>): (r: seq<Project>)
    ensures SortedByPriority(r)
    ensures multiset(r) == multiset(s)
    ensures |r| == |s|
  {
    if s == [] then []
    else
      assert s == [s[0]] + s[1..];
      InsertSorted(s[0], SortByPriority(s[1..]));
      Insert(s[0], SortByPriority(s[1..]))
  }

  /** The run of k in `[a] + t`: `a` itself when it has priority k, then the run of k in `t`. */
  ghost function Joined(a: Project, t: seq<Project>, k: int): seq<Project> {
    if a.priority == k then [a] + t else t
  }

  lemma PriorityRunCons(a: Project, t: seq<Project>, k: int)
    ensures PriorityRun([a] + t, k) == Joined(a, PriorityRun(t, k), k)
  {
    assert ([a] + t)[0] == a && ([a] + t)[1..] == t;
  }

  /** Inserting `x` puts it at the front of its own priority run and leaves every other run alone. */
  lemma {:induction false} InsertKeepsRuns(x: Project, s: seq<Project>, k: int)
    ensures PriorityRun(Insert(x, s), k) == Joined(x, PriorityRun(s, k), k)
    decreases |s|
  {
    if s == [] || x.priority <= s[0].priority {
      PriorityRunCons(x, s, k);
    } else {
      InsertKeepsRuns(x, s[1..], k);
      InsertAfterHead(x, s, k);
    }
  }

  /** The step of `InsertKeepsRuns` where `x` goes behind the head of `s`, which sorts strictly
      before it and so is not in the run of `x`'s priority. */
  lemma InsertAfterHead(x: Project, s: seq<Project>, k: int)
    ensures s != [] && s[0].priority < x.priority &&
            PriorityRun(Insert(x, s[1..]), k) == Joined(x, PriorityRun(s[1..], k), k) ==>
              PriorityRun(Insert(x, s), k) == Joined(x, PriorityRun(s, k), k)
  {
    if s != [] && s[0].priority < x.priority {
      var rest := Insert(x, s[1..]);
      assert Insert(x, s) == [s[0]] + rest;
      PriorityRunCons(s[0], rest, k);
      assert x.priority == k ==> s[0].priority != k;
    }
  }

  /** Stability: for every priority, the projects of that priority keep their relative order. */
  lemma {:induction false} SortIsStable(s: seq<Project>, k: int)
    ensures PriorityRun(SortByPriority(s), k) == PriorityRun(s, k)
    decreases |s|
  {
    if s != [] {
      SortIsStable(s[1..], k);
      InsertKeepsRuns(s[0], SortByPriority(s[1..]), k);
    }
  }

  /** An already sorted sequence is left as it is. */
  lemma {:induction false} SortOfSorted(s: seq<Project>)
    requires SortedByPriority(s)
    ensures SortByPriority(s) == s
    decreases |s|
  {
    if s != [] {
      assert SortedByPriority(s[1..]);
      SortOfSorted(s[1..]);
      assert s == [s[0]] + s[1..];
    }
  }
}
