/** Job run logs of a case, newest first, page by page (ListLogsByCase of pkg/usecase/job_run.go): one list of at
    most 100 logs per job, merged, sorted and walked by a keyset cursor. */
module JobRuns {
  import opened Cases

  const PAGE_DEFAULT := 20
  const PAGE_MAX := 100

  datatype Log = Log(started: int, runId: string)

  function Min(a: nat, b: nat): nat { if a <= b then a else b }

  // ----- The order: StartedAt descending, then RunID descending -----

  predicate Less(a: string, b: string)
    decreases |a|
  {
    b != "" && (a == "" || a[0] < b[0] || (a[0] == b[0] && Less(a[1..], b[1..])))
  }

  lemma {:induction false} LessIsTotal(a: string, b: string)
    ensures !(Less(a, b) && Less(b, a)) && (a == b <==> !Less(a, b) && !Less(b, a))
    decreases |a|
  {
    if a != "" && b != "" && a[0] == b[0] {
      LessIsTotal(a[1..], b[1..]);
      assert a == [a[0]] + a[1..] && b == [b[0]] + b[1..];
    }
  }

  lemma {:induction false} LessIsTransitive(a: string, b: string, c: string)
    requires Less(a, b) && Less(b, c)
    ensures Less(a, c)
    decreases |a|
  {
    if a != "" && a[0] == b[0] == c[0] {
      LessIsTransitive(a[1..], b[1..], c[1..]);
    }
  }

  predicate Newer(a: Log, b: Log) {
    a.started > b.started || (a.started == b.started && Less(b.runId, a.runId))
  }

  /** The order is strict and total on logs: no two different logs tie. */
  lemma NewerIsTotal(a: Log, b: Log)
    ensures !(Newer(a, b) && Newer(b, a)) && (a == b <==> !Newer(a, b) && !Newer(b, a))
  {
    LessIsTotal(a.runId, b.runId);
  }

  lemma NewerIsTransitive(a: Log, b: Log, c: Log)
    requires Newer(a, b) && Newer(b, c)
    ensures Newer(a, c)
  {
    if a.started == b.started == c.started {
      LessIsTransitive(c.runId, b.runId, a.runId);
    }
  }

  // ----- Lists of logs -----

  predicate NoDup(s: seq<Log>)
    decreases |s|
  {
    s != [] ==> s[0] !in s[1..] && NoDup(s[1..])
  }

  function Elements(s: seq<Log>): set<Log> {
    set x | x in s
  }

  predicate Sorted(s: seq<Log>) {
    forall i, j :: 0 <= i < j < |s| ==> Newer(s[i], s[j])
  }

  lemma {:induction false} NoDupCounts(s: seq<Log>)
    requires NoDup(s)
    ensures |Elements(s)| == |s|
  {
    if s != [] {
      NoDupCounts(s[1..]);
      assert Elements(s) == {s[0]} + Elements(s[1..]);
    }
  }

  lemma {:induction false} SortedHasNoDup(s: seq<Log>)
    requires Sorted(s)
    ensures NoDup(s) && |Elements(s)| == |s|
    decreases |s|
  {
    if s != [] {
      forall j | 1 <= j < |s|
        ensures s[j] != s[0]
      {
        NewerIsTotal(s[0], s[j]);
      }
      SortedHasNoDup(s[1..]);
    }
    NoDupCounts(s);
  }

  lemma {:induction false} NoDupJoin(a: seq<Log>, b: seq<Log>)
    requires forall x :: x in a ==> x !in b
    ensures NoDup(a + b) <==> NoDup(a) && NoDup(b)
    decreases |a|
  {
    if a == [] {
      assert a + b == b;
    } else {
      NoDupJoin(a[1..], b);
      assert (a + b)[1..] == a[1..] + b;
    }
  }

  /** The two halves of a list without repetition share nothing. */
  lemma {:induction false} NoDupParts(a: seq<Log>, b: seq<Log>)
    requires NoDup(a + b)
    ensures NoDup(a) && NoDup(b) && forall x :: x in a ==> x !in b
    decreases |a|
  {
    if a == [] {
      assert a + b == b;
    } else {
      assert (a + b)[1..] == a[1..] + b;
      NoDupParts(a[1..], b);
    }
  }

  function Insert(x: Log, s: seq<Log>): (r: seq<Log>)
    ensures Elements(r) == Elements(s) + {x} && |r| == |s| + 1
    decreases |s|
  {
    if s == [] then [x]
    else if Newer(x, s[0]) then [x] + s
    else
      var r := [s[0]] + Insert(x, s[1..]);
      assert Elements(s) == {s[0]} + Elements(s[1..]);
      assert Elements(r) == {s[0]} + Elements(Insert(x, s[1..]));
      r
  }

  /** sort.Slice by the order above */
  function Sort(s: seq<Log>): (r: seq<Log>)
    ensures Elements(r) == Elements(s) && |r| == |s|
    decreases |s|
  {
    if s == [] then []
    else
      assert Elements(s) == {s[0]} + Elements(s[1..]);
      Insert(s[0], Sort(s[1..]))
  }

  lemma {:induction false} InsertKeepsSorted(x: Log, s: seq<Log>)
    requires Sorted(s) && x !in s
    ensures Sorted(Insert(x, s))
    decreases |s|
  {
    if s != [] {
      NewerIsTotal(x, s[0]);
      if Newer(x, s[0]) {
        forall j | 1 <= j < |s|
          ensures Newer(x, s[j])
        {
          NewerIsTransitive(x, s[0], s[j]);
        }
      } else {
        InsertKeepsSorted(x, s[1..]);
        var rest := Insert(x, s[1..]);
        forall j | 0 <= j < |rest|
          ensures Newer(s[0], rest[j])
        {
          assert rest[j] in Elements(rest);
        }
      }
    }
  }

  lemma {:induction false} SortSorts(s: seq<Log>)
    requires NoDup(s)
    ensures Sorted(Sort(s))
    decreases |s|
  {
    if s != [] {
      SortSorts(s[1..]);
      assert s[0] !in Elements(Sort(s[1..]));
      InsertKeepsSorted(s[0], Sort(s[1..]));
    }
  }

  /** A sorted list is determined by the logs in it. */
  lemma {:induction false} SortedBySet(a: seq<Log>, b: seq<Log>)
    requires Sorted(a) && Sorted(b) && Elements(a) == Elements(b)
    ensures a == b
    decreases |a|
  {
    SortedHasNoDup(a);
    SortedHasNoDup(b);
    if a != [] {
      assert a[0] in Elements(b) && b[0] in Elements(a);
      NewerIsTotal(a[0], b[0]);
      assert a[0] == b[0];
      assert Elements(a[1..]) == Elements(a) - {a[0]};
      assert Elements(b[1..]) == Elements(b) - {b[0]};
      SortedBySet(a[1..], b[1..]);
      assert a == [a[0]] + a[1..] && b == [b[0]] + b[1..];
    }
  }

  // ----- The newest n of a set -----

  /** The n newest logs of a set, newest first. */
  ghost predicate IsNewest(items: seq<Log>, all: set<Log>, n: nat) {
    Sorted(items) && Elements(items) <= all && |items| == Min(n, |all|)
    && forall x, y :: x in all && x !in items && y in items ==> Newer(y, x)
  }

  lemma PrefixIsNewest(s: seq<Log>, n: nat)
    requires Sorted(s)
    ensures IsNewest(s[..Min(n, |s|)], Elements(s), n)
  {
    SortedHasNoDup(s);
    var items := s[..Min(n, |s|)];
    assert forall k :: 0 <= k < |items| ==> s[k] == items[k] && s[k] in items;
    forall x, y | x in Elements(s) && x !in items && y in items
      ensures Newer(y, x)
    {
      var i :| 0 <= i < |s| && s[i] == x;
      var j :| 0 <= j < |items| && items[j] == y;
    }
  }

  lemma NewestIsUnique(a: seq<Log>, b: seq<Log>, all: set<Log>, n: nat)
    requires IsNewest(a, all, n) && IsNewest(b, all, n)
    ensures a == b
  {
    SortedHasNoDup(a);
    SortedHasNoDup(b);
    NewestWithinNewest(a, b, all, n);
    NewestWithinNewest(b, a, all, n);
    SortedBySet(a, b);
  }

  lemma NewestWithinNewest(a: seq<Log>, b: seq<Log>, all: set<Log>, n: nat)
    requires IsNewest(a, all, n) && IsNewest(b, all, n)
    ensures Elements(a) <= Elements(b)
  {
    SortedHasNoDup(a);
    SortedHasNoDup(b);
    forall x | x in a
      ensures x in b
    {
      if x !in b {
        if Elements(b) <= Elements(a) {
          SubsetCounts(Elements(b), Elements(a) - {x});
          assert false;
        } else {
          var y :| y in Elements(b) && y !in Elements(a);
          NewerIsTotal(x, y);
          assert false;
        }
      }
    }
  }

  lemma SubsetCounts<T>(a: set<T>, b: set<T>)
    requires a <= b
    ensures |a| <= |b| && (|a| == |b| ==> a == b)
  {
    assert b == a + (b - a);
  }

  /** The newest n of a set are the newest n of every subset that holds them. */
  lemma NewestOfSubset(items: seq<Log>, all: set<Log>, sub: set<Log>, n: nat)
    requires IsNewest(items, all, n) && Elements(items) <= sub <= all
    ensures IsNewest(items, sub, n)
  {
    SortedHasNoDup(items);
    SubsetCounts(Elements(items), sub);
    SubsetCounts(sub, all);
  }

  // ----- One list per job -----

  function Flat(lists: seq<seq<Log>>): (r: seq<Log>)
    ensures forall x :: x in r <==> exists j :: 0 <= j < |lists| && x in lists[j]
    decreases |lists|
  {
    if lists == [] then []
    else
      var rest := Flat(lists[1..]);
      assert forall x :: x in rest ==> exists j :: 0 <= j < |lists| && x in lists[j] by {
        forall x | x in rest
          ensures exists j :: 0 <= j < |lists| && x in lists[j]
        {
          var k :| 0 <= k < |lists[1..]| && x in lists[1..][k];
          assert x in lists[k + 1];
        }
      }
      assert forall j :: 1 <= j < |lists| ==> lists[j] == lists[1..][j - 1];
      lists[0] + rest
  }

  /** No log is in two places. */
  lemma {:induction false} FlatSeparates(lists: seq<seq<Log>>)
    requires NoDup(Flat(lists))
    ensures forall j :: 0 <= j < |lists| ==> NoDup(lists[j])
    ensures forall j, k, x :: 0 <= j < k < |lists| && x in lists[j] ==> x !in lists[k]
    decreases |lists|
  {
    if lists != [] {
      NoDupParts(lists[0], Flat(lists[1..]));
      FlatSeparates(lists[1..]);
      assert forall j :: 1 <= j < |lists| ==> lists[j] == lists[1..][j - 1];
    }
  }

  lemma {:induction false} FlatOfParts(lists: seq<seq<Log>>, parts: seq<seq<Log>>)
    requires NoDup(Flat(lists)) && |parts| == |lists|
    requires forall j :: 0 <= j < |lists| ==> NoDup(parts[j]) && Elements(parts[j]) <= Elements(lists[j])
    ensures NoDup(Flat(parts)) && Elements(Flat(parts)) <= Elements(Flat(lists))
    decreases |lists|
  {
    if lists != [] {
      var rest, left := Flat(lists[1..]), Flat(parts[1..]);
      NoDupParts(lists[0], rest);
      FlatOfParts(lists[1..], parts[1..]);
      assert Elements(parts[0]) <= Elements(lists[0]) && Elements(left) <= Elements(rest);
      forall x | x in parts[0]
        ensures x in lists[0] && x !in left
      {
        assert x in Elements(lists[0]) && (x in left ==> x in Elements(rest));
      }
      NoDupJoin(parts[0], left);
      forall x | x in left
        ensures x in rest
      {
        assert x in Elements(rest);
      }
    }
  }

  /** The first page over the given lists. */
  function FirstPage(lists: seq<seq<Log>>, n: nat): seq<Log> {
    var all := Sort(Flat(lists));
    all[..Min(n, |all|)]
  }

  lemma FirstPageIsNewest(lists: seq<seq<Log>>, n: nat)
    requires NoDup(Flat(lists))
    ensures IsNewest(FirstPage(lists, n), Elements(Flat(lists)), n)
  {
    SortSorts(Flat(lists));
    PrefixIsNewest(Sort(Flat(lists)), n);
  }

  /** What List may answer for a job's history: the newest 100 by start time. Its contract says nothing about the order
      of logs that started together, so it may keep either when the cut falls between them; the in-memory store, which
      reads a Go map, gives every such answer (InMemoryListIsAnyList). */
  predicate IsList(history: seq<Log>, cut: seq<Log>) {
    NoDup(cut) && Elements(cut) <= Elements(history) && |cut| == Min(PAGE_MAX, |history|)
    && (forall i, j :: 0 <= i < j < |cut| ==> cut[i].started >= cut[j].started)
    && (forall x, y :: x in history && x !in cut && y in cut ==> y.started >= x.started)
  }

  predicate IsAnswer(jobs: seq<seq<Log>>, answers: seq<seq<Log>>) {
    |answers| == |jobs| && forall j :: 0 <= j < |jobs| ==> IsList(jobs[j], answers[j])
  }

  /** The cut also respects the run id order. */
  predicate IsClean(history: seq<Log>, cut: seq<Log>) {
    forall x, y :: x in history && x !in cut && y in cut ==> Newer(y, x)
  }

  lemma AnswersAreParts(jobs: seq<seq<Log>>, answers: seq<seq<Log>>)
    requires NoDup(Flat(jobs)) && IsAnswer(jobs, answers)
    ensures NoDup(Flat(answers)) && Elements(Flat(answers)) <= Elements(Flat(jobs))
  {
    FlatOfParts(jobs, answers);
  }

  /** If every log of the true first page was collected, the page is the true first page. */
  lemma CollectedFirstPage(jobs: seq<seq<Log>>, answers: seq<seq<Log>>, n: nat)
    requires NoDup(Flat(jobs)) && IsAnswer(jobs, answers)
    requires Elements(FirstPage(jobs, n)) <= Elements(Flat(answers))
    ensures FirstPage(answers, n) == FirstPage(jobs, n)
  {
    AnswersAreParts(jobs, answers);
    FirstPageIsNewest(jobs, n);
    FirstPageIsNewest(answers, n);
    NewestOfSubset(FirstPage(jobs, n), Elements(Flat(jobs)), Elements(Flat(answers)), n);
    NewestIsUnique(FirstPage(answers, n), FirstPage(jobs, n), Elements(Flat(answers)), n);
  }

  /** A log of the newest 100 that its job's cut leaves out would come after a hundred newer ones. */
  lemma CleanCutKeeps(history: seq<Log>, cut: seq<Log>, page: seq<Log>, all: set<Log>, n: nat, x: Log)
    requires NoDup(history) && IsList(history, cut) && IsClean(history, cut) && Elements(history) <= all
    requires n <= PAGE_MAX && IsNewest(page, all, n)
    requires x in page && x in history
    ensures x in cut
  {
    if x !in cut {
      SortedHasNoDup(page);
      FullCut(history, cut, x);
      forall y | y in Elements(cut)
        ensures y in Elements(page) - {x}
      {
        assert y in Elements(history) && Newer(y, x);
        NewerIsTotal(x, y);
      }
      SubsetCounts(Elements(cut), Elements(page) - {x});
      assert false;
    }
  }

  lemma FullCut(history: seq<Log>, cut: seq<Log>, x: Log)
    requires NoDup(history) && IsList(history, cut) && x in history && x !in cut
    ensures |Elements(cut)| == PAGE_MAX
  {
    NoDupCounts(cut);
    NoDupCounts(history);
    SubsetCounts(Elements(cut), Elements(history));
    assert x in Elements(history);
  }

  /** The hundred-log cut per job does not spoil the first page, whatever the page size and the number of jobs,
      when each cut respects the full order. */
  lemma CleanCutsGiveTheFirstPage(jobs: seq<seq<Log>>, answers: seq<seq<Log>>, n: nat)
    requires NoDup(Flat(jobs)) && IsAnswer(jobs, answers) && n <= PAGE_MAX
    requires forall j :: 0 <= j < |jobs| ==> IsClean(jobs[j], answers[j])
    ensures FirstPage(answers, n) == FirstPage(jobs, n)
    ensures IsNewest(FirstPage(answers, n), Elements(Flat(jobs)), n)
  {
    FlatSeparates(jobs);
    FirstPageIsNewest(jobs, n);
    forall x | x in FirstPage(jobs, n)
      ensures x in Flat(answers)
    {
      assert x in Elements(Flat(jobs));
      var j :| 0 <= j < |jobs| && x in jobs[j];
      assert Elements(jobs[j]) <= Elements(Flat(jobs));
      CleanCutKeeps(jobs[j], answers[j], FirstPage(jobs, n), Elements(Flat(jobs)), n, x);
    }
    CollectedFirstPage(jobs, answers, n);
  }

  // ----- Exactly when the first page is safe from ties at the cut -----

  /** The logs of a history that started no earlier than x. */
  function NoEarlier(history: seq<Log>, x: Log): set<Log> {
    set y | y in history && y.started >= x.started
  }

  /** x, and all that started with or after it, fit in its job's list. */
  predicate Fits(jobs: seq<seq<Log>>, x: Log) {
    forall j :: 0 <= j < |jobs| && x in jobs[j] ==> |NoEarlier(jobs[j], x)| <= PAGE_MAX
  }

  lemma FittingLogIsListed(history: seq<Log>, cut: seq<Log>, x: Log)
    requires NoDup(history) && IsList(history, cut) && x in history && |NoEarlier(history, x)| <= PAGE_MAX
    ensures x in cut
  {
    if x !in cut {
      NoDupCounts(cut);
      NoDupCounts(history);
      assert Elements(cut) + {x} <= NoEarlier(history, x);
      SubsetCounts(Elements(cut) + {x}, NoEarlier(history, x));
      SubsetCounts(Elements(cut) + {x}, Elements(history));
      assert false;
    }
  }

  /** The list that keeps the newest 100 of what `pool` holds, logs that started together by run id. Firestore answers
      with it: documents that tie on the sort field follow their names, here the run ids, in the same direction. */
  function Cut(pool: seq<Log>): seq<Log> {
    Sort(pool)[..Min(PAGE_MAX, |pool|)]
  }

  lemma CutIsNewest(pool: seq<Log>)
    requires NoDup(pool)
    ensures IsNewest(Cut(pool), Elements(pool), PAGE_MAX)
  {
    SortSorts(pool);
    PrefixIsNewest(Sort(pool), PAGE_MAX);
  }

  lemma NewestIsList(history: seq<Log>, cut: seq<Log>)
    requires NoDup(history) && IsNewest(cut, Elements(history), PAGE_MAX)
    ensures IsList(history, cut) && IsClean(history, cut)
  {
    SortedHasNoDup(cut);
    NoDupCounts(history);
    forall x, y | x in history && x !in cut && y in cut
      ensures Newer(y, x)
    {
      assert x in Elements(history);
    }
  }

  function Without(s: seq<Log>, x: Log): (r: seq<Log>)
    ensures Elements(r) == Elements(s) - {x}
    ensures NoDup(s) ==> NoDup(r)
    decreases |s|
  {
    if s == [] then []
    else
      var rest := Without(s[1..], x);
      assert Elements(s) == {s[0]} + Elements(s[1..]);
      assert forall y :: y in rest <==> y in Elements(rest);
      if s[0] == x then rest else [s[0]] + rest
  }

  /** When more than 100 logs started no earlier than x, List may leave x out. */
  lemma CrowdedLogMayBeCut(history: seq<Log>, cut: seq<Log>, x: Log)
    requires NoDup(history) && x in history && |NoEarlier(history, x)| > PAGE_MAX
    requires IsNewest(cut, Elements(history) - {x}, PAGE_MAX)
    ensures IsList(history, cut) && x !in cut
  {
    NoDupCounts(history);
    SortedHasNoDup(cut);
    SubsetCounts(NoEarlier(history, x), Elements(history));
    assert x in Elements(history);
    assert x in cut ==> x in Elements(cut);
    forall y | y in cut
      ensures y.started >= x.started
    {
      KeptIsNoEarlier(history, cut, x, y);
    }
    forall z, y | z in history && z !in cut && y in cut
      ensures y.started >= z.started
    {
      if z != x {
        assert z in Elements(history) - {x};
        assert Newer(y, z);
      }
    }
  }

  lemma KeptIsNoEarlier(history: seq<Log>, cut: seq<Log>, x: Log, y: Log)
    requires NoDup(history) && x in history && |NoEarlier(history, x)| > PAGE_MAX
    requires IsNewest(cut, Elements(history) - {x}, PAGE_MAX) && y in cut
    ensures y.started >= x.started
  {
    SortedHasNoDup(cut);
    assert y in Elements(cut);
    if y.started < x.started {
      var crowd := NoEarlier(history, x) - {x};
      forall z | z in crowd
        ensures z in Elements(cut) - {y}
      {
        assert z in Elements(history) - {x};
        NewerIsTotal(z, y);
      }
      SubsetCounts(crowd, Elements(cut) - {y});
      assert false;
    }
  }

  function Cuts(jobs: seq<seq<Log>>): seq<seq<Log>> {
    seq(|jobs|, j requires 0 <= j < |jobs| => Cut(jobs[j]))
  }

  /** The first page is the newest n logs of every job's whole history, whatever List answers, exactly when each
      of those logs shares its start time with few enough of its job's logs for all of them to fit in the list. */
  lemma FirstPageIsNewestExactlyWhen(jobs: seq<seq<Log>>, n: nat)
    requires NoDup(Flat(jobs)) && n <= PAGE_MAX
    ensures (forall answers :: IsAnswer(jobs, answers) ==> FirstPage(answers, n) == FirstPage(jobs, n))
            <==> forall x :: x in FirstPage(jobs, n) ==> Fits(jobs, x)
  {
    FlatSeparates(jobs);
    FirstPageIsNewest(jobs, n);
    if forall x :: x in FirstPage(jobs, n) ==> Fits(jobs, x) {
      forall answers | IsAnswer(jobs, answers)
        ensures FirstPage(answers, n) == FirstPage(jobs, n)
      {
        FittingPageIsCollected(jobs, answers, n);
        CollectedFirstPage(jobs, answers, n);
      }
    } else {
      var x :| x in FirstPage(jobs, n) && !Fits(jobs, x);
      var j :| 0 <= j < |jobs| && x in jobs[j] && |NoEarlier(jobs[j], x)| > PAGE_MAX;
      var _ := CrowdedLogSpoils(jobs, n, x, j);
    }
  }

  /** With Firestore's lists ties never matter. */
  lemma FirestorePageIsNewest(jobs: seq<seq<Log>>, n: nat)
    requires NoDup(Flat(jobs)) && n <= PAGE_MAX
    ensures IsAnswer(jobs, Cuts(jobs)) && FirstPage(Cuts(jobs), n) == FirstPage(jobs, n)
  {
    FlatSeparates(jobs);
    forall j | 0 <= j < |jobs|
      ensures IsList(jobs[j], Cuts(jobs)[j]) && IsClean(jobs[j], Cuts(jobs)[j])
    {
      CutIsNewest(jobs[j]);
      NewestIsList(jobs[j], Cuts(jobs)[j]);
    }
    CleanCutsGiveTheFirstPage(jobs, Cuts(jobs), n);
  }

  // ----- The in-memory List -----

  predicate Descending(s: seq<Log>) {
    forall i, j :: 0 <= i < j < |s| ==> s[i].started >= s[j].started
  }

  /** A log goes behind those that started with it, as in a stable sort. */
  function Place(s: seq<Log>, x: Log): seq<Log>
    decreases |s|
  {
    if s == [] then [x]
    else if s[0].started < x.started then [x] + s
    else [s[0]] + Place(s[1..], x)
  }

  function StableSort(s: seq<Log>): seq<Log>
    decreases |s|
  {
    if s == [] then [] else Place(StableSort(s[..|s| - 1]), s[|s| - 1])
  }

  lemma {:induction false} PlaceAdds(s: seq<Log>, x: Log)
    ensures Elements(Place(s, x)) == Elements(s) + {x} && |Place(s, x)| == |s| + 1
    decreases |s|
  {
    if s != [] && s[0].started >= x.started {
      PlaceAdds(s[1..], x);
      assert Elements(s) == {s[0]} + Elements(s[1..]);
      assert Elements(Place(s, x)) == {s[0]} + Elements(Place(s[1..], x));
    }
  }

  lemma {:induction false} StableSortKeeps(s: seq<Log>)
    ensures Elements(StableSort(s)) == Elements(s) && |StableSort(s)| == |s|
    decreases |s|
  {
    if s != [] {
      var n := |s| - 1;
      StableSortKeeps(s[..n]);
      PlaceAdds(StableSort(s[..n]), s[n]);
      assert s == s[..n] + [s[n]];
      assert Elements(s) == Elements(s[..n]) + {s[n]};
    }
  }

  lemma {:induction false} PlaceKeepsOrder(s: seq<Log>, x: Log)
    requires Descending(s)
    ensures Descending(Place(s, x))
    decreases |s|
  {
    if s != [] && s[0].started >= x.started {
      PlaceKeepsOrder(s[1..], x);
      PlaceAdds(s[1..], x);
      var rest := Place(s[1..], x);
      forall j | 0 <= j < |rest|
        ensures s[0].started >= rest[j].started
      {
        assert rest[j] in Elements(rest);
      }
    }
  }

  lemma {:induction false} StableSortSorts(s: seq<Log>)
    ensures Descending(StableSort(s))
    decreases |s|
  {
    if s != [] {
      StableSortSorts(s[..|s| - 1]);
      PlaceKeepsOrder(StableSort(s[..|s| - 1]), s[|s| - 1]);
    }
  }

  /** What starts no later than a sorted front is placed behind it. */
  lemma {:induction false} PlaceKeepsFront(front: seq<Log>, back: seq<Log>, x: Log)
    requires forall y :: y in front ==> y.started >= x.started
    ensures Place(front + back, x) == front + Place(back, x)
    decreases |front|
  {
    if front == [] {
      assert front + back == back && front + Place(back, x) == Place(back, x);
    } else {
      assert (front + back)[1..] == front[1..] + back;
      PlaceKeepsFront(front[1..], back, x);
      assert front[0] in front;
    }
  }

  lemma {:induction false} SortedStays(s: seq<Log>)
    requires Descending(s)
    ensures StableSort(s) == s
    decreases |s|
  {
    if s != [] {
      var n := |s| - 1;
      SortedStays(s[..n]);
      PlaceKeepsFront(s[..n], [], s[n]);
      assert s[..n] + [] == s[..n];
    }
  }

  lemma {:induction false} FrontStays(front: seq<Log>, rest: seq<Log>)
    requires Descending(front) && forall x, y :: x in rest && y in front ==> y.started >= x.started
    ensures StableSort(front + rest) == front + StableSort(rest)
    decreases |rest|
  {
    if rest == [] {
      SortedStays(front);
      assert front + rest == front && front + StableSort(rest) == front;
    } else {
      var n := |rest| - 1;
      FrontStays(front, rest[..n]);
      assert rest[n] in rest && rest == rest[..n] + [rest[n]];
      FrontStaysOnce(front, rest[..n], rest[n]);
    }
  }

  lemma FrontStaysOnce(front: seq<Log>, rest: seq<Log>, x: Log)
    requires StableSort(front + rest) == front + StableSort(rest) && forall y :: y in front ==> y.started >= x.started
    ensures StableSort(front + (rest + [x])) == front + StableSort(rest + [x])
  {
    assert front + (rest + [x]) == front + rest + [x];
    SortsOneMore(front + rest, x);
    SortsOneMore(rest, x);
    PlaceKeepsFront(front, StableSort(rest), x);
  }

  lemma SortsOneMore(s: seq<Log>, x: Log)
    ensures StableSort(s + [x]) == Place(StableSort(s), x)
  {
    assert (s + [x])[..|s|] == s;
  }

  /** The in-memory List: the logs in the order the map yields them, sorted by start time, and cut. */
  function InMemoryList(order: seq<Log>): seq<Log> {
    StableSort(order)[..Min(PAGE_MAX, |StableSort(order)|)]
  }

  predicate IsOrderOf(order: seq<Log>, history: seq<Log>) {
    NoDup(order) && Elements(order) == Elements(history)
  }

  /** The lists the in-memory store may answer are exactly those the contract of List allows. */
  lemma InMemoryListIsAnyList(history: seq<Log>, cut: seq<Log>)
    requires NoDup(history)
    ensures (exists order :: IsOrderOf(order, history) && InMemoryList(order) == cut) <==> IsList(history, cut)
  {
    if order :| IsOrderOf(order, history) && InMemoryList(order) == cut {
      InMemoryListIsList(history, order);
    }
    if IsList(history, cut) {
      var order := OrderThatGives(history, cut);
    }
  }

  lemma InMemoryListIsList(history: seq<Log>, order: seq<Log>)
    requires NoDup(history) && IsOrderOf(order, history)
    ensures IsList(history, InMemoryList(order))
  {
    var sorted, k := StableSort(order), Min(PAGE_MAX, |order|);
    StableSortSorts(order);
    StableSortKeeps(order);
    NoDupCounts(order);
    NoDupCounts(history);
    DistinctHasNoDup(sorted);
    assert sorted == sorted[..k] + sorted[k..];
    NoDupParts(sorted[..k], sorted[k..]);
    assert Elements(sorted[..k]) <= Elements(sorted);
    FrontIsLatest(sorted, k);
    assert forall x :: x in history <==> x in Elements(history);
    assert forall x :: x in sorted <==> x in Elements(sorted);
  }

  lemma FrontIsLatest(s: seq<Log>, k: nat)
    requires Descending(s) && k <= |s|
    ensures forall x, y :: x in s && x !in s[..k] && y in s[..k] ==> y.started >= x.started
  {
    assert forall i :: 0 <= i < k ==> s[..k][i] == s[i] && s[i] in s[..k];
    forall x, y | x in s && x !in s[..k] && y in s[..k]
      ensures y.started >= x.started
    {
      var i :| 0 <= i < |s| && s[i] == x;
      var j :| 0 <= j < k && s[j] == y;
    }
  }

  lemma {:induction false} DistinctHasNoDup(s: seq<Log>)
    requires |Elements(s)| == |s|
    ensures NoDup(s)
    decreases |s|
  {
    if s != [] {
      ElementsAtMost(s[1..]);
      assert Elements(s) == {s[0]} + Elements(s[1..]);
      DistinctHasNoDup(s[1..]);
    }
  }

  lemma {:induction false} ElementsAtMost(s: seq<Log>)
    ensures |Elements(s)| <= |s|
    decreases |s|
  {
    if s != [] {
      ElementsAtMost(s[1..]);
      assert Elements(s) == {s[0]} + Elements(s[1..]);
    }
  }

  lemma OrderThatGives(history: seq<Log>, cut: seq<Log>) returns (order: seq<Log>)
    requires NoDup(history) && IsList(history, cut)
    ensures IsOrderOf(order, history) && InMemoryList(order) == cut
  {
    var rest := WithoutAll(history, cut);
    order := cut + rest;
    NoDupJoin(cut, rest);
    FrontStays(cut, rest);
    forall x
      ensures x in Elements(order) <==> x in Elements(history)
    {
      assert x in cut ==> x in Elements(cut);
    }
    NoDupCounts(order);
    NoDupCounts(history);
    StableSortKeeps(order);
    CutOfFront(cut, StableSort(rest));
  }

  lemma CutOfFront(front: seq<Log>, back: seq<Log>)
    ensures (front + back)[..|front|] == front
  {
  }

  function WithoutAll(s: seq<Log>, gone: seq<Log>): (r: seq<Log>)
    ensures forall x :: x in r <==> x in s && x !in gone
    ensures NoDup(s) ==> NoDup(r)
    decreases |s|
  {
    if s == [] then []
    else if s[0] in gone then WithoutAll(s[1..], gone)
    else [s[0]] + WithoutAll(s[1..], gone)
  }

  lemma FittingPageIsCollected(jobs: seq<seq<Log>>, answers: seq<seq<Log>>, n: nat)
    requires NoDup(Flat(jobs)) && IsAnswer(jobs, answers)
    requires forall x :: x in FirstPage(jobs, n) ==> Fits(jobs, x)
    ensures Elements(FirstPage(jobs, n)) <= Elements(Flat(answers))
  {
    FlatSeparates(jobs);
    FirstPageIsNewest(jobs, n);
    forall x | x in FirstPage(jobs, n)
      ensures x in Flat(answers)
    {
      assert x in Elements(Flat(jobs));
      var j :| 0 <= j < |jobs| && x in jobs[j];
      FittingLogIsListed(jobs[j], answers[j], x);
    }
  }

  lemma CrowdedLogSpoils(jobs: seq<seq<Log>>, n: nat, x: Log, j: nat) returns (answers: seq<seq<Log>>)
    requires NoDup(Flat(jobs)) && j < |jobs| && x in jobs[j] && |NoEarlier(jobs[j], x)| > PAGE_MAX
    requires x in FirstPage(jobs, n)
    ensures IsAnswer(jobs, answers) && FirstPage(answers, n) != FirstPage(jobs, n)
  {
    FlatSeparates(jobs);
    var others := Without(jobs[j], x);
    answers := Cuts(jobs)[j := Cut(others)];
    CutIsNewest(others);
    CrowdedLogMayBeCut(jobs[j], Cut(others), x);
    forall k | 0 <= k < |jobs|
      ensures IsList(jobs[k], answers[k]) && x !in answers[k]
    {
      if k != j {
        CutIsNewest(jobs[k]);
        NewestIsList(jobs[k], Cut(jobs[k]));
        assert x !in jobs[k];
        assert x !in Elements(jobs[k]);
      }
    }
    AnswersAreParts(jobs, answers);
    FirstPageIsNewest(answers, n);
    assert x !in Elements(Flat(answers));
  }

  // ----- One call -----

  datatype Token = NoToken | Garbage | Wire(started: int, runId: string)

  datatype Failure = InvalidArgument | CaseMissing | Denied | StoreFailed

  datatype Page = Page(items: seq<Log>, next: Option<Token>) | Failed(why: Failure)

  function Clamp(page: int): (size: nat)
    ensures 1 <= size <= PAGE_MAX
  {
    if page <= 0 then PAGE_DEFAULT else if page > PAGE_MAX then PAGE_MAX else page
  }

  /** A cursor decodes when it is base64-of-JSON with a run id. */
  predicate Decodes(t: Token) { t.Wire? && t.runId != "" }

  /** The logs strictly after a cursor. */
  function After(all: set<Log>, t: Token): set<Log> {
    if t.Wire? then set x | x in all && Newer(Log(t.started, t.runId), x) else all
  }

  /** What one call shows of a set of logs: the newest ones after the cursor, and a next cursor, naming the last log
      shown, exactly when more remain. */
  ghost predicate Shows(all: set<Log>, size: nat, after: Token, items: seq<Log>, next: Option<Token>) {
    var rest := After(all, after);
    IsNewest(items, rest, size) && (next.Some? <==> |rest| > size)
    && (next.Some? ==> items != [] && next.value == TokenOf(items[|items| - 1]))
  }

  /** The scan for the cursor: it starts exactly at the first log strictly after it. */
  method StartAt(merged: seq<Log>, cursor: Log) returns (start: nat)
    requires Sorted(merged)
    ensures start <= |merged|
    ensures forall k :: 0 <= k < start ==> !Newer(cursor, merged[k])
    ensures forall k :: start <= k < |merged| ==> Newer(cursor, merged[k])
  {
    for i := 0 to |merged|
      invariant forall k :: 0 <= k < i ==> Newer(merged[k], cursor)
      invariant forall k :: 0 <= k < i ==> !Newer(cursor, merged[k])
    {
      var log := merged[i];
      NewerIsTotal(log, cursor);
      if log.started == cursor.started && log.runId == cursor.runId {
        assert log == cursor;
        return i + 1;
      }
      if log.started < cursor.started || (log.started == cursor.started && Less(log.runId, cursor.runId)) {
        assert Newer(cursor, log);
        forall k | i < k < |merged|
          ensures Newer(cursor, merged[k])
        {
          NewerIsTransitive(cursor, log, merged[k]);
        }
        return i;
      }
    }
    return |merged|;
  }

  function Below(n: nat): (r: set<nat>)
    ensures forall j :: j in r <==> 0 <= j < n
  {
    if n == 0 then {} else Below(n - 1) + {n - 1}
  }

  /** collectLogs: the jobs answer in any order. */
  method CollectLogs(answers: seq<Option<seq<Log>>>) returns (merged: Option<seq<Log>>)
    requires NoDup(Flat(Given(answers)))
    ensures merged.None? <==> None in answers
    ensures merged.Some? ==> NoDup(merged.value) && Elements(merged.value) == Elements(Flat(Given(answers)))
  {
    ghost var lists := Given(answers);
    FlatSeparates(lists);
    var pending, all := Below(|answers|), [];
    while pending != {}
      invariant pending <= Below(|answers|)
      invariant NoDup(all)
      invariant forall j :: 0 <= j < |answers| && j !in pending ==> answers[j].Some?
      invariant forall x :: x in all <==> exists j :: 0 <= j < |lists| && j !in pending && x in lists[j]
    {
      var j :| j in pending;
      if answers[j].None? {
        return None;
      }
      assert answers[j].value == lists[j];
      NoDupJoin(all, answers[j].value);
      all := all + answers[j].value;
      pending := pending - {j};
    }
    return Some(all);
  }

  function Given(answers: seq<Option<seq<Log>>>): seq<seq<Log>> {
    seq(|answers|, j requires 0 <= j < |answers| => if answers[j].Some? then answers[j].value else [])
  }

  /** checkCaseAccess */
  function AccessFailure(parent: Option<Case>, who: Actor): Option<Failure> {
    if parent.None? then Some(CaseMissing)
    else if who.Member? && !IsCaseAccessible(parent.value, who.sub) then Some(Denied)
    else None
  }

  /** ListLogsByCase */
  method ListLogsByCase(workspace: string, caseId: int, parent: Option<Case>, who: Actor, page: int, after: Token,
                        runs: bool, answers: seq<Option<seq<Log>>>)
    returns (r: Page)
    requires NoDup(Flat(Given(answers)))
    ensures r == Failed(InvalidArgument) <==>
              workspace == "" || caseId == 0
              || (AccessFailure(parent, who).None? && after != NoToken && !Decodes(after))
    ensures r == Failed(CaseMissing) <==> workspace != "" && caseId != 0 && parent.None?
    ensures r == Failed(Denied) <==>
              workspace != "" && caseId != 0
              && parent.Some? && parent.value.isPrivate && who.Member? && who.sub !in parent.value.channelUsers
    ensures r.Failed? <==> workspace == "" || caseId == 0 || AccessFailure(parent, who).Some?
                           || (after != NoToken && !Decodes(after)) || !runs || None in answers
    ensures r.Page? ==> Shows(Elements(Flat(Given(answers))), Clamp(page), after, r.items, r.next)
  {
    if workspace == "" || caseId == 0 {
      return Failed(InvalidArgument);
    }
    var denied := AccessFailure(parent, who);
    if denied.Some? {
      return Failed(denied.value);
    }
    var size := Clamp(page);
    if after != NoToken && !Decodes(after) {
      return Failed(InvalidArgument);
    }
    if !runs {
      return Failed(StoreFailed);
    }
    var collected := CollectLogs(answers);
    if collected.None? {
      return Failed(StoreFailed);
    }
    r := TakePage(collected.value, after, size);
  }

  /** Sorts what was collected, finds the cursor and cuts the page. */
  method TakePage(collected: seq<Log>, after: Token, size: nat) returns (r: Page)
    requires NoDup(collected) && size >= 1
    ensures r.Page? && Shows(Elements(collected), size, after, r.items, r.next)
  {
    var merged := Sort(collected);
    SortSorts(collected);
    if after.Wire? {
      var start := StartAt(merged, Log(after.started, after.runId));
      TailIsAfter(merged, after, start);
      merged := merged[start..];
    }
    r := CutPage(merged, size);
  }

  method CutPage(merged: seq<Log>, size: nat) returns (r: Page)
    requires Sorted(merged) && size >= 1
    ensures r.Page? && IsNewest(r.items, Elements(merged), size)
    ensures r.next.Some? <==> |Elements(merged)| > size
    ensures r.next.Some? ==> r.items != [] && r.next.value == TokenOf(r.items[|r.items| - 1])
  {
    SortedHasNoDup(merged);
    PrefixIsNewest(merged, size);
    if |merged| > size {
      var shown := merged[..size];
      return Page(shown, Some(TokenOf(shown[size - 1])));
    }
    assert merged[..|merged|] == merged;
    return Page(merged, None);
  }

  function TokenOf(x: Log): Token { Wire(x.started, x.runId) }

  lemma TailIsAfter(merged: seq<Log>, t: Token, start: nat)
    requires Sorted(merged) && t.Wire? && start <= |merged|
    requires forall k :: 0 <= k < start ==> !Newer(Log(t.started, t.runId), merged[k])
    requires forall k :: start <= k < |merged| ==> Newer(Log(t.started, t.runId), merged[k])
    ensures Sorted(merged[start..]) && Elements(merged[start..]) == After(Elements(merged), t)
  {
    forall x | x in After(Elements(merged), t)
      ensures x in merged[start..]
    {
      var k :| 0 <= k < |merged| && merged[k] == x;
      assert k >= start;
      assert merged[start..][k - start] == x;
    }
  }

  // ----- Walks -----

  datatype Visit = Visit(all: set<Log>, size: nat, items: seq<Log>, next: Option<Token>)

  /** A client follows the cursors: each call passes on what the one before handed out, and only the last call may
      hand out none. The store may change between calls. */
  ghost predicate IsWalk(visits: seq<Visit>, after: Token)
    decreases |visits|
  {
    visits != [] ==>
      var v := visits[0];
      1 <= v.size && Shows(v.all, v.size, after, v.items, v.next)
      && (v.next.None? ==> |visits| == 1)
      && (v.next.Some? ==> IsWalk(visits[1..], v.next.value))
  }

  function Output(visits: seq<Visit>): seq<Log>
    decreases |visits|
  {
    if visits == [] then [] else visits[0].items + Output(visits[1..])
  }

  predicate Ended(visits: seq<Visit>) {
    visits != [] && visits[|visits| - 1].next.None?
  }

  /** However the store changes between calls, a walk never shows a log twice and never goes back up the order. */
  lemma {:induction false} WalkNeverRepeats(visits: seq<Visit>, after: Token)
    requires IsWalk(visits, after)
    ensures Sorted(Output(visits)) && NoDup(Output(visits))
    ensures after.Wire? ==> forall x :: x in Output(visits) ==> Newer(Log(after.started, after.runId), x)
    decreases |visits|
  {
    if visits != [] {
      var v, rest := visits[0], Output(visits[1..]);
      forall x | x in v.items
        ensures after.Wire? ==> Newer(Log(after.started, after.runId), x)
      {
        assert x in Elements(v.items);
      }
      if v.next.Some? {
        WalkNeverRepeats(visits[1..], v.next.value);
        var last := v.items[|v.items| - 1];
        forall x | x in rest
          ensures Newer(last, x) && (after.Wire? ==> Newer(Log(after.started, after.runId), x))
        {
          if after.Wire? {
            NewerIsTransitive(Log(after.started, after.runId), last, x);
          }
        }
        SortedJoin(v.items, rest);
      } else {
        assert visits[1..] == [];
        assert v.items + [] == v.items;
      }
      SortedHasNoDup(Output(visits));
    }
  }

  lemma SortedJoin(a: seq<Log>, b: seq<Log>)
    requires Sorted(a) && Sorted(b) && a != []
    requires forall x :: x in b ==> Newer(a[|a| - 1], x)
    ensures Sorted(a + b)
  {
    forall i, j | 0 <= i < |a| && 0 <= j < |b|
      ensures Newer(a[i], b[j])
    {
      assert b[j] in b;
      if i < |a| - 1 {
        NewerIsTransitive(a[i], a[|a| - 1], b[j]);
      }
    }
  }

  /** A log that stays collected throughout a finished walk is shown. */
  lemma {:induction false} WalkMissesNothing(visits: seq<Visit>, after: Token, x: Log)
    requires IsWalk(visits, after) && Ended(visits)
    requires forall v :: v in visits ==> x in v.all
    requires after.Wire? ==> Newer(Log(after.started, after.runId), x)
    ensures x in Output(visits)
    decreases |visits|
  {
    var v := visits[0];
    assert v in visits;
    var rest := After(v.all, after);
    assert x in rest;
    SortedHasNoDup(v.items);
    SubsetCounts(Elements(v.items), rest);
    if v.next.Some? && x !in v.items {
      assert Newer(v.items[|v.items| - 1], x);
      WalkMissesNothing(visits[1..], v.next.value, x);
    } else {
      assert x in Elements(v.items);
    }
  }

  /** Over an unchanged store a finished walk from the head shows the merged list itself: every log once, in
      order, whatever mix of page sizes was asked for. */
  lemma WalkShowsEverythingOnce(visits: seq<Visit>, all: set<Log>)
    requires IsWalk(visits, NoToken) && Ended(visits)
    requires forall v :: v in visits ==> v.all == all
    ensures Sorted(Output(visits)) && Elements(Output(visits)) == all && |Output(visits)| == |all|
  {
    WalkNeverRepeats(visits, NoToken);
    SortedHasNoDup(Output(visits));
    forall x | x in all
      ensures x in Output(visits)
    {
      WalkMissesNothing(visits, NoToken, x);
    }
    OutputIsShown(visits, NoToken, all);
  }

  lemma {:induction false} OutputIsShown(visits: seq<Visit>, after: Token, all: set<Log>)
    requires IsWalk(visits, after) && forall v :: v in visits ==> v.all == all
    ensures Elements(Output(visits)) <= all
    decreases |visits|
  {
    if visits != [] {
      var v := visits[0];
      assert v in visits && v.all == all;
      assert Elements(v.items) <= all;
      if v.next.Some? {
        OutputIsShown(visits[1..], v.next.value, all);
      } else {
        assert visits[1..] == [];
      }
      assert Elements(Output(visits)) == Elements(v.items) + Elements(Output(visits[1..]));
    }
  }

  /** A walk over an unchanged store ends: each call that hands out a cursor shows at least one new log. */
  lemma {:induction false} WalkEnds(visits: seq<Visit>, after: Token, all: set<Log>)
    requires IsWalk(visits, after) && forall v :: v in visits ==> v.all == all
    ensures |visits| <= |After(all, after)| + 1
    decreases |visits|
  {
    if visits != [] && visits[0].next.Some? {
      var v := visits[0];
      var rest, left := After(all, after), After(all, v.next.value);
      var last := v.items[|v.items| - 1];
      WalkEnds(visits[1..], v.next.value, all);
      assert last in Elements(v.items);
      NewerIsTotal(last, last);
      forall x | x in left
        ensures x in rest
      {
        if after.Wire? {
          NewerIsTransitive(Log(after.started, after.runId), last, x);
        }
      }
      SubsetCounts(left, rest - {last});
    }
  }

  /** The walk covers what the jobs' lists hold, so it reaches every log exactly when no job has more than 100. */
  lemma WalkReachesEveryLogExactlyWhen(jobs: seq<seq<Log>>, answers: seq<seq<Log>>, visits: seq<Visit>)
    requires NoDup(Flat(jobs)) && IsAnswer(jobs, answers)
    requires IsWalk(visits, NoToken) && Ended(visits)
    requires forall v :: v in visits ==> v.all == Elements(Flat(answers))
    ensures Elements(Output(visits)) == Elements(Flat(jobs)) <==> forall j :: 0 <= j < |jobs| ==> |jobs[j]| <= PAGE_MAX
  {
    WalkShowsEverythingOnce(visits, Elements(Flat(answers)));
    AnswersAreParts(jobs, answers);
    FlatSeparates(jobs);
    if forall j :: 0 <= j < |jobs| ==> |jobs[j]| <= PAGE_MAX {
      ShortHistoriesAreKept(jobs, answers);
    } else {
      var j :| 0 <= j < |jobs| && |jobs[j]| > PAGE_MAX;
      LongHistoryIsLost(jobs, answers, j);
    }
  }

  lemma LongHistoryIsLost(jobs: seq<seq<Log>>, answers: seq<seq<Log>>, j: nat)
    requires NoDup(Flat(jobs)) && IsAnswer(jobs, answers) && j < |jobs| && |jobs[j]| > PAGE_MAX
    ensures Elements(Flat(answers)) != Elements(Flat(jobs))
  {
    FlatSeparates(jobs);
    var x := LongHistoryLosesOne(jobs[j], answers[j]);
    forall k | 0 <= k < |jobs|
      ensures x !in answers[k]
    {
      assert k != j ==> x !in jobs[k] && x !in Elements(jobs[k]);
    }
    assert x in Elements(Flat(jobs)) && x !in Elements(Flat(answers));
  }

  lemma ShortHistoriesAreKept(jobs: seq<seq<Log>>, answers: seq<seq<Log>>)
    requires NoDup(Flat(jobs)) && IsAnswer(jobs, answers) && forall j :: 0 <= j < |jobs| ==> |jobs[j]| <= PAGE_MAX
    ensures Elements(Flat(jobs)) <= Elements(Flat(answers))
  {
    FlatSeparates(jobs);
    forall x | x in Flat(jobs)
      ensures x in Flat(answers)
    {
      var j :| 0 <= j < |jobs| && x in jobs[j];
      ShortHistoryIsListedWhole(jobs[j], answers[j]);
      assert x in Elements(jobs[j]);
    }
  }

  lemma ShortHistoryIsListedWhole(history: seq<Log>, cut: seq<Log>)
    requires NoDup(history) && IsList(history, cut) && |history| <= PAGE_MAX
    ensures Elements(cut) == Elements(history)
  {
    NoDupCounts(history);
    NoDupCounts(cut);
    SubsetCounts(Elements(cut), Elements(history));
  }

  lemma LongHistoryLosesOne(history: seq<Log>, cut: seq<Log>) returns (x: Log)
    requires NoDup(history) && IsList(history, cut) && |history| > PAGE_MAX
    ensures x in history && x !in cut
  {
    NoDupCounts(history);
    NoDupCounts(cut);
    if Elements(history) <= Elements(cut) {
      SubsetCounts(Elements(history), Elements(cut));
      assert false;
    }
    x :| x in Elements(history) && x !in Elements(cut);
  }
}
