/** Which pending jobs a manager takes on: the order of the list, and the run limit. */
module Scheduler {
  import opened JobTypes
  import JobName

  // ---- the order ----

  datatype Key = Key(time: int, priority: int)

  // %lu stored into a time_t.
  function ToTime(v: int): int {
    var w := JobName.Wrap64(v);
    if w < 0x8000_0000_0000_0000 then w else w - JobName.WORD64
  }

  // What sscanf reads with "t%lu.p%d.", or None if it does not fill both.
  function KeyOf(name: string): Option<Key> {
    match JobName.Expect(name, "t") case None => None case Some(s1) =>
    match JobName.ScanInt(s1) case None => None case Some(t) =>
    match JobName.Expect(t.1, ".p") case None => None case Some(s2) =>
    match JobName.ScanInt(s2) case None => None case Some(p) => Some(Key(ToTime(t.0), p.0))
  }

  predicate Better(a: Key, b: Key) { (a.priority == b.priority && a.time < b.time) || a.priority < b.priority }

  // jobcompare: false if either name is malformed.
  predicate Less(a: string, b: string) {
    KeyOf(a).Some? && KeyOf(b).Some? && Better(KeyOf(a).value, KeyOf(b).value)
  }

  // What std::sort asks of an order.
  predicate StrictWeak(names: set<string>) {
    (forall a | a in names :: !Less(a, a)) &&
    (forall a, b, c | a in names && b in names && c in names && Less(a, b) && Less(b, c) :: Less(a, c)) &&
    (forall a, b, c | a in names && b in names && c in names &&
                      !Less(a, b) && !Less(b, a) && !Less(b, c) && !Less(c, b) :: !Less(a, c))
  }

  predicate WellFormed(names: set<string>) { forall a | a in names :: KeyOf(a).Some? }

  // The order is one for std::sort unless a malformed name is in one list with two names that differ in rank.
  lemma StrictWeakIff(names: set<string>)
    ensures StrictWeak(names) <==> WellFormed(names) || forall a, b | a in names && b in names :: !Less(a, b)
  {
    hide KeyOf;
    if !WellFormed(names) {
      var m :| m in names && KeyOf(m).None?;
      if StrictWeak(names) {
        forall a, b | a in names && b in names
          ensures !Less(a, b)
        {
          assert !Less(a, m) && !Less(m, a) && !Less(m, b) && !Less(b, m);
        }
      }
    }
  }

  // Job files named by name() come out by priority, and then by run time.
  lemma NamesCompare(p: JobName.Parts, q: JobName.Parts)
    requires JobName.GoodParts(p) && JobName.GoodParts(q)
    requires p.runTime < 0x8000_0000_0000_0000 && q.runTime < 0x8000_0000_0000_0000
    ensures Less(JobName.BaseName(p), JobName.BaseName(q)) <==>
            p.priority < q.priority || (p.priority == q.priority && p.runTime < q.runTime)
  {
    NameHasKey(p);
    NameHasKey(q);
  }

  lemma NameHasKey(p: JobName.Parts)
    requires JobName.GoodParts(p) && p.runTime < 0x8000_0000_0000_0000
    ensures KeyOf(JobName.BaseName(p)) == Some(Key(p.runTime, p.priority))
  {
    JobName.BaseNameParses(p);
    hide JobName.BaseName, JobName.ScanInt, JobName.Expect;
  }

  // ---- sorting ----

  predicate Sorted(list: seq<string>) { forall i, j | 0 <= i < j < |list| :: !Less(list[j], list[i]) }

  // One of the orders std::sort may leave.
  function Insert(x: string, list: seq<string>): seq<string> {
    if list == [] || !Less(list[0], x) then [x] + list else [list[0]] + Insert(x, list[1..])
  }

  function Sort(list: seq<string>): seq<string> { if list == [] then [] else Insert(list[0], Sort(list[1..])) }

  lemma {:induction false} InsertKeeps(x: string, list: seq<string>)
    ensures multiset(Insert(x, list)) == multiset(list) + multiset{x}
    ensures forall y :: y in Insert(x, list) ==> y == x || y in list
  {
    if list != [] && Less(list[0], x) {
      InsertKeeps(x, list[1..]);
      assert list == [list[0]] + list[1..];
    }
  }

  predicate AllKeyed(list: seq<string>) { forall i | 0 <= i < |list| :: KeyOf(list[i]).Some? }

  lemma SortedCons(x: string, list: seq<string>)
    requires Sorted(list) && forall y | y in list :: !Less(y, x)
    ensures Sorted([x] + list)
  {
    hide Less;
    var all := [x] + list;
    forall i, j | 0 <= i < j < |all|
      ensures !Less(all[j], all[i])
    {
      assert all[j] == list[j - 1] && (i > 0 ==> all[i] == list[i - 1]);
    }
  }

  lemma {:induction false} InsertSorts(x: string, list: seq<string>)
    requires Sorted(list) && AllKeyed(list) && KeyOf(x).Some?
    ensures Sorted(Insert(x, list)) && AllKeyed(Insert(x, list))
  {
    hide KeyOf;
    if list == [] {
    } else if !Less(list[0], x) {
      forall y | y in list
        ensures !Less(y, x)
      {
        var k :| 0 <= k < |list| && list[k] == y;
        if k > 0 { assert !Less(list[k], list[0]); }
      }
      SortedCons(x, list);
    } else {
      InsertSorts(x, list[1..]);
      InsertKeeps(x, list[1..]);
      SortedCons(list[0], Insert(x, list[1..]));
    }
  }

  // Well-formed names can be sorted.
  lemma {:induction false} SortSorts(list: seq<string>)
    requires AllKeyed(list)
    ensures Sorted(Sort(list)) && AllKeyed(Sort(list)) && multiset(Sort(list)) == multiset(list)
  {
    if list != [] {
      var x, rest := list[0], list[1..];
      assert AllKeyed(rest) && KeyOf(x).Some?;
      assert multiset(list) == multiset(rest) + multiset{x} by { assert list == [x] + rest; }
      hide AllKeyed, Sorted, KeyOf, Insert;
      SortSorts(rest);
      InsertSorts(x, Sort(rest));
      InsertKeeps(x, Sort(rest));
    }
  }

  // ---- taking on work ----

  // How run_a_job ends.
  datatype Outcome = Started | Moved | Locked | Again | Aborted

  predicate Retries(o: Outcome) { o.Moved? || o.Locked? || o.Again? }

  function OutcomeAt(outcomes: seq<Outcome>, i: nat): Outcome { if i < |outcomes| then outcomes[i] else Moved }

  // Of the first n attempts, those that started a child, and those that let another job be taken instead.
  function StartedIn(outcomes: seq<Outcome>, n: nat): (k: nat)
    ensures k <= n
  {
    if n == 0 then 0 else StartedIn(outcomes, n - 1) + if OutcomeAt(outcomes, n - 1).Started? then 1 else 0
  }

  function RetriesIn(outcomes: seq<Outcome>, n: nat): (k: nat)
    ensures k + StartedIn(outcomes, n) <= n
  {
    if n == 0 then 0 else RetriesIn(outcomes, n - 1) + if Retries(OutcomeAt(outcomes, n - 1)) then 1 else 0
  }

  // An int as a size_t.
  function ToSize(n: int): (r: nat)
    requires -0x8000_0000 <= n < 0x8000_0000
    ensures r == if n >= 0 then n else n + JobName.WORD64
  {
    if n >= 0 then n else n + JobName.WORD64
  }

  // size_t arithmetic.
  function Minus64(a: nat, b: nat): nat
    requires a < JobName.WORD64 && b < JobName.WORD64
  {
    if b <= a then a - b else a + JobName.WORD64 - b
  }

  function Plus1(a: nat): nat { if a + 1 < JobName.WORD64 then a + 1 else 0 }

  // What std::sort may make of a list: a permutation, sorted if the order is one for it.
  predicate IsSorting(sorted: seq<string>, jobs: seq<string>) {
    multiset(sorted) == multiset(jobs) && (AllKeyed(jobs) ==> Sorted(sorted))
  }

  lemma {:induction false} SortPermutes(list: seq<string>)
    ensures multiset(Sort(list)) == multiset(list)
  {
    if list != [] {
      var x, rest := list[0], list[1..];
      assert multiset(list) == multiset(rest) + multiset{x} by { assert list == [x] + rest; }
      hide Insert;
      SortPermutes(rest);
      InsertKeeps(x, Sort(rest));
    }
  }

  // There is one for every list.
  lemma SortingExists(jobs: seq<string>)
    ensures IsSorting(Sort(jobs), jobs)
  {
    SortPermutes(jobs);
    if AllKeyed(jobs) {
      hide AllKeyed, Sorted, Sort;
      SortSorts(jobs);
    }
  }

  // nrun children are running; sorted is what std::sort makes of the pending jobs. The jobs in tried are handed to
  // run_a_job in this order; most is the largest number of running children there ever was.
  // The limit is kept, every slot that was not wasted on an error is taken or there are no more jobs, and no job that
  // was not tried is better than one that was. If more children are running than maxjobs, which may be negative, need
  // wraps around: all jobs are tried, or as many as it takes to be turned down nrun - maxjobs times.
  method Solicit(nrun: nat, maxjobs: int, jobs: seq<string>, sorted: seq<string>, outcomes: seq<Outcome>)
    returns (running: nat, tried: seq<string>, ghost most: nat)
    requires nrun < 0x8000_0000 && -0x8000_0000 <= maxjobs < 0x8000_0000 && |jobs| < 0x1_0000_0000
    requires IsSorting(sorted, jobs)
    ensures tried <= sorted && running == nrun + StartedIn(outcomes, |tried|)
    ensures nrun <= maxjobs ==> nrun <= running <= most <= maxjobs
    ensures nrun <= maxjobs && tried != sorted ==> |tried| - RetriesIn(outcomes, |tried|) == maxjobs - nrun
    ensures nrun > maxjobs ==> tried == sorted || RetriesIn(outcomes, |tried|) == nrun - maxjobs
    ensures AllKeyed(jobs) ==>
              forall a, b | a in tried && b in multiset(jobs) - multiset(tried) :: !Less(b, a)
  {
    assert |sorted| == |jobs| by { assert |multiset(sorted)| == |sorted| && |multiset(jobs)| == |jobs|; }
    hide IsSorting, Less, Sorted, AllKeyed;
    running, tried, most := nrun, [], nrun;
    var n := 0;
    var need := Minus64(ToSize(maxjobs), nrun);
    UntriedIsNoBetter(jobs, sorted, 0);
    if need <= 0 { return; }
    while n < |sorted| && n < need
      invariant n <= |sorted| && tried == sorted[..n] && running == nrun + StartedIn(outcomes, n) && running <= most
      invariant nrun <= maxjobs ==> need == maxjobs - nrun + RetriesIn(outcomes, n) && n <= need && most <= maxjobs
      invariant need < JobName.WORD64
      invariant nrun > maxjobs ==>
                  if need == 0 then RetriesIn(outcomes, n) == nrun - maxjobs
                  else need == JobName.WORD64 - nrun + maxjobs + RetriesIn(outcomes, n)
    {
      var err := OutcomeAt(outcomes, n);
      if err.Started? { running := running + 1; }
      if running > most { most := running; }
      if err.Moved? || err.Locked? || err.Again? { need := Plus1(need); }
      tried := tried + [sorted[n]];
      n := n + 1;
    }
    UntriedIsNoBetter(jobs, sorted, n);
  }

  // What is left of a sorted list is no better than what was taken from its front.
  lemma UntriedIsNoBetter(jobs: seq<string>, sorted: seq<string>, n: nat)
    requires IsSorting(sorted, jobs) && n <= |sorted|
    ensures AllKeyed(jobs) ==>
              forall a, b | a in sorted[..n] && b in multiset(jobs) - multiset(sorted[..n]) :: !Less(b, a)
  {
    hide Less, AllKeyed;
    assert sorted == sorted[..n] + sorted[n..];
    assert multiset(jobs) - multiset(sorted[..n]) == multiset(sorted[n..]);
    if AllKeyed(jobs) {
      forall a, b | a in sorted[..n] && b in sorted[n..]
        ensures !Less(b, a)
      {
        var i :| 0 <= i < n && sorted[..n][i] == a;
        var j :| 0 <= j < |sorted| - n && sorted[n..][j] == b;
        assert sorted[i] == a && sorted[n + j] == b;
      }
    }
  }

  // For the names of jobs this means: a lower priority number, or the same and a run time that is not later.
  lemma NoBetterMeans(p: JobName.Parts, q: JobName.Parts)
    requires JobName.GoodParts(p) && JobName.GoodParts(q)
    requires p.runTime < 0x8000_0000_0000_0000 && q.runTime < 0x8000_0000_0000_0000
    ensures !Less(JobName.BaseName(q), JobName.BaseName(p)) <==>
            p.priority < q.priority || (p.priority == q.priority && p.runTime <= q.runTime)
  {
    hide *;
    NamesCompare(q, p);
  }
}
