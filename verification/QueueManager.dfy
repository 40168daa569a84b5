/** The queue manager: one job manager process for each queue, kept in step with the queues that come and go. */
module QueueManager {
  import opened JobTypes
  import opened Strings

  // ---- list helpers ----

  // What is in a and not in b, in order.
  function Without(a: StringList, b: StringList): (c: StringList)
    ensures forall s :: s in c <==> s in a && s !in b
  {
    if a == [] then []
    else Without(a[..|a| - 1], b) + if a[|a| - 1] in b then [] else [a[|a| - 1]]
  }

  method Has(a: StringList, s: string) returns (found: bool)
    ensures found == (s in a)
  {
    for i := 0 to |a|
      invariant s !in a[..i]
    {
      if a[i] == s { return true; }
    }
    found := false;
  }

  method Diff(a: StringList, b: StringList) returns (c: StringList)
    ensures c == Without(a, b)
  {
    c := [];
    assert a[..0] == [];
    for i := 0 to |a|
      invariant c == Without(a[..i], b)
    {
      assert a[..i + 1][..i] == a[..i];
      var found := Has(b, a[i]);
      if !found { c := c + [a[i]]; }
    }
    assert a[..|a|] == a;
  }

  // Removes the first instance only.
  method Remove(a: StringList, s: string) returns (r: StringList, found: bool)
    ensures found == (s in a)
    ensures !found ==> r == a
    ensures found ==> exists i :: 0 <= i < |a| && a[i] == s && s !in a[..i] && r == a[..i] + a[i + 1..]
  {
    for i := 0 to |a|
      invariant s !in a[..i]
    {
      if a[i] == s { return a[..i] + a[i + 1..], true; }
    }
    r, found := a, false;
  }

  predicate Distinct(a: StringList) { forall i, j | 0 <= i < j < |a| :: a[i] != a[j] }

  lemma {:induction false} WithoutIsDistinct(a: StringList, b: StringList)
    requires Distinct(a)
    ensures Distinct(Without(a, b))
  {
    if a != [] {
      WithoutIsDistinct(a[..|a| - 1], b);
      var front, last := a[..|a| - 1], a[|a| - 1];
      assert forall i | 0 <= i < |front| :: front[i] != last;
    }
  }

  // Removing an element that is not there changes nothing.
  lemma {:induction false} WithoutForeign(a: StringList, b: StringList)
    requires forall s | s in a :: s !in b
    ensures Without(a, b) == a
  {
    if a != [] {
      WithoutForeign(a[..|a| - 1], b);
      assert a == a[..|a| - 1] + [a[|a| - 1]];
    }
  }

  lemma RemovedIsDistinct(a: StringList, i: nat)
    requires Distinct(a) && i < |a|
    ensures var r := a[..i] + a[i + 1..]; Distinct(r) && forall s :: s in r <==> s in a && s != a[i]
  {
    var r := a[..i] + a[i + 1..];
    forall s
      ensures s in r <==> s in a && s != a[i]
    {
      if s in a && s != a[i] {
        var k :| 0 <= k < |a| && a[k] == s;
        assert if k < i then r[k] == s else r[k - 1] == s;
      }
      if s in r {
        var k :| 0 <= k < |r| && r[k] == s;
        assert s == if k < i then a[k] else a[k + 1];
      }
    }
  }

  // ---- the manager's state ----

  // Each queue known to be running has one manager process, and none that failed to start has.
  predicate Supervised(known: StringList, failed: StringList, finmap: map<nat, string>) {
    Distinct(known) && (forall s | s in known :: s !in failed) &&
    (forall pid | pid in finmap :: finmap[pid] in known) &&
    (forall s | s in known :: s in finmap.Values) &&
    (forall p, q | p in finmap && q in finmap && p != q :: finmap[p] != finmap[q])
  }

  // A list of failed queues is never made shorter by queues that are gone, for those were known.
  lemma FailedNeverShrinks(known: StringList, failed: StringList, finmap: map<nat, string>, curr: StringList)
    requires Supervised(known, failed, finmap)
    ensures Without(failed, Without(known, curr)) == failed
  {
    WithoutForeign(failed, Without(known, curr));
  }

  lemma Started(known: StringList, failed: StringList, finmap: map<nat, string>, q: string, pid: nat)
    requires Supervised(known, failed, finmap) && q !in known && q !in failed && pid !in finmap
    ensures Supervised(known + [q], failed, finmap[pid := q])
  {
    var next := finmap[pid := q];
    assert next[pid] == q;
    forall s | s in known
      ensures s in next.Values
    {
      var p :| p in finmap && finmap[p] == s;
      assert next[p] == s;
    }
  }

  lemma Ended(known: StringList, failed: StringList, finmap: map<nat, string>, pid: nat, i: nat)
    requires Supervised(known, failed, finmap) && pid in finmap && i < |known| && known[i] == finmap[pid]
    ensures Supervised(known[..i] + known[i + 1..], failed, finmap - {pid})
  {
    RemovedIsDistinct(known, i);
    forall s | s in known && s != known[i]
      ensures s in (finmap - {pid}).Values
    {
      var p :| p in finmap && finmap[p] == s;
      assert p in finmap - {pid};
    }
  }

  class Manager {
    var known: StringList
    var failed: StringList
    // The unreaped manager processes and their queues.
    var finmap: map<nat, string>
    // Those that have been sent a SIGKILL.
    var killed: set<nat>

    predicate Valid()
      reads this
    {
      Supervised(known, failed, finmap)
    }

    constructor ()
      ensures Valid() && known == [] && failed == [] && finmap == map[] && killed == {}
    {
      known, failed, finmap, killed := [], [], map[], {};
    }

    // q_done: the manager process of a queue has been reaped.
    method QDone(pid: nat)
      requires Valid() && pid in finmap
      modifies this`known, this`finmap
      ensures Valid() && finmap == old(finmap) - {pid}
      ensures forall s :: s in known <==> s in old(known) && s != old(finmap)[pid]
    {
      var found;
      ghost var was := known;
      known, found := Remove(known, finmap[pid]);
      ghost var i :| 0 <= i < |was| && was[i] == finmap[pid] && known == was[..i] + was[i + 1..];
      Ended(was, failed, finmap, pid, i);
      RemovedIsDistinct(was, i);
      finmap := finmap - {pid};
    }

    // Kills the manager of a queue.
    method Stop(q: string)
      modifies this`killed
      ensures killed == old(killed) + set pid | pid in finmap && finmap[pid] == q
      requires Valid()
    {
      var left := finmap.Keys;
      while left != {}
        invariant left <= finmap.Keys && killed == old(killed)
        invariant forall pid | pid in finmap && pid !in left :: finmap[pid] != q
        decreases left
      {
        var pid :| pid in left;
        if finmap[pid] == q {
          killed := killed + {pid};
          return;
        }
        left := left - {pid};
      }
    }

    // Starts the manager of a new queue; None if that fails.
    method StartQueue(q: string, outcome: Option<nat>)
      requires Valid() && q !in known && q !in failed && (outcome.Some? ==> outcome.value !in finmap)
      modifies this`known, this`failed, this`finmap
      ensures Valid() && killed == old(killed)
      ensures known == old(known) + (if outcome.Some? then [q] else [])
      ensures failed == old(failed) + (if outcome.Some? then [] else [q])
      ensures finmap == if outcome.Some? then old(finmap)[outcome.value := q] else old(finmap)
    {
      if outcome.None? {
        failed := failed + [q];
        return;
      }
      Started(known, failed, finmap, q, outcome.value);
      finmap := finmap[outcome.value := q];
      known := known + [q];
    }

    // Checks the queues there are now. Of the new ones, the i-th gets the process outcomes[i] or fails to start. The
    // kernel gives out no process id twice, or that of an unreaped child.
    method Check(curr: StringList, outcomes: seq<Option<nat>>)
      requires Valid() && Distinct(curr)
      requires forall i | 0 <= i < |outcomes| && outcomes[i].Some? :: outcomes[i].value !in finmap
      requires forall i, j | 0 <= i < j < |outcomes| && outcomes[i].Some? :: outcomes[i] != outcomes[j]
      modifies this
      ensures Valid() && forall q | q in curr :: q in known || q in failed
      ensures old(known) <= known && old(failed) <= failed
      ensures forall q :: q in known || q in failed <==> q in old(known) || q in old(failed) || q in curr
      ensures forall pid | pid in old(finmap) :: pid in finmap && finmap[pid] == old(finmap)[pid]
      ensures killed == old(killed) + set pid | pid in old(finmap) && old(finmap)[pid] !in curr
    {
      var gone := Diff(known, curr);
      StopAll(gone);
      FailedNeverShrinks(known, failed, finmap, curr);
      failed := Diff(failed, gone);
      var unknown := Diff(curr, known);
      WithoutIsDistinct(curr, known);
      var newQueues := Diff(unknown, failed);
      WithoutIsDistinct(unknown, failed);
      StartAll(newQueues, outcomes);
    }

    method StopAll(gone: StringList)
      requires Valid()
      modifies this`killed
      ensures killed == old(killed) + set pid | pid in finmap && finmap[pid] in gone
    {
      for g := 0 to |gone|
        invariant killed == old(killed) + set pid | pid in finmap && finmap[pid] in gone[..g]
      {
        Stop(gone[g]);
        assert forall q :: q in gone[..g + 1] <==> q in gone[..g] || q == gone[g];
      }
      assert gone[..|gone|] == gone;
    }

    method StartAll(queues: StringList, outcomes: seq<Option<nat>>)
      requires Valid() && Distinct(queues) && forall q | q in queues :: q !in known && q !in failed
      requires forall i | 0 <= i < |outcomes| && outcomes[i].Some? :: outcomes[i].value !in finmap
      requires forall i, j | 0 <= i < j < |outcomes| && outcomes[i].Some? :: outcomes[i] != outcomes[j]
      modifies this`known, this`failed, this`finmap
      ensures Valid() && killed == old(killed)
      ensures old(known) <= known && old(failed) <= failed
      ensures forall q :: q in known || q in failed <==> q in old(known) || q in old(failed) || q in queues
      ensures forall pid | pid in old(finmap) :: pid in finmap && finmap[pid] == old(finmap)[pid]
    {
      for i := 0 to |queues|
        invariant Valid() && killed == old(killed)
        invariant old(known) <= known && old(failed) <= failed
        invariant forall q :: q in known || q in failed <==> q in old(known) || q in old(failed) || q in queues[..i]
        invariant forall pid | pid in old(finmap) :: pid in finmap && finmap[pid] == old(finmap)[pid]
        invariant forall k | i <= k < |outcomes| && outcomes[k].Some? :: outcomes[k].value !in finmap
      {
        assert queues[i] !in queues[..i];
        StartQueue(queues[i], if i < |outcomes| then outcomes[i] else None);
        assert forall q :: q in queues[..i + 1] <==> q in queues[..i] || q == queues[i];
      }
    }
  }
}
