/**
 The launcher's table of child processes: the flag the signal handler sets, the loop that reaps, and the callbacks.
 A launch object is a value in the table; the callbacks of both daemons delete it when its child has ended.
 */
module Launch {
  import opened JobTypes

  datatype PadState = New | Run | Done | Fail

  // What the termination callback does to its launch object: EIDRM means that it has deleted it.
  datatype Callback = NoCallback | Keeps | Deletes

  // A launch object; serial tells which of all launches it is.
  datatype Pad = Pad(serial: nat, state: PadState, xsig: nat, xstat: nat, callback: Callback)

  datatype Exit = Exited(status: nat) | Signaled(sig: nat)

  // An unreaped child in the kernel's process table; a zombie once it has an exit. wants tells whether its launch
  // has a callback.
  datatype Kid = Kid(serial: nat, wants: bool, exit: Option<Exit>)

  datatype StartOutcome = PipeFails | ForkFails | Forks(pid: nat, ackSent: bool)

  datatype Death = Death(pid: nat, exit: Exit)

  // A launch whose child has been reaped, and whether its callback ran then.
  datatype Completion = Completion(serial: nat, xsig: nat, xstat: nat, called: bool)

  function SignalOf(exit: Exit): nat { if exit.Signaled? then exit.sig else 0 }

  function StatusOf(exit: Exit): nat { if exit.Exited? then exit.status else 0 }

  predicate IsZombie(kids: map<nat, Kid>, pid: nat) { pid in kids && kids[pid].exit.Some? }

  // ---- what the table keeps ----

  // Launches are numbered from 0; lost are those whose start failed after the fork.
  datatype World = World(
    finmap: map<nat, Pad>,
    kids: map<nat, Kid>,
    started: nat,
    lost: set<nat>,
    completed: seq<Completion>)

  predicate Active(pad: Pad) { pad.state.New? || pad.state.Run? }

  predicate KidOk(w: World, pid: nat)
    requires pid in w.kids
  {
    var s := w.kids[pid].serial;
    s < w.started &&
    if s in w.lost then pid !in w.finmap
    else
      pid in w.finmap && w.finmap[pid].serial == s && w.finmap[pid].state.Run? &&
      w.finmap[pid].callback.NoCallback? == !w.kids[pid].wants
  }

  predicate PadOk(w: World, pid: nat)
    requires pid in w.finmap
  {
    Active(w.finmap[pid]) ==>
      pid in w.kids && w.kids[pid].serial == w.finmap[pid].serial && w.kids[pid].serial !in w.lost
  }

  ghost predicate InTable(w: World, s: nat) { exists pid :: pid in w.kids && w.kids[pid].serial == s }

  predicate IsCompleted(w: World, s: nat) { exists i :: 0 <= i < |w.completed| && w.completed[i].serial == s }

  // A launch is lost, has an unreaped child, or is completed; and only one of the three.
  ghost predicate LaunchOk(w: World, s: nat) {
    (s in w.lost || InTable(w, s) || IsCompleted(w, s)) && !(IsCompleted(w, s) && (s in w.lost || InTable(w, s)))
  }

  predicate TableOk(w: World) {
    (forall pid | pid in w.kids :: KidOk(w, pid)) &&
    (forall p, q | p in w.kids && q in w.kids && p != q :: w.kids[p].serial != w.kids[q].serial) &&
    (forall pid | pid in w.finmap :: PadOk(w, pid))
  }

  ghost predicate HistoryOk(w: World) {
    (forall s | 0 <= s < w.started :: LaunchOk(w, s)) &&
    (forall i | 0 <= i < |w.completed| :: w.completed[i].serial < w.started) &&
    (forall i, j | 0 <= i < j < |w.completed| :: w.completed[i].serial != w.completed[j].serial) &&
    (forall s | s in w.lost :: s < w.started)
  }

  // ---- the steps ----

  function Forked(w: World, pid: nat, callback: Callback): World {
    w.(finmap := w.finmap[pid := Pad(w.started, PadState.Run, 0, 0, callback)],
       kids := w.kids[pid := Kid(w.started, !callback.NoCallback?, None)],
       started := w.started + 1)
  }

  // The start failed for want of the acknowledgement, and the caller deletes the launch object.
  function Dropped(w: World, pid: nat): World
    requires pid in w.kids
  {
    w.(finmap := w.finmap - {pid}, lost := w.lost + {w.kids[pid].serial})
  }

  function Died(w: World, pid: nat, exit: Exit): World
    requires pid in w.kids
  {
    w.(kids := w.kids[pid := w.kids[pid].(exit := Some(exit))])
  }

  // The pad after its child is reaped, if it is not deleted.
  function Ended(pad: Pad, exit: Exit): Pad {
    Pad(pad.serial, if exit.Signaled? then PadState.Fail else PadState.Done, SignalOf(exit), StatusOf(exit), NoCallback)
  }

  function Reaped(w: World, pid: nat): World
    requires IsZombie(w.kids, pid)
  {
    var exit := w.kids[pid].exit.value;
    if pid in w.finmap then
      var pad := w.finmap[pid];
      w.(finmap := if pad.callback.Deletes? then w.finmap - {pid} else w.finmap[pid := Ended(pad, exit)],
         kids := w.kids - {pid},
         completed := w.completed + [Completion(pad.serial, SignalOf(exit), StatusOf(exit), !pad.callback.NoCallback?)])
    else w.(kids := w.kids - {pid})
  }

  lemma ForkedKeeps(w: World, pid: nat, callback: Callback)
    requires TableOk(w) && HistoryOk(w) && pid !in w.kids
    ensures TableOk(Forked(w, pid, callback)) && HistoryOk(Forked(w, pid, callback)) && w.started !in w.lost
  {
    var v := Forked(w, pid, callback);
    forall s | 0 <= s < v.started
      ensures LaunchOk(v, s)
    {
      assert IsCompleted(v, s) <==> IsCompleted(w, s);
      if s < w.started {
        assert LaunchOk(w, s);
        if InTable(w, s) {
          var p :| p in w.kids && w.kids[p].serial == s;
          assert p in v.kids && v.kids[p].serial == s;
        }
        if InTable(v, s) {
          var p :| p in v.kids && v.kids[p].serial == s;
          assert p in w.kids && w.kids[p].serial == s;
        }
      } else {
        assert pid in v.kids && v.kids[pid].serial == s;
      }
    }
    forall p | p in v.kids
      ensures KidOk(v, p)
    {
      if p != pid { assert KidOk(w, p); }
    }
    forall p | p in v.finmap
      ensures PadOk(v, p)
    {
      if p != pid { assert PadOk(w, p); }
    }
    forall p, q | p in v.kids && q in v.kids && p != q
      ensures v.kids[p].serial != v.kids[q].serial
    {
      if p in w.kids { assert KidOk(w, p); }
      if q in w.kids { assert KidOk(w, q); }
    }
  }

  lemma DroppedKeeps(w: World, pid: nat)
    requires TableOk(w) && HistoryOk(w) && pid in w.kids
    requires w.kids[pid].serial !in w.lost
    ensures TableOk(Dropped(w, pid)) && HistoryOk(Dropped(w, pid))
  {
    var v := Dropped(w, pid);
    assert KidOk(w, pid);
    forall s | 0 <= s < v.started
      ensures LaunchOk(v, s)
    {
      assert LaunchOk(w, s);
      assert InTable(v, s) <==> InTable(w, s);
      assert IsCompleted(v, s) <==> IsCompleted(w, s);
      if s == w.kids[pid].serial { assert InTable(w, s); }
    }
    forall p | p in v.kids
      ensures KidOk(v, p)
    {
      assert KidOk(w, p);
    }
    forall p | p in v.finmap
      ensures PadOk(v, p)
    {
      assert PadOk(w, p);
    }
  }

  lemma DiedKeeps(w: World, pid: nat, exit: Exit)
    requires TableOk(w) && HistoryOk(w) && pid in w.kids
    ensures TableOk(Died(w, pid, exit)) && HistoryOk(Died(w, pid, exit))
  {
    var v := Died(w, pid, exit);
    assert forall p | p in w.kids :: p in v.kids && v.kids[p].serial == w.kids[p].serial;
    forall s | 0 <= s < v.started
      ensures LaunchOk(v, s)
    {
      assert LaunchOk(w, s);
      assert InTable(v, s) <==> InTable(w, s);
      assert IsCompleted(v, s) <==> IsCompleted(w, s);
    }
    forall p | p in v.kids
      ensures KidOk(v, p)
    {
      assert KidOk(w, p);
    }
    forall p | p in v.finmap
      ensures PadOk(v, p)
    {
      assert PadOk(w, p);
    }
  }

  lemma ReapedKeepsTable(w: World, pid: nat)
    requires TableOk(w) && IsZombie(w.kids, pid)
    ensures TableOk(Reaped(w, pid))
  {
    var v := Reaped(w, pid);
    assert KidOk(w, pid);
    forall p | p in v.kids
      ensures KidOk(v, p)
    {
      assert KidOk(w, p);
    }
    forall p | p in v.finmap
      ensures PadOk(v, p)
    {
      assert PadOk(w, p);
    }
  }

  lemma ReapedKeepsHistory(w: World, pid: nat)
    requires TableOk(w) && HistoryOk(w) && IsZombie(w.kids, pid)
    ensures HistoryOk(Reaped(w, pid))
  {
    var v, t := Reaped(w, pid), w.kids[pid].serial;
    assert KidOk(w, pid) && InTable(w, t) && LaunchOk(w, t);
    forall s | 0 <= s < v.started
      ensures LaunchOk(v, s)
    {
      assert LaunchOk(w, s);
      if InTable(w, s) && s != t {
        var p :| p in w.kids && w.kids[p].serial == s;
        assert p in v.kids && v.kids[p].serial == s;
      }
      if InTable(v, s) {
        var p :| p in v.kids && v.kids[p].serial == s;
        assert p in w.kids && w.kids[p].serial == s;
      }
      if IsCompleted(w, s) {
        var i :| 0 <= i < |w.completed| && w.completed[i].serial == s;
        assert v.completed[i].serial == s;
      }
      if s == t && t !in w.lost {
        assert v.completed[|w.completed|].serial == s;
      }
    }
    forall i | 0 <= i < |w.completed|
      ensures w.completed[i].serial != t
    {
      assert !IsCompleted(w, t);
    }
  }

  function ActivePads(w: World): set<nat> { set pid | pid in w.finmap && Active(w.finmap[pid]) }

  // The children of successful starts that have not been reaped.
  function Unreaped(w: World): set<nat> { set pid | pid in w.kids && w.kids[pid].serial !in w.lost }

  // The zombies left when the work of the loop is done.
  predicate NoZombies(kids: map<nat, Kid>) { forall pid | pid in kids :: kids[pid].exit.None? }

  // The end of this child has been seen to, with its callback run if its launch has one.
  predicate Recorded(w: World, kid: Kid)
    requires kid.exit.Some?
  {
    var exit := kid.exit.value;
    Completion(kid.serial, SignalOf(exit), StatusOf(exit), kid.wants) in w.completed
  }

  lemma ForkedIsAlive(w: World, pid: nat, callback: Callback)
    requires pid !in w.kids
    ensures NoZombies(w.kids) ==> NoZombies(Forked(w, pid, callback).kids)
  {
  }

  // Some children may have ended or been reaped since.
  predicate Later(before: map<nat, Kid>, after: map<nat, Kid>) {
    forall pid | pid in after ::
      pid in before && after[pid].serial == before[pid].serial && after[pid].wants == before[pid].wants &&
      (before[pid].exit.Some? ==> after[pid] == before[pid])
  }

  // The dead among these children are still there, or their end is recorded.
  predicate Accounted(before: map<nat, Kid>, w: World) {
    forall pid | pid in before && IsZombie(before, pid) && before[pid].serial !in w.lost ::
      pid in w.kids || Recorded(w, before[pid])
  }

  lemma NothingHappened(w: World)
    ensures Later(w.kids, w.kids) && Accounted(w.kids, w)
  {
  }

  lemma HappenedAccounts(before: map<nat, Kid>, w: World, kids: map<nat, Kid>)
    requires Later(before, w.kids) && Later(w.kids, kids) && kids.Keys == w.kids.Keys && Accounted(before, w)
    ensures Later(before, kids) && Accounted(before, w.(kids := kids))
  {
    forall pid | pid in before && IsZombie(before, pid) && before[pid].serial !in w.lost
      ensures pid in kids || Recorded(w.(kids := kids), before[pid])
    {
      assert pid in w.kids || Recorded(w, before[pid]);
    }
  }

  lemma ReapedAccounts(before: map<nat, Kid>, w: World, pid: nat)
    requires TableOk(w) && IsZombie(w.kids, pid) && Later(before, w.kids) && Accounted(before, w)
    ensures Later(before, Reaped(w, pid).kids) && Accounted(before, Reaped(w, pid))
  {
    var v := Reaped(w, pid);
    forall p | IsZombie(before, p) && before[p].serial !in v.lost
      ensures p in v.kids || Recorded(v, before[p])
    {
      if p == pid {
        assert KidOk(w, pid);
      }
    }
  }

  // ---- the class ----

  class Launcher {
    var finmap: map<nat, Pad>
    var needsReaping: bool
    var kids: map<nat, Kid>
    var started: nat
    var lost: set<nat>
    var completed: seq<Completion>

    function View(): World
      reads this
    {
      World(finmap, kids, started, lost, completed)
    }

    // What holds even while reap_zombies drains.
    ghost predicate Draining()
      reads this
    {
      TableOk(View()) && HistoryOk(View())
    }

    // No wake-up is lost: a zombie means that the flag is set.
    ghost predicate Valid()
      reads this
    {
      Draining() && (needsReaping || NoZombies(kids))
    }

    constructor ()
      ensures Valid() && View() == World(map[], map[], 0, {}, [])
    {
      finmap, needsReaping, kids, started, lost, completed := map[], false, map[], 0, {}, [];
    }

    // The parent's side of start. The kernel does not give out the id of an unreaped child.
    method Start(outcome: StartOutcome, callback: Callback) returns (ok: bool)
      requires Valid() && (outcome.Forks? ==> outcome.pid !in kids)
      modifies this
      ensures Valid() && needsReaping == old(needsReaping)
      ensures ok == (outcome.Forks? && outcome.ackSent)
      ensures match outcome
              case Forks(pid, ackSent) =>
                var forked := Forked(old(View()), pid, callback);
                View() == if ackSent then forked else Dropped(forked, pid)
              case _ => View() == old(View())
    {
      hide TableOk, HistoryOk, NoZombies;
      match outcome
      case PipeFails => ok := false;
      case ForkFails => ok := false;
      case Forks(pid, ackSent) =>
        ForkedKeeps(View(), pid, callback);
        ForkedIsAlive(View(), pid, callback);
        finmap := finmap[pid := Pad(started, PadState.Run, 0, 0, callback)];
        kids := kids[pid := Kid(started, !callback.NoCallback?, None)];
        started := started + 1;
        ok := ackSent;
        assert View() == Forked(old(View()), pid, callback);
        if !ackSent {
          DroppedKeeps(View(), pid);
          finmap := finmap - {pid};
          lost := lost + {kids[pid].serial};
        }
    }

    // A child ends, at any time; the kernel raises SIGCHLD, and the handler sets the flag.
    method ChildDies(pid: nat, exit: Exit)
      requires Draining() && pid in kids && kids[pid].exit.None?
      modifies this`kids, this`needsReaping
      ensures Draining() && needsReaping && View() == Died(old(View()), pid, exit)
    {
      hide TableOk, HistoryOk;
      DiedKeeps(View(), pid, exit);
      kids := kids[pid := kids[pid].(exit := Some(exit))];
      needsReaping := true;
    }

    // Some children end; deaths of what is no running child do not happen.
    method Happen(deaths: seq<Death>)
      requires Draining()
      modifies this`kids, this`needsReaping
      ensures Draining() && Later(old(kids), kids) && kids.Keys == old(kids).Keys
      ensures needsReaping == (old(needsReaping) || kids != old(kids))
    {
      for i := 0 to |deaths|
        invariant Draining() && Later(old(kids), kids) && kids.Keys == old(kids).Keys
        invariant needsReaping == (old(needsReaping) || kids != old(kids))
      {
        hide TableOk, HistoryOk;
        var d := deaths[i];
        if d.pid in kids && kids[d.pid].exit.None? {
          ChildDies(d.pid, d.exit);
        }
      }
    }

    // What waitpid finds: a zombie, if there is one.
    method WaitPid() returns (cpid: Option<nat>)
      ensures cpid.Some? ==> IsZombie(kids, cpid.value)
      ensures cpid.None? ==> NoZombies(kids)
    {
      var left := kids.Keys;
      while left != {}
        invariant left <= kids.Keys && forall pid | pid in kids && pid !in left :: kids[pid].exit.None?
        decreases left
      {
        var pid :| pid in left;
        if kids[pid].exit.Some? { return Some(pid); }
        left := left - {pid};
      }
      cpid := None;
    }

    // Takes one zombie away and runs its callback.
    method Reap(pid: nat)
      requires Draining() && IsZombie(kids, pid)
      modifies this`finmap, this`kids, this`completed
      ensures Draining() && View() == Reaped(old(View()), pid)
    {
      hide TableOk, HistoryOk;
      ReapedKeepsTable(View(), pid);
      ReapedKeepsHistory(View(), pid);
      var exit := kids[pid].exit.value;
      if pid in finmap {
        var pad := finmap[pid].(state := if exit.Signaled? then PadState.Fail else PadState.Done,
                                xsig := SignalOf(exit), xstat := StatusOf(exit));
        if !pad.callback.NoCallback? && pad.callback.Deletes? {
          finmap := finmap - {pid};
        } else {
          finmap := finmap[pid := pad.(callback := NoCallback)];
        }
        completed := completed + [Completion(pad.serial, pad.xsig, pad.xstat, !pad.callback.NoCallback?)];
      }
      kids := kids - {pid};
    }

    // Reaps until waitpid finds no zombie. Before each of its turns some more children may end.
    method ReapZombies(env: seq<seq<Death>>)
      requires Valid()
      modifies this
      ensures Valid() && NoZombies(kids) && started == old(started) && lost == old(lost)
      ensures old(completed) <= completed && Later(old(kids), kids)
      ensures Accounted(old(kids), View())
      ensures !old(needsReaping) ==> View() == old(View())
    {
      hide TableOk, HistoryOk, Later, Accounted, IsZombie, NoZombies;
      NothingHappened(View());
      if !needsReaping { return; }
      needsReaping := false;
      ghost var before := kids;
      var turn, more := 0, true;
      while more
        invariant Draining() && Later(before, kids) && Accounted(before, View()) && (more || NoZombies(kids))
        invariant started == old(started) && lost == old(lost) && old(completed) <= completed
        decreases |kids|, more
      {
        more := ReapNext(if turn < |env| then env[turn] else [], before);
        turn := turn + 1;
      }
    }

    // One turn of the loop: false if there was no zombie.
    method ReapNext(deaths: seq<Death>, ghost before: map<nat, Kid>) returns (more: bool)
      requires Draining() && Later(before, kids) && Accounted(before, View())
      modifies this
      ensures Draining() && Later(before, kids) && Accounted(before, View())
      ensures if more then |kids| < old(|kids|) else |kids| == old(|kids|) && NoZombies(kids)
      ensures started == old(started) && lost == old(lost) && old(completed) <= completed
    {
      hide TableOk, HistoryOk, Later, Accounted, NoZombies, IsZombie;
      ghost var w := View();
      Happen(deaths);
      HappenedAccounts(before, w, kids);
      assert View() == w.(kids := kids);
      var cpid := WaitPid();
      assert |kids.Keys| == |kids| && |w.kids.Keys| == |w.kids|;
      if cpid.None? { return false; }
      ReapedAccounts(before, View(), cpid.value);
      Reap(cpid.value);
      more := true;
    }

    // The number of NEW and RUN launch objects in the table.
    method Running() returns (n: nat)
      requires Valid()
      ensures n == |Unreaped(View())|
    {
      n := 0;
      var left := finmap.Keys;
      ghost var counted: set<nat> := {};
      while left != {}
        invariant left <= finmap.Keys && n == |counted|
        invariant counted == set pid | pid in finmap && pid !in left && Active(finmap[pid])
        decreases left
      {
        var pid :| pid in left;
        left := left - {pid};
        if Active(finmap[pid]) {
          n := n + 1;
          counted := counted + {pid};
        }
      }
      assert counted == ActivePads(View());
      ActiveAreUnreaped(View());
    }
  }

  // Active launch objects and unreaped children are the same.
  lemma ActiveAreUnreaped(w: World)
    requires TableOk(w)
    ensures ActivePads(w) == Unreaped(w)
  {
    forall pid | pid in w.kids && w.kids[pid].serial !in w.lost
      ensures pid in w.finmap && Active(w.finmap[pid])
    {
      assert KidOk(w, pid);
    }
    forall pid | pid in w.finmap && Active(w.finmap[pid])
      ensures pid in w.kids && w.kids[pid].serial !in w.lost
    {
      assert PadOk(w, pid);
    }
  }

  // ---- whole lives of a launcher ----

  // What can happen to the table, step by step; the methods of the class are made of these.
  datatype Event = Fork(pid: nat, callback: Callback) | Drop(pid: nat) | Die(pid: nat, exit: Exit) | Collect(pid: nat)

  predicate Happens(w: World, e: Event) {
    match e
    case Fork(pid, _) => pid !in w.kids
    case Drop(pid) => pid in w.kids && w.kids[pid].serial !in w.lost
    case Die(pid, _) => pid in w.kids && w.kids[pid].exit.None?
    case Collect(pid) => IsZombie(w.kids, pid)
  }

  function Effect(w: World, e: Event): World
    requires Happens(w, e)
  {
    match e
    case Fork(pid, callback) => Forked(w, pid, callback)
    case Drop(pid) => Dropped(w, pid)
    case Die(pid, exit) => Died(w, pid, exit)
    case Collect(pid) => Reaped(w, pid)
  }

  // The world after these events, or None if one of them could not happen.
  function After(es: seq<Event>): Option<World> {
    if es == [] then Some(World(map[], map[], 0, {}, []))
    else
      match After(es[..|es| - 1])
      case None => None
      case Some(w) => if Happens(w, es[|es| - 1]) then Some(Effect(w, es[|es| - 1])) else None
  }

  // The callbacks given to the launches, in order.
  function Callbacks(es: seq<Event>): seq<Callback> {
    if es == [] then []
    else
      var e := es[|es| - 1];
      Callbacks(es[..|es| - 1]) + if e.Fork? then [e.callback] else []
  }

  function Calls(completed: seq<Completion>, s: nat): nat {
    if completed == [] then 0
    else Calls(completed[..|completed| - 1], s) + if completed[|completed| - 1].serial == s then 1 else 0
  }

  // Children and completions know whether their launch has a callback.
  predicate CallbacksOk(w: World, given: seq<Callback>) {
    w.started == |given| &&
    (forall pid | pid in w.kids ::
       w.kids[pid].serial < |given| && w.kids[pid].wants == !given[w.kids[pid].serial].NoCallback?) &&
    (forall i | 0 <= i < |w.completed| ::
       w.completed[i].serial < |given| && w.completed[i].called == !given[w.completed[i].serial].NoCallback?)
  }

  lemma EffectKeeps(w: World, e: Event)
    requires TableOk(w) && HistoryOk(w) && Happens(w, e)
    ensures TableOk(Effect(w, e)) && HistoryOk(Effect(w, e))
  {
    hide TableOk, HistoryOk;
    match e
    case Fork(pid, callback) => ForkedKeeps(w, pid, callback);
    case Drop(pid) => DroppedKeeps(w, pid);
    case Die(pid, exit) => DiedKeeps(w, pid, exit);
    case Collect(pid) =>
      ReapedKeepsTable(w, pid);
      ReapedKeepsHistory(w, pid);
  }

  lemma EffectKeepsCallbacks(w: World, e: Event, given: seq<Callback>)
    requires TableOk(w) && CallbacksOk(w, given) && Happens(w, e)
    ensures CallbacksOk(Effect(w, e), given + if e.Fork? then [e.callback] else [])
  {
    if e.Collect? { assert KidOk(w, e.pid); }
    if e.Collect? && w.kids[e.pid].serial !in w.lost { assert w.finmap[e.pid].serial == w.kids[e.pid].serial; }
    assert !e.Fork? ==> given + [] == given;
  }

  lemma {:induction false} LifeKeeps(es: seq<Event>)
    requires After(es).Some?
    ensures TableOk(After(es).value) && HistoryOk(After(es).value) && CallbacksOk(After(es).value, Callbacks(es))
  {
    if es != [] {
      var n := |es| - 1;
      LifeKeeps(es[..n]);
      var w := After(es[..n]).value;
      hide TableOk, HistoryOk, CallbacksOk, Effect, Happens;
      EffectKeeps(w, es[n]);
      EffectKeepsCallbacks(w, es[n], Callbacks(es[..n]));
    }
  }

  lemma {:induction false} CallsAreOne(completed: seq<Completion>, s: nat)
    requires forall i, j | 0 <= i < j < |completed| :: completed[i].serial != completed[j].serial
    ensures Calls(completed, s) == if exists i :: 0 <= i < |completed| && completed[i].serial == s then 1 else 0
  {
    if completed != [] {
      var n := |completed| - 1;
      var front := completed[..n];
      CallsAreOne(front, s);
      assert forall i | 0 <= i < n :: front[i] == completed[i];
      if completed[n].serial == s {
        assert forall i | 0 <= i < n :: front[i].serial != s;
      } else if exists i :: 0 <= i < |completed| && completed[i].serial == s {
        var i :| 0 <= i < |completed| && completed[i].serial == s;
        assert front[i].serial == s;
      }
    }
  }

  // Over the whole life of a launcher, each start that succeeded is completed once, when its child is reaped, and not
  // before; and then its callback is called if it was given one.
  lemma ExactlyOnce(es: seq<Event>, s: nat)
    requires After(es).Some? && s < |Callbacks(es)| && s !in After(es).value.lost
    ensures var w := After(es).value;
            && Calls(w.completed, s) == (if InTable(w, s) then 0 else 1)
            && forall c | c in w.completed && c.serial == s :: c.called == !Callbacks(es)[s].NoCallback?
  {
    LifeKeeps(es);
    var w := After(es).value;
    hide After, Callbacks, TableOk;
    CallsAreOne(w.completed, s);
    assert LaunchOk(w, s);
    assert IsCompleted(w, s) <==> exists i :: 0 <= i < |w.completed| && w.completed[i].serial == s;
  }
}
