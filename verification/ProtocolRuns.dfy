/** Which states lead to which, and a run in which a child is launched. */
module ProtocolRuns {
  import opened JobTypes
  import opened Protocol
  import opened ProtocolLocks

  // Steps taken from any state on.
  ghost predicate IsTail(run: seq<State>) {
    run != [] && forall i {:trigger run[i]} | 0 < i < |run| :: Next(run[i - 1], run[i])
  }

  ghost predicate Leads(s: State, t: State) { exists run :: IsTail(run) && run[0] == s && run[|run| - 1] == t }

  ghost predicate Reachable(s: State) { Leads(INIT, s) }

  lemma ReachableByRun(s: State)
    ensures Reachable(s) <==> exists run :: IsRun(run) && run[|run| - 1] == s
  {
    hide Next;
    if Reachable(s) {
      var run :| IsTail(run) && run[0] == INIT && run[|run| - 1] == s;
      assert IsRun(run) && run[|run| - 1] == s;
    }
    if exists run :: IsRun(run) && run[|run| - 1] == s {
      var run :| IsRun(run) && run[|run| - 1] == s;
      assert IsTail(run) && run[0] == INIT && run[|run| - 1] == s;
    }
  }

  lemma LeadsNowhere(s: State)
    ensures Leads(s, s)
  {
    assert IsTail([s]) && [s][0] == s && [s][|[s]| - 1] == s;
  }

  lemma NextLeads(s: State, t: State, u: State)
    requires Leads(s, t) && Next(t, u)
    ensures Leads(s, u)
  {
    hide Next;
    var run :| IsTail(run) && run[0] == s && run[|run| - 1] == t;
    var longer := run + [u];
    forall i | 0 < i < |longer|
      ensures Next(longer[i - 1], longer[i])
    {
      if i < |run| { assert Next(run[i - 1], run[i]); }
    }
    assert IsTail(longer) && longer[0] == s && longer[|longer| - 1] == u;
  }

  lemma StepLeads(s: State, t: State, step: Step)
    requires Leads(s, t) && Enabled(t, step) && Faultless(step)
    ensures Leads(s, Apply(t, step))
  {
    hide Leads, Apply, Enabled;
    assert Next(t, Apply(t, step));
    NextLeads(s, t, Apply(t, step));
  }

  lemma OutsideLeads(s: State, t: State, step: Step)
    requires Leads(s, t) && EnabledOutside(t, step)
    ensures Leads(s, ApplyOutside(t, step))
  {
    hide Leads;
    StepLeads(s, t, step);
  }

  lemma LookLeads(s: State, t: State, step: Step)
    requires Leads(s, t) && EnabledLook(t, step)
    ensures Leads(s, ApplyLook(t, step))
  {
    hide Leads;
    StepLeads(s, t, step);
  }

  lemma HoldLeads(s: State, t: State, step: Step)
    requires Leads(s, t) && EnabledHold(t, step) && Faultless(step)
    ensures Leads(s, ApplyHold(t, step))
  {
    hide Leads;
    StepLeads(s, t, step);
  }

  // The invariant on locks and files holds wherever a state in which it holds leads.
  lemma {:induction false} TailKeeps(run: seq<State>, n: nat)
    requires IsTail(run) && n < |run| && Inv(run[0])
    ensures Inv(run[n])
  {
    if n > 0 {
      TailKeeps(run, n - 1);
      assert Next(run[n - 1], run[n]);
      hide Inv, Enabled, Apply, IsTail;
      var step :| Enabled(run[n - 1], step) && Faultless(step) && run[n] == Apply(run[n - 1], step);
      StepKeeps(run[n - 1], step);
    }
  }

  lemma LeadsKeeps(s: State, t: State)
    requires Leads(s, t) && Inv(s)
    ensures Inv(t)
  {
    hide Inv, Next;
    var run :| IsTail(run) && run[0] == s && run[|run| - 1] == t;
    TailKeeps(run, |run| - 1);
  }

  // ---- a run that launches ----

  // The one file of job 7 is at p, and one handle is about.
  function Lone(p: Path, h: Hid, hd: Handle, recs: seq<Rec>): State {
    INIT.(files := map[p := 4], data := map[4 := Content(7, recs, [], 1)], issued := {7},
          queued := if p.st.Hold? then {} else {7},
          handles := map[h := hd], locks := if Holds(hd.phase) then map[4 := h] else map[])
  }

  lemma LoneLocks(p: Path, h: Hid, m: Mgr, role: Role)
    requires Reachable(Lone(p, h, Handle(m, role, p, Fresh), [])) && !role.Hugger?
    ensures Reachable(Lone(p, h, Handle(m, role, p, Held(4)), []))
  {
    hide Leads;
    var hd := Handle(m, role, p, Fresh);
    LookLeads(INIT, Lone(p, h, hd, []), Open(h));
    assert ApplyLook(Lone(p, h, hd, []), Open(h)) == Lone(p, h, hd.(phase := Opened(4)), []);
    LookLeads(INIT, Lone(p, h, hd.(phase := Opened(4)), []), Flock(h));
    assert ApplyLook(Lone(p, h, hd.(phase := Opened(4)), []), Flock(h)) == Lone(p, h, hd.(phase := Held(4)), []);
  }

  const HELD7 := Path(Hold, 0, 7)
  const PEND7 := Path(Pend, 0, 7)
  const RUN7 := Path(Run, 0, 7)

  // Manager 1 submits job 7.
  lemma JobIsSubmitted()
    ensures Reachable(Lone(HELD7, 1, Handle(1, Submitter, HELD7, Held(4)), []))
  {
    LeadsNowhere(INIT);
    SubmitSeven(INIT);
    hide Leads;
    LoneLocks(HELD7, 1, 1, Submitter);
  }

  lemma SubmitSeven(s: State)
    requires Reachable(s) && s == INIT
    ensures Reachable(Lone(HELD7, 1, Handle(1, Submitter, HELD7, Fresh), []))
  {
    hide Leads;
    OutsideLeads(INIT, s, Submit(1, 1, 7, 4, 0, 1, 0));
    assert seq<JobId>(0, i => 0) == [];
    assert DoSubmit(s, 1, 1, 7, 4, 0, 1, 0) == Lone(HELD7, 1, Handle(1, Submitter, HELD7, Fresh), []);
  }

  // Manager 2 takes it from pend.
  lemma JobIsGrabbed()
    ensures Reachable(Lone(PEND7, 2, Handle(2, Runner, PEND7, Held(4)), []))
  {
    JobIsSubmitted();
    hide Leads;
    var s := Lone(HELD7, 1, Handle(1, Submitter, HELD7, Held(4)), []);
    OutsideLeads(INIT, s, Enqueue(1));
    var s' := DoEnqueue(s, 1);
    assert s' == Lone(PEND7, 2, Handle(2, Runner, PEND7, Fresh), []).(handles := map[]);
    GrabSeven(s');
    LoneLocks(PEND7, 2, 2, Runner);
  }

  lemma GrabSeven(s: State)
    requires Reachable(s) && s == Lone(PEND7, 2, Handle(2, Runner, PEND7, Fresh), []).(handles := map[])
    ensures Reachable(Lone(PEND7, 2, Handle(2, Runner, PEND7, Fresh), []))
  {
    hide Leads;
    LookLeads(INIT, s, Grab(2, 2, PEND7));
    assert DoConstruct(s, 2, 2, Runner, PEND7) == Lone(PEND7, 2, Handle(2, Runner, PEND7, Fresh), []);
  }

  // It is loaded and about to be moved to run.
  function Loaded7(): State { Lone(PEND7, 2, Handle(2, Runner, PEND7, Loaded(4, Content(7, [], [], 1))), []) }

  lemma JobIsLoaded()
    ensures Reachable(Loaded7()) && CanMoveToRun(Loaded7(), 2)
  {
    JobIsGrabbed();
    hide Leads;
    var hd := Handle(2, Runner, PEND7, Held(4));
    HoldLeads(INIT, Lone(PEND7, 2, hd, []), Load(2));
    assert DoLoad(Lone(PEND7, 2, hd, []), 2) == Loaded7();
  }

  lemma JobIsMoved()
    ensures Reachable(Lone(RUN7, 2, Handle(2, Runner, RUN7, Moved(4, Content(7, [Output(1)], [], 1))), []))
  {
    JobIsLoaded();
    hide Leads;
    HoldLeads(INIT, Loaded7(), MoveToRun(2, true));
    assert Begin([]) == [Output(1)];
    assert DoMoveToRun(Loaded7(), 2, true) ==
           Lone(RUN7, 2, Handle(2, Runner, RUN7, Moved(4, Content(7, [Output(1)], [], 1))), []);
  }

  // Manager 2 launches it: some run has a live child, so the theorems above speak of something.
  lemma SomeRunLaunches()
    ensures Reachable(Lone(RUN7, 2, Handle(2, Runner, RUN7, Live(4)), [Output(1)]))
  {
    JobIsMoved();
    hide Leads;
    var s := Lone(RUN7, 2, Handle(2, Runner, RUN7, Moved(4, Content(7, [Output(1)], [], 1))), []);
    HoldLeads(INIT, s, Write(2, 5));
    assert DoWrite(s, 2, 5) == Lone(RUN7, 2, Handle(2, Runner, RUN7, Ready(4)), [Output(1)]);
    LaunchSeven(DoWrite(s, 2, 5));
  }

  lemma LaunchSeven(s: State)
    requires Reachable(s) && s == Lone(RUN7, 2, Handle(2, Runner, RUN7, Ready(4)), [Output(1)])
    ensures Reachable(Lone(RUN7, 2, Handle(2, Runner, RUN7, Live(4)), [Output(1)]))
  {
    hide Leads;
    HoldLeads(INIT, s, Launch(2, 6));
    assert DoLaunch(s, 2, 6) == Lone(RUN7, 2, Handle(2, Runner, RUN7, Live(4)), [Output(1)]);
  }
}
