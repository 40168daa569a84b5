/**
 What a rename to run that rename(2) refuses does: store() does not look at its error, and the job is launched all the
 same.
 */
module ProtocolFaults {
  import opened JobTypes
  import opened Protocol
  import opened ProtocolLocks
  import opened ProtocolTheorems
  import opened ProtocolRuns

  // What is known of a handle that is about to move its file to run.
  lemma AboutToMove(s: State, h: Hid)
    requires Inv(s) && CanMoveToRun(s, h)
    ensures var hd := s.handles[h];
            && hd.role.Runner? && hd.name.st.Pend? && hd.name.time <= s.now && hd.name.job in s.issued
            && hd.name in s.files && s.files[hd.name] == hd.phase.ino && hd.phase.ino in s.data
            && (forall p | p in s.files && p.job == hd.name.job :: p == hd.name)
    ensures forall i | i in s.locks :: i in s.data
  {
    hide InvAt;
    var w :| InvAt(s, w);
    InvParts(s, w);
    InvHandle(s, w, h);
    hide HugOk, SubmitterOk;
    NameFindsInode(s, w, s.handles[h]);
    forall p | p in s.files && p.job == s.handles[h].name.job
      ensures p == s.handles[h].name
    {
      OnePath(s, w, s.handles[h].name, p);
    }
    hide FilesOk, HistoryOk, HandleOk;
    forall i | i in s.locks
      ensures i in s.data
    {
      LockedInode(s, w, i);
    }
  }

  lemma LockedInode(s: State, w: Where, i: Inode)
    requires InvAt(s, w) && i in s.locks
    ensures i in s.data
  {
    hide InvAt;
    InvParts(s, w);
    InvHandle(s, w, s.locks[i]);
  }

  // ---- conservation ----

  // When the rename fails on a file that is there, the job is written under its pending name and its child makes a
  // second file in run; when it works there is one file.
  lemma LaunchKeepsOneFileIffRenamed(run: seq<State>, n: nat, h: Hid, renamed: bool, ino: Inode, log: Inode)
    requires IsRun(run) && n < |run| && CanMoveToRun(run[n], h)
    requires CanWrite(DoMoveToRun(run[n], h, renamed), h, ino)
    requires CanLaunch(DoWrite(DoMoveToRun(run[n], h, renamed), h, ino), h, log)
    ensures OneFile(DoLaunch(DoWrite(DoMoveToRun(run[n], h, renamed), h, ino), h, log), run[n].handles[h].name.job)
            <==> renamed
  {
    hide IsRun;
    RunKeeps(run, n);
    AboutToMove(run[n], h);
    LaunchMakes(run[n], h, renamed, ino, log);
  }

  lemma LaunchMakes(s: State, h: Hid, renamed: bool, ino: Inode, log: Inode)
    requires CanMoveToRun(s, h) && s.handles[h].name in s.files && s.handles[h].name.st.Pend?
    requires forall p | p in s.files && p.job == s.handles[h].name.job :: p == s.handles[h].name
    requires CanWrite(DoMoveToRun(s, h, renamed), h, ino)
    requires CanLaunch(DoWrite(DoMoveToRun(s, h, renamed), h, ino), h, log)
    ensures OneFile(DoLaunch(DoWrite(DoMoveToRun(s, h, renamed), h, ino), h, log), s.handles[h].name.job) <==> renamed
  {
    var hd := s.handles[h];
    var s1 := DoMoveToRun(s, h, renamed);
    var s3 := DoLaunch(DoWrite(s1, h, ino), h, log);
    if renamed {
      assert s3.files == s1.files;
      var p := RunName(hd);
      assert p in s3.files && forall q | q in s3.files && q.job == p.job :: q == p;
    } else {
      assert hd.name in s3.files && RunName(hd) in s3.files && hd.name != RunName(hd);
    }
  }

  // ---- mutual exclusion ----

  // No two live children of one job.
  ghost predicate Exclusive(s: State) {
    forall g, h | g in s.handles && h in s.handles && s.handles[g].phase.Live? && s.handles[h].phase.Live? &&
                  s.handles[g].name.job == s.handles[h].name.job :: g == h
  }

  lemma {:induction false} FreshNat(used: set<nat>) returns (k: nat)
    ensures forall u | u in used :: u < k
  {
    k := 0;
    if used != {} {
      var u :| u in used;
      var above := FreshNat(used - {u});
      k := if above <= u then u + 1 else above;
      forall v | v in used
        ensures v < k
      {
        if v != u { assert v in used - {u}; }
      }
    }
  }

  // The job of h has a live child, its pending file, and an unlocked log file in run.
  ghost predicate TwoFiles(s: State, h: Hid, p: Path, log: Inode) {
    && h in s.handles && s.handles[h].phase.Live? && s.handles[h].name.job == p.job
    && p.st.Pend? && p.time <= s.now && p.job in s.issued && p in s.files && p.(st := Run) in s.files
    && s.files[p.(st := Run)] == log && log in s.data && s.data[log].ties == [] && log !in s.locks
  }

  // The log file has taken the place of the pending one.
  ghost predicate LogPending(s: State, h: Hid, p: Path, log: Inode) {
    && h in s.handles && s.handles[h].phase.Live? && s.handles[h].name.job == p.job
    && p.st.Pend? && p.time <= s.now && p.job in s.issued && p in s.files
    && s.files[p] == log && log in s.data && s.data[log].ties == [] && log !in s.locks
  }

  // h goes on although its rename was refused.
  lemma LaunchUnmoved(s: State, h: Hid) returns (t: State, log: Inode)
    requires Inv(s) && CanMoveToRun(s, h)
    ensures Leads(DoMoveToRun(s, h, false), t) && TwoFiles(t, h, s.handles[h].name, log)
  {
    hide Inv, Leads;
    AboutToMove(s, h);
    log := FreshNat(s.data.Keys);
    assert log !in s.data;
    UnmovedWrites(s, h, log);
    var s1 := DoMoveToRun(s, h, false);
    t := DoLaunch(DoWrite(s1, h, log), h, log);
    hide *;
    LeadsNowhere(s1);
    HoldLeads(s1, s1, Write(h, log));
    HoldLeads(s1, DoWrite(s1, h, log), Launch(h, log));
  }

  lemma UnmovedWrites(s: State, h: Hid, log: Inode)
    requires CanMoveToRun(s, h) && s.handles[h].role.Runner? && log !in s.data
    requires var hd := s.handles[h];
             && hd.name.st.Pend? && hd.name.time <= s.now && hd.name.job in s.issued && hd.name in s.files
             && s.files[hd.name] in s.data && forall p | p in s.files && p.job == hd.name.job :: p == hd.name
    requires forall i | i in s.locks :: i in s.data
    ensures var s1 := DoMoveToRun(s, h, false);
            && EnabledHold(s1, Write(h, log)) && ApplyHold(s1, Write(h, log)) == DoWrite(s1, h, log)
            && var s2 := DoWrite(s1, h, log);
            && EnabledHold(s2, Launch(h, log)) && ApplyHold(s2, Launch(h, log)) == DoLaunch(s2, h, log)
            && Faultless(Write(h, log)) && Faultless(Launch(h, log))
            && TwoFiles(DoLaunch(s2, h, log), h, s.handles[h].name, log)
  {
    var s1 := DoMoveToRun(s, h, false);
    assert s1.files == s.files && s1.data == s.data && s1.locks == s.locks;
    assert RunName(s.handles[h]) !in s.files;
    hide DoMoveToRun;
  }

  // A new handle takes the lock of an unlocked file that it may go for.
  function Taken(s: State, g: Hid, role: Role, p: Path): State
    requires p in s.files
  {
    s.(handles := s.handles[g := Handle(0, role, p, Held(s.files[p]))], locks := s.locks[s.files[p] := g])
  }

  lemma TakeLock(s0: State, s: State, g: Hid, role: Role, p: Path)
    requires Leads(s0, s) && p in s.files && s.files[p] !in s.locks
    requires (role.Runner? && CanGrab(s, g, p)) || (role.Raiser? && CanFindDead(s, g, p))
    ensures Leads(s0, Taken(s, g, role, p))
  {
    hide Leads;
    var s1 := DoConstruct(s, g, 0, role, p);
    if role.Runner? {
      LookLeads(s0, s, Grab(g, 0, p));
    } else {
      LookLeads(s0, s, FindDead(g, 0, p));
    }
    OpenAndFlock(s0, s, g, role, p);
  }

  lemma OpenConstructed(s: State, g: Hid, role: Role, p: Path)
    requires p in s.files && !role.Hugger?
    ensures var s1 := DoConstruct(s, g, 0, role, p);
            && EnabledLook(s1, Open(g)) && ApplyLook(s1, Open(g)) == DoOpen(s1, g)
            && DoOpen(s1, g) == s.(handles := s.handles[g := Handle(0, role, p, Opened(s.files[p]))])
  {
  }

  lemma FlockOpened(s: State, g: Hid, role: Role, p: Path)
    requires p in s.files && s.files[p] !in s.locks
    ensures var s2 := s.(handles := s.handles[g := Handle(0, role, p, Opened(s.files[p]))]);
            EnabledLook(s2, Flock(g)) && ApplyLook(s2, Flock(g)) == Taken(s, g, role, p)
  {
  }

  lemma OpenAndFlock(s0: State, s: State, g: Hid, role: Role, p: Path)
    requires Leads(s0, DoConstruct(s, g, 0, role, p)) && p in s.files && s.files[p] !in s.locks && !role.Hugger?
    ensures Leads(s0, Taken(s, g, role, p))
  {
    hide *;
    var s1 := DoConstruct(s, g, 0, role, p);
    OpenConstructed(s, g, role, p);
    FlockOpened(s, g, role, p);
    LookLeads(s0, s1, Open(g));
    LookLeads(s0, DoOpen(s1, g), Flock(g));
  }

  // Another manager takes the log file for that of a dead job and renames it over the pending file.
  lemma RaiseLog(s0: State, s: State, h: Hid, p: Path, log: Inode) returns (t: State)
    requires Leads(s0, s) && TwoFiles(s, h, p, log)
    ensures Leads(s0, t) && LogPending(t, h, p, log)
  {
    var g := FreshNat(s.handles.Keys);
    hide Leads;
    TakeLock(s0, s, g, Raiser, p.(st := Run));
    var s1 := Taken(s, g, Raiser, p.(st := Run));
    HoldLeads(s0, s1, Resurrect(g, true));
    t := DoResurrect(s1, g, true);
  }

  // And another runs it once more.
  lemma LaunchAgain(s0: State, s: State, h: Hid, p: Path, log: Inode) returns (t: State)
    requires Leads(s0, s) && LogPending(s, h, p, log)
    ensures Leads(s0, t) && !Exclusive(t)
  {
    var k := FreshNat(s.handles.Keys);
    var x := FreshNat(s.data.Keys);
    hide Leads;
    TakeLock(s0, s, k, Runner, p);
    var s1 := Taken(s, k, Runner, p);
    HoldLeads(s0, s1, Load(k));
    var s2 := DoLoad(s1, k);
    HoldLeads(s0, s2, MoveToRun(k, true));
    var s3 := DoMoveToRun(s2, k, true);
    t := LaunchMoved(s0, s3, k, h, p, x);
  }

  lemma LaunchMoved(s0: State, s: State, k: Hid, h: Hid, p: Path, x: Inode) returns (t: State)
    requires Leads(s0, s) && k in s.handles && s.handles[k].phase.Moved? && s.handles[k].name == p.(st := Run)
    requires h in s.handles && h != k && s.handles[h].phase.Live? && s.handles[h].name.job == p.job
    requires p.(st := Run) in s.files && x !in s.data && s.files[p.(st := Run)] in s.data
    ensures Leads(s0, t) && !Exclusive(t)
  {
    hide Leads;
    HoldLeads(s0, s, Write(k, x));
    var s1 := DoWrite(s, k, x);
    HoldLeads(s0, s1, Launch(k, x));
    t := DoLaunch(s1, k, x);
    assert t.handles[k].phase.Live? && t.handles[h].phase.Live? && t.handles[k].name.job == t.handles[h].name.job;
  }

  lemma FaultLeadsToTwo(s: State, h: Hid) returns (t: State)
    requires Inv(s) && CanMoveToRun(s, h)
    ensures Leads(DoMoveToRun(s, h, false), t) && !Exclusive(t)
  {
    hide Leads, Inv, Exclusive;
    var s0 := DoMoveToRun(s, h, false);
    var p := s.handles[h].name;
    var a, log := LaunchUnmoved(s, h);
    hide *;
    var b := RaiseLog(s0, a, h, p, log);
    t := LaunchAgain(s0, b, h, p, log);
  }

  lemma ExclusiveAfter(s: State, t: State)
    requires Inv(s) && Leads(s, t)
    ensures Exclusive(t)
  {
    hide Inv, Leads;
    LeadsKeeps(s, t);
    forall g, h | g in t.handles && h in t.handles && t.handles[g].phase.Live? && t.handles[h].phase.Live? &&
                  t.handles[g].name.job == t.handles[h].name.job
      ensures g == h
    {
      Exclusion(t, g, h);
    }
  }

  // At any move to run in any run, mutual exclusion is safe from then on exactly if the rename works: if it is
  // refused, there are steps of other managers that end with two live children of the job.
  lemma ExclusionIffRenamed(run: seq<State>, n: nat, h: Hid, renamed: bool)
    requires IsRun(run) && n < |run| && CanMoveToRun(run[n], h)
    ensures (forall t | Leads(DoMoveToRun(run[n], h, renamed), t) :: Exclusive(t)) <==> renamed
  {
    hide IsRun, Inv, Leads, Exclusive;
    RunKeeps(run, n);
    var s := run[n];
    if renamed {
      var step := MoveToRun(h, true);
      StepKeeps(s, step);
      assert Apply(s, step) == DoMoveToRun(s, h, true);
      forall t | Leads(DoMoveToRun(s, h, true), t)
        ensures Exclusive(t)
      {
        ExclusiveAfter(DoMoveToRun(s, h, true), t);
      }
    } else {
      var t := FaultLeadsToTwo(s, h);
    }
  }

  // Such a refusal can happen: from the start on there is a way to two live children of job 7.
  lemma SomeFaultBreaksExclusion() returns (t: State)
    ensures Reachable(Loaded7()) && CanMoveToRun(Loaded7(), 2)
    ensures Leads(DoMoveToRun(Loaded7(), 2, false), t) && !Exclusive(t)
  {
    JobIsLoaded();
    hide Leads, Exclusive, Inv, Loaded7, CanMoveToRun, DoMoveToRun;
    InitOk();
    LeadsKeeps(INIT, Loaded7());
    t := FaultLeadsToTwo(Loaded7(), 2);
  }
}
