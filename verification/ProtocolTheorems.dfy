/** The properties of every run of the protocol, over any number of managers, jobs, interleavings and crashes. */
module ProtocolTheorems {
  import opened JobTypes
  import opened Protocol
  import opened ProtocolLocks
  import opened ProtocolTries
  import QueueScan

  // Both invariants hold in every state of every run.
  lemma {:induction false} RunKeeps(run: seq<State>, n: nat)
    requires IsRun(run) && n < |run|
    ensures Inv(run[n]) && TryInv(run[n])
  {
    hide *;
    if n == 0 {
      RunStarts(run);
      InitOk();
    } else {
      RunKeeps(run, n - 1);
      RunGoesOn(run, n);
      NextKeeps(run[n - 1], run[n]);
    }
  }

  lemma RunStarts(run: seq<State>)
    requires IsRun(run)
    ensures run != [] && run[0] == INIT
  {
  }

  lemma RunGoesOn(run: seq<State>, n: nat)
    requires IsRun(run) && 0 < n < |run|
    ensures Next(run[n - 1], run[n])
  {
    hide Next;
  }

  lemma InitOk()
    ensures Inv(INIT) && TryInv(INIT)
  {
    assert InvAt(INIT, Where(map[], map[], map[]));
  }

  lemma NextKeeps(s: State, s': State)
    requires Inv(s) && TryInv(s) && Next(s, s')
    ensures Inv(s') && TryInv(s')
  {
    hide Inv, TryInv;
    var step :| Enabled(s, step) && Faultless(step) && s' == Apply(s, step);
    hide Enabled, Apply;
    StepKeeps(s, step);
    StepKeepsTries(s, step);
  }

  // ---- mutual exclusion ----

  // A job with a live child has one live handle; it holds the lock of the job's only file, which is in run.
  lemma MutualExclusion(run: seq<State>, n: nat, g: Hid, h: Hid)
    requires IsRun(run) && n < |run|
    requires g in run[n].handles && run[n].handles[g].phase.Live?
    requires h in run[n].handles && run[n].handles[h].phase.Live?
    requires run[n].handles[g].name.job == run[n].handles[h].name.job
    ensures g == h
    ensures var s := run[n];
            var hd := s.handles[h];
            && hd.name in s.files && hd.name.st == Run && s.files[hd.name] == hd.phase.ino
            && hd.phase.ino in s.locks && s.locks[hd.phase.ino] == h
            && forall p | p in s.files && p.job == hd.name.job :: p == hd.name
  {
    hide IsRun;
    RunKeeps(run, n);
    Exclusion(run[n], g, h);
  }

  lemma Exclusion(s: State, g: Hid, h: Hid)
    requires Inv(s) && g in s.handles && s.handles[g].phase.Live? && h in s.handles && s.handles[h].phase.Live?
    requires s.handles[g].name.job == s.handles[h].name.job
    ensures g == h
    ensures var hd := s.handles[h];
            && hd.name in s.files && hd.name.st == Run && s.files[hd.name] == hd.phase.ino
            && hd.phase.ino in s.locks && s.locks[hd.phase.ino] == h
            && forall p | p in s.files && p.job == hd.name.job :: p == hd.name
  {
    hide InvAt;
    var w :| InvAt(s, w);
    InvParts(s, w);
    InvHandle(s, w, g);
    InvHandle(s, w, h);
    hide HugOk, SubmitterOk;
    NameFindsInode(s, w, s.handles[g]);
    NameFindsInode(s, w, s.handles[h]);
    forall p | p in s.files && p.job == s.handles[h].name.job
      ensures p == s.handles[h].name
    {
      assert PathOk(s, w, p);
    }
  }

  // ---- conservation ----

  ghost predicate OneFile(s: State, j: JobId) {
    exists p :: p in s.files && p.job == j && forall q | q in s.files && q.job == j :: q == p
  }

  // From its creation until it is purged or withdrawn, a job has exactly one file; otherwise it has none.
  lemma Conservation(run: seq<State>, n: nat, j: JobId)
    requires IsRun(run) && n < |run|
    ensures j in run[n].issued && j !in run[n].gone <==> OneFile(run[n], j)
    ensures (j !in run[n].issued || j in run[n].gone) <==> (forall p | p in run[n].files :: p.job != j)
  {
    hide IsRun;
    RunKeeps(run, n);
    Conserved(run[n], j);
  }

  lemma Conserved(s: State, j: JobId)
    requires Inv(s)
    ensures j in s.issued && j !in s.gone <==> OneFile(s, j)
    ensures (j !in s.issued || j in s.gone) <==> (forall p | p in s.files :: p.job != j)
  {
    hide InvAt;
    var w :| InvAt(s, w);
    InvParts(s, w);
    assert forall p | p in s.files :: PathOk(s, w, p);
    if j in s.issued && j !in s.gone {
      var p := w.home[j];
      assert p in s.files && p.job == j && forall q | q in s.files && q.job == j :: q == p;
    }
  }

  // The file stays, or goes to another name of the same job along an edge; the inode is the same.
  ghost predicate StaysOrMoves(s: State, s': State, p: Path)
    requires p in s.files
  {
    || (p in s'.files && s'.files[p] == s.files[p])
    || (exists q :: q in s'.files && q.job == p.job && s'.files[q] == s.files[p] && Edge(p.st, q.st))
  }

  lemma RenameMoves(s: State, s': State, w: Where, from: Path, to: Path, p: Path)
    requires FilesOk(s, w) && from in s.files && p in s.files && to.job == from.job && Edge(from.st, to.st)
    requires s'.files == (s.files - {from})[to := s.files[from]]
    ensures StaysOrMoves(s, s', p)
  {
    if p == from {
      assert to in s'.files && to.job == p.job && s'.files[to] == s.files[p];
    }
  }

  lemma RepathMoves(s: State, s': State, w: Where, h: Hid, to: Path, p: Path)
    requires FilesOk(s, w) && HistoryOk(s) && Repathed(s, s', h, to) && p in s.files
    ensures StaysOrMoves(s, s', p)
  {
    var from := s.handles[h].name;
    if from in s.files { RenameMoves(s, s', w, from, to, p); }
  }

  lemma StoreMoves(s: State, s': State, w: Where, h: Hid, to: Path, c: Content, ino: Inode, renamed: bool, p: Path)
    requires FilesOk(s, w) && Stored(s, s', h, to, c, ino, renamed) && p in s.files
    ensures StaysOrMoves(s, s', p)
  {
    if renamed { RenameMoves(s, s', w, s.handles[h].name, to, p); }
  }

  lemma CloseMoves(s: State, h: Hid, p: Path)
    requires p in s.files
    ensures StaysOrMoves(s, Close(s, h), p)
  {
  }

  lemma AbandonMoves(s: State, w: Where, h: Hid, renamed: bool, p: Path)
    requires InvAt(s, w) && CanAbandon(s, h) && p in s.files
    ensures StaysOrMoves(s, DoAbandon(s, h, renamed), p)
  {
    InvHandle(s, w, h);
    InvParts(s, w);
    if renamed {
      AbandonRepaths(s, h);
      hide *;
      RepathMoves(s, DoAbandon(s, h, true), w, h, s.handles[h].name.(st := Done), p);
    } else {
      CloseMoves(s, h, p);
    }
  }

  lemma ResurrectMoves(s: State, w: Where, h: Hid, renamed: bool, p: Path)
    requires InvAt(s, w) && CanResurrect(s, h) && p in s.files
    ensures StaysOrMoves(s, DoResurrect(s, h, renamed), p)
  {
    InvHandle(s, w, h);
    InvParts(s, w);
    if renamed {
      ResurrectRepaths(s, h);
      hide *;
      RepathMoves(s, DoResurrect(s, h, true), w, h, s.handles[h].name.(st := Pend), p);
    } else {
      CloseMoves(s, h, p);
    }
  }

  lemma GroupDoneMoves(s: State, w: Where, h: Hid, renamed: bool, p: Path)
    requires InvAt(s, w) && CanGroupDone(s, h) && p in s.files
    ensures StaysOrMoves(s, DoGroupDone(s, h, renamed), p)
  {
    InvHandle(s, w, h);
    InvParts(s, w);
    if renamed {
      GroupDoneRepaths(s, h);
      hide *;
      RepathMoves(s, DoGroupDone(s, h, true), w, h, Path(Done, s.now, s.handles[h].name.job), p);
    } else {
      CloseMoves(s, h, p);
    }
  }

  lemma SplitMoves(s: State, w: Where, h: Hid, ino: Inode, renamed: bool, p: Path)
    requires InvAt(s, w) && IsGroup(s, h) && p in s.files
    ensures StaysOrMoves(s, DoSplit(s, h, ino, renamed), p)
  {
    hide InvAt;
    InvHandle(s, w, h);
    InvParts(s, w);
    var hd := s.handles[h];
    hide *;
    SplitStores(s, h, ino, renamed);
    StoreMoves(s, DoSplit(s, h, ino, renamed), w, h, hd.name.(st := Tied), hd.phase.mem, ino, renamed, p);
  }

  lemma MoveToRunMoves(s: State, w: Where, h: Hid, p: Path)
    requires InvAt(s, w) && CanMoveToRun(s, h) && p in s.files
    ensures StaysOrMoves(s, DoMoveToRun(s, h, true), p)
  {
    hide InvAt;
    InvHandle(s, w, h);
    InvParts(s, w);
    var hd := s.handles[h];
    RenameMoves(s, DoMoveToRun(s, h, true), w, hd.name, RunName(hd), p);
  }

  lemma TryDoneMoves(s: State, w: Where, h: Hid, ino: Inode, renamed: bool, p: Path)
    requires InvAt(s, w) && CanTryDone(s, h, ino) && p in s.files
    ensures StaysOrMoves(s, DoTryDone(s, h, ino, renamed), p)
  {
    hide InvAt;
    var hd := s.handles[h];
    InvHandle(s, w, h);
    InvParts(s, w);
    assert hd.name.st.Run? && s.data[s.files[RunName(hd)]].job == hd.name.job;
    hide *;
    TryDoneStores(s, h, ino, renamed);
    var c := s.data[s.files[hd.name]];
    StoreMoves(s, DoTryDone(s, h, ino, renamed), w, h, AfterTry(s.now, hd.name, c, hd.phase.how),
               c.(recs := c.recs + [Result(TryCount(c.recs))]), ino, renamed, p);
  }

  lemma WriteMoves(s: State, w: Where, h: Hid, ino: Inode, p: Path)
    requires InvAt(s, w) && CanWrite(s, h, ino) && p in s.files
    ensures StaysOrMoves(s, DoWrite(s, h, ino), p)
  {
    hide InvAt;
    InvHandle(s, w, h);
  }

  lemma LaunchMoves(s: State, w: Where, h: Hid, ino: Inode, p: Path)
    requires InvAt(s, w) && CanLaunch(s, h, ino) && p in s.files
    ensures StaysOrMoves(s, DoLaunch(s, h, ino), p)
  {
    hide InvAt;
    InvHandle(s, w, h);
    LaunchFindsLog(s, h, ino);
  }

  lemma HoldMoves(s: State, w: Where, step: Step, p: Path)
    requires InvAt(s, w) && EnabledHold(s, step) && Faultless(step) && p in s.files
    ensures StaysOrMoves(s, ApplyHold(s, step), p)
  {
    hide InvAt, Edge;
    match step
    case Split(h, ino, renamed) => SplitMoves(s, w, h, ino, renamed, p);
    case MoveToRun(h, _) => MoveToRunMoves(s, w, h, p);
    case Write(h, ino) => WriteMoves(s, w, h, ino, p);
    case Launch(h, ino) => LaunchMoves(s, w, h, ino, p);
    case Abandon(h, renamed) => AbandonMoves(s, w, h, renamed, p);
    case TryDone(h, ino, renamed) => TryDoneMoves(s, w, h, ino, renamed, p);
    case Resurrect(h, renamed) => ResurrectMoves(s, w, h, renamed, p);
    case GroupDone(h, renamed) => GroupDoneMoves(s, w, h, renamed, p);
    case _ =>
  }

  lemma EnqueueMoves(s: State, w: Where, h: Hid, p: Path)
    requires InvAt(s, w) && CanEnqueue(s, h) && p in s.files
    ensures StaysOrMoves(s, DoEnqueue(s, h), p)
  {
    InvHandle(s, w, h);
    InvParts(s, w);
    EnqueueRepaths(s, h);
    hide *;
    RepathMoves(s, DoEnqueue(s, h), w, h, s.handles[h].name.(st := Pend), p);
  }

  lemma WithdrawMoves(s: State, w: Where, h: Hid, p: Path)
    requires InvAt(s, w) && CanWithdraw(s, h) && p in s.files
    ensures StaysOrMoves(s, DoWithdraw(s, h), p) || (p.st == Hold && p.job in DoWithdraw(s, h).gone)
  {
    assert HandleOk(s, s.handles[h]);
  }

  lemma SubmitMoves(s: State, w: Where, step: Step, p: Path)
    requires InvAt(s, w) && step.Submit? && EnabledOutside(s, step) && p in s.files
    ensures StaysOrMoves(s, ApplyOutside(s, step), p)
  {
  }

  lemma OutsideMoves(s: State, w: Where, step: Step, p: Path)
    requires InvAt(s, w) && EnabledOutside(s, step) && p in s.files
    ensures || StaysOrMoves(s, ApplyOutside(s, step), p)
            || (step.Purge? && p.st == Done && p.job in ApplyOutside(s, step).gone)
            || (step.Withdraw? && p.st == Hold && p.job in ApplyOutside(s, step).gone)
  {
    hide InvAt;
    match step
    case Submit(_, _, _, _, _, _, _) => SubmitMoves(s, w, step, p);
    case Enqueue(h) => EnqueueMoves(s, w, h, p);
    case Withdraw(h) => WithdrawMoves(s, w, h, p);
    case _ =>
  }

  // Job files move along the edges only, keep their inode, and disappear only from done or, at the hands of
  // their own submitter, from hold.
  lemma FilesMoveAlongEdges(run: seq<State>, n: nat, step: Step, p: Path)
    requires IsRun(run) && n < |run| && Enabled(run[n], step) && Faultless(step) && p in run[n].files
    ensures || StaysOrMoves(run[n], Apply(run[n], step), p)
            || (step.Purge? && p.st == Done && p.job in Apply(run[n], step).gone)
            || (step.Withdraw? && p.st == Hold && p.job in Apply(run[n], step).gone)
  {
    hide IsRun;
    RunKeeps(run, n);
    StepMoves(run[n], step, p);
  }

  lemma StepMoves(s: State, step: Step, p: Path)
    requires Inv(s) && Enabled(s, step) && Faultless(step) && p in s.files
    ensures || StaysOrMoves(s, Apply(s, step), p)
            || (step.Purge? && p.st == Done && p.job in Apply(s, step).gone)
            || (step.Withdraw? && p.st == Hold && p.job in Apply(s, step).gone)
  {
    hide InvAt, Edge, StaysOrMoves, EnabledOutside, EnabledLook, EnabledHold, ApplyOutside, ApplyHold, ApplyLook;
    var w :| InvAt(s, w);
    if EnabledOutside(s, step) {
      OutsideMoves(s, w, step, p);
    } else if EnabledLook(s, step) {
      LookMoves(s, step, p);
    } else {
      HoldMoves(s, w, step, p);
    }
  }

  lemma LookMoves(s: State, step: Step, p: Path)
    requires EnabledLook(s, step) && p in s.files
    ensures StaysOrMoves(s, ApplyLook(s, step), p)
  {
  }

  // ---- group completion ----

  // A tied job reaches done only if every job it is tied to had reached done, although the directories were
  // read one name at a time while the children moved.
  lemma GroupCompletionIsSound(run: seq<State>, n: nat, step: Step, p: Path, q: Path)
    requires IsRun(run) && n < |run| && Enabled(run[n], step) && Faultless(step)
    requires p in run[n].files && p.st == Tied
    requires q in Apply(run[n], step).files && q.job == p.job && q.st == Done
    ensures run[n].files[p] in run[n].data
    ensures forall c | c in run[n].data[run[n].files[p]].ties :: c in run[n].finished
  {
    hide IsRun;
    RunKeeps(run, n);
    GroupIsDone(run[n], step, p, q);
  }

  lemma OnePath(s: State, w: Where, p: Path, q: Path)
    requires FilesOk(s, w) && p in s.files
    ensures q in s.files && q.job == p.job ==> q == p
  {
  }

  lemma GroupIsDone(s: State, step: Step, p: Path, q: Path)
    requires Inv(s) && Enabled(s, step) && Faultless(step)
    requires p in s.files && p.st == Tied
    requires q in Apply(s, step).files && q.job == p.job && q.st == Done
    ensures s.files[p] in s.data && forall c | c in s.data[s.files[p]].ties :: c in s.finished
  {
    hide InvAt, Enabled, Apply;
    var w :| InvAt(s, w);
    InvParts(s, w);
    assert PathOk(s, w, p);
    OnePath(s, w, p, q);
    TiedLeavesByGroupCheck(s, w, step, p, q);
    InvHandle(s, w, step.h);
  }

  // Names that come up belong to the job of the handle that took the step.
  ghost predicate OwnNames(s: State, s': State, h: Hid) {
    h in s.handles &&
    forall q | q in s'.files && q !in s.files :: s.handles[h].name in s.files && q.job == s.handles[h].name.job
  }

  lemma RepathNames(s: State, s': State, h: Hid, to: Path)
    requires Repathed(s, s', h, to)
    ensures OwnNames(s, s', h)
  {
  }

  lemma StoreNames(s: State, s': State, h: Hid, to: Path, c: Content, ino: Inode, renamed: bool)
    requires Stored(s, s', h, to, c, ino, renamed)
    ensures OwnNames(s, s', h)
  {
  }

  lemma RenamingNames(s: State, w: Where, step: Step)
    requires InvAt(s, w) && EnabledHold(s, step) && Faultless(step) && Renames(step)
    ensures OwnNames(s, ApplyHold(s, step), step.h)
  {
    hide InvAt;
    var h, hd := step.h, s.handles[step.h];
    InvHandle(s, w, h);
    hide HandleOk, HugOk, SubmitterOk, OwnNames;
    match step
    case Split(_, ino, renamed) =>
      SplitStores(s, h, ino, renamed);
      StoreNames(s, DoSplit(s, h, ino, renamed), h, hd.name.(st := Tied), hd.phase.mem, ino, renamed);
    case MoveToRun(_, _) => MoveToRunNames(s, h);
    case Abandon(_, renamed) =>
      if renamed {
        AbandonRepaths(s, h);
        RepathNames(s, DoAbandon(s, h, true), h, hd.name.(st := Done));
      } else {
        CloseNames(s, h);
      }
    case TryDone(_, ino, renamed) => TryDoneNames(s, w, h, ino, renamed);
    case Resurrect(_, renamed) =>
      if renamed {
        ResurrectRepaths(s, h);
        RepathNames(s, DoResurrect(s, h, true), h, hd.name.(st := Pend));
      } else {
        CloseNames(s, h);
      }
    case GroupDone(_, renamed) =>
      if renamed {
        GroupDoneRepaths(s, h);
        RepathNames(s, DoGroupDone(s, h, true), h, Path(Done, s.now, hd.name.job));
      } else {
        CloseNames(s, h);
      }
  }

  lemma CloseNames(s: State, h: Hid)
    requires h in s.handles
    ensures OwnNames(s, Close(s, h), h)
  {
  }

  lemma MoveToRunNames(s: State, h: Hid)
    requires CanMoveToRun(s, h)
    ensures OwnNames(s, DoMoveToRun(s, h, true), h)
  {
  }

  lemma TryDoneNames(s: State, w: Where, h: Hid, ino: Inode, renamed: bool)
    requires InvAt(s, w) && CanTryDone(s, h, ino)
    ensures OwnNames(s, DoTryDone(s, h, ino, renamed), h)
  {
    hide InvAt;
    InvHandle(s, w, h);
    InvParts(s, w);
    var hd := s.handles[h];
    assert hd.name.st.Run? && s.data[s.files[RunName(hd)]].job == hd.name.job;
    hide *;
    TryDoneStores(s, h, ino, renamed);
    var c := s.data[s.files[hd.name]];
    StoreNames(s, DoTryDone(s, h, ino, renamed), h, AfterTry(s.now, hd.name, c, hd.phase.how),
               c.(recs := c.recs + [Result(TryCount(c.recs))]), ino, renamed);
  }

  // The other steps bring up names in hold and pend only.
  lemma NoNewNames(s: State, w: Where, step: Step, q: Path)
    requires InvAt(s, w) && Enabled(s, step) && !(EnabledHold(s, step) && Renames(step))
    requires q in Apply(s, step).files && q !in s.files
    ensures q.st == Hold || q.st == Pend
  {
    hide InvAt;
    if EnabledOutside(s, step) {
      OutsideNames(s, step, q);
    } else if EnabledLook(s, step) {
      LookNames(s, step);
    } else {
      HoldNames(s, w, step);
    }
  }

  lemma OutsideNames(s: State, step: Step, q: Path)
    requires EnabledOutside(s, step) && q in ApplyOutside(s, step).files && q !in s.files
    ensures q.st == Hold || q.st == Pend
  {
  }

  lemma LookNames(s: State, step: Step)
    requires EnabledLook(s, step)
    ensures ApplyLook(s, step).files == s.files
  {
  }

  lemma HoldNames(s: State, w: Where, step: Step)
    requires InvAt(s, w) && EnabledHold(s, step) && !Renames(step)
    ensures ApplyHold(s, step).files == s.files
  {
    hide InvAt;
    if step.Write? || step.Launch? {
      InvHandle(s, w, step.h);
      hide HugOk, SubmitterOk;
      if step.Launch? { LaunchFindsLog(s, step.h, step.ino); }
    }
  }

  // Only a group check moves a job from tied to done.
  lemma TiedLeavesByGroupCheck(s: State, w: Where, step: Step, p: Path, q: Path)
    requires InvAt(s, w) && Enabled(s, step) && Faultless(step)
    requires p in s.files && p.st == Tied
    requires q in Apply(s, step).files && q.job == p.job && q !in s.files && q.st == Done
    ensures step.GroupDone? && CanGroupDone(s, step.h) && s.handles[step.h].name == p
  {
    hide InvAt, ApplyHold, OwnNames;
    if EnabledHold(s, step) && Renames(step) {
      RenamingNames(s, w, step);
      assert Apply(s, step) == ApplyHold(s, step);
      TiedHolder(s, w, step, p, q);
    } else {
      NoNewNames(s, w, step, q);
    }
  }

  lemma TiedHolder(s: State, w: Where, step: Step, p: Path, q: Path)
    requires InvAt(s, w) && EnabledHold(s, step) && Renames(step) && step.h in s.handles
    requires OwnNames(s, ApplyHold(s, step), step.h) && p in s.files && p.st == Tied
    requires q in ApplyHold(s, step).files && q.job == p.job && q !in s.files
    ensures step.GroupDone? && s.handles[step.h].name == p
  {
    var name := s.handles[step.h].name;
    assert name in s.files && name.job == p.job;
    hide *;
    InvHandle(s, w, step.h);
    InvParts(s, w);
    OnePath(s, w, p, name);
    TiedMeansGroup(s, step);
  }

  lemma TiedMeansGroup(s: State, step: Step)
    requires EnabledHold(s, step) && Renames(step) && HandleOk(s, s.handles[step.h])
    requires s.handles[step.h].name.st == Tied
    ensures step.GroupDone?
  {
  }

  // A tie to job 0, which stands for a child that could not be made, keeps its group tied for good.
  lemma UntiedGroupStaysTied(run: seq<State>, n: nat, step: Step, p: Path, q: Path)
    requires IsRun(run) && n < |run| && Enabled(run[n], step) && Faultless(step)
    requires p in run[n].files && p.st == Tied && run[n].files[p] in run[n].data
    requires 0 in run[n].data[run[n].files[p]].ties
    requires q in Apply(run[n], step).files && q.job == p.job
    ensures q.st != Done
  {
    if q.st == Done {
      GroupCompletionIsSound(run, n, step, p, q);
      RunKeeps(run, n);
    }
  }

  // ---- tries ----

  // Every job file's records read output 1, result 1, output 2, ..., and its try count is its number of tries.
  lemma TryRecords(run: seq<State>, n: nat, p: Path)
    requires IsRun(run) && n < |run| && p in run[n].files
    ensures run[n].files[p] in run[n].data
    ensures var recs := run[n].data[run[n].files[p]].recs;
            Grammar(recs) && TryCount(recs) == Outputs(recs)
  {
    hide IsRun, Inv, TryInv;
    RunKeeps(run, n);
    TryInvFile(run[n], p);
    TryCountCountsOutputs(run[n].data[run[n].files[p]].recs);
  }

  // A job is tried at most try_limit times, and once more for each resurrection.
  lemma RetryBound(run: seq<State>, n: nat, p: Path)
    requires IsRun(run) && n < |run| && p in run[n].files
    ensures run[n].files[p] in run[n].data
    ensures var c := run[n].data[run[n].files[p]];
            Outputs(c.recs) <= c.limit + Raised(run[n], p.job)
  {
    hide IsRun, Inv, TryInv;
    RunKeeps(run, n);
    TryRecords(run, n, p);
    TryInvFile(run[n], p);
  }

  // While try k + 1 of a job that was never resurrected runs, at least 30 k (k + 1) seconds have passed since
  // its first try was accounted for, which was after the child of that try had ended.
  lemma Backoff(run: seq<State>, n: nat, h: Hid)
    requires IsRun(run) && n < |run| && h in run[n].handles && run[n].handles[h].phase.Live?
    requires run[n].handles[h].phase.ino in run[n].data
    requires Raised(run[n], run[n].handles[h].name.job) == 0
    requires Outputs(run[n].data[run[n].handles[h].phase.ino].recs) >= 2
    ensures var s := run[n];
            var j := s.handles[h].name.job;
            var k := Outputs(s.data[s.handles[h].phase.ino].recs) - 1;
            && j in s.firstEnd && s.now - s.firstEnd[j] >= 30 * k * (k + 1)
            && j in s.firstExit && s.firstExit[j] <= s.firstEnd[j]
  {
    hide IsRun, TryInv, InvAt;
    RunKeeps(run, n);
    var s := run[n];
    var w :| InvAt(s, w);
    var hd := s.handles[h];
    InvParts(s, w);
    InvHandle(s, w, h);
    TryInvFile(s, hd.name);
    TryInvRest(s);
    NameFindsInode(s, w, hd);
    hide FilesOk, HistoryOk, LocksOk, HugOk, SubmitterOk;
    var recs := s.data[hd.phase.ino].recs;
    TryCountCountsOutputs(recs);
    ResultGrammar(recs);
    assert |recs| / 2 == Outputs(recs) - 1;
  }
}
