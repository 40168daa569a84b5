/**
 What the locks and renames of the protocol keep in every run: one file per job, at most one lock holder per
 file, and a holder that knows where its file is.
 */
module ProtocolLocks {
  import opened JobTypes
  import opened Protocol
  import QueueScan

  // Where each job's file is, on which inode, and which handle submitted it. The proofs carry this along;
  // the protocol itself does not have it.
  datatype Where = Where(home: map<JobId, Path>, inode: map<JobId, Inode>, owner: map<JobId, Hid>)

  // The name of a file tells its job.
  predicate PathOk(s: State, w: Where, p: Path)
    requires p in s.files
  {
    && s.files[p] in s.data && s.data[s.files[p]].job == p.job
    && p.job in w.home && w.home[p.job] == p && p.job in s.issued && p.job !in s.gone
  }

  // Directory and inode tables agree, and a job that was not purged or withdrawn has exactly one file.
  ghost predicate FilesOk(s: State, w: Where) {
    && (forall p | p in s.files :: PathOk(s, w, p))
    && (forall i | i in s.data ::
          s.data[i].job in s.issued && s.data[i].job in w.inode && w.inode[s.data[i].job] == i)
    && (forall j | j in w.home :: w.home[j].job == j)
    && (forall j | j in s.issued && j !in s.gone :: j in w.home && w.home[j] in s.files)
  }

  // done is a dead end, and every job that ever was there is remembered.
  ghost predicate HistoryOk(s: State) {
    && 0 !in s.issued && s.gone <= s.issued && s.finished <= s.issued && s.queued <= s.issued
    && (forall p | p in s.files :: p.st != Unk && p.st != Kill && (p.st == Done <==> p.job in s.finished))
  }

  // The lock table and the handles agree.
  ghost predicate LocksOk(s: State) {
    && (forall i | i in s.locks ::
          s.locks[i] in s.handles && Holds(s.handles[s.locks[i]].phase) && s.handles[s.locks[i]].phase.ino == i)
    && (forall h | h in s.handles && Holds(s.handles[h].phase) ::
          s.handles[h].phase.ino in s.locks && s.locks[s.handles[h].phase.ino] == h)
  }

  predicate Starting(ph: Phase) { ph.Fresh? || ph.Opened? || ph.Held? }

  predicate RoleOk(hd: Handle) {
    match hd.role
    case Runner => hd.name.st == if Starting(hd.phase) || hd.phase.Loaded? then Pend else Run
    case Raiser => hd.name.st == Run && Starting(hd.phase)
    case Hugger(_, _, _, _) => hd.name.st == Tied && Starting(hd.phase)
    case Submitter => hd.name.st == Hold && Starting(hd.phase)
  }

  // Past load, and all along for a submitter, the file is where the handle says.
  predicate Placed(hd: Handle) { hd.role.Submitter? || !Starting(hd.phase) }

  predicate EndsOpen(recs: seq<Rec>) { recs != [] && recs[|recs| - 1].Output? }

  // What a handle may rely on between its steps.
  predicate HandleOk(s: State, hd: Handle) {
    && RoleOk(hd)
    && hd.name.job in s.issued
    && (hd.role.Runner? ==> hd.name.time <= s.now)
    && (!hd.phase.Fresh? ==> hd.phase.ino in s.data && s.data[hd.phase.ino].job == hd.name.job)
    && (Placed(hd) ==> hd.name in s.files)
    && (hd.phase.Loaded? ==> hd.phase.mem.(ties := []) == s.data[hd.phase.ino].(ties := []))
    && (hd.phase.Moved? ==>
          hd.phase.mem.(ties := []) == s.data[hd.phase.ino].(ties := [], recs := Begin(s.data[hd.phase.ino].recs)))
    && (hd.phase.Ready? || hd.phase.Live? || hd.phase.Exited? ==> EndsOpen(s.data[hd.phase.ino].recs))
    && (hd.phase.Exited? ==> hd.phase.at <= s.now)
  }

  // A group check still sees the file it read: in tied with the same ties, or else done or gone.
  ghost predicate HugOk(s: State, w: Where, hd: Handle) {
    hd.role.Hugger? ==>
      && (hd.name.job in w.home && w.home[hd.name.job] in s.files ==>
            var p := w.home[hd.name.job];
            p.st == Done || (p == hd.name && s.files[p] in s.data && s.data[s.files[p]].ties == hd.role.ties))
      && hd.role.smap.Keys == (set c | c in hd.role.ties)
      && (forall c | c in hd.role.smap && hd.role.smap[c] == Done :: c in s.finished)
      && (!hd.phase.Fresh? ==> QueueScan.AllDone(hd.role.smap))
  }

  ghost predicate SubmitterOk(w: Where, h: Hid, hd: Handle) {
    hd.role.Submitter? ==> hd.name.job in w.owner && w.owner[hd.name.job] == h
  }

  ghost predicate HandlesOk(s: State, w: Where) {
    forall h | h in s.handles ::
      HandleOk(s, s.handles[h]) && HugOk(s, w, s.handles[h]) && SubmitterOk(w, h, s.handles[h])
  }

  ghost predicate InvAt(s: State, w: Where) {
    FilesOk(s, w) && HistoryOk(s) && LocksOk(s) && HandlesOk(s, w)
  }

  // ---- frames: what a change of the directory leaves alone ----

  // The inode of a held or opened handle is the one its name leads to, whenever the name leads anywhere.
  lemma NameFindsInode(s: State, w: Where, hd: Handle)
    requires FilesOk(s, w) && HandleOk(s, hd) && !hd.phase.Fresh? && hd.name in s.files
    ensures s.files[hd.name] == hd.phase.ino && w.home[hd.name.job] == hd.name
  {
  }

  // No handle but the lock holder h relies on the place or the content of h's file.
  lemma OthersElsewhere(s: State, w: Where, h: Hid, g: Hid)
    requires InvAt(s, w) && h in s.handles && g in s.handles && g != h
    requires Holds(s.handles[h].phase) && s.handles[h].name in s.files
    ensures Placed(s.handles[g]) ==> s.handles[g].name != s.handles[h].name
    ensures Holds(s.handles[g].phase) ==> s.handles[g].phase.ino != s.files[s.handles[h].name]
  {
    NameFindsInode(s, w, s.handles[h]);
  }

  // The directory and inode tables after a rename with a rewrite of the content.
  ghost predicate Shifted(s: State, s': State, from: Path, to: Path, c: Content) {
    && from in s.files
    && s'.files == (s.files - {from})[to := s.files[from]]
    && s'.data == s.data[s.files[from] := c]
    && s'.finished == (if to.st.Done? then s.finished + {to.job} else s.finished)
    && s'.issued == s.issued && s'.gone == s.gone && s'.now == s.now && s'.queued <= s.issued
    && to.job == from.job && c.job == from.job && Edge(from.st, to.st)
  }

  function Rehomed(w: Where, to: Path): Where { w.(home := w.home[to.job := to]) }

  lemma ShiftFiles(s: State, s': State, w: Where, from: Path, to: Path, c: Content)
    requires FilesOk(s, w) && Shifted(s, s', from, to, c)
    ensures FilesOk(s', Rehomed(w, to))
  {
  }

  lemma ShiftHistory(s: State, s': State, w: Where, from: Path, to: Path, c: Content)
    requires FilesOk(s, w) && HistoryOk(s) && Shifted(s, s', from, to, c)
    ensures HistoryOk(s')
  {
  }

  lemma ShiftHandle(s: State, s': State, w: Where, from: Path, to: Path, c: Content, hd: Handle)
    requires FilesOk(s, w) && Shifted(s, s', from, to, c) && HandleOk(s, hd)
    requires Placed(hd) ==> hd.name != from
    requires Holds(hd.phase) ==> hd.phase.ino != s.files[from]
    ensures HandleOk(s', hd)
  {
  }

  lemma ShiftHug(s: State, s': State, w: Where, from: Path, to: Path, c: Content, hd: Handle)
    requires FilesOk(s, w) && Shifted(s, s', from, to, c)
    requires HugOk(s, w, hd) && hd.name.job in s.issued && RoleOk(hd)
    ensures HugOk(s', Rehomed(w, to), hd)
  {
    if hd.role.Hugger? && hd.name.job != to.job && hd.name.job in w.home && w.home[hd.name.job] in s.files {
      assert s.files[w.home[hd.name.job]] != s.files[from];
    }
  }

  // ---- the parts of the invariant ----

  lemma InvHandle(s: State, w: Where, h: Hid)
    requires InvAt(s, w) && h in s.handles
    ensures HandleOk(s, s.handles[h]) && HugOk(s, w, s.handles[h]) && SubmitterOk(w, h, s.handles[h])
  {
    hide FilesOk, HistoryOk, LocksOk, HandleOk, HugOk, SubmitterOk;
  }

  lemma InvParts(s: State, w: Where)
    requires InvAt(s, w)
    ensures FilesOk(s, w) && HistoryOk(s) && LocksOk(s)
  {
    hide FilesOk, HistoryOk, LocksOk, HandlesOk;
  }

  lemma InvMade(s: State, w: Where)
    requires FilesOk(s, w) && HistoryOk(s) && LocksOk(s)
    requires forall g | g in s.handles ::
               HandleOk(s, s.handles[g]) && HugOk(s, w, s.handles[g]) && SubmitterOk(w, g, s.handles[g])
    ensures InvAt(s, w)
  {
    hide FilesOk, HistoryOk, LocksOk, HandleOk, HugOk, SubmitterOk;
  }

  // ---- the kinds of step ----

  // What the other handles rely on survives a rename by the lock holder h.
  lemma RenameSparesOthers(s: State, s': State, w: Where, h: Hid, to: Path, c: Content, g: Hid)
    requires InvAt(s, w) && h in s.handles && Holds(s.handles[h].phase)
    requires Shifted(s, s', s.handles[h].name, to, c) && g in s.handles && g != h
    ensures HandleOk(s', s.handles[g]) && HugOk(s', Rehomed(w, to), s.handles[g])
    ensures SubmitterOk(Rehomed(w, to), g, s.handles[g])
  {
    hide InvAt;
    InvParts(s, w);
    InvHandle(s, w, g);
    assert HandleOk(s, s.handles[g]);
    assert s.handles[h].name in s.files;
    OthersElsewhere(s, w, h, g);
    hide InvAt, FilesOk, HugOk, HistoryOk, LocksOk, Shifted;
    ShiftHandle(s, s', w, s.handles[h].name, to, c, s.handles[g]);
    ShiftHug(s, s', w, s.handles[h].name, to, c, s.handles[g]);
  }

  // A lock holder renames its file along an edge and lets go of it.
  lemma MoveAwayKeeps(s: State, s': State, w: Where, h: Hid, to: Path, c: Content)
    requires InvAt(s, w) && h in s.handles && Holds(s.handles[h].phase)
    requires Shifted(s, s', s.handles[h].name, to, c)
    requires s'.handles == s.handles - {h} && s'.locks == Close(s, h).locks
    ensures InvAt(s', Rehomed(w, to))
  {
    hide *;
    InvParts(s, w);
    ShiftFiles(s, s', w, s.handles[h].name, to, c);
    ShiftHistory(s, s', w, s.handles[h].name, to, c);
    CloseLocks(s, s', h);
    forall g | g in s'.handles
      ensures HandleOk(s', s'.handles[g]) && HugOk(s', Rehomed(w, to), s'.handles[g])
      ensures SubmitterOk(Rehomed(w, to), g, s'.handles[g])
    {
      RenameSparesOthers(s, s', w, h, to, c, g);
    }
    InvMade(s', Rehomed(w, to));
  }

  lemma CloseLocks(s: State, s': State, h: Hid)
    requires LocksOk(s) && s'.handles == s.handles - {h} && s'.locks == Close(s, h).locks
    ensures LocksOk(s')
  {
  }

  // A holder that stays a holder disturbs no lock.
  lemma HolderGoesOn(s: State, s': State, h: Hid)
    requires LocksOk(s) && h in s.handles && Holds(s.handles[h].phase) && h in s'.handles
    requires s'.locks == s.locks && s'.handles == s.handles[h := s'.handles[h]]
    requires Holds(s'.handles[h].phase) && s'.handles[h].phase.ino == s.handles[h].phase.ino
    ensures LocksOk(s')
  {
  }

  // A lock holder renames its file to run and carries on under the lock.
  lemma MoveOnKeeps(s: State, s': State, w: Where, h: Hid, to: Path, c: Content)
    requires InvAt(s, w) && h in s.handles && Holds(s.handles[h].phase)
    requires Shifted(s, s', s.handles[h].name, to, c)
    requires h in s'.handles && s'.handles == s.handles[h := s'.handles[h]] && s'.locks == s.locks
    requires HandleOk(s', s'.handles[h]) && s'.handles[h].role.Runner?
    requires Holds(s'.handles[h].phase) && s'.handles[h].phase.ino == s.handles[h].phase.ino
    ensures InvAt(s', Rehomed(w, to))
  {
    hide *;
    InvParts(s, w);
    RunnersAreNothingElse(s', Rehomed(w, to), h);
    ShiftFiles(s, s', w, s.handles[h].name, to, c);
    ShiftHistory(s, s', w, s.handles[h].name, to, c);
    HolderGoesOn(s, s', h);
    forall g | g in s'.handles
      ensures HandleOk(s', s'.handles[g]) && HugOk(s', Rehomed(w, to), s'.handles[g])
      ensures SubmitterOk(Rehomed(w, to), g, s'.handles[g])
    {
      if g != h { RenameSparesOthers(s, s', w, h, to, c, g); }
    }
    InvMade(s', Rehomed(w, to));
  }

  lemma RunnersAreNothingElse(s: State, w: Where, h: Hid)
    requires h in s.handles && (s.handles[h].role.Runner? || s.handles[h].role.Raiser?)
    ensures HugOk(s, w, s.handles[h]) && SubmitterOk(w, h, s.handles[h])
  {
  }

  // Directory and inodes as they were.
  ghost predicate Quiet(s: State, s': State) {
    && s'.files == s.files && s'.data == s.data && s'.issued == s.issued && s'.queued == s.queued
    && s'.gone == s.gone && s'.finished == s.finished && s.now <= s'.now
  }

  lemma QuietFiles(s: State, s': State, w: Where)
    requires FilesOk(s, w) && HistoryOk(s) && Quiet(s, s')
    ensures FilesOk(s', w) && HistoryOk(s')
  {
  }

  lemma QuietHandle(s: State, s': State, w: Where, hd: Handle)
    requires HandleOk(s, hd) && HugOk(s, w, hd) && Quiet(s, s')
    ensures HandleOk(s', hd) && HugOk(s', w, hd)
  {
  }

  // Handles and their locks go away together, or nothing but the clock moves.
  lemma ClosingKeeps(s: State, s': State, w: Where)
    requires InvAt(s, w) && Quiet(s, s') && LocksOk(s')
    requires forall h | h in s'.handles :: h in s.handles && s'.handles[h] == s.handles[h]
    ensures InvAt(s', w)
  {
    hide *;
    InvParts(s, w);
    QuietFiles(s, s', w);
    forall g | g in s'.handles
      ensures HandleOk(s', s'.handles[g]) && HugOk(s', w, s'.handles[g]) && SubmitterOk(w, g, s'.handles[g])
    {
      InvHandle(s, w, g);
      QuietHandle(s, s', w, s.handles[g]);
    }
    InvMade(s', w);
  }

  // One handle is made or takes a step of its own.
  lemma HandleKeeps(s: State, s': State, w: Where, h: Hid)
    requires InvAt(s, w) && Quiet(s, s') && LocksOk(s') && h in s'.handles
    requires s'.handles == s.handles[h := s'.handles[h]]
    requires HandleOk(s', s'.handles[h]) && HugOk(s', w, s'.handles[h]) && SubmitterOk(w, h, s'.handles[h])
    ensures InvAt(s', w)
  {
    hide *;
    InvParts(s, w);
    QuietFiles(s, s', w);
    forall g | g in s'.handles
      ensures HandleOk(s', s'.handles[g]) && HugOk(s', w, s'.handles[g]) && SubmitterOk(w, g, s'.handles[g])
    {
      if g != h {
        InvHandle(s, w, g);
        QuietHandle(s, s', w, s.handles[g]);
      }
    }
    InvMade(s', w);
  }

  // A lock holder of the kind that runs or raises jobs goes on.
  lemma HolderKeeps(s: State, s': State, w: Where, h: Hid)
    requires InvAt(s, w) && Quiet(s, s') && h in s.handles && h in s'.handles && Holds(s.handles[h].phase)
    requires s'.locks == s.locks && s'.handles == s.handles[h := s'.handles[h]]
    requires Holds(s'.handles[h].phase) && s'.handles[h].phase.ino == s.handles[h].phase.ino
    requires HandleOk(s', s'.handles[h]) && s'.handles[h].role.Runner?
    ensures InvAt(s', w)
  {
    RunnersAreNothingElse(s', w, h);
    hide *;
    InvParts(s, w);
    HolderGoesOn(s, s', h);
    HandleKeeps(s, s', w, h);
  }

  // A file is unlinked: a done one, or one its own submitter takes back.
  ghost predicate Unlinked(s: State, s': State, p: Path) {
    && p in s.files && s'.files == s.files - {p} && s'.data == s.data && s'.gone == s.gone + {p.job}
    && s'.issued == s.issued && s'.queued == s.queued && s'.finished == s.finished && s'.now == s.now
  }

  lemma UnlinkFiles(s: State, s': State, w: Where, p: Path)
    requires FilesOk(s, w) && HistoryOk(s) && Unlinked(s, s', p)
    ensures FilesOk(s', w) && HistoryOk(s')
  {
  }

  lemma UnlinkHandle(s: State, s': State, w: Where, p: Path, hd: Handle)
    requires FilesOk(s, w) && HandleOk(s, hd) && HugOk(s, w, hd) && Unlinked(s, s', p)
    requires Placed(hd) ==> hd.name != p
    ensures HandleOk(s', hd) && HugOk(s', w, hd)
  {
  }

  lemma UnlinkKeeps(s: State, s': State, w: Where, p: Path)
    requires InvAt(s, w) && Unlinked(s, s', p) && LocksOk(s')
    requires forall h | h in s'.handles :: h in s.handles && s'.handles[h] == s.handles[h]
    requires forall h | h in s'.handles && Placed(s'.handles[h]) :: s'.handles[h].name != p
    ensures InvAt(s', w)
  {
    hide *;
    InvParts(s, w);
    UnlinkFiles(s, s', w, p);
    forall g | g in s'.handles
      ensures HandleOk(s', s'.handles[g]) && HugOk(s', w, s'.handles[g]) && SubmitterOk(w, g, s'.handles[g])
    {
      InvHandle(s, w, g);
      UnlinkHandle(s, s', w, p, s.handles[g]);
    }
    InvMade(s', w);
  }

  // ---- repath() and store() away from run ----

  // repath() by a handle that holds the lock.
  ghost predicate Repathed(s: State, s': State, h: Hid, to: Path) {
    && h in s.handles && Holds(s.handles[h].phase)
    && Edge(s.handles[h].name.st, to.st) && to.job == s.handles[h].name.job
    && s'.(queued := {}, raised := map[]) == Repath(s, h, to).(queued := {}, raised := map[])
    && (s'.queued == s.queued || (s.handles[h].name in s.files && s'.queued == s.queued + {to.job}))
    && (s'.raised == s.raised ||
        (s.handles[h].name in s.files && s'.raised == s.raised[to.job := Raised(s, to.job) + 1]))
  }

  lemma RepathShifts(s: State, s': State, w: Where, h: Hid, to: Path)
    requires FilesOk(s, w) && HistoryOk(s) && Repathed(s, s', h, to) && s.handles[h].name in s.files
    ensures s.files[s.handles[h].name] in s.data
    ensures Shifted(s, s', s.handles[h].name, to, s.data[s.files[s.handles[h].name]])
    ensures s'.handles == s.handles - {h} && s'.locks == Close(s, h).locks
  {
  }

  lemma RepathOnlyCloses(s: State, s': State, h: Hid, to: Path)
    requires Repathed(s, s', h, to) && s.handles[h].name !in s.files
    ensures s' == Close(s, h)
  {
  }

  lemma RepathKeeps(s: State, s': State, w: Where, h: Hid, to: Path)
    requires InvAt(s, w) && Repathed(s, s', h, to)
    ensures exists w' :: InvAt(s', w')
  {
    assert h in s.handles && Holds(s.handles[h].phase);
    hide *;
    InvParts(s, w);
    if s.handles[h].name in s.files {
      RepathShifts(s, s', w, h, to);
      MoveAwayKeeps(s, s', w, h, to, s.data[s.files[s.handles[h].name]]);
    } else {
      RepathOnlyCloses(s, s', h, to);
      CloseKeeps(s, w, h);
    }
  }

  lemma CloseKeeps(s: State, w: Where, h: Hid)
    requires InvAt(s, w)
    ensures InvAt(Close(s, h), w)
  {
    hide InvAt;
    InvParts(s, w);
    CloseLocks(s, Close(s, h), h);
    hide InvAt, FilesOk, HistoryOk, LocksOk;
    ClosingKeeps(s, Close(s, h), w);
  }

  // A lock holder whose rename is refused writes its file under the old name and lets go of it.
  ghost predicate Stayed(s: State, s': State, h: Hid, c: Content) {
    && h in s.handles && s.handles[h].name in s.files && c.job == s.handles[h].name.job
    && s'.files == s.files && s'.data == s.data[s.files[s.handles[h].name] := c]
    && s'.handles == s.handles - {h} && s'.locks == Close(s, h).locks
    && s'.issued == s.issued && s'.queued == s.queued && s'.gone == s.gone && s'.finished == s.finished
    && s'.now == s.now
  }

  lemma StayedFiles(s: State, s': State, w: Where, h: Hid, c: Content)
    requires FilesOk(s, w) && HistoryOk(s) && Stayed(s, s', h, c)
    ensures FilesOk(s', w) && HistoryOk(s')
  {
  }

  lemma StayedHandle(s: State, s': State, w: Where, h: Hid, c: Content, hd: Handle)
    requires FilesOk(s, w) && Stayed(s, s', h, c) && !s.handles[h].name.st.Tied?
    requires HandleOk(s, hd) && HugOk(s, w, hd)
    requires Holds(hd.phase) ==> hd.phase.ino != s.files[s.handles[h].name]
    ensures HandleOk(s', hd) && HugOk(s', w, hd)
  {
  }

  lemma StayKeeps(s: State, s': State, w: Where, h: Hid, c: Content)
    requires InvAt(s, w) && Stayed(s, s', h, c) && Holds(s.handles[h].phase) && !s.handles[h].name.st.Tied?
    ensures InvAt(s', w)
  {
    hide InvAt, FilesOk, HistoryOk, LocksOk, HandleOk, HugOk, SubmitterOk;
    InvParts(s, w);
    StayedFiles(s, s', w, h, c);
    CloseLocks(s, s', h);
    forall g | g in s'.handles
      ensures HandleOk(s', s'.handles[g]) && HugOk(s', w, s'.handles[g]) && SubmitterOk(w, g, s'.handles[g])
    {
      InvHandle(s, w, g);
      OthersElsewhere(s, w, h, g);
      StayedHandle(s, s', w, h, c, s.handles[g]);
    }
    InvMade(s', w);
  }

  // store() by a handle that knows where its file is.
  ghost predicate Stored(s: State, s': State, h: Hid, to: Path, c: Content, ino: Inode, renamed: bool) {
    && h in s.handles && Holds(s.handles[h].phase) && s.handles[h].name in s.files && !s.handles[h].name.st.Tied?
    && Edge(s.handles[h].name.st, to.st) && to.job == s.handles[h].name.job == c.job
    && s'.(firstExit := map[], firstEnd := map[]) ==
       Store(s, h, to, c, ino, renamed).(firstExit := map[], firstEnd := map[])
  }

  lemma StoreShifts(s: State, s': State, h: Hid, to: Path, c: Content, ino: Inode)
    requires Stored(s, s', h, to, c, ino, true) && HistoryOk(s)
    ensures Shifted(s, s', s.handles[h].name, to, c)
    ensures s'.handles == s.handles - {h} && s'.locks == Close(s, h).locks
  {
  }

  lemma StoreStays(s: State, s': State, h: Hid, to: Path, c: Content, ino: Inode)
    requires Stored(s, s', h, to, c, ino, false)
    ensures Stayed(s, s', h, c)
  {
  }

  lemma StoreKeeps(s: State, s': State, w: Where, h: Hid, to: Path, c: Content, ino: Inode, renamed: bool)
    requires InvAt(s, w) && Stored(s, s', h, to, c, ino, renamed)
    ensures exists w' :: InvAt(s', w')
  {
    assert h in s.handles && Holds(s.handles[h].phase) && !s.handles[h].name.st.Tied?;
    hide *;
    InvParts(s, w);
    if renamed {
      StoreShifts(s, s', h, to, c, ino);
      MoveAwayKeeps(s, s', w, h, to, c);
    } else {
      StoreStays(s, s', h, to, c, ino);
      StayKeeps(s, s', w, h, c);
    }
  }

  // A handle without a lock comes or changes.
  lemma UnlockedHandleKeeps(s: State, s': State, w: Where, h: Hid)
    requires InvAt(s, w) && Quiet(s, s') && s'.locks == s.locks && h in s'.handles
    requires s'.handles == s.handles[h := s'.handles[h]]
    requires !Holds(s'.handles[h].phase) && (h in s.handles ==> !Holds(s.handles[h].phase))
    requires HandleOk(s', s'.handles[h]) && HugOk(s', w, s'.handles[h]) && SubmitterOk(w, h, s'.handles[h])
    ensures InvAt(s', w)
  {
    hide *;
    InvParts(s, w);
    UnlockedHandle(s, s', h);
    HandleKeeps(s, s', w, h);
  }

  lemma UnlockedHandle(s: State, s': State, h: Hid)
    requires LocksOk(s) && s'.locks == s.locks && h in s'.handles && s'.handles == s.handles[h := s'.handles[h]]
    requires !Holds(s'.handles[h].phase) && (h in s.handles ==> !Holds(s.handles[h].phase))
    ensures LocksOk(s')
  {
  }

  // ---- submission ----

  // A new file of a new job.
  ghost predicate Grown(s: State, s': State, p: Path, ino: Inode, c: Content) {
    && p.job !in s.issued && ino !in s.data && c.job == p.job && p.job != 0
    && p.st == Hold
    && s'.files == s.files[p := ino] && s'.data == s.data[ino := c] && s'.issued == s.issued + {p.job}
    && s'.gone == s.gone && s'.queued == s.queued && s'.finished == s.finished && s'.now == s.now
  }

  lemma GrownFiles(s: State, s': State, w: Where, w': Where, p: Path, ino: Inode, c: Content)
    requires FilesOk(s, w) && HistoryOk(s) && Grown(s, s', p, ino, c)
    requires w'.home == w.home[p.job := p] && w'.inode == w.inode[p.job := ino]
    ensures FilesOk(s', w')
  {
    assert p.job !in s.gone;
    hide HistoryOk, PathOk;
    forall q | q in s'.files
      ensures PathOk(s', w', q)
    {
      assert q != p ==> PathOk(s, w, q);
      GrownPath(s, s', w, w', p, ino, c, q);
    }
  }

  lemma GrownPath(s: State, s': State, w: Where, w': Where, p: Path, ino: Inode, c: Content, q: Path)
    requires Grown(s, s', p, ino, c) && p.job !in s.gone && w'.home == w.home[p.job := p]
    requires q == p || (q in s.files && PathOk(s, w, q))
    ensures PathOk(s', w', q)
  {
  }

  lemma GrownHistory(s: State, s': State, w: Where, p: Path, ino: Inode, c: Content)
    requires FilesOk(s, w) && HistoryOk(s) && Grown(s, s', p, ino, c)
    ensures HistoryOk(s')
  {
  }

  lemma GrownHandle(s: State, s': State, w: Where, p: Path, ino: Inode, c: Content, hd: Handle)
    requires FilesOk(s, w) && Grown(s, s', p, ino, c) && HandleOk(s, hd)
    ensures HandleOk(s', hd)
  {
  }

  lemma GrownHug(s: State, s': State, w: Where, w': Where, p: Path, ino: Inode, c: Content, hd: Handle)
    requires FilesOk(s, w) && Grown(s, s', p, ino, c) && HugOk(s, w, hd) && hd.name.job in s.issued
    requires w'.home == w.home[p.job := p]
    ensures HugOk(s', w', hd)
  {
  }

  lemma SubmitGrows(s: State, w: Where, h: Hid, m: Mgr, job: JobId, ino: Inode, time: int, limit: nat, nties: nat)
    requires CanSubmit(s, h, job, ino, limit)
    ensures var s' := DoSubmit(s, h, m, job, ino, time, limit, nties);
            var p := Path(Hold, time, job);
            && Grown(s, s', p, ino, Content(job, [], seq(nties, i => 0), limit))
            && s'.handles == s.handles[h := Handle(m, Submitter, p, Fresh)] && s'.locks == s.locks
            && HandleOk(s', s'.handles[h]) && forall w' :: HugOk(s', w', s'.handles[h])
  {
  }

  lemma SubmitKeeps(s: State, w: Where, h: Hid, m: Mgr, job: JobId, ino: Inode, time: int, limit: nat, nties: nat)
    requires InvAt(s, w) && CanSubmit(s, h, job, ino, limit)
    ensures InvAt(DoSubmit(s, h, m, job, ino, time, limit, nties),
                  Where(w.home[job := Path(Hold, time, job)], w.inode[job := ino], w.owner[job := h]))
  {
    var s' := DoSubmit(s, h, m, job, ino, time, limit, nties);
    var p := Path(Hold, time, job);
    var w' := Where(w.home[job := p], w.inode[job := ino], w.owner[job := h]);
    var c := Content(job, [], seq(nties, i => 0), limit);
    assert job !in s.issued && h !in s.handles;
    SubmitGrows(s, w, h, m, job, ino, time, limit, nties);
    hide InvAt, FilesOk, HistoryOk, LocksOk, HandleOk, HugOk, Grown, DoSubmit, CanSubmit;
    InvParts(s, w);
    GrownFiles(s, s', w, w', p, ino, c);
    GrownHistory(s, s', w, p, ino, c);
    UnlockedHandle(s, s', h);
    forall g | g in s'.handles
      ensures HandleOk(s', s'.handles[g]) && HugOk(s', w', s'.handles[g]) && SubmitterOk(w', g, s'.handles[g])
    {
      if g != h { SubmitSpares(s, s', w, w', p, ino, c, g, h); }
    }
    InvMade(s', w');
  }

  lemma SubmitSpares(s: State, s': State, w: Where, w': Where, p: Path, ino: Inode, c: Content, g: Hid, h: Hid)
    requires InvAt(s, w) && Grown(s, s', p, ino, c) && g in s.handles
    requires w'.home == w.home[p.job := p] && w'.owner == w.owner[p.job := h]
    ensures HandleOk(s', s.handles[g]) && HugOk(s', w', s.handles[g]) && SubmitterOk(w', g, s.handles[g])
  {
    hide InvAt;
    InvParts(s, w);
    InvHandle(s, w, g);
    assert p.job !in s.issued && s.handles[g].name.job in s.issued;
    hide InvAt, FilesOk, HandleOk, HugOk, Grown;
    GrownHandle(s, s', w, p, ino, c, s.handles[g]);
    GrownHug(s, s', w, w', p, ino, c, s.handles[g]);
  }

  lemma EnqueueRepaths(s: State, h: Hid)
    requires CanEnqueue(s, h) && HandleOk(s, s.handles[h])
    ensures Repathed(s, DoEnqueue(s, h), h, s.handles[h].name.(st := Pend))
  {
  }

  lemma EnqueueKeeps(s: State, w: Where, h: Hid)
    requires InvAt(s, w) && CanEnqueue(s, h)
    ensures exists w' :: InvAt(DoEnqueue(s, h), w')
  {
    assert h in s.handles;
    hide *;
    InvHandle(s, w, h);
    EnqueueRepaths(s, h);
    RepathKeeps(s, DoEnqueue(s, h), w, h, s.handles[h].name.(st := Pend));
  }

  lemma WithdrawUnlinks(s: State, h: Hid)
    requires CanWithdraw(s, h) && HandleOk(s, s.handles[h])
    ensures var s' := DoWithdraw(s, h);
            && Unlinked(s, s', s.handles[h].name)
            && s'.handles == s.handles - {h} && s'.locks == Close(s, h).locks
  {
  }

  // No other handle relies on the place of a submitter's file.
  lemma WithdrawAlone(s: State, w: Where, h: Hid, g: Hid)
    requires InvAt(s, w) && CanWithdraw(s, h) && g in s.handles && g != h
    ensures Placed(s.handles[g]) ==> s.handles[g].name != s.handles[h].name
  {
    hide InvAt;
    InvHandle(s, w, g);
    InvHandle(s, w, h);
  }

  lemma WithdrawKeeps(s: State, w: Where, h: Hid)
    requires InvAt(s, w) && CanWithdraw(s, h)
    ensures InvAt(DoWithdraw(s, h), w)
  {
    hide InvAt;
    InvHandle(s, w, h);
    InvParts(s, w);
    assert h in s.handles;
    hide *;
    WithdrawUnlinks(s, h);
    CloseLocks(s, DoWithdraw(s, h), h);
    forall g | g in DoWithdraw(s, h).handles
      ensures Placed(s.handles[g]) ==> s.handles[g].name != s.handles[h].name
    {
      WithdrawAlone(s, w, h, g);
    }
    UnlinkKeeps(s, DoWithdraw(s, h), w, s.handles[h].name);
  }

  // ---- names and locks ----

  lemma ConstructHandle(s: State, w: Where, h: Hid, m: Mgr, role: Role, p: Path)
    requires h !in s.handles && HandleOk(s, Handle(m, role, p, Fresh)) && HugOk(s, w, Handle(m, role, p, Fresh))
    requires !role.Submitter?
    ensures var s' := DoConstruct(s, h, m, role, p);
            && Quiet(s, s') && s'.locks == s.locks && h in s'.handles && s'.handles == s.handles[h := s'.handles[h]]
            && !Holds(s'.handles[h].phase)
            && HandleOk(s', s'.handles[h]) && HugOk(s', w, s'.handles[h]) && SubmitterOk(w, h, s'.handles[h])
  {
  }

  lemma ConstructKeeps(s: State, w: Where, h: Hid, m: Mgr, role: Role, p: Path)
    requires InvAt(s, w) && h !in s.handles && !role.Submitter?
    requires HandleOk(s, Handle(m, role, p, Fresh)) && HugOk(s, w, Handle(m, role, p, Fresh))
    ensures InvAt(DoConstruct(s, h, m, role, p), w)
  {
    hide *;
    ConstructHandle(s, w, h, m, role, p);
    UnlockedHandleKeeps(s, DoConstruct(s, h, m, role, p), w, h);
  }

  lemma GrabKeeps(s: State, w: Where, h: Hid, m: Mgr, p: Path)
    requires InvAt(s, w) && CanGrab(s, h, p)
    ensures InvAt(DoConstruct(s, h, m, Runner, p), w)
  {
    hide InvAt;
    ConstructKeeps(s, w, h, m, Runner, p);
  }

  lemma FindDeadKeeps(s: State, w: Where, h: Hid, m: Mgr, p: Path)
    requires InvAt(s, w) && CanFindDead(s, h, p)
    ensures InvAt(DoConstruct(s, h, m, Raiser, p), w)
  {
    hide InvAt;
    ConstructKeeps(s, w, h, m, Raiser, p);
  }

  // A group check starts with the ties of the file it sees.
  lemma HugStarts(s: State, w: Where, h: Hid, m: Mgr, p: Path)
    requires FilesOk(s, w) && CanHug(s, h, p)
    ensures HandleOk(s, Handle(m, HugRole(s, p), p, Fresh)) && HugOk(s, w, Handle(m, HugRole(s, p), p, Fresh))
  {
  }

  lemma HugKeeps(s: State, w: Where, h: Hid, m: Mgr, p: Path)
    requires InvAt(s, w) && CanHug(s, h, p)
    ensures InvAt(DoConstruct(s, h, m, HugRole(s, p), p), w)
  {
    hide InvAt;
    InvParts(s, w);
    HugStarts(s, w, h, m, p);
    assert h !in s.handles && HugRole(s, p).Hugger?;
    hide *;
    ConstructKeeps(s, w, h, m, HugRole(s, p), p);
  }

  // A handle without a lock changes its role's notes or its phase.
  lemma ChangeKeeps(s: State, w: Where, h: Hid, hd: Handle)
    requires InvAt(s, w) && h in s.handles && !Holds(s.handles[h].phase) && !Holds(hd.phase)
    requires HandleOk(s, hd) && HugOk(s, w, hd) && SubmitterOk(w, h, hd)
    ensures InvAt(s.(handles := s.handles[h := hd]), w)
  {
    var s' := s.(handles := s.handles[h := hd]);
    assert Quiet(s, s');
    hide InvAt, Quiet, FilesOk, HistoryOk, LocksOk, HandleOk, HugOk, SubmitterOk;
    assert HandleOk(s', hd) && HugOk(s', w, hd) by { QuietHandle(s, s', w, hd); }
    UnlockedHandleKeeps(s, s', w, h);
  }

  lemma SeeKeeps(s: State, w: Where, h: Hid, p: Path)
    requires InvAt(s, w) && CanSee(s, h, p)
    ensures InvAt(DoSee(s, h, p), w)
  {
    hide InvAt;
    InvHandle(s, w, h);
    InvParts(s, w);
    SeeHug(s, w, h, p);
    var r := s.handles[h].role;
    var note := QueueScan.Note(QueueScan.Notes(r.smap, r.got), p.job, p.st);
    var hd := s.handles[h].(role := r.(smap := note.smap, got := note.got));
    assert DoSee(s, h, p) == s.(handles := s.handles[h := hd]);
    hide *;
    ChangeKeeps(s, w, h, DoSee(s, h, p).handles[h]);
  }

  // A child seen in done has reached done.
  lemma SeeHug(s: State, w: Where, h: Hid, p: Path)
    requires HistoryOk(s) && CanSee(s, h, p) && HandleOk(s, s.handles[h]) && HugOk(s, w, s.handles[h])
    ensures var hd := DoSee(s, h, p).handles[h];
            && !Holds(s.handles[h].phase) && !Holds(hd.phase)
            && HandleOk(s, hd) && HugOk(s, w, hd) && SubmitterOk(w, h, hd)
  {
  }

  lemma NextDirHug(s: State, w: Where, h: Hid)
    requires Scanning(s, h) && HandleOk(s, s.handles[h]) && HugOk(s, w, s.handles[h])
    ensures var hd := DoNextDir(s, h).handles[h];
            && DoNextDir(s, h) == s.(handles := s.handles[h := hd])
            && !Holds(s.handles[h].phase) && !Holds(hd.phase)
            && HandleOk(s, hd) && HugOk(s, w, hd) && SubmitterOk(w, h, hd)
  {
  }

  lemma NextDirKeeps(s: State, w: Where, h: Hid)
    requires InvAt(s, w) && Scanning(s, h)
    ensures InvAt(DoNextDir(s, h), w)
  {
    hide InvAt;
    assert h in s.handles;
    InvHandle(s, w, h);
    NextDirHug(s, w, h);
    hide *;
    ChangeKeeps(s, w, h, DoNextDir(s, h).handles[h]);
  }

  lemma OpenHug(s: State, w: Where, h: Hid)
    requires FilesOk(s, w) && CanOpen(s, h)
    requires HandleOk(s, s.handles[h]) && HugOk(s, w, s.handles[h]) && SubmitterOk(w, h, s.handles[h])
    ensures var hd := DoOpen(s, h).handles[h];
            && DoOpen(s, h) == s.(handles := s.handles[h := hd])
            && !Holds(s.handles[h].phase) && !Holds(hd.phase)
            && HandleOk(s, hd) && HugOk(s, w, hd) && SubmitterOk(w, h, hd)
  {
  }

  lemma OpenKeeps(s: State, w: Where, h: Hid)
    requires InvAt(s, w) && CanOpen(s, h)
    ensures InvAt(DoOpen(s, h), w)
  {
    hide InvAt;
    assert h in s.handles;
    InvHandle(s, w, h);
    InvParts(s, w);
    OpenHug(s, w, h);
    hide *;
    ChangeKeeps(s, w, h, DoOpen(s, h).handles[h]);
  }

  lemma FlockLocks(s: State, w: Where, h: Hid)
    requires LocksOk(s) && CanFlock(s, h)
    requires HandleOk(s, s.handles[h]) && HugOk(s, w, s.handles[h]) && SubmitterOk(w, h, s.handles[h])
    ensures var s' := DoFlock(s, h);
            && LocksOk(s') && Quiet(s, s') && h in s'.handles && s'.handles == s.handles[h := s'.handles[h]]
            && HandleOk(s', s'.handles[h]) && HugOk(s', w, s'.handles[h]) && SubmitterOk(w, h, s'.handles[h])
  {
  }

  lemma FlockKeeps(s: State, w: Where, h: Hid)
    requires InvAt(s, w) && CanFlock(s, h)
    ensures InvAt(DoFlock(s, h), w)
  {
    hide InvAt;
    assert h in s.handles;
    InvHandle(s, w, h);
    InvParts(s, w);
    hide *;
    FlockLocks(s, w, h);
    HandleKeeps(s, DoFlock(s, h), w, h);
  }

  lemma CrashLocks(s: State, m: Mgr)
    requires LocksOk(s)
    ensures LocksOk(DoCrash(s, m)) && Quiet(s, DoCrash(s, m))
    ensures forall h | h in DoCrash(s, m).handles :: h in s.handles && DoCrash(s, m).handles[h] == s.handles[h]
  {
  }

  lemma CrashKeeps(s: State, w: Where, m: Mgr)
    requires InvAt(s, w)
    ensures InvAt(DoCrash(s, m), w)
  {
    hide *;
    InvParts(s, w);
    CrashLocks(s, m);
    ClosingKeeps(s, DoCrash(s, m), w);
  }

  // ---- what a lock holder does ----

  // A runner that holds the lock goes on to another phase.
  lemma PhaseKeeps(s: State, w: Where, h: Hid, ph: Phase)
    requires InvAt(s, w) && h in s.handles && s.handles[h].role.Runner? && Holds(s.handles[h].phase)
    requires Holds(ph) && ph.ino == s.handles[h].phase.ino && HandleOk(s, s.handles[h].(phase := ph))
    ensures InvAt(SetPhase(s, h, ph), w)
  {
    var s' := SetPhase(s, h, ph);
    assert Quiet(s, s');
    assert s'.locks == s.locks && s'.handles == s.handles[h := s.handles[h].(phase := ph)];
    hide InvAt, Quiet, HandleOk, SetPhase, FilesOk, HistoryOk, LocksOk, HugOk;
    assert HandleOk(s', s'.handles[h]) by { SameHandle(s, s', s'.handles[h]); }
    HolderKeeps(s, s', w, h);
  }

  lemma SameHandle(s: State, s': State, hd: Handle)
    requires HandleOk(s, hd) && Quiet(s, s')
    ensures HandleOk(s', hd)
  {
  }

  lemma LoadHandle(s: State, w: Where, h: Hid)
    requires FilesOk(s, w) && CanLoad(s, h) && HandleOk(s, s.handles[h])
    ensures var ph := Loaded(s.handles[h].phase.ino, s.data[s.files[s.handles[h].name]]);
            DoLoad(s, h) == SetPhase(s, h, ph) && HandleOk(s, s.handles[h].(phase := ph))
  {
    NameFindsInode(s, w, s.handles[h]);
  }

  lemma LoadKeeps(s: State, w: Where, h: Hid)
    requires InvAt(s, w) && CanLoad(s, h)
    ensures InvAt(DoLoad(s, h), w)
  {
    hide InvAt;
    InvHandle(s, w, h);
    InvParts(s, w);
    LoadHandle(s, w, h);
    hide FilesOk, HandleOk, DoLoad;
    PhaseKeeps(s, w, h, Loaded(s.handles[h].phase.ino, s.data[s.files[s.handles[h].name]]));
  }

  lemma TieChildKeeps(s: State, w: Where, h: Hid, n: nat, child: JobId)
    requires InvAt(s, w) && CanTieChild(s, h, n, child)
    ensures InvAt(DoTieChild(s, h, n, child), w)
  {
    hide InvAt;
    InvHandle(s, w, h);
    var ph := s.handles[h].phase;
    assert s.handles[h].role.Runner?;
    PhaseKeeps(s, w, h, Loaded(ph.ino, ph.mem.(ties := ph.mem.ties[n := child])));
  }

  lemma SplitStores(s: State, h: Hid, ino: Inode, renamed: bool)
    requires IsGroup(s, h) && HandleOk(s, s.handles[h])
    ensures Stored(s, DoSplit(s, h, ino, renamed), h, s.handles[h].name.(st := Tied), s.handles[h].phase.mem, ino,
                   renamed)
  {
  }

  lemma SplitKeeps(s: State, w: Where, h: Hid, ino: Inode, renamed: bool)
    requires InvAt(s, w) && IsGroup(s, h)
    ensures exists w' :: InvAt(DoSplit(s, h, ino, renamed), w')
  {
    hide InvAt;
    InvHandle(s, w, h);
    var hd := s.handles[h];
    hide *;
    SplitStores(s, h, ino, renamed);
    StoreKeeps(s, DoSplit(s, h, ino, renamed), w, h, hd.name.(st := Tied), hd.phase.mem, ino, renamed);
  }

  lemma MoveToRunShifts(s: State, w: Where, h: Hid)
    requires FilesOk(s, w) && HistoryOk(s) && CanMoveToRun(s, h) && HandleOk(s, s.handles[h])
    ensures var s' := DoMoveToRun(s, h, true);
            var hd := s.handles[h];
            && hd.name in s.files && s.files[hd.name] in s.data && Holds(hd.phase)
            && Shifted(s, s', hd.name, RunName(hd), s.data[s.files[hd.name]])
            && h in s'.handles && s'.handles == s.handles[h := s'.handles[h]] && s'.locks == s.locks
            && HandleOk(s', s'.handles[h]) && s'.handles[h].role.Runner?
            && Holds(s'.handles[h].phase) && s'.handles[h].phase.ino == hd.phase.ino
  {
    NameFindsInode(s, w, s.handles[h]);
  }

  lemma MoveToRunKeeps(s: State, w: Where, h: Hid)
    requires InvAt(s, w) && CanMoveToRun(s, h)
    ensures InvAt(DoMoveToRun(s, h, true), Rehomed(w, RunName(s.handles[h])))
  {
    hide InvAt;
    assert h in s.handles;
    InvHandle(s, w, h);
    InvParts(s, w);
    hide *;
    var hd := s.handles[h];
    MoveToRunShifts(s, w, h);
    MoveOnKeeps(s, DoMoveToRun(s, h, true), w, h, RunName(hd), s.data[s.files[hd.name]]);
  }

  // The rewrite of a file already renamed to run.
  ghost predicate Rewritten(s: State, s': State, h: Hid) {
    && h in s.handles && s.handles[h].phase.Moved?
    && s' == s.(handles := s.handles[h := s.handles[h].(phase := Ready(s.handles[h].phase.ino))],
                data := s.data[s.handles[h].phase.ino := s.handles[h].phase.mem])
  }

  lemma RewriteFiles(s: State, s': State, w: Where, h: Hid)
    requires FilesOk(s, w) && HistoryOk(s) && Rewritten(s, s', h) && HandleOk(s, s.handles[h])
    ensures FilesOk(s', w) && HistoryOk(s')
  {
  }

  lemma RewriteHandle(s: State, s': State, h: Hid)
    requires Rewritten(s, s', h) && HandleOk(s, s.handles[h])
    ensures HandleOk(s', s'.handles[h]) && s'.handles[h].role.Runner?
  {
  }

  lemma RewriteSpares(s: State, s': State, w: Where, h: Hid, hd: Handle)
    requires FilesOk(s, w) && Rewritten(s, s', h) && HandleOk(s, s.handles[h])
    requires HandleOk(s, hd) && HugOk(s, w, hd) && (Holds(hd.phase) ==> hd.phase.ino != s.handles[h].phase.ino)
    ensures HandleOk(s', hd) && HugOk(s', w, hd)
  {
    assert s.handles[h].name.st.Run? && w.home[s.handles[h].name.job] == s.handles[h].name;
    assert hd.role.Hugger? && hd.name.job in w.home && w.home[hd.name.job] in s.files && !w.home[hd.name.job].st.Done?
      ==> s.files[w.home[hd.name.job]] != s.handles[h].phase.ino;
  }

  lemma OtherHolder(s: State, h: Hid, g: Hid)
    requires LocksOk(s) && h in s.handles && g in s.handles && h != g
    requires Holds(s.handles[h].phase) && Holds(s.handles[g].phase)
    ensures s.handles[h].phase.ino != s.handles[g].phase.ino
  {
  }

  lemma WriteRewrites(s: State, w: Where, h: Hid, ino: Inode)
    requires FilesOk(s, w) && CanWrite(s, h, ino) && HandleOk(s, s.handles[h])
    ensures var s' := DoWrite(s, h, ino);
            && Rewritten(s, s', h) && s'.locks == s.locks && h in s'.handles
            && s'.handles == s.handles[h := s'.handles[h]] && Holds(s.handles[h].phase)
            && Holds(s'.handles[h].phase) && s'.handles[h].phase.ino == s.handles[h].phase.ino
  {
    NameFindsInode(s, w, s.handles[h]);
  }

  lemma WriteKeeps(s: State, w: Where, h: Hid, ino: Inode)
    requires InvAt(s, w) && CanWrite(s, h, ino)
    ensures InvAt(DoWrite(s, h, ino), w)
  {
    hide InvAt;
    InvHandle(s, w, h);
    InvParts(s, w);
    var s' := DoWrite(s, h, ino);
    hide *;
    WriteRewrites(s, w, h, ino);
    RewriteFiles(s, s', w, h);
    RewriteHandle(s, s', h);
    HolderGoesOn(s, s', h);
    RunnersAreNothingElse(s', w, h);
    forall g | g in s'.handles
      ensures HandleOk(s', s'.handles[g]) && HugOk(s', w, s'.handles[g]) && SubmitterOk(w, g, s'.handles[g])
    {
      if g != h {
        InvHandle(s, w, g);
        if Holds(s.handles[g].phase) { OtherHolder(s, h, g); }
        RewriteSpares(s, s', w, h, s.handles[g]);
      }
    }
    InvMade(s', w);
  }

  // A launch finds the file its child appends to.
  lemma LaunchFindsLog(s: State, h: Hid, ino: Inode)
    requires CanLaunch(s, h, ino) && HandleOk(s, s.handles[h])
    ensures var ph := Live(s.handles[h].phase.ino);
            DoLaunch(s, h, ino) == SetPhase(s, h, ph) && HandleOk(s, s.handles[h].(phase := ph)) &&
            s.handles[h].role.Runner? && Holds(s.handles[h].phase)
  {
    assert RunName(s.handles[h]) == s.handles[h].name;
  }

  lemma LaunchKeeps(s: State, w: Where, h: Hid, ino: Inode)
    requires InvAt(s, w) && CanLaunch(s, h, ino)
    ensures InvAt(DoLaunch(s, h, ino), w)
  {
    hide InvAt;
    InvHandle(s, w, h);
    LaunchFindsLog(s, h, ino);
    hide HandleOk, DoLaunch;
    PhaseKeeps(s, w, h, Live(s.handles[h].phase.ino));
  }

  lemma AbandonRepaths(s: State, h: Hid)
    requires CanAbandon(s, h) && HandleOk(s, s.handles[h])
    ensures Repathed(s, DoAbandon(s, h, true), h, s.handles[h].name.(st := Done))
  {
  }

  lemma AbandonKeeps(s: State, w: Where, h: Hid, renamed: bool)
    requires InvAt(s, w) && CanAbandon(s, h)
    ensures exists w' :: InvAt(DoAbandon(s, h, renamed), w')
  {
    hide InvAt;
    InvHandle(s, w, h);
    if renamed {
      hide *;
      AbandonRepaths(s, h);
      RepathKeeps(s, DoAbandon(s, h, true), w, h, s.handles[h].name.(st := Done));
    } else {
      assert DoAbandon(s, h, renamed) == Close(s, h);
      hide *;
      CloseKeeps(s, w, h);
    }
  }

  lemma ExitKeeps(s: State, w: Where, h: Hid, how: Ending)
    requires InvAt(s, w) && CanExit(s, h)
    ensures InvAt(DoExit(s, h, how), w)
  {
    hide InvAt;
    InvHandle(s, w, h);
    assert s.handles[h].role.Runner?;
    PhaseKeeps(s, w, h, Exited(s.handles[h].phase.ino, how, s.now));
  }

  // try_done loads the file under the name its handle already has, and stores it.
  lemma TryDoneStores(s: State, h: Hid, ino: Inode, renamed: bool)
    requires CanTryDone(s, h, ino) && s.handles[h].name.st.Run? && s.files[RunName(s.handles[h])] in s.data
    requires s.data[s.files[RunName(s.handles[h])]].job == s.handles[h].name.job
    ensures var hd := s.handles[h];
            && hd.name in s.files && s.files[hd.name] in s.data
            && var c := s.data[s.files[hd.name]];
            Stored(s, DoTryDone(s, h, ino, renamed), h, AfterTry(s.now, hd.name, c, hd.phase.how),
                   c.(recs := c.recs + [Result(TryCount(c.recs))]), ino, renamed)
  {
    var hd := s.handles[h];
    assert RunName(hd) == hd.name;
    assert s.handles[h := hd.(name := RunName(hd))] == s.handles;
    assert Accounted(s, hd.name.job, hd.phase.at).(firstExit := map[], firstEnd := map[]) ==
           s.(firstExit := map[], firstEnd := map[]);
    hide Retry, Tie, TryCount;
  }

  lemma TryDoneKeeps(s: State, w: Where, h: Hid, ino: Inode, renamed: bool)
    requires InvAt(s, w) && CanTryDone(s, h, ino)
    ensures exists w' :: InvAt(DoTryDone(s, h, ino, renamed), w')
  {
    var hd := s.handles[h];
    InvHandle(s, w, h);
    InvParts(s, w);
    assert hd.name.st.Run? && s.data[s.files[RunName(hd)]].job == hd.name.job;
    hide *;
    TryDoneStores(s, h, ino, renamed);
    var c := s.data[s.files[hd.name]];
    StoreKeeps(s, DoTryDone(s, h, ino, renamed), w, h, AfterTry(s.now, hd.name, c, hd.phase.how),
               c.(recs := c.recs + [Result(TryCount(c.recs))]), ino, renamed);
  }

  lemma ResurrectRepaths(s: State, h: Hid)
    requires CanResurrect(s, h) && HandleOk(s, s.handles[h])
    ensures Repathed(s, DoResurrect(s, h, true), h, s.handles[h].name.(st := Pend))
  {
  }

  lemma ResurrectKeeps(s: State, w: Where, h: Hid, renamed: bool)
    requires InvAt(s, w) && CanResurrect(s, h)
    ensures exists w' :: InvAt(DoResurrect(s, h, renamed), w')
  {
    hide InvAt;
    InvHandle(s, w, h);
    if renamed {
      hide *;
      ResurrectRepaths(s, h);
      RepathKeeps(s, DoResurrect(s, h, true), w, h, s.handles[h].name.(st := Pend));
    } else {
      assert DoResurrect(s, h, renamed) == Close(s, h);
      hide *;
      CloseKeeps(s, w, h);
    }
  }

  lemma GroupDoneRepaths(s: State, h: Hid)
    requires CanGroupDone(s, h) && HandleOk(s, s.handles[h])
    ensures Repathed(s, DoGroupDone(s, h, true), h, Path(Done, s.now, s.handles[h].name.job))
  {
  }

  lemma GroupDoneKeeps(s: State, w: Where, h: Hid, renamed: bool)
    requires InvAt(s, w) && CanGroupDone(s, h)
    ensures exists w' :: InvAt(DoGroupDone(s, h, renamed), w')
  {
    hide InvAt;
    InvHandle(s, w, h);
    if renamed {
      hide *;
      GroupDoneRepaths(s, h);
      RepathKeeps(s, DoGroupDone(s, h, true), w, h, Path(Done, s.now, s.handles[h].name.job));
    } else {
      assert DoGroupDone(s, h, renamed) == Close(s, h);
      hide *;
      CloseKeeps(s, w, h);
    }
  }

  lemma PurgeKeeps(s: State, w: Where, p: Path)
    requires InvAt(s, w) && CanPurge(s, p)
    ensures InvAt(DoPurge(s, p), w)
  {
    hide InvAt;
    InvParts(s, w);
    var s' := DoPurge(s, p);
    assert Unlinked(s, s', p) && s'.handles == s.handles && s'.locks == s.locks;
    assert LocksOk(s');
    hide FilesOk, LocksOk, HistoryOk, Unlinked, HugOk, SubmitterOk, DoPurge;
    forall h | h in s.handles && Placed(s.handles[h])
      ensures s.handles[h].name != p
    {
      InvHandle(s, w, h);
    }
    hide *;
    UnlinkKeeps(s, s', w, p);
  }

  ghost predicate Inv(s: State) { exists w :: InvAt(s, w) }

  lemma TickKeeps(s: State, w: Where, d: nat)
    requires InvAt(s, w)
    ensures InvAt(s.(now := s.now + d), w)
  {
    ClosingKeeps(s, s.(now := s.now + d), w);
  }

  lemma SubmissionKeeps(s: State, step: Step)
    requires Inv(s) && EnabledOutside(s, step) && (step.Submit? || step.Enqueue? || step.Withdraw?)
    ensures Inv(ApplyOutside(s, step))
  {
    hide InvAt;
    var w :| InvAt(s, w);
    match step
    case Submit(h, m, job, ino, time, limit, nties) => SubmitKeeps(s, w, h, m, job, ino, time, limit, nties);
    case Enqueue(h) => EnqueueKeeps(s, w, h);
    case Withdraw(h) => WithdrawKeeps(s, w, h);
  }

  lemma OutsideKeeps(s: State, step: Step)
    requires Inv(s) && EnabledOutside(s, step)
    ensures Inv(ApplyOutside(s, step))
  {
    hide InvAt;
    if step.Submit? || step.Enqueue? || step.Withdraw? {
      SubmissionKeeps(s, step);
    } else {
      var w :| InvAt(s, w);
      match step
      case Tick(d) => TickKeeps(s, w, d);
      case Purge(p) => PurgeKeeps(s, w, p);
      case Crash(m) => CrashKeeps(s, w, m);
    }
  }

  lemma LookKeeps(s: State, step: Step)
    requires Inv(s) && EnabledLook(s, step)
    ensures Inv(ApplyLook(s, step))
  {
    hide InvAt;
    var w :| InvAt(s, w);
    match step
    case Grab(h, m, p) => GrabKeeps(s, w, h, m, p);
    case FindDead(h, m, p) => FindDeadKeeps(s, w, h, m, p);
    case Hug(h, m, p) => HugKeeps(s, w, h, m, p);
    case See(h, p) => SeeKeeps(s, w, h, p);
    case NextDir(h) => NextDirKeeps(s, w, h);
    case Open(h) => OpenKeeps(s, w, h);
    case Flock(h) => FlockKeeps(s, w, h);
    case Drop(h) => CloseKeeps(s, w, h);
  }

  lemma HoldKeeps(s: State, step: Step)
    requires Inv(s) && EnabledHold(s, step) && Faultless(step)
    ensures Inv(ApplyHold(s, step))
  {
    hide InvAt;
    var w :| InvAt(s, w);
    match step
    case Load(h) => LoadKeeps(s, w, h);
    case TieChild(h, n, child) => TieChildKeeps(s, w, h, n, child);
    case Split(h, ino, renamed) => SplitKeeps(s, w, h, ino, renamed);
    case MoveToRun(h, _) => MoveToRunKeeps(s, w, h);
    case Write(h, ino) => WriteKeeps(s, w, h, ino);
    case Launch(h, ino) => LaunchKeeps(s, w, h, ino);
    case Abandon(h, renamed) => AbandonKeeps(s, w, h, renamed);
    case Exit(h, how) => ExitKeeps(s, w, h, how);
    case TryDone(h, ino, renamed) => TryDoneKeeps(s, w, h, ino, renamed);
    case Resurrect(h, renamed) => ResurrectKeeps(s, w, h, renamed);
    case GroupDone(h, renamed) => GroupDoneKeeps(s, w, h, renamed);
  }

  // Every step keeps the invariant, whoever takes it.
  lemma StepKeeps(s: State, step: Step)
    requires Inv(s) && Enabled(s, step) && Faultless(step)
    ensures Inv(Apply(s, step))
  {
    if EnabledOutside(s, step) {
      OutsideKeeps(s, step);
    } else if EnabledLook(s, step) {
      LookKeeps(s, step);
    } else {
      HoldKeeps(s, step);
    }
  }
}
