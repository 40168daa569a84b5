/**
 The job-file protocol: any number of managers and submitters contend for job files with open, flock and
 rename alone. A run is a sequence of atomic steps of any of them, in any order, with crashes between any
 two steps.
 */
module Protocol {
  import opened JobTypes
  import QueueScan

  type Inode = nat
  type Mgr = nat
  type Hid = nat

  // What a job file's name says: directory, run time and job id. Queue, priority and submitter never
  // change over a job's life, so they are left out of the name here.
  datatype Path = Path(st: JobState, time: int, job: JobId)

  // The sections after section 0: one per try, one per recorded result.
  datatype Rec = Output(n: nat) | Result(n: nat)

  datatype Content = Content(job: JobId, recs: seq<Rec>, ties: seq<JobId>, limit: nat)

  // How a try ended: asked to be tried again, asked to be tied, or anything else.
  datatype Ending = Again | InProgress | Finished

  datatype Role =
    | Runner                                      // run_a_job, then try_done
    | Raiser                                      // bring_out_yer_dead
    | Hugger(ties: seq<JobId>, smap: QueueScan.StateMap, got: nat, dir: nat)  // group_hug
    | Submitter                                   // mkjob, or one child of a group split

  datatype Phase =
    | Fresh                                       // lockfd < 0
    | Opened(ino: Inode)                          // between open and flock
    | Held(ino: Inode)                            // flock granted
    | Loaded(ino: Inode, mem: Content)            // pending file read under the lock
    | Moved(ino: Inode, mem: Content)             // renamed to run, not rewritten yet
    | Ready(ino: Inode)                           // rewritten, child not launched yet
    | Live(ino: Inode)                            // child alive
    | Exited(ino: Inode, how: Ending, at: int)    // child dead since then, try_done not done yet

  // A job::file object: who owns it, its oldnam and its lock descriptor.
  datatype Handle = Handle(mgr: Mgr, role: Role, name: Path, phase: Phase)

  datatype State = State(
    now: int,
    files: map<Path, Inode>,
    data: map<Inode, Content>,
    locks: map<Inode, Hid>,
    handles: map<Hid, Handle>,
    // history
    issued: set<JobId>,                           // ids given to a job file so far
    queued: set<JobId>,                           // jobs whose submission completed
    gone: set<JobId>,                             // jobs purged, or withdrawn by their submitter
    finished: set<JobId>,                         // jobs that ever were in done
    raised: map<JobId, nat>,                      // resurrections of each job
    firstExit: map<JobId, int>,                   // when the child of the first try of each job ended
    firstEnd: map<JobId, int>)                    // when that was accounted for

  const INIT := State(0, map[], map[], map[], map[], {}, {}, {}, {}, map[], map[], map[])

  // Done job files are purged after thirty days.
  const AGE_CLEAN := 30 * 86400

  predicate Holds(ph: Phase) { !ph.Fresh? && !ph.Opened? }

  function Raised(s: State, j: JobId): nat { if j in s.raised then s.raised[j] else 0 }

  // The try count a load derives: the Try-Count of the last section, if it has one.
  function TryCount(recs: seq<Rec>): nat { if recs == [] then 0 else recs[|recs| - 1].n }

  // The sections written when a try starts. A try without a result belonged to a manager that died.
  function Begin(recs: seq<Rec>): seq<Rec> {
    var closed := if recs != [] && recs[|recs| - 1].Output? then recs + [Result(TryCount(recs))] else recs;
    closed + [Output(TryCount(recs) + 1)]
  }

  function Retry(c: Content, how: Ending): bool { how.Again? && TryCount(c.recs) < c.limit }

  function Tie(c: Content, how: Ending): bool { how.InProgress? && TryCount(c.recs) < c.limit }

  // Where try_done moves the file.
  function AfterTry(now: int, from: Path, c: Content, how: Ending): Path {
    if Retry(c, how) then Path(Pend, now + 60 * TryCount(c.recs), from.job)
    else if Tie(c, how) then from.(st := Tied)
    else Path(Done, now, from.job)
  }

  // The lock descriptors of a handle close when the handle goes away.
  function Close(s: State, h: Hid): State {
    s.(handles := s.handles - {h},
       locks := map i | i in s.locks && s.locks[i] != h :: s.locks[i])
  }

  // rename(2) of the handle's file, and the new content written to it.
  function Rename(s: State, from: Path, to: Path, c: Content): State
    requires from in s.files
  {
    s.(files := (s.files - {from})[to := s.files[from]],
       data := s.data[s.files[from] := c],
       finished := if to.st.Done? then s.finished + {to.job} else s.finished)
  }

  // repath() to a state other than run, when rename(2) works on a file that is there: rename, then unlock. The
  // handle ends either way.
  function Repath(s: State, h: Hid, to: Path): State
    requires h in s.handles
  {
    var from := s.handles[h].name;
    Close(if from in s.files && s.files[from] in s.data
          then Rename(s, from, to, s.data[s.files[from]]) else s, h)
  }

  // store() to a state other than run. repath()'s error is ignored: if the rename is refused, the content is written
  // under the old name; without a file to rename, a new file appears there.
  function Store(s: State, h: Hid, to: Path, c: Content, ino: Inode, renamed: bool): State
    requires h in s.handles
  {
    var from := s.handles[h].name;
    Close(if from !in s.files then s.(files := s.files[from := ino], data := s.data[ino := c])
          else if renamed then Rename(s, from, to, c)
          else s.(data := s.data[s.files[from] := c]), h)
  }

  function SetPhase(s: State, h: Hid, ph: Phase): State
    requires h in s.handles
  {
    s.(handles := s.handles[h := s.handles[h].(phase := ph)])
  }

  // The name a handle derives once its state is run; the child's output goes there.
  function RunName(hd: Handle): Path { hd.name.(st := Run) }

  // ---- submitting (mkjob, and the children of a group) ----

  predicate CanSubmit(s: State, h: Hid, job: JobId, ino: Inode, limit: nat) {
    h !in s.handles && job != 0 && job !in s.issued && ino !in s.data && limit >= 1
  }

  // The new file appears in hold, whole, tied to no job yet.
  function DoSubmit(s: State, h: Hid, m: Mgr, job: JobId, ino: Inode, time: int, limit: nat, nties: nat): State {
    var p := Path(Hold, time, job);
    s.(files := s.files[p := ino],
       data := s.data[ino := Content(job, [], seq(nties, i => 0), limit)],
       handles := s.handles[h := Handle(m, Submitter, p, Fresh)],
       issued := s.issued + {job})
  }

  predicate CanEnqueue(s: State, h: Hid) {
    h in s.handles && s.handles[h].role.Submitter? && s.handles[h].phase.Held?
  }

  function DoEnqueue(s: State, h: Hid): State
    requires CanEnqueue(s, h)
  {
    Repath(s, h, s.handles[h].name.(st := Pend)).(queued := s.queued + {s.handles[h].name.job})
  }

  predicate CanWithdraw(s: State, h: Hid) { h in s.handles && s.handles[h].role.Submitter? }

  // A submitter whose rename into pend is refused removes its file.
  function DoWithdraw(s: State, h: Hid): State
    requires CanWithdraw(s, h)
  {
    Close(s.(files := s.files - {s.handles[h].name}, gone := s.gone + {s.handles[h].name.job}), h)
  }

  // ---- names taken from a directory listing ----

  // A listed name may be stale by the time it is used; only its run time was checked.
  predicate CanGrab(s: State, h: Hid, p: Path) {
    h !in s.handles && p.st.Pend? && p.time <= s.now && p.job in s.issued
  }

  predicate CanFindDead(s: State, h: Hid, p: Path) { h !in s.handles && p.st.Run? && p.job in s.issued }

  function DoConstruct(s: State, h: Hid, m: Mgr, role: Role, p: Path): State {
    s.(handles := s.handles[h := Handle(m, role, p, Fresh)])
  }

  // A group check loads the tied file to learn its ties.
  predicate CanHug(s: State, h: Hid, p: Path) {
    h !in s.handles && p.st.Tied? && p in s.files && s.files[p] in s.data
  }

  function HugRole(s: State, p: Path): Role
    requires p in s.files && s.files[p] in s.data
  {
    var ties := s.data[s.files[p]].ties;
    var smap := QueueScan.Unknown(set c | c in ties);
    Hugger(ties, smap, 0, if |smap| == 0 then |QueueScan.DIRS| else 0)
  }

  predicate Scanning(s: State, h: Hid) {
    && h in s.handles && s.handles[h].role.Hugger? && s.handles[h].phase.Fresh?
    && s.handles[h].role.dir < |QueueScan.DIRS|
  }

  // The scan of one directory returns some name that is in it.
  predicate CanSee(s: State, h: Hid, p: Path) {
    Scanning(s, h) && p in s.files && p.st == QueueScan.DIRS[s.handles[h].role.dir]
  }

  function DoSee(s: State, h: Hid, p: Path): State
    requires CanSee(s, h, p)
  {
    var r := s.handles[h].role;
    var note := QueueScan.Note(QueueScan.Notes(r.smap, r.got), p.job, p.st);
    s.(handles := s.handles[h := s.handles[h].(role := r.(smap := note.smap, got := note.got))])
  }

  // The next directory, or none once as many jobs were seen as were asked for.
  function DoNextDir(s: State, h: Hid): State
    requires Scanning(s, h)
  {
    var r := s.handles[h].role;
    var dir := if r.got < |r.smap| then r.dir + 1 else |QueueScan.DIRS|;
    s.(handles := s.handles[h := s.handles[h].(role := r.(dir := dir))])
  }

  // ---- lock() and unlock() ----

  // A group check goes on to the lock only if every child was seen in done.
  predicate CanOpen(s: State, h: Hid) {
    && h in s.handles && s.handles[h].phase.Fresh? && s.handles[h].name in s.files
    && (s.handles[h].role.Hugger? ==>
          s.handles[h].role.dir >= |QueueScan.DIRS| && QueueScan.AllDone(s.handles[h].role.smap))
  }

  function DoOpen(s: State, h: Hid): State
    requires CanOpen(s, h)
  {
    SetPhase(s, h, Opened(s.files[s.handles[h].name]))
  }

  predicate CanFlock(s: State, h: Hid) {
    h in s.handles && s.handles[h].phase.Opened? && s.handles[h].phase.ino !in s.locks
  }

  function DoFlock(s: State, h: Hid): State
    requires CanFlock(s, h)
  {
    var i := s.handles[h].phase.ino;
    SetPhase(s.(locks := s.locks[i := h]), h, Held(i))
  }

  // Every error path that deletes the job::file object: name gone, lock taken, rename refused, load failed.
  predicate CanDrop(s: State, h: Hid) { h in s.handles && !s.handles[h].phase.Live? }

  // ---- run_a_job ----

  predicate CanLoad(s: State, h: Hid) {
    && h in s.handles && s.handles[h].role.Runner? && s.handles[h].phase.Held?
    && s.handles[h].name in s.files && s.files[s.handles[h].name] in s.data
  }

  function DoLoad(s: State, h: Hid): State
    requires CanLoad(s, h)
  {
    SetPhase(s, h, Loaded(s.handles[h].phase.ino, s.data[s.files[s.handles[h].name]]))
  }

  predicate IsGroup(s: State, h: Hid) {
    h in s.handles && s.handles[h].phase.Loaded? && |s.handles[h].phase.mem.ties| >= 2
  }

  // One tie of a group gets the id of a child that was queued.
  predicate CanTieChild(s: State, h: Hid, n: nat, child: JobId) {
    IsGroup(s, h) && n < |s.handles[h].phase.mem.ties| && child in s.queued
  }

  function DoTieChild(s: State, h: Hid, n: nat, child: JobId): State
    requires CanTieChild(s, h, n, child)
  {
    var ph := s.handles[h].phase;
    SetPhase(s, h, Loaded(ph.ino, ph.mem.(ties := ph.mem.ties[n := child])))
  }

  // If the rename is refused, the group stays in pend with its new ties.
  function DoSplit(s: State, h: Hid, ino: Inode, renamed: bool): State
    requires IsGroup(s, h)
  {
    Store(s, h, s.handles[h].name.(st := Tied), s.handles[h].phase.mem, ino, renamed)
  }

  predicate CanMoveToRun(s: State, h: Hid) {
    && h in s.handles && s.handles[h].phase.Loaded? && |s.handles[h].phase.mem.ties| < 2
    && (s.handles[h].name in s.files ==> s.files[s.handles[h].name] in s.data)
  }

  // The first half of store() to run. The lock stays; renamed says whether rename(2) worked, and the rest of
  // store() does not look at it.
  function DoMoveToRun(s: State, h: Hid, renamed: bool): State
    requires CanMoveToRun(s, h)
  {
    var hd := s.handles[h];
    var ph := Moved(hd.phase.ino, hd.phase.mem.(recs := Begin(hd.phase.mem.recs)));
    if renamed && hd.name in s.files then
      Rename(s, hd.name, RunName(hd), s.data[s.files[hd.name]]).(
        handles := s.handles[h := hd.(name := RunName(hd), phase := ph)])
    else SetPhase(s, h, ph)
  }

  predicate CanWrite(s: State, h: Hid, ino: Inode) { h in s.handles && s.handles[h].phase.Moved? && ino !in s.data }

  // The second half of store() to run: the content goes to oldnam, and makes a file there if there is none.
  function DoWrite(s: State, h: Hid, ino: Inode): State
    requires CanWrite(s, h, ino)
  {
    var hd := s.handles[h];
    var s' := SetPhase(s, h, Ready(hd.phase.ino));
    if hd.name in s.files then s'.(data := s.data[s.files[hd.name] := hd.phase.mem])
    else s'.(files := s.files[hd.name := ino], data := s.data[ino := hd.phase.mem])
  }

  predicate CanLaunch(s: State, h: Hid, ino: Inode) { h in s.handles && s.handles[h].phase.Ready? && ino !in s.data }

  // The child opens its log, name() in run, for append, and makes a file there if there is none.
  function DoLaunch(s: State, h: Hid, ino: Inode): State
    requires CanLaunch(s, h, ino)
  {
    var hd := s.handles[h];
    var s' := SetPhase(s, h, Live(hd.phase.ino));
    if RunName(hd) in s.files then s'
    else s'.(files := s.files[RunName(hd) := ino], data := s.data[ino := Content(hd.name.job, [], [], 0)])
  }

  predicate CanAbandon(s: State, h: Hid) {
    && h in s.handles && s.handles[h].role.Runner? && Holds(s.handles[h].phase)
    && !s.handles[h].phase.Live? && !s.handles[h].phase.Exited?
  }

  // A job that cannot be loaded, written or launched is moved to done.
  function DoAbandon(s: State, h: Hid, renamed: bool): State
    requires CanAbandon(s, h)
  {
    if renamed then Repath(s, h, s.handles[h].name.(st := Done)) else Close(s, h)
  }

  // ---- the end of a try ----

  predicate CanExit(s: State, h: Hid) { h in s.handles && s.handles[h].phase.Live? }

  function DoExit(s: State, h: Hid, how: Ending): State
    requires CanExit(s, h)
  {
    SetPhase(s, h, Exited(s.handles[h].phase.ino, how, s.now))
  }

  predicate CanTryDone(s: State, h: Hid, ino: Inode) {
    && h in s.handles && s.handles[h].phase.Exited? && ino !in s.data
    && RunName(s.handles[h]) in s.files && s.files[RunName(s.handles[h])] in s.data
  }

  // If the rename is refused, the result is written all the same, and the file stays in run without a lock.
  function DoTryDone(s: State, h: Hid, ino: Inode, renamed: bool): State
    requires CanTryDone(s, h, ino)
  {
    var hd := s.handles[h];
    var from := RunName(hd);
    var c := s.data[s.files[from]];
    var s1 := Accounted(s.(handles := s.handles[h := hd.(name := from)]), from.job, hd.phase.at);
    Store(s1, h, AfterTry(s.now, from, c, hd.phase.how), c.(recs := c.recs + [Result(TryCount(c.recs))]), ino, renamed)
  }

  // The first end of a try of each job is remembered.
  function Accounted(s: State, j: JobId, at: int): State {
    if j in s.firstEnd then s else s.(firstExit := s.firstExit[j := at], firstEnd := s.firstEnd[j := s.now])
  }

  // ---- resurrection, group completion, purge, crash ----

  predicate CanResurrect(s: State, h: Hid) {
    && h in s.handles && s.handles[h].role.Raiser? && s.handles[h].phase.Held? && s.handles[h].name in s.files
  }

  function DoResurrect(s: State, h: Hid, renamed: bool): State
    requires CanResurrect(s, h)
  {
    var p := s.handles[h].name;
    if renamed then Repath(s, h, p.(st := Pend)).(raised := s.raised[p.job := Raised(s, p.job) + 1])
    else Close(s, h)
  }

  predicate CanGroupDone(s: State, h: Hid) {
    && h in s.handles && s.handles[h].role.Hugger? && s.handles[h].phase.Held? && s.handles[h].name in s.files
  }

  function DoGroupDone(s: State, h: Hid, renamed: bool): State
    requires CanGroupDone(s, h)
  {
    if renamed then Repath(s, h, Path(Done, s.now, s.handles[h].name.job)) else Close(s, h)
  }

  predicate CanPurge(s: State, p: Path) { p in s.files && p.st.Done? && p.time + AGE_CLEAN < s.now }

  function DoPurge(s: State, p: Path): State { s.(files := s.files - {p}, gone := s.gone + {p.job}) }

  // A manager dies: its descriptors close, which drops its locks, and its children are killed with it.
  function DoCrash(s: State, m: Mgr): State {
    s.(handles := map h | h in s.handles && s.handles[h].mgr != m :: s.handles[h],
       locks := map i | i in s.locks && s.locks[i] in s.handles && s.handles[s.locks[i]].mgr != m :: s.locks[i])
  }

  // ---- the transition system ----

  // Where a step renames, renamed tells whether rename(2) works on a file that is there.
  datatype Step =
    | Tick(d: nat)
    | Submit(h: Hid, m: Mgr, job: JobId, ino: Inode, time: int, limit: nat, nties: nat)
    | Enqueue(h: Hid)
    | Withdraw(h: Hid)
    | Grab(h: Hid, m: Mgr, p: Path)
    | FindDead(h: Hid, m: Mgr, p: Path)
    | Hug(h: Hid, m: Mgr, p: Path)
    | See(h: Hid, p: Path)
    | NextDir(h: Hid)
    | Open(h: Hid)
    | Flock(h: Hid)
    | Drop(h: Hid)
    | Load(h: Hid)
    | TieChild(h: Hid, n: nat, child: JobId)
    | Split(h: Hid, ino: Inode, renamed: bool)
    | MoveToRun(h: Hid, renamed: bool)
    | Write(h: Hid, ino: Inode)
    | Launch(h: Hid, ino: Inode)
    | Abandon(h: Hid, renamed: bool)
    | Exit(h: Hid, how: Ending)
    | TryDone(h: Hid, ino: Inode, renamed: bool)
    | Resurrect(h: Hid, renamed: bool)
    | GroupDone(h: Hid, renamed: bool)
    | Purge(p: Path)
    | Crash(m: Mgr)

  // Time, submission, purging and crashes.
  predicate EnabledOutside(s: State, step: Step) {
    match step
    case Tick(_) => true
    case Submit(h, _, job, ino, _, limit, _) => CanSubmit(s, h, job, ino, limit)
    case Enqueue(h) => CanEnqueue(s, h)
    case Withdraw(h) => CanWithdraw(s, h)
    case Purge(p) => CanPurge(s, p)
    case Crash(_) => true
    case _ => false
  }

  function ApplyOutside(s: State, step: Step): State
    requires EnabledOutside(s, step)
  {
    match step
    case Tick(d) => s.(now := s.now + d)
    case Submit(h, m, job, ino, time, limit, nties) => DoSubmit(s, h, m, job, ino, time, limit, nties)
    case Enqueue(h) => DoEnqueue(s, h)
    case Withdraw(h) => DoWithdraw(s, h)
    case Purge(p) => DoPurge(s, p)
    case Crash(m) => DoCrash(s, m)
  }

  // Taking names from listings, scanning for children, and locking.
  predicate EnabledLook(s: State, step: Step) {
    match step
    case Grab(h, _, p) => CanGrab(s, h, p)
    case FindDead(h, _, p) => CanFindDead(s, h, p)
    case Hug(h, _, p) => CanHug(s, h, p)
    case See(h, p) => CanSee(s, h, p)
    case NextDir(h) => Scanning(s, h)
    case Open(h) => CanOpen(s, h)
    case Flock(h) => CanFlock(s, h)
    case Drop(h) => CanDrop(s, h)
    case _ => false
  }

  function ApplyLook(s: State, step: Step): State
    requires EnabledLook(s, step)
  {
    match step
    case Grab(h, m, p) => DoConstruct(s, h, m, Runner, p)
    case FindDead(h, m, p) => DoConstruct(s, h, m, Raiser, p)
    case Hug(h, m, p) => DoConstruct(s, h, m, HugRole(s, p), p)
    case See(h, p) => DoSee(s, h, p)
    case NextDir(h) => DoNextDir(s, h)
    case Open(h) => DoOpen(s, h)
    case Flock(h) => DoFlock(s, h)
    case Drop(h) => Close(s, h)
  }

  // What a lock holder does.
  predicate EnabledHold(s: State, step: Step) {
    match step
    case Load(h) => CanLoad(s, h)
    case TieChild(h, n, child) => CanTieChild(s, h, n, child)
    case Split(h, _, _) => IsGroup(s, h)
    case MoveToRun(h, _) => CanMoveToRun(s, h)
    case Write(h, ino) => CanWrite(s, h, ino)
    case Launch(h, ino) => CanLaunch(s, h, ino)
    case Abandon(h, _) => CanAbandon(s, h)
    case Exit(h, _) => CanExit(s, h)
    case TryDone(h, ino, _) => CanTryDone(s, h, ino)
    case Resurrect(h, _) => CanResurrect(s, h)
    case GroupDone(h, _) => CanGroupDone(s, h)
    case _ => false
  }

  function ApplyHold(s: State, step: Step): State
    requires EnabledHold(s, step)
  {
    match step
    case Load(h) => DoLoad(s, h)
    case TieChild(h, n, child) => DoTieChild(s, h, n, child)
    case Split(h, ino, renamed) => DoSplit(s, h, ino, renamed)
    case MoveToRun(h, renamed) => DoMoveToRun(s, h, renamed)
    case Write(h, ino) => DoWrite(s, h, ino)
    case Launch(h, ino) => DoLaunch(s, h, ino)
    case Abandon(h, renamed) => DoAbandon(s, h, renamed)
    case Exit(h, how) => DoExit(s, h, how)
    case TryDone(h, ino, renamed) => DoTryDone(s, h, ino, renamed)
    case Resurrect(h, renamed) => DoResurrect(s, h, renamed)
    case GroupDone(h, renamed) => DoGroupDone(s, h, renamed)
  }

  predicate Enabled(s: State, step: Step) {
    EnabledOutside(s, step) || EnabledLook(s, step) || EnabledHold(s, step)
  }

  function Apply(s: State, step: Step): State
    requires Enabled(s, step)
  {
    if EnabledOutside(s, step) then ApplyOutside(s, step)
    else if EnabledLook(s, step) then ApplyLook(s, step)
    else ApplyHold(s, step)
  }

  // Of the steps that rename, only the move to run has to find rename(2) working: what comes of one that does not is
  // in ProtocolFaults.
  predicate Faultless(step: Step) { step.MoveToRun? ==> step.renamed }

  ghost predicate Next(s: State, s': State) {
    exists step :: Enabled(s, step) && Faultless(step) && s' == Apply(s, step)
  }

  ghost predicate IsRun(run: seq<State>) {
    && run != [] && run[0] == INIT
    && forall i {:trigger run[i]} | 0 < i < |run| :: Next(run[i - 1], run[i])
  }
}
