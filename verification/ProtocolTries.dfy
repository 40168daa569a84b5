/**
 What every run keeps about tries: the order of the try records, the try limit, and the back-off between
 tries. These hold because only the lock holder of a file writes it.
 */
module ProtocolTries {
  import opened JobTypes
  import opened Protocol
  import opened ProtocolLocks

  // After section 0 the records are output 1, result 1, output 2, result 2, ... with at most the last result
  // missing.
  predicate Grammar(recs: seq<Rec>) {
    forall k | 0 <= k < |recs| :: recs[k] == if k % 2 == 0 then Output(k / 2 + 1) else Result(k / 2 + 1)
  }

  function Outputs(recs: seq<Rec>): nat {
    if recs == [] then 0 else Outputs(recs[..|recs| - 1]) + if recs[|recs| - 1].Output? then 1 else 0
  }

  // The try count that load takes from the last section is the number of tries ever started.
  lemma {:induction false} TryCountCountsOutputs(recs: seq<Rec>)
    requires Grammar(recs)
    ensures TryCount(recs) == Outputs(recs) == (|recs| + 1) / 2
  {
    if recs != [] {
      TryCountCountsOutputs(recs[..|recs| - 1]);
    }
  }

  // Starting a try adds one output, after a result for a try that never got one.
  lemma BeginGrammar(recs: seq<Rec>)
    requires Grammar(recs)
    ensures Grammar(Begin(recs)) && TryCount(Begin(recs)) == TryCount(recs) + 1 && EndsOpen(Begin(recs))
    ensures |Begin(recs)| % 2 == 1 && (|recs| % 2 == 0 ==> |Begin(recs)| == |recs| + 1)
  {
    TryCountCountsOutputs(recs);
  }

  lemma ResultGrammar(recs: seq<Rec>)
    requires Grammar(recs) && EndsOpen(recs)
    ensures Grammar(recs + [Result(TryCount(recs))]) && TryCount(recs + [Result(TryCount(recs))]) == TryCount(recs)
    ensures |recs| % 2 == 1
  {
    TryCountCountsOutputs(recs);
  }

  function FirstEnd(s: State, j: JobId): Option<int> { if j in s.firstEnd then Some(s.firstEnd[j]) else None }

  // Seconds between the end of the first try and the earliest start of try k + 1.
  function Gap(k: nat): nat { 30 * k * (k + 1) }

  lemma GapStep(k: nat)
    requires k > 0
    ensures Gap(k) == Gap(k - 1) + 60 * k
  {
    calc {
      Gap(k - 1) + 60 * k;
      30 * (k - 1) * k + 30 * 2 * k;
      30 * k * (k - 1 + 2);
    }
  }

  // The limit: each resurrection may add one try beyond it, and a file waits only if one more is allowed.
  predicate LimitOk(raised: nat, p: Path, c: Content) {
    && c.limit >= 1
    && TryCount(c.recs) <= c.limit + raised
    && (p.st == Pend ==> TryCount(c.recs) < c.limit + raised)
    && (p.st == Hold ==> c.recs == [])
  }

  // The back-off, for a job that was never resurrected.
  predicate BackoffOk(now: int, first: Option<int>, p: Path, c: Content) {
    var n := |c.recs|;
    && (n <= 1 ==> first.None?)
    && (n >= 2 ==> first.Some?)
    && (n % 2 == 1 ==> p.st != Pend)
    && (n % 2 == 1 && n >= 3 ==> now >= first.value + Gap(n / 2))
    && (n % 2 == 0 && n >= 2 && p.st == Pend ==> p.time >= first.value + Gap(n / 2))
  }

  predicate TryOk(now: int, raised: nat, first: Option<int>, p: Path, c: Content) {
    Grammar(c.recs) && LimitOk(raised, p, c) && (raised == 0 ==> BackoffOk(now, first, p, c))
  }

  predicate FileTryOk(s: State, p: Path)
    requires p in s.files && s.files[p] in s.data
  {
    TryOk(s.now, Raised(s, p.job), FirstEnd(s, p.job), p, s.data[s.files[p]])
  }

  // A file renamed to run but not rewritten yet still holds what it held while it was pending, and has waited as long.
  predicate MovedTryOk(s: State, hd: Handle) {
    hd.phase.Moved? ==>
      && hd.phase.ino in s.data
      && TryCount(s.data[hd.phase.ino].recs) < s.data[hd.phase.ino].limit + Raised(s, hd.name.job)
      && (Raised(s, hd.name.job) == 0 ==> WaitOk(FirstEnd(s, hd.name.job), hd.name, s.data[hd.phase.ino]))
  }

  predicate WaitOk(first: Option<int>, p: Path, c: Content) {
    |c.recs| % 2 == 0 && (|c.recs| >= 2 ==> first.Some? && p.time >= first.value + Gap(|c.recs| / 2))
  }

  // When the child of each job's first try ended, and when that was accounted for.
  predicate EndsOk(s: State) {
    forall j | j in s.firstEnd :: j in s.issued && j in s.firstExit && s.firstExit[j] <= s.firstEnd[j]
  }

  ghost predicate TryInv(s: State) {
    && (forall p | p in s.files :: s.files[p] in s.data && FileTryOk(s, p))
    && (forall h | h in s.handles :: MovedTryOk(s, s.handles[h]))
    && EndsOk(s)
  }

  // ---- the parts of the invariant ----

  lemma TryInvFile(s: State, p: Path)
    requires TryInv(s) && p in s.files
    ensures s.files[p] in s.data && FileTryOk(s, p)
  {
    hide FileTryOk, MovedTryOk, EndsOk;
  }

  lemma TryInvRest(s: State)
    requires TryInv(s)
    ensures EndsOk(s) && forall h | h in s.handles :: MovedTryOk(s, s.handles[h])
  {
    hide FileTryOk, MovedTryOk, EndsOk;
  }

  lemma TryInvMade(s: State)
    requires forall p | p in s.files :: s.files[p] in s.data && FileTryOk(s, p)
    requires EndsOk(s) && forall h | h in s.handles :: MovedTryOk(s, s.handles[h])
    ensures TryInv(s)
  {
    hide FileTryOk, MovedTryOk, EndsOk;
  }

  // ---- what a change leaves alone ----

  // The history of other jobs is not touched.
  ghost predicate SameElsewhere(s: State, s': State, j: JobId) {
    && (forall k | k != j :: Raised(s', k) == Raised(s, k) && FirstEnd(s', k) == FirstEnd(s, k))
    && Raised(s, j) <= Raised(s', j)
  }

  lemma SameFile(s: State, s': State, p: Path)
    requires p in s.files && s.files[p] in s.data && FileTryOk(s, p)
    requires p in s'.files && s'.files[p] in s'.data && s'.data[s'.files[p]] == s.data[s.files[p]]
    requires s.now <= s'.now && Raised(s', p.job) == Raised(s, p.job) && FirstEnd(s', p.job) == FirstEnd(s, p.job)
    ensures FileTryOk(s', p)
  {
    hide Grammar, LimitOk, Gap;
  }

  lemma SameMoved(s: State, s': State, hd: Handle)
    requires MovedTryOk(s, hd)
    requires hd.phase.Moved? && hd.phase.ino in s.data ==>
               hd.phase.ino in s'.data && s'.data[hd.phase.ino] == s.data[hd.phase.ino] &&
               Raised(s', hd.name.job) == Raised(s, hd.name.job) &&
               FirstEnd(s', hd.name.job) == FirstEnd(s, hd.name.job)
    ensures MovedTryOk(s', hd)
  {
    hide WaitOk, FirstEnd, Raised, TryCount;
  }

  // A step that changes no file, or removes some.
  ghost predicate Calm(s: State, s': State) {
    && s.now <= s'.now && s'.data == s.data && s.issued <= s'.issued
    && s'.raised == s.raised && s'.firstEnd == s.firstEnd && s'.firstExit == s.firstExit
    && (forall p | p in s'.files :: p in s.files && s'.files[p] == s.files[p])
    && (forall h | h in s'.handles && s'.handles[h].phase.Moved? :: h in s.handles && s'.handles[h] == s.handles[h])
  }

  lemma CalmTries(s: State, s': State)
    requires TryInv(s) && Calm(s, s')
    ensures TryInv(s')
  {
    TryInvRest(s);
    assert EndsOk(s');
    hide TryInv, FileTryOk, MovedTryOk, EndsOk;
    forall p | p in s'.files
      ensures s'.files[p] in s'.data && FileTryOk(s', p)
    {
      TryInvFile(s, p);
      SameFile(s, s', p);
    }
    forall h | h in s'.handles
      ensures MovedTryOk(s', s'.handles[h])
    {
      if s'.handles[h].phase.Moved? {
        SameMoved(s, s', s.handles[h]);
      } else {
        NotMoved(s', s'.handles[h]);
      }
    }
    TryInvMade(s');
  }

  lemma NotMoved(s: State, hd: Handle)
    requires !hd.phase.Moved?
    ensures MovedTryOk(s, hd)
  {
  }

  // What a lock holder does to its own file.
  ghost predicate Worked(s: State, s': State, h: Hid, c: Content) {
    && h in s.handles && Holds(s.handles[h].phase) && s.handles[h].name in s.files
    && s'.data == s.data[s.files[s.handles[h].name] := c] && s'.now == s.now
    && SameElsewhere(s, s', s.handles[h].name.job)
    && (forall g | g in s'.handles && g != h :: g in s.handles && s'.handles[g] == s.handles[g])
  }

  // Other handles between rename and rewrite do not see it.
  lemma MovedElsewhere(s: State, s': State, w: Where, h: Hid, c: Content, g: Hid)
    requires InvAt(s, w) && g in s.handles && g != h && MovedTryOk(s, s.handles[g]) && Worked(s, s', h, c)
    ensures MovedTryOk(s', s.handles[g])
  {
    if s.handles[g].phase.Moved? {
      OtherJob(s, w, h, g);
      hide InvAt, MovedTryOk;
      SameMoved(s, s', s.handles[g]);
    }
  }

  lemma OtherJob(s: State, w: Where, h: Hid, g: Hid)
    requires InvAt(s, w) && h in s.handles && g in s.handles && g != h
    requires Holds(s.handles[h].phase) && Holds(s.handles[g].phase) && s.handles[h].name in s.files
    ensures s.handles[g].name.job != s.handles[h].name.job
    ensures s.handles[g].phase.ino != s.files[s.handles[h].name]
  {
    hide InvAt;
    InvParts(s, w);
    InvHandle(s, w, g);
    OthersElsewhere(s, w, h, g);
    SameJobSameInode(s, w, s.handles[h].name, s.handles[g]);
  }

  lemma SameJobSameInode(s: State, w: Where, p: Path, hd: Handle)
    requires FilesOk(s, w) && HandleOk(s, hd) && Holds(hd.phase) && p in s.files
    ensures p.job == hd.name.job ==> hd.phase.ino == s.files[p]
  {
    assert PathOk(s, w, p);
  }

  lemma HandlesElsewhere(s: State, s': State, w: Where, h: Hid, c: Content)
    requires InvAt(s, w) && TryInv(s) && Worked(s, s', h, c)
    requires h in s'.handles ==> MovedTryOk(s', s'.handles[h])
    ensures forall g | g in s'.handles :: MovedTryOk(s', s'.handles[g])
  {
    TryInvRest(s);
    hide InvAt, TryInv, MovedTryOk;
    forall g | g in s'.handles
      ensures MovedTryOk(s', s'.handles[g])
    {
      if g != h { MovedElsewhere(s, s', w, h, c, g); }
    }
  }

  // The file of one job is renamed and rewritten; the others stay.
  lemma FilesElsewhere(s: State, s': State, w: Where, h: Hid, to: Path, c: Content)
    requires FilesOk(s, w) && TryInv(s) && Worked(s, s', h, c) && to.job == s.handles[h].name.job
    requires s'.files == (s.files - {s.handles[h].name})[to := s.files[s.handles[h].name]]
    requires to in s'.files && s'.files[to] in s'.data && FileTryOk(s', to)
    ensures forall p | p in s'.files :: s'.files[p] in s'.data && FileTryOk(s', p)
  {
    hide TryInv, FileTryOk;
    forall p | p in s'.files
      ensures s'.files[p] in s'.data && FileTryOk(s', p)
    {
      if p != to {
        TryInvFile(s, p);
        OtherFile(s, w, s.handles[h].name, p);
        SameFile(s, s', p);
      }
    }
  }

  lemma OtherFile(s: State, w: Where, from: Path, p: Path)
    requires FilesOk(s, w) && from in s.files && p in s.files && p != from
    ensures p.job != from.job && s.files[p] != s.files[from]
  {
    assert PathOk(s, w, p) && PathOk(s, w, from);
  }

  // Only the file the lock holder works on has to be looked at.
  lemma WorkTries(s: State, s': State, w: Where, h: Hid, to: Path, c: Content)
    requires InvAt(s, w) && TryInv(s) && Worked(s, s', h, c) && to.job == s.handles[h].name.job
    requires s'.files == (s.files - {s.handles[h].name})[to := s.files[s.handles[h].name]]
    requires h in s'.handles ==> MovedTryOk(s', s'.handles[h])
    requires EndsOk(s') && TryOk(s'.now, Raised(s', to.job), FirstEnd(s', to.job), to, c)
    ensures TryInv(s')
  {
    assert to in s'.files && s'.files[to] in s'.data && s'.data[s'.files[to]] == c;
    assert FileTryOk(s', to);
    hide InvAt, TryInv, FileTryOk, MovedTryOk, EndsOk, TryOk, Worked;
    InvParts(s, w);
    FilesElsewhere(s, s', w, h, to, c);
    HandlesElsewhere(s, s', w, h, c);
    TryInvMade(s');
  }

  // ---- the steps that rename ----

  lemma RepathWorks(s: State, s': State, w: Where, h: Hid, to: Path)
    requires FilesOk(s, w) && EndsOk(s) && Repathed(s, s', h, to) && s.handles[h].name in s.files
    ensures var from := s.handles[h].name;
            && s.files[from] in s.data && Worked(s, s', h, s.data[s.files[from]])
            && s'.files == (s.files - {from})[to := s.files[from]]
            && h !in s'.handles && EndsOk(s') && to.job == from.job && s'.now == s.now && s'.firstEnd == s.firstEnd
  {
    assert PathOk(s, w, s.handles[h].name);
  }

  lemma RepathTries(s: State, s': State, w: Where, h: Hid, to: Path)
    requires InvAt(s, w) && TryInv(s) && Repathed(s, s', h, to)
    requires s.handles[h].name in s.files ==>
               s.files[s.handles[h].name] in s.data &&
               TryOk(s.now, Raised(s', to.job), FirstEnd(s', to.job), to, s.data[s.files[s.handles[h].name]])
    ensures TryInv(s')
  {
    assert h in s.handles;
    hide *;
    TryInvRest(s);
    InvParts(s, w);
    if s.handles[h].name in s.files {
      RepathWorks(s, s', w, h, to);
      WorkTries(s, s', w, h, to, s.data[s.files[s.handles[h].name]]);
    } else {
      RepathOnlyCloses(s, s', h, to);
      CloseTries(s, h);
    }
  }

  // A refused rename of repath() closes the handle and changes nothing.
  lemma CloseTries(s: State, h: Hid)
    requires TryInv(s)
    ensures TryInv(Close(s, h))
  {
    assert Calm(s, Close(s, h));
    hide TryInv, Calm, Close;
    CalmTries(s, Close(s, h));
  }

  lemma EnqueueTryOk(now: int, raised: nat, first: Option<int>, p: Path, c: Content)
    requires TryOk(now, raised, first, p, c) && p.st.Hold?
    ensures TryOk(now, raised, first, p.(st := Pend), c)
  {
  }

  lemma EnqueueTries(s: State, w: Where, h: Hid)
    requires InvAt(s, w) && TryInv(s) && CanEnqueue(s, h)
    ensures TryInv(DoEnqueue(s, h))
  {
    hide InvAt, TryInv;
    var p, s' := s.handles[h].name, DoEnqueue(s, h);
    InvHandle(s, w, h);
    assert p in s.files && p.st.Hold?;
    TryInvFile(s, p);
    assert Raised(s', p.job) == Raised(s, p.job) && FirstEnd(s', p.job) == FirstEnd(s, p.job);
    EnqueueTryOk(s.now, Raised(s, p.job), FirstEnd(s, p.job), p, s.data[s.files[p]]);
    hide *;
    EnqueueRepaths(s, h);
    RepathTries(s, s', w, h, p.(st := Pend));
  }

  lemma DoneTryOk(now: int, raised: nat, first: Option<int>, p: Path, time: int, c: Content)
    requires TryOk(now, raised, first, p, c)
    ensures TryOk(now, raised, first, Path(Done, time, p.job), c)
  {
  }

  // A job that cannot go on is moved to done with the records it has.
  lemma AbandonTries(s: State, w: Where, h: Hid)
    requires InvAt(s, w) && TryInv(s) && CanAbandon(s, h)
    ensures TryInv(DoAbandon(s, h, true))
  {
    hide InvAt, TryInv;
    var p, s' := s.handles[h].name, DoAbandon(s, h, true);
    InvHandle(s, w, h);
    assert Raised(s', p.job) == Raised(s, p.job) && FirstEnd(s', p.job) == FirstEnd(s, p.job);
    if p in s.files {
      TryInvFile(s, p);
      DoneTryOk(s.now, Raised(s, p.job), FirstEnd(s, p.job), p, p.time, s.data[s.files[p]]);
    }
    hide *;
    AbandonRepaths(s, h);
    assert p.(st := Done) == Path(Done, p.time, p.job);
    RepathTries(s, s', w, h, p.(st := Done));
  }

  lemma RaiseTryOk(now: int, raised: nat, first: Option<int>, p: Path, c: Content)
    requires TryOk(now, raised, first, p, c) && p.st.Run?
    ensures TryOk(now, raised + 1, first, p.(st := Pend), c)
  {
  }

  lemma ResurrectTries(s: State, w: Where, h: Hid)
    requires InvAt(s, w) && TryInv(s) && CanResurrect(s, h)
    ensures TryInv(DoResurrect(s, h, true))
  {
    hide InvAt, TryInv;
    var p, s' := s.handles[h].name, DoResurrect(s, h, true);
    InvHandle(s, w, h);
    TryInvFile(s, p);
    assert Raised(s', p.job) == Raised(s, p.job) + 1 && FirstEnd(s', p.job) == FirstEnd(s, p.job);
    RaiseTryOk(s.now, Raised(s, p.job), FirstEnd(s, p.job), p, s.data[s.files[p]]);
    hide *;
    ResurrectRepaths(s, h);
    RepathTries(s, s', w, h, p.(st := Pend));
  }

  lemma GroupDoneTries(s: State, w: Where, h: Hid)
    requires InvAt(s, w) && TryInv(s) && CanGroupDone(s, h)
    ensures TryInv(DoGroupDone(s, h, true))
  {
    hide InvAt, TryInv;
    var p, s' := s.handles[h].name, DoGroupDone(s, h, true);
    InvHandle(s, w, h);
    TryInvFile(s, p);
    assert Raised(s', p.job) == Raised(s, p.job) && FirstEnd(s', p.job) == FirstEnd(s, p.job);
    DoneTryOk(s.now, Raised(s, p.job), FirstEnd(s, p.job), p, s.now, s.data[s.files[p]]);
    hide *;
    GroupDoneRepaths(s, h);
    RepathTries(s, s', w, h, Path(Done, s.now, p.job));
  }

  // ---- store() ----

  lemma StoreWorks(s: State, s': State, h: Hid, to: Path, c: Content, ino: Inode, renamed: bool)
    requires Stored(s, s', h, to, c, ino, renamed) && s'.raised == s.raised
    requires forall k | k != to.job :: FirstEnd(s', k) == FirstEnd(s, k)
    ensures var from := s.handles[h].name;
            && Worked(s, s', h, c) && h !in s'.handles && s'.now == s.now && to.job == from.job
            && (renamed ==> s'.files == (s.files - {from})[to := s.files[from]])
            && (!renamed ==> s'.files == (s.files - {from})[from := s.files[from]])
  {
    var from := s.handles[h].name;
    assert s.files == (s.files - {from})[from := s.files[from]];
  }

  // The file is looked at where it goes and where it stays if the rename is refused.
  lemma StoreTries(s: State, s': State, w: Where, h: Hid, to: Path, c: Content, ino: Inode, renamed: bool)
    requires InvAt(s, w) && TryInv(s) && Stored(s, s', h, to, c, ino, renamed) && s'.raised == s.raised
    requires EndsOk(s') && forall k | k != to.job :: FirstEnd(s', k) == FirstEnd(s, k)
    requires TryOk(s'.now, Raised(s', to.job), FirstEnd(s', to.job), to, c)
    requires TryOk(s'.now, Raised(s', to.job), FirstEnd(s', to.job), s.handles[h].name, c)
    ensures TryInv(s')
  {
    assert h in s.handles;
    hide *;
    StoreWorks(s, s', h, to, c, ino, renamed);
    WorkTries(s, s', w, h, if renamed then to else s.handles[h].name, c);
  }

  lemma SplitTryOk(now: int, raised: nat, first: Option<int>, p: Path, c: Content, mem: Content)
    requires TryOk(now, raised, first, p, c) && mem.recs == c.recs && mem.limit == c.limit
    ensures TryOk(now, raised, first, p, mem) && TryOk(now, raised, first, p.(st := Tied), mem)
  {
    hide Grammar, TryCount, Gap;
  }

  lemma SplitSame(s: State, h: Hid, ino: Inode, renamed: bool)
    requires IsGroup(s, h) && EndsOk(s)
    ensures var s' := DoSplit(s, h, ino, renamed);
            && s'.raised == s.raised && s'.now == s.now && EndsOk(s')
            && forall k :: FirstEnd(s', k) == FirstEnd(s, k) && Raised(s', k) == Raised(s, k)
  {
    var s' := DoSplit(s, h, ino, renamed);
    assert s'.raised == s.raised && s'.firstEnd == s.firstEnd && s'.firstExit == s.firstExit && s'.issued == s.issued;
    hide DoSplit, EndsOk;
    SameEnds(s, s');
  }

  lemma SplitTries(s: State, w: Where, h: Hid, ino: Inode, renamed: bool)
    requires InvAt(s, w) && TryInv(s) && IsGroup(s, h)
    ensures TryInv(DoSplit(s, h, ino, renamed))
  {
    hide InvAt, TryInv;
    var hd, s' := s.handles[h], DoSplit(s, h, ino, renamed);
    var p := hd.name;
    InvHandle(s, w, h);
    InvParts(s, w);
    TryInvFile(s, p);
    TryInvRest(s);
    NameFindsInode(s, w, hd);
    hide FilesOk, HistoryOk, LocksOk, HugOk, SubmitterOk, EndsOk, DoSplit, TryOk;
    SplitTryOk(s.now, Raised(s, p.job), FirstEnd(s, p.job), p, s.data[s.files[p]], hd.phase.mem);
    hide *;
    SplitSame(s, h, ino, renamed);
    SplitStores(s, h, ino, renamed);
    StoreTries(s, s', w, h, p.(st := Tied), hd.phase.mem, ino, renamed);
  }

  // A try ends: its result is recorded, and a retry waits long enough.
  lemma AfterTryOk(now: int, raised: nat, first: Option<int>, p: Path, c: Content, how: Ending)
    requires TryOk(now, raised, first, p, c) && p.st == Run && EndsOpen(c.recs)
    ensures var c' := c.(recs := c.recs + [Result(TryCount(c.recs))]);
            var first' := if first.None? then Some(now) else first;
            TryOk(now, raised, first', AfterTry(now, p, c, how), c') && TryOk(now, raised, first', p, c')
  {
    ResultGrammar(c.recs);
    TryCountCountsOutputs(c.recs);
    var n := |c.recs|;
    var k := (n + 1) / 2;
    GapStep(k);
    if raised == 0 {
      assert first.None? ==> Gap(k) == 60;
      assert first.Some? ==> n / 2 == k - 1;
    }
  }

  lemma TryDoneEnds(s: State, h: Hid, ino: Inode, renamed: bool)
    requires CanTryDone(s, h, ino) && EndsOk(s) && HandleOk(s, s.handles[h])
    ensures var s', j := DoTryDone(s, h, ino, renamed), s.handles[h].name.job;
            && s'.raised == s.raised && s'.now == s.now && EndsOk(s')
            && FirstEnd(s', j) == (if FirstEnd(s, j).None? then Some(s.now) else FirstEnd(s, j))
            && forall k | k != j :: FirstEnd(s', k) == FirstEnd(s, k)
  {
    TryDoneAccounts(s, h, ino, renamed);
    assert s.handles[h].name.job in s.issued && s.handles[h].phase.at <= s.now;
    hide DoTryDone, HandleOk, CanTryDone;
    AccountedEnds(s, s.handles[h].name.job, s.handles[h].phase.at);
    SameEnds(Accounted(s, s.handles[h].name.job, s.handles[h].phase.at), DoTryDone(s, h, ino, renamed));
  }

  lemma TryDoneAccounts(s: State, h: Hid, ino: Inode, renamed: bool)
    requires CanTryDone(s, h, ino)
    ensures var s', a := DoTryDone(s, h, ino, renamed), Accounted(s, s.handles[h].name.job, s.handles[h].phase.at);
            && s'.raised == s.raised && s'.now == s.now && s'.issued == s.issued
            && s'.firstEnd == a.firstEnd && s'.firstExit == a.firstExit
  {
    var hd := s.handles[h];
    var from := RunName(hd);
    var s1 := Accounted(s.(handles := s.handles[h := hd.(name := from)]), from.job, hd.phase.at);
    var c := s.data[s.files[from]];
    StoreRecords(s1, h, AfterTry(s.now, from, c, hd.phase.how), c.(recs := c.recs + [Result(TryCount(c.recs))]), ino,
                 renamed);
    hide TryCount, AfterTry, Store;
  }

  // store() touches no record of the history but the set of finished jobs.
  lemma StoreRecords(s: State, h: Hid, to: Path, c: Content, ino: Inode, renamed: bool)
    requires h in s.handles
    ensures var s' := Store(s, h, to, c, ino, renamed);
            && s'.raised == s.raised && s'.now == s.now && s'.issued == s.issued
            && s'.firstEnd == s.firstEnd && s'.firstExit == s.firstExit
  {
  }

  lemma AccountedEnds(s: State, j: JobId, at: int)
    requires EndsOk(s) && j in s.issued && at <= s.now
    ensures EndsOk(Accounted(s, j, at)) && Accounted(s, j, at).issued == s.issued
  {
  }

  lemma TryDoneTries(s: State, w: Where, h: Hid, ino: Inode, renamed: bool)
    requires InvAt(s, w) && TryInv(s) && CanTryDone(s, h, ino)
    ensures TryInv(DoTryDone(s, h, ino, renamed))
  {
    hide InvAt, TryInv;
    var hd, s' := s.handles[h], DoTryDone(s, h, ino, renamed);
    var p := hd.name;
    InvHandle(s, w, h);
    InvParts(s, w);
    assert p.st.Run? && p in s.files && RunName(hd) == p;
    TryInvFile(s, p);
    TryInvRest(s);
    NameFindsInode(s, w, hd);
    assert s.data[s.files[p]].job == p.job && EndsOpen(s.data[s.files[p]].recs);
    assert FileTryOk(s, p) == TryOk(s.now, Raised(s, p.job), FirstEnd(s, p.job), p, s.data[s.files[p]]);
    hide *;
    var c := s.data[s.files[p]];
    TryDoneStores(s, h, ino, renamed);
    TryDoneEnds(s, h, ino, renamed);
    AfterTryOk(s.now, Raised(s, p.job), FirstEnd(s, p.job), p, c, hd.phase.how);
    SameRaised(s, s', p.job);
    AfterTryJob(s.now, p, c, hd.phase.how);
    StoreTries(s, s', w, h, AfterTry(s.now, p, c, hd.phase.how), c.(recs := c.recs + [Result(TryCount(c.recs))]), ino,
               renamed);
  }

  lemma SameRaised(s: State, s': State, j: JobId)
    requires s'.raised == s.raised
    ensures Raised(s', j) == Raised(s, j)
  {
  }

  lemma AfterTryJob(now: int, p: Path, c: Content, how: Ending)
    ensures AfterTry(now, p, c, how).job == p.job
  {
  }

  // ---- the start of a try ----

  lemma WaitFromPend(now: int, first: Option<int>, p: Path, c: Content)
    requires BackoffOk(now, first, p, c) && p.st.Pend?
    ensures WaitOk(first, p.(st := Run), c)
  {
  }

  lemma MoveTryOk(s: State, s': State, h: Hid)
    requires CanMoveToRun(s, h) && s' == DoMoveToRun(s, h, true)
    requires s.handles[h].name in s.files && s.handles[h].name.st.Pend?
    requires s.files[s.handles[h].name] == s.handles[h].phase.ino && FileTryOk(s, s.handles[h].name)
    ensures h in s'.handles && MovedTryOk(s', s'.handles[h])
    ensures TryOk(s'.now, Raised(s', s.handles[h].name.job), FirstEnd(s', s.handles[h].name.job), RunName(s.handles[h]),
                  s.data[s.handles[h].phase.ino])
  {
    var p, c := s.handles[h].name, s.data[s.handles[h].phase.ino];
    if Raised(s, p.job) == 0 { WaitFromPend(s.now, FirstEnd(s, p.job), p, c); }
    hide WaitOk;
  }

  lemma MoveWorks(s: State, h: Hid)
    requires CanMoveToRun(s, h) && s.handles[h].name in s.files && EndsOk(s)
    ensures var s', hd := DoMoveToRun(s, h, true), s.handles[h];
            && Worked(s, s', h, s.data[s.files[hd.name]]) && EndsOk(s') && RunName(hd).job == hd.name.job
            && s'.files == (s.files - {hd.name})[RunName(hd) := s.files[hd.name]]
  {
    hide EndsOk;
    assert EndsOk(DoMoveToRun(s, h, true)) by { SameEnds(s, DoMoveToRun(s, h, true)); }
  }

  lemma SameEnds(s: State, s': State)
    requires EndsOk(s) && s'.firstEnd == s.firstEnd && s'.firstExit == s.firstExit && s'.issued == s.issued
    ensures EndsOk(s')
  {
  }

  lemma MoveToRunTries(s: State, w: Where, h: Hid)
    requires InvAt(s, w) && TryInv(s) && CanMoveToRun(s, h)
    ensures TryInv(DoMoveToRun(s, h, true))
  {
    hide InvAt, TryInv;
    var hd, s' := s.handles[h], DoMoveToRun(s, h, true);
    InvHandle(s, w, h);
    InvParts(s, w);
    assert hd.name in s.files && hd.name.st.Pend?;
    TryInvFile(s, hd.name);
    TryInvRest(s);
    NameFindsInode(s, w, hd);
    hide *;
    MoveTryOk(s, s', h);
    MoveWorks(s, h);
    WorkTries(s, s', w, h, RunName(hd), s.data[s.files[hd.name]]);
  }

  // A try starts: its record goes to the file.
  lemma BeginOk(now: int, raised: nat, first: Option<int>, p: Path, c: Content, mem: Content)
    requires TryOk(now, raised, first, p, c) && p.st == Run && p.time <= now
    requires TryCount(c.recs) < c.limit + raised && (raised == 0 ==> WaitOk(first, p, c))
    requires mem.recs == Begin(c.recs) && mem.limit == c.limit
    ensures TryOk(now, raised, first, p, mem)
  {
    BeginGrammar(c.recs);
    if raised == 0 && |c.recs| >= 2 {
      assert |mem.recs| / 2 == |c.recs| / 2;
    }
  }

  lemma WriteWorks(s: State, s': State, h: Hid)
    requires Rewritten(s, s', h) && s.handles[h].name in s.files && EndsOk(s)
    requires s.files[s.handles[h].name] == s.handles[h].phase.ino
    ensures var hd := s.handles[h];
            && Worked(s, s', h, hd.phase.mem) && EndsOk(s')
            && s'.files == (s.files - {hd.name})[hd.name := s.files[hd.name]]
            && h in s'.handles && MovedTryOk(s', s'.handles[h])
            && s'.now == s.now && s'.raised == s.raised && s'.firstEnd == s.firstEnd
  {
    var p := s.handles[h].name;
    assert s.files == (s.files - {p})[p := s.files[p]];
  }

  lemma WriteTries(s: State, w: Where, h: Hid, ino: Inode)
    requires InvAt(s, w) && TryInv(s) && CanWrite(s, h, ino)
    ensures TryInv(DoWrite(s, h, ino))
  {
    hide InvAt, TryInv;
    var hd, s' := s.handles[h], DoWrite(s, h, ino);
    var p := hd.name;
    InvHandle(s, w, h);
    InvParts(s, w);
    TryInvFile(s, p);
    TryInvRest(s);
    NameFindsInode(s, w, hd);
    assert MovedTryOk(s, hd);
    hide FilesOk, HistoryOk, LocksOk, HugOk, SubmitterOk, DoWrite, TryOk, WaitOk;
    BeginOk(s.now, Raised(s, p.job), FirstEnd(s, p.job), p, s.data[hd.phase.ino], hd.phase.mem);
    hide *;
    WriteRewrites(s, w, h, ino);
    WriteWorks(s, s', h);
    SameRaised(s, s', p.job);
    SameFirstEnd(s, s', p.job);
    WorkTries(s, s', w, h, p, hd.phase.mem);
  }

  lemma SameFirstEnd(s: State, s': State, j: JobId)
    requires s'.firstEnd == s.firstEnd
    ensures FirstEnd(s', j) == FirstEnd(s, j)
  {
  }

  // ---- submission ----

  lemma SubmitTryOk(s: State, s': State, p: Path, ino: Inode, c: Content)
    requires EndsOk(s) && Grown(s, s', p, ino, c) && c.recs == [] && c.limit >= 1
    requires s'.raised == s.raised && s'.firstEnd == s.firstEnd && s'.firstExit == s.firstExit
    ensures p in s'.files && s'.files[p] in s'.data && FileTryOk(s', p) && EndsOk(s')
  {
  }

  lemma SubmitTries(s: State, w: Where, h: Hid, m: Mgr, job: JobId, ino: Inode, time: int, limit: nat, nties: nat)
    requires InvAt(s, w) && TryInv(s) && CanSubmit(s, h, job, ino, limit)
    ensures TryInv(DoSubmit(s, h, m, job, ino, time, limit, nties))
  {
    hide InvAt, TryInv;
    TryInvRest(s);
    var s' := DoSubmit(s, h, m, job, ino, time, limit, nties);
    var p := Path(Hold, time, job);
    var c := Content(job, [], seq(nties, i => 0), limit);
    assert c.recs == [] && c.limit >= 1 && h !in s.handles;
    assert s'.raised == s.raised && s'.firstEnd == s.firstEnd && s'.firstExit == s.firstExit && s'.now == s.now;
    assert s'.handles == s.handles[h := Handle(m, Submitter, p, Fresh)];
    SubmitGrows(s, w, h, m, job, ino, time, limit, nties);
    hide DoSubmit, CanSubmit, FileTryOk, MovedTryOk, EndsOk, HandleOk, HugOk;
    SubmitTryOk(s, s', p, ino, c);
    forall q | q in s'.files
      ensures s'.files[q] in s'.data && FileTryOk(s', q)
    {
      if q != p {
        TryInvFile(s, q);
        SameFile(s, s', q);
      }
    }
    forall g | g in s'.handles
      ensures MovedTryOk(s', s'.handles[g])
    {
      if g != h { SameMoved(s, s', s.handles[g]); } else { NotMoved(s', s'.handles[g]); }
    }
    TryInvMade(s');
  }

  // ---- every step ----

  // Whatever else happens outside removes files and handles only, or moves the clock.
  lemma OutsideIsCalm(s: State, step: Step)
    requires EnabledOutside(s, step) && !step.Submit? && !step.Enqueue?
    ensures Calm(s, ApplyOutside(s, step))
  {
  }

  lemma OutsideTries(s: State, w: Where, step: Step)
    requires InvAt(s, w) && TryInv(s) && EnabledOutside(s, step)
    ensures TryInv(ApplyOutside(s, step))
  {
    hide InvAt, TryInv;
    if step.Submit? {
      SubmitTries(s, w, step.h, step.m, step.job, step.ino, step.time, step.limit, step.nties);
    } else if step.Enqueue? {
      EnqueueTries(s, w, step.h);
    } else {
      hide *;
      OutsideIsCalm(s, step);
      CalmTries(s, ApplyOutside(s, step));
    }
  }

  lemma LookIsCalm(s: State, step: Step)
    requires EnabledLook(s, step)
    ensures Calm(s, ApplyLook(s, step))
  {
  }

  lemma LookTries(s: State, step: Step)
    requires TryInv(s) && EnabledLook(s, step)
    ensures TryInv(ApplyLook(s, step))
  {
    hide *;
    LookIsCalm(s, step);
    CalmTries(s, ApplyLook(s, step));
  }

  predicate Renames(step: Step) {
    step.Split? || step.MoveToRun? || step.Abandon? || step.TryDone? || step.Resurrect? || step.GroupDone?
  }

  lemma RenamingTries(s: State, w: Where, step: Step)
    requires InvAt(s, w) && TryInv(s) && EnabledHold(s, step) && Faultless(step) && Renames(step)
    ensures TryInv(ApplyHold(s, step))
  {
    hide InvAt, TryInv;
    match step
    case Split(h, ino, renamed) => SplitTries(s, w, h, ino, renamed);
    case MoveToRun(h, _) => MoveToRunTries(s, w, h);
    case Abandon(h, renamed) => if renamed { AbandonTries(s, w, h); } else { CloseTries(s, h); }
    case TryDone(h, ino, renamed) => TryDoneTries(s, w, h, ino, renamed);
    case Resurrect(h, renamed) => if renamed { ResurrectTries(s, w, h); } else { CloseTries(s, h); }
    case GroupDone(h, renamed) => if renamed { GroupDoneTries(s, w, h); } else { CloseTries(s, h); }
  }

  // A handle goes on, and no file changes.
  lemma PhaseTries(s: State, h: Hid, ph: Phase)
    requires TryInv(s) && h in s.handles && !ph.Moved?
    ensures TryInv(SetPhase(s, h, ph))
  {
    assert Calm(s, SetPhase(s, h, ph));
    hide *;
    CalmTries(s, SetPhase(s, h, ph));
  }

  lemma LaunchTries(s: State, w: Where, h: Hid, ino: Inode)
    requires InvAt(s, w) && TryInv(s) && CanLaunch(s, h, ino)
    ensures TryInv(DoLaunch(s, h, ino))
  {
    hide InvAt, TryInv;
    assert h in s.handles;
    InvHandle(s, w, h);
    LaunchFindsLog(s, h, ino);
    hide *;
    PhaseTries(s, h, Live(s.handles[h].phase.ino));
  }

  // Loading, tying, launching and exiting change no file.
  lemma CalmHoldTries(s: State, w: Where, step: Step)
    requires InvAt(s, w) && TryInv(s) && EnabledHold(s, step) && !Renames(step) && !step.Write?
    ensures TryInv(ApplyHold(s, step))
  {
    hide InvAt, TryInv;
    var hd := s.handles[step.h];
    match step
    case Load(h) => PhaseTries(s, h, Loaded(hd.phase.ino, s.data[s.files[hd.name]]));
    case TieChild(h, n, child) =>
      PhaseTries(s, h, Loaded(hd.phase.ino, hd.phase.mem.(ties := hd.phase.mem.ties[n := child])));
    case Launch(h, ino) => LaunchTries(s, w, h, ino);
    case Exit(h, how) => PhaseTries(s, h, Exited(hd.phase.ino, how, s.now));
  }

  lemma HoldTries(s: State, w: Where, step: Step)
    requires InvAt(s, w) && TryInv(s) && EnabledHold(s, step) && Faultless(step)
    ensures TryInv(ApplyHold(s, step))
  {
    hide InvAt, TryInv;
    if Renames(step) {
      RenamingTries(s, w, step);
    } else if step.Write? {
      WriteTries(s, w, step.h, step.ino);
    } else {
      CalmHoldTries(s, w, step);
    }
  }

  lemma StepKeepsTries(s: State, step: Step)
    requires Inv(s) && TryInv(s) && Enabled(s, step) && Faultless(step)
    ensures TryInv(Apply(s, step))
  {
    hide InvAt, TryInv;
    var w :| InvAt(s, w);
    if EnabledOutside(s, step) {
      OutsideTries(s, w, step);
    } else if EnabledLook(s, step) {
      LookTries(s, step);
    } else {
      HoldTries(s, w, step);
    }
  }
}
