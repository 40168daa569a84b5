/**
 Directory scans of a queue: looking up the states of a set of jobs, one directory after the other while jobs
 move, and listing the jobs of one state.
 */
module QueueScan {
  import opened JobTypes
  import JobName

  type StateMap = map<JobId, JobState>

  // The order in which directories are read.
  const DIRS := [Hold, Pend, Run, Tied, Kill, Done]

  function Unknown(ids: set<JobId>): StateMap { map c | c in ids :: Unk }

  // The map and how many entries were noted in it.
  datatype Notes = Notes(smap: StateMap, got: nat)

  // What state_scanner makes of one job file seen in a directory.
  function Note(n: Notes, id: JobId, st: JobState): Notes {
    if id in n.smap then Notes(n.smap[id := st], n.got + 1) else n
  }

  // The job a directory entry is about, if it is a job file.
  function IdOf(dname: string): Option<JobId> {
    match JobName.Parse(dname) case Ok(p) => Some(p.id) case Err(_) => None
  }

  function NoteName(n: Notes, dname: string, st: JobState): Notes {
    match IdOf(dname) case None => n case Some(id) => Note(n, id, st)
  }

  function ScanDir(n: Notes, names: seq<string>, st: JobState): Notes {
    if names == [] then n else NoteName(ScanDir(n, names[..|names| - 1], st), names[|names| - 1], st)
  }

  // Reads directories from the s-th on, until as many entries were noted as jobs are wanted. A directory that
  // cannot be read ends the scan.
  function ScanFrom(smap: StateMap, got: nat, dirs: seq<Option<seq<string>>>, s: nat): Option<StateMap>
    requires |dirs| == |DIRS|
    decreases |DIRS| - s
  {
    if s >= |DIRS| || got >= |smap| then Some(smap)
    else if dirs[s].None? then None
    else
      var r := ScanDir(Notes(smap, got), dirs[s].value, DIRS[s]);
      ScanFrom(r.smap, r.got, dirs, s + 1)
  }

  class Scanner {
    var ggot: nat
    var gstate: JobState
    var smap: StateMap

    constructor (ids: set<JobId>)
      ensures smap == Unknown(ids)
    {
      ggot, gstate, smap := 0, Unk, Unknown(ids);
    }

    method StateScanner(dname: string)
      modifies this
      ensures Notes(smap, ggot) == NoteName(Notes(old(smap), old(ggot)), dname, old(gstate))
      ensures gstate == old(gstate) && smap.Keys == old(smap).Keys
    {
      var e := JobName.Parse(dname);
      assert IdOf(dname) == if e.Err? then None else Some(e.value.id);
      hide IdOf, JobName.Parse;
      if e.Err? { return; }
      var id := e.value.id;
      if id in smap {
        ggot := ggot + 1;
        smap := smap[id := gstate];
      }
    }

    // dirs[s] is what the s-th directory held when it was read, or None if it could not be.
    method GetStatesOfJobs(dirs: seq<Option<seq<string>>>) returns (ok: bool)
      requires |dirs| == |DIRS|
      modifies this
      ensures var r := ScanFrom(Unknown(old(smap.Keys)), 0, dirs, 0);
              ok == r.Some? && (ok ==> smap == r.value)
    {
      var numwant := |smap|;
      smap := Unknown(smap.Keys);
      KeepsSize(smap, Unknown(smap.Keys));
      ggot := 0;
      var s := 0;
      while s < |DIRS|
        invariant 0 <= s <= |DIRS|
        invariant smap.Keys == old(smap.Keys) && |smap| == numwant
        invariant ScanFrom(Unknown(old(smap.Keys)), 0, dirs, 0) == ScanFrom(smap, ggot, dirs, s)
      {
        if ggot >= numwant { break; }
        gstate := DIRS[s];
        if dirs[s].None? { return false; }
        ghost var smap0 := smap;
        ScanDirectory(dirs[s].value);
        KeepsSize(smap0, smap);
        s := s + 1;
      }
      ok := true;
    }

    // scandir() with state_scanner as its filter.
    method ScanDirectory(names: seq<string>)
      modifies this
      ensures Notes(smap, ggot) == ScanDir(Notes(old(smap), old(ggot)), names, old(gstate))
      ensures gstate == old(gstate) && smap.Keys == old(smap).Keys
    {
      ghost var n := Notes(smap, ggot);
      assert names[..0] == [];
      for i := 0 to |names|
        invariant gstate == old(gstate) && smap.Keys == old(smap).Keys
        invariant Notes(smap, ggot) == ScanDir(n, names[..i], gstate)
      {
        ScanNext(n, names, i, gstate);
        hide ScanDir, NoteName;
        StateScanner(names[i]);
      }
      assert names[..|names|] == names;
    }
  }

  lemma ScanNext(n: Notes, names: seq<string>, i: nat, st: JobState)
    requires i < |names|
    ensures ScanDir(n, names[..i + 1], st) == NoteName(ScanDir(n, names[..i], st), names[i], st)
  {
    assert names[..i + 1][..i] == names[..i];
    hide NoteName;
  }

  lemma KeepsSize(a: StateMap, b: StateMap)
    requires a.Keys == b.Keys
    ensures |a| == |b|
  {
    assert |a.Keys| == |a| && |b.Keys| == |b|;
  }

  // ---- what a scan finds ----

  predicate AllDone(smap: StateMap) { forall c | c in smap :: smap[c] == Done }

  predicate Lists(names: seq<string>, id: JobId) { exists i :: 0 <= i < |names| && IdOf(names[i]) == Some(id) }

  predicate Wanted(ids: set<JobId>, dname: string) { IdOf(dname).Some? && IdOf(dname).value in ids }

  // How many entries are about one of the jobs; a job that moves can be met more than once.
  function Hits(ids: set<JobId>, names: seq<string>): nat {
    if names == [] then 0
    else Hits(ids, names[..|names| - 1]) + if Wanted(ids, names[|names| - 1]) then 1 else 0
  }

  // Hits in the directories from the s-th up to, but not including, done.
  function EarlyHits(ids: set<JobId>, dirs: seq<Option<seq<string>>>, s: nat): nat
    requires |dirs| == |DIRS| && forall k | 0 <= k < |dirs| :: dirs[k].Some?
    decreases |DIRS| - s
  {
    if s >= |DIRS| - 1 then 0 else Hits(ids, dirs[s].value) + EarlyHits(ids, dirs, s + 1)
  }

  lemma ListsMore(front: seq<string>, last: string, c: JobId)
    ensures Lists(front + [last], c) <==> Lists(front, c) || IdOf(last) == Some(c)
  {
    var names := front + [last];
    if Lists(front, c) {
      var i :| 0 <= i < |front| && IdOf(front[i]) == Some(c);
      assert IdOf(names[i]) == Some(c);
    }
    assert names[|front|] == last;
    if Lists(names, c) {
      var i :| 0 <= i < |names| && IdOf(names[i]) == Some(c);
      assert i < |front| ==> IdOf(front[i]) == Some(c);
    }
  }

  // Reading one directory marks exactly the wanted jobs it lists, and counts the hits.
  lemma {:induction false} DirEffect(n: Notes, names: seq<string>, st: JobState)
    ensures ScanDir(n, names, st).smap.Keys == n.smap.Keys
    ensures ScanDir(n, names, st).got == n.got + Hits(n.smap.Keys, names)
    ensures forall c | c in n.smap :: ScanDir(n, names, st).smap[c] == if Lists(names, c) then st else n.smap[c]
  {
    if names != [] {
      var front, last := names[..|names| - 1], names[|names| - 1];
      assert names == front + [last];
      DirEffect(n, front, st);
      NoteEffect(ScanDir(n, front, st), last, st);
      hide Lists, IdOf, NoteName, Wanted;
      forall c | c in n.smap
        ensures ScanDir(n, names, st).smap[c] == if Lists(names, c) then st else n.smap[c]
      {
        ListsMore(front, last, c);
      }
    }
  }

  lemma NoteEffect(n: Notes, dname: string, st: JobState)
    ensures var r := NoteName(n, dname, st);
            && r.smap.Keys == n.smap.Keys && r.got == n.got + (if Wanted(n.smap.Keys, dname) then 1 else 0)
            && forall c | c in n.smap :: r.smap[c] == if IdOf(dname) == Some(c) then st else n.smap[c]
  {
    hide IdOf;
  }

  lemma NothingDone(smap: StateMap)
    requires forall c | c in smap :: smap[c] != Done
    ensures AllDone(smap) <==> smap == map[]
  {
    if smap != map[] {
      var c :| c in smap;
      assert smap[c] != Done;
    }
  }

  lemma LastDirectory(smap: StateMap, after: StateMap, names: seq<string>)
    requires after.Keys == smap.Keys && forall c | c in smap :: smap[c] != Done
    requires forall c | c in smap :: after[c] == if Lists(names, c) then Done else smap[c]
    ensures AllDone(after) <==> forall c | c in smap :: Lists(names, c)
  {
    hide Lists;
    if AllDone(after) {
      forall c | c in smap
        ensures Lists(names, c)
      {
        assert after[c] == Done;
      }
    }
  }

  lemma {:induction false} ScanFinds(smap: StateMap, got: nat, dirs: seq<Option<seq<string>>>, s: nat)
    requires |dirs| == |DIRS| && forall k | 0 <= k < |dirs| :: dirs[k].Some?
    requires s < |DIRS| && forall c | c in smap :: smap[c] != Done
    ensures var r := ScanFrom(smap, got, dirs, s);
            && r.Some? && r.value.Keys == smap.Keys
            && (AllDone(r.value) <==>
                  smap == map[] || (got + EarlyHits(smap.Keys, dirs, s) < |smap| &&
                                    forall c | c in smap :: Lists(dirs[|DIRS| - 1].value, c)))
    decreases |DIRS| - s
  {
    if got >= |smap| {
      NothingDone(smap);
    } else {
      var names := dirs[s].value;
      var r := ScanDir(Notes(smap, got), names, DIRS[s]);
      DirEffect(Notes(smap, got), names, DIRS[s]);
      KeepsSize(smap, r.smap);
      ScanStep(smap, got, dirs, s);
      if s == |DIRS| - 1 {
        LastDirectory(smap, r.smap, names);
        assert EarlyHits(smap.Keys, dirs, s) == 0;
      } else {
        assert DIRS[s] != Done;
        hide ScanDir, Lists, Hits, IdOf, AllDone, ScanFrom;
        ScanFinds(r.smap, r.got, dirs, s + 1);
      }
    }
  }

  lemma ScanStep(smap: StateMap, got: nat, dirs: seq<Option<seq<string>>>, s: nat)
    requires |dirs| == |DIRS| && forall k | 0 <= k < |dirs| :: dirs[k].Some?
    requires s < |DIRS| && got < |smap|
    ensures var r := ScanDir(Notes(smap, got), dirs[s].value, DIRS[s]);
            && ScanFrom(smap, got, dirs, s) == ScanFrom(r.smap, r.got, dirs, s + 1)
            && (s == |DIRS| - 1 ==> ScanFrom(smap, got, dirs, s) == Some(r.smap))
  {
    hide ScanDir;
  }

  // A lookup finds all jobs done exactly when there are none, or the done directory listed every one of them
  // when it was read and fewer entries than jobs had been noted before. So a job counted twice can only delay
  // the answer, never falsify it.
  lemma LookupIsSound(ids: set<JobId>, dirs: seq<Option<seq<string>>>)
    requires |dirs| == |DIRS| && forall k | 0 <= k < |dirs| :: dirs[k].Some?
    ensures ScanFrom(Unknown(ids), 0, dirs, 0).Some?
    ensures AllDone(ScanFrom(Unknown(ids), 0, dirs, 0).value) <==>
              ids == {} || (EarlyHits(ids, dirs, 0) < |ids| && forall c | c in ids :: Lists(dirs[|DIRS| - 1].value, c))
  {
    var smap := Unknown(ids);
    assert smap.Keys == ids;
    assert smap == map[] <==> ids == {} by {
      if ids == {} { assert smap == map[]; }
      else { var c :| c in ids; assert c in smap; }
    }
    assert |smap| == |ids| by { assert |smap.Keys| == |smap|; }
    ScanFinds(smap, 0, dirs, 0);
  }

  lemma {:induction false} NoHits(ids: set<JobId>, names: seq<string>)
    requires forall c | c in ids :: !Lists(names, c)
    ensures Hits(ids, names) == 0
  {
    if names != [] {
      var front, last := names[..|names| - 1], names[|names| - 1];
      assert names == front + [last];
      forall c | c in ids
        ensures !Lists(front, c) && IdOf(last) != Some(c)
      {
        ListsMore(front, last, c);
      }
      NoHits(ids, front);
    }
  }

  // Jobs that are in done, and nowhere else, during the whole scan are found done.
  lemma SettledJobsAreFound(ids: set<JobId>, dirs: seq<Option<seq<string>>>)
    requires |dirs| == |DIRS| && forall k | 0 <= k < |dirs| :: dirs[k].Some?
    requires forall c, k | c in ids && 0 <= k < |DIRS| - 1 :: !Lists(dirs[k].value, c)
    requires forall c | c in ids :: Lists(dirs[|DIRS| - 1].value, c)
    ensures ScanFrom(Unknown(ids), 0, dirs, 0).Some? && AllDone(ScanFrom(Unknown(ids), 0, dirs, 0).value)
  {
    LookupIsSound(ids, dirs);
    NoEarlyHits(ids, dirs, 0);
    hide ScanFrom, EarlyHits, Lists, AllDone, Unknown;
    if ids != {} { var c :| c in ids; }
  }

  lemma {:induction false} NoEarlyHits(ids: set<JobId>, dirs: seq<Option<seq<string>>>, s: nat)
    requires |dirs| == |DIRS| && forall k | 0 <= k < |dirs| :: dirs[k].Some?
    requires forall c, k | c in ids && 0 <= k < |DIRS| - 1 :: !Lists(dirs[k].value, c)
    ensures EarlyHits(ids, dirs, s) == 0
    decreases |DIRS| - s
  {
    if s < |DIRS| - 1 {
      NoHits(ids, dirs[s].value);
      NoEarlyHits(ids, dirs, s + 1);
    }
  }

  // ---- listing one state ----

  predicate Listed(dname: string, t: int) {
    dname != "" && dname[0] != '.' && (t != 0 ==> JobName.TimeFilter(dname, t))
  }

  function Select(qdir: string, names: seq<string>, t: int): seq<string> {
    if names == [] then []
    else
      var last := names[|names| - 1];
      Select(qdir, names[..|names| - 1], t) + if Listed(last, t) then [qdir + last] else []
  }

  // names is the directory in scandir's order; t = 0 sets no time limit.
  method GetJobsByState(qdir: string, names: seq<string>, t: int) returns (jobfiles: seq<string>)
    ensures jobfiles == Select(qdir, names, t)
  {
    jobfiles := [];
    for i := 0 to |names|
      invariant jobfiles == Select(qdir, names[..i], t)
    {
      assert names[..i + 1][..i] == names[..i];
      if (t == 0 || JobName.TimeFilter(names[i], t)) && names[i] != "" && names[i][0] != '.' {
        jobfiles := jobfiles + [qdir + names[i]];
      }
    }
    assert names[..|names|] == names;
  }

  // Between 2001 and 2038, a poll lists exactly the job files whose run time has come.
  lemma PollListsDueJobs(qdir: string, names: seq<string>, t: int, p: JobName.Parts)
    requires 1_000_000_000 <= t < 0x8000_0000 && 0 <= p.runTime < 10_000_000_000
    requires JobName.BaseName(p) in names
    ensures qdir + JobName.BaseName(p) in Select(qdir, names, t) <==> p.runTime <= t
  {
    JobName.TimeFilterIsNumeric(p, t);
    SelectHas(qdir, names, t, JobName.BaseName(p));
    assert JobName.BaseName(p)[0] == 't';
  }

  lemma {:induction false} SelectHas(qdir: string, names: seq<string>, t: int, n: string)
    ensures qdir + n in Select(qdir, names, t) <==> n in names && Listed(n, t)
  {
    if names != [] {
      var front, last := names[..|names| - 1], names[|names| - 1];
      SelectHas(qdir, front, t, n);
      assert names == front + [last];
      assert (qdir + last)[|qdir|..] == last && (qdir + n)[|qdir|..] == n;
    }
  }
}
