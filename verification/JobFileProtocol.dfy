/**
 The job file object and the protocol: what the methods of JobFile do to paths and inodes is what the protocol's steps
 do, with name() telling which path has which name.
 */
module JobFileProtocol {
  import opened JobTypes
  import opened Protocol
  import JobName
  import JobFile

  // What never changes over a job's life.
  datatype Who = Who(queue: string, priority: int, submitter: string)

  datatype Site = Site(jobdir: string, who: map<JobId, Who>)

  function Located(site: Site, p: Path): JobName.Located {
    var w := if p.job in site.who then site.who[p.job] else Who("", 0, "");
    JobName.Located(w.queue, p.st, JobName.Parts(p.time, w.priority, p.job, w.submitter))
  }

  function NameOf(site: Site, p: Path): string { JobName.Name(site.jobdir, Located(site, p)) }

  predicate Nameable(site: Site, p: Path) {
    && p.job in site.who && JobName.GoodLocated(Located(site, p))
    && (site.jobdir == "" || site.jobdir[|site.jobdir| - 1] == '/')
    && |JobName.FullName(site.jobdir, Located(site, p))| <= JobName.PATH_MAX
  }

  // A path of the protocol has one name, and no other path has it.
  lemma OneName(site: Site, p: Path, q: Path)
    requires Nameable(site, p) && Nameable(site, q)
    ensures NameOf(site, p) == NameOf(site, q) <==> p == q
  {
    hide JobName.Name, JobName.GoodLocated, JobName.FullName;
    JobName.NamesAreDistinct(site.jobdir, Located(site, p), Located(site, q));
  }

  // The directory of the file system is that of the protocol.
  ghost predicate Matches(site: Site, files: map<string, nat>, paths: map<Path, Inode>) {
    && (forall p | p in paths :: Nameable(site, p) && NameOf(site, p) in files && files[NameOf(site, p)] == paths[p])
    && (forall n | n in files :: exists p :: p in paths && NameOf(site, p) == n)
  }

  lemma MatchesAt(site: Site, files: map<string, nat>, paths: map<Path, Inode>, p: Path)
    requires Matches(site, files, paths) && Nameable(site, p)
    ensures NameOf(site, p) in files <==> p in paths
    ensures p in paths ==> files[NameOf(site, p)] == paths[p]
  {
    if NameOf(site, p) in files {
      var q :| q in paths && NameOf(site, q) == NameOf(site, p);
      OneName(site, p, q);
    }
  }

  // The two directions of Matches for one path and one name.
  ghost predicate PathMatches(site: Site, files: map<string, nat>, paths: map<Path, Inode>, p: Path)
    requires p in paths
  {
    Nameable(site, p) && NameOf(site, p) in files && files[NameOf(site, p)] == paths[p]
  }

  lemma MatchesMade(site: Site, files: map<string, nat>, paths: map<Path, Inode>)
    requires forall p | p in paths :: PathMatches(site, files, paths, p)
    requires forall n | n in files :: exists p :: p in paths && NameOf(site, p) == n
    ensures Matches(site, files, paths)
  {
    hide Nameable, NameOf;
  }

  lemma WriteMatches(site: Site, files: map<string, nat>, paths: map<Path, Inode>, p: Path, i: Inode)
    requires Matches(site, files, paths) && Nameable(site, p)
    ensures Matches(site, files[NameOf(site, p) := i], paths[p := i])
  {
    hide Nameable, NameOf;
    var files', paths' := files[NameOf(site, p) := i], paths[p := i];
    forall q | q in paths'
      ensures PathMatches(site, files', paths', q)
    {
      assert Nameable(site, q);
      OneName(site, p, q);
    }
    forall n | n in files'
      ensures exists q :: q in paths' && NameOf(site, q) == n
    {
      if n in files {
        var q :| q in paths && NameOf(site, q) == n;
        assert q in paths';
      } else {
        assert p in paths';
      }
    }
    MatchesMade(site, files', paths');
  }

  lemma RemoveMatches(site: Site, files: map<string, nat>, paths: map<Path, Inode>, p: Path)
    requires Matches(site, files, paths) && p in paths
    ensures Matches(site, files - {NameOf(site, p)}, paths - {p})
  {
    hide Nameable, NameOf;
    assert Nameable(site, p);
    var files', paths' := files - {NameOf(site, p)}, paths - {p};
    forall q | q in paths'
      ensures PathMatches(site, files', paths', q)
    {
      assert Nameable(site, q);
      OneName(site, p, q);
    }
    forall n | n in files'
      ensures exists q :: q in paths' && NameOf(site, q) == n
    {
      var q :| q in paths && NameOf(site, q) == n;
      assert q in paths';
    }
    MatchesMade(site, files', paths');
  }

  // rename(2) on both sides.
  lemma MoveMatches(site: Site, files: map<string, nat>, paths: map<Path, Inode>, from: Path, to: Path)
    requires Matches(site, files, paths) && from in paths && Nameable(site, to)
    ensures NameOf(site, from) in files
    ensures Matches(site, JobFile.Moves(files, NameOf(site, from), NameOf(site, to)),
                    (paths - {from})[to := paths[from]])
  {
    assert Nameable(site, from) && files[NameOf(site, from)] == paths[from];
    hide *;
    RemoveMatches(site, files, paths, from);
    WriteMatches(site, files - {NameOf(site, from)}, paths - {from}, to, paths[from]);
    MovesAre(files, NameOf(site, from), NameOf(site, to));
  }

  lemma MovesAre(files: map<string, nat>, from: string, to: string)
    requires from in files
    ensures JobFile.Moves(files, from, to) == (files - {from})[to := files[from]]
  {
  }

  // ---- the methods ----

  // jf is the object of a handle whose file is at from; it holds the lock and is to go to another path.
  ghost predicate Stands(site: Site, jf: JobFile.JobFile, fs: JobFile.FileSystem, paths: map<Path, Inode>, from: Path,
                         to: Path)
    reads jf, fs
  {
    && jf.Valid(fs) && Matches(site, fs.files, paths) && from != to && Nameable(site, from) && Nameable(site, to)
    && jf.oldnam == NameOf(site, from) && jf.oldnam != "" && jf.Name() == NameOf(site, to) && jf.lockfd.Some?
  }

  // The paths of the protocol after a rename, or after one that is refused or finds no file.
  function Renamed(paths: map<Path, Inode>, from: Path, to: Path, renamed: bool): map<Path, Inode> {
    if renamed && from in paths then (paths - {from})[to := paths[from]] else paths
  }

  lemma RepathPaths(s: State, h: Hid, to: Path)
    requires h in s.handles && forall p | p in s.files :: s.files[p] in s.data
    ensures Repath(s, h, to).files == Renamed(s.files, s.handles[h].name, to, true)
    ensures Close(s, h).files == Renamed(s.files, s.handles[h].name, to, false)
  {
  }

  lemma StorePaths(s: State, h: Hid, to: Path, c: Content, ino: Inode, renamed: bool)
    requires h in s.handles
    ensures var from := s.handles[h].name;
            var s' := Store(s, h, to, c, ino, renamed);
            && s'.files == (if from in s.files then Renamed(s.files, from, to, renamed) else s.files[from := ino])
            && s'.data == s.data[(if from in s.files then s.files[from] else ino) := c]
  {
  }

  // What the names say about the directory before the step and after it.
  lemma Apart(site: Site, files: map<string, nat>, paths: map<Path, Inode>, from: Path, to: Path, ino: Inode)
    requires Matches(site, files, paths) && Nameable(site, from) && Nameable(site, to) && from != to
    ensures NameOf(site, from) in files <==> from in paths
    ensures from in paths ==> files[NameOf(site, from)] == paths[from]
    ensures NameOf(site, from) != NameOf(site, to)
    ensures from in paths ==>
              Matches(site, JobFile.Moves(files, NameOf(site, from), NameOf(site, to)), Renamed(paths, from, to, true))
    ensures Matches(site, files[NameOf(site, from) := ino], paths[from := ino])
  {
    hide Matches, NameOf, Nameable, JobFile.Moves;
    MatchesAt(site, files, paths, from);
    OneName(site, from, to);
    if from in paths { MoveMatches(site, files, paths, from, to); }
    WriteMatches(site, files, paths, from, ino);
  }

  lemma StandsMeans(site: Site, jf: JobFile.JobFile, fs: JobFile.FileSystem, paths: map<Path, Inode>, from: Path,
                    to: Path, sys: JobFile.Sys)
    requires Stands(site, jf, fs, paths, from, to)
    ensures jf.Valid(fs) && Matches(site, fs.files, paths) && from != to && Nameable(site, from) && Nameable(site, to)
    ensures jf.oldnam == NameOf(site, from) && jf.oldnam != "" && jf.Name() == NameOf(site, to)
    ensures jf.CanMove(fs, sys) <==> jf.oldnam in fs.files && sys.renames
  {
    hide Matches, NameOf, Nameable, JobFile.JobFile.Name, JobFile.JobFile.Valid;
  }

  // repath() moves what the protocol's step moves, if rename(2) works on a file that is there, and nothing if not.
  method RepathRefines(jf: JobFile.JobFile, fs: JobFile.FileSystem, sys: JobFile.Sys, ghost site: Site,
                       ghost paths: map<Path, Inode>, ghost from: Path, ghost to: Path)
    requires Stands(site, jf, fs, paths, from, to)
    modifies jf`oldnam, jf`lockfd, jf`error, fs`files, fs`fds, fs`locks, fs`nextFd
    ensures Matches(site, fs.files, Renamed(paths, from, to, sys.renames))
    ensures jf.error.Ok? <==> sys.renames && from in paths
  {
    hide Matches, Nameable, NameOf, Located, Stands, Renamed, JobName.Name, JobFile.Moves, JobFile.Written;
    StandsMeans(site, jf, fs, paths, from, to, sys);
    Apart(site, fs.files, paths, from, to, 0);
    RenamedMeans(paths, from, to, sys.renames);
    jf.Repath(fs, sys);
  }

  lemma RenamedMeans(paths: map<Path, Inode>, from: Path, to: Path, renamed: bool)
    ensures Renamed(paths, from, to, renamed) == if renamed then Renamed(paths, from, to, true) else paths
    ensures from !in paths ==> Renamed(paths, from, to, renamed) == paths
  {
  }

  // store() does to paths and contents what the protocol's step does, also when the rename is refused or there is
  // no file.
  method StoreRefines(jf: JobFile.JobFile, fs: JobFile.FileSystem, sys: JobFile.Sys, contents: string,
                      ghost site: Site, ghost paths: map<Path, Inode>, ghost from: Path, ghost to: Path)
    requires Stands(site, jf, fs, paths, from, to) && sys.creates && sys.writes
    modifies jf`oldnam, jf`lockfd, jf`error, fs
    ensures Matches(site, fs.files, if from in paths then Renamed(paths, from, to, sys.renames)
                                    else paths[from := old(fs.nextInode)])
    ensures fs.text == old(fs.text)[(if from in paths then paths[from] else old(fs.nextInode)) := contents]
  {
    hide Matches, Nameable, NameOf, Located, Stands, Renamed, JobName.Name, JobFile.Moves, JobFile.Written;
    StandsMeans(site, jf, fs, paths, from, to, sys);
    Apart(site, fs.files, paths, from, to, fs.nextInode);
    RenamedMeans(paths, from, to, sys.renames);
    WrittenWhole(contents, sys);
    MovedAt(fs.files, jf.oldnam, jf.Name());
    jf.Store(fs, sys, contents);
  }

  lemma MovedAt(files: map<string, nat>, from: string, to: string)
    ensures from in files ==>
              to in JobFile.Moves(files, from, to) && JobFile.Moves(files, from, to)[to] == files[from]
  {
  }

  lemma WrittenWhole(contents: string, sys: JobFile.Sys)
    requires sys.writes
    ensures JobFile.Written(contents, sys) == contents
  {
  }
}
