/**
 One job file object and the file system: how lock, repath and store move and write the file, and what they do when
 the object's old name is stale. Steps of other processes in between are the subject of module Protocol.
 */
module JobFile {
  import opened JobTypes
  import JobName

  datatype Error = Ok | Moved | Locked | OpenError | FlockError | RenameError | WriteError

  // How the system calls fare that are free to fail. The write of a file begins with cutting it to nothing; if it
  // fails after that, the first kept characters are in the file.
  datatype Sys = Sys(opens: bool, flocks: bool, renames: bool, creates: bool, writes: bool, kept: nat)

  // What a write leaves in the file.
  function Written(contents: string, sys: Sys): string {
    if sys.writes || |contents| <= sys.kept then contents else contents[..sys.kept]
  }

  class FileSystem {
    // Paths, contents of inodes, open file descriptors, and the descriptors that hold locks.
    var files: map<string, nat>
    var text: map<nat, string>
    var fds: map<nat, nat>
    var locks: map<nat, nat>
    var nextFd: nat
    var nextInode: nat

    ghost predicate Valid()
      reads this
    {
      (forall p | p in files :: files[p] in text) && (forall i | i in text :: i < nextInode) &&
      (forall d | d in fds :: d < nextFd) &&
      (forall i | i in locks :: locks[i] in fds && fds[locks[i]] == i)
    }

    constructor ()
      ensures Valid() && files == map[] && locks == map[]
    {
      files, text, fds, locks, nextFd, nextInode := map[], map[], map[], map[], 0, 0;
    }

    method Open(path: string) returns (fd: nat)
      requires Valid() && path in files
      modifies this`fds, this`nextFd
      ensures Valid() && fd !in old(fds) && fds == old(fds)[fd := files[path]] && nextFd > old(nextFd)
      ensures forall i | i in locks :: locks[i] != fd
    {
      fd := nextFd;
      fds := fds[fd := files[path]];
      nextFd := nextFd + 1;
    }

    // Closing a descriptor gives up the lock it holds.
    method Close(fd: nat)
      requires Valid() && fd in fds
      modifies this`fds, this`locks
      ensures Valid() && fds == old(fds) - {fd}
      ensures locks == map i | i in old(locks) && old(locks)[i] != fd :: old(locks)[i]
    {
      fds := fds - {fd};
      locks := map i | i in locks && locks[i] != fd :: locks[i];
    }

    method Rename(from: string, to: string)
      requires Valid() && from in files && from != to
      modifies this`files
      ensures Valid() && files == (old(files) - {from})[to := old(files)[from]]
    {
      files := (files - {from})[to := files[from]];
    }

    // fopen with "w", and the write: an existing file keeps its inode.
    method Write(path: string, contents: string)
      requires Valid()
      modifies this`files, this`text, this`nextInode
      ensures Valid()
      ensures path in old(files) ==> files == old(files) && text == old(text)[files[path] := contents]
      ensures path !in old(files) ==>
                old(nextInode) !in old(text) && files == old(files)[path := old(nextInode)] &&
                text == old(text)[old(nextInode) := contents]
    {
      if path in files {
        text := text[files[path] := contents];
      } else {
        files := files[path := nextInode];
        text := text[nextInode := contents];
        nextInode := nextInode + 1;
      }
    }
  }

  // What repath makes of the paths.
  function Moves(files: map<string, nat>, from: string, to: string): map<string, nat>
    requires from in files
  {
    (files - {from})[to := files[from]]
  }

  // A rename keeps all files there are, if and only if it does not hit an existing one.
  lemma MoveConservesIff(files: map<string, nat>, from: string, to: string)
    requires from in files && from != to
    requires forall p, q | p in files && q in files && p != q :: files[p] != files[q]
    ensures Moves(files, from, to).Values == files.Values <==> to !in files
  {
    var after := Moves(files, from, to);
    if to in files {
      assert files[to] in files.Values && files[to] !in after.Values;
    } else {
      forall i
        ensures i in after.Values <==> i in files.Values
      {
        if i in files.Values {
          var p :| p in files && files[p] == i;
          assert after[if p == from then to else p] == i;
        }
      }
    }
  }

  class JobFile {
    const jobdir: string
    var where: JobName.Located
    var oldnam: string
    var lockfd: Option<nat>
    var error: Error

    constructor (jobdir: string, where: JobName.Located, oldnam: string)
      ensures this.jobdir == jobdir && this.where == where && this.oldnam == oldnam && lockfd.None? && error.Ok?
    {
      this.jobdir, this.where, this.oldnam := jobdir, where, oldnam;
      lockfd, error := None, Error.Ok;
    }

    function Name(): string
      reads this
    {
      JobName.Name(jobdir, where)
    }

    ghost predicate Valid(fs: FileSystem)
      reads this, fs
    {
      fs.Valid() && (lockfd.Some? ==> lockfd.value in fs.fds)
    }

    // Locks the file that has the old name now. A lock already held is not looked at again.
    method Lock(fs: FileSystem, sys: Sys)
      requires Valid(fs)
      modifies this`lockfd, this`error, fs`fds, fs`locks, fs`nextFd
      ensures Valid(fs)
      ensures error == (if old(lockfd).Some? then Error.Ok
                        else if oldnam !in fs.files then Moved
                        else if !sys.opens then OpenError
                        else if fs.files[oldnam] in old(fs.locks) then Locked
                        else if !sys.flocks then FlockError
                        else Error.Ok)
      ensures !error.Ok? || old(lockfd).Some? ==> lockfd == old(lockfd) && fs.locks == old(fs.locks)
      ensures error.Ok? && old(lockfd).None? ==>
                lockfd.Some? && lockfd.value !in old(fs.fds) && fs.fds[lockfd.value] == fs.files[oldnam] &&
                fs.locks == old(fs.locks)[fs.files[oldnam] := lockfd.value]
      ensures forall d | d in old(fs.fds) :: d in fs.fds && fs.fds[d] == old(fs.fds)[d]
    {
      error := Error.Ok;
      if lockfd.Some? { return; }
      if oldnam !in fs.files {
        error := Moved;
        return;
      }
      if !sys.opens {
        error := OpenError;
        return;
      }
      var fd := fs.Open(oldnam);
      if fs.files[oldnam] in fs.locks || !sys.flocks {
        error := if fs.files[oldnam] in fs.locks then Locked else FlockError;
        ghost var locks0 := fs.locks;
        fs.Close(fd);
        assert fs.locks == locks0;
        return;
      }
      fs.locks := fs.locks[fs.files[oldnam] := fd];
      lockfd := Some(fd);
    }

    method Unlock(fs: FileSystem)
      requires Valid(fs)
      modifies this`lockfd, this`error, fs`fds, fs`locks
      ensures Valid(fs) && lockfd.None? && error.Ok?
      ensures fs.locks == if old(lockfd).None? then old(fs.locks)
                          else map i | i in old(fs.locks) && old(fs.locks)[i] != old(lockfd).value :: old(fs.locks)[i]
      ensures old(lockfd).None? ==> fs.fds == old(fs.fds)
      ensures old(lockfd).Some? ==> fs.fds == old(fs.fds) - {old(lockfd).value}
    {
      if lockfd.Some? {
        fs.Close(lockfd.value);
        lockfd := None;
      }
      error := Error.Ok;
    }

    // Whether lock and rename get through.
    ghost predicate CanMove(fs: FileSystem, sys: Sys)
      reads this, fs
    {
      oldnam in fs.files && sys.renames &&
      (lockfd.Some? || (sys.opens && sys.flocks && fs.files[oldnam] !in fs.locks))
    }

    // Moves the file to where the object says it belongs. All or nothing: the paths change only if it gets
    // through, and then only this file's. The lock is kept if the job is going to run.
    method Repath(fs: FileSystem, sys: Sys)
      requires Valid(fs)
      modifies this`oldnam, this`lockfd, this`error, fs`files, fs`fds, fs`locks, fs`nextFd
      ensures Valid(fs)
      ensures var moves := old(oldnam) != "" && old(oldnam) != Name() && old(CanMove(fs, sys));
              fs.files == (if moves then Moves(old(fs.files), old(oldnam), Name()) else old(fs.files)) &&
              oldnam == (if moves then Name() else old(oldnam)) &&
              (moves ==> error.Ok? && (lockfd.None? <==> where.state != Run)) &&
              (!moves && old(oldnam) != "" && old(oldnam) != Name() ==> !error.Ok?)
    {
      hide JobName.Name;
      if oldnam == "" { return; }
      var newnam := Name();
      if oldnam != newnam {
        Lock(fs, sys);
        if !error.Ok? { return; }
        if oldnam !in fs.files || !sys.renames {
          error := RenameError;
          return;
        }
        fs.Rename(oldnam, newnam);
        oldnam := newnam;
        if where.state != Run { Unlock(fs); }
      }
      error := Error.Ok;
    }

    // Moves the file if that is called for, and then writes it, whether the move got through or not. So a second
    // file of the job comes up exactly if the object has an old name and no file has that name any more; and the
    // error of the move is lost. A write that fails leaves a cut file.
    method Store(fs: FileSystem, sys: Sys, contents: string)
      requires Valid(fs)
      modifies this`oldnam, this`lockfd, this`error, fs
      ensures Valid(fs) && (error.Ok? <==> sys.creates && sys.writes)
      ensures var moves := old(oldnam) != "" && old(oldnam) != Name() && old(CanMove(fs, sys));
              var files := if moves then Moves(old(fs.files), old(oldnam), Name()) else old(fs.files);
              oldnam == (if old(oldnam) == "" || moves then Name() else old(oldnam)) &&
              if !sys.creates then fs.files == files && fs.text == old(fs.text)
              else if (if old(oldnam) == "" then Name() else old(oldnam)) in old(fs.files) then
                oldnam in files && fs.files == files && fs.text == old(fs.text)[files[oldnam] := Written(contents, sys)]
              else
                fs.files == files[oldnam := old(fs.nextInode)] &&
                fs.text == old(fs.text)[old(fs.nextInode) := Written(contents, sys)]
    {
      hide JobName.Name;
      Repath(fs, sys);
      if oldnam == "" { oldnam := Name(); }
      if !sys.creates {
        error := WriteError;
        return;
      }
      fs.Write(oldnam, Written(contents, sys));
      error := if sys.writes then Error.Ok else WriteError;
    }
  }
}
