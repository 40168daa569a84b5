/** The sections a job manager adds to a job in memory when a try starts and when it ends, and what it decides then. */
module JobTry {
  import opened JobTypes
  import Protocol

  // Values of errno.h and signal.h on Linux.
  const EAGAIN := 11
  const EINPROGRESS := 115
  const SIGCONT := 18

  // What the protocol calls the ending of a child with this signal and status.
  function EndingOf(xsig: nat, xstat: nat): Protocol.Ending {
    if (xsig == 0 && xstat == EAGAIN) || (xsig == SIGCONT && xstat == 0) then Protocol.Again
    else if xsig == 0 && xstat == EINPROGRESS then Protocol.InProgress
    else Protocol.Finished
  }

  // A loaded job file: its tries, and where its name puts it.
  class Job {
    const id: JobId
    var state: JobState
    var runTime: int
    var tryCount: nat
    var tryLimit: nat
    var sections: seq<Protocol.Rec>
    var ties: seq<JobId>
    var closed: bool

    // As load() leaves it: the try count is the Try-Count of the last section.
    constructor (p: Protocol.Path, c: Protocol.Content)
      requires c.job == p.job
      ensures Where() == p && What() == c && Loaded()
    {
      id, state, runTime := p.job, p.st, p.time;
      sections, ties, tryLimit, closed := c.recs, c.ties, c.limit, true;
      tryCount := if |c.recs| > 0 then c.recs[|c.recs| - 1].n else 0;
    }

    function Where(): Protocol.Path
      reads this
    {
      Protocol.Path(state, runTime, id)
    }

    function What(): Protocol.Content
      reads this
    {
      Protocol.Content(id, sections, ties, tryLimit)
    }

    predicate Loaded()
      reads this
    {
      tryCount == Protocol.TryCount(sections)
    }

    // The part of run_a_job that prepares a try.
    method StartTry()
      requires Loaded()
      modifies this
      ensures Loaded() && tryCount == old(tryCount) + 1 && !closed
      ensures Where() == old(Where()).(st := Run)
      ensures What() == old(What()).(recs := Protocol.Begin(old(sections)))
    {
      if |sections| > 0 && sections[|sections| - 1].Output? {
        sections := sections + [Protocol.Result(tryCount)];
      }
      tryCount := tryCount + 1;
      sections := sections + [Protocol.Output(tryCount)];
      closed := false;
      state := Run;
    }

    // try_done, up to the store.
    method TryDone(xsig: nat, xstat: nat, now: int)
      requires Loaded()
      modifies this
      ensures Loaded() && tryCount == old(tryCount)
      ensures Where() == Protocol.AfterTry(now, old(Where()), old(What()), EndingOf(xsig, xstat))
      ensures What() == old(What()).(recs := old(sections) + [Protocol.Result(old(tryCount))])
      ensures closed <==> state != Pend
    {
      var retry := tryCount < tryLimit && ((xsig == 0 && xstat == EAGAIN) || (xsig == SIGCONT && xstat == 0));
      var btied := tryCount < tryLimit && xsig == 0 && xstat == EINPROGRESS;
      sections := sections + [Protocol.Result(tryCount)];
      closed := !retry;
      if retry { runTime := now + 60 * tryCount; }
      state := if retry then Pend else if btied then Tied else Done;
      if state == Done { runTime := now; }
    }
  }
}
