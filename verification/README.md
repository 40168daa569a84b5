# Verified model of `job`, the Linux batch facility

`job` keeps its whole state in a directory tree. A job is one file; the directory the file is in is the job's state
(hold, pend, run, tied, kill, done), and its name tells run time, priority, id and submitter. Any number of job
managers on different nodes contend for the files with `open`, `flock` and `rename`; the output of a job is appended
to its own file. This project models that protocol and the code it rests on, and proves what the code promises about
it.

| files | what they model |
|---|---|
| `Protocol*.dfy` | the steps of managers and submitters on shared job files as a transition system with crashes; its invariants (`ProtocolLocks`, `ProtocolTries`), the properties of all its runs (`ProtocolTheorems`), what runs can reach (`ProtocolRuns`), and what a refused move to run does to them (`ProtocolFaults`) |
| `JobFile.dfy`, `JobFileProtocol.dfy`, `JobTry.dfy` | the job file object with its old name and lock, over a file system; how its paths and contents are those of the protocol; the sections and decisions of a try |
| `Multipart*.dfy` | the job file format: the line machine that reads it and the printer that writes it (`Multipart`), lines and header lines (`MultipartLines`), sections (`MultipartTrips`), case-insensitive maps (`MultipartMaps`), whole files (`MultipartTheorems`) |
| `JobName.dfy`, `QueueScan.dfy` | job file names, directory scans and the time filter on names |
| `Launch.dfy`, `Scheduler.dfy`, `QueueManager.dfy` | child processes and the reaper, the choice of jobs to run, the supervision of queues |
| `SeqNum.dfy` | sequence numbers and job ids |
| `Strings.dfy`, `ShellQuote.dfy` | substitution, splitting, quoting for the shell |
| `ArgvRotation.dfy`, `LineWrapper.dfy` | the rotation of argv and the ring-buffered line wrapper of the option parser |

Where the source changes state in place there are classes with methods, each proved against functions on values; the
properties are lemmas about those functions. A method's oracle parameters (outcomes of system calls, deaths of
children, verdicts on options) stand for whatever the environment may do.

## Assumptions of the protocol model

- A manager that dies loses its locks and takes its children with it in one step, as `kill_kids` asks the kernel to
  (src/jobman.cxx:692). This does not hold for jobs of other users: the death signal is set at
  src/job/launch.cxx:139, and the kernel clears it at the `setuid` that follows at src/job/launch.cxx:181.
- All nodes share one clock, and it does not go back.
- `store()` renames, gives up the lock, and then rewrites (src/job/file.cxx:376, 432-435). For the destinations pend,
  tied and done the rewrite is folded into the rename; for run, where the lock is kept, they are two steps.
- Writes of job files are not torn, and `load()` reads a whole file. Inode numbers and job ids of new files are new;
  for the ids see `SeqNum.NumbersAreUnique` and `SeqNum.IdsCollideIff`.
- Every `rename` may be refused although its source is there. Runs take up every such refusal (`renamed` in the steps)
  but one: in them the move to run works (`Faultless`). What a refused move to run does, and that it is the only one
  that breaks mutual exclusion, is said by `ExclusionIffRenamed` and `LaunchKeepsOneFileIffRenamed`.

## What the code does not do

Found while proving; each is stated exactly by the member named.

- A body whose first line starts with `#` does not survive a store and a load: leading lines of that kind are taken
  for header comments (`EveryRoundTripIff`). `closed` comes back if and only if it was unset or there is a boundary,
  so a job file of one section without a boundary never loads as closed (`ClosedFlagIff`).
- When the move to run is refused, the job is launched all the same. Its log file then looks like the file of a dead
  job; another manager takes it up, and two children of one job can run at a time. From any move to run on, mutual
  exclusion is safe if and only if the rename works (`ExclusionIffRenamed`).
- `store()` ignores the error of `repath()`. It makes a second file of the job exactly if the old name has gone
  (`JobFile.JobFile.Store`), and a launch after a refused rename makes one as well (`LaunchKeepsOneFileIffRenamed`).
- A rename onto an existing name destroys a file; no other rename does (`MoveConservesIff`).
- The time limit of a poll is cut to 32 bits. Of every 2^32 seconds the limit is negative in the second half, first
  from 2038 to 2106, and no job is selected then; in the first half it is the time less a multiple of 2^32, and compared as a text
  (`TimeFilterAtAnyTime`).
- A process that stops while it writes a sequence number can set the number in the file back, when counting has just
  carried past the bytes that were written; numbers are handed out again if and only if it falls below the last one
  handed out (`UniqueIff`). If the file was empty, a part of a number in it keeps every process from ever getting one
  (`NobodyGetsThroughIff`).
- `jobcompare` is an order that `std::sort` may use only if no malformed name is among names of different rank
  (`StrictWeakIff`).
- With a negative `maxjobs`, or more children than `maxjobs`, the unsigned `need` wraps, and jobs are started until
  nrun - maxjobs of them have been turned down. With one `maxjobs` that is not negative this cannot come about, as
  no call lets the count grow beyond it (`Scheduler.Solicit`).
- `failed_queues` never shrinks, although the comment at src/queman.cxx:217 says that it should: gone queues are
  computed from the known ones only (`FailedNeverShrinks`).
- `qqif` leaves `"` and `$` alone, and an empty word, a leading `#` or `~`; such a text is not read back as it was
  (`QqifIsOneWordIff`).
- A site without a zone can give out an id of a site with one (`IdsCollideIff`).
- An `argc` that is too large is only noticed when the terminating null pointer is reached
  (`ArgvRotation.Workhorse`).

## Model

| member | source | states |
|---|---|---|
| `ProtocolTheorems.RunKeeps` | src/jobman.cxx:132-757 | both invariants, on locks and files and on tries, hold in every state of every run of any managers and submitters, with crashes between any two steps and refused renames, but for that to run |
| `ProtocolLocks.StepKeeps` | src/job/file.cxx:312-448 | every step, refused renames included, keeps: one file per job, at most one lock holder per inode, a holder whose name leads to the inode it locked |
| `ProtocolTries.StepKeepsTries` | src/jobman.cxx:147-172 | every step, refused renames included, keeps the order of the try records, the try limit and the back-off |
| `ProtocolTheorems.MutualExclusion` | src/jobman.cxx:666-715 | at most one handle of all managers has a live child for a job; it holds the lock on the inode of the job's only file, which is in run |
| `ProtocolTheorems.Conservation` | src/job/file.cxx:358-379 | a job has exactly one file if and only if it was created and neither purged nor withdrawn by its submitter, whatever stale names are used |
| `ProtocolTheorems.FilesMoveAlongEdges` | src/mkjob.cxx:219-240 | a step leaves a file alone or renames the same inode along hold-pend, pend-run/tied/done, run-pend/tied/done, tied-done; only a purge takes it from done, only its submitter from hold |
| `ProtocolTheorems.GroupCompletionIsSound` | src/jobman.cxx:335-406 | a tied job gets to done only if every job it is tied to had reached done, although directories are read name by name while children move |
| `ProtocolTheorems.UntiedGroupStaysTied` | src/jobman.cxx:205-270 | a group with a tie to job 0, for a child that could not be made, never gets to done |
| `ProtocolTheorems.TryRecords` | src/jobman.cxx:551-565 | the sections after section 0 always read output 1, result 1, output 2, ..., and the loaded try count is the number of outputs, also after crashes and resurrections |
| `ProtocolTheorems.RetryBound` | src/jobman.cxx:147-171 | the number of tries is at most try_limit plus the number of resurrections |
| `ProtocolTheorems.Backoff` | src/jobman.cxx:165-165 | while try k + 1 of a job that was never resurrected is running, at least 30 k (k + 1) seconds have passed since the first try was accounted for, which was not before its child had ended |
| `ProtocolFaults.ExclusionIffRenamed` | src/jobman.cxx:666-715 | at any move to run in any run: all that can follow it keeps to one live child a job if and only if the rename works |
| `ProtocolFaults.SomeFaultBreaksExclusion` | src/job/file.cxx:367-373 | from a reachable state, a refused move to run leads to two live children of one job |
| `ProtocolFaults.LaunchKeepsOneFileIffRenamed` | src/jobman.cxx:666-715 | after a launch the job has one file if and only if the rename to run worked |
| `ProtocolRuns.SomeRunLaunches` | src/jobman.cxx:496-723 | a state with a launched child is reachable, so the theorems are about something |
| `ProtocolTries.TryCountCountsOutputs` | src/job/file.cxx:278-278 | the Try-Count of the last section is the number of outputs |
| `ProtocolTries.BeginGrammar` | src/jobman.cxx:551-565 | starting a try keeps the order of the records, with a made-up result for a try that got none |
| `JobTry.Job.StartTry` | src/jobman.cxx:551-623 | the sections and try count after preparing a try are those of the protocol's step |
| `JobTry.Job.TryDone` | src/jobman.cxx:147-171 | state, run time, result section and closed flag after a try, for every exit signal and status, are those of the protocol's step |
| `JobFile.JobFile.Lock` | src/job/file.cxx:312-333 | which error for which state of path and lock; on success the descriptor holds the lock of the inode the old name leads to, otherwise no lock changes |
| `JobFile.JobFile.Unlock` | src/job/file.cxx:398-404 | just the lock of this object is given up |
| `JobFile.JobFile.Repath` | src/job/file.cxx:358-379 | all or nothing: exactly if lock and rename get through, this file and no other changes its name; the lock is kept if and only if the job is to run |
| `JobFile.JobFile.Store` | src/job/file.cxx:406-448 | contents and paths after a store in all cases; a new file appears if and only if the old name (or, without one, the new one) leads nowhere; the error of the move is lost, and a failed write leaves a cut file |
| `JobFile.MoveConservesIff` | src/job/file.cxx:367-373 | a rename keeps all files if and only if its target does not exist |
| `JobFileProtocol.OneName` | src/job/file.cxx:335-347 | two paths of the protocol have the same file name if and only if they are the same |
| `JobFileProtocol.RepathRefines` | src/job/file.cxx:358-379 | a repath of a locked file leaves the directory as the protocol has it after its rename, refused or not |
| `JobFileProtocol.StoreRefines` | src/job/file.cxx:406-448 | a store leaves the directory and the contents as the protocol has them, also after a refused rename and when the file has gone |
| `Multipart.File.Load` | src/job/multipart.cxx:78-233 | the loop over lines, with its flags and errors, computes the line machine on the file's text |
| `Multipart.File.ScanHeader` | src/job/multipart.cxx:177-219 | the five-state scanner of tag:value lines |
| `Multipart.File.ToString` | src/job/multipart.cxx:251-284 | the printed text is that of the sections, after a boundary was made up if one was needed |
| `MultipartTheorems.RoundTripIff` | src/job/multipart.cxx:78-233 | loading the text of a closed object into an empty one gives the same boundary, the closed flag, and the same sections (an empty body being an absent one) if and only if no body starts with a # |
| `MultipartTheorems.ClosedLoads` | src/job/multipart.cxx:113-171 | what loading makes of any closed object: headers, the body without its leading # lines, and the substatus |
| `MultipartTheorems.SectionComesBackIff` | src/job/multipart.cxx:163-171 | one section comes back if and only if its body does not start with a # |
| `MultipartTheorems.EveryRoundTripIff` | src/job/multipart.cxx:78-233 | the boundary and the sections of every object come back, closed or not, with a boundary or without, if and only if no body starts with a # |
| `MultipartTheorems.ClosedFlagIff` | src/job/multipart.cxx:251-284 | the closed flag comes back if and only if it was unset or there is a boundary |
| `MultipartTheorems.OpenLoads` | src/job/multipart.cxx:147-228 | what loading makes of a file that no delimiter ends, its last body empty or not |
| `MultipartTheorems.AppendRefinement` | src/jobman.cxx:614-623 | text without a delimiter line appended to the file of an object whose last body is open loads as the same object with that text appended to that body; closed is not set |
| `MultipartTheorems.OutputStatus` | src/job/multipart.cxx:147-162 | the substatus of a whole job file with output appended is the text of the last line that starts with "## " of all body lines but the first of each body, and empty if there is none |
| `MultipartTrips.LastStatusCounts` | src/job/multipart.cxx:152-156 | of all body lines the last one that starts with "## " gives the substatus |
| `MultipartTrips.HeadersLoad` | src/job/multipart.cxx:177-228 | the printed header lines give back the headers, in order, and announce the boundary |
| `MultipartTrips.BodyGoesOn` | src/job/multipart.cxx:147-162 | in a body, any text without a delimiter line is appended as it is |
| `MultipartTrips.DelimitedLoad` | src/job/multipart.cxx:97-146 | a printed section and its delimiter load as that section; the newline before the delimiter belongs to the delimiter |
| `MultipartLines.FieldIsRead` | src/job/multipart.cxx:268-271 | the scanner reads tag and value back from every header line that is printed |
| `MultipartLines.ChunksConcat` | src/job/multipart.cxx:91-91 | fgets cuts a text that follows a newline as it would cut it alone |
| `MultipartMaps.ChunksKeepSorted` | src/job/multipart.cxx:218-221 | every load keeps each section sorted by folded tag with one field a key |
| `MultipartMaps.SameKeyIffSameFold` | src/job/string.cxx:316-320 | two tags are one key if and only if they are equal but for case |
| `MultipartMaps.FreshBoundaryIsAnnounced` | src/job/multipart.cxx:252-256 | the boundary that to_string makes up is the one its Content-Type makes a load use |
| `JobName.BaseNameParses` | src/job/file.cxx:74-91 | parse recovers run time, priority, id and submitter from every name that name() writes |
| `JobName.NameRoundTrip` | src/job/file.cxx:183-206 | _init_from_path recovers queue and state as well, from any path within PATH_MAX |
| `JobName.NamesAreDistinct` | src/job/file.cxx:335-347 | two paths are equal if and only if queue, state, run time, priority, id and submitter are |
| `JobName.TimeFilterIsNumeric` | src/job/queue.cxx:64-67 | for limits from 2001 to 2038 the string comparison holds if and only if the run time is not later |
| `JobName.TimeFilterAtAnyTime` | src/job/queue.cxx:64-79 | for every time t: the filter passes if and only if t mod 2^32 is below 2^31 and the run time passes that limit |
| `JobName.TimeFilterStopsIn2038` | src/job/queue.cxx:78-79 | from 2038 to 2106 it never passes |
| `JobName.DigitOrder` | src/job/queue.cxx:64-67 | on digit strings of one length the string order is the order of numbers |
| `QueueScan.Scanner.StateScanner` | src/job/queue.cxx:125-141 | one directory entry updates map and count |
| `QueueScan.Scanner.GetStatesOfJobs` | src/job/queue.cxx:96-119 | the scan, with its early end and its failures, over whatever the directories held when each was read |
| `QueueScan.LookupIsSound` | src/job/queue.cxx:96-141 | after a scan all jobs read as done if and only if done was read, it listed every one of them, and no earlier directory had filled the count |
| `QueueScan.SettledJobsAreFound` | src/job/queue.cxx:96-141 | jobs that are in done and nowhere else during the scan are found done |
| `QueueScan.GetJobsByState` | src/job/queue.cxx:75-93 | the listed names are those that pass the filter and do not start with a dot, in order |
| `QueueScan.PollListsDueJobs` | src/job/queue.cxx:75-93 | a poll lists a job file if and only if its run time has come |
| `Launch.Launcher.Start` | src/job/launch.cxx:119-231 | process table and history after each way a start can go, with no wake-up lost |
| `Launch.Launcher.ChildDies` | src/job/launch.cxx:324-326 | the death of a child sets the flag |
| `Launch.Launcher.ReapZombies` | src/job/launch.cxx:271-316 | with children dying during the loop: no zombie is left, every child dead before has its exit recorded and its callback called, no child is lost, and an unreaped death means that the flag is set |
| `Launch.Launcher.Running` | src/job/launch.cxx:255-262 | the count is the number of started and unreaped children |
| `Launch.ReapedKeepsTable` | src/job/launch.cxx:285-310 | a reaped child is found in the table, and the others stay there |
| `Launch.ExactlyOnce` | src/job/launch.cxx:285-315 | over any life of a launcher, a start that succeeded is completed once if its child has been reaped, and not at all before; then its callback is called if and only if it was given one |
| `QueueManager.Manager.QDone` | src/queman.cxx:119-138 | a manager process that has ended takes its queue, and no other, off the known queues |
| `QueueManager.Manager.Check` | src/queman.cxx:170-249 | afterwards every current queue is known or failed, the managers of just the gone queues are killed, and each known queue has exactly one process and is not failed |
| `QueueManager.FailedNeverShrinks` | src/queman.cxx:217-218 | taking the gone queues off the failed ones takes off nothing |
| `QueueManager.Diff` | src/job/string.cxx:287-293 | the elements of a that are not in b, in order |
| `QueueManager.Remove` | src/job/string.cxx:305-313 | the first instance is removed, and no other |
| `SeqNum.SeqNum.Next` | src/job/seqnum.cxx:101-182 | result, error and the bytes of the file after any pattern of short reads, short writes and errors |
| `SeqNum.NumbersAreUnique` | src/job/seqnum.cxx:101-182 | over any interleaving of processes that die or fail anywhere, results are strictly increasing in the order of the lock, below overflow, unless a torn write sets the file back behind a number handed out |
| `SeqNum.UniqueIff` | src/job/seqnum.cxx:154-168 | when a process stops in its write, all that can follow hands out new numbers only, if and only if the file was not set back below the last one |
| `SeqNum.TornIs` | src/job/seqnum.cxx:154-168 | the first k bytes of v written over v - 1 make v, or v - 256^k if the lowest k bytes of v are zero |
| `SeqNum.NobodyGetsThroughIff` | src/job/seqnum.cxx:129-144 | after a first write that stopped, no process ever gets a number if and only if a part of the number is in the file |
| `SeqNum.SomeRunGoesBack` | src/job/seqnum.cxx:154-168 | after 255 was handed out, a write of 256 that stops behind one byte leaves 0 |
| `SeqNum.StepKeeps` | src/job/seqnum.cxx:112-182 | only the lock holder is in the critical section; what it has read is still current and what it has written is in the file |
| `SeqNum.CallRefines` | src/job/seqnum.cxx:129-176 | the steps of the critical section together do what a call does |
| `SeqNum.IdsCollideIff` | src/job/file.cxx:114-126 | ids of two numbers and zones are equal if and only if number and zone are, or one has no zone and its number is the other's id |
| `Scheduler.Solicit` | src/jobman.cxx:726-757 | never more than maxjobs children unless there were more before; the jobs tried are the first of the sorted list, their number is exact, also when need wraps, and no job left is better than one tried |
| `Scheduler.NoBetterMeans` | src/jobman.cxx:91-103 | that one job is no better than another means priority first, then run time |
| `Scheduler.NamesCompare` | src/jobman.cxx:91-103 | jobcompare orders job file names by priority, then run time |
| `Scheduler.StrictWeakIff` | src/jobman.cxx:91-103 | jobcompare is a strict weak order on a set of names if and only if all are well-formed or none is less than another |
| `Scheduler.SortingExists` | src/jobman.cxx:743-745 | every list of names has an order that std::sort may leave: a permutation, sorted if all names are well-formed |
| `Strings.ReplaceAll` | src/job/string.cxx:252-264 | the loop in place is left-to-right substitution of non-overlapping occurrences, of the first n or all |
| `Strings.SubstFirst` | src/job/string.cxx:252-264 | text before the first occurrence is kept, and substitution goes on behind it |
| `Strings.Split` | src/job/string.cxx:165-178 | the pieces between delimiters, at most parts of them |
| `Strings.SplitThenJoin` | src/job/string.cxx:165-178 | joining the pieces gives the text back |
| `Strings.JoinThenSplit` | src/job/string.cxx:165-178 | splitting joined pieces without the delimiter gives the pieces back |
| `ShellQuote.Qq` | src/job/string.cxx:267-273 | the quoted text |
| `ShellQuote.QqIsOneWord` | src/job/string.cxx:267-273 | the word rules of POSIX.1-2017, XCU section 2.2, read qq(s) as one word, s, for every s without NUL |
| `ShellQuote.QqifIsOneWordIff` | src/job/string.cxx:276-280 | they read qqif(s) as the one word s if and only if it was quoted or s is not empty, has no quotation mark or dollar sign and starts with neither # nor ~ |
| `ShellQuote.BuildCommand` | src/jobman.cxx:571-577 | the loop makes the command followed by its arguments, quoted where they need it |
| `ShellQuote.CommandRoundTrip` | src/jobman.cxx:571-577 | that command line is read as the words of the command followed by the arguments, if each of these is quoted or plain |
| `ShellQuote.ArgsRoundTrip` | src/jobman.cxx:571-577 | arguments joined by blanks come back as the list they were, if each is quoted or plain |
| `ArgvRotation.Shift` | src/open/optionparser.hxx:1339-1347 | the slot behind count others is moved in front of them |
| `ArgvRotation.Workhorse` | src/open/optionparser.hxx:1504-1683 | argv becomes the marked slots in order followed by the others in order, what is behind the arguments is left alone, and the returned slice and the result are exact, in both modes, with any option arguments, errors and kinds of argc |
| `ArgvRotation.ArrangedIsPermutation` | src/open/optionparser.hxx:1513-1670 | the result is a permutation of the arguments |
| `ArgvRotation.PickKeepsOrder` | src/open/optionparser.hxx:1513-1670 | both halves are in the original order, with every slot in one of them |
| `ArgvRotation.MarksMean` | src/open/optionparser.hxx:1519-1541 | what is marked is an option, its argument or the terminator; everything behind the terminator, or behind the first non-option in POSIX mode, is a non-option |
| `LineWrapper.LineWrapper.Process` | src/open/optionparser.hxx:2317-2392 | the lines of the data go into the ring; exactly one line is written, or as many as the ring has no room for, oldest first, laid out with the indentation |
| `LineWrapper.LineWrapper.Flush` | src/open/optionparser.hxx:2287-2297 | everything accepted has been written, in order |
| `LineWrapper.LineWrapper.BufStore` | src/open/optionparser.hxx:2235-2240 | storing appends to the lines in the ring |
| `LineWrapper.LineWrapper.BufNext` | src/open/optionparser.hxx:2243-2246 | reading takes the oldest line |
| `LineWrapper.FindFit` | src/open/optionparser.hxx:2330-2358 | the byte loop finds the characters that fit |
| `LineWrapper.Decode` | src/open/optionparser.hxx:2334-2357 | length and width of one UTF-8 character, malformed ones included |
| `LineWrapper.LinesRejoin` | src/open/optionparser.hxx:2317-2392 | the lines, with the single dropped space at each split, are the text |
| `LineWrapper.LinesFit` | src/open/optionparser.hxx:2330-2388 | no line takes more screen columns than the width |
| `LineWrapper.BreakOnlyFullWords` | src/open/optionparser.hxx:2368-2386 | a word is broken only if its line has no space and no room for the next character |
| `LineWrapper.ColumnsAtMostBytes` | src/open/optionparser.hxx:2323-2323 | a text has no more columns than bytes |

## Left out

- `fork`, `exec` and the child's side of a launch, `wordexp`, process names, daemons: foreign calls; a launch and the end of a child are steps.
- The retry wrappers of src/job/isafe.cxx: system calls succeed or fail.
- Notification of users, logs, status texts, options of the programs, shell scripts: input and output.
- src/job/config.cxx: the header machine of the job file format in a simpler form.
- src/job-cfg.cxx, `rmjobq` and edits of the spool tree by hand: not part of the protocol.
- Dates (`tim2str`, `str2tim`): library behaviour; times are numbers.
- What is said to be unimplemented in the source: making the remote job for EINPROGRESS, arguments of job types, and repair of a group whose split was cut off by a crash.
- ProtocolTheorems.RunKeeps: runs have no refused rename to run; `ProtocolFaults.ExclusionIffRenamed` shows what is lost with one.
- Protocol: `jobman.cxx` is a transition system of atomic steps, not methods, since its subject is the interleaving; names leave out queue, priority and submitter, which never change; kill files are not modelled; a scan may take up names a manager would skip as its own.
- ProtocolTheorems.Backoff: counts from the step of try_done for the first try, as the code does, and is about jobs that were never resurrected.
- ProtocolTheorems.GroupCompletionIsSound: a group whose ties were lost from its file would be complete with no ties; the model has no torn files.
- JobFile: the steps of other processes between two system calls of one method are the subject of `Protocol`; ownership and umask are not modelled; the fields that store copies into section 0 are one text.
- JobTry: sections are reduced to their kind and Try-Count; the other fields are dates and texts.
- Multipart: `store()` itself is a write of the printed text up to the first NUL, and tags whose lookup differs by locale are not modelled.
- MultipartTheorems.RoundTripIff: is about bodies without NUL and without delimiter lines, id-character tags, values without newlines and outer blanks, and header lines that fit the buffer of fgets; anything else is another text to load.
- MultipartTheorems.AppendRefinement: is about a last section that has a body, as that of a try has; without text appended, `MultipartTheorems.OpenLoads` covers one without. Text behind headers alone would be read as more headers.
- JobName.ScanName: numbers too large for their conversion are undefined in sscanf and taken as they are, but for the id, which wraps.
- Launch: launch objects are values in the table, deleted by their callbacks and after failed starts only, as both daemons do; `kill()` and `wait()` are not modelled.
- QueueManager: queue listings have no name twice; the timers and the shutdown of the loop are left out.
- SeqNum.SeqNum.Next: the patterns of short reads and writes are finite, a file that holds a part of a number is read until an error comes, the bytes of a number are in the order of a little-endian machine, and files have at most eight bytes.
- JobFileProtocol.StoreRefines: is about stores to a path other than the present one by a handle that holds its lock, and writes that do not fail.
- Scheduler: `std::sort` leaves any sorted permutation, and any permutation if a name is malformed.
- ArgvRotation: the option table, abbreviations and argument checks are reduced to a verdict on each option, and all short options of one slot have one verdict together; aliasing of argv by the parsed options is not modelled.
- LineWrapper: the writer is a text, and a stored pointer is the text from there on; the start byte 0xFF, for which the source has no defined result, is excluded; the column layout around the wrapper is left out.
- Arithmetic on int in the option parser is unbounded.
