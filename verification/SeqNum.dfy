/**
 Sequence numbers: one 8-byte number in a file that any number of processes read, increment and write under a lock,
 and the job ids made of them.
 */
module SeqNum {
  import opened JobTypes

  const SIZE := 8
  const MAX64 := 0xFFFF_FFFF_FFFF_FFFF

  // value++ of a uint64_t.
  function Increment(v: nat): nat { if v >= MAX64 then 0 else v + 1 }

  // ---- the bytes of the file, lowest first ----

  function Encode(v: nat, n: nat): seq<nat> { if n == 0 then [] else [v % 256] + Encode(v / 256, n - 1) }

  function Value(b: seq<nat>): nat { if b == [] then 0 else b[0] + 256 * Value(b[1..]) }

  function Power(n: nat): nat { if n == 0 then 1 else 256 * Power(n - 1) }

  predicate Bytes(b: seq<nat>) { forall i | 0 <= i < |b| :: b[i] < 256 }

  // A write to the start of the file of which the first k bytes got through.
  function Overlay(file: seq<nat>, data: seq<nat>, k: nat): seq<nat>
    requires k <= |data|
  {
    data[..k] + (if k < |file| then file[k..] else [])
  }

  // The lowest k bytes are zero: counting up to v has carried into byte k.
  predicate CarriedPast(v: nat, k: nat) { k == 0 || (v % 256 == 0 && CarriedPast(v / 256, k - 1)) }

  lemma {:induction false} EncodeLength(v: nat, n: nat)
    ensures |Encode(v, n)| == n && Bytes(Encode(v, n))
  {
    if n > 0 { EncodeLength(v / 256, n - 1); }
  }

  lemma {:induction false} ValueOfEncoded(v: nat, n: nat)
    requires v < Power(n)
    ensures Value(Encode(v, n)) == v
  {
    if n > 0 { ValueOfEncoded(v / 256, n - 1); }
  }

  lemma {:induction false} EncodedValue(b: seq<nat>)
    requires Bytes(b)
    ensures Encode(Value(b), |b|) == b && Value(b) < Power(|b|)
  {
    if b != [] { EncodedValue(b[1..]); }
  }

  lemma {:induction false} CarryIsMultiple(v: nat, k: nat)
    requires CarriedPast(v, k) && v > 0
    ensures v >= Power(k)
  {
    if k > 0 { CarryIsMultiple(v / 256, k - 1); }
  }

  // What is in the file when the write of v over its predecessor has stopped after k bytes: v, unless counting has
  // carried past those bytes; then the file has gone back.
  function Torn(v: nat, k: nat): nat
    requires v > 0
  {
    if CarriedPast(v, k) then CarryIsMultiple(v, k); v - Power(k) else v
  }

  lemma {:induction false} TornIs(v: nat, n: nat, k: nat)
    requires v > 0 && k <= n
    ensures |Encode(v, n)| == n
    ensures Overlay(Encode(v - 1, n), Encode(v, n), k) == Encode(Torn(v, k), n)
  {
    hide Overlay, Torn;
    EncodeLength(v, n);
    EncodeLength(v - 1, n);
    if k == 0 {
      NothingWritten(Encode(v - 1, n), Encode(v, n));
      StillBefore(v);
    } else {
      EncodeLength(v / 256, n - 1);
      EncodeLength((v - 1) / 256, n - 1);
      OverlayMore((v - 1) % 256, Encode((v - 1) / 256, n - 1), v % 256, Encode(v / 256, n - 1), k);
      if v % 256 == 0 {
        CarryIsLess(v, k);
        TornIs(v / 256, n - 1, k - 1);
      } else {
        NoCarry(v, k);
        OverlaySame(Encode(v / 256, n - 1), k - 1);
      }
    }
  }

  lemma StillBefore(v: nat)
    requires v > 0
    ensures Torn(v, 0) == v - 1
  {
  }

  lemma NothingWritten(file: seq<nat>, data: seq<nat>)
    ensures Overlay(file, data, 0) == file
  {
  }

  lemma OverlayMore(x: nat, file: seq<nat>, y: nat, data: seq<nat>, k: nat)
    requires 0 < k <= |data| + 1
    ensures Overlay([x] + file, [y] + data, k) == [y] + Overlay(file, data, k - 1)
  {
  }

  lemma OverlaySame(data: seq<nat>, k: nat)
    requires k <= |data|
    ensures Overlay(data, data, k) == data
  {
  }

  lemma NoCarry(v: nat, k: nat)
    requires v > 0 && v % 256 != 0 && k > 0
    ensures Torn(v, k) == v && (v - 1) / 256 == v / 256
  {
  }

  lemma CarryIsLess(v: nat, k: nat)
    requires v > 0 && v % 256 == 0 && k > 0
    ensures v / 256 > 0 && (v - 1) / 256 == v / 256 - 1
    ensures Torn(v, k) % 256 == 0 && Torn(v, k) / 256 == Torn(v / 256, k - 1)
  {
  }

  lemma OverlayTwice(file: seq<nat>, data: seq<nat>, j: nat, k: nat)
    requires j <= |data| && k <= |data| && |file| <= |data|
    requires file == [] || |file| == |data|
    ensures Overlay(Overlay(file, data, j), data, k) == Overlay(file, data, if j < k then k else j)
  {
  }

  // ---- one call ----

  // How a read or a write, with the seek behind it, goes: all 8 bytes, fewer, or an error.
  datatype Attempt = Whole | Short(bytes: nat) | Fails

  datatype Calls = Calls(open: bool, lock: bool, reading: seq<Attempt>, writing: seq<Attempt>, close: bool)

  // Short reads and writes are tried again, so an error counts if it comes first.
  predicate Through(a: seq<Attempt>) { a == [] || a[0].Whole? || (a[0].Short? && Through(a[1..])) }

  // An empty file is read once.
  predicate ReadsThrough(file: seq<nat>, a: seq<Attempt>) {
    if file == [] then a == [] || !a[0].Fails? else |file| == SIZE && Through(a)
  }

  // The bytes of short writes that are in the file before the whole write or the error.
  function Left(a: seq<Attempt>): (k: nat)
    ensures k < SIZE
  {
    if a == [] || !a[0].Short? then 0
    else var k := Left(a[1..]); if k < a[0].bytes < SIZE then a[0].bytes else k
  }

  // What next() increments and writes; an empty file leaves the value the object has, 0 if it is new.
  function NextAfter(file: seq<nat>, value: nat): nat { Increment(if file == [] then value else Value(file)) }

  predicate IsFile(file: seq<nat>) { |file| <= SIZE && Bytes(file) }

  class SeqFile {
    var bytes: seq<nat>

    constructor (start: seq<nat>)
      ensures bytes == start
    {
      bytes := start;
    }
  }

  class SeqNum {
    var value: nat
    var error: bool

    constructor ()
      ensures value == 0 && !error
    {
      value, error := 0, false;
    }

    // A file with a part of a number is read again and again until an error; such a call does not return otherwise.
    method Next(file: SeqFile, c: Calls) returns (r: nat)
      requires IsFile(file.bytes)
      requires file.bytes == [] || |file.bytes| == SIZE || !c.open || !c.lock || Fails in c.reading
      modifies this, file
      ensures r == value
      ensures !error <==>
                c.open && c.lock && ReadsThrough(old(file.bytes), c.reading) && Through(c.writing) && c.close
      ensures r == if error then 0 else NextAfter(old(file.bytes), old(value))
      ensures var data := Encode(NextAfter(old(file.bytes), old(value)), SIZE);
              |data| == SIZE &&
              file.bytes ==
              if !c.open || !c.lock || !ReadsThrough(old(file.bytes), c.reading) then old(file.bytes)
              else if Through(c.writing) then data
              else Overlay(old(file.bytes), data, Left(c.writing))
    {
      hide Encode, Value, Overlay, Bytes;
      ghost var next := NextAfter(file.bytes, value);
      EncodeLength(next, SIZE);
      error := true;
      if !c.open || !c.lock {
        value := 0;
        return 0;
      }
      var i := 0;
      while i < |c.reading| && (c.reading[i] != Whole || 0 < |file.bytes| < SIZE)
        invariant 0 <= i <= |c.reading| && error && value == old(value) && file.bytes == old(file.bytes)
        invariant file.bytes == [] ==> i == 0
        invariant |file.bytes| == SIZE ==> (Through(c.reading) <==> Through(c.reading[i..]))
        invariant 0 < |file.bytes| < SIZE ==> Fails !in c.reading[..i]
      {
        if c.reading[i] == Fails {
          value := 0;
          return 0;
        }
        if file.bytes == [] { break; }
        i := i + 1;
      }
      if file.bytes != [] { value := Value(file.bytes); }
      value := Increment(value);
      ghost var k: nat := 0;
      NothingWritten(file.bytes, Encode(next, SIZE));
      i := 0;
      while i < |c.writing| && c.writing[i] != Whole
        invariant 0 <= i <= |c.writing| && error && value == next
        invariant Through(c.writing) <==> Through(c.writing[i..])
        invariant k < SIZE && Left(c.writing) == Larger(k, Left(c.writing[i..]))
        invariant file.bytes == Overlay(old(file.bytes), Encode(next, SIZE), k)
      {
        if c.writing[i] == Fails {
          value := 0;
          return 0;
        }
        if c.writing[i].bytes < SIZE {
          OverlayTwice(old(file.bytes), Encode(next, SIZE), k, c.writing[i].bytes);
          EncodeLength(value, SIZE);
          file.bytes := Overlay(file.bytes, Encode(value, SIZE), c.writing[i].bytes);
          k := Larger(k, c.writing[i].bytes);
        }
        i := i + 1;
      }
      file.bytes := Encode(value, SIZE);
      if !c.close {
        value := 0;
        return 0;
      }
      error := false;
      r := value;
    }
  }

  function Larger(j: nat, k: nat): nat { if j < k then k else j }

  // ---- any number of processes ----

  // A process that has read the number: what it is to write, what was in the file, and how much has been written.
  datatype Phase = Idle | Opened | Reading | Got(v: nat, before: seq<nat>, torn: nat) | Written(v: nat)

  // results are the numbers returned, in the order of the calls that got the lock.
  datatype State = State(phases: map<nat, Phase>, holder: Option<nat>, file: seq<nat>, results: seq<nat>)

  datatype Step =
    | Open(p: nat)
    | Lock(p: nat)
    | ReadShort(p: nat)
    | Read(p: nat)
    | WriteShort(p: nat, bytes: nat)
    | Write(p: nat)
    | Close(p: nat, ok: bool)
    | Quit(p: nat)         // an error, or the process dies; the lock goes

  function PhaseOf(s: State, p: nat): Phase { if p in s.phases then s.phases[p] else Idle }

  // The lock is exclusive. A part of a number is never read as a whole.
  predicate Enabled(s: State, step: Step) {
    var ph := PhaseOf(s, step.p);
    match step
    case Open(_) => ph.Idle?
    case Lock(_) => ph.Opened? && s.holder.None?
    case ReadShort(_) => ph.Reading? && s.file != []
    case Read(_) => ph.Reading? && (s.file == [] || |s.file| == SIZE)
    case WriteShort(_, k) => ph.Got? && k < SIZE
    case Write(_) => ph.Got?
    case Close(_, _) => ph.Written?
    case Quit(p) => !ph.Idle?
  }

  function Unlock(s: State, p: nat): State {
    s.(phases := s.phases - {p}, holder := if s.holder == Some(p) then None else s.holder)
  }

  function WriteSome(file: seq<nat>, v: nat, k: nat): seq<nat>
    requires k <= SIZE
  {
    EncodeLength(v, SIZE);
    Overlay(file, Encode(v, SIZE), k)
  }

  function Apply(s: State, step: Step): State
    requires Enabled(s, step)
  {
    var ph := PhaseOf(s, step.p);
    match step
    case Open(p) => s.(phases := s.phases[p := Opened])
    case Lock(p) => s.(phases := s.phases[p := Reading], holder := Some(p))
    case ReadShort(_) => s
    case Read(p) => s.(phases := s.phases[p := Got(NextAfter(s.file, 0), s.file, 0)])
    case WriteShort(p, k) =>
      s.(phases := s.phases[p := ph.(torn := Larger(ph.torn, k))], file := WriteSome(s.file, ph.v, k))
    case Write(p) => s.(phases := s.phases[p := Written(ph.v)], file := WriteSome(s.file, ph.v, SIZE))
    case Close(p, ok) => Unlock(s, p).(results := if ok then s.results + [ph.v] else s.results)
    case Quit(p) => Unlock(s, p)
  }

  function Number(file: seq<nat>): nat { if |file| == SIZE then Value(file) else 0 }

  // The file as it was before a write that is under way.
  function Base(s: State): seq<nat> {
    if s.holder.Some? && PhaseOf(s, s.holder.value).Got? then PhaseOf(s, s.holder.value).before else s.file
  }

  // The last number handed out, or that in the file at the start.
  function Top(floor: nat, results: seq<nat>): nat { if results == [] then floor else results[|results| - 1] }

  predicate Ascending(floor: nat, results: seq<nat>) {
    (forall i, j | 0 <= i < j < |results| :: results[i] < results[j]) &&
    (forall i | 0 <= i < |results| :: floor < results[i])
  }

  // A process stops in the middle of its write, counting has carried past the bytes that are in the file, and with
  // that the number in the file has gone back behind one that was handed out.
  predicate GoesBack(s: State, step: Step, floor: nat) {
    step.Quit? &&
    var ph := PhaseOf(s, step.p);
    ph.Got? && |ph.before| == SIZE && ph.v > 0 && Torn(ph.v, ph.torn) < Top(floor, s.results)
  }

  predicate InCall(ph: Phase) { ph.Reading? || ph.Got? || ph.Written? }

  predicate PhaseOk(s: State, ph: Phase, floor: nat) {
    (ph.Got? ==> ph.v == NextAfter(ph.before, 0) && ph.torn < SIZE && (ph.before == [] || |ph.before| == SIZE) &&
                 s.file == WriteSome(ph.before, ph.v, ph.torn)) &&
    (ph.Written? ==> s.file == Encode(ph.v, SIZE) && Top(floor, s.results) < ph.v <= MAX64)
  }

  // Only the holder of the lock is in its critical section, what it has got is the next number, and what it has
  // written is in the file; the results are strictly increasing, above what was in the file at the start and up to what
  // is in it now.
  predicate Inv(s: State, floor: nat) {
    (forall p | p in s.phases :: InCall(s.phases[p]) <==> s.holder == Some(p)) &&
    (s.holder.Some? ==> s.holder.value in s.phases) &&
    (forall p | p in s.phases :: PhaseOk(s, s.phases[p], floor)) &&
    IsFile(Base(s)) && Ascending(floor, s.results) && Top(floor, s.results) <= Number(Base(s)) &&
    (|Base(s)| < SIZE ==> floor == 0 && s.results == [])
  }

  lemma StepKeeps(s: State, step: Step, floor: nat)
    requires Inv(s, floor) && Enabled(s, step) && Number(Base(s)) < MAX64 && !GoesBack(s, step, floor)
    ensures Inv(Apply(s, step), floor) && Number(Base(Apply(s, step))) <= Number(Base(s)) + 1
  {
    hide *;
    if step.Read? { ReadKeeps(s, step.p, floor); }
    else if step.WriteShort? { WriteShortKeeps(s, step.p, step.bytes, floor); }
    else if step.Write? { WriteKeeps(s, step.p, floor); }
    else if step.Quit? && PhaseOf(s, step.p).Got? { QuitKeeps(s, step.p, floor); }
    else if step.Close? { CloseKeeps(s, step.p, step.ok, floor); }
    else { OthersKeep(s, step, floor); }
  }

  lemma CloseKeeps(s: State, p: nat, ok: bool, floor: nat)
    requires Inv(s, floor) && Enabled(s, Close(p, ok))
    ensures Inv(Apply(s, Close(p, ok)), floor) && Base(Apply(s, Close(p, ok))) == Base(s)
  {
    hide Encode, Value, Torn, CarriedPast, Overlay, Power;
    var v := PhaseOf(s, p).v;
    EncodeLength(v, SIZE);
    Size();
    ValueOfEncoded(v, SIZE);
  }

  lemma OthersKeep(s: State, step: Step, floor: nat)
    requires Inv(s, floor) && Enabled(s, step)
    requires step.Open? || step.Lock? || step.ReadShort? || (step.Quit? && !PhaseOf(s, step.p).Got?)
    ensures Inv(Apply(s, step), floor) && Base(Apply(s, step)) == Base(s)
  {
    hide Encode, Value, Torn, CarriedPast, Overlay, Power;
  }

  lemma ReadKeeps(s: State, p: nat, floor: nat)
    requires Inv(s, floor) && Enabled(s, Read(p)) && Number(Base(s)) < MAX64
    ensures Inv(Apply(s, Read(p)), floor) && Number(Base(Apply(s, Read(p)))) <= Number(Base(s))
  {
    hide Encode, Value, Torn, CarriedPast;
    EncodeLength(NextAfter(s.file, 0), SIZE);
  }

  lemma WriteShortKeeps(s: State, p: nat, k: nat, floor: nat)
    requires Inv(s, floor) && Enabled(s, WriteShort(p, k))
    ensures Inv(Apply(s, WriteShort(p, k)), floor) && Base(Apply(s, WriteShort(p, k))) == Base(s)
  {
    hide Encode, Value, Torn, CarriedPast, Overlay;
    var ph := PhaseOf(s, p);
    EncodeLength(ph.v, SIZE);
    OverlayTwice(ph.before, Encode(ph.v, SIZE), ph.torn, k);
  }

  lemma Size()
    ensures Power(SIZE) == MAX64 + 1
  {
  }

  lemma WriteKeeps(s: State, p: nat, floor: nat)
    requires Inv(s, floor) && Enabled(s, Write(p)) && Number(Base(s)) < MAX64
    ensures Inv(Apply(s, Write(p)), floor) && Number(Base(Apply(s, Write(p)))) <= Number(Base(s)) + 1
  {
    hide Encode, Value, Torn, CarriedPast, Power;
    var ph := PhaseOf(s, p);
    EncodeLength(ph.v, SIZE);
    assert WriteSome(s.file, ph.v, SIZE) == Encode(ph.v, SIZE);
    Size();
    ValueOfEncoded(ph.v, SIZE);
  }

  lemma QuitKeeps(s: State, p: nat, floor: nat)
    requires Inv(s, floor) && Enabled(s, Quit(p)) && PhaseOf(s, p).Got? && Number(Base(s)) < MAX64
    requires !GoesBack(s, Quit(p), floor)
    ensures Inv(Apply(s, Quit(p)), floor) && Number(Base(Apply(s, Quit(p)))) <= Number(Base(s)) + 1
  {
    TornFile(s, p, floor);
  }

  // The file that a process leaves that stops while it writes.
  lemma TornFile(s: State, p: nat, floor: nat)
    requires Inv(s, floor) && PhaseOf(s, p).Got? && Number(Base(s)) < MAX64
    ensures var ph := PhaseOf(s, p);
            IsFile(s.file) &&
            if |ph.before| == SIZE then
              ph.v > 0 && |s.file| == SIZE && Number(s.file) == Torn(ph.v, ph.torn) <= ph.v == Number(Base(s)) + 1
            else |s.file| == ph.torn < SIZE
  {
    hide Encode, Value, CarriedPast, Power;
    var ph := PhaseOf(s, p);
    EncodeLength(ph.v, SIZE);
    if |ph.before| == SIZE {
      Size();
      EncodedValue(ph.before);
      TornIs(ph.v, SIZE, ph.torn);
      EncodeLength(Torn(ph.v, ph.torn), SIZE);
      ValueOfEncoded(Torn(ph.v, ph.torn), SIZE);
    }
  }

  // ---- runs ----

  ghost predicate Path(s: State, run: seq<State>, steps: seq<Step>) {
    |run| == |steps| + 1 && run[0] == s &&
    forall i | 0 <= i < |steps| :: Enabled(run[i], steps[i]) && run[i + 1] == Apply(run[i], steps[i])
  }

  // Processes come to a file of at most eight bytes.
  predicate Start(s: State) { s.phases == map[] && s.holder.None? && s.results == [] && IsFile(s.file) }

  // No process stops in the middle of such a write, and the number does not reach its end.
  ghost predicate Forward(run: seq<State>, steps: seq<Step>, floor: nat) {
    |run| == |steps| + 1 && Number(Base(run[0])) + |steps| <= MAX64 &&
    forall i | 0 <= i < |steps| :: !GoesBack(run[i], steps[i], floor)
  }

  lemma {:induction false} RunKeeps(s: State, run: seq<State>, steps: seq<Step>, floor: nat, n: nat)
    requires Path(s, run, steps) && Inv(s, floor) && Forward(run, steps, floor) && n <= |steps|
    ensures Inv(run[n], floor) && Number(Base(run[n])) <= Number(Base(s)) + n
  {
    hide Inv, Enabled, Apply, GoesBack, Number, Base;
    if n > 0 {
      RunKeeps(s, run, steps, floor, n - 1);
      StepKeeps(run[n - 1], steps[n - 1], floor);
    }
  }

  // Numbers are handed out once, in ascending order of the calls that got the lock, whatever processes do or die,
  // unless one goes back in the middle of its write.
  lemma NumbersAreUnique(s: State, run: seq<State>, steps: seq<Step>)
    requires Start(s) && Path(s, run, steps) && Forward(run, steps, Number(s.file))
    ensures Ascending(Number(s.file), run[|steps|].results)
  {
    hide Path, Forward, Number, Ascending;
    StartIsOk(s);
    RunKeeps(s, run, steps, Number(s.file), |steps|);
  }

  lemma StartIsOk(s: State)
    requires Start(s)
    ensures Inv(s, Number(s.file))
  {
  }

  // From here on all numbers will be new.
  ghost predicate Unique(s: State, floor: nat) {
    forall run: seq<State>, steps: seq<Step> | Path(s, run, steps) && Forward(run, steps, floor) ::
      Ascending(floor, run[|steps|].results)
  }

  function CallSteps(p: nat): seq<Step> { [Open(p), Lock(p), Read(p), Write(p), Close(p, true)] }

  lemma WholeWrite(file: seq<nat>, v: nat)
    requires |file| <= SIZE
    ensures WriteSome(file, v, SIZE) == Encode(v, SIZE) && |Encode(v, SIZE)| == SIZE
  {
    EncodeLength(v, SIZE);
  }

  // A process that comes alone gets the next number.
  lemma OneCall(s: State, p: nat) returns (run: seq<State>)
    requires s.holder.None? && p !in s.phases && IsFile(s.file) && (s.file == [] || |s.file| == SIZE)
    requires Number(s.file) < MAX64
    ensures Path(s, run, CallSteps(p))
    ensures run[5] == State(s.phases, None, Encode(Number(s.file) + 1, SIZE), s.results + [Number(s.file) + 1])
    ensures forall i, floor | 0 <= i < 5 :: !GoesBack(run[i], CallSteps(p)[i], floor)
  {
    hide Encode, Value, Overlay, Torn, CarriedPast, IsFile;
    WholeWrite(s.file, Number(s.file) + 1);
    var s1 := Apply(s, Open(p));
    var s2 := Apply(s1, Lock(p));
    var s3 := Apply(s2, Read(p));
    var s4 := Apply(s3, Write(p));
    var s5 := Apply(s4, Close(p, true));
    assert s5.phases == s.phases;
    hide Apply, Enabled, WriteSome;
    run := [s, s1, s2, s3, s4, s5];
  }

  // A process that stops while it writes leaves new numbers to all that come, if and only if the number that is then
  // in the file is not below the last one that was handed out.
  lemma UniqueIff(s: State, p: nat, floor: nat)
    requires Inv(s, floor) && PhaseOf(s, p).Got? && Number(Base(s)) < MAX64
    ensures Unique(Apply(s, Quit(p)), floor) <==> !GoesBack(s, Quit(p), floor)
  {
    var t := Apply(s, Quit(p));
    if GoesBack(s, Quit(p), floor) {
      NextIsOld(s, p, floor);
    } else {
      hide *;
      EnabledQuit(s, p);
      StepKeeps(s, Quit(p), floor);
      KeepsUnique(t, floor);
    }
  }

  lemma EnabledQuit(s: State, p: nat)
    requires PhaseOf(s, p).Got?
    ensures Enabled(s, Quit(p))
  {
  }

  lemma KeepsUnique(t: State, floor: nat)
    requires Inv(t, floor)
    ensures Unique(t, floor)
  {
    hide Path, Forward, Ascending, Number, Base;
    forall run: seq<State>, steps: seq<Step> | Path(t, run, steps) && Forward(run, steps, floor)
      ensures |run| == |steps| + 1 && Ascending(floor, run[|steps|].results)
    {
      PathLength(t, run, steps);
      RunKeeps(t, run, steps, floor, |steps|);
    }
  }

  lemma PathLength(s: State, run: seq<State>, steps: seq<Step>)
    requires Path(s, run, steps)
    ensures |run| == |steps| + 1
  {
  }

  lemma NextIsOld(s: State, p: nat, floor: nat)
    requires Inv(s, floor) && PhaseOf(s, p).Got? && Number(Base(s)) < MAX64 && GoesBack(s, Quit(p), floor)
    ensures !Unique(Apply(s, Quit(p)), floor)
  {
    hide Path, Overlay, Encode, Value, Ascending, CarriedPast;
    var t := Apply(s, Quit(p));
    TornFile(s, p, floor);
    PowerGrows(PhaseOf(s, p).torn);
    var run := OneCall(t, p);
    PathLength(t, run, CallSteps(p));
    PathStarts(t, run, CallSteps(p));
    assert Forward(run, CallSteps(p), floor);
    NotAbove(floor, s.results, Number(t.file) + 1);
    OldIsNotUnique(t, run, CallSteps(p), floor);
  }

  lemma PathStarts(s: State, run: seq<State>, steps: seq<Step>)
    requires Path(s, run, steps)
    ensures |run| > 0 && run[0] == s
  {
  }

  lemma OldIsNotUnique(s: State, run: seq<State>, steps: seq<Step>, floor: nat)
    requires Path(s, run, steps) && Forward(run, steps, floor) && !Ascending(floor, run[|steps|].results)
    ensures !Unique(s, floor)
  {
  }

  lemma NotAbove(floor: nat, results: seq<nat>, v: nat)
    requires v <= Top(floor, results)
    ensures !Ascending(floor, results + [v])
  {
    var all := results + [v];
    if results != [] { assert all[|results| - 1] >= all[|results|]; } else { assert all[0] <= floor; }
  }

  lemma PowerGrows(k: nat)
    ensures k > 0 ==> Power(k) >= 256
  {
  }

  // ---- a first number that was not written whole ----

  ghost predicate HandsOut(s: State) {
    exists run: seq<State>, steps: seq<Step> :: Path(s, run, steps) && run[|steps|].results != s.results
  }

  predicate Jammed(s: State) {
    0 < |s.file| < SIZE && forall p | p in s.phases :: !s.phases[p].Got? && !s.phases[p].Written?
  }

  lemma {:induction false} JammedStays(s: State, run: seq<State>, steps: seq<Step>, n: nat)
    requires Path(s, run, steps) && Jammed(s) && n <= |steps|
    ensures Jammed(run[n]) && run[n].results == s.results
  {
    if n > 0 { JammedStays(s, run, steps, n - 1); }
  }

  // A process that stops while it writes the first number leaves a file from which no process ever gets a number,
  // if and only if a part of the number is in it.
  lemma NobodyGetsThroughIff(s: State, p: nat, floor: nat)
    requires Inv(s, floor) && PhaseOf(s, p).Got? && PhaseOf(s, p).before == []
    ensures !HandsOut(Apply(s, Quit(p))) <==> PhaseOf(s, p).torn > 0
  {
    var t := Apply(s, Quit(p));
    TornFile(s, p, floor);
    if PhaseOf(s, p).torn > 0 {
      assert Jammed(t);
      forall run: seq<State>, steps: seq<Step> | Path(t, run, steps)
        ensures run[|steps|].results == t.results
      {
        JammedStays(t, run, steps, |steps|);
      }
    } else {
      var run := OneCall(t, p);
      assert run[|CallSteps(p)|].results != t.results;
    }
  }

  lemma {:induction false} PathsJoin(s: State, run: seq<State>, steps: seq<Step>, more: seq<State>,
                                     moreSteps: seq<Step>)
    requires Path(s, run, steps) && Path(run[|steps|], more, moreSteps)
    ensures Path(s, run + more[1..], steps + moreSteps)
    ensures (run + more[1..])[|steps + moreSteps|] == more[|moreSteps|]
  {
    hide Enabled, Apply;
    var all, allSteps := run + more[1..], steps + moreSteps;
    forall i | |steps| <= i < |allSteps|
      ensures Enabled(all[i], allSteps[i]) && all[i + 1] == Apply(all[i], allSteps[i])
    {
      var k := i - |steps|;
      assert allSteps[i] == moreSteps[k] && all[i] == more[k] && all[i + 1] == more[k + 1];
    }
  }

  function TornSteps(p: nat): seq<Step> { [Open(p), Lock(p), Read(p), WriteShort(p, 1)] }

  lemma WriteIsTorn(s: State, p: nat) returns (run: seq<State>)
    requires s.holder.None? && p !in s.phases && |s.file| == SIZE && Number(s.file) < MAX64
    ensures Path(s, run, TornSteps(p))
    ensures run[4].results == s.results && run[4].file == WriteSome(s.file, Number(s.file) + 1, 1)
    ensures PhaseOf(run[4], p) == Got(Number(s.file) + 1, s.file, 1)
  {
    hide Encode, Value, Overlay, Torn, CarriedPast;
    run := [s];
    run := run + [Apply(run[0], Open(p))];
    run := run + [Apply(run[1], Lock(p))];
    run := run + [Apply(run[2], Read(p))];
    run := run + [Apply(run[3], WriteShort(p, 1))];
  }

  // After 255 was handed out, the write of 256 stops behind its first byte; the file then holds 0.
  lemma SomeRunGoesBack() returns (s: State, run: seq<State>, p: nat)
    ensures Start(s) && Path(s, run, CallSteps(1) + TornSteps(p)) && run[9].results == [255]
    ensures GoesBack(run[9], Quit(p), Number(s.file)) && Number(run[9].file) == 0
  {
    hide Encode, Value, Overlay, Path, Enabled, Apply;
    p := 2;
    EncodeLength(254, SIZE);
    EncodeLength(255, SIZE);
    s := State(map[], None, Encode(254, SIZE), []);
    Size();
    hide Power;
    ValueOfEncoded(254, SIZE);
    ValueOfEncoded(255, SIZE);
    var first := OneCall(s, 1);
    PathLength(s, first, CallSteps(1));
    var more := WriteIsTorn(first[5], p);
    PathLength(first[5], more, TornSteps(p));
    PathsJoin(s, first, CallSteps(1), more, TornSteps(p));
    run := first + more[1..];
    TornIs(256, SIZE, 1);
    TornTo(256);
    ValueOfEncoded(0, SIZE);
  }

  lemma TornTo(v: nat)
    requires v == 256
    ensures Torn(v, 1) == 0
  {
  }

  // What the critical section does to the file is what one call of next does.
  lemma CallRefines(s: State, p: nat, floor: nat)
    requires Inv(s, floor) && PhaseOf(s, p).Reading? && (s.file == [] || |s.file| == SIZE)
    ensures var t := Apply(s, Read(p));
            Enabled(t, Write(p)) && Enabled(Apply(t, Write(p)), Close(p, true)) &&
            var u := Apply(Apply(t, Write(p)), Close(p, true));
            u.file == Encode(NextAfter(s.file, 0), SIZE) && u.results == s.results + [NextAfter(s.file, 0)] &&
            u.holder.None?
  {
    hide Encode, Value, Torn, CarriedPast;
    EncodeLength(NextAfter(s.file, 0), SIZE);
  }

  // ---- job ids ----

  datatype Result = Ok(id: nat) | SeqError | BadZone

  // The id of a new job, from what next() returned.
  function NewId(number: nat, error: bool, zone: int): Result {
    if error then SeqError
    else if zone < 0 || zone > 9 then BadZone
    else Ok(if zone != 0 then (number * 10 + zone) % (MAX64 + 1) else number)
  }

  // Zones keep ids apart, each with its own sequence file, if all of them have a zone; a site without one
  // collides with each of the others.
  lemma IdsCollideIff(n: nat, y: int, m: nat, z: int)
    requires 0 <= y <= 9 && 0 <= z <= 9 && n * 10 + y <= MAX64 && m * 10 + z <= MAX64
    ensures NewId(n, false, y) == NewId(m, false, z) <==>
            (y == z && n == m) || (y == 0 && z != 0 && n == m * 10 + z) || (z == 0 && y != 0 && m == n * 10 + y)
  {
    Unwrapped(n * 10 + y);
    Unwrapped(m * 10 + z);
  }

  lemma Unwrapped(n: nat)
    requires n <= MAX64
    ensures n % (MAX64 + 1) == n
  {
  }

  lemma ZoneZeroCollides()
    ensures NewId(11, false, 0) == NewId(1, false, 1) == Ok(11)
  {
  }
}
