/**
 Job file names: how name() writes queue, state, run time, priority, id and submitter into a path, how parse()
 and _init_from_path() read them back, and how the string order of names stands for the order of run times.
 */
module JobName {
  import opened JobTypes
  import Strings

  const PATH_MAX := 4096
  const PRIORITY_MIN := 1
  const PRIORITY_MAX := 9

  datatype Parts = Parts(runTime: int, priority: int, id: nat, submitter: string)
  datatype Located = Located(queue: string, state: JobState, parts: Parts)

  datatype NameError = BadFormat | BadPriority | BadPath | BadQueue | BadState
  datatype Result<T> = Ok(value: T) | Err(error: NameError)

  function StateName(s: JobState): string {
    match s
    case Hold => "hold"
    case Pend => "pend"
    case Run => "run"
    case Tied => "tied"
    case Kill => "kill"
    case Done => "done"
    case Unk => "???"
  }

  function StateOf(s: string): JobState {
    if s == "hold" then Hold
    else if s == "pend" then Pend
    else if s == "run" then Run
    else if s == "tied" then Tied
    else if s == "kill" then Kill
    else if s == "done" then Done
    else Unk
  }

  // ---- decimal numbers ----

  predicate IsDigit(c: char) { '0' <= c <= '9' }

  predicate AllDigits(s: string) { forall i | 0 <= i < |s| :: IsDigit(s[i]) }

  function DigitOf(n: nat): (c: char)
    requires n < 10
    ensures IsDigit(c) && DigitValue(c) == n
  {
    ['0', '1', '2', '3', '4', '5', '6', '7', '8', '9'][n]
  }

  function DigitValue(c: char): nat
    requires IsDigit(c)
  {
    (c - '0') as int
  }

  function Decimal(n: nat): (s: string)
    ensures s != "" && AllDigits(s) && Value(s) == n
  {
    if n < 10 then [DigitOf(n)]
    else
      var s := Decimal(n / 10) + [DigitOf(n % 10)];
      assert s[..|s| - 1] == Decimal(n / 10);
      s
  }

  // %d and %ld.
  function Signed(n: int): string { if n < 0 then "-" + Decimal(-n) else Decimal(n) }

  // The precision of a conversion: at least w digits.
  function Zeros(s: string, w: nat): (r: string)
    requires AllDigits(s)
    ensures AllDigits(r) && Value(r) == Value(s) && |r| == (if |s| < w then w else |s|)
    decreases w - |s|
  {
    if |s| < w then
      ZeroInFront(s);
      Zeros("0" + s, w)
    else s
  }

  // %w.wd of a number.
  function Padded(n: int, w: nat): string { if n < 0 then "-" + Zeros(Decimal(-n), w) else Zeros(Decimal(n), w) }

  function Value(s: string): nat
    requires AllDigits(s)
  {
    if s == "" then 0 else 10 * Value(s[..|s| - 1]) + DigitValue(s[|s| - 1])
  }

  lemma {:induction false} ZeroInFront(s: string)
    requires AllDigits(s)
    ensures AllDigits("0" + s) && Value("0" + s) == Value(s)
  {
    if s != "" {
      ZeroInFront(s[..|s| - 1]);
      assert ("0" + s)[..|s|] == "0" + s[..|s| - 1];
    } else {
      assert ("0" + s)[..0] == "";
    }
  }

  // ---- scanning, as sscanf does ----

  predicate IsSpace(c: char) { c == ' ' || ('\t' <= c <= '\r') }

  function SkipSpace(s: string): string { if s != "" && IsSpace(s[0]) then SkipSpace(s[1..]) else s }

  function DigitCount(s: string): (k: nat)
    ensures k <= |s| && AllDigits(s[..k]) && (k < |s| ==> !IsDigit(s[k]))
  {
    if s != "" && IsDigit(s[0]) then
      var k := DigitCount(s[1..]) + 1;
      assert s[..k] == [s[0]] + s[1..][..k - 1];
      k
    else 0
  }

  // An integer conversion: blanks, a sign, digits. The value and what follows, or None without a digit.
  function ScanInt(s: string): Option<(int, string)> {
    var t := SkipSpace(s);
    var signed := t != "" && (t[0] == '-' || t[0] == '+');
    var u := if signed then t[1..] else t;
    var k := DigitCount(u);
    var v: int := Value(u[..k]);
    if k == 0 then None else Some((if signed && t[0] == '-' then -v else v, u[k..]))
  }

  function WordLength(s: string): (k: nat)
    ensures k <= |s|
  {
    if s != "" && !IsSpace(s[0]) then WordLength(s[1..]) + 1 else 0
  }

  function Expect(s: string, lit: string): Option<string> {
    if lit <= s then Some(s[|lit|..]) else None
  }

  const WORD64 := 0x1_0000_0000_0000_0000

  function Wrap64(n: int): nat { if 0 <= n < WORD64 then n else n % WORD64 }

  // The conversions of "t%ld.p%d.j%lu.%s" all succeed, or None. %lu takes a sign and wraps.
  function ScanName(s: string): Option<Parts> {
    match Expect(s, "t") case None => None case Some(s1) =>
    match ScanInt(s1) case None => None case Some(t) =>
    match Expect(t.1, ".p") case None => None case Some(s2) =>
    match ScanInt(s2) case None => None case Some(p) =>
    match Expect(p.1, ".j") case None => None case Some(s3) =>
    match ScanInt(s3) case None => None case Some(j) =>
    match Expect(j.1, ".") case None => None case Some(s4) =>
    var w := SkipSpace(s4);
    var k := WordLength(w);
    if k == 0 then None else Some(Parts(t.0, p.0, Wrap64(j.0), w[..k]))
  }

  function Parse(fnam: string): Result<Parts> {
    match ScanName(fnam)
    case None => Err(BadFormat)
    case Some(p) => if p.priority < PRIORITY_MIN || p.priority > PRIORITY_MAX then Err(BadPriority) else Ok(p)
  }

  // _init_from_path(): the last three parts of the path.
  function Locate(path: string): Result<Located> {
    var pieces := Strings.Pieces(path, "/", 0);
    var n := |pieces|;
    if n < 3 then Err(BadPath)
    else if pieces[n - 3] == "" then Err(BadQueue)
    else if StateOf(pieces[n - 2]) == Unk then Err(BadState)
    else
      match Parse(pieces[n - 1])
      case Err(e) => Err(e)
      case Ok(p) => Ok(Located(pieces[n - 3], StateOf(pieces[n - 2]), p))
  }

  // ---- writing ----

  function BaseName(p: Parts): string {
    var fromId := Padded(p.id, 7) + ("." + p.submitter);
    var fromPriority := Signed(p.priority) + (".j" + fromId);
    "t" + (Padded(p.runTime, 10) + (".p" + fromPriority))
  }

  function FullName(jobdir: string, l: Located): string {
    jobdir + Strings.Join([l.queue, StateName(l.state), BaseName(l.parts)], "/")
  }

  // name(): snprintf cuts the path at PATH_MAX characters.
  function Name(jobdir: string, l: Located): string {
    var s := FullName(jobdir, l);
    if |s| <= PATH_MAX then s else s[..PATH_MAX]
  }

  // ---- round trip ----

  lemma {:induction false} DigitsEnd(d: string, rest: string)
    requires AllDigits(d) && (rest == "" || !IsDigit(rest[0]))
    ensures DigitCount(d + rest) == |d|
  {
    if d != "" {
      assert (d + rest)[1..] == d[1..] + rest;
      DigitsEnd(d[1..], rest);
    } else {
      assert d + rest == rest;
    }
  }

  // Digits are read back as their value, up to the first character that is no digit.
  lemma ScanDigits(d: string, rest: string)
    requires d != "" && AllDigits(d) && (rest == "" || !IsDigit(rest[0]))
    ensures ScanInt(d + rest) == Some((Value(d), rest))
  {
    DigitsEnd(d, rest);
    assert !IsSpace((d + rest)[0]) && IsDigit((d + rest)[0]);
    assert (d + rest)[..|d|] == d && (d + rest)[|d|..] == rest;
  }

  lemma ExpectPrefix(lit: string, rest: string)
    ensures Expect(lit + rest, lit) == Some(rest)
  {
    assert (lit + rest)[|lit|..] == rest;
  }

  lemma {:induction false} WordIsAll(s: string)
    requires forall i | 0 <= i < |s| :: !IsSpace(s[i])
    ensures WordLength(s) == |s|
  {
    if s != "" { WordIsAll(s[1..]); }
  }

  predicate GoodParts(p: Parts) {
    && p.runTime >= 0 && PRIORITY_MIN <= p.priority <= PRIORITY_MAX && p.id < WORD64
    && p.submitter != "" && forall i | 0 <= i < |p.submitter| :: !IsSpace(p.submitter[i]) && p.submitter[i] != '/'
  }

  // The text of a name, given the digits of its numbers, scans to those numbers.
  lemma ScanNameText(t: string, q: string, j: string, submitter: string)
    requires AllDigits(t) && AllDigits(q) && AllDigits(j) && t != "" && q != "" && j != "" && submitter != ""
    requires forall i | 0 <= i < |submitter| :: !IsSpace(submitter[i])
    ensures ScanName("t" + (t + (".p" + (q + (".j" + (j + ("." + submitter))))))) ==
            Some(Parts(Value(t), Value(q), Wrap64(Value(j)), submitter))
  {
    var s3 := j + ("." + submitter);
    var s2 := q + (".j" + s3);
    var s1 := t + (".p" + s2);
    ExpectPrefix("t", s1);
    ScanDigits(t, ".p" + s2);
    ExpectPrefix(".p", s2);
    ScanDigits(q, ".j" + s3);
    ExpectPrefix(".j", s3);
    ScanDigits(j, "." + submitter);
    ExpectPrefix(".", submitter);
    WordIsAll(submitter);
    hide ScanInt, Expect, Value, AllDigits;
    assert submitter[..|submitter|] == submitter && SkipSpace(submitter) == submitter;
  }

  lemma PaddedReads(n: nat, w: nat)
    ensures AllDigits(Padded(n, w)) && Padded(n, w) != "" && Value(Padded(n, w)) == n
    ensures AllDigits(Signed(n)) && Signed(n) != "" && Value(Signed(n)) == n
  {
  }

  lemma BaseNameScans(p: Parts)
    requires GoodParts(p)
    ensures ScanName(BaseName(p)) == Some(Parts(p.runTime, p.priority, p.id, p.submitter))
  {
    PaddedReads(p.runTime, 10);
    PaddedReads(p.priority, 7);
    PaddedReads(p.id, 7);
    hide ScanName, Padded, Signed, AllDigits, Value;
    ScanNameText(Padded(p.runTime, 10), Signed(p.priority), Padded(p.id, 7), p.submitter);
  }

  lemma BaseNameParses(p: Parts)
    requires GoodParts(p)
    ensures Parse(BaseName(p)) == Ok(p)
  {
    BaseNameScans(p);
    hide ScanName, BaseName;
  }

  lemma DigitsHaveNoSlash(s: string)
    requires AllDigits(s)
    ensures '/' !in s
  {
  }

  lemma BaseNameHasNoSlash(p: Parts)
    requires GoodParts(p)
    ensures '/' !in BaseName(p)
  {
    DigitsHaveNoSlash(Padded(p.runTime, 10));
    DigitsHaveNoSlash(Signed(p.priority));
    DigitsHaveNoSlash(Padded(p.id, 7));
  }

  // The first slash cuts off one piece.
  lemma PieceInFront(head: string, rest: string)
    requires '/' !in head
    ensures Strings.Pieces(head + ['/'] + rest, "/", 0) == [head] + Strings.Pieces(rest, "/", 0)
  {
    Strings.FindChar(head, '/', rest);
    var s := head + ['/'] + rest;
    assert s[..|head|] == head && s[|head| + 1..] == rest;
  }

  // What comes before the last slashes only adds pieces in front.
  lemma {:induction false} PiecesInFront(dir: string, rest: string)
    requires dir == "" || dir[|dir| - 1] == '/'
    ensures Strings.Pieces(rest, "/", 0) == Last(Strings.Pieces(dir + rest, "/", 0), |Strings.Pieces(rest, "/", 0)|)
    ensures |Strings.Pieces(rest, "/", 0)| <= |Strings.Pieces(dir + rest, "/", 0)|
    decreases |dir|
  {
    hide Strings.Pieces;
    if dir == "" {
      assert dir + rest == rest;
    } else {
      var k := FirstSlash(dir);
      var head, tail := dir[..k], dir[k + 1..];
      assert dir + rest == head + ['/'] + (tail + rest);
      PieceInFront(head, tail + rest);
      PiecesInFront(tail, rest);
    }
  }

  function Last<T>(s: seq<T>, n: nat): seq<T> { if n <= |s| then s[|s| - n..] else s }

  function FirstSlash(s: string): (k: nat)
    requires '/' in s
    ensures k < |s| && s[k] == '/' && '/' !in s[..k]
  {
    if s[0] == '/' then 0 else
      var k := FirstSlash(s[1..]) + 1;
      assert s[..k] == [s[0]] + s[1..][..k - 1];
      k
  }

  predicate GoodLocated(l: Located) {
    l.queue != "" && '/' !in l.queue && l.state != Unk && GoodParts(l.parts)
  }

  lemma StateRoundTrip(st: JobState)
    requires st != Unk
    ensures StateOf(StateName(st)) == st && '/' !in StateName(st)
  {
  }

  // Everything name() writes is read back from the path, as long as the path is not cut.
  lemma NameRoundTrip(jobdir: string, l: Located)
    requires GoodLocated(l) && (jobdir == "" || jobdir[|jobdir| - 1] == '/')
    requires |FullName(jobdir, l)| <= PATH_MAX
    ensures Locate(Name(jobdir, l)) == Ok(l)
  {
    StateRoundTrip(l.state);
    BaseNameHasNoSlash(l.parts);
    BaseNameParses(l.parts);
    var list := [l.queue, StateName(l.state), BaseName(l.parts)];
    assert forall i | 0 <= i < 3 :: '/' !in list[i];
    assert Name(jobdir, l) == jobdir + Strings.Join(list, "/");
    LocateLast(jobdir + Strings.Join(list, "/"), l);
    hide *;
    Strings.JoinThenSplit(list, '/');
    PiecesInFront(jobdir, Strings.Join(list, "/"));
  }

  // A path is read from its last three pieces.
  lemma LocateLast(path: string, l: Located)
    requires l.queue != "" && l.state != Unk && StateOf(StateName(l.state)) == l.state
    requires Parse(BaseName(l.parts)) == Ok(l.parts)
    ensures var pieces := Strings.Pieces(path, "/", 0);
            |pieces| >= 3 && Last(pieces, 3) == [l.queue, StateName(l.state), BaseName(l.parts)] ==>
            Locate(path) == Ok(l)
  {
    hide Parse, BaseName, StateOf, StateName, Strings.Pieces;
    var pieces := Strings.Pieces(path, "/", 0);
    var n := |pieces|;
    if n >= 3 && Last(pieces, 3) == [l.queue, StateName(l.state), BaseName(l.parts)] {
      var last := Last(pieces, 3);
      assert pieces[n - 3] == last[0] && pieces[n - 2] == last[1] && pieces[n - 1] == last[2];
    }
  }

  // Different jobs, states or times never share a path.
  lemma NamesAreDistinct(jobdir: string, a: Located, b: Located)
    requires GoodLocated(a) && GoodLocated(b) && (jobdir == "" || jobdir[|jobdir| - 1] == '/')
    requires |FullName(jobdir, a)| <= PATH_MAX && |FullName(jobdir, b)| <= PATH_MAX
    ensures Name(jobdir, a) == Name(jobdir, b) <==> a == b
  {
    NameRoundTrip(jobdir, a);
    NameRoundTrip(jobdir, b);
  }

  // ---- the time filter ----

  // operator<= of std::string.
  predicate LexLe(a: string, b: string) {
    a == "" || (b != "" && (a[0] < b[0] || (a[0] == b[0] && LexLe(a[1..], b[1..]))))
  }

  // int2str takes an int: a wider value is cut to 32 bits.
  function ToInt32(t: int): int {
    var u := t % 0x1_0000_0000;
    if u < 0x8000_0000 then u else u - 0x1_0000_0000
  }

  function TimeLimit(t: int): string { "t" + (Signed(ToInt32(t)) + ".zzz") }

  predicate TimeFilter(dname: string, t: int) { LexLe(dname, TimeLimit(t)) }

  function Pow10(k: nat): (p: nat)
    ensures p > 0
  {
    if k == 0 then 1 else 10 * Pow10(k - 1)
  }

  lemma {:induction false} ValueBound(s: string)
    requires AllDigits(s)
    ensures Value(s) < Pow10(|s|)
  {
    if s != "" { ValueBound(s[..|s| - 1]); }
  }

  lemma {:induction false} ValueHead(s: string)
    requires AllDigits(s) && s != ""
    ensures Value(s) == DigitValue(s[0]) * Pow10(|s| - 1) + Value(s[1..])
  {
    if |s| > 1 {
      var t, last := s[..|s| - 1], DigitValue(s[|s| - 1]);
      ValueHead(t);
      assert s[1..][..|s| - 2] == t[1..];
      assert Value(s[1..]) == 10 * Value(t[1..]) + last;
      TimesTen(DigitValue(s[0]), Pow10(|t| - 1), Value(t[1..]), last);
    } else {
      assert s[..0] == s[1..] == "";
      assert Pow10(0) == 1;
    }
  }

  lemma TimesTen(d: nat, p: nat, v: nat, last: nat)
    ensures 10 * (d * p + v) + last == d * (10 * p) + (10 * v + last)
  {
  }

  // Among equally long digit strings the string order is the number order, and the tails decide between equals.
  lemma {:induction false} DigitOrder(a: string, b: string, x: string, y: string)
    requires AllDigits(a) && AllDigits(b) && |a| == |b|
    ensures LexLe(a + x, b + y) <==> Value(a) < Value(b) || (Value(a) == Value(b) && LexLe(x, y))
  {
    if a == "" {
      assert a + x == x && b + y == y;
    } else {
      DigitOrder(a[1..], b[1..], x, y);
      assert (a + x)[1..] == a[1..] + x && (b + y)[1..] == b[1..] + y;
      ValueHead(a);
      ValueHead(b);
      ValueBound(a[1..]);
      ValueBound(b[1..]);
      HeadDecides(DigitValue(a[0]), DigitValue(b[0]), Pow10(|a| - 1), Value(a[1..]), Value(b[1..]));
    }
  }

  lemma HeadDecides(a: nat, b: nat, p: nat, x: nat, y: nat)
    requires x < p && y < p
    ensures a < b ==> a * p + x < b * p + y
    ensures b < a ==> b * p + y < a * p + x
  {
    if a < b { assert (a + 1) * p <= b * p; }
    if b < a { assert (b + 1) * p <= a * p; }
  }

  lemma {:induction false} DecimalLength(n: nat, k: nat)
    requires k > 0 && n < Pow10(k) && (k > 1 ==> n >= Pow10(k - 1))
    ensures |Decimal(n)| == k
    decreases k
  {
    if k > 1 {
      assert Pow10(1) == 10;
      if k > 2 { assert Pow10(k - 1) == 10 * Pow10(k - 2); }
      assert n >= 10 by { PowAtLeast(k - 1); }
      DecimalLength(n / 10, k - 1);
    }
  }

  lemma {:induction false} PowAtLeast(k: nat)
    requires k > 0
    ensures Pow10(k) >= 10
  {
    if k > 1 { PowAtLeast(k - 1); }
  }

  lemma TenDigits()
    ensures Pow10(9) == 1_000_000_000 && Pow10(10) == 10_000_000_000
  {
    assert Pow10(3) == 1000;
    assert Pow10(6) == 1000 * Pow10(3);
    assert Pow10(9) == 1000 * Pow10(6);
  }

  lemma {:induction false} ShortDecimal(n: nat, k: nat)
    requires k > 0 && n < Pow10(k)
    ensures |Decimal(n)| <= k
    decreases k
  {
    if n >= 10 {
      assert Pow10(1) == 10;
      ShortDecimal(n / 10, k - 1);
    }
  }

  // The file-name comparison that selects jobs to run is the comparison of run times, for the years 2001 to 2038.
  lemma TimeFilterIsNumeric(p: Parts, t: int)
    requires 0 <= p.runTime < 10_000_000_000 && 1_000_000_000 <= t < 0x8000_0000
    ensures TimeFilter(BaseName(p), t) <==> p.runTime <= t
  {
    var a, b := Padded(p.runTime, 10), Decimal(t);
    LimitInRange(t);
    NameFromTime(p);
    hide *;
    TenDigitTimes(p.runTime, t);
    var x := "p" + AfterTime(p);
    SameHead('t', a + (['.'] + x), b + ".zzz");
    DigitOrder(a, b, ['.'] + x, ".zzz");
    SameHead('.', x, "zzz");
    FirstDecides(x, "zzz");
    assert ".zzz" == ['.'] + "zzz";
  }

  lemma TenDigitTimes(runTime: nat, t: nat)
    requires runTime < 10_000_000_000 && 1_000_000_000 <= t < 0x8000_0000
    ensures var a, b := Padded(runTime, 10), Decimal(t);
            |a| == |b| == 10 && AllDigits(a) && AllDigits(b) && Value(a) == runTime && Value(b) == t
  {
    TenDigits();
    ShortDecimal(runTime, 10);
    DecimalLength(t, 10);
  }

  // The file name behind the time and ".p".
  function AfterTime(p: Parts): string { Signed(p.priority) + (".j" + (Padded(p.id, 7) + ("." + p.submitter))) }

  lemma NameFromTime(p: Parts)
    ensures BaseName(p) == ['t'] + (Padded(p.runTime, 10) + (['.'] + ("p" + AfterTime(p))))
    ensures ("p" + AfterTime(p))[0] == 'p'
  {
    hide Signed, Padded;
    assert ".p" + AfterTime(p) == ['.'] + ("p" + AfterTime(p));
  }

  lemma LimitInRange(t: int)
    requires 0 <= t < 0x8000_0000
    ensures TimeLimit(t) == ['t'] + (Decimal(t) + ".zzz")
    ensures forall name :: TimeFilter(name, t) <==> LexLe(name, ['t'] + (Decimal(t) + ".zzz"))
  {
    hide Decimal, LexLe;
    assert ToInt32(t) == t;
  }

  // Different first characters decide.
  lemma FirstDecides(a: string, b: string)
    requires a != "" && b != "" && a[0] != b[0]
    ensures LexLe(a, b) <==> a[0] < b[0]
  {
  }

  lemma SameHead(c: char, x: string, y: string)
    ensures LexLe([c] + x, [c] + y) <==> LexLe(x, y)
  {
    assert ([c] + x)[1..] == x && ([c] + y)[1..] == y;
  }

  // From 2038 on, the limit is cut to a negative int and no job is selected any more.
  lemma TimeFilterStopsIn2038(p: Parts, t: int)
    requires p.runTime >= 0 && 0x8000_0000 <= t < 0x1_0000_0000
    ensures !TimeFilter(BaseName(p), t)
  {
    var a, b := Padded(p.runTime, 10), Decimal(0x1_0000_0000 - t) + ".zzz";
    assert a != "" && IsDigit(a[0]);
    LimitPast2038(t);
    NameFromTime(p);
    hide Padded, Decimal, BaseName, TimeLimit, AfterTime;
    var x := a + (['.'] + ("p" + AfterTime(p)));
    SameHead('t', x, ['-'] + b);
    FirstDecides(x, ['-'] + b);
  }

  lemma LimitPast2038(t: int)
    requires 0x8000_0000 <= t < 0x1_0000_0000
    ensures TimeLimit(t) == ['t'] + (['-'] + (Decimal(0x1_0000_0000 - t) + ".zzz"))
  {
    hide Decimal;
    assert ToInt32(t) == t - 0x1_0000_0000;
    assert "-" + Decimal(0x1_0000_0000 - t) + ".zzz" == ['-'] + (Decimal(0x1_0000_0000 - t) + ".zzz");
  }

  // ---- the filter at any time ----

  // The digits in front are what is left of the value without those behind.
  lemma {:induction false} ValueOfPrefix(s: string, k: nat)
    requires AllDigits(s) && k <= |s|
    ensures Value(s[..k]) == Value(s) / Pow10(|s| - k)
    decreases |s| - k
  {
    if k == |s| {
      assert s[..k] == s;
    } else {
      ValueOfPrefix(s, k + 1);
      var d := DigitValue(s[k]);
      assert s[..k + 1][..k] == s[..k] && s[..k + 1][k] == s[k];
      assert Value(s[..k + 1]) == 10 * Value(s[..k]) + d;
      DivideTwice(Value(s), Pow10(|s| - k - 1), Value(s[..k]), d);
    }
  }

  lemma DivideTwice(v: nat, p: nat, q: nat, d: nat)
    requires p > 0 && d < 10 && v / p == 10 * q + d
    ensures v / (10 * p) == q
  {
    var r := v % p;
    assert v == p * (10 * q + d) + r;
    assert v == (10 * p) * q + (p * d + r) by { Distributes(p, q, d); }
    assert p * d + r < 10 * p by { AtMostNine(p, d); }
    QuotientIs(v, 10 * p, q, p * d + r);
  }

  lemma Distributes(p: nat, q: nat, d: nat)
    ensures p * (10 * q + d) == (10 * p) * q + p * d
  {
  }

  lemma AtMostNine(p: nat, d: nat)
    requires d <= 9
    ensures p * d <= 9 * p
  {
  }

  lemma QuotientIs(v: nat, m: nat, q: nat, r: nat)
    requires m > 0 && r < m && v == m * q + r
    ensures v / m == q
  {
    var w, e := v / m, v / m - q;
    assert m * w + v % m == v;
    assert m * e == m * w - m * q by { Differs(m, w, q); }
    Multiples(m, e);
  }

  lemma Differs(m: int, w: int, q: int)
    ensures m * (w - q) == m * w - m * q
  {
  }

  lemma Multiples(m: int, e: int)
    requires m > 0
    ensures e >= 1 ==> m * e >= m
    ensures e <= -1 ==> m * e <= -m
  {
    assert m * e == m * (e - 1) + m && m * e == m * (e + 1) - m;
    assert e >= 1 ==> m * (e - 1) >= 0;
    assert e <= -1 ==> m * (e + 1) <= 0;
  }

  // Whether the filter lets a run time through when the limit has the low 31 bits u: a limit of fewer than ten digits
  // is compared with as many leading digits of the run time.
  predicate Passes(runTime: nat, u: nat) {
    var k := |Decimal(u)|;
    if k >= 10 then runTime <= u else runTime / Pow10(10 - k) < u
  }

  // A longer digit string against a shorter one: the digits they share decide, and a further digit is greater than
  // the dot behind the shorter one.
  lemma LongerLimit(a: string, b: string, x: string)
    requires AllDigits(a) && AllDigits(b) && |b| < |a|
    ensures LexLe(a + x, b + ".zzz") <==> Value(a) / Pow10(|a| - |b|) < Value(b)
  {
    var k := |b|;
    var rest := a[k..] + x;
    SplitDigits(a, k, x);
    hide *;
    ValueOfPrefix(a, k);
    DigitOrder(a[..k], b, rest, ".zzz");
    FirstDecides(rest, ".zzz");
  }

  lemma SplitDigits(a: string, k: nat, x: string)
    requires AllDigits(a) && k < |a|
    ensures var rest := a[k..] + x;
            a + x == a[..k] + rest && rest != "" && rest[0] > '.' && AllDigits(a[..k]) && |a[..k]| == k
  {
    assert IsDigit(a[k]);
  }

  lemma LimitOf(t: int)
    requires 0 <= t % 0x1_0000_0000 < 0x8000_0000
    ensures TimeLimit(t) == ['t'] + (Decimal(t % 0x1_0000_0000) + ".zzz")
  {
    hide Decimal;
  }

  lemma NegativeLimit(t: int)
    requires t % 0x1_0000_0000 >= 0x8000_0000
    ensures TimeLimit(t) == ['t'] + (['-'] + (Decimal(0x1_0000_0000 - t % 0x1_0000_0000) + ".zzz"))
  {
    hide Decimal;
    var d := Decimal(0x1_0000_0000 - t % 0x1_0000_0000);
    assert "-" + d + ".zzz" == ['-'] + (d + ".zzz");
  }

  // What the filter does with any limit: the limit is cut to 32 bits; a negative one lets nothing through, and one
  // that is not is compared as Passes says.
  lemma TimeFilterAtAnyTime(p: Parts, t: int)
    requires 0 <= p.runTime < 10_000_000_000
    ensures var u := t % 0x1_0000_0000;
            TimeFilter(BaseName(p), t) <==> u < 0x8000_0000 && Passes(p.runTime, u)
  {
    hide *;
    var u := t % 0x1_0000_0000;
    var a, x := Padded(p.runTime, 10), ['.'] + ("p" + AfterTime(p));
    NameFromTime(p);
    TenDigitRunTime(p.runTime);
    FilterMeans(BaseName(p), t);
    if u < 0x8000_0000 {
      LimitOf(t);
      SameHead('t', a + x, Decimal(u) + ".zzz");
      LimitDecides(p.runTime, a, "p" + AfterTime(p), u);
    } else {
      NegativeLimit(t);
      var b := Decimal(0x1_0000_0000 - u) + ".zzz";
      SameHead('t', a + x, ['-'] + b);
      SplitDigits(a, 0, x);
      FirstDecides(a + x, ['-'] + b);
    }
  }

  lemma FilterMeans(dname: string, t: int)
    ensures TimeFilter(dname, t) <==> LexLe(dname, TimeLimit(t))
  {
  }

  lemma LimitDecides(runTime: nat, a: string, rest: string, u: nat)
    requires |a| == 10 && AllDigits(a) && Value(a) == runTime && u < 0x8000_0000 && rest != "" && rest[0] == 'p'
    ensures LexLe(a + (['.'] + rest), Decimal(u) + ".zzz") <==> Passes(runTime, u)
  {
    var b := Decimal(u);
    AtMostTenDigits(u);
    if |b| < 10 {
      hide LexLe, Value, Pow10, Decimal;
      LongerLimit(a, b, ['.'] + rest);
    } else {
      hide LexLe, Value, Pow10, Decimal;
      DigitOrder(a, b, ['.'] + rest, ".zzz");
      assert ".zzz" == ['.'] + "zzz";
      SameHead('.', rest, "zzz");
      FirstDecides(rest, "zzz");
    }
  }

  lemma TenDigitRunTime(runTime: nat)
    requires runTime < 10_000_000_000
    ensures var a := Padded(runTime, 10); |a| == 10 && AllDigits(a) && Value(a) == runTime && IsDigit(a[0])
  {
    TenDigits();
    ShortDecimal(runTime, 10);
  }

  lemma AtMostTenDigits(u: nat)
    requires u < 0x8000_0000
    ensures |Decimal(u)| <= 10
  {
    TenDigits();
    ShortDecimal(u, 10);
  }
}
