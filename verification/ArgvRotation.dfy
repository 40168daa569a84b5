/**
 Option parsing in place: the argument vector is rotated, so that the options with their arguments come first and the
 non-options follow in their old order.
 */
module ArgvRotation {
  // One slot of argv: a null pointer or a text.
  datatype Arg = Null | Arg(text: string)

  function Text(x: Arg): string { match x case Null => "" case Arg(text) => text }

  // What the option table, the argument check and the action make of the option at some place: whether it takes
  // the next slot as its argument (if there is one), and whether parsing goes on.
  datatype Verdict = Verdict(takes: bool, goesOn: bool)

  // The verdicts on the options, by place.
  type Verdicts = seq<Verdict>

  function VerdictAt(verdict: Verdicts, i: nat): Verdict {
    if i < |verdict| then verdict[i] else Verdict(false, true)
  }

  // A lone minus is a non-option.
  predicate IsOperand(x: Arg) { Text(x) == "" || Text(x)[0] != '-' || Text(x) == "-" }

  predicate IsTerminator(x: Arg) { Text(x) == "--" }

  // The number of arguments before a null pointer, at most numargs; a negative numargs sets no limit.
  function Length(s: seq<Arg>, numargs: int): (n: nat)
    ensures n <= |s| && (numargs >= 0 ==> n <= numargs)
    ensures n < |s| && n != numargs ==> s[n].Null?
    ensures forall i | 0 <= i < n :: s[i].Arg?
  {
    if s == [] || s[0].Null? || numargs == 0 then 0 else 1 + Length(s[1..], numargs - 1)
  }

  // ---- what is an option ----

  // How many slots the option at i fills.
  function Width(s: seq<Arg>, verdict: Verdicts, i: nat): (n: nat)
    requires i < |s|
    ensures 1 <= n <= 2 && i + n <= |s|
  {
    if VerdictAt(verdict, i).takes && i + 1 < |s| then 2 else 1
  }

  // Whether the option at i ends the parse with an error.
  predicate Fatal(s: seq<Arg>, verdict: Verdicts, i: nat)
    requires i < |s|
  {
    !IsOperand(s[i]) && !IsTerminator(s[i]) && !VerdictAt(verdict, i).goesOn
  }

  // For each slot from i on, whether it is an option, an argument of one, or the terminator. An option with an error
  // is left where it is, but for one that has moved in front of its argument.
  function Marks(gnu: bool, s: seq<Arg>, verdict: Verdicts, i: nat): (m: seq<bool>)
    requires i <= |s|
    ensures |m| == |s| - i
    decreases |s| - i
  {
    if i == |s| then []
    else if IsOperand(s[i]) then
      if gnu then [false] + Marks(gnu, s, verdict, i + 1) else seq(|s| - i, _ => false)
    else if IsTerminator(s[i]) then [true] + seq(|s| - i - 1, _ => false)
    else
      var n := Width(s, verdict, i);
      if Fatal(s, verdict, i) then seq(|s| - i, k => n == 2 && k == 0)
      else seq(n, _ => true) + Marks(gnu, s, verdict, i + n)
  }

  // Where the loop stops, and whether it stops with an error.
  datatype Halt = Halt(at: nat, fatal: bool)

  function StopsAt(gnu: bool, s: seq<Arg>, verdict: Verdicts, i: nat): (r: Halt)
    requires i <= |s|
    ensures i <= r.at <= |s|
    decreases |s| - i
  {
    if i == |s| then Halt(i, false)
    else if IsOperand(s[i]) then if gnu then StopsAt(gnu, s, verdict, i + 1) else Halt(i, false)
    else if IsTerminator(s[i]) then Halt(i + 1, false)
    else if Fatal(s, verdict, i) then Halt(i + Width(s, verdict, i) - 1, true)
    else StopsAt(gnu, s, verdict, i + Width(s, verdict, i))
  }

  // The slots with this mark, in order.
  function Pick(s: seq<Arg>, marks: seq<bool>, mark: bool): (r: seq<Arg>)
    requires |s| == |marks|
    ensures |r| <= |s|
  {
    if s == [] then []
    else
      var n := |s| - 1;
      Pick(s[..n], marks[..n], mark) + if marks[n] == mark then [s[n]] else []
  }

  function Arranged(s: seq<Arg>, marks: seq<bool>): (r: seq<Arg>)
    requires |s| == |marks|
  {
    Pick(s, marks, true) + Pick(s, marks, false)
  }

  // ---- laws of the specification ----

  lemma {:induction false} PickAll(s: seq<Arg>, marks: seq<bool>, mark: bool)
    requires |s| == |marks| && forall i | 0 <= i < |s| :: marks[i] == mark
    ensures Pick(s, marks, mark) == s && Pick(s, marks, !mark) == []
  {
    if s != [] {
      var n := |s| - 1;
      PickAll(s[..n], marks[..n], mark);
      assert s == s[..n] + [s[n]];
    }
  }

  lemma {:induction false} PickConcat(s: seq<Arg>, m: seq<bool>, t: seq<Arg>, k: seq<bool>, mark: bool)
    requires |s| == |m| && |t| == |k|
    ensures Pick(s + t, m + k, mark) == Pick(s, m, mark) + Pick(t, k, mark)
  {
    if t == [] {
      assert s + t == s && m + k == m;
    } else {
      var n := |t| - 1;
      PickConcat(s, m, t[..n], k[..n], mark);
      assert (s + t)[..|s| + n] == s + t[..n] && (m + k)[..|s| + n] == m + k[..n];
      assert (s + t)[|s| + n] == t[n] && (m + k)[|s| + n] == k[n];
      var last := if k[n] == mark then [t[n]] else [];
      var front := Pick(s, m, mark);
      assert front + Pick(t[..n], k[..n], mark) + last == front + (Pick(t[..n], k[..n], mark) + last);
    }
  }

  // Nothing is lost and nothing comes up twice.
  lemma {:induction false} PicksAreComplete(s: seq<Arg>, marks: seq<bool>)
    requires |s| == |marks|
    ensures multiset(Pick(s, marks, true)) + multiset(Pick(s, marks, false)) == multiset(s)
  {
    if s != [] {
      var n := |s| - 1;
      PicksAreComplete(s[..n], marks[..n]);
      assert multiset(s) == multiset(s[..n]) + multiset{s[n]} by { assert s == s[..n] + [s[n]]; }
    }
  }

  lemma ArrangedIsPermutation(s: seq<Arg>, marks: seq<bool>)
    requires |s| == |marks|
    ensures multiset(Arranged(s, marks)) == multiset(s)
  {
    PicksAreComplete(s, marks);
  }

  // Order is kept on both sides: what was earlier among the picked comes earlier.
  lemma {:induction false} PickKeepsOrder(s: seq<Arg>, marks: seq<bool>, mark: bool) returns (at: seq<nat>)
    requires |s| == |marks|
    ensures |at| == |Pick(s, marks, mark)|
    ensures forall k | 0 <= k < |at| :: at[k] < |s| && marks[at[k]] == mark && Pick(s, marks, mark)[k] == s[at[k]]
    ensures forall j, k | 0 <= j < k < |at| :: at[j] < at[k]
    ensures forall i | 0 <= i < |s| && marks[i] == mark :: i in at
  {
    if s == [] {
      at := [];
    } else {
      var n := |s| - 1;
      at := PickKeepsOrder(s[..n], marks[..n], mark);
      if marks[n] == mark { at := at + [n]; }
    }
  }

  // What the specification makes of the slot at i.
  lemma MarksUnfold(gnu: bool, s: seq<Arg>, verdict: Verdicts, i: nat)
    requires i < |s|
    ensures var m, stop, n := Marks(gnu, s, verdict, i), StopsAt(gnu, s, verdict, i), Width(s, verdict, i);
            if IsOperand(s[i]) then
              !m[0] && if gnu then m[1..] == Marks(gnu, s, verdict, i + 1) && stop == StopsAt(gnu, s, verdict, i + 1)
                       else stop == Halt(i, false) && forall k | 0 <= k < |m| :: !m[k]
            else if IsTerminator(s[i]) then m[0] && stop == Halt(i + 1, false) && forall k | 1 <= k < |m| :: !m[k]
            else if !VerdictAt(verdict, i).goesOn then
              m[0] == (n == 2) && stop == Halt(i + n - 1, true) && forall k | 1 <= k < |m| :: !m[k]
            else m[0] && m[n - 1] && m[n..] == Marks(gnu, s, verdict, i + n) && stop == StopsAt(gnu, s, verdict, i + n)
  {
    hide IsOperand, IsTerminator;
  }

  // What its mark says of slot k: behind the stop everything is an operand; before it, what is not marked is an
  // operand of a gnu parse, and what is marked is an option, the terminator, or the argument of the option before it.
  predicate MarkMeans(gnu: bool, s: seq<Arg>, verdict: Verdicts, i: nat, k: nat)
    requires i <= k < |s|
  {
    var m, stop := Marks(gnu, s, verdict, i), StopsAt(gnu, s, verdict, i).at;
    if k >= stop then !m[k - i]
    else if !m[k - i] then gnu && IsOperand(s[k])
    else !IsOperand(s[k]) || (k > i && m[k - i - 1] && !IsOperand(s[k - 1]) && VerdictAt(verdict, k - 1).takes)
  }

  function Step(s: seq<Arg>, verdict: Verdicts, i: nat): (n: nat)
    requires i < |s|
    ensures 1 <= n && i + n <= |s|
  {
    if IsOperand(s[i]) then 1 else Width(s, verdict, i)
  }

  predicate GoesOn(gnu: bool, s: seq<Arg>, i: nat)
    requires i < |s|
  {
    if IsOperand(s[i]) then gnu else !IsTerminator(s[i])
  }

  lemma MarkOfFirst(gnu: bool, s: seq<Arg>, verdict: Verdicts, i: nat, k: nat)
    requires i <= k < |s| && !StopsAt(gnu, s, verdict, i).fatal
    requires k < i + Step(s, verdict, i) || !GoesOn(gnu, s, i)
    ensures MarkMeans(gnu, s, verdict, i, k)
  {
    MarksUnfold(gnu, s, verdict, i);
    var m, stop := Marks(gnu, s, verdict, i), StopsAt(gnu, s, verdict, i).at;
    hide Marks, StopsAt, IsOperand, IsTerminator, Width;
    if !GoesOn(gnu, s, i) {
      assert stop <= i + 1;
      if k > i {
        assert !m[k - i];
      }
    } else {
      assert stop >= i + Step(s, verdict, i);
    }
  }

  lemma MarkOfLater(gnu: bool, s: seq<Arg>, verdict: Verdicts, i: nat, n: nat, k: nat)
    requires i + n <= k < |s| && !StopsAt(gnu, s, verdict, i).fatal && GoesOn(gnu, s, i) && n == Step(s, verdict, i)
    requires MarkMeans(gnu, s, verdict, i + n, k)
    ensures MarkMeans(gnu, s, verdict, i, k)
  {
    StopsLater(gnu, s, verdict, i);
    MarksLater(gnu, s, verdict, i, n);
    hide Marks, StopsAt, IsOperand, IsTerminator, Width, VerdictAt, Step, GoesOn;
    var m := Marks(gnu, s, verdict, i);
    assert m[k - i] == m[n..][k - i - n];
    assert k > i + n ==> m[k - i - 1] == m[n..][k - i - n - 1];
  }

  lemma MarksLater(gnu: bool, s: seq<Arg>, verdict: Verdicts, i: nat, n: nat)
    requires i < |s| && !StopsAt(gnu, s, verdict, i).fatal && GoesOn(gnu, s, i) && n == Step(s, verdict, i)
    ensures Marks(gnu, s, verdict, i)[n..] == Marks(gnu, s, verdict, i + n)
  {
    var first := seq(n, _ => !IsOperand(s[i]));
    MarksParts(gnu, s, verdict, i, n, first);
    hide *;
    DropFirst(first, Marks(gnu, s, verdict, i + n));
  }

  lemma MarksParts(gnu: bool, s: seq<Arg>, verdict: Verdicts, i: nat, n: nat, first: seq<bool>)
    requires i < |s| && !StopsAt(gnu, s, verdict, i).fatal && GoesOn(gnu, s, i) && n == Step(s, verdict, i)
    requires first == seq(n, _ => !IsOperand(s[i]))
    ensures Marks(gnu, s, verdict, i) == first + Marks(gnu, s, verdict, i + n)
  {
    hide IsOperand, IsTerminator, Width, VerdictAt;
    if IsOperand(s[i]) {
      assert first == [false];
    } else {
      assert first == seq(n, _ => true);
    }
  }

  lemma DropFirst(a: seq<bool>, b: seq<bool>)
    ensures (a + b)[|a|..] == b
  {
  }

  lemma StopsLater(gnu: bool, s: seq<Arg>, verdict: Verdicts, i: nat)
    requires i < |s| && !StopsAt(gnu, s, verdict, i).fatal && GoesOn(gnu, s, i)
    ensures StopsAt(gnu, s, verdict, i) == StopsAt(gnu, s, verdict, i + Step(s, verdict, i))
  {
    hide IsOperand, IsTerminator;
  }

  lemma {:induction false} MarksMean(gnu: bool, s: seq<Arg>, verdict: Verdicts, i: nat, k: nat)
    requires i <= k < |s| && !StopsAt(gnu, s, verdict, i).fatal
    ensures MarkMeans(gnu, s, verdict, i, k)
    decreases |s| - i
  {
    hide Marks, StopsAt, GoesOn, MarkMeans, Step, VerdictAt, IsOperand, IsTerminator;
    var n := Step(s, verdict, i);
    if k < i + n || !GoesOn(gnu, s, i) {
      MarkOfFirst(gnu, s, verdict, i, k);
    } else {
      StopsLater(gnu, s, verdict, i);
      MarksMean(gnu, s, verdict, i + n, k);
      MarkOfLater(gnu, s, verdict, i, n, k);
    }
  }

  // ---- the rotation ----

  function Rotated(s: seq<Arg>, p: nat, count: nat): seq<Arg>
    requires count <= p < |s|
  {
    s[..p - count] + [s[p]] + s[p - count..p] + s[p + 1..]
  }

  // Moves the slot at p in front of the count slots before it.
  method Shift(args: array<Arg>, p: nat, count: nat)
    requires count <= p < args.Length
    modifies args
    ensures args[..] == Rotated(old(args[..]), p, count)
  {
    ghost var s := args[..];
    var i := 0;
    while i < count
      invariant i <= count
      invariant args[p - i] == s[p]
      invariant forall k | 0 <= k < p - i || p < k < args.Length :: args[k] == s[k]
      invariant forall k | p - i < k <= p :: args[k] == s[k - 1]
    {
      var temp := args[p - i];
      args[p - i] := args[p - i - 1];
      args[p - i - 1] := temp;
      i := i + 1;
    }
    RotatedAt(s, args[..], p, count);
  }

  lemma RotatedAt(s: seq<Arg>, r: seq<Arg>, p: nat, count: nat)
    requires count <= p < |s| == |r| && r[p - count] == s[p]
    requires forall k | 0 <= k < p - count || p < k < |s| :: r[k] == s[k]
    requires forall k | p - count < k <= p :: r[k] == s[k - 1]
    ensures r == Rotated(s, p, count)
  {
    var q := Rotated(s, p, count);
    assert |q| == |s|;
    forall k | 0 <= k < |s|
      ensures r[k] == q[k]
    {
      if p - count < k <= p {
        assert q[k] == s[p - count..p][k - (p - count) - 1] == s[k - 1];
      }
    }
  }

  // Rotating the next option over the operands read so far keeps the arrangement.
  lemma OptionRotated(s: seq<Arg>, m: seq<bool>, p: nat, a: seq<Arg>, nonops: nat)
    requires p < |s| == |m| && |a| >= |s| && m[p] && nonops == |Pick(s[..p], m[..p], false)|
    requires a[..p] == Arranged(s[..p], m[..p]) && a[p] == s[p]
    ensures |Pick(s[..p], m[..p], true)| + nonops == p
    ensures var r := Rotated(a, p, nonops);
            r[..p + 1] == Arranged(s[..p + 1], m[..p + 1]) && r[p + 1..] == a[p + 1..] &&
            |Pick(s[..p + 1], m[..p + 1], false)| == nonops
  {
    NextPick(s, m, p);
    var yes, no := Pick(s[..p], m[..p], true), Pick(s[..p], m[..p], false);
    hide Pick;
    RotatedParts(a, yes, no);
  }

  lemma RotatedParts(a: seq<Arg>, yes: seq<Arg>, no: seq<Arg>)
    requires |yes| + |no| < |a| && a[..|yes| + |no|] == yes + no
    ensures var p := |yes| + |no|;
            Rotated(a, p, |no|)[..p + 1] == yes + [a[p]] + no && Rotated(a, p, |no|)[p + 1..] == a[p + 1..]
  {
    var p := |yes| + |no|;
    assert a[..|yes|] == a[..p][..|yes|] == yes;
    assert a[|yes|..p] == a[..p][|yes|..] == no;
  }

  lemma NextPick(s: seq<Arg>, m: seq<bool>, p: nat)
    requires p < |s| == |m|
    ensures forall mark :: Pick(s[..p + 1], m[..p + 1], mark) ==
                           Pick(s[..p], m[..p], mark) + if m[p] == mark then [s[p]] else []
  {
    assert s[..p + 1][..p] == s[..p] && m[..p + 1][..p] == m[..p];
  }

  // The arguments s have been read up to p, nonops of them operands; what is behind the arguments is as it was.
  ghost predicate Read(a: seq<Arg>, was: seq<Arg>, n: nat, m: seq<bool>, p: nat, nonops: nat) {
    p <= n == |m| <= |a| == |was| && a[..p] == Arranged(was[..p], m[..p]) && a[p..] == was[p..] &&
    nonops == |Pick(was[..p], m[..p], false)|
  }

  lemma ReadOption(a: seq<Arg>, was: seq<Arg>, n: nat, m: seq<bool>, p: nat, nonops: nat)
    requires Read(a, was, n, m, p, nonops) && p < n && m[p]
    ensures nonops <= p && Read(Rotated(a, p, nonops), was, n, m, p + 1, nonops)
  {
    var s := was[..n];
    assert s[..p] == was[..p] && s[..p + 1] == was[..p + 1] && a[p] == a[p..][0] == was[p];
    OptionRotated(s, m, p, a, nonops);
    assert a[p + 1..] == a[p..][1..];
  }

  lemma ReadOperand(a: seq<Arg>, was: seq<Arg>, n: nat, m: seq<bool>, p: nat, nonops: nat)
    requires Read(a, was, n, m, p, nonops) && p < n && !m[p]
    ensures Read(a, was, n, m, p + 1, nonops + 1)
  {
    var s := was[..n];
    assert s[..p] == was[..p] && s[..p + 1] == was[..p + 1] && a[p] == a[p..][0] == was[p];
    NextPick(s, m, p);
    assert a[..p + 1] == a[..p] + [a[p]];
    assert a[p + 1..] == a[p..][1..];
  }

  lemma RestIsPicked(was: seq<Arg>, n: nat, m: seq<bool>, p: nat)
    requires p <= n == |m| <= |was| && forall k | p <= k < n :: !m[k]
    ensures Pick(was[..n], m, true) == Pick(was[..p], m[..p], true)
    ensures Pick(was[..n], m, false) == Pick(was[..p], m[..p], false) + was[p..n]
  {
    PickAll(was[p..n], m[p..], false);
    assert was[..n] == was[..p] + was[p..n] && m == m[..p] + m[p..];
    PickConcat(was[..p], m[..p], was[p..n], m[p..], true);
    PickConcat(was[..p], m[..p], was[p..n], m[p..], false);
  }

  // Everything from p on is an operand and stays where it is.
  lemma ReadRest(a: seq<Arg>, was: seq<Arg>, n: nat, m: seq<bool>, p: nat, nonops: nat)
    requires Read(a, was, n, m, p, nonops) && forall k | p <= k < n :: !m[k]
    ensures a[..n] == Arranged(was[..n], m) && a[n..] == was[n..]
    ensures p - nonops == |Pick(was[..n], m, true)| && nonops + (n - p) == |Pick(was[..n], m, false)|
  {
    RestIsPicked(was, n, m, p);
    assert |Pick(was[..p], m[..p], true)| + |Pick(was[..p], m[..p], false)| == p by {
      assert |Arranged(was[..p], m[..p])| == |a[..p]| == p;
    }
    hide Pick;
    assert a[p..n] == a[p..][..n - p] == was[p..n];
    assert a[..n] == a[..p] + a[p..n];
    assert a[n..] == a[p..][n - p..] == was[n..];
  }

  lemma ReadNothing(was: seq<Arg>, n: nat, m: seq<bool>)
    requires n == |m| <= |was|
    ensures Read(was, was, n, m, 0, 0)
  {
  }

  // The specification agrees with m on what is ahead of p.
  ghost predicate Ahead(gnu: bool, s: seq<Arg>, verdict: Verdicts, m: seq<bool>, p: nat) {
    p <= |s| == |m| && m[p..] == Marks(gnu, s, verdict, p) &&
    StopsAt(gnu, s, verdict, 0) == StopsAt(gnu, s, verdict, p)
  }

  // The loop ends at p, and everything behind it is an operand.
  ghost predicate Stopped(gnu: bool, s: seq<Arg>, verdict: Verdicts, m: seq<bool>, p: nat, fatal: bool) {
    p <= |s| == |m| && StopsAt(gnu, s, verdict, 0) == Halt(p, fatal) && forall k | p <= k < |m| :: !m[k]
  }

  // What the specification makes of the next slot.
  lemma NextSlot(gnu: bool, s: seq<Arg>, verdict: Verdicts, m: seq<bool>, p: nat)
    requires Ahead(gnu, s, verdict, m, p)
    ensures p == |s| ==> Stopped(gnu, s, verdict, m, p, false)
    ensures p < |s| ==>
              var n := Width(s, verdict, p);
              if IsOperand(s[p]) then
                !m[p] && if gnu then Ahead(gnu, s, verdict, m, p + 1) else Stopped(gnu, s, verdict, m, p, false)
              else if IsTerminator(s[p]) then m[p] && Stopped(gnu, s, verdict, m, p + 1, false)
              else if !VerdictAt(verdict, p).goesOn then
                (n == 2 ==> m[p]) && Stopped(gnu, s, verdict, m, p + n - 1, true)
              else m[p] && m[p + n - 1] && Ahead(gnu, s, verdict, m, p + n)
  {
    hide IsOperand, IsTerminator, Width;
    if p < |s| {
      assert forall k | p <= k < |m| :: m[k] == m[p..][k - p];
      assert forall n | 0 <= n <= |m| - p :: m[p..][n..] == m[p + n..];
    }
  }

  lemma NextOperand(gnu: bool, s: seq<Arg>, verdict: Verdicts, m: seq<bool>, p: nat)
    requires Ahead(gnu, s, verdict, m, p) && p < |s| && IsOperand(s[p])
    ensures !m[p] && if gnu then Ahead(gnu, s, verdict, m, p + 1) else Stopped(gnu, s, verdict, m, p, false)
  {
    NextSlot(gnu, s, verdict, m, p);
    hide Ahead, Stopped, Marks, StopsAt;
  }

  lemma NextTerminator(gnu: bool, s: seq<Arg>, verdict: Verdicts, m: seq<bool>, p: nat)
    requires Ahead(gnu, s, verdict, m, p) && p < |s| && !IsOperand(s[p]) && IsTerminator(s[p])
    ensures m[p] && Stopped(gnu, s, verdict, m, p + 1, false)
  {
    NextSlot(gnu, s, verdict, m, p);
    hide Ahead, Stopped, Marks, StopsAt;
  }

  lemma NextOption(gnu: bool, s: seq<Arg>, verdict: Verdicts, m: seq<bool>, p: nat)
    requires Ahead(gnu, s, verdict, m, p) && p < |s| && !IsOperand(s[p]) && !IsTerminator(s[p])
    ensures var n := Width(s, verdict, p);
            (VerdictAt(verdict, p).goesOn || n == 2 ==> m[p]) && (VerdictAt(verdict, p).goesOn ==> m[p + n - 1]) &&
            if VerdictAt(verdict, p).goesOn then Ahead(gnu, s, verdict, m, p + n)
            else Stopped(gnu, s, verdict, m, p + n - 1, true)
  {
    NextSlot(gnu, s, verdict, m, p);
    hide Ahead, Stopped, Marks, StopsAt;
  }

  // The caller gives the number of arguments, or a null pointer ends them.
  predicate Fits(a: seq<Arg>, argc: int) { Length(a, argc) == argc || Length(a, argc) < |a| }

  // The slot at p, as the loop sees it.
  lemma SlotAt(a: seq<Arg>, was: seq<Arg>, argc: int, m: seq<bool>, p: nat, nonops: nat)
    requires Fits(was, argc) && Read(a, was, Length(was, argc), m, p, nonops)
    ensures argc - p != 0 ==> p < |a| && a[p] == was[p] && (a[p].Arg? <==> p < Length(was, argc))
    ensures argc - p == 0 ==> p == Length(was, argc)
    ensures p < Length(was, argc) && (argc - p > 1 || argc < 0) ==>
              p + 1 < |a| && a[p + 1] == was[p + 1] && (a[p + 1].Arg? <==> p + 1 < Length(was, argc))
    ensures p < Length(was, argc) && !(argc - p > 1 || argc < 0) ==> p + 1 == Length(was, argc)
  {
    hide Arranged, Pick, Length;
    if p < |a| {
      assert a[p] == a[p..][0] == was[p];
    }
    if p + 1 < |a| {
      assert a[p + 1] == a[p..][1] == was[p + 1];
    }
  }

  // Moves the option at p in front of the operands read so far.
  method Advance(args: array<Arg>, p: nat, nonops: nat, numargs: int, ghost was: seq<Arg>, ghost n: nat,
                 ghost m: seq<bool>)
    returns (q: nat, left: int)
    requires Read(args[..], was, n, m, p, nonops) && p < n && m[p] && numargs != 0
    modifies args
    ensures q == p + 1 && left == if numargs < 0 then numargs else numargs - 1
    ensures Read(args[..], was, n, m, q, nonops)
  {
    ReadOption(args[..], was, n, m, p, nonops);
    Shift(args, p, nonops);
    q, left := p + 1, if numargs > 0 then numargs - 1 else numargs;
  }

  // The option at p, with the slot behind it if it takes that.
  method TakeOption(args: array<Arg>, p: nat, nonops: nat, numargs: int, verdict: Verdicts, ghost was: seq<Arg>,
                    ghost argc: int, ghost m: seq<bool>)
    returns (q: nat, left: int, goesOn: bool)
    requires Fits(was, argc) && Read(args[..], was, Length(was, argc), m, p, nonops)
    requires p < Length(was, argc) && numargs == if argc < 0 then argc else argc - p
    requires var n := Width(was[..Length(was, argc)], verdict, p);
             (VerdictAt(verdict, p).goesOn || n == 2 ==> m[p]) && (VerdictAt(verdict, p).goesOn ==> m[p + n - 1])
    modifies args
    ensures goesOn == VerdictAt(verdict, p).goesOn
    ensures q == p + Width(was[..Length(was, argc)], verdict, p) - if goesOn then 0 else 1
    ensures left == (if argc < 0 then argc else argc - q) && Read(args[..], was, Length(was, argc), m, q, nonops)
  {
    SlotAt(args[..], was, argc, m, p, nonops);
    ghost var n := Length(was, argc);
    hide Length, Read, Fits;
    var v, haveMoreArgs := VerdictAt(verdict, p), numargs > 1 || numargs < 0;
    q, left, goesOn := p, numargs, v.goesOn;
    if v.takes && haveMoreArgs && args[p + 1].Arg? {
      q, left := Advance(args, q, nonops, left, was, n, m);
    }
    if goesOn {
      q, left := Advance(args, q, nonops, left, was, n, m);
    }
  }

  // The number of arguments left at p; if it is not known, up to the null pointer.
  method Remaining(args: array<Arg>, p: nat, numargs: int, ghost n: nat) returns (left: int)
    requires p <= n <= args.Length && forall k | p <= k < n :: args[k].Arg?
    requires n < args.Length && (numargs < 0 || numargs > n - p) ==> args[n].Null?
    requires n == args.Length ==> numargs == n - p
    ensures left == if numargs < 0 || p == n then n - p else numargs
  {
    left := numargs;
    if left > 0 && args[p].Null? { left := 0; }
    if left < 0 {
      left := 0;
      while args[p + left].Arg?
        invariant 0 <= left <= n - p
        decreases n - p - left
      {
        left := left + 1;
      }
    }
  }

  lemma SlotSeen(a: seq<Arg>, was: seq<Arg>, argc: int, gnu: bool, verdict: Verdicts, m: seq<bool>, p: nat,
                 nonops: nat)
    requires Fits(was, argc) && Ready(a, was, argc, gnu, verdict, m, p, nonops)
    ensures var n := Length(was, argc);
            p <= n && (argc - p != 0 ==> p < |a| && (a[p].Arg? <==> p < n)) &&
            (argc - p == 0 || p == n ==> Over(a, was, argc, gnu, verdict, m, p, nonops, false))
  {
    SlotAt(a, was, argc, m, p, nonops);
    NextSlot(gnu, was[..Length(was, argc)], verdict, m, p);
    hide Marks, StopsAt, IsOperand, IsTerminator, Length;
  }

  datatype Next = Go | End | Fail

  // Where the loop is: p slots read, nonops of them operands.
  ghost predicate Ready(a: seq<Arg>, was: seq<Arg>, argc: int, gnu: bool, verdict: Verdicts, m: seq<bool>,
                        p: nat, nonops: nat)
  {
    Read(a, was, Length(was, argc), m, p, nonops) && Ahead(gnu, was[..Length(was, argc)], verdict, m, p)
  }

  // The loop is over.
  ghost predicate Over(a: seq<Arg>, was: seq<Arg>, argc: int, gnu: bool, verdict: Verdicts, m: seq<bool>,
                       p: nat, nonops: nat, fatal: bool)
  {
    Read(a, was, Length(was, argc), m, p, nonops) && Stopped(gnu, was[..Length(was, argc)], verdict, m, p, fatal)
  }

  // One turn of the loop over the arguments.
  method ReadSlot(gnu: bool, args: array<Arg>, p: nat, nonops: nat, numargs: int, verdict: Verdicts,
                  ghost was: seq<Arg>, ghost argc: int, ghost m: seq<bool>)
    returns (q: nat, count: nat, left: int, next: Next)
    requires Fits(was, argc) && Ready(args[..], was, argc, gnu, verdict, m, p, nonops)
    requires p < Length(was, argc) && numargs == if argc < 0 then argc else argc - p
    modifies args
    ensures left == if argc < 0 then argc else argc - q
    ensures p <= q && if next.Go? then p < q && Ready(args[..], was, argc, gnu, verdict, m, q, count)
                      else Over(args[..], was, argc, gnu, verdict, m, q, count, next.Fail?)
  {
    hide *;
    ghost var n := Length(was, argc);
    ghost var s := was[..n];
    ReadyMeans(args[..], was, argc, gnu, verdict, m, p, nonops);
    SlotAt(args[..], was, argc, m, p, nonops);
    assert s[p] == args[p];
    q, count, left, next := p, nonops, numargs, Go;
    if IsOperand(args[p]) {
      NextOperand(gnu, s, verdict, m, p);
      if gnu {
        ReadOperand(args[..], was, n, m, p, nonops);
        count, q := nonops + 1, p + 1;
        if left > 0 { left := left - 1; }
      } else {
        next := End;
      }
    } else if IsTerminator(args[p]) {
      NextTerminator(gnu, s, verdict, m, p);
      q, left := Advance(args, p, nonops, numargs, was, n, m);
      next := End;
    } else {
      var goesOn;
      NextOption(gnu, s, verdict, m, p);
      q, left, goesOn := TakeOption(args, p, nonops, numargs, verdict, was, argc, m);
      if !goesOn { next := Fail; }
    }
    TurnMeans(args[..], was, argc, gnu, verdict, m, q, count, next);
  }

  lemma ReadyMeans(a: seq<Arg>, was: seq<Arg>, argc: int, gnu: bool, verdict: Verdicts, m: seq<bool>, p: nat,
                   nonops: nat)
    requires Ready(a, was, argc, gnu, verdict, m, p, nonops)
    ensures Read(a, was, Length(was, argc), m, p, nonops) && Ahead(gnu, was[..Length(was, argc)], verdict, m, p)
  {
    hide Read, Ahead, Length;
  }

  lemma TurnMeans(a: seq<Arg>, was: seq<Arg>, argc: int, gnu: bool, verdict: Verdicts, m: seq<bool>, p: nat,
                  nonops: nat, next: Next)
    requires Read(a, was, Length(was, argc), m, p, nonops)
    requires var s := was[..Length(was, argc)];
             if next.Go? then Ahead(gnu, s, verdict, m, p) else Stopped(gnu, s, verdict, m, p, next.Fail?)
    ensures if next.Go? then Ready(a, was, argc, gnu, verdict, m, p, nonops)
            else Over(a, was, argc, gnu, verdict, m, p, nonops, next.Fail?)
  {
    hide Read, Ahead, Stopped, Length;
  }

  // The loop over the arguments: it stops behind the terminator, at the first operand in POSIX mode, at an error, or
  // at the end.
  method ReadOptions(gnu: bool, argc: int, args: array<Arg>, verdict: Verdicts, ghost m: seq<bool>)
    returns (ok: bool, p: nat, nonops: nat, numargs: int)
    requires Fits(args[..], argc) && m == Marks(gnu, args[..][..Length(args[..], argc)], verdict, 0)
    modifies args
    ensures Over(args[..], old(args[..]), argc, gnu, verdict, m, p, nonops, !ok)
    ensures numargs == if argc < 0 then argc else argc - p
  {
    ghost var was, n := args[..], Length(args[..], argc);
    p, nonops, numargs := 0, 0, argc;
    ReadNothing(was, n, m);
    assert Ahead(gnu, was[..n], verdict, m, 0) by { assert m[0..] == m; }
    assert Ready(args[..], was, argc, gnu, verdict, m, p, nonops);
    SlotSeen(args[..], was, argc, gnu, verdict, m, p, nonops);
    hide Marks, Fits, Length, Over, Ready;
    while numargs != 0 && args[p].Arg?
      invariant p <= n && numargs == if argc < 0 then argc else argc - p
      invariant Ready(args[..], was, argc, gnu, verdict, m, p, nonops)
      invariant numargs != 0 ==> p < args.Length && (args[p].Arg? <==> p < n)
      invariant numargs == 0 || p == n ==> Over(args[..], was, argc, gnu, verdict, m, p, nonops, false)
      decreases n - p
    {
      var next;
      p, nonops, numargs, next := ReadSlot(gnu, args, p, nonops, numargs, verdict, was, argc, m);
      if !next.Go? { return !next.Fail?, p, nonops, numargs; }
      SlotSeen(args[..], was, argc, gnu, verdict, m, p, nonops);
    }
    ok := true;
  }

  // Parses the options in args[..argc] (negative argc: up to the null pointer); in gnu mode also those behind
  // non-options. The operands are args[first..first + count]; an argc that is too large is only noticed when the
  // null pointer is reached.
  method Workhorse(gnu: bool, argc: int, args: array?<Arg>, verdict: Verdicts)
    returns (ok: bool, first: int, count: int)
    requires args != null ==> Fits(args[..], argc)
    modifies args
    ensures args == null ==> ok && first == 0 && count == 0
    ensures args != null ==>
              var n := Length(old(args[..]), argc);
              var s := old(args[..])[..n];
              var m, stop := Marks(gnu, s, verdict, 0), StopsAt(gnu, s, verdict, 0);
              args[..][..n] == Arranged(s, m) && args[..][n..] == old(args[..])[n..] && ok == !stop.fatal &&
              (ok ==> first == |Pick(s, m, true)| &&
                      count == |Pick(s, m, false)| + if argc > n > stop.at then argc - n else 0)
  {
    if args == null { return true, 0, 0; }
    ghost var was := args[..];
    ghost var m := Marks(gnu, was[..Length(was, argc)], verdict, 0);
    hide *;
    var p, nonops, numargs;
    ok, p, nonops, numargs := ReadOptions(gnu, argc, args, verdict, m);
    OverMeans(args[..], was, argc, gnu, verdict, m, p, nonops, !ok);
    if !ok { return false, 0, 0; }
    numargs := Remaining(args, p, numargs, Length(was, argc));
    first, count := p - nonops, numargs + nonops;
  }

  // What there is when the loop is over.
  lemma OverMeans(a: seq<Arg>, was: seq<Arg>, argc: int, gnu: bool, verdict: Verdicts, m: seq<bool>, p: nat,
                  nonops: nat, fatal: bool)
    requires Fits(was, argc) && Over(a, was, argc, gnu, verdict, m, p, nonops, fatal)
    ensures var n := Length(was, argc);
            var s := was[..n];
            && p <= n <= |a| == |was| && |m| == n && a[..n] == Arranged(s, m) && a[n..] == was[n..]
            && StopsAt(gnu, s, verdict, 0) == Halt(p, fatal)
            && p - nonops == |Pick(s, m, true)| && nonops + (n - p) == |Pick(s, m, false)|
            && (forall k | p <= k < n :: a[k].Arg?) && (n < |a| && n != argc ==> a[n].Null?) && (n == |a| ==> argc == n)
  {
    var n := Length(was, argc);
    ReadRest(a, was, n, m, p, nonops);
    assert a[p..] == was[p..];
    assert forall k | p <= k < |a| :: a[k] == a[p..][k - p] == was[k];
    hide Arranged, Pick, StopsAt, Length;
  }
}
