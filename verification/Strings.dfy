/** String and string-list helpers: substitution, splitting, list difference. */
module Strings {
  type StringList = seq<string>

  // ---- searching ----

  predicate OccursAt(s: string, pat: string, k: nat) { k + |pat| <= |s| && s[k..k + |pat|] == pat }

  const NPOS := -1

  // The first occurrence of pat in s at or after position k, or NPOS.
  function Find(s: string, pat: string, k: nat): (r: int)
    requires k <= |s|
    ensures r == NPOS || (k <= r && OccursAt(s, pat, r) && forall i | k <= i < r :: !OccursAt(s, pat, i))
    ensures r == NPOS ==> forall i | k <= i :: !OccursAt(s, pat, i)
    decreases |s| - k
  {
    if OccursAt(s, pat, k) then k
    else if k == |s| then NPOS
    else Find(s, pat, k + 1)
  }

  // ---- replace_all ----

  // Left-to-right, non-overlapping substitution, read one position at a time; n = 0 sets no limit.
  function Subst(s: string, from: string, to: string, n: nat): string
    requires from != ""
    decreases |s|, 0
  {
    if s == "" then ""
    else if OccursAt(s, from, 0) then to + SubstMore(s[|from|..], from, to, n)
    else [s[0]] + Subst(s[1..], from, to, n)
  }

  // What becomes of the text behind an occurrence.
  function SubstMore(behind: string, from: string, to: string, n: nat): string
    requires from != ""
    decreases |behind|, 1
  {
    if n == 1 then behind else Subst(behind, from, to, if n == 0 then 0 else n - 1)
  }

  lemma OccursShift(s: string, pat: string, k: nat, i: nat)
    requires k <= |s|
    ensures OccursAt(s[k..], pat, i) <==> OccursAt(s, pat, k + i)
  {
    if k + i + |pat| <= |s| {
      assert s[k..][i..i + |pat|] == s[k + i..k + i + |pat|];
    }
  }

  // Up to the first occurrence the text is kept.
  lemma {:induction false} SubstSkips(s: string, from: string, to: string, n: nat, p: nat)
    requires from != "" && p <= |s| && forall i | 0 <= i < p :: !OccursAt(s, from, i)
    ensures Subst(s, from, to, n) == s[..p] + Subst(s[p..], from, to, n)
  {
    if p > 0 {
      assert !OccursAt(s, from, 0);
      forall i | 0 <= i < p - 1
        ensures !OccursAt(s[1..], from, i)
      {
        OccursShift(s, from, 1, i);
      }
      SubstSkips(s[1..], from, to, n, p - 1);
      assert s[1..][p - 1..] == s[p..] && [s[0]] + s[1..][..p - 1] == s[..p];
    } else {
      assert s[0..] == s;
    }
  }

  // The first occurrence is replaced, and the search goes on behind it.
  lemma SubstFirst(s: string, from: string, to: string, n: nat, p: nat)
    requires from != "" && OccursAt(s, from, p) && forall i | 0 <= i < p :: !OccursAt(s, from, i)
    ensures Subst(s, from, to, n) == s[..p] + (to + SubstMore(s[p + |from|..], from, to, n))
  {
    SubstSkips(s, from, to, n, p);
    OccursShift(s, from, p, 0);
    assert s[p..][|from|..] == s[p + |from|..];
    hide SubstMore;
  }

  lemma SubstWithout(s: string, from: string, to: string, n: nat)
    requires from != "" && forall i | 0 <= i :: !OccursAt(s, from, i)
    ensures Subst(s, from, to, n) == s
  {
    SubstSkips(s, from, to, n, |s|);
    assert s[..|s|] == s && s[|s|..] == "";
  }

  lemma FirstFrom(r: string, start: nat, p: nat, pat: string)
    requires start <= p && OccursAt(r, pat, p) && forall i | start <= i < p :: !OccursAt(r, pat, i)
    ensures OccursAt(r[start..], pat, p - start) && forall i | 0 <= i < p - start :: !OccursAt(r[start..], pat, i)
  {
    forall i | 0 <= i < p - start
      ensures !OccursAt(r[start..], pat, i)
    {
      OccursShift(r, pat, start, i);
    }
    OccursShift(r, pat, start, p - start);
  }

  // One turn of the loop of replace_all, with the text before start already treated.
  lemma ReplaceStep(r: string, start: nat, p: nat, from: string, to: string, m: nat)
    requires from != "" && start <= p && OccursAt(r, from, p)
    requires forall i | start <= i < p :: !OccursAt(r, from, i)
    ensures r[..start] + Subst(r[start..], from, to, m) == r[..p] + (to + SubstMore(r[p + |from|..], from, to, m))
  {
    FirstFrom(r, start, p, from);
    OccursLength(r, from, p);
    hide *;
    SubstFirst(r[start..], from, to, m, p - start);
    DropTwice(r, start, p, |from|);
    Glue(r[..start], r[start..p], to + SubstMore(r[p + |from|..], from, to, m));
    Halves(r, start, p);
  }

  lemma Glue(a: string, b: string, c: string)
    ensures a + (b + c) == (a + b) + c
  {
  }

  lemma Halves(r: string, start: nat, p: nat)
    requires start <= p <= |r|
    ensures r[..start] + r[start..p] == r[..p]
  {
  }

  lemma ReplaceLast(r: string, start: nat, from: string, to: string, m: nat)
    requires from != "" && start <= |r| && forall i | start <= i :: !OccursAt(r, from, i)
    ensures r[..start] + Subst(r[start..], from, to, m) == r
  {
    forall i | 0 <= i
      ensures !OccursAt(r[start..], from, i)
    {
      OccursShift(r, from, start, i);
    }
    SubstWithout(r[start..], from, to, m);
  }

  // Replaces the first n occurrences of from in str, all of them when n = 0.
  method ReplaceAll(str: string, from: string, to: string, n: nat) returns (r: string)
    ensures r == if from == "" then str else Subst(str, from, to, n)
  {
    r := str;
    if from == "" { return; }
    var m, start: nat := n, 0;
    assert r[..0] + Subst(r[0..], from, to, m) == Subst(str, from, to, n) by { assert r[0..] == r; }
    while true
      invariant start <= |r| && (n == 0 <==> m == 0)
      invariant r[..start] + Subst(r[start..], from, to, m) == Subst(str, from, to, n)
      decreases |r| - start
    {
      var found := Find(r, from, start);
      if found == NPOS {
        ReplaceLast(r, start, from, to, m);
        return;
      }
      var p: nat := found;
      OccursLength(r, from, p);
      ReplaceStep(r, start, p, from, to, m);
      ghost var front, behind := r[..p], r[p + |from|..];
      Glue(front, to, SubstMore(behind, from, to, m));
      r := r[..p] + to + r[p + |from|..];
      if m != 0 {
        m := m - 1;
        if m == 0 { return; }
      }
      start := p + |to|;
      Tail(front + to, behind);
    }
  }

  lemma Tail(a: string, b: string)
    ensures (a + b)[|a|..] == b && (a + b)[..|a|] == a
  {
  }

  // Substituting one character is a map over the characters.
  lemma {:induction false} SubstCharAppend(s: string, c: char, to: string)
    requires s != ""
    ensures Subst(s, [c], to, 0) == (if s[0] == c then to else [s[0]]) + Subst(s[1..], [c], to, 0)
  {
    assert OccursAt(s, [c], 0) <==> s[0] == c;
  }

  // ---- split and join ----

  // The pieces of s between occurrences of d: all of them when parts is 0 or 1, else at most parts, the last
  // one unsplit.
  function Pieces(s: string, d: string, parts: nat): (r: StringList)
    ensures r != [] && (d != "" && parts >= 2 ==> |r| <= parts)
    decreases |s|, 0
  {
    var e := Find(s, d, 0);
    if d == "" || e == NPOS then [s] else [s[..e]] + Rest(s[e + |d|..], d, parts)
  }

  // The pieces of what is behind a delimiter.
  function Rest(tail: string, d: string, parts: nat): (r: StringList)
    ensures d != "" && parts >= 2 ==> |r| < parts
    decreases |tail|, 1
  {
    if parts == 2 then [tail] else Pieces(tail, d, if parts <= 1 then 0 else parts - 1)
  }

  function Join(list: StringList, d: string): string {
    if list == [] then ""
    else if |list| == 1 then list[0]
    else list[0] + d + Join(list[1..], d)
  }

  // split loses nothing: joining the pieces gives the text back.
  lemma {:induction false} SplitThenJoin(s: string, d: string, parts: nat)
    ensures Join(Pieces(s, d, parts), d) == s
    decreases |s|
  {
    var f := Find(s, d, 0);
    if d != "" && f != NPOS {
      var tail := s[f + |d|..];
      SplitThenJoin(tail, d, if parts <= 1 then 0 else parts - 1);
      var rest := Rest(tail, d, parts);
      assert rest != [] && Join(rest, d) == tail;
      assert ([s[..f]] + rest)[1..] == rest;
      assert s == s[..f] + d + tail;
    }
  }

  // The first place of a character is where the text before it does not have it.
  lemma FindChar(x: string, c: char, rest: string)
    requires c !in x
    ensures Find(x + [c] + rest, [c], 0) == |x| && Find(x, [c], 0) == NPOS
  {
    var s := x + [c] + rest;
    assert s[|x|..|x| + 1] == [c];
    assert OccursAt(s, [c], |x|);
    forall i: nat | i < |x|
      ensures !OccursAt(s, [c], i) && !OccursAt(x, [c], i)
    {
      assert s[i..i + 1] == [x[i]] == x[i..i + 1];
    }
  }

  // Joining pieces without the delimiter and splitting again gives the pieces back.
  lemma {:induction false} JoinThenSplit(list: StringList, c: char)
    requires list != [] && forall i | 0 <= i < |list| :: c !in list[i]
    ensures Pieces(Join(list, [c]), [c], 0) == list
  {
    if |list| == 1 {
      FindChar(list[0], c, "");
    } else {
      var rest := Join(list[1..], [c]);
      JoinThenSplit(list[1..], c);
      FindChar(list[0], c, rest);
      var s := list[0] + [c] + rest;
      assert s[|list[0]| + 1..] == rest && s[..|list[0]|] == list[0];
    }
  }

  lemma {:induction false} FindShift(s: string, d: string, b: nat, k: nat)
    requires b + k <= |s|
    ensures Find(s, d, b + k) == if Find(s[b..], d, k) == NPOS then NPOS else b + Find(s[b..], d, k)
    decreases |s| - b - k
  {
    OccursShift(s, d, b, k);
    hide OccursAt;
    assert Find(s[b..], d, k) ==
           if OccursAt(s, d, b + k) then k else if b + k == |s| then NPOS else Find(s[b..], d, k + 1);
    if !OccursAt(s, d, b + k) && b + k < |s| {
      FindShift(s, d, b, k + 1);
    }
  }

  // One turn of the loop of split.
  lemma LastPiece(s: string, d: string, b: nat, parts: nat)
    requires b <= |s| && d != "" && Find(s, d, b) == NPOS
    ensures Pieces(s[b..], d, parts) == [s[b..]]
  {
    FindShift(s, d, b, 0);
  }

  lemma FirstPiece(s: string, d: string, parts: nat, e: nat, first: string, tail: string)
    requires d != "" && Find(s, d, 0) == e && e + |d| <= |s| && first == s[..e] && tail == s[e + |d|..]
    ensures Pieces(s, d, parts) == [first] + Rest(tail, d, parts)
  {
    hide Rest;
  }

  lemma NextPiece(s: string, d: string, b: nat, parts: nat, e: nat)
    requires b <= |s| && d != "" && Find(s, d, b) == e
    ensures b <= e && e + |d| <= |s| && Pieces(s[b..], d, parts) == [s[b..e]] + Rest(s[e + |d|..], d, parts)
  {
    OccursLength(s, d, e);
    hide *;
    FindShift(s, d, b, 0);
    DropTwice(s, b, e, |d|);
    FirstPiece(s[b..], d, parts, e - b, s[b..e], s[e + |d|..]);
  }

  // The pieces in r are done, and those of the text from b on are left to do.
  ghost predicate SplitSoFar(s: string, d: string, parts: nat, r: StringList, b: nat, left: nat) {
    b <= |s| && (parts <= 1 ==> left <= 1) && (parts >= 2 ==> left == parts - |r| >= 2) &&
    Pieces(s, d, parts) == r + Pieces(s[b..], d, left)
  }

  lemma SplitOn(s: string, d: string, parts: nat, r: StringList, b: nat, left: nat, e: nat)
    requires SplitSoFar(s, d, parts, r, b, left) && d != "" && Find(s, d, b) == e
    ensures e + |d| <= |s| && b <= e
    ensures var next := r + [s[b..e]];
            if left == 2 then Pieces(s, d, parts) == next + [s[e + |d|..]]
            else SplitSoFar(s, d, parts, next, e + |d|, if left <= 1 then 0 else left - 1)
  {
    NextPiece(s, d, b, left, e);
    Append(r, s[b..e], Rest(s[e + |d|..], d, left));
    hide Pieces, Find, OccursAt;
  }

  lemma DropTwice(s: string, b: nat, e: nat, n: nat)
    requires b <= e && e + n <= |s|
    ensures s[b..][..e - b] == s[b..e] && s[b..][e - b + n..] == s[e + n..]
  {
  }

  method Split(s: string, d: string, parts: nat) returns (r: StringList)
    ensures r == Pieces(s, d, parts)
  {
    r := [];
    if d == "" { return [s]; }
    var b: nat := 0;
    ghost var left := parts;
    SplitStart(s, d, parts);
    hide SplitSoFar;
    while true
      invariant b <= |s| && SplitSoFar(s, d, parts, r, b, left)
      decreases |s| - b
    {
      var e := Find(s, d, b);
      if e == NPOS {
        SplitEnds(s, d, parts, r, b, left);
        break;
      }
      SplitLeft(s, d, parts, r, b, left);
      SplitOn(s, d, parts, r, b, left, e);
      r := r + [s[b..e]];
      b := e + |d|;
      if parts != 0 && |r| == parts - 1 { break; }
      left := if left <= 1 then 0 else left - 1;
    }
    r := r + [s[b..]];
  }

  lemma SplitStart(s: string, d: string, parts: nat)
    ensures SplitSoFar(s, d, parts, [], 0, parts)
  {
    assert s[0..] == s;
    assert [] + Pieces(s, d, parts) == Pieces(s, d, parts);
  }

  lemma SplitLeft(s: string, d: string, parts: nat, r: StringList, b: nat, left: nat)
    requires SplitSoFar(s, d, parts, r, b, left)
    ensures left == 2 <==> parts != 0 && |r| == parts - 2
  {
  }

  lemma SplitEnds(s: string, d: string, parts: nat, r: StringList, b: nat, left: nat)
    requires SplitSoFar(s, d, parts, r, b, left) && d != "" && Find(s, d, b) == NPOS
    ensures Pieces(s, d, parts) == r + [s[b..]]
  {
    LastPiece(s, d, b, left);
  }

  lemma Append(a: StringList, x: string, b: StringList)
    ensures a + ([x] + b) == (a + [x]) + b
  {
  }

  lemma OccursLength(s: string, d: string, k: nat)
    requires OccursAt(s, d, k)
    ensures k + |d| <= |s|
  {
  }
}
