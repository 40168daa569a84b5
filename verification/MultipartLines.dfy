/** Lines, caseless maps and single header lines of the job file format: the lemmas the round trip is built from. */
module MultipartLines {
  import opened JobTypes
  import opened Multipart

  // ---- text to lines ----

  // What a load in state m makes of some text.
  function TakeText(m: Machine, text: string): Outcome { TakeChunks(m, Chunks(text)) }

  predicate Whole(a: string) { a == "" || a[|a| - 1] == '\n' }

  lemma {:induction false} ChunkEndStays(a: string, b: string, n: nat)
    requires Whole(a) && 1 <= n <= |a| && n < LINE_MAXLEN
    ensures ChunkEnd(a + b, n) == ChunkEnd(a, n)
    decreases LINE_MAXLEN - n
  {
    assert (a + b)[n - 1] == a[n - 1];
    if a[n - 1] != '\n' && n < LINE_MAXLEN - 1 {
      ChunkEndStays(a, b, n + 1);
    }
  }

  // A newline ends a line whatever follows.
  lemma {:induction false} ChunksConcat(a: string, b: string)
    requires Whole(a)
    ensures Chunks(a + b) == Chunks(a) + Chunks(b)
    decreases |a|
  {
    if a == "" {
      assert a + b == b;
    } else {
      ChunkEndStays(a, b, 1);
      var n := ChunkLength(a);
      assert (a + b)[..n] == a[..n] && (a + b)[n..] == a[n..] + b;
      ChunksConcat(a[n..], b);
    }
  }

  lemma {:induction false} TakeChunksConcat(m: Machine, c: seq<string>, d: seq<string>)
    ensures var r := TakeChunks(m, c);
            TakeChunks(m, c + d) == if r.Go? then TakeChunks(r.m, d) else r
    decreases |c|
  {
    hide TakeLine, CString;
    if c == [] {
      assert c + d == d;
    } else {
      assert (c + d)[0] == c[0] && (c + d)[1..] == c[1..] + d;
      var r := TakeLine(m, CString(c[0]));
      if r.Go? {
        TakeChunksConcat(r.m, c[1..], d);
      }
    }
  }

  lemma TakeTextConcat(m: Machine, a: string, b: string)
    requires Whole(a)
    ensures var r := TakeText(m, a);
            TakeText(m, a + b) == if r.Go? then TakeText(r.m, b) else r
  {
    ChunksConcat(a, b);
    TakeChunksConcat(m, Chunks(a), Chunks(b));
  }

  lemma {:induction false} CStringWhole(s: string)
    requires '\0' !in s
    ensures CString(s) == s
  {
    if s != "" {
      CStringWhole(s[1..]);
    }
  }

  predicate OneLine(x: string) { '\n' !in x && '\0' !in x && |x| + 1 < LINE_MAXLEN }

  lemma {:induction false} ChunkEndOfLine(x: string, n: nat)
    requires OneLine(x) && 1 <= n <= |x| + 1
    ensures ChunkEnd(x + "\n", n) == |x| + 1
    decreases |x| + 1 - n
  {
    if n <= |x| {
      assert (x + "\n")[n - 1] == x[n - 1];
      ChunkEndOfLine(x, n + 1);
    }
  }

  lemma TakeOneLine(m: Machine, x: string)
    requires OneLine(x)
    ensures TakeText(m, x + "\n") == TakeLine(m, x + "\n")
  {
    ChunkEndOfLine(x, 1);
    var s := x + "\n";
    assert s[..|s|] == s && s[|s|..] == "";
    CStringWhole(s);
    hide TakeLine, CString, ChunkEnd;
    assert Chunks(s) == [s];
    var r := TakeLine(m, s);
    assert [s][1..] == [];
    if r.Go? {
      assert TakeChunks(r.m, []) == r;
    }
  }

  // ---- caseless maps ----

  lemma {:induction false} LessIsStrict(a: string, b: string)
    ensures Less(a, b) ==> !Less(b, a)
    ensures a == b ==> !Less(a, b)
  {
    if a != "" && b != "" {
      LessIsStrict(a[1..], b[1..]);
    }
  }

  // Tags neither of which is less are one key.
  lemma {:induction false} SameKey(t: string, u: string, x: string)
    requires !Less(t, u) && !Less(u, t)
    ensures Less(x, t) == Less(x, u) && Less(t, x) == Less(u, x)
  {
    if t != "" && u != "" && x != "" {
      SameKey(t[1..], u[1..], x[1..]);
    }
  }

  predicate Sorted(sec: Section) { forall i, j | 0 <= i < j < |sec| :: Less(sec[i].tag, sec[j].tag) }

  lemma {:induction false} GetPut(sec: Section, tag: string, v: string, w: string)
    ensures Get(Put(sec, tag, v), tag) == Some(v)
    ensures Put(Put(sec, tag, v), tag, w) == Put(sec, tag, w)
  {
    LessIsStrict(tag, tag);
    if sec != [] {
      LessIsStrict(tag, sec[0].tag);
      if Less(sec[0].tag, tag) {
        GetPut(sec[1..], tag, v, w);
      }
    }
  }

  // A greater tag goes to the end.
  lemma {:induction false} PutLast(sec: Section, tag: string, v: string)
    requires forall i | 0 <= i < |sec| :: Less(sec[i].tag, tag)
    ensures Put(sec, tag, v) == sec + [Field(tag, v)]
  {
    if sec != [] {
      LessIsStrict(sec[0].tag, tag);
      PutLast(sec[1..], tag, v);
    }
  }

  // A field goes to its place between smaller and greater tags.
  lemma {:induction false} PutBetween(front: Section, back: Section, f: Field)
    requires forall i | 0 <= i < |front| :: Less(front[i].tag, f.tag)
    requires back != [] ==> Less(f.tag, back[0].tag)
    ensures Put(front + back, f.tag, f.value) == front + [f] + back
  {
    if front == [] {
      assert front + back == back && front + [f] + back == [f] + back;
    } else {
      LessIsStrict(front[0].tag, f.tag);
      PutPasses(front, back, f);
      PutBetween(front[1..], back, f);
      hide *;
      Behind(front, back, f);
    }
  }

  lemma PutPasses(front: Section, back: Section, f: Field)
    requires front != [] && Less(front[0].tag, f.tag) && !Less(f.tag, front[0].tag)
    ensures Put(front + back, f.tag, f.value) == [front[0]] + Put(front[1..] + back, f.tag, f.value)
  {
    assert (front + back)[0] == front[0] && (front + back)[1..] == front[1..] + back;
    hide Less;
  }

  lemma Behind(front: Section, back: Section, f: Field)
    requires front != []
    ensures front + [f] + back == [front[0]] + (front[1..] + [f] + back)
  {
  }

  // Writing back what a key holds changes nothing.
  lemma {:induction false} PutSame(sec: Section, tag: string)
    requires Sorted(sec) && Get(sec, tag).Some?
    ensures Put(sec, tag, Get(sec, tag).value) == sec
  {
    if Less(tag, sec[0].tag) || Less(sec[0].tag, tag) {
      PutSame(sec[1..], tag);
      GetIsAKey(sec[1..], tag);
      var i :| 0 <= i < |sec| - 1 && !Less(tag, sec[1..][i].tag) && !Less(sec[1..][i].tag, tag);
      SameKey(tag, sec[i + 1].tag, sec[0].tag);
      LessIsStrict(tag, sec[0].tag);
    }
  }

  lemma {:induction false} GetIsAKey(sec: Section, tag: string)
    requires Get(sec, tag).Some?
    ensures exists i | 0 <= i < |sec| ::
              !Less(tag, sec[i].tag) && !Less(sec[i].tag, tag) && sec[i].value == Get(sec, tag).value
  {
    if Less(tag, sec[0].tag) || Less(sec[0].tag, tag) {
      GetIsAKey(sec[1..], tag);
      var i :| 0 <= i < |sec| - 1 && !Less(tag, sec[1..][i].tag) && !Less(sec[1..][i].tag, tag) &&
               sec[1..][i].value == Get(sec[1..], tag).value;
      assert sec[i + 1] == sec[1..][i];
    }
  }

  // ---- one header line ----

  predicate GoodTag(tag: string) { tag != "" && forall i | 0 <= i < |tag| :: IsId(tag[i]) }

  predicate GoodValue(v: string) {
    '\n' !in v && '\0' !in v && (v != "" ==> !IsBlank(v[0]) && !IsBlank(v[|v| - 1]))
  }

  predicate GoodField(f: Field) { GoodTag(f.tag) && GoodValue(f.value) && |FieldLine(f)| < LINE_MAXLEN }

  lemma {:induction false} ReadTag(line: string, n: nat, e: nat)
    requires 1 <= n <= e <= |line| && forall i | n <= i < e :: IsId(line[i])
    ensures Read(line, Marks(WantTend, 0, n - 1, 1, 0), n) == Read(line, Marks(WantTend, 0, e - 1, 1, 0), e)
    decreases e - n
  {
    if n < e {
      ReadTag(line, n + 1, e);
    }
  }

  lemma {:induction false} ReadBlanks(line: string, k: Marks, n: nat, e: nat)
    requires k.scan == WantVal && n <= e <= |line| && MarksOk(k, n) && forall i | n <= i < e :: IsBlank(line[i])
    ensures Read(line, k, n) == Read(line, k, e)
    decreases e - n
  {
    if n < e {
      ReadBlanks(line, k, n + 1, e);
    }
  }

  lemma {:induction false} ReadValue(line: string, k: Marks, n: nat)
    requires k.scan == WantVend && n + 1 <= |line| && MarksOk(k, n) && '\n' !in line[n..|line| - 1]
    requires line[|line| - 1] == '\n' && !IsBlank(line[|line| - 2]) && (n == |line| - 1 ==> k.w == n - 1)
    ensures Read(line, k, n) == Pair(line[k.t..k.t + k.tl], line[k.v..|line| - 1])
    decreases |line| - n
  {
    if n < |line| - 1 {
      assert line[n] == line[n..|line| - 1][0];
      assert line[n + 1..|line| - 1] == line[n..|line| - 1][1..];
      MarkKeepsOk(k, line[n], n);
      ReadValue(line, Mark(k, line[n], n).value, n + 1);
    }
  }

  lemma TagIsRead(line: string, e: nat)
    requires 0 < e && e + 1 < |line| && GoodTag(line[..e]) && line[e] == ':'
    ensures ReadHeader(line) == Read(line, Marks(WantVal, 0, e, 1, 0), e + 1)
  {
    assert forall i | 0 <= i < e :: line[i] == line[..e][i];
    var first := Marks(WantTend, 0, 0, 1, 0);
    assert Read(line, START, 0) == Read(line, first, 1);
    ReadTag(line, 1, e);
  }

  lemma ValueIsRead(line: string, tl: nat, n: nat, value: string)
    requires tl < n && n + |value| + 1 == |line| && line[n..] == value + "\n" && GoodValue(value)
    ensures Read(line, Marks(WantVal, 0, tl, 1, 0), n) == Pair(line[..tl], value)
  {
    assert forall i | 0 <= i < |value| :: line[n + i] == line[n..][i] == value[i];
    assert line[|line| - 1] == line[n..][|value|] == '\n';
    if value == "" {
      assert line[n] == '\n';
    } else {
      assert line[n] == value[0] && line[|line| - 2] == value[|value| - 1];
      assert line[n + 1..|line| - 1] == value[1..];
      assert line[n..|line| - 1] == value;
      ReadValue(line, Marks(WantVend, 0, tl, n, n), n + 1);
    }
  }

  // Where the value of a printed field starts.
  function ValueAt(f: Field): (n: nat)
    ensures n >= |f.tag| + 2
  {
    |f.tag| + 2 + if |f.tag| < FIELD_MINLEN then FIELD_MINLEN - |f.tag| else 0
  }

  lemma FieldLineParts(f: Field)
    ensures var line, e, n := FieldLine(f), |f.tag|, ValueAt(f);
            |line| == n + |f.value| + 1 && line[..e] == f.tag && line[e] == ':' && line[n..] == f.value + "\n" &&
            forall i | e + 1 <= i < n :: line[i] == ' '
  {
    var e := |f.tag|;
    var front := f.tag + (": " + Spaces(ValueAt(f) - e - 2));
    assert FieldLine(f) == front + (f.value + "\n");
    assert front[..e] == f.tag;
  }

  // The scanner reads back every line the printer writes.
  lemma FieldIsRead(f: Field)
    requires GoodTag(f.tag) && GoodValue(f.value)
    ensures ReadHeader(FieldLine(f)) == Pair(f.tag, f.value)
  {
    FieldLineParts(f);
    var line, e, n := FieldLine(f), |f.tag|, ValueAt(f);
    assert e > 0;
    hide FieldLine, ReadHeader, Read, GoodTag, GoodValue;
    TagIsRead(line, e);
    ReadBlanks(line, Marks(WantVal, 0, e, 1, 0), e + 1, n);
    ValueIsRead(line, e, n, f.value);
  }

  // A header line is one line, and no delimiter while there is no boundary yet.
  lemma FieldIsOneLine(f: Field)
    requires GoodField(f)
    ensures FieldLine(f) != "" && IsId(FieldLine(f)[0]) && Whole(FieldLine(f))
    ensures var line := FieldLine(f); OneLine(line[..|line| - 1]) && line == line[..|line| - 1] + "\n"
    ensures !IsBoundary("", FieldLine(f))
  {
    FieldLineParts(f);
    var line, e, n := FieldLine(f), |f.tag|, ValueAt(f);
    hide FieldLine;
    assert line[|line| - 1] == line[n..][|f.value|] == '\n';
    assert line[0] == line[..e][0];
    forall i | 0 <= i < |line| - 1
      ensures line[i] != '\n' && line[i] != '\0'
    {
      if i < e {
        assert line[i] == line[..e][i];
      } else if i >= n {
        assert line[i] == line[n..][i - n] == f.value[i - n];
      }
    }
  }
}
