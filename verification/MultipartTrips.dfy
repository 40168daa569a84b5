/** What loading makes of printed text: round trips of whole objects, and appending child output to an open one. */
module MultipartTrips {
  import opened JobTypes
  import opened Multipart
  import opened MultipartLines

  // ---- the machine inside one section ----

  // m has read the sections in done, and part of the next one.
  predicate Inside(m: Machine, done: seq<Section>, part: Section, gap: bool, inBody: bool) {
    m.sec == |done| && Grow(m.secs, m.sec) == done + [part] && m.gotGap == gap && m.inBody == inBody && !m.closed &&
    (inBody || part != [] ==> m.secs == done + [part])
  }

  // Reading goes on to such a state.
  predicate Reaches(o: Outcome, done: seq<Section>, part: Section, gap: bool, inBody: bool, boundary: string,
                    sub: string)
  {
    o.Go? && Inside(o.m, done, part, gap, inBody) && o.m.boundary == boundary && o.m.substatus == sub
  }

  lemma PutInside(m: Machine, done: seq<Section>, part: Section, tag: string, value: string)
    requires m.sec == |done| && Grow(m.secs, m.sec) == done + [part]
    ensures PutIn(m.secs, m.sec, tag, value) == done + [Put(part, tag, value)]
    ensures BodyIn(m.secs, m.sec) == match Get(part, BODY_TAG) case None => "" case Some(body) => body
  {
  }

  function Chopped(part: Section): Section {
    match Get(part, BODY_TAG) case None => part case Some(body) => Put(part, BODY_TAG, WithoutNewline(body))
  }

  lemma ChopInside(m: Machine, done: seq<Section>, part: Section)
    requires m.sec == |done| && Grow(m.secs, m.sec) == done + [part]
    ensures Chop(m.secs, m.sec) == done + [Chopped(part)]
  {
  }

  // ---- headers ----

  // The fields to_string prints as header lines.
  function Headers(sec: Section): Section {
    if sec == [] then []
    else
      var last := sec[|sec| - 1];
      Headers(sec[..|sec| - 1]) + if last.tag == BODY_TAG then [] else [last]
  }

  // The boundary after reading these fields of section 0.
  function Announced(boundary: string, sec: Section): string {
    if sec == [] then boundary
    else
      var b, last := Announced(boundary, sec[..|sec| - 1]), sec[|sec| - 1];
      if b == "" && last.tag != BODY_TAG && GivesBoundary(last.tag, last.value)
      then last.value[|BOUNDARY_INTRO|..] else b
  }

  lemma {:induction false} AnnouncedOnce(boundary: string, sec: Section, k: nat)
    requires k <= |sec|
    ensures Announced(boundary, sec[..k]) == "" || Announced(boundary, sec[..k]) == Announced(boundary, sec)
    decreases |sec|
  {
    if k == |sec| {
      assert sec[..k] == sec;
    } else {
      assert sec[..|sec| - 1][..k] == sec[..k];
      AnnouncedOnce(boundary, sec[..|sec| - 1], k);
    }
  }

  predicate GoodHeaders(sec: Section, boundary: string) {
    Sorted(sec) &&
    forall i | 0 <= i < |sec| && sec[i].tag != BODY_TAG :: GoodField(sec[i]) && !IsBoundary(boundary, FieldLine(sec[i]))
  }

  lemma {:induction false} HeadersAreBelow(sec: Section, k: nat)
    requires Sorted(sec) && k < |sec|
    ensures forall i | 0 <= i < |Headers(sec[..k])| :: Less(Headers(sec[..k])[i].tag, sec[k].tag)
  {
    HeadersAreFields(sec[..k]);
    forall i | 0 <= i < |Headers(sec[..k])|
      ensures Less(Headers(sec[..k])[i].tag, sec[k].tag)
    {
      var f := Headers(sec[..k])[i];
      assert f in sec[..k];
    }
  }

  lemma {:induction false} HeadersAreFields(sec: Section)
    ensures forall i | 0 <= i < |Headers(sec)| :: Headers(sec)[i] in sec && Headers(sec)[i].tag != BODY_TAG
  {
    if sec != [] {
      HeadersAreFields(sec[..|sec| - 1]);
    }
  }

  lemma {:induction false} HeaderTextIsWhole(sec: Section)
    ensures Whole(HeaderText(sec))
  {
    if sec != [] {
      HeaderTextIsWhole(sec[..|sec| - 1]);
    }
  }

  // One header line adds its field at the end.
  lemma HeaderStep(m: Machine, done: seq<Section>, part: Section, f: Field)
    requires Inside(m, done, part, false, false) && GoodField(f) && !IsBoundary(m.boundary, FieldLine(f))
    requires forall i | 0 <= i < |part| :: Less(part[i].tag, f.tag)
    ensures var b := if done == [] && m.boundary == "" && GivesBoundary(f.tag, f.value)
                     then f.value[|BOUNDARY_INTRO|..] else m.boundary;
            Reaches(TakeText(m, FieldLine(f)), done, part + [f], false, false, b, m.substatus)
  {
    var line := FieldLine(f);
    FieldIsOneLine(f);
    FieldIsRead(f);
    TakeOneLine(m, line[..|line| - 1]);
    PutLast(part, f.tag, f.value);
    PutInside(m, done, part, f.tag, f.value);
    hide FieldLine, IsBoundary, Put, PutIn, ReadHeader, GivesBoundary, TakeText, Chop, BodyIn, Substatus, Less, OneLine,
      GoodField;
    assert !IsEnd(m.boundary, line) && !IsMid(m.boundary, line) by { assert !IsBoundary(m.boundary, line); }
    assert TakeLine(m, line) == TakeHeader(m, line);
  }

  // The header lines of a section give back its headers.
  lemma {:induction false} HeadersLoad(m: Machine, done: seq<Section>, sec: Section, boundary: string, k: nat)
    requires Inside(m, done, [], false, false) && GoodHeaders(sec, boundary) && k <= |sec|
    requires if done == [] then Announced(m.boundary, sec) == boundary else m.boundary == boundary
    ensures Reaches(TakeText(m, HeaderText(sec[..k])), done, Headers(sec[..k]), false, false,
                    if done == [] then Announced(m.boundary, sec[..k]) else boundary, m.substatus)
  {
    if k == 0 {
      assert Chunks("") == [];
    } else {
      HeadersLoad(m, done, sec, boundary, k - 1);
      var before, f := sec[..k - 1], sec[k - 1];
      assert sec[..k][..k - 1] == before && sec[..k][k - 1] == f;
      var r := TakeText(m, HeaderText(before));
      var b := if done == [] then Announced(m.boundary, before) else boundary;
      if f.tag == BODY_TAG {
        assert HeaderText(sec[..k]) == HeaderText(before) && Headers(sec[..k]) == Headers(before);
      } else {
        HeaderTextIsWhole(before);
        TakeTextConcat(m, HeaderText(before), FieldLine(f));
        AnnouncedOnce(m.boundary, sec, k - 1);
        FieldIsOneLine(f);
        HeadersAreBelow(sec, k - 1);
        HeaderStep(r.m, done, Headers(before), f);
      }
    }
  }

  // ---- bodies ----

  predicate NoDelimiter(text: string, boundary: string) {
    forall i | 0 <= i < |Chunks(text)| :: !IsBoundary(boundary, Chunks(text)[i])
  }

  // A body text without the lines at its start that look like header comments.
  function Kept(text: string): (r: string)
    ensures |r| <= |text|
    decreases |text|
  {
    if text == "" || text[0] != '#' then text else Kept(text[ChunkLength(text)..])
  }

  function Statuses(sub: string, lines: seq<string>): string
    decreases |lines|
  {
    if lines == [] then sub else Statuses(Substatus(sub, lines[0]), lines[1..])
  }

  // The substatus after a body; its first line is never looked at.
  function BodyStatus(sub: string, text: string): string {
    if text == "" then sub else Statuses(sub, Chunks(text)[1..])
  }

  // What counts is the last line that starts with "## ".
  lemma {:induction false} LastStatusCounts(sub: string, lines: seq<string>, i: nat)
    requires i < |lines| && "## " <= lines[i] && forall j | i < j < |lines| :: !("## " <= lines[j])
    ensures Statuses(sub, lines) == WithoutNewline(lines[i][3..])
    decreases i
  {
    if i == 0 {
      NoStatus(WithoutNewline(lines[0][3..]), lines[1..]);
    } else {
      LastStatusCounts(Substatus(sub, lines[0]), lines[1..], i - 1);
    }
  }

  lemma {:induction false} NoStatus(sub: string, lines: seq<string>)
    requires forall j | 0 <= j < |lines| :: !("## " <= lines[j])
    ensures Statuses(sub, lines) == sub
  {
    if lines != [] {
      NoStatus(sub, lines[1..]);
    }
  }

  lemma SplitText(text: string, n: nat)
    requires 0 < n <= |text|
    ensures var line, rest := text[..n], text[n..];
            line != "" && line + rest == text && ('\0' !in text ==> '\0' !in line && '\0' !in rest)
  {
  }

  lemma SplitLines(line: string, lines: seq<string>, boundary: string)
    requires forall i | 0 <= i < |lines| + 1 :: !IsBoundary(boundary, ([line] + lines)[i])
    ensures !IsBoundary(boundary, line) && forall i | 0 <= i < |lines| :: !IsBoundary(boundary, lines[i])
  {
    hide IsBoundary;
    assert ([line] + lines)[0] == line;
    forall i | 0 <= i < |lines|
      ensures !IsBoundary(boundary, lines[i])
    {
      assert ([line] + lines)[i + 1] == lines[i];
    }
  }

  lemma ChunkFacts(text: string, boundary: string)
    requires text != "" && '\0' !in text && NoDelimiter(text, boundary)
    ensures var n := ChunkLength(text); var line, rest := text[..n], text[n..];
            Chunks(text) == [line] + Chunks(rest) && line != "" && line + rest == text && CString(line) == line &&
            !IsBoundary(boundary, line) && '\0' !in rest && NoDelimiter(rest, boundary) && |rest| < |text|
  {
    hide ChunkEnd, IsBoundary, CString, ChunkLength;
    var n := ChunkLength(text);
    var line, rest := text[..n], text[n..];
    SplitText(text, n);
    CStringWhole(line);
    assert Chunks(text) == [line] + Chunks(rest);
    SplitLines(line, Chunks(rest), boundary);
  }

  lemma TakeFirst(m: Machine, text: string, boundary: string)
    requires text != "" && '\0' !in text && NoDelimiter(text, boundary)
    ensures var n := ChunkLength(text); var r := TakeLine(m, text[..n]);
            TakeText(m, text) == if r.Go? then TakeText(r.m, text[n..]) else r
  {
    ChunkFacts(text, boundary);
    var n := ChunkLength(text);
    hide TakeLine, Chunks, CString, NoDelimiter, ChunkLength;
    assert ([text[..n]] + Chunks(text[n..]))[1..] == Chunks(text[n..]);
  }

  // Inside a body, text is appended as it is.
  lemma {:induction false} BodyGoesOn(m: Machine, done: seq<Section>, part: Section, x: string, text: string)
    requires Inside(m, done, Put(part, BODY_TAG, x), true, true) && '\0' !in text && NoDelimiter(text, m.boundary)
    ensures Reaches(TakeText(m, text), done, Put(part, BODY_TAG, x + text), true, true, m.boundary,
                    Statuses(m.substatus, Chunks(text)))
    decreases |text|
  {
    if text == "" {
      assert x + text == x;
    } else {
      TakeFirst(m, text, m.boundary);
      ChunkFacts(text, m.boundary);
      var n := ChunkLength(text);
      var line, rest := text[..n], text[n..];
      GetPut(part, BODY_TAG, x, x + line);
      PutInside(m, done, Put(part, BODY_TAG, x), BODY_TAG, x + line);
      hide Put, PutIn, BodyIn, Chop, IsMid, IsEnd, Chunks, NoDelimiter, Substatus, ChunkLength;
      var r := TakeLine(m, line);
      BodyStep(m, line);
      assert x + line + rest == x + text;
      BodyGoesOn(r.m, done, part, x + line, rest);
      assert ([line] + Chunks(rest))[1..] == Chunks(rest);
    }
  }

  lemma BodyStep(m: Machine, line: string)
    requires m.inBody && line != "" && !IsBoundary(m.boundary, line)
    ensures TakeLine(m, line) ==
            Go(m.(secs := PutIn(m.secs, m.sec, BODY_TAG, BodyIn(m.secs, m.sec) + line),
                  substatus := Substatus(m.substatus, line)))
  {
  }

  function WithBody(part: Section, body: string): Section { if body == "" then part else Put(part, BODY_TAG, body) }

  // After the gap, the body is what is left without comment lines.
  lemma {:induction false} BodyLoad(m: Machine, done: seq<Section>, part: Section, text: string)
    requires Inside(m, done, part, true, false) && '\0' !in text && NoDelimiter(text, m.boundary)
    ensures var body := Kept(text);
            Reaches(TakeText(m, text), done, WithBody(part, body), true, body != "", m.boundary,
                    BodyStatus(m.substatus, body))
    decreases |text|
  {
    if text != "" {
      TakeFirst(m, text, m.boundary);
      ChunkFacts(text, m.boundary);
      var n := ChunkLength(text);
      var line, rest := text[..n], text[n..];
      assert line[0] == text[0];
      if text[0] == '#' {
        assert TakeLine(m, line) == Go(m);
        BodyLoad(m, done, part, rest);
      } else {
        PutInside(m, done, part, BODY_TAG, line);
        hide Put, PutIn, BodyIn, Chop, IsMid, IsEnd, Chunks, NoDelimiter, ChunkLength;
        BodyGoesOn(TakeLine(m, line).m, done, part, line, rest);
        assert ([line] + Chunks(rest))[1..] == Chunks(rest);
      }
    }
  }

  // ---- one section ----

  // The body lines to_string writes: before a delimiter they end in its newline.
  function BodyLines(sec: Section, delimited: bool): string {
    if BodyText(sec) == "" || !delimited then BodyText(sec) else BodyText(sec) + "\n"
  }

  predicate GoodSection(sec: Section, boundary: string, delimited: bool) {
    GoodHeaders(sec, boundary) && '\0' !in BodyText(sec) && NoDelimiter(BodyLines(sec, delimited), boundary)
  }

  lemma GapLoad(m: Machine, done: seq<Section>, part: Section)
    requires Inside(m, done, part, false, false)
    ensures Reaches(TakeText(m, "\n"), done, part, true, false, m.boundary, m.substatus)
  {
    assert "" + "\n" == "\n";
    TakeOneLine(m, "");
  }

  // The headers, the gap and the body of a section.
  lemma SectionLoad(m: Machine, done: seq<Section>, sec: Section, boundary: string, text: string)
    requires Inside(m, done, [], false, false) && GoodHeaders(sec, boundary)
    requires '\0' !in text && NoDelimiter(text, boundary)
    requires if done == [] then Announced(m.boundary, sec) == boundary else m.boundary == boundary
    ensures var body := Kept(text);
            Reaches(TakeText(m, HeaderText(sec) + ("\n" + text)), done, WithBody(Headers(sec), body), true, body != "",
                    boundary, BodyStatus(m.substatus, body))
  {
    HeadersLoad(m, done, sec, boundary, |sec|);
    assert sec[..|sec|] == sec;
    HeaderTextIsWhole(sec);
    hide TakeText, GoodHeaders, Headers, Announced, NoDelimiter, HeaderText, Kept, BodyStatus;
    TakeTextConcat(m, HeaderText(sec), "\n" + text);
    var r := TakeText(m, HeaderText(sec));
    GapLoad(r.m, done, Headers(sec));
    TakeTextConcat(r.m, "\n", text);
    BodyLoad(TakeText(r.m, "\n").m, done, Headers(sec), text);
  }

  // ---- delimited sections ----

  // What loading makes of a delimited section.
  function Loaded(sec: Section): Section { Chopped(WithBody(Headers(sec), Kept(BodyLines(sec, true)))) }

  function LoadedFirst(secs: seq<Section>, n: nat): (r: seq<Section>)
    requires n <= |secs|
    ensures |r| == n && forall i | 0 <= i < n :: r[i] == Loaded(secs[i])
  {
    if n == 0 then [] else LoadedFirst(secs, n - 1) + [Loaded(secs[n - 1])]
  }

  function StatusFirst(secs: seq<Section>, n: nat): string
    requires n <= |secs|
  {
    if n == 0 then "" else BodyStatus(StatusFirst(secs, n - 1), Kept(BodyLines(secs[n - 1], true)))
  }

  function Delimiter(boundary: string, last: bool): string { "--" + boundary + if last then "--\n" else "\n" }

  lemma DelimitedText(sec: Section, boundary: string, closed: bool, last: bool)
    requires boundary != "" && (closed || !last)
    ensures SectionText(sec) + Separator(boundary, closed, last) ==
            HeaderText(sec) + ("\n" + BodyLines(sec, true)) + Delimiter(boundary, last)
    ensures Whole(HeaderText(sec) + ("\n" + BodyLines(sec, true)))
  {
    hide HeaderText, BodyText;
    var h, body := HeaderText(sec), BodyText(sec);
    var d := if last then "--\n" else "\n";
    assert Separator(boundary, closed, last) == "\n" + ("--" + boundary + d);
    if body == "" {
      assert h + "" + ("\n" + ("--" + boundary + d)) == h + ("\n" + "") + ("--" + boundary + d);
    } else {
      assert h + ("\n" + body) + ("\n" + ("--" + boundary + d)) == h + ("\n" + (body + "\n")) + ("--" + boundary + d);
    }
  }

  predicate GoodBoundary(boundary: string) { OneLine("--" + boundary + "--") }

  lemma DelimiterLoad(m: Machine, boundary: string, last: bool)
    requires m.boundary == boundary && GoodBoundary(boundary)
    ensures TakeText(m, Delimiter(boundary, last)) == TakeLine(m, Delimiter(boundary, last))
    ensures if last then IsEnd(boundary, Delimiter(boundary, last))
            else IsMid(boundary, Delimiter(boundary, last)) && !IsEnd(boundary, Delimiter(boundary, last))
  {
    var x := "--" + boundary + if last then "--" else "";
    assert Delimiter(boundary, last) == x + "\n";
    var long := "--" + boundary + "--";
    assert forall i | 0 <= i < |x| :: x[i] == long[i];
    assert OneLine(x);
    TakeOneLine(m, x);
    assert !last ==> |Delimiter(boundary, last)| == |boundary| + 3;
  }

  // A delimited section, from its first header to its delimiter.
  lemma DelimitedLoad(m: Machine, done: seq<Section>, sec: Section, boundary: string, closed: bool, last: bool)
    requires Inside(m, done, [], false, false) && GoodSection(sec, boundary, true)
    requires if done == [] then Announced(m.boundary, sec) == boundary else m.boundary == boundary
    requires boundary != "" && GoodBoundary(boundary) && (closed || !last)
    ensures var r := TakeText(m, SectionText(sec) + Separator(boundary, closed, last));
            r.m.boundary == boundary && r.m.substatus == BodyStatus(m.substatus, Kept(BodyLines(sec, true))) &&
            if last then r.Stop? && r.m.closed && r.m.secs == done + [Loaded(sec)]
            else r.Go? && r.m.secs == done + [Loaded(sec)] && Inside(r.m, done + [Loaded(sec)], [], false, false)
  {
    var text := BodyLines(sec, true);
    DelimitedText(sec, boundary, closed, last);
    var front := HeaderText(sec) + ("\n" + text);
    assert '\0' !in text;
    SectionLoad(m, done, sec, boundary, text);
    TakeTextConcat(m, front, Delimiter(boundary, last));
    hide TakeText, SectionText, Separator, HeaderText, GoodHeaders, Kept, BodyStatus, BodyLines, Headers, Announced,
      NoDelimiter, GoodBoundary, Chop, Chopped, WithBody, Delimiter;
    var n := TakeText(m, front).m;
    DelimiterLoad(n, boundary, last);
    ChopInside(n, done, WithBody(Headers(sec), Kept(text)));
    assert Loaded(sec) == Chopped(WithBody(Headers(sec), Kept(text)));
    assert Delimiter(boundary, last) != "";
    var secs := done + [Loaded(sec)];
    assert Chop(n.secs, n.sec) == secs;
    NextSection(secs);
  }

  lemma NextSection(secs: seq<Section>)
    ensures Grow(secs, |secs|) == secs + [[]]
  {
  }

  // ---- whole objects ----

  // Whether to_string writes a delimiter behind section i.
  predicate Delimited(secs: seq<Section>, boundary: string, closed: bool, i: nat) {
    boundary != "" && (closed || i + 1 < |secs|)
  }

  // What a caller has to see to; a caller that only ever holds one section needs no boundary.
  predicate Good(secs: seq<Section>, boundary: string, closed: bool) {
    secs != [] && (|secs| > 1 ==> boundary != "") && GoodBoundary(boundary) &&
    forall i | 0 <= i < |secs| :: GoodSection(secs[i], boundary, Delimited(secs, boundary, closed, i))
  }

  // A fresh object, as the constructors of multipart and of job::file leave it.
  predicate Fresh(secs: seq<Section>) { secs == [] || secs == [[]] }
}
