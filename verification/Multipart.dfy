/**
 The job file format: sections of tag:value lines with an optional body, separated by boundary lines, close to
 multipart/mixed of RFC 1341, section 7.2. A hand-written line machine reads it and to_string writes it.
 */
module Multipart {
  import opened JobTypes

  // ---- case-insensitive ordered maps ----

  datatype Field = Field(tag: string, value: string)

  // A std::map with the caseless order: fields in ascending order of their folded tags.
  type Section = seq<Field>

  const BODY_TAG := "__BODY__"

  function Lower(c: char): char { if 'A' <= c <= 'Z' then (c as int + 32) as char else c }

  function Fold(s: string): string { seq(|s|, i requires 0 <= i < |s| => Lower(s[i])) }

  predicate Less(a: string, b: string) {
    b != "" && (a == "" || Lower(a[0]) < Lower(b[0]) || (Lower(a[0]) == Lower(b[0]) && Less(a[1..], b[1..])))
  }

  // operator[] on the left of an assignment: a new field at its place, or a new value under the old tag.
  function Put(sec: Section, tag: string, value: string): Section {
    if sec == [] || Less(tag, sec[0].tag) then [Field(tag, value)] + sec
    else if Less(sec[0].tag, tag) then [sec[0]] + Put(sec[1..], tag, value)
    else [Field(sec[0].tag, value)] + sec[1..]
  }

  function Get(sec: Section, tag: string): Option<string> {
    if sec == [] then None
    else if !Less(tag, sec[0].tag) && !Less(sec[0].tag, tag) then Some(sec[0].value)
    else Get(sec[1..], tag)
  }

  // ---- lines, as fgets delivers them ----

  const LINE_MAXLEN := 4096

  // The length of what one fgets call reads from a non-empty rest of the file: up to a newline, or a full buffer.
  function ChunkLength(text: string): (n: nat)
    requires text != ""
    ensures 1 <= n <= |text| && n < LINE_MAXLEN
  {
    ChunkEnd(text, 1)
  }

  function ChunkEnd(text: string, n: nat): (m: nat)
    requires 1 <= n <= |text| && n < LINE_MAXLEN
    ensures n <= m <= |text| && m < LINE_MAXLEN
    decreases LINE_MAXLEN - n
  {
    if text[n - 1] == '\n' || n == |text| || n == LINE_MAXLEN - 1 then n else ChunkEnd(text, n + 1)
  }

  function Chunks(text: string): seq<string>
    decreases |text|
  {
    if text == "" then [] else [text[..ChunkLength(text)]] + Chunks(text[ChunkLength(text)..])
  }

  // The C string in the buffer: up to the first NUL.
  function CString(raw: string): string {
    if raw == "" || raw[0] == '\0' then "" else [raw[0]] + CString(raw[1..])
  }

  // ---- the line machine ----

  datatype Machine = Machine(
    secs: seq<Section>,
    boundary: string,
    substatus: string,
    closed: bool,
    sec: nat,
    gotGap: bool,
    inBody: bool)

  datatype Outcome = Go(m: Machine) | Stop(m: Machine) | Bad(m: Machine)

  predicate IsMid(boundary: string, line: string) { line == "--" + boundary + "\n" }

  predicate IsEnd(boundary: string, line: string) { line == "--" + boundary + "--\n" }

  predicate IsBoundary(boundary: string, line: string) { IsMid(boundary, line) || IsEnd(boundary, line) }

  // resize(sec + 1) when there is no such section yet.
  function Grow(secs: seq<Section>, sec: nat): (r: seq<Section>)
    ensures sec < |r|
    decreases if sec < |secs| then 0 else sec + 1 - |secs|
  {
    if sec < |secs| then secs else Grow(secs + [[]], sec)
  }

  function WithoutNewline(s: string): string { if s != "" && s[|s| - 1] == '\n' then s[..|s| - 1] else s }

  // The newline before a boundary belongs to the boundary.
  function Chop(secs: seq<Section>, sec: nat): seq<Section> {
    var g := Grow(secs, sec);
    match Get(g[sec], BODY_TAG)
    case None => g
    case Some(body) => g[sec := Put(g[sec], BODY_TAG, WithoutNewline(body))]
  }

  function PutIn(secs: seq<Section>, sec: nat, tag: string, value: string): seq<Section> {
    var g := Grow(secs, sec);
    g[sec := Put(g[sec], tag, value)]
  }

  function BodyIn(secs: seq<Section>, sec: nat): string {
    match Get(Grow(secs, sec)[sec], BODY_TAG) case None => "" case Some(body) => body
  }

  function Substatus(sub: string, line: string): string {
    if "## " <= line then WithoutNewline(line[3..]) else sub
  }

  predicate IsBlank(c: char) { c == ' ' || c == '\t' }

  predicate IsId(c: char) {
    '0' <= c <= '9' || 'a' <= c <= 'z' || 'A' <= c <= 'Z' || c == '-' || c == '_' || c == '.'
  }

  datatype Scan = WantTag | WantTend | WantDelim | WantVal | WantVend
  datatype Header = Ignored | Malformed | Pair(tag: string, value: string)

  // Start and length of the tag, first and last character of the value.
  datatype Marks = Marks(scan: Scan, t: nat, tl: nat, v: nat, w: nat)

  // One character of a tag:value line; None stops with an error.
  function Mark(k: Marks, c: char, n: nat): Option<Marks> {
    match k.scan
    case WantTag => if IsBlank(c) then Some(k) else if !IsId(c) then None else Some(k.(scan := WantTend, t := n))
    case WantTend =>
      Some(k.(tl := k.tl + 1, scan := if IsId(c) then WantTend else if c == ':' then WantVal else WantDelim))
    case WantDelim => if IsBlank(c) then Some(k) else if c != ':' then None else Some(k.(scan := WantVal))
    case WantVal => if IsBlank(c) then Some(k) else Some(k.(scan := WantVend, v := n, w := n))
    case WantVend => if IsBlank(c) then Some(k) else Some(k.(w := n))
  }

  // The marks fit the first n characters of a line.
  predicate MarksOk(k: Marks, n: nat) {
    match k.scan
    case WantTag => k.t == 0 && k.tl == 0
    case WantTend => k.t + k.tl + 1 == n
    case WantDelim => k.t + k.tl < n
    case WantVal => k.t + k.tl < n
    case WantVend => k.t + k.tl < n && k.v <= k.w < n
  }

  lemma MarkKeepsOk(k: Marks, c: char, n: nat)
    requires MarksOk(k, n)
    ensures Mark(k, c, n).Some? ==> MarksOk(Mark(k, c, n).value, n + 1)
  {
  }

  function Read(line: string, k: Marks, n: nat): Header
    requires n <= |line| && MarksOk(k, n)
    decreases |line| - n
  {
    if n == |line| || line[n] == '\n' then
      match k.scan
      case WantTag => Ignored
      case WantTend => Malformed
      case WantDelim => Malformed
      case WantVal => Pair(line[k.t..k.t + k.tl], "")
      case WantVend => Pair(line[k.t..k.t + k.tl], line[k.v..k.w + 1])
    else
      MarkKeepsOk(k, line[n], n);
      match Mark(k, line[n], n)
      case None => Malformed
      case Some(k') => Read(line, k', n + 1)
  }

  const START := Marks(WantTag, 0, 0, 1, 0)

  function ReadHeader(line: string): Header { Read(line, START, 0) }

  const BOUNDARY_INTRO := "multipart/mixed; boundary="

  predicate GivesBoundary(tag: string, value: string) {
    |value| >= |BOUNDARY_INTRO| && Fold(tag) == "content-type" && Fold(value[..|BOUNDARY_INTRO|]) == BOUNDARY_INTRO
  }

  function TakeHeader(m: Machine, line: string): Outcome {
    match ReadHeader(line)
    case Ignored => Go(m)
    case Malformed => Bad(m)
    case Pair(tag, value) =>
      Go(m.(secs := PutIn(m.secs, m.sec, tag, value),
            boundary := if m.sec == 0 && m.boundary == "" && GivesBoundary(tag, value)
                        then value[|BOUNDARY_INTRO|..] else m.boundary))
  }

  // What the loop of load makes of one line.
  function TakeLine(m: Machine, line: string): Outcome {
    if line == "" then Go(m)
    else if IsEnd(m.boundary, line) then Stop(m.(secs := Chop(m.secs, m.sec), closed := true))
    else if IsMid(m.boundary, line) then
      var secs := Chop(m.secs, m.sec);
      Go(m.(secs := secs, sec := |secs|, gotGap := false, inBody := false))
    else if m.inBody then
      Go(m.(secs := PutIn(m.secs, m.sec, BODY_TAG, BodyIn(m.secs, m.sec) + line),
            substatus := Substatus(m.substatus, line)))
    else if line[0] == '#' then Go(m)
    else if m.gotGap then Go(m.(inBody := true, secs := PutIn(m.secs, m.sec, BODY_TAG, line)))
    else if line[0] == '\n' then Go(m.(gotGap := true))
    else TakeHeader(m, line)
  }

  function TakeChunks(m: Machine, chunks: seq<string>): Outcome
    decreases |chunks|
  {
    if chunks == [] then Go(m)
    else
      var r := TakeLine(m, CString(chunks[0]));
      if r.Go? then TakeChunks(r.m, chunks[1..]) else r
  }

  // load() of a file with the given text into an object with the given sections and boundary.
  function LoadText(secs: seq<Section>, boundary: string, text: string): Outcome {
    TakeChunks(Machine(secs, boundary, "", false, 0, false, false), Chunks(text))
  }

  // ---- the printer ----

  const FIELD_MINLEN := 13

  function Spaces(n: nat): (s: string)
    ensures |s| == n && forall i | 0 <= i < n :: s[i] == ' '
  {
    if n == 0 then "" else Spaces(n - 1) + " "
  }

  function FieldLine(f: Field): string {
    f.tag + (": " + (Spaces(if |f.tag| < FIELD_MINLEN then FIELD_MINLEN - |f.tag| else 0) + (f.value + "\n")))
  }

  function HeaderText(sec: Section): string {
    if sec == [] then ""
    else HeaderText(sec[..|sec| - 1]) + (if sec[|sec| - 1].tag == BODY_TAG then "" else FieldLine(sec[|sec| - 1]))
  }

  function BodyText(sec: Section): string {
    if sec == [] then ""
    else if sec[|sec| - 1].tag == BODY_TAG then sec[|sec| - 1].value
    else BodyText(sec[..|sec| - 1])
  }

  function SectionText(sec: Section): string {
    HeaderText(sec) + if BodyText(sec) == "" then "" else "\n" + BodyText(sec)
  }

  function Separator(boundary: string, closed: bool, last: bool): string {
    if boundary != "" && (closed || !last) then "\n" + ("--" + boundary + (if last then "--\n" else "\n")) else ""
  }

  function Print(secs: seq<Section>, boundary: string, closed: bool): string {
    PrintFirst(secs, boundary, closed, |secs|)
  }

  // The text of the first n sections.
  function PrintFirst(secs: seq<Section>, boundary: string, closed: bool, n: nat): string
    requires n <= |secs|
  {
    if n == 0 then ""
    else
      PrintFirst(secs, boundary, closed, n - 1) + (SectionText(secs[n - 1]) + Separator(boundary, closed, n == |secs|))
  }

  // ---- the class ----

  class File {
    var secs: seq<Section>
    var boundary: string
    var substatus: string
    var closed: bool

    constructor ()
      ensures secs == [] && boundary == "" && substatus == "" && closed
    {
      secs, boundary, substatus, closed := [], "", "", true;
    }

    ghost predicate Shows(m: Machine)
      reads this
    {
      secs == m.secs && boundary == m.boundary && substatus == m.substatus && closed == m.closed
    }

    // Reads a tag:value line with the five-state scanner.
    static method ScanHeader(line: string) returns (h: Header)
      ensures h == ReadHeader(line)
    {
      var n, k := 0, START;
      while n < |line| && line[n] != '\n'
        invariant n <= |line| && MarksOk(k, n) && ReadHeader(line) == Read(line, k, n)
      {
        MarkKeepsOk(k, line[n], n);
        var next := Mark(k, line[n], n);
        if next.None? { return Malformed; }
        k := next.value;
        n := n + 1;
      }
      match k.scan
      case WantTag => h := Ignored;
      case WantTend => h := Malformed;
      case WantDelim => h := Malformed;
      case WantVal => h := Pair(line[k.t..k.t + k.tl], "");
      case WantVend => h := Pair(line[k.t..k.t + k.tl], line[k.v..k.w + 1]);
    }

    // text is what the file holds, or None if it cannot be opened.
    method Load(file: Option<string>) returns (ok: bool)
      modifies this
      ensures file.None? ==> !ok && unchanged(this)
      ensures file.Some? ==>
        var r := LoadText(old(secs), old(boundary), file.value);
        Shows(r.m) && ok == !r.Bad?
    {
      if file.None? { return false; }
      var text := file.value;
      closed, substatus := false, "";
      var pos, sec: nat, gotGap, inBody := 0, 0, false, false;
      hide Put, Get, Grow, ChunkEnd, ReadHeader, IsEnd, IsMid, GivesBoundary, Substatus, Chop, PutIn, BodyIn;
      ghost var start := Machine(secs, boundary, "", false, 0, false, false);
      assert text[0..] == text;
      while pos < |text|
        invariant pos <= |text|
        invariant var m := Machine(secs, boundary, substatus, closed, sec, gotGap, inBody);
                  TakeChunks(start, Chunks(text)) == TakeChunks(m, Chunks(text[pos..]))
      {
        ghost var m := Machine(secs, boundary, substatus, closed, sec, gotGap, inBody);
        var rest := text[pos..];
        var len := ChunkLength(rest);
        var line := CString(rest[..len]);
        pos := pos + len;
        assert rest[len..] == text[pos..];
        assert Chunks(rest) == [rest[..len]] + Chunks(text[pos..]);
        hide Chunks;
        if line == "" { continue; }
        var atEnd, atMid := IsEnd(boundary, line), IsMid(boundary, line);
        if atEnd {
          secs := Chop(secs, sec);
          closed := true;
          return true;
        }
        if atMid {
          secs := Chop(secs, sec);
          gotGap, inBody, sec := false, false, |secs|;
          continue;
        }
        if inBody {
          substatus := Substatus(substatus, line);
          secs := PutIn(secs, sec, BODY_TAG, BodyIn(secs, sec) + line);
          continue;
        }
        if line[0] == '#' { continue; }
        if gotGap {
          inBody := true;
          secs := PutIn(secs, sec, BODY_TAG, line);
          continue;
        }
        if line[0] == '\n' {
          gotGap := true;
          continue;
        }
        var h := ScanHeader(line);
        if h.Ignored? { continue; }
        if h.Malformed? { return false; }
        secs := PutIn(secs, sec, h.tag, h.value);
        if sec == 0 && boundary == "" && GivesBoundary(h.tag, h.value) {
          boundary := h.value[|BOUNDARY_INTRO|..];
        }
      }
      ok := true;
    }

    static method SectionToString(sec: Section) returns (ret: string)
      ensures ret == SectionText(sec)
    {
      var body := "";
      ret := "";
      assert sec[..0] == [];
      for j := 0 to |sec|
        invariant ret == HeaderText(sec[..j]) && body == BodyText(sec[..j])
      {
        assert sec[..j + 1][..j] == sec[..j] && sec[..j + 1][j] == sec[j];
        if sec[j].tag == BODY_TAG {
          body := sec[j].value;
        } else {
          ret := ret + FieldLine(sec[j]);
        }
      }
      assert sec[..|sec|] == sec;
      if body != "" { ret := ret + ("\n" + body); }
    }

    // The loop of to_string over the sections.
    static method SectionsToString(secs: seq<Section>, boundary: string, closed: bool) returns (ret: string)
      ensures ret == Print(secs, boundary, closed)
    {
      ret := "";
      hide FieldLine, Separator, SectionText, Put;
      for i := 0 to |secs|
        invariant ret == PrintFirst(secs, boundary, closed, i)
      {
        var part := SectionToString(secs[i]);
        ret := ret + (part + Separator(boundary, closed, i + 1 == |secs|));
      }
    }

    // uuid is a fresh boundary, used if the object has more than one section and no boundary yet.
    method ToString(uuid: string) returns (ret: string)
      modifies this
      ensures if old(|secs| > 1 && boundary == "")
              then boundary == uuid &&
                   secs == old(secs)[0 := Put(old(secs)[0], "Content-Type", BOUNDARY_INTRO + uuid)]
              else boundary == old(boundary) && secs == old(secs)
      ensures substatus == old(substatus) && closed == old(closed)
      ensures ret == Print(secs, boundary, closed)
    {
      if |secs| > 1 && boundary == "" {
        boundary := uuid;
        secs := secs[0 := Put(secs[0], "Content-Type", BOUNDARY_INTRO + boundary)];
      }
      ret := SectionsToString(secs, boundary, closed);
    }
  }
}
