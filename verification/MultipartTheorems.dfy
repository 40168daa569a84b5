/** The round trip of the job file format, when it holds, and the file that child output is appended to. */
module MultipartTheorems {
  import opened JobTypes
  import opened Multipart
  import opened MultipartLines
  import opened MultipartTrips

  // ---- the sections before the last ----

  // An object a load starts from, with either no boundary yet or the right one.
  predicate StartsFor(secs: seq<Section>, boundary: string, old0: seq<Section>, boundary0: string) {
    secs != [] && Fresh(old0) && Announced(boundary0, secs[0]) == boundary
  }

  function Start(old0: seq<Section>, boundary0: string): Machine {
    Machine(old0, boundary0, "", false, 0, false, false)
  }

  lemma GoodAt(secs: seq<Section>, boundary: string, closed: bool, i: nat)
    requires Good(secs, boundary, closed) && i < |secs|
    ensures GoodSection(secs[i], boundary, Delimited(secs, boundary, closed, i))
  {
  }

  lemma GoodFront(secs: seq<Section>, boundary: string, closed: bool, i: nat)
    requires Good(secs, boundary, closed) && i + 1 < |secs|
    ensures boundary != "" && GoodBoundary(boundary) && GoodSection(secs[i], boundary, true)
  {
    assert Delimited(secs, boundary, closed, i);
  }

  lemma PrintFirstIsWhole(secs: seq<Section>, boundary: string, closed: bool, n: nat)
    requires n < |secs| && (n > 0 ==> boundary != "")
    ensures Whole(PrintFirst(secs, boundary, closed, n))
  {
    if n > 0 {
      var sep := Separator(boundary, closed, false);
      assert sep != "" && sep[|sep| - 1] == '\n';
    }
  }

  // A delimited section behind a text already read.
  lemma NextLoad(start: Machine, front: string, done: seq<Section>, sec: Section, boundary: string, closed: bool,
                 boundary0: string, sub: string)
    requires Whole(front) && Reaches(TakeText(start, front), done, [], false, false, boundary0, sub)
    requires GoodSection(sec, boundary, true) && boundary != "" && GoodBoundary(boundary)
    requires if done == [] then Announced(boundary0, sec) == boundary else boundary0 == boundary
    ensures Reaches(TakeText(start, front + (SectionText(sec) + Separator(boundary, closed, false))),
                    done + [Loaded(sec)], [], false, false, boundary, BodyStatus(sub, Kept(BodyLines(sec, true))))
  {
    hide TakeText, SectionText, Separator, GoodSection, Kept, BodyStatus, BodyLines, Announced, GoodBoundary, Loaded;
    TakeTextConcat(start, front, SectionText(sec) + Separator(boundary, closed, false));
    DelimitedLoad(TakeText(start, front).m, done, sec, boundary, closed, false);
  }

  lemma NothingLoaded(old0: seq<Section>, boundary0: string)
    requires Fresh(old0)
    ensures Reaches(TakeText(Start(old0, boundary0), ""), [], [], false, false, boundary0, "")
  {
    assert Chunks("") == [];
    assert Grow(old0, 0) == [[]];
  }

  predicate FrontReached(secs: seq<Section>, boundary: string, closed: bool, n: nat, old0: seq<Section>,
                         boundary0: string)
    requires n < |secs|
  {
    Reaches(TakeText(Start(old0, boundary0), PrintFirst(secs, boundary, closed, n)), LoadedFirst(secs, n), [],
            false, false, if n == 0 then boundary0 else boundary, StatusFirst(secs, n))
  }

  lemma FrontStep(secs: seq<Section>, boundary: string, closed: bool, n: nat, old0: seq<Section>, boundary0: string)
    requires Good(secs, boundary, closed) && StartsFor(secs, boundary, old0, boundary0) && n + 1 < |secs|
    requires FrontReached(secs, boundary, closed, n, old0, boundary0)
    ensures FrontReached(secs, boundary, closed, n + 1, old0, boundary0)
  {
    GoodFront(secs, boundary, closed, n);
    PrintFirstIsWhole(secs, boundary, closed, n);
    hide TakeText, SectionText, Separator, GoodSection, Kept, BodyStatus, BodyLines, Announced, GoodBoundary, Loaded,
      Good, Reaches, Whole, Fresh, Start;
    NextLoad(Start(old0, boundary0), PrintFirst(secs, boundary, closed, n), LoadedFirst(secs, n), secs[n],
             boundary, closed, if n == 0 then boundary0 else boundary, StatusFirst(secs, n));
  }

  lemma {:induction false} FrontLoad(secs: seq<Section>, boundary: string, closed: bool, n: nat, old0: seq<Section>,
                                     boundary0: string)
    requires Good(secs, boundary, closed) && StartsFor(secs, boundary, old0, boundary0) && n < |secs|
    ensures FrontReached(secs, boundary, closed, n, old0, boundary0)
  {
    if n == 0 {
      NothingLoaded(old0, boundary0);
    } else {
      hide FrontReached, Good, StartsFor;
      FrontLoad(secs, boundary, closed, n - 1, old0, boundary0);
      FrontStep(secs, boundary, closed, n - 1, old0, boundary0);
    }
  }

  lemma PrintLast(secs: seq<Section>, boundary: string, closed: bool)
    requires secs != []
    ensures var n := |secs| - 1;
            Print(secs, boundary, closed) ==
            PrintFirst(secs, boundary, closed, n) + (SectionText(secs[n]) + Separator(boundary, closed, true))
  {
  }

  // ---- round trip ----

  // Loading what to_string wrote of a closed object gives its boundary and closed flag back, and of each section
  // its headers and what Kept leaves of its body.
  lemma ClosedLoads(secs: seq<Section>, boundary: string, old0: seq<Section>, boundary0: string)
    requires Good(secs, boundary, true) && StartsFor(secs, boundary, old0, boundary0) && boundary != ""
    ensures var r := LoadText(old0, boundary0, Print(secs, boundary, true));
            r.Stop? && r.m.closed && r.m.boundary == boundary && r.m.secs == LoadedFirst(secs, |secs|) &&
            r.m.substatus == StatusFirst(secs, |secs|)
  {
    var n := |secs| - 1;
    hide *;
    NotEmpty(secs, boundary, true);
    FrontLoad(secs, boundary, true, n, old0, boundary0);
    PrintFirstIsWhole(secs, boundary, true, n);
    PrintLast(secs, boundary, true);
    GoodAt(secs, boundary, true, n);
    LastLoads(secs, boundary, old0, boundary0, PrintFirst(secs, boundary, true, n));
  }

  lemma NotEmpty(secs: seq<Section>, boundary: string, closed: bool)
    requires Good(secs, boundary, closed)
    ensures secs != [] && GoodBoundary(boundary)
  {
  }

  // The last section of a closed object, behind the text of the others.
  lemma LastLoads(secs: seq<Section>, boundary: string, old0: seq<Section>, boundary0: string, front: string)
    requires secs != [] && boundary != "" && GoodBoundary(boundary) && Whole(front)
    requires var n := |secs| - 1;
             && FrontReached(secs, boundary, true, n, old0, boundary0) && front == PrintFirst(secs, boundary, true, n)
             && GoodSection(secs[n], boundary, Delimited(secs, boundary, true, n))
             && StartsFor(secs, boundary, old0, boundary0)
    ensures var n := |secs| - 1;
            var r := LoadText(old0, boundary0, front + (SectionText(secs[n]) + Separator(boundary, true, true)));
            r.Stop? && r.m.closed && r.m.boundary == boundary && r.m.secs == LoadedFirst(secs, |secs|) &&
            r.m.substatus == StatusFirst(secs, |secs|)
  {
    var n := |secs| - 1;
    LastSection(secs, boundary, old0, boundary0, front);
    hide *;
    EndLoad(Start(old0, boundary0), front, LoadedFirst(secs, n), secs[n], boundary,
            if n == 0 then boundary0 else boundary, StatusFirst(secs, n));
  }

  lemma LastSection(secs: seq<Section>, boundary: string, old0: seq<Section>, boundary0: string, front: string)
    requires secs != [] && boundary != ""
    requires var n := |secs| - 1;
             && FrontReached(secs, boundary, true, n, old0, boundary0) && front == PrintFirst(secs, boundary, true, n)
             && GoodSection(secs[n], boundary, Delimited(secs, boundary, true, n))
             && StartsFor(secs, boundary, old0, boundary0)
    ensures var n := |secs| - 1;
            && Reaches(TakeText(Start(old0, boundary0), front), LoadedFirst(secs, n), [], false, false,
                       if n == 0 then boundary0 else boundary, StatusFirst(secs, n))
            && GoodSection(secs[n], boundary, true)
            && LoadedFirst(secs, |secs|) == LoadedFirst(secs, n) + [Loaded(secs[n])]
            && StatusFirst(secs, |secs|) == BodyStatus(StatusFirst(secs, n), Kept(BodyLines(secs[n], true)))
            && (if LoadedFirst(secs, n) == [] then
                  Announced(if n == 0 then boundary0 else boundary, secs[n]) == boundary
                else (if n == 0 then boundary0 else boundary) == boundary)
            && forall text :: LoadText(old0, boundary0, text) == TakeText(Start(old0, boundary0), text)
  {
    hide GoodSection, Kept, BodyStatus, BodyLines, Announced, Loaded, PrintFirst, Reaches, TakeChunks, Chunks;
  }

  // The last section of a closed object behind a text already read.
  lemma EndLoad(start: Machine, front: string, done: seq<Section>, sec: Section, boundary: string, boundary0: string,
                sub: string)
    requires Whole(front) && Reaches(TakeText(start, front), done, [], false, false, boundary0, sub)
    requires GoodSection(sec, boundary, true) && boundary != "" && GoodBoundary(boundary)
    requires if done == [] then Announced(boundary0, sec) == boundary else boundary0 == boundary
    ensures var r := TakeText(start, front + (SectionText(sec) + Separator(boundary, true, true)));
            r.Stop? && r.m.closed && r.m.boundary == boundary && r.m.secs == done + [Loaded(sec)] &&
            r.m.substatus == BodyStatus(sub, Kept(BodyLines(sec, true)))
  {
    hide TakeText, SectionText, Separator, GoodSection, Kept, BodyStatus, BodyLines, Announced, GoodBoundary, Loaded;
    TakeTextConcat(start, front, SectionText(sec) + Separator(boundary, true, true));
    DelimitedLoad(TakeText(start, front).m, done, sec, boundary, true, true);
  }

  // An absent body and an empty one are the same.
  function Same(sec: Section): Section { if BodyText(sec) == "" then Headers(sec) else sec }

  lemma {:induction false} HeadersAreSorted(sec: Section)
    requires Sorted(sec)
    ensures Sorted(Headers(sec))
  {
    if sec != [] {
      HeadersAreSorted(sec[..|sec| - 1]);
      HeadersAreBelow(sec, |sec| - 1);
    }
  }

  lemma TakenOut(sec: Section, i: nat)
    requires i + 1 < |sec|
    ensures var front := sec[..|sec| - 1];
            sec[i] == front[i] && front[..i] + front[i + 1..] + [sec[|sec| - 1]] == sec[..i] + sec[i + 1..]
  {
    assert sec[i + 1..] == sec[..|sec| - 1][i + 1..] + [sec[|sec| - 1]];
  }

  // A body is one field, with all others before and after it.
  lemma {:induction false} BodyField(sec: Section) returns (i: nat)
    requires Sorted(sec) && BodyText(sec) != ""
    ensures i < |sec| && sec[i] == Field(BODY_TAG, BodyText(sec)) && Headers(sec) == sec[..i] + sec[i + 1..]
  {
    var n := |sec| - 1;
    var front := sec[..n];
    if sec[n].tag == BODY_TAG {
      NoBodyBelow(front, BODY_TAG);
      i := n;
      assert Headers(sec) == front + [] && sec[n + 1..] == [];
    } else {
      i := BodyField(front);
      assert Headers(sec) == Headers(front) + [sec[n]];
      hide Headers, BodyText, Sorted;
      TakenOut(sec, i);
    }
  }

  lemma {:induction false} NoBodyBelow(sec: Section, tag: string)
    requires tag == BODY_TAG && forall i | 0 <= i < |sec| :: Less(sec[i].tag, tag)
    ensures Headers(sec) == sec
  {
    if sec != [] {
      var n := |sec| - 1;
      LessIsStrict(tag, tag);
      assert Less(sec[n].tag, tag);
      HeadersMore(sec);
      hide *;
      NoBodyBelow(sec[..n], tag);
      FrontAndLast(sec);
    }
  }

  lemma HeadersMore(sec: Section)
    requires sec != []
    ensures var n := |sec| - 1;
            sec[n].tag != BODY_TAG ==> Headers(sec) == Headers(sec[..n]) + [sec[n]]
  {
  }

  lemma FrontAndLast(sec: Section)
    requires sec != []
    ensures sec == sec[..|sec| - 1] + [sec[|sec| - 1]]
  {
  }

  lemma PutBodyBack(sec: Section)
    requires Sorted(sec) && BodyText(sec) != ""
    ensures Put(Headers(sec), BODY_TAG, BodyText(sec)) == sec
  {
    var i := BodyField(sec);
    var front, back := sec[..i], sec[i + 1..];
    assert forall j | 0 <= j < |front| :: Less(front[j].tag, sec[i].tag);
    assert back != [] ==> Less(sec[i].tag, back[0].tag);
    hide *;
    PutBetween(front, back, sec[i]);
    Whole3(sec, i);
  }

  lemma Whole3(sec: Section, i: nat)
    requires i < |sec|
    ensures sec[..i] + [sec[i]] + sec[i + 1..] == sec
  {
  }

  // Without a body field, a delimiter takes nothing away.
  lemma ChopHeaders(sec: Section, boundary: string)
    requires GoodHeaders(sec, boundary)
    ensures Chopped(Headers(sec)) == Headers(sec)
  {
    var h := Headers(sec);
    HeadersAreSorted(sec);
    if Get(h, BODY_TAG).Some? {
      HeaderValuesAreLines(sec, boundary, BODY_TAG);
      PutSame(h, BODY_TAG);
      hide Headers, Put, Get, GoodHeaders;
    }
  }

  lemma HeaderValuesAreLines(sec: Section, boundary: string, tag: string)
    requires GoodHeaders(sec, boundary) && Get(Headers(sec), tag).Some?
    ensures '\n' !in Get(Headers(sec), tag).value
  {
    var h := Headers(sec);
    HeadersAreFields(sec);
    GetIsAKey(h, tag);
    hide Less, Get, Headers, Sorted;
    var i :| 0 <= i < |h| && h[i].value == Get(h, tag).value;
    assert h[i] in sec && GoodField(h[i]);
  }

  lemma {:induction false} KeptIsWhole(text: string)
    requires Whole(text)
    ensures Whole(Kept(text)) && (text != "" && text[0] == '#' ==> |Kept(text)| < |text|)
    decreases |text|
  {
    if text != "" && text[0] == '#' {
      KeptIsWhole(text[ChunkLength(text)..]);
    }
  }

  predicate Commented(sec: Section) { BodyText(sec) != "" && BodyText(sec)[0] == '#' }

  // A section comes back unless its body starts with what looks like a header comment.
  lemma SectionComesBackIff(sec: Section, boundary: string)
    requires GoodHeaders(sec, boundary)
    ensures Loaded(sec) == Same(sec) <==> !Commented(sec)
  {
    var h, body := Headers(sec), BodyText(sec);
    ChopHeaders(sec, boundary);
    if body != "" {
      var lines := body + "\n";
      var kept := Kept(lines);
      assert BodyLines(sec, true) == lines && lines[0] == body[0];
      KeptIsWhole(lines);
      PutBodyBack(sec);
      GetPut(h, BODY_TAG, kept, WithoutNewline(kept));
      GetPut(h, BODY_TAG, WithoutNewline(kept), "");
      GetPut(h, BODY_TAG, body, "");
      var _ := BodyField(sec);
      hide Put, Get, Kept, GoodHeaders, Less;
      if kept == "" {
        assert Loaded(sec) == h && |h| < |sec|;
      } else {
        assert Loaded(sec) == Put(h, BODY_TAG, WithoutNewline(kept));
      }
    }
  }

  // The law the format is for, and exactly when it holds.
  lemma RoundTripIff(secs: seq<Section>, boundary: string, old0: seq<Section>, boundary0: string)
    requires Good(secs, boundary, true) && StartsFor(secs, boundary, old0, boundary0) && boundary != ""
    ensures var r := LoadText(old0, boundary0, Print(secs, boundary, true));
            r.Stop? && r.m.closed && r.m.boundary == boundary &&
            (r.m.secs == seq(|secs|, i requires 0 <= i < |secs| => Same(secs[i])) <==>
             forall i | 0 <= i < |secs| :: !Commented(secs[i]))
  {
    ClosedLoads(secs, boundary, old0, boundary0);
    var r := LoadText(old0, boundary0, Print(secs, boundary, true));
    hide LoadText, Print, Good, Commented, Loaded, Same;
    var same := seq(|secs|, i requires 0 <= i < |secs| => Same(secs[i]));
    forall i | 0 <= i < |secs|
      ensures r.m.secs[i] == same[i] <==> !Commented(secs[i])
    {
      GoodHeadersAt(secs, boundary, i);
      SectionComesBackIff(secs[i], boundary);
      assert r.m.secs[i] == Loaded(secs[i]);
    }
    if forall i | 0 <= i < |secs| :: !Commented(secs[i]) {
      assert r.m.secs == same;
    }
  }

  lemma GoodHeadersAt(secs: seq<Section>, boundary: string, i: nat)
    requires Good(secs, boundary, true) && i < |secs|
    ensures GoodHeaders(secs[i], boundary)
  {
  }

  // ---- open ends ----

  lemma OpenText(sec: Section, boundary: string, closed: bool, text: string)
    requires (boundary == "" || !closed) && BodyText(sec) != ""
    ensures SectionText(sec) + Separator(boundary, closed, true) + text ==
            HeaderText(sec) + ("\n" + (BodyText(sec) + text))
  {
    hide HeaderText, BodyText;
    var h, body := HeaderText(sec), BodyText(sec);
    assert h + ("\n" + body) + "" + text == h + ("\n" + (body + text));
  }

  lemma GoodLast(secs: seq<Section>, boundary: string, closed: bool)
    requires Good(secs, boundary, closed) && (boundary == "" || !closed)
    ensures var sec := secs[|secs| - 1];
            GoodHeaders(sec, boundary) && '\0' !in BodyText(sec) && NoDelimiter(BodyText(sec), boundary)
  {
    GoodAt(secs, boundary, closed, |secs| - 1);
  }

  lemma AppendedText(body: string, text: string, boundary: string)
    requires '\0' !in body && '\0' !in text && NoDelimiter(body, boundary) && NoDelimiter(text, boundary)
    requires Whole(body) || text == ""
    ensures '\0' !in body + text && NoDelimiter(body + text, boundary)
  {
    if text == "" {
      assert body + text == body;
    } else {
      ChunksConcat(body, text);
      hide Chunks, IsBoundary;
      forall i | 0 <= i < |Chunks(body + text)|
        ensures !IsBoundary(boundary, Chunks(body + text)[i])
      {
        if i >= |Chunks(body)| {
          assert Chunks(body + text)[i] == Chunks(text)[i - |Chunks(body)|];
        }
      }
    }
  }

  // A file whose last body no delimiter ends. Text appended to it, such as the output of a child, ends up in that
  // body and changes nothing else; closed is not set, whatever it was.
  lemma AppendRefinement(secs: seq<Section>, boundary: string, closed: bool, old0: seq<Section>, boundary0: string,
                         text: string)
    requires Good(secs, boundary, closed) && StartsFor(secs, boundary, old0, boundary0)
    requires boundary == "" || !closed
    requires var sec := secs[|secs| - 1];
             BodyText(sec) != "" && !Commented(sec) && (Whole(BodyText(sec)) || text == "")
    requires '\0' !in text && NoDelimiter(text, boundary)
    ensures var n := |secs| - 1;
            var body := BodyText(secs[n]) + text;
            var r := LoadText(old0, boundary0, Print(secs, boundary, closed) + text);
            r.Go? && !r.m.closed && r.m.boundary == boundary &&
            r.m.secs == LoadedFirst(secs, n) + [Put(Headers(secs[n]), BODY_TAG, body)] &&
            r.m.substatus == BodyStatus(StatusFirst(secs, n), body)
  {
    var n := |secs| - 1;
    var sec := secs[n];
    var stored, body := BodyText(sec), BodyText(sec) + text;
    FrontLoad(secs, boundary, closed, n, old0, boundary0);
    PrintFirstIsWhole(secs, boundary, closed, n);
    GoodLast(secs, boundary, closed);
    AppendedText(stored, text, boundary);
    var front := PrintFirst(secs, boundary, closed, n);
    var rest := HeaderText(sec) + ("\n" + body);
    AppendedPrint(secs, boundary, closed, text);
    assert Kept(body) == body by { assert body[0] == stored[0]; }
    hide Good, Kept, BodyStatus, BodyLines, GoodBoundary, Loaded, PrintFirst, Print, BodyText, NoDelimiter, Whole,
      GoodHeaders, HeaderText;
    TakeTextConcat(Start(old0, boundary0), front, rest);
    assert LoadText(old0, boundary0, front + rest) == TakeText(Start(old0, boundary0), front + rest);
    hide TakeText, Announced;
    SectionLoad(TakeText(Start(old0, boundary0), front).m, LoadedFirst(secs, n), sec, boundary, body);
  }

  lemma Assoc(a: string, b: string, c: string)
    ensures a + b + c == a + (b + c)
  {
  }

  lemma AppendedPrint(secs: seq<Section>, boundary: string, closed: bool, text: string)
    requires secs != [] && (boundary == "" || !closed) && BodyText(secs[|secs| - 1]) != ""
    ensures var n := |secs| - 1;
            Print(secs, boundary, closed) + text ==
            PrintFirst(secs, boundary, closed, n) + (HeaderText(secs[n]) + ("\n" + (BodyText(secs[n]) + text)))
  {
    var n := |secs| - 1;
    PrintLast(secs, boundary, closed);
    OpenText(secs[n], boundary, closed, text);
    hide SectionText, Separator, HeaderText, BodyText, Print, PrintFirst;
    Assoc(PrintFirst(secs, boundary, closed, n), SectionText(secs[n]) + Separator(boundary, closed, true), text);
  }

  // ---- any file ----

  // What loading makes of a last section that no delimiter ends.
  function OpenLoaded(sec: Section): Section { WithBody(Headers(sec), Kept(BodyText(sec))) }

  lemma OpenSectionText(secs: seq<Section>, boundary: string, closed: bool)
    requires secs != [] && (boundary == "" || !closed)
    ensures var n := |secs| - 1; var body := BodyText(secs[n]);
            Print(secs, boundary, closed) ==
            PrintFirst(secs, boundary, closed, n) +
            if body == "" then HeaderText(secs[n]) else HeaderText(secs[n]) + ("\n" + body)
  {
    var n := |secs| - 1;
    PrintLast(secs, boundary, closed);
    var h, body := HeaderText(secs[n]), BodyText(secs[n]);
    assert Separator(boundary, closed, true) == "";
    hide HeaderText, BodyText, PrintFirst, Print, Separator;
    assert h + "" + "" == h && h + ("\n" + body) + "" == h + ("\n" + body);
  }

  // The last section, headers alone or with a body.
  lemma OpenSectionLoads(m: Machine, done: seq<Section>, sec: Section, boundary: string)
    requires Inside(m, done, [], false, false) && GoodHeaders(sec, boundary)
    requires '\0' !in BodyText(sec) && NoDelimiter(BodyText(sec), boundary)
    requires if done == [] then Announced(m.boundary, sec) == boundary else m.boundary == boundary
    ensures var text := if BodyText(sec) == "" then HeaderText(sec) else HeaderText(sec) + ("\n" + BodyText(sec));
            var r := TakeText(m, text);
            && r.Go? && !r.m.closed && r.m.boundary == boundary && r.m.sec == |done|
            && Grow(r.m.secs, |done|) == done + [OpenLoaded(sec)]
            && (OpenLoaded(sec) != [] ==> r.m.secs == done + [OpenLoaded(sec)])
            && r.m.substatus == BodyStatus(m.substatus, Kept(BodyText(sec)))
  {
    if BodyText(sec) == "" {
      HeadersLoad(m, done, sec, boundary, |sec|);
      assert sec[..|sec|] == sec;
    } else {
      hide GoodHeaders, NoDelimiter, Announced, Headers, HeaderText, BodyText, TakeText, BodyStatus, WithBody, Kept;
      SectionLoad(m, done, sec, boundary, BodyText(sec));
    }
  }

  function OpenBack(secs: seq<Section>): seq<Section>
    requires secs != []
  {
    LoadedFirst(secs, |secs| - 1) + [OpenLoaded(secs[|secs| - 1])]
  }

  lemma OpenLoads(secs: seq<Section>, boundary: string, closed: bool, old0: seq<Section>, boundary0: string)
    requires Good(secs, boundary, closed) && StartsFor(secs, boundary, old0, boundary0)
    requires boundary == "" || !closed
    ensures var n := |secs| - 1;
            var r := LoadText(old0, boundary0, Print(secs, boundary, closed));
            && r.Go? && !r.m.closed && r.m.boundary == boundary
            && Grow(r.m.secs, n) == OpenBack(secs) && (OpenLoaded(secs[n]) != [] ==> r.m.secs == OpenBack(secs))
            && r.m.substatus == BodyStatus(StatusFirst(secs, n), Kept(BodyText(secs[n])))
  {
    var n := |secs| - 1;
    var sec := secs[n];
    FrontLoad(secs, boundary, closed, n, old0, boundary0);
    PrintFirstIsWhole(secs, boundary, closed, n);
    GoodLast(secs, boundary, closed);
    OpenSectionText(secs, boundary, closed);
    var start, front := Start(old0, boundary0), PrintFirst(secs, boundary, closed, n);
    var rest := if BodyText(sec) == "" then HeaderText(sec) else HeaderText(sec) + ("\n" + BodyText(sec));
    hide Good, GoodHeaders, Kept, BodyStatus, BodyLines, GoodBoundary, Loaded, PrintFirst, Print, BodyText, NoDelimiter,
      Whole, HeaderText, Announced, WithBody;
    assert LoadText(old0, boundary0, front + rest) == TakeText(start, front + rest);
    hide TakeText, LoadText;
    TakeTextConcat(start, front, rest);
    OpenSectionLoads(TakeText(start, front).m, LoadedFirst(secs, n), sec, boundary);
  }

  // The closed flag comes back exactly if it was unset, or there is a boundary to end the file with. So a job file
  // with one section and no boundary never loads as closed.
  lemma ClosedFlagIff(secs: seq<Section>, boundary: string, closed: bool, old0: seq<Section>, boundary0: string)
    requires Good(secs, boundary, closed) && StartsFor(secs, boundary, old0, boundary0)
    ensures var r := LoadText(old0, boundary0, Print(secs, boundary, closed));
            !r.Bad? && r.m.boundary == boundary && (r.m.closed == closed <==> !closed || boundary != "")
  {
    hide Good, LoadText, Print, StartsFor;
    if closed && boundary != "" {
      ClosedLoads(secs, boundary, old0, boundary0);
    } else {
      OpenLoads(secs, boundary, closed, old0, boundary0);
    }
  }

  lemma OpenComesBackIff(sec: Section, boundary: string)
    requires GoodHeaders(sec, boundary)
    ensures OpenLoaded(sec) == Same(sec) <==> !Commented(sec)
  {
    var h, body := Headers(sec), BodyText(sec);
    if body != "" {
      var kept := Kept(body);
      PutBodyBack(sec);
      if body[0] == '#' {
        CommentsAreLost(body);
        GetPut(h, BODY_TAG, kept, "");
        GetPut(h, BODY_TAG, body, "");
        var _ := BodyField(sec);
      }
    }
  }

  lemma CommentsAreLost(text: string)
    requires text != "" && text[0] == '#'
    ensures |Kept(text)| < |text|
  {
  }

  // The sections a load gives, with the last one there even if it is empty, as the load of job::file makes sure.
  function SectionsOf(m: Machine, n: nat): seq<Section>
    requires n > 0
  {
    Grow(m.secs, n - 1)
  }

  // The sections without the difference between an absent and an empty body.
  function AllSame(secs: seq<Section>): seq<Section> { seq(|secs|, i requires 0 <= i < |secs| => Same(secs[i])) }

  lemma OpenBackAt(secs: seq<Section>, i: nat)
    requires i < |secs|
    ensures |OpenBack(secs)| == |AllSame(secs)| == |secs| && AllSame(secs)[i] == Same(secs[i])
    ensures OpenBack(secs)[i] == if i + 1 < |secs| then Loaded(secs[i]) else OpenLoaded(secs[i])
  {
    hide Loaded, OpenLoaded, Same;
  }

  lemma OpenSectionIff(secs: seq<Section>, boundary: string, closed: bool, i: nat)
    requires Good(secs, boundary, closed) && i < |secs|
    ensures |OpenBack(secs)| == |AllSame(secs)| == |secs|
    ensures OpenBack(secs)[i] == AllSame(secs)[i] <==> !Commented(secs[i])
  {
    hide *;
    HeadersOf(secs, boundary, closed, i);
    SectionComesBackIff(secs[i], boundary);
    OpenComesBackIff(secs[i], boundary);
    OpenBackAt(secs, i);
  }

  lemma OpenSectionsIff(secs: seq<Section>, boundary: string, closed: bool)
    requires secs != [] && Good(secs, boundary, closed)
    ensures OpenBack(secs) == AllSame(secs) <==> forall i | 0 <= i < |secs| :: !Commented(secs[i])
  {
    hide *;
    OpenSectionIff(secs, boundary, closed, 0);
    forall i | 0 <= i < |secs|
      ensures OpenBack(secs)[i] == AllSame(secs)[i] <==> !Commented(secs[i])
    {
      OpenSectionIff(secs, boundary, closed, i);
    }
    if forall i | 0 <= i < |secs| :: !Commented(secs[i]) {
      assert OpenBack(secs) == AllSame(secs);
    }
  }

  // Every object comes back, closed or not, with a boundary or without, exactly if no body starts with a '#'.
  lemma EveryRoundTripIff(secs: seq<Section>, boundary: string, closed: bool, old0: seq<Section>, boundary0: string)
    requires Good(secs, boundary, closed) && StartsFor(secs, boundary, old0, boundary0)
    ensures var r := LoadText(old0, boundary0, Print(secs, boundary, closed));
            secs != [] && !r.Bad? && r.m.boundary == boundary &&
            (SectionsOf(r.m, |secs|) == AllSame(secs) <==> forall i | 0 <= i < |secs| :: !Commented(secs[i]))
  {
    assert secs != [];
    if closed && boundary != "" {
      hide *;
      ClosedLoads(secs, boundary, old0, boundary0);
      RoundTripIff(secs, boundary, old0, boundary0);
      GrownAlready(LoadText(old0, boundary0, Print(secs, boundary, closed)).m, secs);
    } else {
      hide *;
      OpenLoads(secs, boundary, closed, old0, boundary0);
      OpenSectionsIff(secs, boundary, closed);
      IsGrown(LoadText(old0, boundary0, Print(secs, boundary, closed)).m, |secs|);
    }
  }

  lemma IsGrown(m: Machine, n: nat)
    requires n > 0
    ensures SectionsOf(m, n) == Grow(m.secs, n - 1)
  {
  }

  lemma GrownAlready(m: Machine, secs: seq<Section>)
    requires secs != [] && m.secs == LoadedFirst(secs, |secs|)
    ensures SectionsOf(m, |secs|) == m.secs
    ensures AllSame(secs) == seq(|secs|, i requires 0 <= i < |secs| => Same(secs[i]))
  {
  }

  lemma HeadersOf(secs: seq<Section>, boundary: string, closed: bool, i: nat)
    requires Good(secs, boundary, closed) && i < |secs|
    ensures GoodHeaders(secs[i], boundary)
  {
    GoodAt(secs, boundary, closed, i);
  }

  // ---- substatus ----

  // The body lines a load looks at for the substatus: all but the first of each body.
  function LookedAt(text: string): seq<string> { if text == "" then [] else Chunks(text)[1..] }

  function LookedAtFirst(secs: seq<Section>, n: nat): seq<string>
    requires n <= |secs|
  {
    if n == 0 then [] else LookedAtFirst(secs, n - 1) + LookedAt(Kept(BodyLines(secs[n - 1], true)))
  }

  lemma {:induction false} StatusesConcat(sub: string, a: seq<string>, b: seq<string>)
    ensures Statuses(sub, a + b) == Statuses(Statuses(sub, a), b)
    decreases |a|
  {
    if a == [] {
      assert a + b == b;
    } else {
      assert (a + b)[0] == a[0] && (a + b)[1..] == a[1..] + b;
      StatusesConcat(Substatus(sub, a[0]), a[1..], b);
    }
  }

  lemma {:induction false} StatusIsOfLines(secs: seq<Section>, n: nat)
    requires n <= |secs|
    ensures StatusFirst(secs, n) == Statuses("", LookedAtFirst(secs, n))
  {
    if n > 0 {
      hide *;
      StatusIsOfLines(secs, n - 1);
      LinesMore(secs, n);
      var text := Kept(BodyLines(secs[n - 1], true));
      BodyStatusOf(StatusFirst(secs, n - 1), text);
      StatusesConcat("", LookedAtFirst(secs, n - 1), LookedAt(text));
    }
  }

  lemma LinesMore(secs: seq<Section>, n: nat)
    requires 0 < n <= |secs|
    ensures var text := Kept(BodyLines(secs[n - 1], true));
            && StatusFirst(secs, n) == BodyStatus(StatusFirst(secs, n - 1), text)
            && LookedAtFirst(secs, n) == LookedAtFirst(secs, n - 1) + LookedAt(text)
  {
    hide BodyStatus, Kept, BodyLines, LookedAt;
  }

  lemma BodyStatusOf(sub: string, text: string)
    ensures BodyStatus(sub, text) == Statuses(sub, LookedAt(text))
  {
    hide Chunks;
  }

  // The substatus of the file as run_a_job and a child's output leave it is the text of the last line that starts
  // with "## ", of all body lines but the first of each body; it is empty if there is none.
  lemma OutputStatus(secs: seq<Section>, boundary: string, closed: bool, old0: seq<Section>, boundary0: string,
                     text: string)
    requires Good(secs, boundary, closed) && StartsFor(secs, boundary, old0, boundary0)
    requires boundary == "" || !closed
    requires var sec := secs[|secs| - 1];
             BodyText(sec) != "" && !Commented(sec) && (Whole(BodyText(sec)) || text == "")
    requires '\0' !in text && NoDelimiter(text, boundary)
    ensures var n := |secs| - 1;
            var lines := LookedAtFirst(secs, n) + LookedAt(BodyText(secs[n]) + text);
            var sub := LoadText(old0, boundary0, Print(secs, boundary, closed) + text).m.substatus;
            && ((forall j | 0 <= j < |lines| :: !("## " <= lines[j])) ==> sub == "")
            && forall i | 0 <= i < |lines| && "## " <= lines[i] && forall j | i < j < |lines| :: !("## " <= lines[j]) ::
                 sub == WithoutNewline(lines[i][3..])
  {
    hide *;
    var n := |secs| - 1;
    NotEmpty(secs, boundary, closed);
    AppendRefinement(secs, boundary, closed, old0, boundary0, text);
    StatusIsOfLines(secs, n);
    BodyStatusOf(StatusFirst(secs, n), BodyText(secs[n]) + text);
    StatusesConcat("", LookedAtFirst(secs, n), LookedAt(BodyText(secs[n]) + text));
    LastOfLines(LookedAtFirst(secs, n) + LookedAt(BodyText(secs[n]) + text));
  }

  lemma LastOfLines(lines: seq<string>)
    ensures (forall j | 0 <= j < |lines| :: !("## " <= lines[j])) ==> Statuses("", lines) == ""
    ensures forall i | 0 <= i < |lines| && "## " <= lines[i] && forall j | i < j < |lines| :: !("## " <= lines[j]) ::
              Statuses("", lines) == WithoutNewline(lines[i][3..])
  {
    if forall j | 0 <= j < |lines| :: !("## " <= lines[j]) {
      NoStatus("", lines);
    }
    forall i | 0 <= i < |lines| && "## " <= lines[i] && forall j | i < j < |lines| :: !("## " <= lines[j])
      ensures Statuses("", lines) == WithoutNewline(lines[i][3..])
    {
      LastStatusCounts("", lines, i);
    }
  }
}
