/** The caseless maps stay maps: what reading and printing keep about keys and their order. */
module MultipartMaps {
  import opened Multipart
  import opened MultipartLines
  import opened MultipartTrips

  lemma {:induction false} LessTransitive(a: string, b: string, c: string)
    requires Less(a, b) && Less(b, c)
    ensures Less(a, c)
  {
    if a != "" && b != "" && c != "" && Lower(a[0]) == Lower(b[0]) == Lower(c[0]) {
      LessTransitive(a[1..], b[1..], c[1..]);
    }
  }

  // The caseless order is total on folded tags.
  lemma {:induction false} SameKeyIffSameFold(a: string, b: string)
    ensures !Less(a, b) && !Less(b, a) <==> Fold(a) == Fold(b)
  {
    if a != "" && b != "" {
      SameKeyIffSameFold(a[1..], b[1..]);
      assert Fold(a) == [Lower(a[0])] + Fold(a[1..]) && Fold(b) == [Lower(b[0])] + Fold(b[1..]);
      if Lower(a[0]) == Lower(b[0]) && Fold(a) == Fold(b) {
        assert Fold(a)[1..] == Fold(b)[1..];
      }
      if Fold(a) == Fold(b) {
        assert Fold(a)[0] == Fold(b)[0];
      }
    } else {
      assert |Fold(a)| == |a| && |Fold(b)| == |b|;
    }
  }

  lemma {:induction false} PutTags(sec: Section, tag: string, value: string, i: nat)
    requires i < |Put(sec, tag, value)|
    ensures var f := Put(sec, tag, value)[i];
            f == Field(tag, value) || exists j | 0 <= j < |sec| :: sec[j].tag == f.tag
  {
    if sec != [] && !Less(tag, sec[0].tag) && Less(sec[0].tag, tag) && i > 0 {
      PutTags(sec[1..], tag, value, i - 1);
      var f := Put(sec, tag, value)[i];
      if f != Field(tag, value) {
        var j :| 0 <= j < |sec| - 1 && sec[1..][j].tag == f.tag;
        assert sec[j + 1].tag == f.tag;
      }
    }
  }

  lemma SortedCons(f: Field, rest: Section)
    requires Sorted(rest) && forall i | 0 <= i < |rest| :: Less(f.tag, rest[i].tag)
    ensures Sorted([f] + rest)
  {
    var sec := [f] + rest;
    hide Less;
    forall i, j | 0 <= i < j < |sec|
      ensures Less(sec[i].tag, sec[j].tag)
    {
      assert sec[j] == rest[j - 1];
      if i > 0 {
        assert sec[i] == rest[i - 1];
      }
    }
  }

  // An assignment keeps a map sorted, with one field for each key.
  lemma {:induction false} PutKeepsSorted(sec: Section, tag: string, value: string)
    requires Sorted(sec)
    ensures Sorted(Put(sec, tag, value))
  {
    if sec != [] {
      var rest := sec[1..];
      if Less(tag, sec[0].tag) {
        forall i | 0 <= i < |sec|
          ensures Less(tag, sec[i].tag)
        {
          if i > 0 {
            LessTransitive(tag, sec[0].tag, sec[i].tag);
          }
        }
        SortedCons(Field(tag, value), sec);
      } else if Less(sec[0].tag, tag) {
        PutKeepsSorted(rest, tag, value);
        forall i | 0 <= i < |Put(rest, tag, value)|
          ensures Less(sec[0].tag, Put(rest, tag, value)[i].tag)
        {
          PutTags(rest, tag, value, i);
        }
        SortedCons(sec[0], Put(rest, tag, value));
      } else {
        SortedCons(Field(sec[0].tag, value), rest);
      }
    }
  }

  // ---- every load keeps maps sorted ----

  predicate AllSorted(secs: seq<Section>) { forall i | 0 <= i < |secs| :: Sorted(secs[i]) }

  lemma {:induction false} GrowKeepsSorted(secs: seq<Section>, sec: nat)
    requires AllSorted(secs)
    ensures AllSorted(Grow(secs, sec))
    decreases if sec < |secs| then 0 else sec + 1 - |secs|
  {
    if sec >= |secs| {
      GrowKeepsSorted(secs + [[]], sec);
    }
  }

  lemma LineKeepsSorted(m: Machine, line: string)
    requires AllSorted(m.secs)
    ensures AllSorted(TakeLine(m, line).m.secs)
  {
    GrowKeepsSorted(m.secs, m.sec);
    var part := Grow(m.secs, m.sec)[m.sec];
    forall tag, value
      ensures Sorted(Put(part, tag, value))
    {
      PutKeepsSorted(part, tag, value);
    }
    hide Sorted, Put, IsMid, IsEnd, ReadHeader, GivesBoundary, Get, Grow;
  }

  lemma {:induction false} ChunksKeepSorted(m: Machine, chunks: seq<string>)
    requires AllSorted(m.secs)
    ensures AllSorted(TakeChunks(m, chunks).m.secs)
    decreases |chunks|
  {
    hide TakeLine, AllSorted, CString;
    if chunks != [] {
      LineKeepsSorted(m, CString(chunks[0]));
      var r := TakeLine(m, CString(chunks[0]));
      if r.Go? {
        ChunksKeepSorted(r.m, chunks[1..]);
      }
    }
  }

  // ---- a fresh boundary ----

  lemma {:induction false} PutHas(sec: Section, tag: string, value: string) returns (i: nat)
    ensures i < |Put(sec, tag, value)|
    ensures Fold(Put(sec, tag, value)[i].tag) == Fold(tag) && Put(sec, tag, value)[i].value == value
  {
    i := 0;
    if sec != [] && !Less(tag, sec[0].tag) {
      if Less(sec[0].tag, tag) {
        i := PutHas(sec[1..], tag, value);
        i := i + 1;
      } else {
        SameKeyIffSameFold(tag, sec[0].tag);
      }
    }
  }

  lemma {:induction false} NoneAnnounced(sec: Section, tag: string)
    requires Fold(tag) == "content-type" && forall i | 0 <= i < |sec| :: Less(sec[i].tag, tag)
    ensures Announced("", sec) == ""
  {
    if sec != [] {
      NoneAnnounced(sec[..|sec| - 1], tag);
      SameKeyIffSameFold(sec[|sec| - 1].tag, tag);
    }
  }

  lemma {:induction false} AnnouncedBy(sec: Section, i: nat)
    requires Sorted(sec) && i < |sec| && GivesBoundary(sec[i].tag, sec[i].value) && |sec[i].value| > |BOUNDARY_INTRO|
    ensures Announced("", sec) == sec[i].value[|BOUNDARY_INTRO|..]
  {
    var n := |sec| - 1;
    var front := sec[..n];
    if i == n {
      NoneAnnounced(front, sec[n].tag);
      assert |Fold(BODY_TAG)| == 8 && |Fold(sec[n].tag)| == |"content-type"|;
    } else {
      AnnouncedBy(front, i);
    }
  }

  // The boundary to_string makes up is the one its own Content-Type announces.
  lemma FreshBoundaryIsAnnounced(sec: Section, uuid: string)
    requires Sorted(sec) && uuid != ""
    ensures Announced("", Put(sec, "Content-Type", BOUNDARY_INTRO + uuid)) == uuid
  {
    var value := BOUNDARY_INTRO + uuid;
    var to := Put(sec, "Content-Type", value);
    PutKeepsSorted(sec, "Content-Type", value);
    var i := PutHas(sec, "Content-Type", value);
    assert value[..|BOUNDARY_INTRO|] == BOUNDARY_INTRO && value[|BOUNDARY_INTRO|..] == uuid;
    IntroFolds();
    AnnouncedBy(to, i);
  }

  lemma IntroFolds()
    ensures Fold("Content-Type") == "content-type" && Fold(BOUNDARY_INTRO) == BOUNDARY_INTRO
  {
  }
}
