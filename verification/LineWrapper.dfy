/** Line wrapping of UTF-8 text through a ring buffer of 16 slots: no text is lost, and every line fits its column. */
module LineWrapper {
  // A text is its bytes, one character each.
  type Text = string

  const NEWLINE := '\n'
  const SPACE := ' '

  // ---- characters ----

  predicate IsContinuation(b: char) { 0x80 <= b as int <= 0xBF }

  predicate IsWideChar(ch: int) {
    ch != 0x303F &&
    (0x1100 <= ch <= 0x115F || 0x2329 <= ch <= 0x232A || 0x2E80 <= ch <= 0xA4C6 || 0xA960 <= ch <= 0xA97C ||
     0xAC00 <= ch <= 0xD7FB || 0xF900 <= ch <= 0xFAFF || 0xFE10 <= ch <= 0xFE6B || 0xFF01 <= ch <= 0xFF60 ||
     0xFFE0 <= ch <= 0xFFE6 || 0x1B000 <= ch)
  }

  // The start byte without its leading one bits; 0xFF has no zero bit to end them.
  function LeadBits(byte: char): (bits: nat)
    ensures 0xC1 < byte as int < 0xFF ==> bits < 32
  {
    var b := byte as int;
    if b < 0xE0 then b % 32
    else if b < 0xF0 then b % 16
    else if b < 0xF8 then b % 8
    else if b < 0xFC then b % 4
    else if b < 0xFE then b % 2
    else 0
  }

  // The continuation bytes at the start of a text.
  function Continuations(d: Text): (n: nat)
    ensures n <= |d| && forall i | 0 <= i < n :: IsContinuation(d[i])
    ensures n < |d| ==> !IsContinuation(d[n])
  {
    if d == [] || !IsContinuation(d[0]) then 0 else 1 + Continuations(d[1..])
  }

  function Wrap32(n: nat): nat { n % 0x1_0000_0000 }

  // The code point with these continuation bytes added, in 32 bits.
  function AddBytes(ch: nat, d: Text, n: nat): (r: nat)
    requires n <= |d| && forall i | 0 <= i < n :: IsContinuation(d[i])
  {
    if n == 0 then ch
    else
      assert IsContinuation(d[n - 1]);
      var b := d[n - 1] as int;
      Wrap32(AddBytes(ch, d, n - 1) * 64) + (b - 0x80)
  }

  datatype Glyph = Glyph(bytes: nat, columns: nat)

  // The first character of a text: anything up to 0xC1 is taken for one of a single byte.
  function First(d: Text): (g: Glyph)
    requires d != []
    ensures 1 <= g.bytes <= |d| && 1 <= g.columns <= 2
  {
    if d[0] as int <= 0xC1 then Glyph(1, 1)
    else
      var n := Continuations(d[1..]);
      var ch := AddBytes(LeadBits(d[0]), d[1..], n);
      Glyph(1 + n, if ch >= 0x1100 && IsWideChar(ch) then 2 else 1)
  }

  // The number of screen columns a text takes.
  function Columns(d: Text): nat {
    if d == [] then 0 else First(d).columns + Columns(d[First(d).bytes..])
  }

  // ---- where a line ends ----

  // The number of bytes of the characters that fit.
  function Fit(d: Text, width: nat): (n: nat)
    ensures n <= |d|
    decreases |d|
  {
    if d == [] || width == 0 || First(d).columns > width then 0
    else First(d).bytes + Fit(d[First(d).bytes..], width - First(d).columns)
  }

  // The last space at or before i, or -1.
  function LastSpace(d: Text, i: int): (r: int)
    requires -1 <= i < |d|
    ensures -1 <= r <= i && (r >= 0 ==> d[r] == SPACE) && forall k | r < k <= i :: d[k] != SPACE
    decreases i + 1
  {
    if i < 0 || d[i] == SPACE then i else LastSpace(d, i - 1)
  }

  // The first line of a text, and whether the space behind it is dropped.
  datatype Cut = Cut(length: nat, drops: bool)

  function FirstCut(d: Text, width: nat): (c: Cut)
    ensures c.length + (if c.drops then 1 else 0) <= |d|
    ensures c.drops ==> d[c.length] == SPACE
    ensures d != [] && width >= 2 ==> c.drops || c.length > 0
  {
    if |d| <= width then Cut(|d|, false)
    else
      FitAdvances(d, width);
      var max := Fit(d, width);
      if max == |d| then Cut(|d|, false)
      else
        var i := LastSpace(d, max);
        if i >= 0 then Cut(i, true) else Cut(max, false)
  }

  lemma FitAdvances(d: Text, width: nat)
    ensures d != [] && width >= 2 ==> Fit(d, width) >= 1
  {
  }

  // What is left behind the first line.
  function Behind(d: Text, width: nat): (r: Text)
    ensures d != [] && width >= 2 ==> |r| < |d|
  {
    var c := FirstCut(d, width);
    d[c.length + (if c.drops then 1 else 0)..]
  }

  // The lines of a text.
  function Lines(d: Text, width: nat): (r: seq<Text>)
    requires width >= 2
    decreases |d|
  {
    if d == [] then [] else [d[..FirstCut(d, width).length]] + Lines(Behind(d, width), width)
  }

  function Dropped(d: Text, width: nat): seq<bool>
    requires width >= 2
    decreases |d|
  {
    if d == [] then [] else [FirstCut(d, width).drops] + Dropped(Behind(d, width), width)
  }

  lemma LinesStep(d: Text, width: nat)
    requires d != [] && width >= 2
    ensures var c := FirstCut(d, width); var rest := d[c.length + (if c.drops then 1 else 0)..];
            |rest| < |d| && Lines(d, width) == [d[..c.length]] + Lines(rest, width) &&
            Lines(d, width)[1..] == Lines(rest, width) && (NoFF(d) ==> NoFF(rest))
  {
    hide FirstCut;
  }

  lemma LinesEnd(width: nat)
    requires width >= 2
    ensures Lines([], width) == []
  {
  }

  // ---- nothing is lost, and everything fits ----

  function Rejoined(lines: seq<Text>, dropped: seq<bool>): Text
    requires |lines| == |dropped|
  {
    if lines == [] then []
    else lines[0] + (Gap(dropped[0]) + Rejoined(lines[1..], dropped[1..]))
  }

  // The space that is dropped behind a line.
  function Gap(drops: bool): Text { if drops then [SPACE] else [] }

  // The lines, with the one dropped space at each such split, are the text.
  lemma {:induction false} LinesRejoin(d: Text, width: nat)
    requires width >= 2
    ensures |Lines(d, width)| == |Dropped(d, width)| && Rejoined(Lines(d, width), Dropped(d, width)) == d
    decreases |d|
  {
    if d != [] {
      CutUp(d, width);
      hide *;
      var c, rest := FirstCut(d, width), Behind(d, width);
      LinesRejoin(rest, width);
      RejoinedMore(d[..c.length], c.drops, Lines(rest, width), Dropped(rest, width));
    } else {
      assert Lines(d, width) == [] && Dropped(d, width) == [];
    }
  }

  lemma CutUp(d: Text, width: nat)
    requires d != [] && width >= 2
    ensures var c, rest := FirstCut(d, width), Behind(d, width);
            && |rest| < |d| && d == d[..c.length] + (Gap(c.drops) + rest)
            && Lines(d, width) == [d[..c.length]] + Lines(rest, width)
            && Dropped(d, width) == [c.drops] + Dropped(rest, width)
  {
    hide FirstCut;
    CutText(d, FirstCut(d, width));
  }

  lemma CutText(d: Text, c: Cut)
    requires c.length + (if c.drops then 1 else 0) <= |d| && (c.drops ==> d[c.length] == SPACE)
    ensures d == d[..c.length] + (Gap(c.drops) + d[c.length + (if c.drops then 1 else 0)..])
  {
    var n := c.length;
    if c.drops {
      assert d[n..] == [SPACE] + d[n + 1..];
    } else {
      assert [] + d[n..] == d[n..];
    }
    assert d == d[..n] + d[n..];
  }

  lemma RejoinedMore(line: Text, drops: bool, lines: seq<Text>, dropped: seq<bool>)
    requires |lines| == |dropped|
    ensures Rejoined([line] + lines, [drops] + dropped) ==
            line + (Gap(drops) + Rejoined(lines, dropped))
  {
    assert ([line] + lines)[1..] == lines && ([drops] + dropped)[1..] == dropped;
    hide Gap;
  }

  predicate NoFF(d: Text) { forall i | 0 <= i < |d| :: d[i] as int < 0xFF }

  // A wide character has more than one byte.
  lemma GlyphIsNarrow(d: Text)
    requires d != [] && NoFF(d)
    ensures First(d).columns <= First(d).bytes
  {
  }

  // The quick test of process works.
  lemma {:induction false} ColumnsAtMostBytes(d: Text)
    requires NoFF(d)
    ensures Columns(d) <= |d|
  {
    if d != [] {
      GlyphIsNarrow(d);
      ColumnsAtMostBytes(d[First(d).bytes..]);
    }
  }

  lemma {:induction false} RunPrefix(d: Text, n: nat)
    requires Continuations(d) <= n <= |d|
    ensures Continuations(d[..n]) == Continuations(d)
  {
    if d != [] && IsContinuation(d[0]) {
      assert d[..n][1..] == d[1..][..n - 1];
      RunPrefix(d[1..], n - 1);
    }
  }

  lemma {:induction false} AddBytesPrefix(ch: nat, d: Text, n: nat, k: nat)
    requires k <= n <= |d| && forall i | 0 <= i < k :: IsContinuation(d[i])
    ensures AddBytes(ch, d[..n], k) == AddBytes(ch, d, k)
  {
    if k > 0 {
      AddBytesPrefix(ch, d, n, k - 1);
    }
  }

  // A character is the same in a text cut behind it.
  lemma FirstOfPrefix(d: Text, n: nat)
    requires d != [] && First(d).bytes <= n <= |d|
    ensures First(d[..n]) == First(d)
  {
    if d[0] as int > 0xC1 {
      assert d[..n][1..] == d[1..][..n - 1];
      RunPrefix(d[1..], n - 1);
      AddBytesPrefix(LeadBits(d[0]), d[1..], n - 1, Continuations(d[1..]));
    }
  }

  lemma ColumnsOfPrefix(d: Text, n: nat)
    requires d != [] && First(d).bytes <= n <= |d|
    ensures Columns(d[..n]) == First(d).columns + Columns(d[First(d).bytes..][..n - First(d).bytes])
  {
    FirstOfPrefix(d, n);
    var k := First(d).bytes;
    assert d[..n][k..] == d[k..][..n - k];
  }

  // What fits, fits; and so does what is before a space in it or right behind it.
  lemma {:induction false} FitFits(d: Text, width: nat, n: nat)
    requires n <= Fit(d, width) && (n == Fit(d, width) || (n < |d| && d[n] == SPACE))
    ensures Columns(d[..n]) <= width
    decreases |d|
  {
    if n > 0 {
      FitUnfold(d, width);
      var k := First(d).bytes;
      if n < Fit(d, width) { InFirst(d, n); }
      assert n < |d| ==> d[k..][n - k] == d[n];
      hide *;
      FitFits(d[k..], width - First(d).columns, n - k);
      ColumnsOfPrefix(d, n);
    } else {
      assert Columns(d[..0]) == 0;
    }
  }

  // No space is among the bytes of a character behind its first.
  lemma InFirst(d: Text, n: nat)
    requires d != [] && 0 < n < |d| && d[n] == SPACE
    ensures n >= First(d).bytes
  {
    if d[0] as int > 0xC1 {
      assert d[n] == d[1..][n - 1] && !IsContinuation(d[n]);
    }
  }

  lemma FitUnfold(d: Text, width: nat)
    ensures Fit(d, width) == if d == [] || width == 0 || First(d).columns > width then 0
                             else First(d).bytes + Fit(d[First(d).bytes..], width - First(d).columns)
  {
    hide First;
  }

  // Every line fits the column.
  lemma {:induction false} LinesFit(d: Text, width: nat)
    requires width >= 2 && NoFF(d)
    ensures forall i | 0 <= i < |Lines(d, width)| :: Columns(Lines(d, width)[i]) <= width
    decreases |d|
  {
    if d != [] {
      FirstLineFits(d, width);
      LinesStep(d, width);
      hide *;
      LinesFit(Behind(d, width), width);
    }
  }

  lemma FirstLineFits(d: Text, width: nat)
    requires d != [] && width >= 2 && NoFF(d)
    ensures Columns(d[..FirstCut(d, width).length]) <= width
    ensures |Behind(d, width)| < |d| && NoFF(Behind(d, width))
  {
    if |d| <= width {
      ColumnsAtMostBytes(d);
      assert d[..|d|] == d;
    } else {
      assert FirstCut(d, width).length == Fit(d, width) || FirstCut(d, width).drops;
      hide Fit, Columns;
      FitFits(d, width, FirstCut(d, width).length);
    }
  }

  // A word is only broken where no space of its line could be used instead, and only if the line is full.
  lemma BreakOnlyFullWords(d: Text, width: nat)
    requires d != [] && width >= 2 && !FirstCut(d, width).drops && FirstCut(d, width).length < |d|
    ensures SPACE !in d[..FirstCut(d, width).length + 1]
    ensures var rest := Behind(d, width);
            rest != [] && Columns(d[..FirstCut(d, width).length]) + First(rest).columns > width
  {
    NoSpaceBefore(d, width);
    hide Fit, First, Columns;
    FitIsFull(d, width);
  }

  lemma NoSpaceBefore(d: Text, width: nat)
    requires d != [] && width >= 2 && !FirstCut(d, width).drops && FirstCut(d, width).length < |d|
    ensures FirstCut(d, width).length == Fit(d, width) && SPACE !in d[..Fit(d, width) + 1]
  {
    hide Fit;
    var n := Fit(d, width);
    assert LastSpace(d, n) == -1;
    assert forall k | 0 <= k <= n :: d[..n + 1][k] == d[k] != SPACE;
  }

  lemma {:induction false} FitIsFull(d: Text, width: nat)
    requires Fit(d, width) < |d|
    ensures Columns(d[..Fit(d, width)]) + First(d[Fit(d, width)..]).columns > width
    decreases |d|
  {
    var n, k := Fit(d, width), First(d).bytes;
    FitUnfold(d, width);
    if n == 0 {
      assert d[0..] == d && d[..0] == [] && Columns([]) == 0;
    } else {
      hide *;
      FitIsFull(d[k..], width - First(d).columns);
      ColumnsOfPrefix(d, n);
      assert d[k..][n - k..] == d[n..];
    }
  }

  // ---- the written text ----

  function Blanks(n: int): Text { if n <= 0 then [] else Blanks(n - 1) + [SPACE] }

  // What indent writes to get from the first column to column x.
  function Indent(x: int): Text { if x < 0 then [NEWLINE] else Blanks(x) }

  // The lines from one index to another one below the other, each but the first with the indentation in front.
  function Layout(lines: seq<Text>, from: nat, to: nat, x: int): Text
    requires to <= |lines|
  {
    if to <= from then []
    else Layout(lines, from, to - 1, x) + (Before(to - 1 > from, x) + lines[to - 1])
  }

  function Before(again: bool, x: int): Text { if again then [NEWLINE] + Indent(x) else [] }

  lemma {:induction false} LayoutGrows(lines: seq<Text>, line: Text, from: nat, to: nat, x: int)
    requires to <= |lines|
    ensures Layout(lines + [line], from, to, x) == Layout(lines, from, to, x)
  {
    if to > from {
      LayoutGrows(lines, line, from, to - 1, x);
    }
  }

  // ---- the ring ----

  const SLOTS := 16

  // An index & bufmask.
  function Mask(n: nat): (k: nat)
    requires n < 2 * SLOTS
    ensures k < SLOTS && k == n % SLOTS
  {
    if n < SLOTS then n else n - SLOTS
  }

  function Slot(first: nat, i: nat): (k: nat)
    requires first < SLOTS && i < SLOTS
    ensures k < SLOTS
  {
    Mask(first + i)
  }

  predicate RingOk(lens: seq<nat>, texts: seq<Text>) {
    |lens| == |texts| == SLOTS && forall k | 0 <= k < SLOTS :: lens[k] <= |texts[k]|
  }

  // What n slots of the ring hold, from the slot first on.
  function Ring(lens: seq<nat>, texts: seq<Text>, first: nat, n: nat): (r: seq<Text>)
    requires RingOk(lens, texts) && first < SLOTS && n < SLOTS
    ensures |r| == n
  {
    if n == 0 then []
    else
      var k := Slot(first, n - 1);
      Ring(lens, texts, first, n - 1) + [texts[k][..lens[k]]]
  }

  lemma {:induction false} RingElsewhere(lens: seq<nat>, texts: seq<Text>, first: nat, n: nat, k: nat, len: nat,
                                         data: Text)
    requires RingOk(lens, texts) && first < SLOTS && n < SLOTS && k < SLOTS && len <= |data|
    requires forall i | 0 <= i < n :: Slot(first, i) != k
    ensures RingOk(lens[k := len], texts[k := data])
    ensures Ring(lens[k := len], texts[k := data], first, n) == Ring(lens, texts, first, n)
  {
    if n > 0 {
      RingElsewhere(lens, texts, first, n - 1, k, len, data);
    }
  }

  lemma {:induction false} RingNext(lens: seq<nat>, texts: seq<Text>, first: nat, n: nat)
    requires 0 < n < SLOTS && RingOk(lens, texts) && first < SLOTS
    ensures Ring(lens, texts, first, n) == [texts[first][..lens[first]]] + Ring(lens, texts, Mask(first + 1), n - 1)
  {
    if n > 1 {
      RingNext(lens, texts, first, n - 1);
      assert Slot(Mask(first + 1), n - 2) == Slot(first, n - 1);
    }
  }

  // The number of used slots.
  function Used(head: nat, tail: nat): (n: nat)
    requires head < SLOTS && tail < SLOTS
    ensures n < SLOTS
  {
    Mask(head + SLOTS - 1 - tail)
  }

  lemma SlotsUsed(head: nat, tail: nat)
    requires head < SLOTS && tail < SLOTS
    ensures forall first, i | first == Mask(tail + 1) && 0 <= i < Used(head, tail) :: Slot(first, i) != head
    ensures Slot(Mask(tail + 1), Used(head, tail)) == head
    ensures Mask(tail + 1) == head <==> Used(head, tail) == 0
    ensures tail == head <==> Used(head, tail) == SLOTS - 1
    ensures tail != head ==> Used(Mask(head + 1), tail) == Used(head, tail) + 1
    ensures Mask(tail + 1) != head ==> Used(head, Mask(tail + 1)) == Used(head, tail) - 1
  {
  }

  predicate RingValid(lens: seq<nat>, texts: seq<Text>, head: nat, tail: nat) {
    head < SLOTS && tail < SLOTS && RingOk(lens, texts)
  }

  // The lines in the ring, oldest first.
  function View(lens: seq<nat>, texts: seq<Text>, head: nat, tail: nat): (r: seq<Text>)
    requires RingValid(lens, texts, head, tail)
    ensures |r| == Used(head, tail)
  {
    Ring(lens, texts, Mask(tail + 1), Used(head, tail))
  }

  // Storing at head appends.
  lemma StoreAppends(lens: seq<nat>, texts: seq<Text>, head: nat, tail: nat, len: nat, data: Text)
    requires RingValid(lens, texts, head, tail) && tail != head && len <= |data|
    ensures var lens', texts', head' := lens[head := len], texts[head := data], Mask(head + 1);
            RingValid(lens', texts', head', tail) &&
            View(lens', texts', head', tail) == View(lens, texts, head, tail) + [data[..len]]
  {
    SlotsUsed(head, tail);
    RingElsewhere(lens, texts, Mask(tail + 1), Used(head, tail), head, len, data);
  }

  // Reading behind tail takes the oldest line.
  lemma NextTakesFirst(lens: seq<nat>, texts: seq<Text>, head: nat, tail: nat)
    requires RingValid(lens, texts, head, tail) && Mask(tail + 1) != head
    ensures var k := Mask(tail + 1);
            lens[k] <= |texts[k]| &&
            View(lens, texts, head, tail) == [texts[k][..lens[k]]] + View(lens, texts, head, k)
  {
    SlotsUsed(head, tail);
    RingNext(lens, texts, Mask(tail + 1), Used(head, tail));
  }

  // ---- the scan of process ----

  lemma {:induction false} RunIs(d: Text, n: nat)
    requires n <= |d| && (forall i | 0 <= i < n :: IsContinuation(d[i])) && (n < |d| ==> !IsContinuation(d[n]))
    ensures Continuations(d) == n
  {
    if n > 0 {
      RunIs(d[1..], n - 1);
    }
  }

  // Decodes the character at the given place.
  method Decode(data: Text, at: nat) returns (g: Glyph)
    requires at < |data|
    ensures g == First(data[at..])
  {
    var charbytes, ch: nat := 1, data[at] as int;
    ghost var tail := data[at..][1..];
    g := Glyph(1, 1);
    if ch > 0xC1 {
      ch := LeadBits(data[at]);
      while at + charbytes < |data| && IsContinuation(data[at + charbytes])
        invariant 1 <= charbytes && at + charbytes <= |data|
        invariant forall i | 0 <= i < charbytes - 1 :: IsContinuation(tail[i])
        invariant ch == AddBytes(LeadBits(data[at]), tail, charbytes - 1)
      {
        assert tail[charbytes - 1] == data[at + charbytes];
        var b := data[at + charbytes] as int;
        ch := Wrap32(ch * 64) + (b - 0x80);
        charbytes := charbytes + 1;
      }
      assert at + charbytes < |data| ==> tail[charbytes - 1] == data[at + charbytes];
      RunIs(tail, charbytes - 1);
      g := Glyph(charbytes, if ch >= 0x1100 && IsWideChar(ch) then 2 else 1);
    }
  }

  // How many bytes of the data fit.
  method FindFit(data: Text, width: nat) returns (maxi: nat)
    ensures maxi == Fit(data, width)
  {
    var utf8width: nat := 0;
    maxi := 0;
    assert Fitted(data, width, 0, 0) by { assert data[0..] == data; }
    while maxi < |data| && utf8width < width
      invariant Fitted(data, width, maxi, utf8width)
      decreases |data| - maxi
    {
      var fits;
      maxi, utf8width, fits := FitNext(data, width, maxi, utf8width);
      if !fits { return; }
    }
    FittedAll(data, width, maxi, utf8width);
  }

  // One turn of the loop: the next character, if it fits.
  method FitNext(data: Text, width: nat, maxi: nat, utf8width: nat) returns (next: nat, columns: nat, fits: bool)
    requires Fitted(data, width, maxi, utf8width) && maxi < |data| && utf8width < width
    ensures if fits then maxi < next && Fitted(data, width, next, columns)
            else next == maxi && maxi == Fit(data, width)
  {
    hide *;
    var g := Decode(data, maxi);
    FittedNext(data, width, maxi, utf8width, g);
    fits := utf8width + g.columns <= width;
    if fits {
      next, columns := maxi + g.bytes, utf8width + g.columns;
    } else {
      next, columns := maxi, utf8width;
    }
  }

  // The characters up to maxi fit, and take up so many columns.
  ghost predicate Fitted(data: Text, width: nat, maxi: nat, columns: nat) {
    maxi <= |data| && columns <= width && Fit(data, width) == maxi + Fit(data[maxi..], width - columns)
  }

  lemma FittedNext(data: Text, width: nat, maxi: nat, columns: nat, g: Glyph)
    requires Fitted(data, width, maxi, columns) && maxi < |data| && columns < width && g == First(data[maxi..])
    ensures if columns + g.columns > width then maxi == Fit(data, width)
            else Fitted(data, width, maxi + g.bytes, columns + g.columns)
  {
    assert data[maxi..][g.bytes..] == data[maxi + g.bytes..];
    FitUnfold(data[maxi..], width - columns);
    hide First, Fit;
  }

  lemma FittedAll(data: Text, width: nat, maxi: nat, columns: nat)
    requires Fitted(data, width, maxi, columns) && (maxi >= |data| || columns >= width)
    ensures maxi == Fit(data, width)
  {
  }

  // Where to cut the data.
  method FindCut(data: Text, width: nat) returns (c: Cut)
    requires width >= 2
    ensures c == FirstCut(data, width)
  {
    if |data| <= width { return Cut(|data|, false); }
    var maxi := FindFit(data, width);
    hide Fit;
    if maxi == |data| { return Cut(|data|, false); }
    var i := maxi;
    while i >= 0 && data[i] != SPACE
      invariant -1 <= i <= maxi && LastSpace(data, maxi) == LastSpace(data, i)
    {
      i := i - 1;
    }
    c := if i >= 0 then Cut(i, true) else Cut(maxi, false);
  }

  // ---- the class ----

  class LineWrapper {
    const lenbuf: array<nat>
    const datbuf: array<Text>
    const x: int
    const width: nat
    var head: nat
    var tail: nat
    var wroteSomething: bool
    // All that went to the writer.
    var written: Text
    // All lines ever put into the ring, and how many of them have been taken out.
    ghost var accepted: seq<Text>
    ghost var emitted: nat

    // The ring holds the lines not yet taken out, in order.
    ghost predicate Valid()
      reads this, lenbuf, datbuf
    {
      RingValid(lenbuf[..], datbuf[..], head, tail) && width >= 2 &&
      emitted <= |accepted| && View(lenbuf[..], datbuf[..], head, tail) == accepted[emitted..]
    }

    // Since emitted was from and the text written was written0, just the lines taken out have been written.
    ghost predicate Progress(from: nat, written0: Text)
      reads this, lenbuf, datbuf
    {
      Valid() && from <= emitted && (wroteSomething <==> from < emitted) &&
      written == written0 + Layout(accepted, from, emitted, x)
    }

    constructor (x1: int, x2: int)
      ensures Valid() && fresh(lenbuf) && fresh(datbuf)
      ensures x == x1 && width == (if x2 - x1 < 2 then 2 else x2 - x1)
      ensures written == [] && accepted == []
    {
      lenbuf, datbuf := new nat[SLOTS](_ => 0), new Text[SLOTS](_ => []);
      x := x1;
      width := if x2 - x1 < 2 then 2 else x2 - x1;
      head, tail, wroteSomething, written := 0, SLOTS - 1, false, [];
      accepted, emitted := [], 0;
    }

    predicate BufEmpty()
      reads this
      requires tail < SLOTS
    {
      Mask(tail + 1) == head
    }

    predicate BufFull()
      reads this
    {
      tail == head
    }

    lemma Sizes()
      requires Valid()
      ensures BufEmpty() <==> emitted == |accepted|
      ensures BufFull() <==> |accepted| - emitted == SLOTS - 1
      ensures |accepted| - emitted < SLOTS
    {
      SlotsUsed(head, tail);
    }

    method BufStore(data: Text, len: nat)
      requires Valid() && !BufFull() && len <= |data|
      modifies this`head, this`accepted, lenbuf, datbuf
      ensures Valid() && accepted == old(accepted) + [data[..len]]
    {
      ghost var lens, texts := lenbuf[..], datbuf[..];
      StoreAppends(lens, texts, head, tail, len, data);
      lenbuf[head] := len;
      datbuf[head] := data;
      assert lenbuf[..] == lens[head := len] && datbuf[..] == texts[head := data];
      hide View;
      head := Mask(head + 1);
      assert (accepted + [data[..len]])[emitted..] == accepted[emitted..] + [data[..len]];
      accepted := accepted + [data[..len]];
    }

    // Takes the next line out of the ring.
    method BufNext() returns (line: Text)
      requires Valid() && !BufEmpty()
      modifies this`tail, this`emitted
      ensures Valid() && emitted == old(emitted) + 1 && line == accepted[old(emitted)]
    {
      Sizes();
      NextTakesFirst(lenbuf[..], datbuf[..], head, tail);
      hide View;
      tail := Mask(tail + 1);
      line := datbuf[tail][..lenbuf[tail]];
      assert accepted[emitted..] == [accepted[emitted]] + accepted[emitted + 1..];
      emitted := emitted + 1;
    }

    // Puts a line into the ring; if that is full, one is written first.
    method Output(data: Text, len: nat, ghost from: nat, ghost written0: Text)
      requires len <= |data| && Progress(from, written0)
      modifies this, lenbuf, datbuf
      ensures Progress(from, written0) && accepted == old(accepted) + [data[..len]]
      ensures emitted == old(emitted) + if old(|accepted| - emitted) == SLOTS - 1 then 1 else 0
    {
      Sizes();
      hide View, RingValid;
      if BufFull() {
        WriteOneLine(from, written0);
        Sizes();
      }
      LayoutGrows(accepted, data[..len], from, emitted, x);
      BufStore(data, len);
    }

    // Never called with an empty ring after something has been written.
    method WriteOneLine(ghost from: nat, ghost written0: Text)
      requires Progress(from, written0) && (wroteSomething ==> emitted < |accepted|)
      modifies this`tail, this`emitted, this`written, this`wroteSomething
      ensures Valid() && wroteSomething
      ensures emitted == if old(emitted) < |accepted| then old(emitted) + 1 else old(emitted)
      ensures written == written0 + Layout(accepted, from, emitted, x)
    {
      Sizes();
      hide View, RingValid;
      if wroteSomething {
        written := written + Before(true, x);
      }
      if !BufEmpty() {
        var line := BufNext();
        ghost var before := Before(emitted - 1 > from, x);
        Assoc(written0, Layout(accepted, from, emitted - 1, x), before, line);
        written := written + line;
      }
      wroteSomething := true;
    }

    // Cuts the data into lines and puts them into the ring. One line is written, if there is any, and more if the
    // ring has no room for the others. The start byte 0xFF is not allowed, for it has no length.
    method Process(data: Text)
      requires Valid() && NoFF(data)
      modifies this, lenbuf, datbuf
      ensures Valid() && accepted == old(accepted) + Lines(data, width)
      ensures emitted == if |accepted| == old(emitted) then old(emitted)
                         else if |accepted| - SLOTS < old(emitted) then old(emitted) + 1 else |accepted| + 1 - SLOTS
      ensures written == old(written) + Layout(accepted, old(emitted), emitted, x)
    {
      wroteSomething := false;
      ghost var from, written0 := emitted, written;
      var rest := data;
      ProcessStarts();
      hide *;
      while |rest| > 0
        invariant width >= 2 && Progress(from, written0) && NoFF(rest) && emitted == LeastEmitted(from, |accepted|)
        invariant accepted + Lines(rest, width) == old(accepted) + Lines(data, width)
        decreases |rest|
      {
        rest := ProcessLine(rest, from, written0);
      }
      LinesEnd(width);
      assert accepted == old(accepted) + Lines(data, width);
      ProcessEnds(from, written0);
    }

    lemma ProcessStarts()
      requires Valid() && !wroteSomething
      ensures width >= 2 && Progress(emitted, written) && emitted == LeastEmitted(emitted, |accepted|)
    {
      Sizes();
    }

    // One turn of the loop: the first line of the rest is put out.
    method ProcessLine(rest: Text, ghost from: nat, ghost written0: Text) returns (left: Text)
      requires width >= 2 && rest != [] && NoFF(rest) && Progress(from, written0)
      requires emitted == LeastEmitted(from, |accepted|)
      modifies this, lenbuf, datbuf
      ensures |left| < |rest| && NoFF(left) && Progress(from, written0) && emitted == LeastEmitted(from, |accepted|)
      ensures accepted + Lines(left, width) == old(accepted) + Lines(rest, width)
    {
      Sizes();
      hide Lines, FirstCut, Layout, Indent, RingValid, View;
      var c := FindCut(rest, width);
      LinesStep(rest, width);
      Output(rest, c.length, from, written0);
      left := rest[c.length + (if c.drops then 1 else 0)..];
      MoveOne(old(accepted), rest[..c.length], Lines(left, width));
    }

    // At the end one line is written if none has been.
    method ProcessEnds(ghost from: nat, ghost written0: Text)
      requires Progress(from, written0) && emitted == LeastEmitted(from, |accepted|)
      modifies this`tail, this`emitted, this`written, this`wroteSomething
      ensures Valid()
      ensures emitted == if |accepted| == from then from
                         else if |accepted| - SLOTS < from then from + 1 else |accepted| + 1 - SLOTS
      ensures written == written0 + Layout(accepted, from, emitted, x)
    {
      Sizes();
      hide Layout, Indent, RingValid, View;
      if !wroteSomething {
        WriteOneLine(from, written0);
      }
    }

    // Writes out what is left, with a newline at the end; nothing if nothing is left.
    method Flush()
      requires Valid()
      modifies this`tail, this`emitted, this`written, this`wroteSomething
      ensures Valid() && emitted == |accepted|
      ensures written == old(written) + if old(emitted) == |accepted| then []
                                        else Indent(x) + (Layout(accepted, old(emitted), |accepted|, x) + [NEWLINE])
    {
      Sizes();
      hide View, RingValid;
      if BufEmpty() { return; }
      written := written + Indent(x);
      wroteSomething := false;
      ghost var from, start := emitted, written;
      while !BufEmpty()
        invariant Progress(from, start)
        decreases |accepted| - emitted
      {
        Sizes();
        WriteOneLine(from, start);
      }
      Sizes();
      Assoc(old(written), Indent(x), Layout(accepted, from, emitted, x), [NEWLINE]);
      written := written + [NEWLINE];
    }
  }

  // How many lines at least have been taken out when n have been put in, starting from some count.
  function LeastEmitted(from: nat, n: nat): nat { if n < from + SLOTS then from else n + 1 - SLOTS }

  lemma MoveOne(was: seq<Text>, line: Text, behind: seq<Text>)
    ensures was + ([line] + behind) == (was + [line]) + behind
  {
  }

  lemma Assoc(a: Text, b: Text, c: Text, d: Text)
    ensures a + b + c + d == a + (b + (c + d))
  {
  }
}
