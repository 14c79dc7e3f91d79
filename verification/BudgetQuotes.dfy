/** When a text that fills the character limit and has too many lines is what the char cut would make
    of it, told by its lines. */
module BudgetQuotes {
  import opened Text
  import opened Budget
  import opened LineEnds

  /** A text's lines with what the two cuts do to them: how many lines the line cut keeps at the front
      and at the back, the marker line it puts between them, the note of the char marker, and how many
      characters the char cut keeps at the front. */
  datatype Cuts = Cuts(lines: seq<string>, head: nat, marker: string, tail: nat, note: string, front: nat)
  {
    predicate Valid() {
      && 0 < head && 0 < tail && head + tail < |lines|
      && '\n' !in marker && '\r' !in marker && '\n' !in note && '\r' !in note
    }

    function LineCut(): string
      requires tail > 0
    {
      CutAround(lines, head, marker, tail)
    }

    /** Where the kept tail begins. */
    function Back(): int {
      |lines| - tail
    }

    /** What the line cut keeps. */
    function Kept(): (kept: seq<string>)
      requires Valid()
      ensures |kept| == head + 1 + tail
    {
      lines[..head] + [marker] + lines[Back()..]
    }

    /** Line `j` of `all` stands within a line of both kept ends. A line between it and the kept head is a
        start of the marker line, one between it and the kept tail an end of it. */
    predicate Beside(all: seq<string>, j: int) {
      && 0 < j < |all| - 1 && head - 1 <= j <= head + 1 && Back() - 2 <= j <= Back()
      && (j == head + 1 ==> all[j - 1] <= marker)
      && (j == Back() - 2 ==> IsSuffix(all[j + 1], marker))
    }

    /** Line `j` is the note, starts where the char cut would put it, and stands beside the kept lines. */
    predicate NoteAt(j: int) {
      && 0 < j < |lines| - 1 && lines[j] == note && |JoinLines(lines[..j])| == front && Beside(lines, j)
    }
  }

  function CutsOf(s: Setting, text: string): Cuts {
    Cuts(SplitLines(text), s.HeadLines(), LineMarker(s, text), s.TailLines(), CharNote(s, text), s.share(Room(s, text)))
  }

  /** The text fills the character limit, has too many lines with plain line ends, and one line near the
      end of the kept head is the note. */
  predicate QuotesCharMarker(s: Setting, text: string) {
    && |text| == s.MaxChars() && |SplitLines(text)| > s.MaxLines() && PlainEnds(text)
    && exists j :: s.HeadLines() - 1 <= j <= s.HeadLines() + 1 && CutsOf(s, text).NoteAt(j)
  }

  /** The text is two ends of its line cut, the first of `front` characters, around the char marker. */
  ghost predicate IsOwnCut(c: Cuts, text: string, x: string, y: string)
    requires c.tail > 0
  {
    && text == x + ("\n" + c.note + "\n") + y && |x| == c.front
    && x <= c.LineCut() && IsSuffix(y, c.LineCut())
  }

  // ---------- such a text is its own cut ----------

  lemma StartFits(front: string, line: string, marker: string, rest: string)
    requires line <= marker
    ensures front + line <= front + marker + rest
  {
    assert marker == line + marker[|line|..];
    assert front + marker + rest == (front + line) + (marker[|line|..] + rest);
  }

  lemma FrontFits(lines: seq<string>, h: nat, j: nat, marker: string, rest: string)
    requires 0 < h < |lines| && 0 < j < |lines| && h - 1 <= j <= h + 1
    requires j == h + 1 ==> lines[h] <= marker
    ensures JoinLines(lines[..j]) <= JoinLines(lines[..h]) + "\n" + marker + rest
  {
    var all := JoinLines(lines[..h]) + "\n" + marker + rest;
    if j == h - 1 {
      assert lines[..h] == lines[..j] + [lines[j]];
      JoinLast(lines[..j], lines[j]);
      assert all == JoinLines(lines[..j]) + ("\n" + lines[j] + "\n" + marker + rest);
    } else if j == h {
      assert all == JoinLines(lines[..h]) + ("\n" + marker + rest);
    } else {
      assert lines[..j] == lines[..h] + [lines[h]];
      JoinLast(lines[..h], lines[h]);
      StartFits(JoinLines(lines[..h]) + "\n", lines[h], marker, rest);
    }
  }

  lemma BackFits(lines: seq<string>, t: nat, j: nat, marker: string, front: string)
    requires 0 < t < |lines| && j < |lines| - 1 && t - 2 <= j <= t
    requires j == t - 2 ==> IsSuffix(lines[t - 1], marker)
    ensures IsSuffix(JoinLines(lines[j + 1..]), front + marker + "\n" + JoinLines(lines[t..]))
  {
    var all := front + marker + "\n" + JoinLines(lines[t..]);
    var y := JoinLines(lines[j + 1..]);
    if j == t {
      assert lines[t..] == [lines[t]] + lines[t + 1..];
      JoinConcat([lines[t]], lines[t + 1..]);
      assert all == (front + marker + "\n" + lines[t] + "\n") + y;
    } else if j == t - 1 {
      assert all == (front + marker + "\n") + y;
    } else {
      var line := lines[t - 1];
      assert lines[j + 1..] == [line] + lines[t..];
      JoinConcat([line], lines[t..]);
      assert marker == marker[..|marker| - |line|] + line;
      assert all == (front + marker[..|marker| - |line|]) + (line + "\n" + JoinLines(lines[t..]));
    }
  }

  lemma Regroup(a: string, b: string, c: string, d: string, e: string)
    ensures a + b + c + d + e == a + (b + c + d) + e
    ensures a + b + c + d + e == (a + b) + c + d + e == a + b + c + (d + e)
  {
  }

  lemma BothFit(lines: seq<string>, h: nat, t: nat, j: nat, marker: string)
    requires 0 < h < |lines| && 0 < t < |lines| && 0 < j < |lines| - 1
    requires h - 1 <= j <= h + 1 && t - 2 <= j <= t
    requires (j == h + 1 ==> lines[h] <= marker) && (j == t - 2 ==> IsSuffix(lines[t - 1], marker))
    ensures var b := JoinLines(lines[..h]) + "\n" + marker + "\n" + JoinLines(lines[t..]);
      JoinLines(lines[..j]) <= b && IsSuffix(JoinLines(lines[j + 1..]), b)
  {
    var front, back := JoinLines(lines[..h]), JoinLines(lines[t..]);
    FrontFits(lines, h, j, marker, "\n" + back);
    BackFits(lines, t, j, marker, front + "\n");
    Regroup(front, "\n", marker, "\n", back);
  }

  lemma CutAroundParts(lines: seq<string>, h: nat, marker: string, t: nat)
    requires 0 < h && 0 < t && h + t < |lines|
    ensures CutAround(lines, h, marker, t) ==
      JoinLines(lines[..h]) + "\n" + marker + "\n" + JoinLines(lines[|lines| - t..])
  {
    JoinThree(lines[..h], [marker], lines[|lines| - t..]);
  }

  lemma CutAroundLines(lines: seq<string>, h: nat, marker: string, t: nat)
    requires 0 < h && 0 < t && h + t < |lines| && '\n' !in marker && forall l :: l in lines ==> '\n' !in l
    ensures var kept := lines[..h] + [marker] + lines[|lines| - t..];
      && RawLines(CutAround(lines, h, marker, t)) == kept
      && |CutAround(lines, h, marker, t)| == Total(kept) + |kept| - 1
  {
    var kept := lines[..h] + [marker] + lines[|lines| - t..];
    assert forall l :: l in kept ==> l in lines || l == marker;
    RawJoin(kept);
    JoinLength(kept);
  }

  lemma TextAround(text: string, j: int, note: string)
    requires PlainEnds(text) && 0 < j < |SplitLines(text)| - 1 && SplitLines(text)[j] == note
    ensures text == JoinLines(SplitLines(text)[..j]) + ("\n" + note + "\n") + JoinLines(SplitLines(text)[j + 1..])
  {
    var lines := SplitLines(text);
    PlainIff(text);
    assert lines == lines[..j] + [note] + lines[j + 1..];
    JoinThree(lines[..j], [note], lines[j + 1..]);
    Regroup(JoinLines(lines[..j]), "\n", note, "\n", JoinLines(lines[j + 1..]));
  }

  lemma NoteMeansOwnCut(c: Cuts, text: string, j: int)
    requires c.Valid() && c.lines == SplitLines(text) && PlainEnds(text) && c.NoteAt(j)
    ensures IsOwnCut(c, text, JoinLines(c.lines[..j]), JoinLines(c.lines[j + 1..]))
  {
    TextAround(text, j, c.note);
    CutAroundParts(c.lines, c.head, c.marker, c.tail);
    BothFit(c.lines, c.head, |c.lines| - c.tail, j, c.marker);
  }

  // ---------- and only such a text is ----------

  lemma TotalCut(lines: seq<string>, k: nat)
    requires k <= |lines|
    ensures Total(lines) == Total(lines[..k]) + Total(lines[k..])
  {
    assert lines == lines[..k] + lines[k..];
    TotalConcat(lines[..k], lines[k..]);
  }

  lemma {:induction false} TotalHas(lines: seq<string>, i: nat)
    requires i < |lines|
    ensures |lines[i]| <= Total(lines)
  {
    if i < |lines| - 1 {
      TotalHas(lines[..|lines| - 1], i);
    }
  }

  lemma TotalMiddle(lines: seq<string>, h: nat, t: nat, i: nat)
    requires h <= i < t <= |lines|
    ensures Total(lines) >= Total(lines[..h]) + |lines[i]| + Total(lines[t..])
  {
    TotalCut(lines, h);
    TotalCut(lines[h..], t - h);
    assert lines[h..][t - h..] == lines[t..] && lines[h..][..t - h][i - h] == lines[i];
    TotalHas(lines[h..][..t - h], i - h);
  }

  lemma TotalAround(a: seq<string>, line: string, b: seq<string>)
    ensures Total(a + [line] + b) == Total(a) + |line| + Total(b)
  {
    TotalConcat(a, [line]);
    TotalConcat(a + [line], b);
    assert Total([line]) == Total([]) + |line|;
  }

  lemma MiddleIsLong(lines: seq<string>, h: nat, t: nat, i: nat)
    requires h <= i < t <= |lines|
    ensures Total(lines) >= Total(lines[..h] + [lines[i]] + lines[t..])
  {
    TotalMiddle(lines, h, t, i);
    TotalAround(lines[..h], lines[i], lines[t..]);
  }

  lemma TrimmedIsShorter(lines: seq<string>, raw: seq<string>)
    requires Trimmed(lines, raw)
    ensures Total(lines) <= Total(raw)
  {
    TotalAtMost(lines, raw);
  }

  /** A text that has the whole marker line in its middle is no shorter than its line cut. */
  lemma MarkerLineIsLong(c: Cuts, raw: seq<string>, i: nat)
    requires c.Valid() && Trimmed(c.lines, raw) && c.head <= i < c.Back() && raw[i] == c.marker
    ensures Total(raw) >= Total(c.Kept())
  {
    assert c.lines[i] == c.marker by {
      NoneLost(c.lines[i], raw[i]);
    }
    MiddleIsLong(c.lines, c.head, c.Back(), i);
    TrimmedIsShorter(c.lines, raw);
  }

  /** The raw lines of a text are the first lines of what the line cut keeps, a note, and the last
      lines of what it keeps. */
  ghost predicate AroundNote(c: Cuts, raw: seq<string>, a: seq<string>, b: seq<string>) {
    && c.Valid() && Trimmed(c.lines, raw) && raw == a + [c.note] + b
    && FirstLines(a, c.Kept()) && LastLines(b, c.Kept())
  }

  /** The lines before the note. */
  lemma FrontLine(c: Cuts, raw: seq<string>, a: seq<string>, b: seq<string>, i: nat)
    requires AroundNote(c, raw, a, b) && i < |a| && i <= c.head
    ensures var line := if i == c.head then c.marker else c.lines[i];
      if i < |a| - 1 then raw[i] == line else raw[i] <= line
  {
    var kept := c.Kept();
    assert raw[i] == a[i] && kept[i] == if i == c.head then c.marker else c.lines[i];
    if i < |a| - 1 {
      assert a[..|a| - 1][i] == kept[..|a| - 1][i];
    }
  }

  lemma KeptAt(c: Cuts, i: nat)
    requires c.Valid() && c.Back() - 1 <= i < |c.lines|
    ensures c.Kept()[c.head + 1 + i - c.Back()] == if i == c.Back() - 1 then c.marker else c.lines[i]
  {
  }

  lemma LastLinesAt(b: seq<string>, kept: seq<string>, k: nat)
    requires LastLines(b, kept) && k < |b|
    ensures var line := kept[|kept| - |b| + k]; if k > 0 then b[k] == line else IsSuffix(b[k], line)
  {
    if k > 0 {
      assert b[1..][k - 1] == kept[|kept| - |b| + 1..][k - 1];
    }
  }

  /** The lines after it. */
  lemma BackLine(c: Cuts, raw: seq<string>, a: seq<string>, b: seq<string>, i: nat)
    requires AroundNote(c, raw, a, b) && |a| < i < |raw| && i >= c.Back() - 1
    ensures var line := if i == c.Back() - 1 then c.marker else c.lines[i];
      if i > |a| + 1 then raw[i] == line else IsSuffix(raw[i], line)
  {
    KeptAt(c, i);
    LastLinesAt(b, c.Kept(), i - |a| - 1);
    assert raw[i] == b[i - |a| - 1];
  }

  lemma MarkerIfFar(c: Cuts, raw: seq<string>, a: seq<string>, b: seq<string>)
    requires AroundNote(c, raw, a, b)
    ensures |a| >= c.head + 2 ==> raw[c.head] == c.marker
    ensures |a| + 3 <= c.Back() ==> raw[c.Back() - 1] == c.marker
  {
    if |a| >= c.head + 2 {
      FrontLine(c, raw, a, b, c.head);
    }
    if |a| + 3 <= c.Back() {
      BackLine(c, raw, a, b, c.Back() - 1);
    }
  }

  lemma NoteShape(c: Cuts, raw: seq<string>, a: seq<string>, b: seq<string>)
    requires AroundNote(c, raw, a, b) && forall i :: c.head <= i < c.Back() ==> raw[i] != c.marker
    ensures c.Beside(raw, |a|)
  {
    MarkerIfFar(c, raw, a, b);
    if |a| == c.head + 1 {
      FrontLine(c, raw, a, b, c.head);
    }
    if |a| == c.Back() - 2 {
      BackLine(c, raw, a, b, c.Back() - 1);
    }
  }

  /** A line that is part of what is kept of it lost no carriage return. */
  lemma NoneLost(line: string, raw: string)
    requires line == raw || line == DropCarriageReturn(raw)
    requires raw <= line || IsSuffix(raw, line) || '\r' !in raw
    ensures line == raw
  {
    if raw != "" && raw[|raw| - 1] == '\r' {
      assert raw[|raw| - 1] in raw;
    }
  }

  lemma PartHasNoReturn(part: string, marker: string)
    requires (part <= marker || IsSuffix(part, marker)) && '\r' !in marker
    ensures '\r' !in part
  {
  }

  lemma NotePlain(c: Cuts, raw: seq<string>, a: seq<string>, b: seq<string>, i: nat)
    requires AroundNote(c, raw, a, b) && i < |raw| && c.Beside(raw, |a|)
    ensures c.lines[i] == raw[i]
  {
    if i < |a| {
      FrontLine(c, raw, a, b, i);
    } else if i > |a| {
      BackLine(c, raw, a, b, i);
    }
    if (i == c.head && i < |a|) || (i == c.Back() - 1 && i > |a|) {
      PartHasNoReturn(raw[i], c.marker);
    }
    NoneLost(c.lines[i], raw[i]);
  }

  lemma LengthOf(text: string)
    ensures |text| == Total(RawLines(text)) + |RawLines(text)| - 1
  {
    JoinRaw(text);
    JoinLength(RawLines(text));
  }

  /** The lines of two ends of `b` put together around a note. */
  lemma PartsLines(text: string, b: string, x: string, note: string, y: string)
    requires x <= b && IsSuffix(y, b) && '\n' !in note && text == x + ("\n" + note + "\n") + y
    ensures RawLines(text) == RawLines(x) + [note] + RawLines(y)
    ensures FirstLines(RawLines(x), RawLines(b)) && LastLines(RawLines(y), RawLines(b))
  {
    EndsLines(b, x, y);
    Regroup(x, "\n", note, "\n", y);
    RawAround(x, note, y);
  }

  lemma EndsLines(b: string, x: string, y: string)
    requires x <= b && IsSuffix(y, b)
    ensures FirstLines(RawLines(x), RawLines(b)) && LastLines(RawLines(y), RawLines(b))
  {
    var k := |x|;
    assert x == b[..k];
    RawPrefix(b, k);
    RawSuffix(b, |b| - |y|);
  }

  /** A text shorter than its line cut, made of two ends of it around the note. */
  lemma LinesOfOwnCut(c: Cuts, raw: seq<string>, a: seq<string>, b: seq<string>)
    requires AroundNote(c, raw, a, b) && Total(raw) + |raw| < Total(c.Kept()) + |c.Kept()|
    ensures c.lines == raw && c.Beside(raw, |a|)
  {
    forall i | c.head <= i < c.Back() ensures raw[i] != c.marker {
      if raw[i] == c.marker {
        MarkerLineIsLong(c, raw, i);
      }
    }
    NoteShape(c, raw, a, b);
    forall i | 0 <= i < |raw| ensures c.lines[i] == raw[i] {
      NotePlain(c, raw, a, b, i);
    }
  }

  /** The raw lines of a text that is two ends of `cut` around the note. */
  lemma OwnCutLines(lines: seq<string>, text: string, cut: string, kept: seq<string>, x: string, note: string, y: string)
    returns (raw: seq<string>, a: seq<string>, b: seq<string>)
    requires lines == SplitLines(text) && '\n' !in note && text == x + ("\n" + note + "\n") + y
    requires RawLines(cut) == kept && x <= cut && IsSuffix(y, cut)
    ensures raw == RawLines(text) && a == RawLines(x) && b == RawLines(y)
    ensures Trimmed(lines, raw) && raw == a + [note] + b && FirstLines(a, kept) && LastLines(b, kept)
    ensures |text| == Total(raw) + |raw| - 1
  {
    raw, a, b := RawLines(text), RawLines(x), RawLines(y);
    PartsLines(text, cut, x, note, y);
    SplitIsTrimmed(text);
    LengthOf(text);
  }

  lemma NoteFromLines(c: Cuts, raw: seq<string>, a: seq<string>, b: seq<string>)
    requires AroundNote(c, raw, a, b) && Total(raw) + |raw| < Total(c.Kept()) + |c.Kept()|
    requires |JoinLines(a)| == c.front
    ensures c.lines == raw && c.NoteAt(|a|)
  {
    LinesOfOwnCut(c, raw, a, b);
    FirstOf(raw, a, c.note, b);
  }

  lemma OwnCutMeansNote(c: Cuts, text: string, x: string, y: string)
    requires c.Valid() && c.lines == SplitLines(text) && IsOwnCut(c, text, x, y) && |text| < |c.LineCut()|
    ensures PlainEnds(text) && exists j :: c.NoteAt(j)
  {
    var cut, kept := KeptOf(c, text);
    var raw, a, b := OwnCutLines(c.lines, text, cut, kept, x, c.note, y);
    JoinRaw(x);
    NoteFromLines(c, raw, a, b);
    PlainIffRaw(text);
  }

  lemma KeptOf(c: Cuts, text: string) returns (cut: string, kept: seq<string>)
    requires c.Valid() && c.lines == SplitLines(text)
    ensures cut == c.LineCut() && kept == c.Kept() && RawLines(cut) == kept && |cut| == Total(kept) + |kept| - 1
  {
    cut, kept := c.LineCut(), c.Kept();
    SplitCounts(text);
    CutAroundLines(c.lines, c.head, c.marker, c.tail);
  }

  lemma FirstOf(raw: seq<string>, a: seq<string>, note: string, b: seq<string>)
    requires raw == a + [note] + b && a != [] && b != []
    ensures raw[..|a|] == a && raw[|a|] == note && 0 < |a| < |raw| - 1
  {
  }

  // ---------- the cuts of a setting ----------

  lemma SizesHaveNoReturn(text: string)
    ensures '\r' !in Sizes(text)
  {
    var lines, chars := Decimal(|SplitLines(text)|), Decimal(|text|);
    var a, b := "...[UES tool output truncated: " + lines, " lines / " + chars + " chars, sha256=";
    assert '\r' !in a;
    assert '\r' !in b;
    assert Sizes(text) == a + b;
  }

  lemma NoteHasNoReturn(s: Setting, text: string)
    requires s.Valid()
    ensures '\r' !in CharNote(s, text)
  {
  }

  lemma MarkersHaveNoReturn(s: Setting, text: string)
    requires s.Valid()
    ensures '\r' !in LineMarker(s, text) && '\r' !in CharNote(s, text)
  {
    SizesHaveNoReturn(text);
    NoteHasNoReturn(s, text);
    var d := s.ShortDigest(text);
    assert '\r' !in d && LineMarker(s, text) == Sizes(text) + d + "]...";
  }

  lemma CutsOfAreValid(s: Setting, text: string) returns (c: Cuts)
    requires s.Valid() && |SplitLines(text)| > s.MaxLines()
    ensures c == CutsOf(s, text) && c.Valid() && c.lines == SplitLines(text) && c.head == s.HeadLines()
    ensures c.LineCut() == LineCut(s, text) && "\n" + c.note + "\n" == CharMarker(s, text)
    ensures c.front == s.share(Room(s, text))
  {
    c := CutsOf(s, text);
    LineMarkerIsOneLine(s, text);
    CharNoteIsOneLine(s, text);
    MarkersHaveNoReturn(s, text);
  }
}
