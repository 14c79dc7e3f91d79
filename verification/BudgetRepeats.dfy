/** When the output of the budget repeats part of the text. Every character of the output that is no
    marker is traced to the position it came from; the output repeats when a position comes twice. */
module BudgetRepeats {
  import opened Text
  import opened Budget
  import opened LineEnds
  import opened BudgetUnchanged

  function Plain(text: string): string {
    JoinLines(SplitLines(text))
  }

  function HeadText(s: Setting, text: string): string {
    JoinLines(First(SplitLines(text), s.HeadLines()))
  }

  function TailText(s: Setting, text: string): string {
    JoinLines(Last(SplitLines(text), s.TailLines()))
  }

  // ---------- positions ----------

  /** The lengths that decide where things end up: the text (`whole`), the head and tail of the line
      cut with the `gap` of the marker line between them, and how much of that the output keeps at
      its front and at its back, around a `filler`. */
  datatype Layout = Layout(whole: nat, head: nat, gap: nat, tail: nat, front: nat, filler: nat, back: nat)
  {
    predicate Valid() {
      && head <= whole && tail <= whole
      && (front + back < head + gap + tail || (front == head + gap + tail && back == 0 && filler == 0))
    }

    function Size(): nat {
      front + filler + back
    }

    /** Where position `k` of the line cut came from. */
    function CutOrigin(k: int): Option<int> {
      if k < head then Some(k)
      else if k >= head + gap then Some(whole - tail + (k - head - gap))
      else None
    }

    /** Where position `k` of the output came from. */
    function Origin(k: int): Option<int> {
      if k < front then CutOrigin(k)
      else if k >= front + filler then CutOrigin(head + gap + tail - Size() + k)
      else None
    }

    ghost predicate Repeats() {
      exists i, j :: 0 <= i < j < Size() && Origin(i) == Origin(j) && Origin(i).Some?
    }

    /** The kept lines overlap, and the front reaches past the marker line, or the back does, or the
        two together exceed the text. */
    predicate RepeatCondition() {
      && head + tail > whole
      && (front > head + gap || back > tail + gap
          || (if front < head then front else head) + (if back < tail then back else tail) > whole)
    }
  }

  lemma RepeatsWhenFrontReaches(l: Layout)
    requires l.Valid() && l.head + l.tail > l.whole && l.front > l.head + l.gap
    ensures l.Repeats()
  {
    var i, j := l.whole - l.tail, l.head + l.gap;
    assert l.Origin(i) == Some(i) && l.Origin(j) == Some(i);
  }

  lemma RepeatsWhenBackReaches(l: Layout)
    requires l.Valid() && l.head + l.tail > l.whole && l.back > l.tail + l.gap
    ensures l.Repeats()
  {
    // the last kept position of the head, and the same position in the tail
    var i, j := l.Size() - l.tail - l.gap - 1, l.Size() - 1 - (l.whole - l.head);
    assert l.Origin(i) == Some(l.head - 1) && l.Origin(j) == Some(l.head - 1);
  }

  lemma RepeatsWhenBothReach(l: Layout)
    requires l.Valid() && l.front <= l.head + l.gap && l.back <= l.tail + l.gap
    requires (if l.front < l.head then l.front else l.head) + (if l.back < l.tail then l.back else l.tail) > l.whole
    ensures l.Repeats()
  {
    var q := l.whole - if l.back < l.tail then l.back else l.tail;
    var i, j := q, l.Size() - (l.whole - q);
    assert l.Origin(i) == Some(q) && l.Origin(j) == Some(q);
  }

  lemma NoRepeat(l: Layout, i: int, j: int)
    requires l.Valid() && !l.RepeatCondition() && 0 <= i < j < l.Size()
    ensures l.Origin(i) == None || l.Origin(i) != l.Origin(j)
  {
  }

  lemma LayoutRepeatsIff(l: Layout)
    requires l.Valid()
    ensures l.Repeats() <==> l.RepeatCondition()
  {
    if l.RepeatCondition() {
      if l.front > l.head + l.gap {
        RepeatsWhenFrontReaches(l);
      } else if l.back > l.tail + l.gap {
        RepeatsWhenBackReaches(l);
      } else {
        RepeatsWhenBothReach(l);
      }
    } else if l.Repeats() {
      var i, j :| 0 <= i < j < l.Size() && l.Origin(i) == l.Origin(j) && l.Origin(i).Some?;
      NoRepeat(l, i, j);
    }
  }

  // ---------- the layout of an output ----------

  function LayoutOf(s: Setting, text: string): Layout {
    var size := |LineCut(s, text)|;
    var room := Room(s, text);
    var head := s.share(room);
    var cut := size > s.MaxChars();
    Layout(|Plain(text)|, |HeadText(s, text)|, |LineMarker(s, text)| + 2, |TailText(s, text)|,
           if cut then head else size,
           if cut then |CharMarker(s, text)| else 0,
           if cut && head < room then room - head else 0)
  }

  lemma LineCutShape(s: Setting, text: string)
    ensures LineCut(s, text) == HeadText(s, text) + "\n" + LineMarker(s, text) + "\n" + TailText(s, text)
  {
    var lines := SplitLines(text);
    JoinThree(First(lines, s.HeadLines()), [LineMarker(s, text)], Last(lines, s.TailLines()));
  }

  /** The first lines are a prefix of the text, the last lines a suffix. */
  lemma KeptArePrefixAndSuffix(lines: seq<string>, n: nat)
    requires lines != [] && n > 0
    ensures |JoinLines(First(lines, n))| <= |JoinLines(lines)| && |JoinLines(Last(lines, n))| <= |JoinLines(lines)|
    ensures JoinLines(lines)[..|JoinLines(First(lines, n))|] == JoinLines(First(lines, n))
    ensures JoinLines(lines)[|JoinLines(lines)| - |JoinLines(Last(lines, n))|..] == JoinLines(Last(lines, n))
  {
    if n < |lines| {
      assert lines == lines[..n] + lines[n..];
      JoinedEnds(lines[..n], lines[n..]);
      assert lines == lines[..|lines| - n] + lines[|lines| - n..];
      JoinedEnds(lines[..|lines| - n], lines[|lines| - n..]);
    } else {
      assert First(lines, n) == lines && Last(lines, n) == lines;
    }
  }

  lemma JoinedEnds(a: seq<string>, b: seq<string>)
    requires a != [] && b != []
    ensures var j := JoinLines(a + b);
      && |JoinLines(a)| <= |j| && j[..|JoinLines(a)|] == JoinLines(a)
      && |JoinLines(b)| <= |j| && j[|j| - |JoinLines(b)|..] == JoinLines(b)
  {
    JoinConcat(a, b);
    var x, y := JoinLines(a), JoinLines(b);
    assert (x + "\n" + y)[..|x|] == x && (x + "\n" + y)[|x| + 1..] == y;
  }

  lemma LayoutIsValid(s: Setting, text: string)
    requires s.Valid()
    ensures LayoutOf(s, text).Valid()
    ensures !WithinLimits(s, text) ==> LayoutOf(s, text).Size() == |Bounded(s, text)|
  {
    LineCutShape(s, text);
    KeptArePrefixAndSuffix(SplitLines(text), s.HeadLines());
    KeptArePrefixAndSuffix(SplitLines(text), s.TailLines());
    if |LineCut(s, text)| > s.MaxChars() {
      var head, tail := CharCutPieces(s, text, LineCut(s, text));
    }
  }

  lemma CutOriginIsFaithful(plain: string, h: string, m: string, t: string, l: Layout, k: nat)
    requires l.whole == |plain| && l.head == |h| <= |plain| && l.gap == |m| + 2 && l.tail == |t| <= |plain|
    requires plain[..|h|] == h && plain[|plain| - |t|..] == t && k < |h + "\n" + m + "\n" + t|
    ensures l.CutOrigin(k).Some? ==>
      0 <= l.CutOrigin(k).value < |plain| && (h + "\n" + m + "\n" + t)[k] == plain[l.CutOrigin(k).value]
  {
    var cut := h + "\n" + m + "\n" + t;
    if k < |h| {
      assert cut[k] == h[k];
    } else if k >= |h| + |m| + 2 {
      assert cut[k] == t[k - |h| - |m| - 2];
    }
  }

  /** Position `k` of what is kept of `b` around the marker, in `b`. */
  lemma KeptPosition(b: string, head: nat, marker: string, tail: nat, k: nat)
    requires head + tail <= |b| && k < head + |marker| + tail && (k < head || k >= head + |marker|)
    ensures var at := if k < head then k else |b| - (head + |marker| + tail) + k;
      0 <= at < |b| && (b[..head] + marker + b[|b| - tail..])[k] == b[at]
  {
    var out := b[..head] + marker + b[|b| - tail..];
    if k < head {
      assert out[k] == b[..head][k];
    } else {
      assert out[k] == b[|b| - tail..][k - head - |marker|];
    }
  }

  /** Where position `k` of the output sits in the line cut. */
  function CutPosition(l: Layout, k: nat): int {
    if k < l.front then k else l.head + l.gap + l.tail - l.Size() + k
  }

  lemma OutputPosition(s: Setting, text: string, k: nat) returns (at: nat)
    requires s.Valid() && !WithinLimits(s, text) && k < |Bounded(s, text)|
    requires var l := LayoutOf(s, text); k < l.front || k >= l.front + l.filler
    ensures at == CutPosition(LayoutOf(s, text), k)
    ensures at < |LineCut(s, text)| && Bounded(s, text)[k] == LineCut(s, text)[at]
  {
    var l, b := LayoutOf(s, text), LineCut(s, text);
    LayoutIsValid(s, text);
    LineCutShape(s, text);
    if |b| > s.MaxChars() {
      var head, tail := CharCutPieces(s, text, b);
      KeptPosition(b, head, CharMarker(s, text), tail, k);
    }
    at := CutPosition(l, k);
  }

  /** Position `at` of the line cut, if it has no origin, belongs to the marker line. */
  lemma CutOriginIsMarker(h: string, m: string, t: string, l: Layout, at: nat)
    requires l.head == |h| && l.gap == |m| + 2 && l.tail == |t| && at < |h + "\n" + m + "\n" + t|
    requires l.CutOrigin(at) == None
    ensures 0 <= at - |h| < |m| + 2 && (h + "\n" + m + "\n" + t)[at] == ("\n" + m + "\n")[at - |h|]
  {
    assert h + "\n" + m + "\n" + t == h + ("\n" + m + "\n") + t;
  }

  /** Character `k` of the output is part of one of the two markers. */
  ghost predicate InMarker(s: Setting, text: string, k: nat) {
    k < |Bounded(s, text)|
    && ((var l := LayoutOf(s, text);
         && l.front <= k < l.front + l.filler && k - l.front < |CharMarker(s, text)|
         && Bounded(s, text)[k] == CharMarker(s, text)[k - l.front])
        || exists i :: 0 <= i < |LineMarker(s, text)| + 2
             && Bounded(s, text)[k] == ("\n" + LineMarker(s, text) + "\n")[i])
  }

  lemma FillerIsMarker(s: Setting, text: string, k: nat)
    requires s.Valid() && !WithinLimits(s, text) && k < |Bounded(s, text)|
    requires var l := LayoutOf(s, text); l.front <= k < l.front + l.filler
    ensures InMarker(s, text, k)
  {
    var l, b, marker := LayoutOf(s, text), LineCut(s, text), CharMarker(s, text);
    if |b| > s.MaxChars() {
      var head, tail := CharCutPieces(s, text, b);
      PiecesOf(b[..head], marker, b[|b| - tail..]);
      assert (b[..head] + marker + b[|b| - tail..])[k] == marker[k - head];
    }
  }

  /** The origins are right and complete: a character of the output that has one is the text's
      character there, and one that has none is part of a marker. */
  lemma OriginIsFaithful(s: Setting, text: string, k: nat)
    requires s.Valid() && !WithinLimits(s, text) && k < |Bounded(s, text)|
    ensures var o := LayoutOf(s, text).Origin(k);
      if o.Some? then 0 <= o.value < |Plain(text)| && Bounded(s, text)[k] == Plain(text)[o.value]
      else InMarker(s, text, k)
  {
    var l := LayoutOf(s, text);
    if k < l.front || k >= l.front + l.filler {
      var at := OutputPosition(s, text, k);
      LineCutShape(s, text);
      KeptArePrefixAndSuffix(SplitLines(text), s.HeadLines());
      KeptArePrefixAndSuffix(SplitLines(text), s.TailLines());
      TracedBack(s, text, k, at);
    } else {
      FillerIsMarker(s, text, k);
    }
  }

  lemma TracedBack(s: Setting, text: string, k: nat, at: nat)
    requires s.Valid() && k < |Bounded(s, text)| && at < |LineCut(s, text)|
    requires Bounded(s, text)[k] == LineCut(s, text)[at]
    requires LayoutOf(s, text).Origin(k) == LayoutOf(s, text).CutOrigin(at)
    requires LineCut(s, text) == HeadText(s, text) + "\n" + LineMarker(s, text) + "\n" + TailText(s, text)
    requires |HeadText(s, text)| <= |Plain(text)| && Plain(text)[..|HeadText(s, text)|] == HeadText(s, text)
    requires |TailText(s, text)| <= |Plain(text)| && Plain(text)[|Plain(text)| - |TailText(s, text)|..] == TailText(s, text)
    ensures var o := LayoutOf(s, text).Origin(k);
      if o.Some? then 0 <= o.value < |Plain(text)| && Bounded(s, text)[k] == Plain(text)[o.value]
      else InMarker(s, text, k)
  {
    var l := LayoutOf(s, text);
    CutOriginIsFaithful(Plain(text), HeadText(s, text), LineMarker(s, text), TailText(s, text), l, at);
    if l.CutOrigin(at) == None {
      CutOriginIsMarker(HeadText(s, text), LineMarker(s, text), TailText(s, text), l, at);
    }
  }

  /** With enough lines the kept ones do not overlap. */
  lemma ManyLinesAreApart(s: Setting, text: string)
    requires s.Valid() && |SplitLines(text)| >= s.MaxLines()
    ensures |HeadText(s, text)| + |TailText(s, text)| <= |Plain(text)|
  {
    var lines := SplitLines(text);
    var head, tail := lines[..s.HeadLines()], lines[|lines| - s.TailLines()..];
    var mid := lines[s.HeadLines()..|lines| - s.TailLines()];
    if mid == [] {
      assert lines == head + tail;
      JoinConcat(head, tail);
    } else {
      assert lines == head + mid + tail;
      JoinThree(head, mid, tail);
    }
  }

  /** Exactly when the output of the budget repeats part of the text. Text with at least `MaxLines`
      lines it never repeats; other text with plain line ends exactly when the kept lines overlap and
      the kept front or back reaches across the marker line. */
  lemma RepeatsIff(s: Setting, text: string)
    requires s.Valid() && !WithinLimits(s, text)
    ensures LayoutOf(s, text).Repeats() <==> LayoutOf(s, text).RepeatCondition()
    ensures |SplitLines(text)| >= s.MaxLines() ==> !LayoutOf(s, text).Repeats()
    ensures PlainEnds(text) ==>
      var l := LayoutOf(s, text);
      (l.Repeats() <==> l.head + l.tail > l.whole && (l.front > l.head + l.gap || l.back > l.tail + l.gap))
  {
    LayoutIsValid(s, text);
    LayoutRepeatsIff(LayoutOf(s, text));
    if |SplitLines(text)| >= s.MaxLines() {
      ManyLinesAreApart(s, text);
    } else if PlainEnds(text) {
      PlainIff(text);
      OverBudget(s, text);
    }
  }

  // ---------- one long line, then short ones ----------

  function LongLine(): string {
    Copies(2000, 'a')
  }

  function LongLines(): seq<string> {
    [LongLine()] + Copies(20, "b")
  }

  lemma LongLinesShape()
    ensures |LongLines()| == 21 && forall l :: l in LongLines() ==> '\n' !in l && '\r' !in l
    ensures |JoinLines(LongLines())| == 2040 && |JoinLines(Last(LongLines(), 12))| == 23
  {
    CopiesMeaning(2000, 'a');
    CopiesMeaning(20, "b");
    CopiesMeaning(12, "b");
    TotalCopies(20, "b");
    TotalCopies(12, "b");
    TotalConcat([LongLine()], Copies(20, "b"));
    assert Total([LongLine()]) == Total([]) + 2000;
    JoinLength(LongLines());
    assert Last(LongLines(), 12) == Copies(12, "b");
    JoinLength(Copies(12, "b"));
  }

  lemma MarkerLengths(text: string)
    requires |text| == 2040 && |SplitLines(text)| == 21
    ensures |LineMarker(SMALL, text)| <= 100 && |CharMarker(SMALL, text)| <= 100
  {
    SmallIsValid();
    CharMarkerShape(SMALL, text);
    assert |Decimal(21)| == 2 by {
      assert |Decimal(2)| == 1;
    }
    assert |Decimal(2040)| == 4 by {
      assert |Decimal(2)| == 1;
      assert |Decimal(20)| == 2;
      assert |Decimal(204)| == 3;
    }
  }

  /** One line of 2000 characters and twenty of one, under limits of 2000 characters and forty lines:
      the kept back runs past the marker line into the head, and the output repeats. */
  lemma LongLineRepeats()
    ensures SMALL.Valid()
    ensures var text := JoinLines(LongLines()); !WithinLimits(SMALL, text) && LayoutOf(SMALL, text).Repeats()
  {
    var text := JoinLines(LongLines());
    SmallIsValid();
    LongLinesShape();
    SplitJoin(LongLines());
    MarkerLengths(text);
    LineCutShape(SMALL, text);
    assert First(LongLines(), 28) == LongLines();
    RepeatsIff(SMALL, text);
    assert Room(SMALL, text) >= 1900;
    assert SMALL.share(Room(SMALL, text)) == Room(SMALL, text) * 7 / 10;
  }
}
