/** Exactly when the output budget leaves a text as it is. */
module BudgetUnchanged {
  import opened Text
  import opened Budget
  import opened LineEnds
  import opened BudgetQuotes

  /** The text is one line too long, its line ends are plain, and the one line the line cut would
      drop is the very marker the cut would put there. */
  predicate QuotesLineMarker(s: Setting, text: string) {
    var lines := SplitLines(text);
    && |lines| == s.MaxLines() + 1 && PlainEnds(text)
    && s.HeadLines() < |lines| && lines[s.HeadLines()] == LineMarker(s, text)
  }

  /** The text already is what the budget would make of it. */
  predicate QuotesItsCut(s: Setting, text: string) {
    if |LineCut(s, text)| <= s.MaxChars() then QuotesLineMarker(s, text) else QuotesCharMarker(s, text)
  }

  lemma MarkerHasNoReturn(s: Setting, text: string)
    ensures LineMarker(s, text) != "" && LineMarker(s, text)[|LineMarker(s, text)| - 1] == '.'
    ensures DropCarriageReturn(LineMarker(s, text)) == LineMarker(s, text)
  {
    assert LineMarker(s, text) == (Sizes(text) + s.ShortDigest(text)) + "]...";
  }

  lemma LinesOfCut(s: Setting, text: string) returns (kept: seq<string>)
    requires s.Valid() && |SplitLines(text)| > s.MaxLines()
    ensures LineCut(s, text) == JoinLines(kept) && |kept| == s.MaxLines() + 1
    ensures kept[s.HeadLines()] == LineMarker(s, text)
    ensures forall i :: 0 <= i < s.HeadLines() ==> kept[i] == SplitLines(text)[i]
    ensures forall i :: s.HeadLines() < i < |kept| ==> kept[i] == SplitLines(text)[|SplitLines(text)| - |kept| + i]
    ensures forall l :: l in kept ==> '\n' !in l
  {
    var lines := SplitLines(text);
    SplitCounts(text);
    LineMarkerIsOneLine(s, text);
    kept := First(lines, s.HeadLines()) + [LineMarker(s, text)] + Last(lines, s.TailLines());
  }

  /** Lines that agree with the kept ones except perhaps at `h`, where they agree but for a carriage
      return the kept line does not have, are the kept ones. */
  lemma SameLines(lines: seq<string>, kept: seq<string>, h: nat)
    requires Trimmed(lines, kept) && h < |kept| && DropCarriageReturn(kept[h]) == kept[h]
    requires forall i :: 0 <= i < |kept| && i != h ==> kept[i] == lines[i]
    ensures lines == kept
  {
    assert lines[h] == kept[h];
  }

  lemma SameRawLines(s: Setting, text: string)
    requires s.Valid() && |SplitLines(text)| > s.MaxLines() && LineCut(s, text) == text
    ensures QuotesLineMarker(s, text)
  {
    var kept := LinesOfCut(s, text);
    RawJoin(kept);
    SplitIsTrimmed(text);
    MarkerHasNoReturn(s, text);
    SameLines(SplitLines(text), kept, s.HeadLines());
    PlainIff(text);
  }

  lemma MarkerStays(s: Setting, text: string)
    requires s.Valid() && QuotesLineMarker(s, text)
    ensures LineCut(s, text) == text
  {
    var kept := LinesOfCut(s, text);
    assert kept == SplitLines(text);
    PlainIff(text);
  }

  lemma FewLinesGrow(s: Setting, text: string)
    requires s.Valid() && !WithinLimits(s, text) && |SplitLines(text)| <= s.MaxLines()
    ensures Bounded(s, text) != text
  {
    OverBudget(s, text);
  }

  /** How the char cut divides the budget between what is kept and the marker. */
  lemma CharCutPieces(s: Setting, text: string, b: string) returns (head: nat, tail: nat)
    requires s.Valid() && |b| > s.MaxChars()
    ensures head == s.share(Room(s, text)) && 0 < tail && head + |CharMarker(s, text)| + tail == s.MaxChars()
    ensures CharCut(s, text, b) == b[..head] + CharMarker(s, text) + b[|b| - tail..]
  {
    CharMarkerShape(s, text);
    head := s.share(Room(s, text));
    tail := Room(s, text) - head;
  }

  lemma OwnIsCut(c: Cuts, text: string, x: string, y: string)
    requires c.tail > 0 && IsOwnCut(c, text, x, y)
    ensures EndsAround(c, |y|) == text
  {
  }

  lemma CutIsOwn(c: Cuts, text: string, tail: nat)
    requires c.tail > 0 && c.front <= |c.LineCut()| && tail <= |c.LineCut()| && EndsAround(c, tail) == text
    ensures IsOwnCut(c, text, c.LineCut()[..c.front], c.LineCut()[|c.LineCut()| - tail..])
  {
  }

  /** The first `front` and last `tail` characters of the line cut around the char marker. */
  function EndsAround(c: Cuts, tail: nat): string
    requires c.tail > 0 && c.front <= |c.LineCut()| && tail <= |c.LineCut()|
  {
    c.LineCut()[..c.front] + ("\n" + c.note + "\n") + c.LineCut()[|c.LineCut()| - tail..]
  }

  lemma NoteIsEnough(c: Cuts, text: string, tail: nat, j: int)
    requires c.Valid() && c.lines == SplitLines(text) && PlainEnds(text) && c.NoteAt(j)
    requires |text| == c.front + |c.note| + 2 + tail < |c.LineCut()|
    ensures EndsAround(c, tail) == text
  {
    NoteMeansOwnCut(c, text, j);
    OwnIsCut(c, text, JoinLines(c.lines[..j]), JoinLines(c.lines[j + 1..]));
  }

  /** The char cut of a text too short for its line cut leaves it as it is exactly when a line of it,
      near the end of the kept head, is the note. */
  lemma CutsUnchangedIff(c: Cuts, text: string, tail: nat)
    requires c.Valid() && c.lines == SplitLines(text)
    requires |text| == c.front + |c.note| + 2 + tail < |c.LineCut()|
    ensures EndsAround(c, tail) == text <==> PlainEnds(text) && exists j :: c.NoteAt(j)
  {
    if EndsAround(c, tail) == text {
      CutIsOwn(c, text, tail);
      OwnCutMeansNote(c, text, c.LineCut()[..c.front], c.LineCut()[|c.LineCut()| - tail..]);
    }
    if PlainEnds(text) && exists j :: c.NoteAt(j) {
      var j :| c.NoteAt(j);
      NoteIsEnough(c, text, tail, j);
    }
  }

  lemma CharCutIs(s: Setting, text: string) returns (c: Cuts, tail: nat)
    requires s.Valid() && |LineCut(s, text)| > s.MaxChars() && |SplitLines(text)| > s.MaxLines()
    ensures c == CutsOf(s, text) && c.Valid() && c.lines == SplitLines(text) && c.head == s.HeadLines()
    ensures c.front + |c.note| + 2 + tail == s.MaxChars() < |c.LineCut()|
    ensures CharCut(s, text, LineCut(s, text)) == EndsAround(c, tail)
    ensures |CharCut(s, text, LineCut(s, text))| == s.MaxChars()
  {
    c := CutsOfAreValid(s, text);
    var head;
    head, tail := CharCutPieces(s, text, LineCut(s, text));
  }

  lemma CharCutUnchangedIff(s: Setting, text: string)
    requires s.Valid() && |LineCut(s, text)| > s.MaxChars() && |SplitLines(text)| > s.MaxLines()
    ensures CharCut(s, text, LineCut(s, text)) == text <==> QuotesCharMarker(s, text)
  {
    var c, tail := CharCutIs(s, text);
    if |text| == s.MaxChars() {
      CutsUnchangedIff(c, text, tail);
    }
  }

  lemma PiecesOf(a: string, b: string, c: string)
    ensures (a + b + c)[..|a|] == a && (a + b + c)[|a|..|a| + |b|] == b && (a + b + c)[|a| + |b|..] == c
  {
  }

  /** For every text: it is left as it is exactly when it is within both limits or quotes its own cut. */
  lemma UnchangedIff(s: Setting, text: string)
    requires s.Valid()
    ensures Bounded(s, text) == text <==> WithinLimits(s, text) || QuotesItsCut(s, text)
  {
    if !WithinLimits(s, text) {
      if |SplitLines(text)| <= s.MaxLines() {
        FewLinesGrow(s, text);
      } else if |LineCut(s, text)| > s.MaxChars() {
        CharCutUnchangedIff(s, text);
      } else {
        if LineCut(s, text) == text {
          SameRawLines(s, text);
        }
        if QuotesLineMarker(s, text) {
          MarkerStays(s, text);
        }
      }
    }
  }

  /** In particular text over the character limit, or more than three lines over the line limit, always
      changes, and so does any text over a limit that does not quote its own digest. */
  lemma OverLimitChanges(s: Setting, text: string)
    requires s.Valid() && !WithinLimits(s, text)
    requires |text| > s.MaxChars() || |SplitLines(text)| > s.MaxLines() + 3 || !Mentions(text, s.ShortDigest(text))
    ensures Bounded(s, text) != text
  {
    OverBudget(s, text);
  }

  /** A tool that is not governed is left alone. For a governed one the output is bounded, its text changes
      unless it is within both limits or quotes its own cut, and a record notes the size and digest of what
      was cut. */
  lemma GovernedOutput(s: Setting, r: ToolResult)
    requires s.Valid()
    ensures !s.aggressive && !s.reader ==> BudgetToolResult(s, r) == r
    ensures s.aggressive || s.reader ==> var out := BudgetToolResult(s, r);
      && |out.text| <= s.MaxChars() && |SplitLines(out.text)| <= s.MaxLines() + 3
      && (WithinLimits(s, r.text) ==> out == r)
      && (!WithinLimits(s, r.text) ==> (out.text == r.text <==> QuotesItsCut(s, r.text)) && out.Record? == r.Record?)
      && (r.Record? && !WithinLimits(s, r.text) ==>
            && out.note == Some(Note(|r.text|, |SplitLines(r.text)|, s.digest(r.text)))
            && (out.note.value.originalChars > s.MaxChars() || out.note.value.originalLines > s.MaxLines()))
  {
    UnchangedIff(s, r.text);
    if !WithinLimits(s, r.text) {
      OverBudget(s, r.text);
    }
  }

  // ---------- texts that quote their own cut ----------

  const ZEROS := "0000000000000000"

  /** Forty lines at most, and a digest that tells any two texts apart, though not by the sixteen
      characters the markers show of it. */
  const SMALL := Setting(false, true, 2000, 40, (n: nat) => n * 7 / 10, (t: string) => ZEROS + t)

  lemma SmallDigestIsInjective(a: string, b: string)
    requires SMALL.digest(a) == SMALL.digest(b)
    ensures a == b
  {
    assert a == (ZEROS + a)[16..] && b == (ZEROS + b)[16..];
  }

  lemma SmallShortDigest(text: string)
    ensures |SMALL.digest(text)| >= 16 && SMALL.digest(text)[..16] == ZEROS && SMALL.ShortDigest(text) == ZEROS
  {
    assert (ZEROS + text)[..16] == ZEROS;
  }

  lemma SmallIsValid()
    ensures SMALL.Valid() && SMALL.MaxChars() == 2000 && SMALL.MaxLines() == 40
    ensures SMALL.HeadLines() == 28 && SMALL.TailLines() == 12
  {
    assert SMALL.share(40) == 28;
    forall n: nat | n > 0 ensures SMALL.share(n) < n {
    }
    forall t: string ensures |SMALL.digest(t)| >= 16 && SMALL.digest(t)[..16] == ZEROS {
      SmallShortDigest(t);
    }
  }

  const QUOTE := "...[UES tool output truncated: " + "41" + " lines / " + "160" + " chars, sha256=" + "0000000000000000" + "]..."

  function QuotingLines(): seq<string> {
    Copies(28, "a") + [QUOTE] + Copies(12, "a")
  }

  lemma QuotingShape()
    ensures |QuotingLines()| == 41 && QuotingLines()[28] == QUOTE
    ensures forall l :: l in QuotingLines() ==> '\n' !in l && '\r' !in l
    ensures |JoinLines(QuotingLines())| == 160
  {
    CopiesMeaning(28, "a");
    CopiesMeaning(12, "a");
    TotalCopies(28, "a");
    TotalCopies(12, "a");
    TotalConcat(Copies(28, "a"), [QUOTE]);
    TotalConcat(Copies(28, "a") + [QUOTE], Copies(12, "a"));
    QuoteIsOneLine();
    assert Total([QUOTE]) == Total([]) + |QUOTE|;
    JoinLength(QuotingLines());
  }

  predicate OneLine(s: string) {
    '\n' !in s && '\r' !in s
  }

  lemma QuoteIsOneLine()
    ensures |QUOTE| == 80 && OneLine(QUOTE)
  {
    var a, b, c := "...[UES tool output truncated: ", " lines / ", " chars, sha256=";
    var d, e := "0000000000000000", "]...";
    assert |a| == 31 && OneLine(a);
    assert |b| == 9 && OneLine(b) && |c| == 15 && OneLine(c);
    assert |d| == 16 && OneLine(d) && |e| == 4 && OneLine(e);
    OneLineConcat(a, "41");
    OneLineConcat(a + "41", b);
    OneLineConcat(a + "41" + b, "160");
    OneLineConcat(a + "41" + b + "160", c);
    OneLineConcat(a + "41" + b + "160" + c, d);
    OneLineConcat(a + "41" + b + "160" + c + d, e);
  }

  lemma OneLineConcat(a: string, b: string)
    requires OneLine(a) && OneLine(b)
    ensures OneLine(a + b)
  {
  }

  lemma QuoteIsMarker(text: string)
    requires |text| == 160 && |SplitLines(text)| == 41
    ensures LineMarker(SMALL, text) == QUOTE
  {
    assert Decimal(41) == "41" by {
      assert Decimal(4) == "4";
    }
    assert Decimal(160) == "160" by {
      assert Decimal(1) == "1";
      assert Decimal(16) == "16";
    }
    SmallShortDigest(text);
    assert LineMarker(SMALL, text) == Sizes(text) + "0000000000000000" + "]...";
    assert Sizes(text) == "...[UES tool output truncated: " + "41" + " lines / " + "160" + " chars, sha256=";
  }

  /** A text over the line limit that the budget leaves as it is. */
  lemma QuotingTextIsUnchanged()
    ensures SMALL.Valid()
    ensures var text := JoinLines(QuotingLines()); !WithinLimits(SMALL, text) && Bounded(SMALL, text) == text
  {
    var text := JoinLines(QuotingLines());
    SmallIsValid();
    QuotingShape();
    SplitJoin(QuotingLines());
    QuoteIsMarker(text);
    PlainIff(text);
    MarkerStays(SMALL, text);
  }
  // ---------- and one that quotes the char marker ----------

  const NOTE := "...[UES char budget applied; sha256=" + ZEROS + "]..."

  lemma NoteIsOneLine()
    ensures |NOTE| == 56 && OneLine(NOTE)
  {
    var a, b := "...[UES char budget applied; sha256=", "]...";
    assert |a| == 36 && OneLine(a) && |b| == 4 && OneLine(b) && |ZEROS| == 16 && OneLine(ZEROS);
    OneLineConcat(a, ZEROS);
    OneLineConcat(a + ZEROS, b);
  }

  /** Short lines and one long enough to make them as many characters as the char cut keeps. */
  function FrontLines(): seq<string> {
    Copies(27, "a") + [Copies(1305, 'a')]
  }

  function BackLines(): seq<string> {
    [Copies(561, 'a')] + Copies(11, "a")
  }

  function FillingLines(): seq<string> {
    FrontLines() + [NOTE] + BackLines()
  }

  lemma CopiesOneLine(n: nat)
    ensures |Copies(n, 'a')| == n && OneLine(Copies(n, 'a'))
  {
    CopiesMeaning(n, 'a');
  }

  lemma FrontShape() returns (front: seq<string>)
    ensures front == FrontLines() && |front| == 28 && |JoinLines(front)| == 1359
    ensures forall l :: l in front ==> OneLine(l)
  {
    front := FrontLines();
    CopiesMeaning(27, "a");
    TotalCopies(27, "a");
    CopiesOneLine(1305);
    TotalConcat(Copies(27, "a"), [Copies(1305, 'a')]);
    assert Total([Copies(1305, 'a')]) == Total([]) + 1305;
    JoinLength(front);
  }

  lemma BackShape() returns (back: seq<string>)
    ensures back == BackLines() && |back| == 12 && |JoinLines(back)| == 583
    ensures forall l :: l in back ==> OneLine(l)
  {
    back := BackLines();
    CopiesMeaning(11, "a");
    TotalCopies(11, "a");
    CopiesOneLine(561);
    TotalConcat([Copies(561, 'a')], Copies(11, "a"));
    assert Total([Copies(561, 'a')]) == Total([]) + 561;
    JoinLength(back);
  }

  lemma FillingShape() returns (lines: seq<string>, text: string)
    ensures lines == FillingLines() && text == JoinLines(lines) && SplitLines(text) == lines && PlainEnds(text)
    ensures |lines| == 41 && lines[28] == NOTE && |text| == 2000
    ensures |JoinLines(lines[..28])| == 1359 && |JoinLines(lines[29..])| == 583
  {
    var front := FrontShape();
    var back := BackShape();
    NoteIsOneLine();
    lines := front + [NOTE] + back;
    text := JoinLines(lines);
    JoinThree(front, [NOTE], back);
    assert lines[..28] == front && lines[29..] == back;
    SplitJoin(lines);
    PlainIff(text);
  }

  lemma FillingCuts(lines: seq<string>, text: string)
    requires SplitLines(text) == lines && PlainEnds(text)
    requires |lines| == 41 && lines[28] == NOTE && |text| == 2000
    requires |JoinLines(lines[..28])| == 1359 && |JoinLines(lines[29..])| == 583
    ensures SMALL.Valid() && |LineCut(SMALL, text)| > SMALL.MaxChars() && QuotesCharMarker(SMALL, text)
  {
    SmallIsValid();
    SmallShortDigest(text);
    NoteIsOneLine();
    var c := CutsOfAreValid(SMALL, text);
    assert c.note == NOTE;
    assert Room(SMALL, text) == 1942 && c.front == 1359;
    assert c.NoteAt(28);
    CutAroundParts(lines, 28, c.marker, 12);
    assert |c.marker| > 56;
  }

  /** A text over the line limit, and too long for its line cut, that the budget leaves as it is. */
  lemma FillingTextIsUnchanged()
    ensures SMALL.Valid()
    ensures var text := JoinLines(FillingLines());
      && !WithinLimits(SMALL, text) && |LineCut(SMALL, text)| > SMALL.MaxChars() && Bounded(SMALL, text) == text
  {
    var lines, text := FillingShape();
    SmallIsValid();
    FillingCuts(lines, text);
    CharCutUnchangedIff(SMALL, text);
  }
}
