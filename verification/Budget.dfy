/** Bounding the output of exploration tools (runtime-guard.js, lines 23-63). The tool-name regexes
    are two flags, the digest is any function to strings of at least 16 characters on one line, and
    the 70 percent shares, computed in floating point, are any `share` with share(n) < n. */
module Budget {
  import opened Text

  /** What the caller and the environment fix. An option of 0 stands for an absent one. */
  datatype Setting = Setting(aggressive: bool, reader: bool, maxCharsOption: int, maxLinesOption: int,
                             share: nat -> nat, digest: string -> string)
  {
    ghost predicate Valid() {
      && (forall n: nat :: if n == 0 then share(n) == 0 else share(n) < n)
      && (forall s: string :: |digest(s)| >= 16 && '\n' !in digest(s)[..16] && '\r' !in digest(s)[..16])
    }

    function MaxChars(): (n: nat)
      ensures n >= 2000
    {
      var wanted := if maxCharsOption != 0 then maxCharsOption else if aggressive then 12_000 else 24_000;
      if wanted > 2000 then wanted else 2000
    }

    function MaxLines(): (n: nat)
      ensures n >= 40
    {
      var wanted := if maxLinesOption != 0 then maxLinesOption else if aggressive then 160 else 360;
      if wanted > 40 then wanted else 40
    }

    function HeadLines(): (n: nat)
      ensures n >= 1
    {
      var h := share(MaxLines());
      if h > 1 then h else 1
    }

    function TailLines(): (n: nat)
      ensures n >= 1
    {
      var t := MaxLines() - HeadLines();
      if t > 1 then t else 1
    }

    function ShortDigest(text: string): (d: string) {
      if |digest(text)| >= 16 then digest(text)[..16] else digest(text)
    }
  }

  function Decimal(n: nat): (d: string)
    ensures '\n' !in d && '\r' !in d && |d| >= 1
  {
    var last := [(n % 10 + 48) as char];
    if n < 10 then last else Decimal(n / 10) + last
  }

  function LineMarker(s: Setting, text: string): string {
    Sizes(text) + s.ShortDigest(text) + "]..."
  }

  function Sizes(text: string): string {
    "...[UES tool output truncated: " + Decimal(|SplitLines(text)|) + " lines / " + Decimal(|text|) + " chars, sha256="
  }

  function CharNote(s: Setting, text: string): string {
    "...[UES char budget applied; sha256=" + s.ShortDigest(text) + "]..."
  }

  function CharMarker(s: Setting, text: string): string {
    "\n" + CharNote(s, text) + "\n"
  }

  function JoinLines(lines: seq<string>): string {
    if lines == [] then ""
    else if |lines| == 1 then lines[0]
    else JoinLines(lines[..|lines| - 1]) + "\n" + lines[|lines| - 1]
  }

  /** `slice(0, n)` and `slice(-n)` for n > 0. */
  function First<T>(s: seq<T>, n: nat): seq<T> {
    if n <= |s| then s[..n] else s
  }

  function Last<T>(s: seq<T>, n: nat): seq<T>
    requires n > 0
  {
    if n <= |s| then s[|s| - n..] else s
  }

  function CutAround(lines: seq<string>, head: nat, marker: string, tail: nat): string
    requires tail > 0
  {
    JoinLines(First(lines, head) + [marker] + Last(lines, tail))
  }

  function LineCut(s: Setting, text: string): string {
    CutAround(SplitLines(text), s.HeadLines(), LineMarker(s, text), s.TailLines())
  }

  function Room(s: Setting, text: string): nat {
    var left := s.MaxChars() - |CharMarker(s, text)|;
    if left > 0 then left else 0
  }

  /** `slice(-0)` is the whole string, so the tail is empty only if the cut keeps nothing at all. */
  function CharCut(s: Setting, text: string, bounded: string): string {
    var room := Room(s, text);
    var head := s.share(room);
    var tail := room - head;
    First(bounded, head) + CharMarker(s, text) + if tail > 0 then Last(bounded, tail) else bounded
  }

  predicate WithinLimits(s: Setting, text: string) {
    |text| <= s.MaxChars() && |SplitLines(text)| <= s.MaxLines()
  }

  function Bounded(s: Setting, text: string): string {
    if WithinLimits(s, text) then text
    else
      var bounded := LineCut(s, text);
      if |bounded| > s.MaxChars() then CharCut(s, text, bounded) else bounded
  }

  datatype Note = Note(originalChars: nat, originalLines: nat, digest: string)

  /** A result is a string, or a record whose other fields stay as they are. */
  datatype ToolResult = Plain(text: string) | Record(text: string, note: Option<Note>)

  function BudgetToolResult(s: Setting, r: ToolResult): ToolResult {
    if !s.aggressive && !s.reader then r
    else if WithinLimits(s, r.text) then r
    else
      match r
      case Plain(text) => Plain(Bounded(s, text))
      case Record(text, _) => Record(Bounded(s, text), Some(Note(|text|, |SplitLines(text)|, s.digest(text))))
  }

  // ---------- the limits ----------

  /** The limits are the options, at least 2000 characters and 40 lines; by default 12000 and 160 for the
      aggressive tools, 24000 and 360 for the others. The kept lines are as many as the limit, with the
      head's share of them and at least one on either side. */
  lemma LimitsByTool(s: Setting)
    requires s.Valid()
    ensures s.MaxChars() == if s.maxCharsOption == 0 then (if s.aggressive then 12_000 else 24_000)
                            else if s.maxCharsOption < 2000 then 2000 else s.maxCharsOption
    ensures s.MaxLines() == if s.maxLinesOption == 0 then (if s.aggressive then 160 else 360)
                            else if s.maxLinesOption < 40 then 40 else s.maxLinesOption
    ensures s.HeadLines() == (if s.share(s.MaxLines()) == 0 then 1 else s.share(s.MaxLines()))
    ensures s.HeadLines() + s.TailLines() == s.MaxLines() && s.TailLines() >= 1
  {
  }

  // ---------- line counts ----------

  function LineFeeds(s: string): nat {
    if s == "" then 0 else LineFeeds(s[..|s| - 1]) + if s[|s| - 1] == '\n' then 1 else 0
  }

  lemma PushCounts(before: seq<string>, c: char)
    requires before != [] && forall l :: l in before ==> '\n' !in l
    ensures |PushChar(before, c)| == |before| + if c == '\n' then 1 else 0
    ensures forall l :: l in PushChar(before, c) ==> '\n' !in l
  {
    var open := before[|before| - 1];
    assert open in before && forall l :: l in before[..|before| - 1] ==> l in before;
    assert '\n' !in DropCarriageReturn(open);
  }

  lemma {:induction false} SplitCounts(s: string)
    ensures |SplitLines(s)| == 1 + LineFeeds(s)
    ensures forall l :: l in SplitLines(s) ==> '\n' !in l
  {
    if s != "" {
      SplitCounts(s[..|s| - 1]);
      PushCounts(SplitLines(s[..|s| - 1]), s[|s| - 1]);
    }
  }

  lemma {:induction false} LineFeedsConcat(a: string, b: string)
    ensures LineFeeds(a + b) == LineFeeds(a) + LineFeeds(b)
  {
    if b == "" {
      assert a + b == a;
    } else {
      assert (a + b)[..|a + b| - 1] == a + b[..|b| - 1];
      LineFeedsConcat(a, b[..|b| - 1]);
    }
  }

  lemma {:induction false} NoLineFeeds(s: string)
    requires '\n' !in s
    ensures LineFeeds(s) == 0
  {
    if s != "" {
      NoLineFeeds(s[..|s| - 1]);
    }
  }

  lemma {:induction false} JoinCounts(lines: seq<string>)
    requires forall l :: l in lines ==> '\n' !in l
    ensures lines != [] ==> LineFeeds(JoinLines(lines)) == |lines| - 1
  {
    if |lines| == 1 {
      NoLineFeeds(lines[0]);
    } else if |lines| > 1 {
      var init, last := lines[..|lines| - 1], lines[|lines| - 1];
      JoinCounts(init);
      NoLineFeeds(last);
      assert "\n"[..0] == "";
      LineFeedsConcat(JoinLines(init), "\n");
      LineFeedsConcat(JoinLines(init) + "\n", last);
    }
  }

  lemma EndsCount(b: string, head: nat, tail: nat)
    requires head + tail <= |b|
    ensures LineFeeds(b[..head]) + LineFeeds(b[|b| - tail..]) <= LineFeeds(b)
  {
    var mid := b[head..|b| - tail];
    assert b == (b[..head] + mid) + b[|b| - tail..];
    LineFeedsConcat(b[..head], mid);
    LineFeedsConcat(b[..head] + mid, b[|b| - tail..]);
  }

  // ---------- the markers ----------

  lemma LineMarkerIsOneLine(s: Setting, text: string)
    requires s.Valid()
    ensures '\n' !in LineMarker(s, text)
  {
    SizesOnOneLine(text);
  }

  lemma SizesOnOneLine(text: string)
    ensures '\n' !in Sizes(text)
  {
    var lines, chars := Decimal(|SplitLines(text)|), Decimal(|text|);
    assert '\n' !in "...[UES tool output truncated: " + lines;
    assert '\n' !in " lines / " + chars + " chars, sha256=";
  }

  lemma CharMarkerShape(s: Setting, text: string)
    requires s.Valid()
    ensures |CharMarker(s, text)| <= 100 && LineFeeds(CharMarker(s, text)) == 2
  {
    CharNoteIsOneLine(s, text);
    Framed(CharNote(s, text));
  }

  lemma CharNoteIsOneLine(s: Setting, text: string)
    requires s.Valid()
    ensures '\n' !in CharNote(s, text) && |CharNote(s, text)| <= 98
  {
  }

  lemma Framed(inner: string)
    requires '\n' !in inner
    ensures LineFeeds("\n" + inner + "\n") == 2
  {
    NoLineFeeds(inner);
    assert "\n"[..0] == "";
    LineFeedsConcat("\n", inner);
    LineFeedsConcat("\n" + inner, "\n");
  }

  ghost predicate Mentions(s: string, part: string) {
    exists k :: Occurs(s, part, k)
  }

  ghost predicate Occurs(s: string, part: string, k: int) {
    0 <= k <= |s| - |part| && s[k..k + |part|] == part
  }

  lemma MentionsIn(a: string, b: string, c: string)
    ensures Mentions(a + b + c, b)
  {
    assert (a + b + c)[|a|..|a| + |b|] == b;
    assert Occurs(a + b + c, b, |a|);
  }

  lemma {:induction false} JoinMentions(lines: seq<string>, k: nat, part: string)
    requires k < |lines| && Mentions(lines[k], part)
    ensures Mentions(JoinLines(lines), part)
  {
    if |lines| > 1 {
      var init, last := lines[..|lines| - 1], lines[|lines| - 1];
      if k < |lines| - 1 {
        JoinMentions(init, k, part);
        MentionsWider("", JoinLines(init), "\n" + last, part);
        assert "" + JoinLines(init) + ("\n" + last) == JoinLines(lines);
      } else {
        MentionsWider(JoinLines(init) + "\n", last, "", part);
        assert JoinLines(init) + "\n" + last + "" == JoinLines(lines);
      }
    }
  }

  lemma MentionsWider(a: string, b: string, c: string, part: string)
    requires Mentions(b, part)
    ensures Mentions(a + b + c, part)
  {
    var k :| Occurs(b, part, k);
    assert (a + b + c)[|a| + k..|a| + k + |part|] == b[k..k + |part|];
    assert Occurs(a + b + c, part, |a| + k);
  }

  lemma MarkersMention(s: Setting, text: string)
    ensures Mentions(LineMarker(s, text), s.ShortDigest(text))
    ensures Mentions(CharMarker(s, text), s.ShortDigest(text))
  {
    MentionsIn(Sizes(text), s.ShortDigest(text), "]...");
    MentionsIn("...[UES char budget applied; sha256=", s.ShortDigest(text), "]...");
    MentionsWider("\n", CharNote(s, text), "\n", s.ShortDigest(text));
  }

  // ---------- the two cuts ----------

  /** `cut` is `b` with everything between a head and a nonempty tail that do not meet replaced. */
  ghost predicate KeepsEnds(b: string, marker: string, cut: string, head: int, tail: int) {
    && 0 <= head && 0 < tail && head + tail < |b|
    && cut == b[..head] + marker + b[|b| - tail..]
  }

  /** The char cut fills the budget exactly, keeps a head and a tail that do not meet, and adds at
      most two lines. */
  lemma CharCutMeaning(s: Setting, text: string, b: string)
    requires s.Valid() && |b| > s.MaxChars()
    ensures var cut := CharCut(s, text, b);
      && |cut| == s.MaxChars()
      && LineFeeds(cut) <= LineFeeds(b) + 2
      && Mentions(cut, s.ShortDigest(text))
      && exists head: nat, tail ::
           KeepsEnds(b, CharMarker(s, text), cut, head, tail) && head == s.share(s.MaxChars() - |CharMarker(s, text)|)
  {
    CharMarkerShape(s, text);
    var marker := CharMarker(s, text);
    var room := Room(s, text);
    var head := s.share(room);
    var tail: nat := room - head;
    var cut := CharCut(s, text, b);
    assert cut == b[..head] + marker + b[|b| - tail..];
    EndsCount(b, head, tail);
    LineFeedsConcat(b[..head], marker);
    LineFeedsConcat(b[..head] + marker, b[|b| - tail..]);
    MarkersMention(s, text);
    assert KeepsEnds(b, marker, cut, head, tail);
    MentionsWider(b[..head], marker, b[|b| - tail..], s.ShortDigest(text));
  }

  lemma LineCutCounts(s: Setting, text: string)
    requires s.Valid()
    ensures LineFeeds(LineCut(s, text)) <= s.MaxLines()
    ensures Mentions(LineCut(s, text), s.ShortDigest(text))
  {
    var lines := SplitLines(text);
    var head, marker, tail := First(lines, s.HeadLines()), LineMarker(s, text), Last(lines, s.TailLines());
    SplitCounts(text);
    LineMarkerIsOneLine(s, text);
    JoinCounts(head + [marker] + tail);
    MarkersMention(s, text);
    assert (head + [marker] + tail)[|head|] == marker;
    JoinMentions(head + [marker] + tail, |head|, s.ShortDigest(text));
  }

  /** Over budget, the text fits the character limit, has at most three lines more than the line
      limit, and names the digest of what was cut. */
  lemma OverBudget(s: Setting, text: string)
    requires s.Valid() && !WithinLimits(s, text)
    ensures |Bounded(s, text)| <= s.MaxChars()
    ensures |LineCut(s, text)| > s.MaxChars() ==> |Bounded(s, text)| == s.MaxChars()
    ensures |SplitLines(Bounded(s, text))| <= s.MaxLines() + 3
    ensures Mentions(Bounded(s, text), s.ShortDigest(text))
  {
    LineCutCounts(s, text);
    SplitCounts(Bounded(s, text));
    if |LineCut(s, text)| > s.MaxChars() {
      CharCutMeaning(s, text, LineCut(s, text));
    }
  }

  // ---------- what the line cut keeps ----------

  lemma {:induction false} JoinConcat(a: seq<string>, b: seq<string>)
    requires a != [] && b != []
    ensures JoinLines(a + b) == JoinLines(a) + "\n" + JoinLines(b)
  {
    var init := (a + b)[..|a + b| - 1];
    if |b| == 1 {
      assert init == a;
    } else {
      assert init == a + b[..|b| - 1];
      JoinConcat(a, b[..|b| - 1]);
      assert JoinLines(a) + "\n" + (JoinLines(b[..|b| - 1]) + "\n" + b[|b| - 1])
          == JoinLines(a) + "\n" + JoinLines(b[..|b| - 1]) + "\n" + b[|b| - 1];
    }
  }

  lemma JoinLast(init: seq<string>, last: string)
    ensures JoinLines(init + [last]) == if init == [] then last else JoinLines(init) + "\n" + last
  {
    assert (init + [last])[..|init|] == init;
  }

  lemma JoinGrows(init: seq<string>, open: string, c: char)
    ensures JoinLines(init + [open + [c]]) == JoinLines(init + [open]) + [c]
  {
    JoinLast(init, open);
    JoinLast(init, open + [c]);
    if init != [] {
      assert JoinLines(init) + "\n" + (open + [c]) == JoinLines(init) + "\n" + open + [c];
    }
  }

  /** `cut` is `text` with one stretch between two line feeds replaced by the line `marker`. */
  ghost predicate Excises(text: string, marker: string, cut: string, p: int, q: int) {
    && 0 <= p < q - 1 < |text| && text[p] == '\n' && text[q - 1] == '\n'
    && cut == text[..p] + "\n" + marker + "\n" + text[q..]
  }

  lemma Surgery(h: string, m: string, t: string, marker: string)
    ensures Excises(h + "\n" + m + "\n" + t, marker, h + "\n" + marker + "\n" + t, |h|, |h| + |m| + 2)
    ensures (h + "\n" + m + "\n" + t)[..|h|] == h && (h + "\n" + m + "\n" + t)[|h| + |m| + 2..] == t
  {
    var text := h + "\n" + m + "\n" + t;
    assert text[..|h|] == h && text[|h| + |m| + 2..] == t;
  }

  lemma JoinThree(a: seq<string>, b: seq<string>, c: seq<string>)
    requires a != [] && b != [] && c != []
    ensures JoinLines(a + b + c) == JoinLines(a) + "\n" + JoinLines(b) + "\n" + JoinLines(c)
  {
    JoinConcat(a + b, c);
    JoinConcat(a, b);
  }

  lemma SurgeryOnLines(text: string, marker: string, cut: string, head: seq<string>, mid: seq<string>, tail: seq<string>)
    returns (p: int, q: int)
    requires head != [] && mid != [] && tail != []
    requires text == JoinLines(head + mid + tail) && cut == JoinLines(head + [marker] + tail)
    ensures Excises(text, marker, cut, p, q) && text[..p] == JoinLines(head) && text[q..] == JoinLines(tail)
  {
    var h, m, t := JoinLines(head), JoinLines(mid), JoinLines(tail);
    JoinThree(head, mid, tail);
    JoinThree(head, [marker], tail);
    Surgery(h, m, t, marker);
    p, q := |h|, |h| + |m| + 2;
    assert h + "\n" + m + "\n" + t == text;
  }

  lemma CutsIntoThree(lines: seq<string>, h: nat, t: nat)
    requires 0 < h && 0 < t && h + t < |lines|
    ensures lines == First(lines, h) + lines[h..|lines| - t] + Last(lines, t)
    ensures lines[h..|lines| - t] != []
  {
  }

  /** When there are too many lines, the line cut takes out of the text (its line ends written as
      plain line feeds) one stretch between two line feeds and puts the marker line there; nothing
      else changes. What stays are the first `HeadLines` and the last `TailLines` lines. */
  lemma LineCutExcises(s: Setting, text: string)
    requires s.Valid() && |SplitLines(text)| > s.MaxLines()
    ensures var plain := JoinLines(SplitLines(text));
      exists p, q ::
        && Excises(plain, LineMarker(s, text), LineCut(s, text), p, q)
        && LineFeeds(plain[..p]) + 1 == s.HeadLines() && LineFeeds(plain[q..]) + 1 == s.TailLines()
  {
    var lines := SplitLines(text);
    var head, tail := First(lines, s.HeadLines()), Last(lines, s.TailLines());
    var mid := lines[s.HeadLines()..|lines| - s.TailLines()];
    CutsIntoThree(lines, s.HeadLines(), s.TailLines());
    SplitCounts(text);
    KeptCounts(lines, s.HeadLines(), s.TailLines());
    var p, q := SurgeryOnLines(JoinLines(lines), LineMarker(s, text), LineCut(s, text), head, mid, tail);
  }

  lemma KeptCounts(lines: seq<string>, h: nat, t: nat)
    requires 0 < h <= |lines| && 0 < t <= |lines| && forall l :: l in lines ==> '\n' !in l
    ensures LineFeeds(JoinLines(First(lines, h))) + 1 == h && LineFeeds(JoinLines(Last(lines, t))) + 1 == t
  {
    JoinCounts(First(lines, h));
    JoinCounts(Last(lines, t));
  }
}
