/** Lines with their carriage returns kept, and when writing line ends as plain line feeds changes
    nothing. */
module LineEnds {
  import opened Text
  import opened Budget

  function PushRaw(before: seq<string>, c: char): (lines: seq<string>)
    requires before != []
    ensures lines != []
  {
    if c == '\n' then before + [""] else before[..|before| - 1] + [before[|before| - 1] + [c]]
  }

  /** Splitting on line feeds alone. */
  function RawLines(s: string): (lines: seq<string>)
    ensures lines != []
  {
    if s == "" then [""] else PushRaw(RawLines(s[..|s| - 1]), s[|s| - 1])
  }

  function LastOf(lines: seq<string>): string
    requires lines != []
  {
    lines[|lines| - 1]
  }

  // ---------- raw lines and joining are inverse ----------

  lemma {:induction false} JoinRaw(s: string)
    ensures JoinLines(RawLines(s)) == s
  {
    if s != "" {
      var before, c := RawLines(s[..|s| - 1]), s[|s| - 1];
      JoinRaw(s[..|s| - 1]);
      assert s == s[..|s| - 1] + [c];
      if c == '\n' {
        JoinLast(before, "");
      } else {
        assert before == before[..|before| - 1] + [LastOf(before)];
        JoinGrows(before[..|before| - 1], LastOf(before), c);
      }
    }
  }

  lemma PushOpen(init: seq<string>, open: string, c: char)
    requires c != '\n'
    ensures PushRaw(init + [open], c) == init + [open + [c]]
  {
    assert (init + [open])[..|init|] == init;
  }

  lemma {:induction false} RawExtends(t: string, x: string)
    requires '\n' !in x
    ensures RawLines(t + x) == RawLines(t)[..|RawLines(t)| - 1] + [LastOf(RawLines(t)) + x]
  {
    var raw := RawLines(t);
    var init, open := raw[..|raw| - 1], LastOf(raw);
    if x == "" {
      assert t + x == t && open + x == open;
    } else {
      var y, c := x[..|x| - 1], x[|x| - 1];
      assert (t + x)[..|t + x| - 1] == t + y && c in x;
      RawExtends(t, y);
      PushOpen(init, open + y, c);
      assert open + x == open + y + [c];
    }
  }

  lemma RawNextLine(t: string, x: string)
    requires '\n' !in x
    ensures RawLines(t + "\n" + x) == RawLines(t) + [x]
  {
    var raw := RawLines(t) + [""];
    assert (t + "\n")[..|t|] == t;
    assert RawLines(t + "\n") == raw;
    RawExtends(t + "\n", x);
    assert raw[..|raw| - 1] == RawLines(t) && LastOf(raw) + x == x;
  }

  lemma {:induction false} RawJoin(lines: seq<string>)
    requires lines != [] && forall l :: l in lines ==> '\n' !in l
    ensures RawLines(JoinLines(lines)) == lines
  {
    var init, last := lines[..|lines| - 1], LastOf(lines);
    assert lines == init + [last] && last in lines;
    if init == [] {
      RawExtends("", last);
      assert "" + last == last && RawLines("")[..0] == [];
    } else {
      assert forall l :: l in init ==> l in lines;
      RawJoin(init);
      RawNextLine(JoinLines(init), last);
    }
  }

  lemma {:induction false} RawHasNoFeeds(s: string)
    ensures forall l :: l in RawLines(s) ==> '\n' !in l
  {
    if s != "" {
      RawHasNoFeeds(s[..|s| - 1]);
      assert LastOf(RawLines(s[..|s| - 1])) in RawLines(s[..|s| - 1]);
    }
  }

  /** Text put together around a line has the lines of its parts. */
  lemma RawAround(x: string, line: string, y: string)
    requires '\n' !in line
    ensures RawLines(x + "\n" + line + "\n" + y) == RawLines(x) + [line] + RawLines(y)
  {
    var a, b := RawLines(x), RawLines(y);
    RawHasNoFeeds(x);
    RawHasNoFeeds(y);
    JoinRaw(x);
    JoinRaw(y);
    JoinThree(a, [line], b);
    RawJoin(a + [line] + b);
  }

  predicate IsSuffix(a: string, b: string) {
    |a| <= |b| && a == b[|b| - |a|..]
  }

  /** `a` is the first lines of `b`, the last of them perhaps cut short. */
  ghost predicate FirstLines(a: seq<string>, b: seq<string>) {
    0 < |a| <= |b| && a[..|a| - 1] == b[..|a| - 1] && LastOf(a) <= b[|a| - 1]
  }

  /** `a` is the last lines of `b`, the first of them perhaps cut short. */
  ghost predicate LastLines(a: seq<string>, b: seq<string>) {
    0 < |a| <= |b| && a[1..] == b[|b| - |a| + 1..] && IsSuffix(a[0], b[|b| - |a|])
  }

  lemma FirstLinesPush(a: seq<string>, b: seq<string>, c: char)
    requires b != [] && FirstLines(a, b)
    ensures FirstLines(a, PushRaw(b, c))
  {
  }

  lemma {:induction false} RawPrefix(s: string, k: nat)
    requires k <= |s|
    ensures FirstLines(RawLines(s[..k]), RawLines(s))
  {
    if k == |s| {
      assert s[..k] == s;
    } else {
      var t := s[..|s| - 1];
      assert t[..k] == s[..k];
      RawPrefix(t, k);
      FirstLinesPush(RawLines(s[..k]), RawLines(t), s[|s| - 1]);
    }
  }

  lemma LastLinesBreak(a: seq<string>, b: seq<string>)
    requires a != [] && b != [] && LastLines(a, b)
    ensures LastLines(a + [""], b + [""])
  {
  }

  lemma LastLinesExtend(a: seq<string>, b: seq<string>, c: char)
    requires a != [] && b != [] && c != '\n' && LastLines(a, b)
    ensures LastLines(PushRaw(a, c), PushRaw(b, c))
  {
    if |a| > 1 {
      assert LastOf(a) == a[1..][|a| - 2] == b[|b| - |a| + 1..][|a| - 2] == LastOf(b);
    }
  }

  lemma LastLinesPush(a: seq<string>, b: seq<string>, c: char)
    requires a != [] && b != [] && LastLines(a, b)
    ensures LastLines(PushRaw(a, c), PushRaw(b, c))
  {
    if c == '\n' {
      LastLinesBreak(a, b);
    } else {
      LastLinesExtend(a, b, c);
    }
  }

  lemma {:induction false} RawSuffix(s: string, k: nat)
    requires k <= |s|
    ensures LastLines(RawLines(s[k..]), RawLines(s))
  {
    if k == |s| {
      assert s[k..] == "";
    } else {
      var t := s[..|s| - 1];
      assert s[k..][..|s[k..]| - 1] == t[k..];
      RawSuffix(t, k);
      LastLinesPush(RawLines(t[k..]), RawLines(t), s[|s| - 1]);
    }
  }

  // ---------- raw lines and split lines ----------

  /** `lines` is `raw` with the carriage return before each line feed dropped. */
  ghost predicate Trimmed(lines: seq<string>, raw: seq<string>) {
    && |lines| == |raw| > 0
    && LastOf(lines) == LastOf(raw)
    && forall i :: 0 <= i < |raw| - 1 ==> lines[i] == DropCarriageReturn(raw[i])
  }

  lemma {:induction false} SplitIsTrimmed(s: string)
    ensures Trimmed(SplitLines(s), RawLines(s))
  {
    if s != "" {
      SplitIsTrimmed(s[..|s| - 1]);
    }
  }

  /** No line ends in a carriage return and a line feed. */
  predicate PlainEnds(s: string) {
    forall i :: 0 < i < |s| && s[i] == '\n' ==> s[i - 1] != '\r'
  }

  lemma {:induction false} LastRawEnds(s: string)
    ensures var l := LastOf(RawLines(s));
      if l == "" then s == "" || s[|s| - 1] == '\n' else s != "" && s[|s| - 1] == l[|l| - 1]
  {
  }

  lemma PlainGrows(t: string, c: char)
    ensures PlainEnds(t + [c]) <==> PlainEnds(t) && !(c == '\n' && t != "" && t[|t| - 1] == '\r')
  {
    var s := t + [c];
    if PlainEnds(s) {
      forall i | 0 < i < |t| && t[i] == '\n' ensures t[i - 1] != '\r' {
        assert s[i] == '\n' && s[i - 1] == t[i - 1];
      }
      if c == '\n' && t != "" {
        assert s[|t|] == '\n' && s[|t| - 1] == t[|t| - 1];
      }
    }
  }

  lemma {:induction false} PlainIffRaw(s: string)
    ensures PlainEnds(s) <==> SplitLines(s) == RawLines(s)
  {
    if s != "" {
      var t, c := s[..|s| - 1], s[|s| - 1];
      assert s == t + [c];
      PlainIffRaw(t);
      PlainGrows(t, c);
      LastRawEnds(t);
      SplitIsTrimmed(t);
      PushBoth(SplitLines(t), RawLines(t), c);
    }
  }

  lemma PushBoth(lines: seq<string>, raw: seq<string>, c: char)
    requires Trimmed(lines, raw)
    ensures PushChar(lines, c) == PushRaw(raw, c) <==>
      lines == raw && (c == '\n' ==> DropCarriageReturn(LastOf(raw)) == LastOf(raw))
  {
    var a, b := PushChar(lines, c), PushRaw(raw, c);
    if a == b {
      forall i | 0 <= i < |raw| - 1 ensures lines[i] == raw[i] {
        assert a[i] == lines[i] && b[i] == raw[i];
      }
      assert a[|raw| - 1] == b[|raw| - 1];
    }
    assert lines[..|lines| - 1] + [LastOf(lines), ""] == lines + [""];
  }

  /** Writing the line ends as plain line feeds changes nothing exactly when they all are. */
  lemma PlainIff(s: string)
    ensures JoinLines(SplitLines(s)) == s <==> PlainEnds(s)
  {
    JoinRaw(s);
    PlainIffRaw(s);
    SplitCounts(s);
    RawJoin(SplitLines(s));
  }

  /** Lines without carriage returns or line feeds are split where they were joined. */
  lemma SplitJoin(lines: seq<string>)
    requires lines != [] && forall l :: l in lines ==> '\n' !in l && '\r' !in l
    ensures SplitLines(JoinLines(lines)) == lines
  {
    var s := JoinLines(lines);
    RawJoin(lines);
    SplitIsTrimmed(s);
    forall i | 0 <= i < |lines| - 1 ensures SplitLines(s)[i] == lines[i] {
      assert lines[i] in lines;
    }
    assert SplitLines(s) == lines;
  }

  // ---------- lengths ----------

  function Total(lines: seq<string>): nat {
    if lines == [] then 0 else Total(lines[..|lines| - 1]) + |LastOf(lines)|
  }

  lemma {:induction false} JoinLength(lines: seq<string>)
    requires lines != []
    ensures |JoinLines(lines)| == Total(lines) + |lines| - 1
  {
    if |lines| > 1 {
      JoinLength(lines[..|lines| - 1]);
    }
  }

  lemma {:induction false} TotalConcat(a: seq<string>, b: seq<string>)
    ensures Total(a + b) == Total(a) + Total(b)
  {
    if b == [] {
      assert a + b == a;
    } else {
      assert (a + b)[..|a + b| - 1] == a + b[..|b| - 1];
      TotalConcat(a, b[..|b| - 1]);
    }
  }

  lemma {:induction false} TotalAtMost(a: seq<string>, b: seq<string>)
    requires |a| == |b| && forall i :: 0 <= i < |a| ==> |a[i]| <= |b[i]|
    ensures Total(a) <= Total(b)
  {
    if a != [] {
      TotalAtMost(a[..|a| - 1], b[..|b| - 1]);
    }
  }

  function Copies<T>(n: nat, x: T): seq<T> {
    if n == 0 then [] else Copies(n - 1, x) + [x]
  }

  lemma {:induction false} CopiesMeaning<T>(n: nat, x: T)
    ensures |Copies(n, x)| == n && forall i :: 0 <= i < n ==> Copies(n, x)[i] == x
  {
    if n > 0 {
      CopiesMeaning(n - 1, x);
    }
  }

  lemma {:induction false} TotalCopies(n: nat, x: string)
    requires |x| == 1
    ensures Total(Copies(n, x)) == n
  {
    if n > 0 {
      TotalCopies(n - 1, x);
      TotalConcat(Copies(n - 1, x), [x]);
      assert Total([x]) == Total([]) + |x|;
    }
  }
}
