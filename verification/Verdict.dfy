/** The backward scan for a verifier's verdict (verifier-runtime.js, lines 1-33). JSON parsing is a
    parameter; it yields the verdict in upper case and the evidence text, or nothing. */
module Verdict {
  import opened Text

  datatype Part = TextPart(text: string) | OtherPart

  datatype Message = Message(role: string, parts: seq<Part>, content: Option<string>)

  datatype Parsed = Parsed(verdict: string, evidence: string)

  type Parser = string -> Option<Parsed>

  datatype Ruling = Ruling(verdict: string, evidence: string)

  const MARKER := "UES_VERDICT_JSON:"
  const MAX_EVIDENCE := 4000

  // ---------- what a message says ----------

  function TextsOf(parts: seq<Part>): seq<string> {
    if parts == [] then []
    else
      var p := parts[|parts| - 1];
      TextsOf(parts[..|parts| - 1]) + if p.TextPart? then [p.text] else []
  }

  function AssistantTexts(m: Message): seq<string> {
    if LowerAscii(m.role) != "assistant" then []
    else
      var values := TextsOf(m.parts);
      if values == [] && m.content.Some? then [m.content.value] else values
  }

  method AssistantTextParts(m: Message) returns (values: seq<string>)
    ensures values == AssistantTexts(m)
  {
    values := [];
    if LowerAscii(m.role) != "assistant" {
      return;
    }
    for i := 0 to |m.parts|
      invariant values == TextsOf(m.parts[..i])
    {
      if m.parts[i].TextPart? {
        values := values + [m.parts[i].text];
      }
      assert m.parts[..i + 1][..i] == m.parts[..i];
    }
    assert m.parts[..|m.parts|] == m.parts;
    if |values| == 0 && m.content.Some? {
      values := values + [m.content.value];
    }
  }

  function NonEmptyTrimmed(lines: seq<string>): seq<string> {
    if lines == [] then []
    else
      var line := Trim(lines[|lines| - 1]);
      NonEmptyTrimmed(lines[..|lines| - 1]) + if line != "" then [line] else []
  }

  function LinesOf(text: string): seq<string> {
    NonEmptyTrimmed(SplitLines(text))
  }

  /** What one line rules: nothing, unless it is marked, parses, and says PASS (with at least three
      characters of evidence) or FAIL. */
  function LineRuling(parse: Parser, line: string): Option<Ruling> {
    if !(MARKER <= line) then None
    else
      match parse(Trim(line[|MARKER|..]))
      case None => None
      case Some(p) =>
        var trimmed := Trim(p.evidence);
        var evidence := if |trimmed| > MAX_EVIDENCE then trimmed[..MAX_EVIDENCE] else trimmed;
        if p.verdict == "PASS" && |evidence| < 3 then None
        else if p.verdict == "PASS" || p.verdict == "FAIL" then Some(Ruling(p.verdict, evidence))
        else None
  }

  // ---------- the reference: all assistant lines in document order ----------

  function LinesOfTexts(texts: seq<string>): seq<string> {
    if texts == [] then [] else LinesOfTexts(texts[..|texts| - 1]) + LinesOf(texts[|texts| - 1])
  }

  function DocumentLines(messages: seq<Message>): seq<string> {
    if messages == [] then []
    else DocumentLines(messages[..|messages| - 1]) + LinesOfTexts(AssistantTexts(messages[|messages| - 1]))
  }

  ghost predicate Silent(parse: Parser, lines: seq<string>) {
    forall i :: 0 <= i < |lines| ==> LineRuling(parse, lines[i]) == None
  }

  /** `r` is the ruling of the last ruling line, and none exactly when no line rules. */
  ghost predicate IsLastRuling(parse: Parser, lines: seq<string>, r: Option<Ruling>) {
    match r
    case None => Silent(parse, lines)
    case Some(_) => exists i :: 0 <= i < |lines| && LineRuling(parse, lines[i]) == r && Silent(parse, lines[i + 1..])
  }

  lemma SilentConcat(parse: Parser, a: seq<string>, b: seq<string>)
    ensures Silent(parse, a + b) <==> Silent(parse, a) && Silent(parse, b)
  {
    if Silent(parse, a + b) {
      forall i | 0 <= i < |a| ensures LineRuling(parse, a[i]) == None {
        assert (a + b)[i] == a[i];
      }
      forall i | 0 <= i < |b| ensures LineRuling(parse, b[i]) == None {
        assert (a + b)[|a| + i] == b[i];
      }
    }
  }

  /** A silent tail does not change the last ruling. */
  lemma LastRulingBeforeSilence(parse: Parser, a: seq<string>, b: seq<string>, r: Option<Ruling>)
    requires Silent(parse, b)
    ensures IsLastRuling(parse, a, r) ==> IsLastRuling(parse, a + b, r)
  {
    SilentConcat(parse, a, b);
    if IsLastRuling(parse, a, r) && r.Some? {
      var i :| 0 <= i < |a| && LineRuling(parse, a[i]) == r && Silent(parse, a[i + 1..]);
      SilentConcat(parse, a[i + 1..], b);
      DropConcat(a, b, i);
    }
  }

  lemma DropConcat(a: seq<string>, b: seq<string>, i: nat)
    requires i < |a|
    ensures (a + b)[i] == a[i] && (a + b)[i + 1..] == a[i + 1..] + b
  {
  }

  lemma LastRulingInTail(parse: Parser, a: seq<string>, b: seq<string>, r: Option<Ruling>)
    requires r.Some? && IsLastRuling(parse, b, r)
    ensures IsLastRuling(parse, a + b, r)
  {
    var i :| 0 <= i < |b| && LineRuling(parse, b[i]) == r && Silent(parse, b[i + 1..]);
    assert (a + b)[|a| + i] == b[i] && (a + b)[|a| + i + 1..] == b[i + 1..];
  }

  /** There is only one last ruling. */
  lemma LastRulingUnique(parse: Parser, lines: seq<string>, r: Option<Ruling>, r': Option<Ruling>)
    requires IsLastRuling(parse, lines, r) && IsLastRuling(parse, lines, r')
    ensures r == r'
  {
    if r.Some? && r'.Some? {
      var i :| 0 <= i < |lines| && LineRuling(parse, lines[i]) == r && Silent(parse, lines[i + 1..]);
      var j :| 0 <= j < |lines| && LineRuling(parse, lines[j]) == r' && Silent(parse, lines[j + 1..]);
      NotBefore(parse, lines, i, j);
      NotBefore(parse, lines, j, i);
    }
  }

  lemma NotBefore(parse: Parser, lines: seq<string>, i: nat, j: nat)
    requires i < |lines| && j < |lines|
    requires Silent(parse, lines[i + 1..]) && LineRuling(parse, lines[j]) != None
    ensures j <= i
  {
    SilentAfter(parse, lines, i);
  }

  lemma SilentAfter(parse: Parser, lines: seq<string>, i: nat)
    requires i < |lines| && Silent(parse, lines[i + 1..])
    ensures forall k :: i < k < |lines| ==> LineRuling(parse, lines[k]) == None
  {
    forall k | i < k < |lines| ensures LineRuling(parse, lines[k]) == None {
      assert lines[i + 1..][k - i - 1] == lines[k];
    }
  }

  // ---------- what the last line says decides ----------

  predicate IsAssistant(role: string) {
    |role| == 9 && forall i :: 0 <= i < 9 ==> role[i] == "assistant"[i] || role[i] == "ASSISTANT"[i]
  }

  predicate NoText(parts: seq<Part>) {
    forall p :: p in parts ==> !p.TextPart?
  }

  /** An assistant message by its last line with anything on it: what stands before that line, the
      line, and blank text after it. */
  datatype Final = Final(role: string, parts: seq<Part>, before: string, line: string, blank: string,
                         rest: seq<Part>, content: Option<string>)
  {
    predicate Valid() {
      && IsAssistant(role) && NoText(rest) && (before == "" || before[|before| - 1] == '\n')
      && '\n' !in line && !AllSpace(line) && AllSpace(blank)
    }

    function Whole(): Message {
      Message(role, parts + [TextPart(before + line + blank)] + rest, content)
    }

    /** The message without that line. */
    function Earlier(): Message {
      Message(role, parts + [TextPart(before)] + rest, content)
    }
  }

  /** What the parser makes of a line that begins with the marker. */
  function ParsedLine(parse: Parser, line: string): Option<Parsed> {
    if "UES_VERDICT_JSON:" <= Trim(line) then parse(Trim(Trim(line)[17..])) else None
  }

  predicate SaysFail(parse: Parser, line: string) {
    var p := ParsedLine(parse, line);
    p.Some? && p.value.verdict == "FAIL"
  }

  /** PASS, with at least three characters of evidence. */
  predicate SaysPass(parse: Parser, line: string) {
    var p := ParsedLine(parse, line);
    p.Some? && p.value.verdict == "PASS" && |Trim(p.value.evidence)| >= 3
  }

  /** `r` rules `verdict` with the line's evidence, at most 4000 characters of it. */
  predicate RulesBy(parse: Parser, line: string, verdict: string, r: Option<Ruling>)
    requires ParsedLine(parse, line).Some?
  {
    var e := Trim(ParsedLine(parse, line).value.evidence);
    r.Some? && r.value.verdict == verdict && r.value.evidence <= e && |r.value.evidence| == if |e| > 4000 then 4000 else |e|
  }

  lemma {:induction false} LowerIff(role: string, word: string)
    requires forall c :: c in word ==> 'a' <= c <= 'z'
    ensures LowerAscii(role) == word <==>
      |role| == |word| && forall i :: 0 <= i < |role| ==> role[i] == word[i] || role[i] as int == word[i] as int - 32
  {
    if role != "" && word != "" {
      assert role == [role[0]] + role[1..] && word == [word[0]] + word[1..];
      assert word[0] in word && forall c :: c in word[1..] ==> c in word;
      LowerIff(role[1..], word[1..]);
      var low := LowerAscii(role);
      assert low == word <==> low[0] == word[0] && low[1..] == word[1..];
    }
  }

  lemma AssistantIff(role: string)
    ensures LowerAscii(role) == "assistant" <==> IsAssistant(role)
  {
    LowerIff(role, "assistant");
  }

  // ---------- the lines of a text put together ----------

  lemma TrimmedAppend(lines: seq<string>, line: string)
    ensures NonEmptyTrimmed(lines + [line]) == NonEmptyTrimmed(lines) + if Trim(line) != "" then [Trim(line)] else []
  {
    assert (lines + [line])[..|lines|] == lines;
  }

  lemma TrimIgnoresEnd(s: string, c: char)
    requires IsSpace(c)
    ensures Trim(s + [c]) == Trim(s) && Trim(DropCarriageReturn(s)) == Trim(s)
  {
    assert (s + [c])[..|s|] == s;
  }

  lemma SpaceAddsNothing(lines: seq<string>, c: char)
    requires lines != [] && IsSpace(c)
    ensures NonEmptyTrimmed(PushChar(lines, c)) == NonEmptyTrimmed(lines)
  {
    var init, open := lines[..|lines| - 1], lines[|lines| - 1];
    assert lines == init + [open];
    TrimmedAppend(init, open);
    TrimIgnoresEnd(open, c);
    if c == '\n' {
      TrimmedAppend(init, DropCarriageReturn(open));
      TrimmedAppend(init + [DropCarriageReturn(open)], "");
      assert init + [DropCarriageReturn(open), ""] == init + [DropCarriageReturn(open)] + [""];
    } else {
      TrimmedAppend(init, open + [c]);
    }
  }

  lemma {:induction false} BlankAddsNothing(text: string, blank: string)
    requires AllSpace(blank)
    ensures LinesOf(text + blank) == LinesOf(text)
  {
    if blank == "" {
      assert text + blank == text;
    } else {
      var p, c := blank[..|blank| - 1], blank[|blank| - 1];
      assert (text + blank)[..|text + blank| - 1] == text + p && c in blank;
      BlankAddsNothing(text, p);
      SpaceAddsNothing(SplitLines(text + p), c);
    }
  }

  lemma OpenGrows(init: seq<string>, open: string, c: char)
    requires c != '\n'
    ensures PushChar(init + [open], c) == init + [open + [c]]
  {
    assert (init + [open])[..|init|] == init;
  }

  lemma OneMoreChar(text: string, init: seq<string>, open: string, c: char)
    requires c != '\n' && SplitLines(text) == init + [open]
    ensures SplitLines(text + [c]) == init + [open + [c]]
  {
    assert (text + [c])[..|text|] == text;
    OpenGrows(init, open, c);
  }

  lemma Regrouped(a: string, b: string)
    requires b != ""
    ensures a + [b[0]] + b[1..] == a + b
  {
  }

  lemma {:induction false} LineExtends(text: string, init: seq<string>, open: string, line: string)
    requires '\n' !in line && SplitLines(text) == init + [open]
    ensures SplitLines(text + line) == init + [open + line]
    decreases |line|
  {
    if line == "" {
      assert text + line == text && open + line == open;
    } else {
      OneMoreChar(text, init, open, line[0]);
      LineExtends(text + [line[0]], init, open + [line[0]], line[1..]);
      Regrouped(text, line);
      Regrouped(open, line);
    }
  }

  lemma SpacesTrimAway(line: string)
    ensures Trim(line) == "" ==> AllSpace(line)
  {
    var front, back := TrimMeaning(line);
  }

  lemma LineOpens(before: string, line: string)
    requires before == "" || before[|before| - 1] == '\n'
    requires '\n' !in line && Trim(line) != ""
    ensures LinesOf(before + line) == LinesOf(before) + [Trim(line)]
  {
    var lines := SplitLines(before);
    var init := lines[..|lines| - 1];
    assert lines == init + [""];
    LineExtends(before, init, "", line);
    assert "" + line == line;
    TrimmedAppend(init, "");
    TrimmedAppend(init, line);
  }

  /** A line of its own, with blank text after it, is one line more. */
  lemma LineIsAdded(before: string, line: string, blank: string)
    requires before == "" || before[|before| - 1] == '\n'
    requires '\n' !in line && !AllSpace(line) && AllSpace(blank)
    ensures LinesOf(before + line + blank) == LinesOf(before) + [Trim(line)]
  {
    BlankAddsNothing(before + line, blank);
    SpacesTrimAway(line);
    LineOpens(before, line);
  }

  lemma {:induction false} TextsConcat(a: seq<Part>, b: seq<Part>)
    ensures TextsOf(a + b) == TextsOf(a) + TextsOf(b)
  {
    if b == [] {
      assert a + b == a;
    } else {
      assert (a + b)[..|a + b| - 1] == a + b[..|b| - 1];
      TextsConcat(a, b[..|b| - 1]);
    }
  }

  lemma {:induction false} NoTexts(parts: seq<Part>)
    requires NoText(parts)
    ensures TextsOf(parts) == []
  {
    if parts != [] {
      assert parts[|parts| - 1] in parts;
      NoTexts(parts[..|parts| - 1]);
    }
  }

  lemma TextsBefore(role: string, parts: seq<Part>, text: string, rest: seq<Part>, content: Option<string>)
    requires IsAssistant(role) && NoText(rest)
    ensures AssistantTexts(Message(role, parts + [TextPart(text)] + rest, content)) == TextsOf(parts) + [text]
  {
    AssistantIff(role);
    TextsConcat(parts + [TextPart(text)], rest);
    TextsConcat(parts, [TextPart(text)]);
    NoTexts(rest);
    assert TextsOf([TextPart(text)]) == TextsOf([]) + [text];
  }

  lemma LinesOfLast(texts: seq<string>, text: string)
    ensures LinesOfTexts(texts + [text]) == LinesOfTexts(texts) + LinesOf(text)
  {
    assert (texts + [text])[..|texts|] == texts;
  }

  lemma FinalAdds(a: seq<Message>, f: Final)
    requires f.Valid()
    ensures DocumentLines(a + [f.Whole()]) == DocumentLines(a + [f.Earlier()]) + [Trim(f.line)]
  {
    DocumentAppend(a, f.Whole());
    DocumentAppend(a, f.Earlier());
    TextsBefore(f.role, f.parts, f.before + f.line + f.blank, f.rest, f.content);
    TextsBefore(f.role, f.parts, f.before, f.rest, f.content);
    LinesOfLast(TextsOf(f.parts), f.before + f.line + f.blank);
    LinesOfLast(TextsOf(f.parts), f.before);
    LineIsAdded(f.before, f.line, f.blank);
    ConcatAssociates(DocumentLines(a), LinesOfTexts(TextsOf(f.parts)) + LinesOf(f.before), [Trim(f.line)]);
    ConcatAssociates(LinesOfTexts(TextsOf(f.parts)), LinesOf(f.before), [Trim(f.line)]);
  }

  lemma OneMoreLine(parse: Parser, lines: seq<string>, line: string, r: Option<Ruling>)
    ensures IsLastRuling(parse, lines + [line], r) <==>
      if LineRuling(parse, line) == None then IsLastRuling(parse, lines, r) else r == LineRuling(parse, line)
  {
    var v := LastRulingExists(parse, lines);
    if LineRuling(parse, line) == None {
      LastRulingBeforeSilence(parse, lines, [line], v);
    } else {
      v := LineRuling(parse, line);
      assert IsLastRuling(parse, [line], v) by {
        assert [line][0] == line && [line][1..] == [];
      }
      LastRulingInTail(parse, lines, [line], v);
    }
    if IsLastRuling(parse, lines + [line], r) {
      LastRulingUnique(parse, lines + [line], r, v);
    }
    if LineRuling(parse, line) == None && IsLastRuling(parse, lines, r) {
      LastRulingUnique(parse, lines, r, v);
    }
  }

  /** The last line anyone would read decides: FAIL when it says so, PASS when it says so with enough
      evidence, and otherwise the result is that of what stands before it. */
  lemma FinalLineDecides(parse: Parser, a: seq<Message>, f: Final, r: Option<Ruling>)
    requires f.Valid()
    ensures IsLastRuling(parse, DocumentLines(a + [f.Whole()]), r) <==>
      if SaysFail(parse, f.line) then RulesBy(parse, f.line, "FAIL", r)
      else if SaysPass(parse, f.line) then RulesBy(parse, f.line, "PASS", r)
      else IsLastRuling(parse, DocumentLines(a + [f.Earlier()]), r)
  {
    FinalAdds(a, f);
    OneMoreLine(parse, DocumentLines(a + [f.Earlier()]), Trim(f.line), r);
    LineSays(parse, f.line, r);
  }

  lemma LineSays(parse: Parser, line: string, r: Option<Ruling>)
    ensures LineRuling(parse, Trim(line)) == None <==> !SaysFail(parse, line) && !SaysPass(parse, line)
    ensures SaysFail(parse, line) ==> (r == LineRuling(parse, Trim(line)) <==> RulesBy(parse, line, "FAIL", r))
    ensures SaysPass(parse, line) ==> (r == LineRuling(parse, Trim(line)) <==> RulesBy(parse, line, "PASS", r))
  {
    assert MARKER == "UES_VERDICT_JSON:" && |MARKER| == 17;
    assert "PASS"[0] != "FAIL"[0];
    if ParsedLine(parse, line).Some? {
      Shortening(Trim(ParsedLine(parse, line).value.evidence));
    }
  }

  lemma Shortening(e: string)
    ensures var short := if |e| > MAX_EVIDENCE then e[..MAX_EVIDENCE] else e;
      && (|short| < 3 <==> |e| < 3)
      && forall x: string :: x == short <==> x <= e && |x| == if |e| > 4000 then 4000 else |e|
  {
  }

  /** Text in the `content` field counts when a message has no text parts. */
  lemma ContentCounts(a: seq<Message>, role: string, parts: seq<Part>, text: string)
    requires IsAssistant(role) && NoText(parts)
    ensures DocumentLines(a + [Message(role, parts, Some(text))]) == DocumentLines(a + [Message(role, [TextPart(text)], None)])
  {
    AssistantIff(role);
    NoTexts(parts);
    DocumentAppend(a, Message(role, parts, Some(text)));
    DocumentAppend(a, Message(role, [TextPart(text)], None));
    assert TextsOf([TextPart(text)]) == TextsOf([]) + [text];
  }

  /** The gate likewise; and nothing passes without a message. */
  lemma GateByFinalLine(parse: Parser, a: seq<Message>, f: Final)
    requires f.Valid()
    ensures !GatePasses(parse, [])
    ensures GatePasses(parse, a + [f.Whole()]) <==>
      SaysPass(parse, f.line) || (!SaysFail(parse, f.line) && GatePasses(parse, a + [f.Earlier()]))
  {
    assert "PASS"[0] != "FAIL"[0];
    forall e ensures IsLastRuling(parse, DocumentLines(a + [f.Whole()]), Some(Ruling("PASS", e))) <==>
      if SaysFail(parse, f.line) then false
      else if SaysPass(parse, f.line) then RulesBy(parse, f.line, "PASS", Some(Ruling("PASS", e)))
      else IsLastRuling(parse, DocumentLines(a + [f.Earlier()]), Some(Ruling("PASS", e)))
    {
      FinalLineDecides(parse, a, f, Some(Ruling("PASS", e)));
    }
    if SaysPass(parse, f.line) {
      PassRules(parse, a, f);
    }
  }

  lemma PassRules(parse: Parser, a: seq<Message>, f: Final)
    requires f.Valid() && SaysPass(parse, f.line)
    ensures GatePasses(parse, a + [f.Whole()])
  {
    var r := LineRuling(parse, Trim(f.line));
    LineSays(parse, f.line, r);
    FinalLineDecides(parse, a, f, r);
    assert r == Some(Ruling("PASS", r.value.evidence));
  }

  // ---------- the scan: three descending loops with early return ----------

  method ScanLines(parse: Parser, lines: seq<string>) returns (r: Option<Ruling>)
    ensures IsLastRuling(parse, lines, r)
  {
    var lineIndex := |lines|;
    while lineIndex > 0
      invariant 0 <= lineIndex <= |lines|
      invariant Silent(parse, lines[lineIndex..])
    {
      lineIndex := lineIndex - 1;
      var line := lines[lineIndex];
      if MARKER <= line {
        var parsed := parse(Trim(line[|MARKER|..]));
        if parsed.Some? {
          var trimmed := Trim(parsed.value.evidence);
          var evidence := if |trimmed| > MAX_EVIDENCE then trimmed[..MAX_EVIDENCE] else trimmed;
          if parsed.value.verdict == "PASS" && |evidence| < 3 {
            continue;
          }
          if parsed.value.verdict == "PASS" || parsed.value.verdict == "FAIL" {
            return Some(Ruling(parsed.value.verdict, evidence));
          }
        }
      }
    }
    return None;
  }

  method ScanTexts(parse: Parser, texts: seq<string>) returns (r: Option<Ruling>)
    ensures IsLastRuling(parse, LinesOfTexts(texts), r)
  {
    var partIndex := |texts|;
    assert texts[..|texts|] == texts;
    while partIndex > 0
      invariant 0 <= partIndex <= |texts|
      invariant forall v :: IsLastRuling(parse, LinesOfTexts(texts[..partIndex]), v) ==> IsLastRuling(parse, LinesOfTexts(texts), v)
    {
      partIndex := partIndex - 1;
      var before, lines := texts[..partIndex], LinesOf(texts[partIndex]);
      assert texts[..partIndex + 1][..partIndex] == before;
      r := ScanLines(parse, lines);
      if r.Some? {
        LastRulingInTail(parse, LinesOfTexts(before), lines, r);
        return;
      }
      forall v | IsLastRuling(parse, LinesOfTexts(before), v)
        ensures IsLastRuling(parse, LinesOfTexts(before) + lines, v)
      {
        LastRulingBeforeSilence(parse, LinesOfTexts(before), lines, v);
      }
    }
    r := None;
    assert IsLastRuling(parse, LinesOfTexts(texts[..0]), None);
  }

  predicate EndsWith(messages: seq<Message>, f: Final) {
    messages != [] && messages[|messages| - 1] == f.Whole()
  }

  /** When the last line says FAIL or PASS, that is the ruling. */
  ghost predicate ObeysLastLine(parse: Parser, messages: seq<Message>, r: Option<Ruling>) {
    forall f: Final :: f.Valid() && EndsWith(messages, f) ==>
      && (SaysFail(parse, f.line) ==> RulesBy(parse, f.line, "FAIL", r))
      && (SaysPass(parse, f.line) ==> RulesBy(parse, f.line, "PASS", r))
  }

  lemma LastRulingObeys(parse: Parser, messages: seq<Message>, r: Option<Ruling>)
    requires IsLastRuling(parse, DocumentLines(messages), r)
    ensures ObeysLastLine(parse, messages, r)
  {
    forall f: Final | f.Valid() && EndsWith(messages, f)
      ensures SaysFail(parse, f.line) ==> RulesBy(parse, f.line, "FAIL", r)
      ensures SaysPass(parse, f.line) ==> RulesBy(parse, f.line, "PASS", r)
    {
      assert messages == messages[..|messages| - 1] + [f.Whole()];
      FinalLineDecides(parse, messages[..|messages| - 1], f, r);
    }
  }

  /** The scan returns the last valid verdict line among all assistant text in document order, and
      none exactly when there is no such line. */
  method ExtractVerifierVerdict(parse: Parser, messages: seq<Message>) returns (r: Option<Ruling>)
    ensures IsLastRuling(parse, DocumentLines(messages), r)
    ensures ObeysLastLine(parse, messages, r)
  {
    var messageIndex := |messages|;
    assert messages[..|messages|] == messages;
    while messageIndex > 0
      invariant 0 <= messageIndex <= |messages|
      invariant forall v :: IsLastRuling(parse, DocumentLines(messages[..messageIndex]), v) ==>
        IsLastRuling(parse, DocumentLines(messages), v)
    {
      messageIndex := messageIndex - 1;
      var before := messages[..messageIndex];
      assert messages[..messageIndex + 1][..messageIndex] == before;
      var texts := AssistantTextParts(messages[messageIndex]);
      r := ScanTexts(parse, texts);
      if r.Some? {
        LastRulingInTail(parse, DocumentLines(before), LinesOfTexts(texts), r);
        LastRulingObeys(parse, messages, r);
        return;
      }
      forall v | IsLastRuling(parse, DocumentLines(before), v)
        ensures IsLastRuling(parse, DocumentLines(before) + LinesOfTexts(texts), v)
      {
        LastRulingBeforeSilence(parse, DocumentLines(before), LinesOfTexts(texts), v);
      }
    }
    r := None;
    assert IsLastRuling(parse, DocumentLines(messages[..0]), None);
    LastRulingObeys(parse, messages, r);
  }

  // ---------- consequences ----------

  lemma DocumentAppend(a: seq<Message>, m: Message)
    ensures DocumentLines(a + [m]) == DocumentLines(a) + LinesOfTexts(AssistantTexts(m))
  {
    assert (a + [m])[..|a|] == a;
  }

  lemma ConcatAssociates(a: seq<string>, b: seq<string>, c: seq<string>)
    ensures (a + b) + c == a + (b + c)
  {
  }

  lemma {:induction false} DocumentConcat(a: seq<Message>, b: seq<Message>)
    ensures DocumentLines(a + b) == DocumentLines(a) + DocumentLines(b)
  {
    if b == [] {
      assert a + b == a;
    } else {
      var p, m := b[..|b| - 1], b[|b| - 1];
      assert a + b == (a + p) + [m] && b == p + [m];
      DocumentAppend(a + p, m);
      DocumentAppend(p, m);
      DocumentConcat(a, p);
      ConcatAssociates(DocumentLines(a), DocumentLines(p), LinesOfTexts(AssistantTexts(m)));
    }
  }

  /** Messages without a ruling line, from anyone, never change the verdict when appended. */
  lemma AppendingSilenceChangesNothing(parse: Parser, a: seq<Message>, b: seq<Message>, r: Option<Ruling>)
    requires Silent(parse, DocumentLines(b))
    ensures IsLastRuling(parse, DocumentLines(a + b), r) <==> IsLastRuling(parse, DocumentLines(a), r)
  {
    var da, db := DocumentLines(a), DocumentLines(b);
    DocumentConcat(a, b);
    LastRulingBeforeSilence(parse, da, db, r);
    if IsLastRuling(parse, da + db, r) {
      SilentConcat(parse, da, db);
      var v := LastRulingExists(parse, da);
      LastRulingBeforeSilence(parse, da, db, v);
      LastRulingUnique(parse, da + db, r, v);
    }
  }

  /** Text that is not the assistant's never rules. */
  lemma {:induction false} OthersAreSilent(parse: Parser, messages: seq<Message>)
    requires forall m :: m in messages ==> !IsAssistant(m.role)
    ensures Silent(parse, DocumentLines(messages))
  {
    if messages != [] {
      assert messages[|messages| - 1] in messages;
      OthersAreSilent(parse, messages[..|messages| - 1]);
      AssistantIff(messages[|messages| - 1].role);
      assert AssistantTexts(messages[|messages| - 1]) == [];
    }
  }

  /** So whatever others append, the verdict stays what it was. */
  lemma OthersChangeNothing(parse: Parser, a: seq<Message>, b: seq<Message>, r: Option<Ruling>)
    requires forall m :: m in b ==> !IsAssistant(m.role)
    ensures IsLastRuling(parse, DocumentLines(a + b), r) <==> IsLastRuling(parse, DocumentLines(a), r)
  {
    OthersAreSilent(parse, b);
    AppendingSilenceChangesNothing(parse, a, b, r);
  }

  lemma {:induction false} LastRulingExists(parse: Parser, lines: seq<string>) returns (r: Option<Ruling>)
    ensures IsLastRuling(parse, lines, r)
  {
    r := None;
    if lines != [] {
      var p, x := lines[..|lines| - 1], lines[|lines| - 1];
      assert lines == p + [x];
      if LineRuling(parse, x) == None {
        r := LastRulingExists(parse, p);
        LastRulingBeforeSilence(parse, p, [x], r);
      } else {
        r := LineRuling(parse, x);
        assert IsLastRuling(parse, [x], r) by {
          assert [x][0] == x && [x][1..] == [];
        }
        LastRulingInTail(parse, p, [x], r);
      }
    }
  }

  /** The verifier gate: a transcript lets its task be integrated when its last ruling is PASS. */
  ghost predicate GatePasses(parse: Parser, messages: seq<Message>) {
    exists e :: IsLastRuling(parse, DocumentLines(messages), Some(Ruling("PASS", e)))
  }

  /** A PASS always carries at least three characters of evidence, and none carries more than 4000. */
  lemma PassHasEvidence(parse: Parser, lines: seq<string>, r: Ruling)
    requires IsLastRuling(parse, lines, Some(r))
    ensures r.verdict == "PASS" || r.verdict == "FAIL"
    ensures r.verdict == "PASS" ==> |r.evidence| >= 3
    ensures |r.evidence| <= MAX_EVIDENCE
  {
  }

  /** The worker's check on the verdict: it continues exactly when the gate passes. */
  method CheckVerdict(parse: Parser, messages: seq<Message>) returns (passed: bool, evidence: string)
    ensures passed <==> GatePasses(parse, messages)
    ensures passed ==> |evidence| >= 3 && IsLastRuling(parse, DocumentLines(messages), Some(Ruling("PASS", evidence)))
  {
    var verdict := ExtractVerifierVerdict(parse, messages);
    passed := verdict.Some? && verdict.value.verdict == "PASS";
    evidence := if passed then verdict.value.evidence else "";
    if passed {
      PassHasEvidence(parse, DocumentLines(messages), verdict.value);
      assert verdict == Some(Ruling("PASS", evidence));
    }
    forall e | IsLastRuling(parse, DocumentLines(messages), Some(Ruling("PASS", e)))
      ensures passed
    {
      LastRulingUnique(parse, DocumentLines(messages), verdict, Some(Ruling("PASS", e)));
    }
  }
}
