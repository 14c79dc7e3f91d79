/** String operations the plugin takes from JavaScript. */
module Text {

  datatype Option<+T> = None | Some(value: T)

  lemma EmptyOrMember<T(!new)>(s: seq<T>)
    ensures s == [] || exists x :: x in s
  {
    if s != [] {
      assert s[0] in s;
    }
  }

  /** The characters `String.prototype.trim` removes. */
  predicate IsSpace(c: char) {
    var n := c as int;
    || 0x09 <= n <= 0x0D || n == 0x20 || n == 0xA0 || n == 0x1680 || 0x2000 <= n <= 0x200A
    || n == 0x2028 || n == 0x2029 || n == 0x202F || n == 0x205F || n == 0x3000 || n == 0xFEFF
  }

  function TrimEnd(s: string): string {
    if s != "" && IsSpace(s[|s| - 1]) then TrimEnd(s[..|s| - 1]) else s
  }

  function TrimStart(s: string): string {
    if s != "" && IsSpace(s[0]) then TrimStart(s[1..]) else s
  }

  function Trim(s: string): string {
    TrimStart(TrimEnd(s))
  }

  predicate AllSpace(s: string) {
    forall c :: c in s ==> IsSpace(c)
  }

  lemma {:induction false} TrimEndMeaning(s: string)
    ensures TrimEnd(s) <= s && AllSpace(s[|TrimEnd(s)|..])
    ensures TrimEnd(s) != "" ==> !IsSpace(TrimEnd(s)[|TrimEnd(s)| - 1])
  {
    if s != "" && IsSpace(s[|s| - 1]) {
      TrimEndMeaning(s[..|s| - 1]);
    }
  }

  lemma {:induction false} TrimStartMeaning(s: string)
    ensures |TrimStart(s)| <= |s| && s[|s| - |TrimStart(s)|..] == TrimStart(s) && AllSpace(s[..|s| - |TrimStart(s)|])
    ensures TrimStart(s) != "" ==> !IsSpace(TrimStart(s)[0])
  {
    if s != "" && IsSpace(s[0]) {
      TrimStartMeaning(s[1..]);
      assert s[1..][..|s[1..]| - |TrimStart(s)|] == s[1..|s| - |TrimStart(s)|];
    }
  }

  /** Trimming takes off spaces at both ends, and all of them. */
  lemma TrimMeaning(s: string) returns (front: string, back: string)
    ensures s == front + Trim(s) + back && AllSpace(front) && AllSpace(back)
    ensures Trim(s) != "" ==> !IsSpace(Trim(s)[0]) && !IsSpace(Trim(s)[|Trim(s)| - 1])
  {
    var e := TrimEnd(s);
    TrimEndMeaning(s);
    TrimStartMeaning(e);
    front, back := e[..|e| - |Trim(s)|], s[|e|..];
  }

  function DropCarriageReturn(line: string): string {
    if line != "" && line[|line| - 1] == '\r' then line[..|line| - 1] else line
  }

  /** One more character ends the open line, or extends it. */
  function PushChar(before: seq<string>, c: char): (lines: seq<string>)
    requires before != []
    ensures lines != []
  {
    var open := before[|before| - 1];
    if c == '\n' then before[..|before| - 1] + [DropCarriageReturn(open), ""]
    else before[..|before| - 1] + [open + [c]]
  }

  /** Splitting on a line feed with an optional carriage return before it. */
  function SplitLines(s: string): (lines: seq<string>)
    ensures lines != []
  {
    if s == "" then [""] else PushChar(SplitLines(s[..|s| - 1]), s[|s| - 1])
  }

  function LowerAscii(s: string): string {
    if s == "" then ""
    else [if 'A' <= s[0] <= 'Z' then (s[0] as int + 32) as char else s[0]] + LowerAscii(s[1..])
  }
}
