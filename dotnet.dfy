/** The few pieces of the .NET base library that the generator relies on:
    string.IsNullOrWhiteSpace, string.ToLower (ASCII only), Int32.ToString
    and Boolean.ToString, and the exceptions the generator throws. */
module DotNet {
  import opened Wrappers

  /** The exceptions that can escape from the modelled code. */
  datatype Exception =
    | ArgumentException(message: string)
    | NullReferenceException

  /** char.IsWhiteSpace: the Unicode White_Space characters. */
  predicate IsWhiteSpace(c: char) {
    var n := c as int;
    (9 <= n <= 13) || n == 32 || n == 0x85 || n == 0xA0 || n == 0x1680
    || (0x2000 <= n <= 0x200A) || n == 0x2028 || n == 0x2029
    || n == 0x202F || n == 0x205F || n == 0x3000
  }

  /** string.IsNullOrWhiteSpace: null, empty, or whitespace only. */
  predicate IsNullOrWhiteSpace(s: Option<string>) {
    s.None? || forall i :: 0 <= i < |s.value| ==> IsWhiteSpace(s.value[i])
  }

  predicate IsAsciiUpper(c: char) {
    'A' <= c <= 'Z'
  }

  /** char.ToLower restricted to ASCII: 'A'..'Z' become 'a'..'z', all else is kept. */
  function LowerChar(c: char): (r: char)
    ensures !IsAsciiUpper(r)
    ensures IsAsciiUpper(c) ==> r as int == c as int + 32
    ensures !IsAsciiUpper(c) ==> r == c
  {
    if IsAsciiUpper(c) then (c as int + 32) as char else c
  }

  /** string.ToLower, character by character. */
  function ToLower(s: string): (r: string)
    ensures |r| == |s|
    ensures forall i :: 0 <= i < |s| ==> r[i] == LowerChar(s[i])
  {
    if s == [] then [] else [LowerChar(s[0])] + ToLower(s[1..])
  }

  /** A string without upper-case letters is its own lower-case form. */
  lemma ToLowerUnchanged(s: string)
    requires forall i :: 0 <= i < |s| ==> !IsAsciiUpper(s[i])
    ensures ToLower(s) == s
  {
    assert forall i :: 0 <= i < |s| ==> ToLower(s)[i] == s[i];
  }

  /** Lower-casing twice is lower-casing once. */
  lemma {:induction false} ToLowerIdempotent(s: string)
    ensures ToLower(ToLower(s)) == ToLower(s)
  {
    var once := ToLower(s);
    assert forall i :: 0 <= i < |once| ==> ToLower(once)[i] == once[i];
  }

  /** Lower-casing never changes whether a string is blank, because no
      whitespace character is an ASCII letter. */
  lemma BlankUnderLower(a: string, b: string)
    requires ToLower(a) == ToLower(b)
    ensures IsNullOrWhiteSpace(Some(a)) <==> IsNullOrWhiteSpace(Some(b))
  {
    forall i | 0 <= i < |a|
      ensures IsWhiteSpace(a[i]) <==> IsWhiteSpace(b[i])
    {
      assert LowerChar(a[i]) == LowerChar(b[i]);
    }
  }

  function Digit(d: nat): (c: char)
    requires d < 10
    ensures '0' <= c <= '9'
  {
    "0123456789"[d]
  }

  function DigitValue(c: char): nat
    requires '0' <= c <= '9'
  {
    c as int - '0' as int
  }

  /** The decimal digits of a natural number, most significant first, no leading zeros. */
  function NatToString(n: nat): (r: string)
    ensures |r| > 0
    ensures forall i :: 0 <= i < |r| ==> '0' <= r[i] <= '9'
    ensures |r| > 1 ==> r[0] != '0'
    decreases n
  {
    if n < 10 then [Digit(n)] else NatToString(n / 10) + [Digit(n % 10)]
  }

  /** Int32.ToString() under the invariant culture: an optional '-' and the digits. */
  function IntToString(n: int): string {
    if n < 0 then "-" + NatToString(-n) else NatToString(n)
  }

  predicate IsDigits(s: string) {
    forall i :: 0 <= i < |s| ==> '0' <= s[i] <= '9'
  }

  /** The value of a string of decimal digits. */
  function ParseNat(s: string): nat
    requires IsDigits(s)
  {
    if s == [] then 0 else 10 * ParseNat(s[..|s| - 1]) + DigitValue(s[|s| - 1])
  }

  /** Reads back what IntToString prints; None for anything else. */
  function ParseInt(s: string): Option<int> {
    if |s| > 0 && s[0] == '-' && IsDigits(s[1..]) then Some(0 - ParseNat(s[1..]) as int)
    else if IsDigits(s) then Some(ParseNat(s))
    else None
  }

  lemma {:induction false} NatToStringRoundTrip(n: nat)
    ensures ParseNat(NatToString(n)) == n
    decreases n
  {
    var r := NatToString(n);
    if n >= 10 {
      NatToStringRoundTrip(n / 10);
      assert r[..|r| - 1] == NatToString(n / 10);
    }
  }

  /** Printing an int and reading it back gives the same int. */
  lemma IntToStringRoundTrip(n: int)
    ensures ParseInt(IntToString(n)) == Some(n)
  {
    var m: nat := if n < 0 then -n else n;
    var digits := NatToString(m);
    NatToStringRoundTrip(m);
    assert IsDigits(digits);
    if n < 0 {
      assert ("-" + digits)[1..] == digits;
    } else {
      assert digits[0] != '-';
    }
  }

  /** Boolean.ToString(). */
  function BoolToString(b: bool): string {
    if b then "True" else "False"
  }

  /** Environment.NewLine, fixed to one character. */
  const NewLine: string := "\n"

  /** The text of completed lines: each line followed by NewLine. */
  function JoinLines(lines: seq<string>): (text: string)
    ensures lines != [] ==> |text| > 0 && text[|text| - 1] == '\n'
  {
    if lines == [] then "" else JoinLines(lines[..|lines| - 1]) + lines[|lines| - 1] + NewLine
  }

  lemma AppendLineStep(lines: seq<string>, line: string)
    ensures JoinLines(lines + [line]) == JoinLines(lines) + line + NewLine
  {
    assert (lines + [line])[..|lines|] == lines;
  }

  /** The first position of c in s, or |s| when there is none. */
  function IndexOf(s: string, c: char): (k: nat)
    ensures k <= |s|
    ensures forall j :: 0 <= j < k ==> s[j] != c
    ensures k < |s| ==> s[k] == c
  {
    if s == [] then 0 else if s[0] == c then 0 else 1 + IndexOf(s[1..], c)
  }

  lemma IndexOfAfter(a: string, c: char, b: string)
    requires forall j :: 0 <= j < |a| ==> a[j] != c
    ensures IndexOf(a + [c] + b, c) == |a|
  {
    var s := a + [c] + b;
    var k := IndexOf(s, c);
    assert s[|a|] == c;
    assert forall j :: 0 <= j < |a| ==> s[j] == a[j];
  }

  predicate NoLineBreak(s: string) {
    forall j :: 0 <= j < |s| ==> s[j] != '\n'
  }

  lemma NoLineBreakConcat(a: string, b: string)
    ensures NoLineBreak(a + b) <==> NoLineBreak(a) && NoLineBreak(b)
  {
    assert forall j :: 0 <= j < |a| ==> a[j] == (a + b)[j];
    assert forall j :: 0 <= j < |b| ==> b[j] == (a + b)[|a| + j];
    assert forall j :: |a| <= j < |a + b| ==> (a + b)[j] == b[j - |a|];
  }

  lemma NoLineBreaksConcat(a: seq<string>, b: seq<string>)
    requires NoLineBreaks(a) && NoLineBreaks(b)
    ensures NoLineBreaks(a + b)
  {
    assert forall i :: |a| <= i < |a + b| ==> (a + b)[i] == b[i - |a|];
  }

  lemma NoLineBreaksConcat3(a: seq<string>, b: seq<string>, c: seq<string>)
    requires NoLineBreaks(a) && NoLineBreaks(b) && NoLineBreaks(c)
    ensures NoLineBreaks(a + b + c)
  {
    NoLineBreaksConcat(a, b);
    NoLineBreaksConcat(a + b, c);
  }

  /** Lines without a line break inside them. */
  predicate NoLineBreaks(lines: seq<string>) {
    forall i :: 0 <= i < |lines| ==> NoLineBreak(lines[i])
  }

  /** Reads a text of NewLine-terminated lines back into its lines; a last
      line without a NewLine is kept as it is. */
  function SplitLines(text: string): seq<string>
    decreases |text|
  {
    if text == [] then []
    else
      var k := IndexOf(text, '\n');
      if k == |text| then [text] else [text[..k]] + SplitLines(text[k + 1..])
  }

  /** JoinLines, unfolded from the front. */
  lemma {:induction false} JoinLinesFront(line: string, rest: seq<string>)
    ensures JoinLines([line] + rest) == line + NewLine + JoinLines(rest)
    decreases |rest|
  {
    if rest == [] {
      assert ([line] + rest)[..0] == [];
      assert [line] + rest == [line];
    } else {
      var n := |rest| - 1;
      var all := [line] + rest;
      assert all[..n + 1] == [line] + rest[..n];
      assert all[n + 1] == rest[n];
      calc {
        JoinLines(all);
        JoinLines([line] + rest[..n]) + rest[n] + NewLine;
        { JoinLinesFront(line, rest[..n]); }
        line + NewLine + JoinLines(rest[..n]) + rest[n] + NewLine;
        line + NewLine + (JoinLines(rest[..n]) + rest[n] + NewLine);
        line + NewLine + JoinLines(rest);
      }
    }
  }

  /** SplitLines undoes JoinLines as long as no line holds a line break. */
  lemma {:induction false} SplitJoinLines(lines: seq<string>)
    requires NoLineBreaks(lines)
    ensures SplitLines(JoinLines(lines)) == lines
    decreases |lines|
  {
    if lines != [] {
      var rest := lines[1..];
      assert lines == [lines[0]] + rest;
      JoinLinesFront(lines[0], rest);
      var text := JoinLines(lines);
      assert text == lines[0] + ['\n'] + JoinLines(rest);
      IndexOfAfter(lines[0], '\n', JoinLines(rest));
      assert text[..|lines[0]|] == lines[0];
      assert text[|lines[0]| + 1..] == JoinLines(rest);
      SplitJoinLines(rest);
    }
  }

  /** System.Text.StringBuilder, seen as the lines completed so far and the
      text of the line in progress. */
  class StringBuilder {
    var text: string
    ghost var lines: seq<string>
    ghost var pending: string

    ghost predicate Valid()
      reads this
    {
      text == JoinLines(lines) + pending
    }

    constructor ()
      ensures Valid() && lines == [] && pending == ""
    {
      text := "";
      lines := [];
      pending := "";
    }

    /** Append and AppendFormat (the caller formats): extend the line in progress. */
    method Append(s: string)
      requires Valid()
      modifies this
      ensures Valid()
      ensures lines == old(lines) && pending == old(pending) + s
      // the case of an empty line in progress, spelled out for callers
      ensures old(pending) == "" ==> pending == s
    {
      if pending == "" {
        assert pending + s == s;
      }
      text := text + s;
      pending := pending + s;
    }

    /** AppendLine(s): finish the line in progress with s and NewLine. */
    method AppendLine(s: string)
      requires Valid()
      modifies this
      ensures Valid()
      ensures lines == old(lines) + [old(pending) + s] && pending == ""
      // AppendLine(s) on a fresh line, and AppendLine() after Append, spelled out for callers
      ensures old(pending) == "" ==> lines == old(lines) + [s]
      ensures s == "" ==> lines == old(lines) + [old(pending)]
    {
      AppendLineStep(lines, pending + s);
      if pending == "" {
        assert pending + s == s;
      }
      if s == "" {
        assert pending + s == pending;
      }
      text := text + s + NewLine;
      lines := lines + [pending + s];
      pending := "";
    }

    /** ToString: everything appended so far. */
    function ToString(): (s: string)
      reads this
      requires Valid()
      ensures s == JoinLines(lines) + pending
      ensures pending == "" ==> s == JoinLines(lines)
    {
      assert JoinLines(lines) + "" == JoinLines(lines);
      text
    }
  }
}
