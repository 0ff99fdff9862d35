/**
 * The few pieces of java.lang.String and java.util.Scanner that the core relies on,
 * written out so that their edge cases (an absent tab, blanks at both ends, the
 * several line terminators) are part of the model.
 */
module JavaText {
  import opened Wrappers

  /** `String.trim` removes every leading and trailing character whose code is at most U+0020. */
  predicate IsTrimSpace(c: char) {
    c <= ' '
  }

  /** The leading half of `String.trim`: the suffix left after the blanks at the front. */
  function TrimStart(s: string): (r: string)
    ensures |r| <= |s| && r == s[|s| - |r|..]
    ensures r == [] || !IsTrimSpace(r[0])
    ensures forall i :: 0 <= i < |s| - |r| ==> IsTrimSpace(s[i])
  {
    if s != [] && IsTrimSpace(s[0]) then TrimStart(s[1..]) else s
  }

  /** The trailing half of `String.trim`: the prefix left after the blanks at the end. */
  function TrimEnd(s: string): (r: string)
    ensures |r| <= |s| && r == s[..|r|]
    ensures r == [] || !IsTrimSpace(r[|r| - 1])
    ensures forall i :: |r| <= i < |s| ==> IsTrimSpace(s[i])
  {
    if s != [] && IsTrimSpace(s[|s| - 1]) then TrimEnd(s[..|s| - 1]) else s
  }

  /** `String.trim`. */
  function Trim(s: string): (r: string)
    ensures |r| <= |s|
    ensures r == [] || (!IsTrimSpace(r[0]) && !IsTrimSpace(r[|r| - 1]))
  {
    TrimEnd(TrimStart(s))
  }

  /** `String.indexOf(c)`: the first position of `c`, or -1 when `c` does not occur. */
  function IndexOf(s: string, c: char): (k: int)
    ensures -1 <= k < |s|
    ensures k == -1 <==> c !in s
    ensures 0 <= k ==> s[k] == c && c !in s[..k]
  {
    if s == [] then -1
    else if s[0] == c then 0
    else
      var k := IndexOf(s[1..], c);
      assert c in s[1..] ==> c in s;
      if k == -1 then -1
      else
        assert s[..k + 1] == [s[0]] + s[1..][..k];
        k + 1
  }

  /** The string a Java `+` concatenation produces for a possibly-null String operand. */
  function ConcatOperand(s: Option<string>): string {
    if s.None? then "null" else s.value
  }

  /** The line terminators `java.util.Scanner.nextLine` recognises ("\r\n" counts as one). */
  predicate IsLineSeparator(c: char) {
    c == '\n' || c == '\r' || c == '\U{2028}' || c == '\U{2029}' || c == '\U{0085}'
  }

  predicate NoLineSeparator(s: string) {
    forall i :: 0 <= i < |s| ==> !IsLineSeparator(s[i])
  }

  /** Position of the first line terminator, or |s| when there is none. */
  function SeparatorIndex(s: string): (k: nat)
    ensures k <= |s|
    ensures k < |s| ==> IsLineSeparator(s[k])
  {
    if s == [] || IsLineSeparator(s[0]) then 0 else SeparatorIndex(s[1..]) + 1
  }

  /** No separator comes before the one `SeparatorIndex` finds. */
  lemma {:induction false} SeparatorIndexIsFirst(s: string)
    ensures NoLineSeparator(s[..SeparatorIndex(s)])
  {
    if s != [] && !IsLineSeparator(s[0]) {
      var k := SeparatorIndex(s[1..]);
      SeparatorIndexIsFirst(s[1..]);
      assert s[..k + 1] == [s[0]] + s[1..][..k];
    }
  }

  /** What ends a line `Scanner.nextLine` hands out: one of its terminators, or the end of the text. */
  datatype Terminator = CrLf | Lf | Cr | LineSeparator | ParagraphSeparator | NextLine | EndOfText
  {
    /** How many characters the terminator takes up in the text. */
    function Width(): nat {
      if this == CrLf then 2 else if this == EndOfText then 0 else 1
    }

    /** The characters the terminator stands for in the text. */
    function Text(): (r: string)
      ensures |r| == Width()
    {
      match this
      case CrLf => "\r\n"
      case Lf => "\n"
      case Cr => "\r"
      case LineSeparator => "\U{2028}"
      case ParagraphSeparator => "\U{2029}"
      case NextLine => "\U{0085}"
      case EndOfText => []
    }
  }

  /** The terminator ending the first line of `text`; "\r\n" counts as one. */
  function FirstTerminator(text: string): (t: Terminator)
    ensures SeparatorIndex(text) + t.Width() <= |text|
    ensures t == EndOfText <==> SeparatorIndex(text) == |text|
  {
    var k := SeparatorIndex(text);
    if k == |text| then EndOfText
    else if text[k] == '\r' then (if k + 1 < |text| && text[k + 1] == '\n' then CrLf else Cr)
    else if text[k] == '\n' then Lf
    else if text[k] == '\U{2028}' then LineSeparator
    else if text[k] == '\U{2029}' then ParagraphSeparator
    else NextLine
  }

  /** The terminator's characters are the text right after the first line. */
  lemma FirstTerminatorInPlace(text: string)
    ensures var k, t := SeparatorIndex(text), FirstTerminator(text);
      text == text[..k] + t.Text() + text[k + t.Width()..]
  {
    var k, t := SeparatorIndex(text), FirstTerminator(text);
    assert t.Text() == text[k..k + t.Width()];
  }

  /** A lone "\r" terminator is never directly followed by "\n". */
  lemma LoneCrNotBeforeLf(text: string)
    ensures var k := SeparatorIndex(text);
      FirstTerminator(text) == Cr ==> k + 1 == |text| || text[k + 1] != '\n'
  {
  }

  /**
   * The lines a Scanner hands out while `hasNextLine()` holds: the text up to each
   * terminator, plus a final unterminated line when text is left after the last one.
   */
  function ScannerLines(text: string): (lines: seq<string>)
    decreases |text|
    ensures |lines| <= |text|
    ensures text != [] ==> lines != []
  {
    if text == [] then []
    else
      var k := SeparatorIndex(text);
      [text[..k]] + ScannerLines(text[k + FirstTerminator(text).Width()..])
  }

  /** No line the Scanner hands out contains a line separator. */
  lemma {:induction false} ScannerLinesHaveNoSeparator(text: string)
    decreases |text|
    ensures forall i :: 0 <= i < |ScannerLines(text)| ==> NoLineSeparator(ScannerLines(text)[i])
  {
    if text != [] {
      var k := SeparatorIndex(text);
      var rest := text[k + FirstTerminator(text).Width()..];
      ScannerLinesHaveNoSeparator(rest);
      SeparatorIndexIsFirst(text);
      var lines, lines' := ScannerLines(text), ScannerLines(rest);
      forall i | 0 <= i < |lines|
        ensures NoLineSeparator(lines[i])
      {
        if i > 0 {
          assert lines[i] == lines'[i - 1];
        }
      }
    }
  }

  /** The terminator the Scanner strips after each of the lines `ScannerLines` gives. */
  function ScannerTerminators(text: string): (ts: seq<Terminator>)
    decreases |text|
    ensures |ts| == |ScannerLines(text)|
  {
    if text == [] then []
    else
      var t := FirstTerminator(text);
      [t] + ScannerTerminators(text[SeparatorIndex(text) + t.Width()..])
  }

  /** Each line followed by the characters of its terminator, in order. */
  function Interleave(lines: seq<string>, ts: seq<Terminator>): string
    requires |lines| == |ts|
  {
    if lines == [] then [] else lines[0] + ts[0].Text() + Interleave(lines[1..], ts[1..])
  }

  /** The Scanner's lines, each followed by the terminator it stripped, give back the text. */
  lemma {:induction false} ScannerLinesRoundTrip(text: string)
    decreases |text|
    ensures Interleave(ScannerLines(text), ScannerTerminators(text)) == text
  {
    if text != [] {
      var k, t := SeparatorIndex(text), FirstTerminator(text);
      var rest := text[k + t.Width()..];
      ScannerLinesRoundTrip(rest);
      FirstTerminatorInPlace(text);
      var lines, ts := ScannerLines(text), ScannerTerminators(text);
      assert lines[0] == text[..k] && lines[1..] == ScannerLines(rest);
      assert ts[0] == t && ts[1..] == ScannerTerminators(rest);
      assert Interleave(lines, ts) == text[..k] + t.Text() + Interleave(ScannerLines(rest), ScannerTerminators(rest));
    }
  }

  /** Only the last line may run to the end of the text, and then it is not empty. */
  predicate TerminatorsWellFormed(lines: seq<string>, ts: seq<Terminator>)
    requires |lines| == |ts|
  {
    forall i :: 0 <= i < |ts| && ts[i] == EndOfText ==> i == |ts| - 1 && lines[i] != []
  }

  /** A terminated line, or a non-empty last line, extends a well-formed split. */
  lemma TerminatorsWellFormedCons(line: string, t: Terminator, lines: seq<string>, ts: seq<Terminator>)
    requires |lines| == |ts| && TerminatorsWellFormed(lines, ts)
    requires t == EndOfText ==> lines == [] && line != []
    ensures TerminatorsWellFormed([line] + lines, [t] + ts)
  {
    var lines1, ts1 := [line] + lines, [t] + ts;
    forall i | 0 <= i < |ts1| && ts1[i] == EndOfText
      ensures i == |ts1| - 1 && lines1[i] != []
    {
      if i > 0 {
        assert ts1[i] == ts[i - 1] && lines1[i] == lines[i - 1];
      }
    }
  }

  /** The Scanner's split of any text is well formed. */
  lemma {:induction false} ScannerTerminatorsWellFormed(text: string)
    decreases |text|
    ensures TerminatorsWellFormed(ScannerLines(text), ScannerTerminators(text))
  {
    if text != [] {
      var k := SeparatorIndex(text);
      var t := FirstTerminator(text);
      var rest := text[k + t.Width()..];
      ScannerTerminatorsWellFormed(rest);
      if t == EndOfText {
        assert rest == [] && text[..k] == text;
      }
      TerminatorsWellFormedCons(text[..k], t, ScannerLines(rest), ScannerTerminators(rest));
    }
  }

  /** No lone "\r" terminator is followed by an empty line ended by "\n". */
  predicate CrLfKept(lines: seq<string>, ts: seq<Terminator>)
    requires |lines| == |ts|
  {
    forall i :: 0 <= i < |ts| - 1 && ts[i] == Cr ==> !(lines[i + 1] == [] && ts[i + 1] == Lf)
  }

  /** A line whose lone "\r" is not followed by an empty "\n" line extends a split that keeps "\r\n" together. */
  lemma CrLfKeptCons(line: string, t: Terminator, lines: seq<string>, ts: seq<Terminator>)
    requires |lines| == |ts| && CrLfKept(lines, ts)
    requires t == Cr && lines != [] ==> !(lines[0] == [] && ts[0] == Lf)
    ensures CrLfKept([line] + lines, [t] + ts)
  {
    var lines1, ts1 := [line] + lines, [t] + ts;
    forall i | 0 <= i < |ts1| - 1 && ts1[i] == Cr
      ensures !(lines1[i + 1] == [] && ts1[i + 1] == Lf)
    {
      assert lines1[i + 1] == lines[i] && ts1[i + 1] == ts[i];
      if i > 0 {
        assert ts1[i] == ts[i - 1];
      }
    }
  }

  /** After a stripped lone "\r", the next line is not an empty one ended by "\n". */
  lemma CrNotSplitFromLf(text: string)
    requires text != []
    ensures var rest := text[SeparatorIndex(text) + FirstTerminator(text).Width()..];
      FirstTerminator(text) == Cr && ScannerLines(rest) != [] ==>
        !(ScannerLines(rest)[0] == [] && ScannerTerminators(rest)[0] == Lf)
  {
    var k, t := SeparatorIndex(text), FirstTerminator(text);
    var rest := text[k + t.Width()..];
    if t == Cr && rest != [] {
      assert text[k + 1] == rest[0];
      assert ScannerLines(rest)[0] == rest[..SeparatorIndex(rest)];
      assert ScannerTerminators(rest)[0] == FirstTerminator(rest);
    }
  }

  /** A "\r" the Scanner strips is never separated from a "\n" right after it. */
  lemma {:induction false} ScannerKeepsCrLfTogether(text: string)
    decreases |text|
    ensures CrLfKept(ScannerLines(text), ScannerTerminators(text))
  {
    if text != [] {
      var k, t := SeparatorIndex(text), FirstTerminator(text);
      var rest := text[k + t.Width()..];
      ScannerKeepsCrLfTogether(rest);
      CrNotSplitFromLf(text);
      CrLfKeptCons(text[..k], t, ScannerLines(rest), ScannerTerminators(rest));
    }
  }
}
