/** Two self-contained helpers of the source generator
    (Realm.Search.SourceGenerator/Utils.cs): `Indent`, which indents every non-empty line
    of a text, and `IsAutomaticProperty`, which recognises a property declared without
    accessor bodies. `Environment.NewLine` is the parameter `newLine`; the Roslyn syntax
    tree is reduced to what `IsAutomaticProperty` asks of it. */
module SourceGeneratorUtils {
  import opened Wrappers

  // ------------------------------------------------------------ 32-bit arithmetic

  const Int32Min := -0x8000_0000
  const Int32Max := 0x7FFF_FFFF

  /** An `int` of the source. */
  predicate IsInt32(x: int)
  {
    Int32Min <= x <= Int32Max
  }

  /** Unchecked 32-bit two's-complement arithmetic: the value `x` wraps around to. */
  function Wrap32(x: int): (r: int)
    ensures IsInt32(r)
    ensures IsInt32(x) ==> r == x
    ensures (r - x) % 0x1_0000_0000 == 0
  {
    (x + 0x8000_0000) % 0x1_0000_0000 - 0x8000_0000
  }

  // ------------------------------------------------------------ Split and Join

  /** `str.Split(new[] { sep }, StringSplitOptions.None)`: the pieces between the
      occurrences of `sep`, found from left to right without overlap. */
  function Split(s: string, sep: string): (r: seq<string>)
    requires |sep| > 0
    ensures |r| >= 1
    decreases |s|
  {
    if |sep| <= |s| && s[..|sep|] == sep then [""] + Split(s[|sep|..], sep)
    else if s == [] then [""]
    else
      var rest := Split(s[1..], sep);
      [[s[0]] + rest[0]] + rest[1..]
  }

  /** The pieces with `sep` between each two of them. */
  function Join(pieces: seq<string>, sep: string): string
    requires |pieces| >= 1
    decreases |pieces|
  {
    if |pieces| == 1 then pieces[0] else pieces[0] + sep + Join(pieces[1..], sep)
  }

  /** Joining the pieces of a split gives back the text split. */
  lemma {:induction false} JoinSplit(s: string, sep: string)
    requires |sep| > 0
    ensures Join(Split(s, sep), sep) == s
    decreases |s|, 1
  {
    if |sep| <= |s| && s[..|sep|] == sep {
      JoinSplitAtSeparator(s, sep);
    } else if s != [] {
      JoinSplitAtChar(s, sep);
    }
  }

  /** The case of a text that starts with the separator. */
  lemma {:induction false} JoinSplitAtSeparator(s: string, sep: string)
    requires |sep| > 0 && |sep| <= |s| && s[..|sep|] == sep
    ensures Join(Split(s, sep), sep) == s
    decreases |s|, 0
  {
    JoinSplit(s[|sep|..], sep);
    var rest := Split(s[|sep|..], sep);
    assert Split(s, sep) == [""] + rest;
    assert ([""] + rest)[1..] == rest;
    assert s == sep + s[|sep|..];
  }

  /** The case of a text that starts with a character not beginning a separator. */
  lemma {:induction false} JoinSplitAtChar(s: string, sep: string)
    requires |sep| > 0 && s != [] && !(|sep| <= |s| && s[..|sep|] == sep)
    ensures Join(Split(s, sep), sep) == s
    decreases |s|, 0
  {
    var rest := Split(s[1..], sep);
    JoinSplit(s[1..], sep);
    assert Split(s, sep) == [[s[0]] + rest[0]] + rest[1..];
    JoinFirstChar(s[0], rest, sep);
    assert s == [s[0]] + s[1..];
  }

  /** A character in front of the first piece is in front of the joined pieces. */
  lemma JoinFirstChar(c: char, pieces: seq<string>, sep: string)
    requires |pieces| >= 1
    ensures Join([[c] + pieces[0]] + pieces[1..], sep) == [c] + Join(pieces, sep)
  {
    var extended := [[c] + pieces[0]] + pieces[1..];
    if |pieces| > 1 {
      assert extended[1..] == pieces[1..];
      assert Join(extended, sep) == ([c] + pieces[0]) + sep + Join(pieces[1..], sep);
    }
  }

  /** Joining with one more piece at the end. */
  lemma {:induction false} JoinSnoc(pieces: seq<string>, last: string, sep: string)
    requires |pieces| >= 1
    ensures Join(pieces + [last], sep) == Join(pieces, sep) + sep + last
    decreases |pieces|
  {
    if |pieces| > 1 {
      JoinSnoc(pieces[1..], last, sep);
      assert (pieces + [last])[1..] == pieces[1..] + [last];
    }
  }

  /** What `StringBuilder.AppendLine` leaves after each piece: every piece followed by
      `newLine`. */
  function Lines(pieces: seq<string>, newLine: string): string
    decreases |pieces|
  {
    if pieces == [] then "" else Lines(pieces[..|pieces| - 1], newLine) + pieces[|pieces| - 1] + newLine
  }

  /** One line per piece is the joined pieces and a final line break. */
  lemma {:induction false} LinesJoin(pieces: seq<string>, newLine: string)
    requires |pieces| >= 1
    ensures Lines(pieces, newLine) == Join(pieces, newLine) + newLine
    decreases |pieces|
  {
    if |pieces| > 1 {
      var init := pieces[..|pieces| - 1];
      LinesJoin(init, newLine);
      JoinSnoc(init, pieces[|pieces| - 1], newLine);
      assert init + [pieces[|pieces| - 1]] == pieces;
    }
  }

  /** `sb.Remove(sb.Length - newLine.Length, newLine.Length)` after one line per piece
      leaves the joined pieces. */
  lemma DropLastLineBreak(pieces: seq<string>, newLine: string)
    requires |pieces| >= 1
    ensures |Lines(pieces, newLine)| >= |newLine|
    ensures Lines(pieces, newLine)[..|Lines(pieces, newLine)| - |newLine|] == Join(pieces, newLine)
  {
    LinesJoin(pieces, newLine);
  }

  // ------------------------------------------------------------ Indent

  /** `new string(' ', n)` */
  function Spaces(n: nat): (r: string)
    ensures |r| == n && forall i :: 0 <= i < n ==> r[i] == ' '
  {
    seq(n, _ => ' ')
  }

  /** The lines with `width` spaces in front of each non-empty one. */
  function Indented(lines: seq<string>, width: nat): (r: seq<string>)
    ensures |r| == |lines|
    ensures forall i :: 0 <= i < |lines| ==> r[i] == if lines[i] == "" then "" else Spaces(width) + lines[i]
  {
    seq(|lines|, i requires 0 <= i < |lines| => if lines[i] == "" then "" else Spaces(width) + lines[i])
  }

  /** `char.IsWhiteSpace`: the separators of the Unicode categories Zs, Zl and Zp, and the
      control characters U+0009 to U+000D and U+0085. */
  predicate IsWhiteSpace(c: char)
  {
    c == ' ' || ('\t' <= c <= '\r') || c == '\U{85}' || c == '\U{A0}' || c == '\U{1680}'
    || ('\U{2000}' <= c <= '\U{200A}') || c == '\U{2028}' || c == '\U{2029}' || c == '\U{202F}'
    || c == '\U{205F}' || c == '\U{3000}'
  }

  /** `TrimEnd()`: the text without its trailing white space. */
  function TrimEnd(s: string): (r: string)
    ensures r <= s
    ensures r == [] || !IsWhiteSpace(r[|r| - 1])
    ensures forall i :: |r| <= i < |s| ==> IsWhiteSpace(s[i])
    decreases |s|
  {
    if s != [] && IsWhiteSpace(s[|s| - 1]) then TrimEnd(s[..|s| - 1]) else s
  }

  /** What `Indent` returns: the lines of the text, each non-empty one behind
      `indents * 4` spaces (in unchecked 32-bit arithmetic), joined again, and trimmed at
      the end when asked; a negative width is refused by `new string`. */
  function IndentResult(str: string, indents: int, trimNewLines: bool, newLine: string): Result<string>
    requires |newLine| > 0
  {
    var width := Wrap32(indents * 4);
    if width < 0 then Failure(ArgumentOutOfRange("count"))
    else
      var joined := Join(Indented(Split(str, newLine), width), newLine);
      Success(if trimNewLines then TrimEnd(joined) else joined)
  }

  /** One line is appended to what the lines before it left. */
  lemma LinesStep(pieces: seq<string>, i: nat, newLine: string)
    requires i < |pieces|
    ensures Lines(pieces[..i + 1], newLine) == Lines(pieces[..i], newLine) + pieces[i] + newLine
  {
    assert pieces[..i + 1][..i] == pieces[..i];
  }

  lemma AppendAssociates(a: string, b: string, c: string)
    ensures (a + b) + c == a + (b + c)
  {
  }

  /** The loop of `Indent`: `AppendLine` of every line, behind `indentString` when it is
      not empty. */
  method AppendIndented(lines: seq<string>, width: nat, newLine: string) returns (sb: string)
    ensures sb == Lines(Indented(lines, width), newLine)
  {
    var indentString := Spaces(width);
    sb := "";
    ghost var indented := Indented(lines, width);
    var i := 0;
    while i < |lines|
      invariant 0 <= i <= |lines|
      invariant sb == Lines(indented[..i], newLine)
    {
      LinesStep(indented, i, newLine);
      ghost var before := sb;
      if lines[i] != "" {
        sb := sb + indentString;
        AppendAssociates(before, indentString, lines[i]);
      }
      assert sb + lines[i] == before + indented[i];
      sb := sb + lines[i] + newLine;
      i := i + 1;
    }
    assert indented[..|lines|] == indented;
  }

  /** `Indent(str, indents = 1, trimNewLines = false)` */
  method Indent(str: string, newLine: string, indents: int := 1, trimNewLines: bool := false) returns (r: Result<string>)
    requires IsNewLine(newLine)
    requires IsInt32(indents)
    ensures r == IndentResult(str, indents, trimNewLines, newLine)
  {
    var width := Wrap32(indents * 4);
    if width < 0 {
      return Failure(ArgumentOutOfRange("count"));
    }
    var lines := Split(str, newLine);
    var sb := AppendIndented(lines, width, newLine);
    DropLastLineBreak(Indented(lines, width), newLine);
    sb := sb[..|sb| - |newLine|];
    if trimNewLines {
      sb := TrimEnd(sb);
    }
    return Success(sb);
  }

  /** `Environment.NewLine`: a line feed, or a carriage return and a line feed. */
  predicate IsNewLine(newLine: string)
  {
    newLine == "\n" || newLine == "\r\n"
  }

  /** `sep` occurs in `p` at index `k`. */
  predicate OccursAt(p: string, k: nat, sep: string)
  {
    k + |sep| <= |p| && p[k..k + |sep|] == sep
  }

  /** `sep` occurs nowhere in `p`. */
  ghost predicate SeparatorFree(p: string, sep: string)
  {
    forall k: nat :: !OccursAt(p, k, sep)
  }

  /** What is free of `sep` stays free when its first character is dropped. */
  lemma DropFirstFree(p: string, sep: string)
    requires p != [] && SeparatorFree(p, sep)
    ensures SeparatorFree(p[1..], sep)
  {
    forall k: nat
      ensures !OccursAt(p[1..], k, sep)
    {
      if k + |sep| <= |p[1..]| {
        assert p[1..][k..k + |sep|] == p[k + 1..k + 1 + |sep|];
        assert !OccursAt(p, k + 1, sep);
      }
    }
  }

  /** The first piece of a split is a prefix of the text split. */
  lemma {:induction false} SplitFirstIsPrefix(s: string, sep: string)
    requires |sep| > 0
    ensures Split(s, sep)[0] <= s
    decreases |s|
  {
    if !(|sep| <= |s| && s[..|sep|] == sep) && s != [] {
      SplitFirstIsPrefix(s[1..], sep);
    }
  }

  /** No piece of a split holds the separator: the scan from the left would have found it. */
  lemma {:induction false} SplitPiecesFree(s: string, sep: string)
    requires |sep| > 0
    ensures forall i :: 0 <= i < |Split(s, sep)| ==> SeparatorFree(Split(s, sep)[i], sep)
    decreases |s|
  {
    if |sep| <= |s| && s[..|sep|] == sep {
      SplitPiecesFree(s[|sep|..], sep);
    } else if s != [] {
      var rest := Split(s[1..], sep);
      SplitPiecesFree(s[1..], sep);
      SplitFirstIsPrefix(s[1..], sep);
      PrependFree(s, rest[0], sep);
      var pieces := Split(s, sep);
      assert pieces == [[s[0]] + rest[0]] + rest[1..];
      forall i | 1 <= i < |pieces|
        ensures SeparatorFree(pieces[i], sep)
      {
        assert pieces[i] == rest[i];
      }
    }
  }

  /** A text that does not start with `sep` keeps a separator-free prefix of its tail free
      of `sep` when its first character is put back in front. */
  lemma PrependFree(s: string, piece: string, sep: string)
    requires |sep| > 0 && s != [] && !(|sep| <= |s| && s[..|sep|] == sep)
    requires piece <= s[1..] && SeparatorFree(piece, sep)
    ensures SeparatorFree([s[0]] + piece, sep)
  {
    var first := [s[0]] + piece;
    forall k: nat
      ensures !OccursAt(first, k, sep)
    {
      if k + |sep| <= |first| {
        if k == 0 {
          assert first[..|sep|] == s[..|sep|];
        } else {
          assert first[k..k + |sep|] == piece[k - 1..k - 1 + |sep|];
          assert !OccursAt(piece, k - 1, sep);
        }
      }
    }
  }

  /** Spaces in front of a separator-free text leave it free of a line break. */
  lemma IndentedFree(p: string, width: nat, newLine: string)
    requires IsNewLine(newLine) && SeparatorFree(p, newLine)
    ensures SeparatorFree(Spaces(width) + p, newLine)
  {
    var q := Spaces(width) + p;
    forall k: nat
      ensures !OccursAt(q, k, newLine)
    {
      if k + |newLine| <= |q| {
        if k < width {
          assert q[k..k + |newLine|][0] == ' ';
        } else {
          assert q[k..k + |newLine|] == p[k - width..k - width + |newLine|];
          assert !OccursAt(p, k - width, newLine);
        }
      }
    }
  }

  /** A line-break-free text followed by a line break splits into itself and the pieces
      of what follows. For a line break no proper suffix of a text can complete into it,
      because its last character does not occur before. */
  lemma {:induction false} SplitAfterFree(p: string, t: string, newLine: string)
    requires IsNewLine(newLine) && SeparatorFree(p, newLine)
    ensures Split(p + newLine + t, newLine) == [p] + Split(t, newLine)
    decreases |p|
  {
    var s := p + newLine + t;
    if p == [] {
      assert s[..|newLine|] == newLine && s[|newLine|..] == t;
    } else {
      NoLineBreakInFront(p, t, newLine);
      DropFirstFree(p, newLine);
      SplitAfterFree(p[1..], t, newLine);
      assert s[1..] == p[1..] + newLine + t;
      assert [p[0]] + p[1..] == p;
    }
  }

  /** A non-empty line-break-free text followed by a line break does not start with one:
      a line break is at most two characters and its last one does not occur before. */
  lemma NoLineBreakInFront(p: string, t: string, newLine: string)
    requires IsNewLine(newLine) && SeparatorFree(p, newLine) && p != []
    ensures var s := p + newLine + t; !(|newLine| <= |s| && s[..|newLine|] == newLine)
  {
    var s := p + newLine + t;
    if |newLine| <= |p| {
      assert s[..|newLine|] == p[..|newLine|];
      assert !OccursAt(p, 0, newLine);
    } else {
      assert s[..|newLine|][1] == '\r';
    }
  }

  /** A line-break-free text is a single line. */
  lemma {:induction false} SplitFree(p: string, newLine: string)
    requires IsNewLine(newLine) && SeparatorFree(p, newLine)
    ensures Split(p, newLine) == [p]
    decreases |p|
  {
    if p != [] {
      assert !OccursAt(p, 0, newLine);
      DropFirstFree(p, newLine);
      SplitFree(p[1..], newLine);
      assert [p[0]] + p[1..] == p;
    }
  }

  /** Splitting line-break-free pieces joined by line breaks gives the pieces back. */
  lemma {:induction false} SplitJoin(pieces: seq<string>, newLine: string)
    requires |pieces| >= 1 && IsNewLine(newLine)
    requires forall i :: 0 <= i < |pieces| ==> SeparatorFree(pieces[i], newLine)
    ensures Split(Join(pieces, newLine), newLine) == pieces
    decreases |pieces|
  {
    if |pieces| == 1 {
      SplitFree(pieces[0], newLine);
    } else {
      SplitJoin(pieces[1..], newLine);
      SplitAfterFree(pieces[0], Join(pieces[1..], newLine), newLine);
      AppendAssociates(pieces[0], newLine, Join(pieces[1..], newLine));
      assert [pieces[0]] + pieces[1..] == pieces;
    }
  }

  /** For an indentation level whose width fits in an `int`, the result is the lines of
      the text, every non-empty one behind exactly `4 * indents` spaces and every empty one
      still empty, and the result splits at its line breaks into exactly those lines: the
      number of lines is kept and no line break is added at the end. */
  lemma IndentLines(str: string, indents: int, newLine: string)
    requires IsNewLine(newLine)
    requires 0 <= indents <= Int32Max / 4
    ensures IndentResult(str, indents, false, newLine)
            == Success(Join(Indented(Split(str, newLine), 4 * indents), newLine))
    ensures Split(IndentResult(str, indents, false, newLine).value, newLine)
            == Indented(Split(str, newLine), 4 * indents)
  {
    var lines := Split(str, newLine);
    var indented := Indented(lines, 4 * indents);
    SplitPiecesFree(str, newLine);
    forall i | 0 <= i < |indented|
      ensures SeparatorFree(indented[i], newLine)
    {
      if lines[i] != "" {
        IndentedFree(lines[i], 4 * indents, newLine);
      }
    }
    SplitJoin(indented, newLine);
  }

  /** Indenting by zero without trimming gives the text back unchanged. */
  lemma IndentZero(str: string, newLine: string)
    requires |newLine| > 0
    ensures IndentResult(str, 0, false, newLine) == Success(str)
  {
    var lines := Split(str, newLine);
    forall i | 0 <= i < |lines|
      ensures Indented(lines, 0)[i] == lines[i]
    {
      assert Spaces(0) + lines[i] == lines[i];
    }
    assert Indented(lines, 0) == lines;
    JoinSplit(str, newLine);
  }

  /** With `trimNewLines`, the result does not end in white space. */
  lemma IndentTrimmed(str: string, indents: int, newLine: string)
    requires |newLine| > 0
    requires IndentResult(str, indents, true, newLine).Success?
    ensures var s := IndentResult(str, indents, true, newLine).value;
      s == [] || !IsWhiteSpace(s[|s| - 1])
  {
  }

  /** `indents * 4` is not range-checked: a negative level is refused, a level of 2^29 wraps
      to a negative width and is refused too, and a level of 2^30 wraps to no indentation
      at all. */
  lemma IndentWrapsAround(str: string, newLine: string)
    requires |newLine| > 0
    ensures IndentResult(str, -1, false, newLine) == Failure(ArgumentOutOfRange("count"))
    ensures IndentResult(str, 0x2000_0000, false, newLine) == Failure(ArgumentOutOfRange("count"))
    ensures IndentResult(str, 0x4000_0000, false, newLine) == Success(str)
  {
    assert Wrap32(0x4000_0000 * 4) == 0;
    IndentZero(str, newLine);
  }

  // ------------------------------------------------------------ IsAutomaticProperty

  /** An accessor of a property declaration: whether it has a block body `{ ... }` and
      whether it has an expression body `=> ...`. */
  datatype Accessor = Accessor(hasBody: bool, hasExpressionBody: bool)

  /** `accessors.Any(a => a.Body != null || a.ExpressionBody != null)` */
  function AnyWithBody(accessors: seq<Accessor>): bool
  {
    if accessors == [] then false
    else accessors[0].hasBody || accessors[0].hasExpressionBody || AnyWithBody(accessors[1..])
  }

  /** `IsAutomaticProperty`: the property has an accessor list (and so is not an
      expression-bodied property) and none of its accessors has a body. */
  function IsAutomaticProperty(accessorList: Option<seq<Accessor>>): (r: bool)
    ensures r <==> accessorList.Some? && forall i :: 0 <= i < |accessorList.value| ==>
                     !accessorList.value[i].hasBody && !accessorList.value[i].hasExpressionBody
  {
    NoBodyIffNoneWithBody(if accessorList.Some? then accessorList.value else []);
    if accessorList.Some? then !AnyWithBody(accessorList.value) else false
  }

  lemma {:induction false} NoBodyIffNoneWithBody(accessors: seq<Accessor>)
    ensures !AnyWithBody(accessors) <==> forall i :: 0 <= i < |accessors| ==> !accessors[i].hasBody && !accessors[i].hasExpressionBody
  {
    if accessors != [] {
      NoBodyIffNoneWithBody(accessors[1..]);
      assert forall i :: 1 <= i < |accessors| ==> accessors[i] == accessors[1..][i - 1];
    }
  }
}
