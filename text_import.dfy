/** The plain-text notes importer (`parseTextNotes`, script.js:198-259).

    The text is split at line feeds, each line is trimmed and blank lines
    are dropped. A line of dashes closes the session being read; any other
    line has its white space removed and is read with `parseInt`; a line
    that yields no number is skipped. The first number after a separator
    (or at the start) opens a session, every further number records an
    upgrade to it. A session is kept only if it recorded at least one
    upgrade. */
module TextImport {
  import opened Sessions

  // ---------------------------------------------------------------------
  // Lines
  // ---------------------------------------------------------------------

  /** The characters `String.prototype.trim` strips and the regular
      expression class `\s` matches: ECMAScript white space and line
      terminators. */
  predicate IsWhiteSpace(c: char)
  {
    || c == '\t' || c == '\n' || c == '\U{B}' || c == '\U{C}' || c == '\r' || c == ' '
    || c == '\U{A0}' || c == '\U{1680}' || ('\U{2000}' <= c <= '\U{200A}')
    || c == '\U{2028}' || c == '\U{2029}' || c == '\U{202F}' || c == '\U{205F}'
    || c == '\U{3000}' || c == '\U{FEFF}'
  }

  /** Puts the lines back together, a line feed between each two. */
  function JoinLines(lines: seq<string>): string
    requires |lines| >= 1
  {
    if |lines| == 1 then lines[0] else lines[0] + "\n" + JoinLines(lines[1..])
  }

  /** `text.split('\n')`: the pieces between line feeds, at least one, none
      containing a line feed, and joining them again gives back the text. */
  function SplitLines(text: string): (lines: seq<string>)
    ensures |lines| >= 1
    ensures forall i :: 0 <= i < |lines| ==> '\n' !in lines[i]
    ensures JoinLines(lines) == text
  {
    if text == [] then [""]
    else
      var rest := SplitLines(text[1..]);
      if text[0] == '\n' then
        assert [""] + rest == [""] + rest[..];
        assert ([""] + rest)[1..] == rest;
        [""] + rest
      else
        var lines := [[text[0]] + rest[0]] + rest[1..];
        assert lines[1..] == rest[1..];
        assert text == [text[0]] + text[1..];
        lines
  }

  /** Splitting a text that starts with a piece free of line feeds puts
      that piece at the head of the first line. */
  lemma {:induction false} SplitLinesPrefix(a: string, t: string)
    requires '\n' !in a
    ensures SplitLines(a + t) == [a + SplitLines(t)[0]] + SplitLines(t)[1..]
  {
    if a == [] {
      var lines := SplitLines(t);
      assert a + t == t && a + lines[0] == lines[0];
      assert [lines[0]] + lines[1..] == lines;
    } else {
      assert (a + t)[0] == a[0] && (a + t)[1..] == a[1..] + t;
      SplitLinesPrefix(a[1..], t);
      assert [a[0]] + (a[1..] + SplitLines(t)[0]) == a + SplitLines(t)[0];
    }
  }

  /** A line free of line feeds, followed by a line feed, is the first line
      of the split and the rest of the text is split on its own. */
  lemma SplitLinesAfterLine(a: string, t: string)
    requires '\n' !in a
    ensures SplitLines(a + ("\n" + t)) == [a] + SplitLines(t)
  {
    var rest := "\n" + t;
    SplitLinesPrefix(a, rest);
    assert rest[0] == '\n' && rest[1..] == t;
    assert SplitLines(rest) == [""] + SplitLines(t);
    assert a + "" == a;
  }

  /** The text made of `lines`, each one followed by a line feed. */
  function Terminated(lines: seq<string>): string
  {
    if lines == [] then "" else lines[0] + ("\n" + Terminated(lines[1..]))
  }

  /** A text whose every line ends in a line feed splits into those lines
      and one empty piece after the last line feed. */
  lemma {:induction false} SplitTerminated(lines: seq<string>)
    requires forall i :: 0 <= i < |lines| ==> '\n' !in lines[i]
    ensures SplitLines(Terminated(lines)) == lines + [""]
  {
    if lines != [] {
      SplitTerminated(lines[1..]);
      SplitLinesAfterLine(lines[0], Terminated(lines[1..]));
      assert lines == [lines[0]] + lines[1..];
    }
  }

  /** Splitting is the inverse of joining: lines free of line feeds, joined,
      split back into the same lines. */
  lemma {:induction false} SplitJoin(lines: seq<string>)
    requires |lines| >= 1 && forall i :: 0 <= i < |lines| ==> '\n' !in lines[i]
    ensures SplitLines(JoinLines(lines)) == lines
  {
    if |lines| == 1 {
      SplitLinesPrefix(lines[0], []);
      assert lines[0] + [] == lines[0];
    } else {
      var rest := JoinLines(lines[1..]);
      SplitJoin(lines[1..]);
      assert JoinLines(lines) == lines[0] + ("\n" + rest);
      SplitLinesPrefix(lines[0], "\n" + rest);
      assert ("\n" + rest)[0] == '\n' && ("\n" + rest)[1..] == rest;
      assert SplitLines("\n" + rest) == [""] + lines[1..];
      assert lines[0] + "" == lines[0];
    }
  }

  /** `trimStart`: drops the leading white space and nothing else. */
  function TrimStart(s: string): (r: string)
    ensures |r| <= |s| && r == s[|s| - |r|..]
    ensures forall i :: 0 <= i < |s| - |r| ==> IsWhiteSpace(s[i])
    ensures r == [] || !IsWhiteSpace(r[0])
  {
    if s != [] && IsWhiteSpace(s[0]) then TrimStart(s[1..]) else s
  }

  /** `trimEnd`: drops the trailing white space and nothing else. */
  function TrimEnd(s: string): (r: string)
    ensures |r| <= |s| && r == s[..|r|]
    ensures forall i :: |r| <= i < |s| ==> IsWhiteSpace(s[i])
    ensures r == [] || !IsWhiteSpace(r[|r| - 1])
  {
    if s != [] && IsWhiteSpace(s[|s| - 1]) then TrimEnd(s[..|s| - 1]) else s
  }

  /** `line.trim()`. */
  function Trim(s: string): string
  {
    TrimEnd(TrimStart(s))
  }

  /** The trimmed line is a piece of the line, and everything before and
      after that piece is white space. */
  lemma {:induction false} TrimIsPiece(s: string)
    ensures TrimmedAt(s, |s| - |TrimStart(s)|, Trim(s))
  {
    PieceOfPiece(s, TrimStart(s), Trim(s));
  }

  /** A prefix `r` of a suffix `t` of `s`, with white space cut off before
      `t` and after `r`, stands in `s` with only white space around it. */
  lemma PieceOfPiece(s: string, t: string, r: string)
    requires |t| <= |s| && t == s[|s| - |t|..] && forall k :: 0 <= k < |s| - |t| ==> IsWhiteSpace(s[k])
    requires |r| <= |t| && r == t[..|r|] && forall k :: |r| <= k < |t| ==> IsWhiteSpace(t[k])
    ensures TrimmedAt(s, |s| - |t|, r)
  {
    var i := |s| - |t|;
    assert r == s[i..i + |r|];
    forall k | i + |r| <= k < |s|
      ensures IsWhiteSpace(s[k])
    {
      assert s[k] == t[k - i];
    }
  }

  /** The trimmed line neither starts nor ends with white space. */
  lemma {:induction false} TrimEnds(s: string)
    ensures Trim(s) == [] || (!IsWhiteSpace(Trim(s)[0]) && !IsWhiteSpace(Trim(s)[|Trim(s)| - 1]))
  {
    var t := TrimStart(s);
    var r := TrimEnd(t);
    assert r != [] ==> r[0] == t[0];
  }

  /** `r` stands at position `i` of `s` and everything around it is white space. */
  predicate TrimmedAt(s: string, i: int, r: string)
  {
    && 0 <= i <= |s| - |r|
    && r == s[i..i + |r|]
    && (forall k :: 0 <= k < i ==> IsWhiteSpace(s[k]))
    && (forall k :: i + |r| <= k < |s| ==> IsWhiteSpace(s[k]))
  }

  /** A line that neither starts nor ends with white space is left as it is
      by trimming; in particular trimming twice is trimming once. */
  lemma {:induction false} TrimmedIsFixed(s: string)
    requires s == [] || (!IsWhiteSpace(s[0]) && !IsWhiteSpace(s[|s| - 1]))
    ensures Trim(s) == s
  {
    assert TrimStart(s) == s;
  }

  /** Trimming twice is trimming once. */
  lemma {:induction false} TrimTwice(s: string)
    ensures Trim(Trim(s)) == Trim(s)
  {
    TrimEnds(s);
    TrimmedIsFixed(Trim(s));
  }

  /** Trimming gives the empty string exactly when the line is all white
      space: that is what makes a line blank. */
  lemma TrimEmptyIffBlank(s: string)
    ensures Trim(s) == [] <==> forall i :: 0 <= i < |s| ==> IsWhiteSpace(s[i])
  {
    var t := TrimStart(s);
    if t != [] {
      var r := TrimEnd(t);
      var first := t[0];
      assert !IsWhiteSpace(first);
      assert first == s[|s| - |t|];
      assert r != [];
    }
  }

  /** `.map(line => line.trim()).filter(line => line)`: the trimmed lines
      that are not empty. */
  function NonBlankLines(lines: seq<string>): (r: seq<string>)
    ensures |r| <= |lines|
    ensures forall i :: 0 <= i < |r| ==> r[i] != []
  {
    if lines == [] then []
    else
      var front := NonBlankLines(lines[..|lines| - 1]);
      var t := Trim(lines[|lines| - 1]);
      if t == [] then front else front + [t]
  }

  /** Every line kept is trimmed: trimming it again changes nothing. */
  lemma {:induction false} NonBlankLinesAreTrimmed(lines: seq<string>)
    ensures forall i :: 0 <= i < |NonBlankLines(lines)| ==> Trim(NonBlankLines(lines)[i]) == NonBlankLines(lines)[i]
  {
    if lines != [] {
      NonBlankLinesAreTrimmed(lines[..|lines| - 1]);
      TrimTwice(lines[|lines| - 1]);
    }
  }

  /** Lines that are already trimmed and not empty all pass through. */
  lemma {:induction false} NonBlankLinesKeepsTrimmed(lines: seq<string>)
    requires forall i :: 0 <= i < |lines| ==> lines[i] != [] && Trim(lines[i]) == lines[i]
    ensures NonBlankLines(lines) == lines
  {
    if lines != [] {
      NonBlankLinesKeepsTrimmed(lines[..|lines| - 1]);
    }
  }

  lemma {:induction false} NonBlankLinesAppend(a: seq<string>, b: seq<string>)
    ensures NonBlankLines(a + b) == NonBlankLines(a) + NonBlankLines(b)
  {
    if b == [] {
      assert a + b == a;
    } else {
      var n := |b|;
      assert (a + b)[..|a + b| - 1] == a + b[..n - 1];
      assert (a + b)[|a + b| - 1] == b[n - 1];
      NonBlankLinesAppend(a, b[..n - 1]);
    }
  }

  /** A blank line, wherever it stands, is dropped without a trace. */
  lemma BlankLineIsDropped(before: seq<string>, blank: string, after: seq<string>)
    requires forall i :: 0 <= i < |blank| ==> IsWhiteSpace(blank[i])
    ensures NonBlankLines(before + [blank] + after) == NonBlankLines(before + after)
  {
    TrimEmptyIffBlank(blank);
    NonBlankLinesAppend(before + [blank], after);
    NonBlankLinesAppend(before, [blank]);
    NonBlankLinesAppend(before, after);
    assert [blank][..0] == [];
  }

  /** A line that is not blank, wherever it stands, is kept as its trim. */
  lemma NonBlankLineIsKept(before: seq<string>, line: string, after: seq<string>)
    requires Trim(line) != []
    ensures NonBlankLines(before + [line] + after) == NonBlankLines(before) + [Trim(line)] + NonBlankLines(after)
  {
    NonBlankLinesAppend(before + [line], after);
    NonBlankLinesAppend(before, [line]);
    assert [line][..0] == [];
  }

  /** The lines the importer reads from the text, in order. */
  function Lines(text: string): seq<string>
  {
    NonBlankLines(SplitLines(text))
  }

  /** `line.replace(/\s/g, '')`. */
  function RemoveWhiteSpace(s: string): (r: string)
    ensures |r| <= |s|
  {
    if s == [] then []
    else
      var rest := RemoveWhiteSpace(s[1..]);
      if IsWhiteSpace(s[0]) then rest else [s[0]] + rest
  }

  /** Removing white space leaves none, keeps exactly the other characters,
      and leaves a line that has none as it is. */
  lemma {:induction false} RemoveWhiteSpaceKeepsTheRest(s: string)
    ensures forall i :: 0 <= i < |RemoveWhiteSpace(s)| ==> !IsWhiteSpace(RemoveWhiteSpace(s)[i])
    ensures forall c :: c in RemoveWhiteSpace(s) <==> c in s && !IsWhiteSpace(c)
    ensures (forall i :: 0 <= i < |s| ==> !IsWhiteSpace(s[i])) ==> RemoveWhiteSpace(s) == s
  {
    if s != [] {
      RemoveWhiteSpaceKeepsTheRest(s[1..]);
      assert forall c :: c in s <==> c == s[0] || c in s[1..];
      assert s == [s[0]] + s[1..];
    }
  }

  /** Removing white space works piece by piece: the characters that remain
      keep their order. */
  lemma {:induction false} RemoveWhiteSpaceAppend(a: string, b: string)
    ensures RemoveWhiteSpace(a + b) == RemoveWhiteSpace(a) + RemoveWhiteSpace(b)
  {
    if a != [] {
      assert (a + b)[0] == a[0] && (a + b)[1..] == a[1..] + b;
      RemoveWhiteSpaceAppend(a[1..], b);
    } else {
      assert a + b == b;
    }
  }

  /** A single character is dropped if it is white space and kept otherwise. */
  lemma RemoveWhiteSpaceChar(c: char)
    ensures RemoveWhiteSpace([c]) == if IsWhiteSpace(c) then [] else [c]
  {
    assert [c][1..] == [];
  }

  /** `/^-+$/`: one or more dashes and nothing else. */
  predicate IsSeparator(line: string)
  {
    |line| > 0 && forall i :: 0 <= i < |line| ==> line[i] == '-'
  }

  // ---------------------------------------------------------------------
  // parseInt
  // ---------------------------------------------------------------------

  predicate IsDecimalDigit(c: char)
  {
    '0' <= c <= '9'
  }

  /** A digit in base 10 or base 16 (either letter case). */
  predicate IsDigitIn(c: char, hex: bool)
  {
    IsDecimalDigit(c) || (hex && ('a' <= c <= 'f' || 'A' <= c <= 'F'))
  }

  /** The value of a digit: `0`-`9` are worth 0 to 9, and `a`-`f` and
      `A`-`F` are worth 10 to 15. */
  function DigitValue(c: char): (v: nat)
    requires IsDigitIn(c, true)
    ensures IsDecimalDigit(c) ==> v < 10 && v == c as int - '0' as int
    ensures 'a' <= c <= 'f' ==> v == 10 + (c as int - 'a' as int)
    ensures 'A' <= c <= 'F' ==> v == 10 + (c as int - 'A' as int)
    ensures v < 16
  {
    if IsDecimalDigit(c) then c as int - '0' as int
    else if 'a' <= c <= 'f' then c as int - 'a' as int + 10
    else c as int - 'A' as int + 10
  }

  /** Length of the longest prefix of `s` made of digits of the base. */
  function DigitRun(s: string, hex: bool): (n: nat)
    ensures n <= |s|
    ensures forall i :: 0 <= i < n ==> IsDigitIn(s[i], hex)
    ensures n == |s| || !IsDigitIn(s[n], hex)
  {
    if s == [] || !IsDigitIn(s[0], hex) then 0 else 1 + DigitRun(s[1..], hex)
  }

  /** The value of a string of digits, most significant first. */
  function DigitsValue(ds: string, hex: bool): nat
    requires forall i :: 0 <= i < |ds| ==> IsDigitIn(ds[i], hex)
  {
    if ds == [] then 0
    else
      var last := ds[|ds| - 1];
      assert IsDigitIn(last, hex);
      DigitsValue(ds[..|ds| - 1], hex) * (if hex then 16 else 10) + DigitValue(last)
  }

  /** `parseInt` after the sign: a `0x`/`0X` prefix selects base 16, then
      the longest run of digits of the base is read; trailing characters are
      ignored and an empty run gives NaN (None). */
  function ParseUnsigned(unsigned: string): (r: Option<nat>)
    ensures var hex := |unsigned| >= 2 && unsigned[0] == '0' && (unsigned[1] == 'x' || unsigned[1] == 'X');
            var body := if hex then unsigned[2..] else unsigned;
            r.None? <==> body == [] || !IsDigitIn(body[0], hex)
  {
    var hex := |unsigned| >= 2 && unsigned[0] == '0' && (unsigned[1] == 'x' || unsigned[1] == 'X');
    var body := if hex then unsigned[2..] else unsigned;
    var n := DigitRun(body, hex);
    if n == 0 then None else Some(DigitsValue(body[..n], hex))
  }

  /** `parseInt(s)` with no radix, on a string that holds no white space:
      an optional sign, then the unsigned numeral. */
  function ParseInt(s: string): (r: Option<int>)
    ensures var unsigned := if |s| > 0 && (s[0] == '-' || s[0] == '+') then s[1..] else s;
            r.None? <==> ParseUnsigned(unsigned).None?
    ensures r.Some? && |s| > 0 && s[0] == '-' ==> r.value <= 0
    ensures r.Some? && (|s| == 0 || s[0] != '-') ==> r.value >= 0
  {
    var negative := |s| > 0 && s[0] == '-';
    var unsigned := if |s| > 0 && (s[0] == '-' || s[0] == '+') then s[1..] else s;
    match ParseUnsigned(unsigned)
    case None => None
    case Some(magnitude) =>
      var value: int := if negative then -(magnitude as int) else magnitude;
      Some(value)
  }

  /** A leading `-` negates what the rest reads as. */
  lemma ParseIntSign(u: string, m: nat, negative: bool)
    requires u != [] && IsDecimalDigit(u[0])
    requires ParseUnsigned(u) == Some(m)
    ensures ParseInt(if negative then "-" + u else u) == Some(if negative then -(m as int) else m)
  {
    if negative {
      assert ("-" + u)[1..] == u;
    }
  }

  /** The decimal numeral of a natural number, without leading zeros. */
  function NatString(n: nat): (s: string)
    ensures |s| >= 1 && forall i :: 0 <= i < |s| ==> IsDecimalDigit(s[i])
    ensures n > 0 ==> s[0] != '0'
    ensures n == 0 ==> s == "0"
    decreases n
  {
    var last := ('0' as int + n % 10) as char;
    if n < 10 then [last] else NatString(n / 10) + [last]
  }

  /** The decimal numeral of an integer, with a minus sign when negative. */
  function IntString(n: int): string
  {
    if n < 0 then "-" + NatString(-n) else NatString(n)
  }

  lemma {:induction false} NatStringValue(n: nat)
    ensures DigitsValue(NatString(n), false) == n
    decreases n
  {
    var s := NatString(n);
    if n >= 10 {
      NatStringValue(n / 10);
      assert s[..|s| - 1] == NatString(n / 10);
    }
  }

  lemma {:induction false} DigitRunStopsAt(ds: string, rest: string, hex: bool)
    requires forall i :: 0 <= i < |ds| ==> IsDigitIn(ds[i], hex)
    requires rest == [] || !IsDigitIn(rest[0], hex)
    ensures DigitRun(ds + rest, hex) == |ds|
  {
    if ds != [] {
      assert (ds + rest)[1..] == ds[1..] + rest;
      DigitRunStopsAt(ds[1..], rest, hex);
    } else {
      assert ds + rest == rest;
    }
  }

  /** A leading zero does not change the value of a numeral. */
  lemma {:induction false} LeadingZeroValue(ds: string, hex: bool)
    requires forall i :: 0 <= i < |ds| ==> IsDigitIn(ds[i], hex)
    ensures DigitsValue("0" + ds, hex) == DigitsValue(ds, hex)
    decreases |ds|
  {
    if ds != [] {
      var n := |ds|;
      LeadingZeroValue(ds[..n - 1], hex);
      assert ("0" + ds)[..n] == "0" + ds[..n - 1];
      assert ("0" + ds)[n] == ds[n - 1];
    } else {
      assert ("0" + ds)[..0] == [];
    }
  }

  /** Without a `0x` prefix, `parseInt` reads the value of the run of decimal
      digits it starts with, leading zeros included, up to the first
      non-digit; only a lone `0` followed by `x` or `X` is read otherwise. */
  lemma ParseUnsignedReadsDigits(ds: string, rest: string)
    requires ds != [] && forall i :: 0 <= i < |ds| ==> IsDecimalDigit(ds[i])
    requires rest == [] || !IsDecimalDigit(rest[0])
    requires ds == "0" && rest != [] ==> rest[0] != 'x' && rest[0] != 'X'
    ensures ParseUnsigned(ds + rest) == Some(DigitsValue(ds, false))
  {
    var u := ds + rest;
    assert DigitRun(u, false) == |ds| by {
      DigitRunStopsAt(ds, rest, false);
    }
    assert u[..|ds|] == ds;
    assert !(|u| >= 2 && u[0] == '0' && (u[1] == 'x' || u[1] == 'X')) by {
      if |ds| == 1 {
        assert ds == [ds[0]];
      } else {
        assert u[1] == ds[1];
      }
    }
  }

  /** After a `0x` or `0X` prefix, `parseInt` reads the value of the run of
      hexadecimal digits, in either case, up to the first non-digit. */
  lemma ParseUnsignedReadsHex(x: char, ds: string, rest: string)
    requires x == 'x' || x == 'X'
    requires ds != [] && forall i :: 0 <= i < |ds| ==> IsDigitIn(ds[i], true)
    requires rest == [] || !IsDigitIn(rest[0], true)
    ensures ParseUnsigned(['0', x] + ds + rest) == Some(DigitsValue(ds, true))
  {
    var body := ds + rest;
    var u := ['0', x] + body;
    assert ['0', x] + ds + rest == u;
    assert |u| >= 2 && u[0] == '0' && u[1] == x && u[2..] == body;
    assert DigitRun(body, true) == |ds| by {
      DigitRunStopsAt(ds, rest, true);
    }
    assert body[..|ds|] == ds;
  }

  /** The digit that writes a value below 16, lower case above 9. */
  function HexDigit(d: nat): (c: char)
    requires d < 16
    ensures IsDigitIn(c, true) && DigitValue(c) == d
  {
    if d < 10 then ('0' as int + d) as char else ('a' as int + d - 10) as char
  }

  /** The hexadecimal numeral of a natural number, without leading zeros. */
  function HexString(n: nat): (s: string)
    ensures |s| >= 1 && forall i :: 0 <= i < |s| ==> IsDigitIn(s[i], true)
    decreases n
  {
    var last := HexDigit(n % 16);
    if n < 16 then [last] else HexString(n / 16) + [last]
  }

  lemma {:induction false} HexStringValue(n: nat)
    ensures DigitsValue(HexString(n), true) == n
    decreases n
  {
    var s := HexString(n);
    if n >= 16 {
      HexStringValue(n / 16);
      assert s[..|s| - 1] == HexString(n / 16);
    }
  }

  /** `parseInt` reads back any natural written in hexadecimal after `0x`. */
  lemma ParseUnsignedReadsHexString(n: nat, rest: string)
    requires rest == [] || !IsDigitIn(rest[0], true)
    ensures ParseUnsigned("0x" + HexString(n) + rest) == Some(n)
  {
    HexStringValue(n);
    ParseUnsignedReadsHex('x', HexString(n), rest);
    assert "0x" == ['0', 'x'];
  }

  /** A leading `+` is ignored and a leading `-` negates, whatever follows,
      provided it is not a second sign. */
  lemma ParseIntSigns(u: string)
    requires u == [] || (u[0] != '+' && u[0] != '-')
    ensures ParseInt("+" + u) == ParseInt(u)
    ensures ParseInt("-" + u) == match ParseInt(u) case None => None case Some(m) => Some(-m)
  {
    assert ("+" + u)[1..] == u;
    assert ("-" + u)[1..] == u;
  }

  lemma ParseUnsignedReadsDecimal(m: nat, rest: string)
    requires rest == [] || (!IsDecimalDigit(rest[0]) && (m == 0 ==> rest[0] != 'x' && rest[0] != 'X'))
    ensures var unsigned := NatString(m) + rest;
            ParseUnsigned(unsigned) == Some(m) && unsigned != [] && IsDecimalDigit(unsigned[0])
  {
    var digits := NatString(m);
    NatStringValue(m);
    DigitRunStopsAt(digits, rest, false);
    var unsigned := digits + rest;
    assert unsigned[..|digits|] == digits;
    assert unsigned[0] == digits[0];
    assert |unsigned| >= 2 && unsigned[0] == '0' ==> |digits| == 1 && unsigned[1] == rest[0];
  }

  lemma ReadsNegative(m: nat, rest: string)
    requires m > 0
    requires rest == [] || !IsDecimalDigit(rest[0])
    ensures ParseInt(IntString(-(m as int)) + rest) == Some(-(m as int))
  {
    var unsigned := NatString(m) + rest;
    assert IntString(-(m as int)) + rest == "-" + unsigned by {
      assert IntString(-(m as int)) == "-" + NatString(m);
    }
    ParseUnsignedReadsDecimal(m, rest);
    ParseIntSign(unsigned, m, true);
  }

  lemma ReadsNonNegative(n: nat, rest: string)
    requires rest == [] || (!IsDecimalDigit(rest[0]) && (n == 0 ==> rest[0] != 'x' && rest[0] != 'X'))
    ensures ParseInt(IntString(n) + rest) == Some(n)
  {
    ParseUnsignedReadsDecimal(n, rest);
    ParseIntSign(NatString(n) + rest, n, false);
  }

  /** `parseInt` reads back any integer written in decimal, whatever follows
      it, provided what follows does not continue the numeral (a digit) or
      turn a lone `0` into a hexadecimal prefix. */
  lemma ParseIntReadsDecimal(n: int, rest: string)
    requires rest == [] || (!IsDecimalDigit(rest[0]) && (n == 0 ==> rest[0] != 'x' && rest[0] != 'X'))
    ensures ParseInt(IntString(n) + rest) == Some(n)
  {
    if n < 0 {
      ReadsNegative(-n, rest);
    } else {
      ReadsNonNegative(n, rest);
    }
  }

  /** A line holding the decimal numeral of an integer is read as that
      amount. */
  lemma NumeralLineIsAmount(n: int)
    ensures Classify(IntString(n)) == Amount(n)
  {
    var line := IntString(n);
    var digits := NatString(if n < 0 then -n else n);
    assert line == if n < 0 then "-" + digits else digits;
    assert !IsSeparator(line) by {
      assert line[|line| - 1] == digits[|digits| - 1];
    }
    forall i | 0 <= i < |line|
      ensures !IsWhiteSpace(line[i])
    {
      if n < 0 && i > 0 {
        assert line[i] == digits[i - 1];
      }
    }
    RemoveWhiteSpaceKeepsTheRest(line);
    ParseIntReadsDecimal(n, []);
    assert line + [] == line;
  }

  // ---------------------------------------------------------------------
  // The scanner
  // ---------------------------------------------------------------------

  /** What the scanner makes of one (trimmed, non-blank) line. */
  datatype LineKind = Separator | Amount(value: int) | Skipped

  /** A line of dashes is a separator; otherwise the line, stripped of its
      white space, is a number if `parseInt` reads one and skipped if not
      (script.js:206, 221-223). */
  function Classify(line: string): (kind: LineKind)
    ensures kind.Separator? <==> IsSeparator(line)
    ensures kind.Amount? ==> ParseInt(RemoveWhiteSpace(line)) == Some(kind.value)
    ensures kind.Skipped? <==> !IsSeparator(line) && ParseInt(RemoveWhiteSpace(line)).None?
  {
    if IsSeparator(line) then Separator
    else
      match ParseInt(RemoveWhiteSpace(line))
      case Some(v) => Amount(v)
      case None => Skipped
  }

  /** The kinds of the lines, line by line. */
  function Kinds(lines: seq<string>): (kinds: seq<LineKind>)
    ensures |kinds| == |lines| && forall i :: 0 <= i < |lines| ==> kinds[i] == Classify(lines[i])
  {
    seq(|lines|, i requires 0 <= i < |lines| => Classify(lines[i]))
  }

  const TextImportSource: string := "text_import"

  /** The scanner's variables: the session being read, the session counter
      and the sessions completed so far. */
  datatype ScanState = ScanState(open: Option<Session>, sessionNumber: int, sessions: seq<Session>)

  const Initial: ScanState := ScanState(None, 1, [])

  /** The session a first number opens (script.js:227-234). */
  function Opened(amount: int, sessionNumber: int, now: string): (s: Session)
    ensures Chained(s) && s.upgrades == [] && s.startingMoney == s.currentMoney == amount
    ensures s.endTime.None? && s.source == Some(TextImportSource) && s.sessionNumber == Some(sessionNumber)
    ensures s.startTime == now
  {
    Session(amount, amount, [], now, None, Some(TextImportSource), Some(sessionNumber))
  }

  /** Completing the session being read (script.js:208-213, 251-256): it is
      kept, with its end time, only if it recorded an upgrade. */
  function Close(open: Option<Session>, sessions: seq<Session>, now: string): (r: seq<Session>)
    ensures |sessions| <= |r| <= |sessions| + 1 && r[..|sessions|] == sessions
    ensures |r| == |sessions| + 1 <==> open.Some? && |open.value.upgrades| > 0
    ensures |r| == |sessions| + 1 ==> r[|sessions|] == Finalize(open.value, now)
  {
    if open.Some? && |open.value.upgrades| > 0 then sessions + [Finalize(open.value, now)] else sessions
  }

  /** One iteration of the loop over the lines (script.js:204-248). */
  function Step(st: ScanState, kind: LineKind, now: string): (r: ScanState)
    ensures kind.Skipped? ==> r == st
    ensures kind.Separator? ==> r.open.None? && r.sessionNumber == st.sessionNumber + 1
                                && r.sessions == Close(st.open, st.sessions, now)
    ensures kind.Amount? ==> r.sessionNumber == st.sessionNumber && r.sessions == st.sessions
                             && r.open.Some? && r.open.value.currentMoney == kind.value
    ensures kind.Amount? && st.open.None? ==> r.open.value == Opened(kind.value, st.sessionNumber, now)
    ensures kind.Amount? && st.open.Some? ==> r.open.value == AppendUpgrade(st.open.value, kind.value, now)
  {
    match kind
    case Separator => ScanState(None, st.sessionNumber + 1, Close(st.open, st.sessions, now))
    case Amount(v) =>
      if st.open.None? then st.(open := Some(Opened(v, st.sessionNumber, now)))
      else st.(open := Some(AppendUpgrade(st.open.value, v, now)))
    case Skipped => st
  }

  /** The scanner's state after reading lines of the given kinds from `st`. */
  function RunFrom(st: ScanState, kinds: seq<LineKind>, now: string): ScanState
  {
    if kinds == [] then st
    else Step(RunFrom(st, kinds[..|kinds| - 1], now), kinds[|kinds| - 1], now)
  }

  /** The sessions the scanner returns for lines of the given kinds. */
  function Scan(kinds: seq<LineKind>, now: string): seq<Session>
  {
    var st := RunFrom(Initial, kinds, now);
    Close(st.open, st.sessions, now)
  }

  /** The sessions `parseTextNotes` returns for `text`. */
  function TextNotes(text: string, now: string): seq<Session>
  {
    Scan(Kinds(Lines(text)), now)
  }

  /** `parseTextNotes`: the cleaned lines of the text, then the loop over them. */
  method ParseTextNotes(textNotes: string, now: string) returns (sessions: seq<Session>)
    ensures sessions == TextNotes(textNotes, now)
  {
    var lines := Lines(textNotes);
    sessions := ScanLines(lines, now);
  }

  /** The loop of `parseTextNotes` (script.js:204-257), with the local
      session, counter and result list it updates. */
  method ScanLines(lines: seq<string>, now: string) returns (sessions: seq<Session>)
    ensures sessions == Scan(Kinds(lines), now)
  {
    ghost var kinds := Kinds(lines);
    sessions := [];
    var currentSession: Option<Session> := None;
    var sessionNumber := 1;
    for k := 0 to |lines|
      invariant RunFrom(Initial, kinds[..k], now) == ScanState(currentSession, sessionNumber, sessions)
    {
      assert kinds[..k + 1][..k] == kinds[..k];
      var line := lines[k];
      if IsSeparator(line) {
        assert kinds[k] == Separator;
        if currentSession.Some? && |currentSession.value.upgrades| > 0 {
          sessions := sessions + [Finalize(currentSession.value, now)];
        }
        currentSession := None;
        sessionNumber := sessionNumber + 1;
        continue;
      }
      var amount := ParseInt(RemoveWhiteSpace(line));
      if amount.None? {
        assert kinds[k] == Skipped;
        continue;
      }
      assert kinds[k] == Amount(amount.value);
      if currentSession.None? {
        currentSession := Some(Opened(amount.value, sessionNumber, now));
      } else {
        currentSession := Some(AppendUpgrade(currentSession.value, amount.value, now));
      }
    }
    assert kinds[..|lines|] == kinds;
    if currentSession.Some? && |currentSession.value.upgrades| > 0 {
      sessions := sessions + [Finalize(currentSession.value, now)];
    }
  }

  lemma {:induction false} RunFromAppend(st: ScanState, a: seq<LineKind>, b: seq<LineKind>, now: string)
    ensures RunFrom(st, a + b, now) == RunFrom(RunFrom(st, a, now), b, now)
  {
    if b == [] {
      assert a + b == a;
    } else {
      assert (a + b)[..|a + b| - 1] == a + b[..|b| - 1];
      RunFromAppend(st, a, b[..|b| - 1], now);
    }
  }

  /** A line that is neither a separator nor a number has no effect,
      wherever it stands. */
  lemma SkippedLineIsInert(before: seq<LineKind>, after: seq<LineKind>, now: string)
    ensures Scan(before + [Skipped] + after, now) == Scan(before + after, now)
  {
    RunFromAppend(Initial, before + [Skipped], after, now);
    RunFromAppend(Initial, before, [Skipped], now);
    RunFromAppend(Initial, before, after, now);
    assert [Skipped][..0] == [];
  }

  // ---------------------------------------------------------------------
  // A reference definition: blocks between separators
  // ---------------------------------------------------------------------

  function CountSeparators(kinds: seq<LineKind>): nat
  {
    if kinds == [] then 0
    else CountSeparators(kinds[..|kinds| - 1]) + (if kinds[|kinds| - 1].Separator? then 1 else 0)
  }

  /** The numbers between separators: one block more than there are
      separators, each block holding the numbers of its lines in order. */
  function Blocks(kinds: seq<LineKind>): (blocks: seq<seq<int>>)
    ensures |blocks| == CountSeparators(kinds) + 1
  {
    if kinds == [] then [[]]
    else
      var blocks := Blocks(kinds[..|kinds| - 1]);
      var last := blocks[|blocks| - 1];
      match kinds[|kinds| - 1]
      case Separator => blocks + [[]]
      case Amount(v) => blocks[..|blocks| - 1] + [last + [v]]
      case Skipped => blocks
  }

  /** The session a block with the given numbers describes: it starts at the
      first number and moves through the others. */
  function BlockSession(amounts: seq<int>, sessionNumber: int, now: string): Session
    requires amounts != []
  {
    Session(amounts[0], amounts[|amounts| - 1], EventsThrough(amounts[0], amounts[1..], now),
            now, None, Some(TextImportSource), Some(sessionNumber))
  }

  /** The sessions the blocks describe: the k-th block (counting from 1)
      gives one, numbered k, when it holds at least two numbers. */
  function Emit(blocks: seq<seq<int>>, now: string): seq<Session>
  {
    if blocks == [] then []
    else
      var amounts := blocks[|blocks| - 1];
      Emit(blocks[..|blocks| - 1], now)
        + (if |amounts| >= 2 then [Finalize(BlockSession(amounts, |blocks|, now), now)] else [])
  }

  /** Recording one more number on a block's session gives the session of
      the block extended by that number. */
  lemma AppendExtendsBlockSession(amounts: seq<int>, v: int, sessionNumber: int, now: string)
    requires amounts != []
    ensures AppendUpgrade(BlockSession(amounts, sessionNumber, now), v, now)
         == BlockSession(amounts + [v], sessionNumber, now)
  {
    var longer := amounts + [v];
    assert longer[1..] == amounts[1..] + [v];
    var es := EventsThrough(amounts[0], amounts[1..], now);
    var es' := EventsThrough(longer[0], longer[1..], now);
    assert es' == es + [UpgradeTo(BlockSession(amounts, sessionNumber, now), v, now)];
  }

  /** The scanner's state described by blocks: the counter is the number of
      blocks, the completed sessions are those of the blocks before the
      last, and the open session is the last block's, if it holds a number. */
  predicate Tracks(st: ScanState, blocks: seq<seq<int>>, now: string)
    requires blocks != []
  {
    var amounts := blocks[|blocks| - 1];
    && st.sessionNumber == |blocks|
    && st.sessions == Emit(blocks[..|blocks| - 1], now)
    && st.open == if amounts == [] then None else Some(BlockSession(amounts, |blocks|, now))
  }

  lemma StepTracksBlocks(st: ScanState, blocks: seq<seq<int>>, kind: LineKind, now: string)
    requires blocks != [] && Tracks(st, blocks, now)
    ensures var last := blocks[|blocks| - 1];
            Tracks(Step(st, kind, now),
                   match kind
                   case Separator => blocks + [[]]
                   case Amount(v) => blocks[..|blocks| - 1] + [last + [v]]
                   case Skipped => blocks,
                   now)
  {
    var last := blocks[|blocks| - 1];
    match kind
    case Separator => {
      var blocks' := blocks + [[]];
      assert blocks'[..|blocks'| - 1] == blocks;
      assert blocks[..|blocks| - 1] + [last] == blocks;
      assert last != [] ==> |BlockSession(last, |blocks|, now).upgrades| == |last| - 1;
    }
    case Amount(v) => {
      var blocks' := blocks[..|blocks| - 1] + [last + [v]];
      assert blocks'[..|blocks'| - 1] == blocks[..|blocks| - 1];
      if last != [] {
        AppendExtendsBlockSession(last, v, |blocks|, now);
      } else {
        assert last + [v] == [v];
      }
    }
    case Skipped => {}
  }

  /** The scanner's state after any prefix of the lines is described by the
      blocks of that prefix. */
  lemma {:induction false} ScanFollowsBlocks(kinds: seq<LineKind>, now: string)
    ensures Tracks(RunFrom(Initial, kinds, now), Blocks(kinds), now)
  {
    if kinds != [] {
      var n := |kinds|;
      ScanFollowsBlocks(kinds[..n - 1], now);
      StepTracksBlocks(RunFrom(Initial, kinds[..n - 1], now), Blocks(kinds[..n - 1]), kinds[n - 1], now);
    }
  }

  lemma CloseEmitsLastBlock(st: ScanState, blocks: seq<seq<int>>, now: string)
    requires blocks != [] && Tracks(st, blocks, now)
    ensures Close(st.open, st.sessions, now) == Emit(blocks, now)
  {
    var amounts := blocks[|blocks| - 1];
    assert blocks[..|blocks| - 1] + [amounts] == blocks;
    assert amounts != [] ==> |BlockSession(amounts, |blocks|, now).upgrades| == |amounts| - 1;
  }

  /** The scanner returns the sessions of the blocks between separators. */
  lemma ScanIsBlockSessions(kinds: seq<LineKind>, now: string)
    ensures Scan(kinds, now) == Emit(Blocks(kinds), now)
  {
    ScanFollowsBlocks(kinds, now);
    CloseEmitsLastBlock(RunFrom(Initial, kinds, now), Blocks(kinds), now);
  }

  // ---------------------------------------------------------------------
  // What every imported session satisfies
  // ---------------------------------------------------------------------

  /** A session as the text import produces it: at least one upgrade, the
      events chained from the starting balance to the current one, tagged
      as imported, with its end time set. */
  predicate ImportedSession(s: Session, now: string)
  {
    && |s.upgrades| >= 1
    && Chained(s)
    && s.source == Some(TextImportSource)
    && s.endTime == Some(now)
    && s.sessionNumber.Some?
  }

  /** The sessions of n blocks: at most n of them, each well formed, and
      numbered strictly increasingly between 1 and n. */
  lemma {:induction false} EmitProperties(blocks: seq<seq<int>>, now: string)
    ensures var out := Emit(blocks, now);
            && |out| <= |blocks|
            && (forall i :: 0 <= i < |out| ==> ImportedSession(out[i], now))
            && (forall i :: 0 <= i < |out| ==> 1 <= out[i].sessionNumber.value <= |blocks|)
            && (forall i, j :: 0 <= i < j < |out| ==> out[i].sessionNumber.value < out[j].sessionNumber.value)
  {
    if blocks != [] {
      var n := |blocks|;
      EmitProperties(blocks[..n - 1], now);
      var amounts := blocks[n - 1];
      if |amounts| >= 2 {
        var s := BlockSession(amounts, n, now);
        assert Chained(s);
      }
    }
  }

  /** What `parseTextNotes` promises of its result (script.js:198-258): every
      session has an upgrade, chains its events from the starting balance,
      ends on its current balance and costs in total what the balance
      dropped; the sessions are numbered in increasing order and there is
      at most one more of them than there are separator lines. */
  lemma ScanProperties(kinds: seq<LineKind>, now: string)
    ensures var out := Scan(kinds, now);
            var separators := CountSeparators(kinds);
            && |out| <= separators + 1
            && (forall i :: 0 <= i < |out| ==> ImportedSession(out[i], now))
            && (forall i :: 0 <= i < |out| ==> TotalCost(out[i].upgrades) == out[i].startingMoney - out[i].currentMoney)
            && (forall i :: 0 <= i < |out| ==> 1 <= out[i].sessionNumber.value <= separators + 1)
            && (forall i, j :: 0 <= i < j < |out| ==> out[i].sessionNumber.value < out[j].sessionNumber.value)
  {
    ScanIsBlockSessions(kinds, now);
    EmitProperties(Blocks(kinds), now);
    var out := Scan(kinds, now);
    forall i | 0 <= i < |out|
      ensures TotalCost(out[i].upgrades) == out[i].startingMoney - out[i].currentMoney
    {
      ChainedCostTelescopes(out[i].startingMoney, out[i].upgrades);
    }
  }

  /** Counting separators over a longer prefix never gives fewer. */
  lemma {:induction false} CountSeparatorsMonotone(kinds: seq<LineKind>, q: nat, p: nat)
    requires q <= p <= |kinds|
    ensures CountSeparators(kinds[..q]) <= CountSeparators(kinds[..p])
    decreases p
  {
    if q < p {
      CountSeparatorsMonotone(kinds, q, p - 1);
      assert kinds[..p][..p - 1] == kinds[..p - 1];
    }
  }

  /** No line before position `o` that lies in block `block` (the lines
      after `block` separators) holds a number. */
  ghost predicate NoNumberBefore(kinds: seq<LineKind>, o: int, block: nat)
    requires o <= |kinds|
  {
    forall q :: 0 <= q < o && CountSeparators(kinds[..q]) == block ==> !kinds[q].Amount?
  }

  lemma NoNumberBeforeExtends(kinds: seq<LineKind>, kind: LineKind, o: int, block: nat)
    requires o <= |kinds| && NoNumberBefore(kinds, o, block)
    ensures NoNumberBefore(kinds + [kind], o, block)
  {
    forall q | 0 <= q < o && CountSeparators((kinds + [kind])[..q]) == block
      ensures !(kinds + [kind])[q].Amount?
    {
      assert (kinds + [kind])[..q] == kinds[..q];
    }
  }

  /** Line `o` opened `s`: it is the first number line of its block, it holds
      the session's starting balance, and the session's number is one more
      than the number of separators before it. */
  ghost predicate OpensAtLine(s: Session, kinds: seq<LineKind>, o: int)
  {
    && 0 <= o < |kinds| && kinds[o] == Amount(s.startingMoney)
    && s.sessionNumber == Some(1 + CountSeparators(kinds[..o]))
    && NoNumberBefore(kinds, o, CountSeparators(kinds[..o]))
  }

  /** Some line opened `s`. */
  ghost predicate OpensAt(s: Session, kinds: seq<LineKind>)
  {
    exists o :: OpensAtLine(s, kinds, o)
  }

  /** The opening line of a session is determined by its number: two
      sessions with the same number were opened by the same line. */
  lemma OpeningLineIsUnique(s: Session, t: Session, kinds: seq<LineKind>, o1: int, o2: int)
    requires OpensAtLine(s, kinds, o1) && OpensAtLine(t, kinds, o2)
    requires s.sessionNumber == t.sessionNumber
    ensures o1 == o2 && s.startingMoney == t.startingMoney
  {
    if o1 < o2 {
      assert false;
    } else if o2 < o1 {
      assert false;
    }
  }

  lemma OpensAtExtends(s: Session, kinds: seq<LineKind>, kind: LineKind)
    requires OpensAt(s, kinds)
    ensures OpensAt(s, kinds + [kind])
  {
    var o :| OpensAtLine(s, kinds, o);
    assert (kinds + [kind])[..o] == kinds[..o];
    NoNumberBeforeExtends(kinds, kind, o, CountSeparators(kinds[..o]));
    assert OpensAtLine(s, kinds + [kind], o);
  }

  lemma OpensAtKept(s: Session, t: Session, kinds: seq<LineKind>)
    requires OpensAt(s, kinds)
    requires t.startingMoney == s.startingMoney && t.sessionNumber == s.sessionNumber
    ensures OpensAt(t, kinds)
  {
    var o :| OpensAtLine(s, kinds, o);
    assert OpensAtLine(t, kinds, o);
  }

  /** While scanning, the counter is one more than the separators read;
      every session, open or completed, knows the first number line of its
      block; and with no session open, the current block holds no number
      yet. */
  lemma {:induction false} ScanOpensAt(kinds: seq<LineKind>, now: string)
    ensures var st := RunFrom(Initial, kinds, now);
            && st.sessionNumber == 1 + CountSeparators(kinds)
            && (st.open.Some? ==> OpensAt(st.open.value, kinds))
            && (st.open.None? ==> NoNumberBefore(kinds, |kinds|, CountSeparators(kinds)))
            && (forall i :: 0 <= i < |st.sessions| ==> OpensAt(st.sessions[i], kinds))
  {
    if kinds != [] {
      var n := |kinds|;
      var front := kinds[..n - 1];
      var kind := kinds[n - 1];
      assert kinds == front + [kind];
      ScanOpensAt(front, now);
      var st := RunFrom(Initial, front, now);
      var block := CountSeparators(front);
      assert CountSeparators(kinds) == block + (if kind.Separator? then 1 else 0);
      forall i | 0 <= i < |st.sessions| ensures OpensAt(st.sessions[i], kinds) {
        OpensAtExtends(st.sessions[i], front, kind);
      }
      if st.open.Some? {
        OpensAtExtends(st.open.value, front, kind);
        OpensAtKept(st.open.value, Finalize(st.open.value, now), kinds);
        if kind.Amount? {
          OpensAtKept(st.open.value, AppendUpgrade(st.open.value, kind.value, now), kinds);
        }
      } else {
        NoNumberBeforeExtends(front, kind, n - 1, block);
        if kind.Amount? {
          assert OpensAtLine(Opened(kind.value, st.sessionNumber, now), kinds, n - 1);
        }
      }
      if kind.Separator? {
        forall q | 0 <= q < n
          ensures CountSeparators(kinds[..q]) <= block
        {
          CountSeparatorsMonotone(kinds, q, n - 1);
        }
      }
    }
  }

  /** The balances a session moved through: its starting balance, then
      the balance each of its upgrades reached. */
  function Amounts(s: Session): (r: seq<int>)
    ensures |r| == |s.upgrades| + 1 && r[0] == s.startingMoney
    ensures forall j :: 0 <= j < |s.upgrades| ==> r[j + 1] == s.upgrades[j].newAmount
  {
    [s.startingMoney] + seq(|s.upgrades|, j requires 0 <= j < |s.upgrades| => s.upgrades[j].newAmount)
  }

  /** A block's session moves through exactly the numbers of the block. */
  lemma BlockSessionAmounts(amounts: seq<int>, sessionNumber: int, now: string)
    requires amounts != []
    ensures Amounts(BlockSession(amounts, sessionNumber, now)) == amounts
  {
    var r := Amounts(BlockSession(amounts, sessionNumber, now));
    forall j | 1 <= j < |amounts|
      ensures r[j] == amounts[j]
    {
      assert amounts[1..][j - 1] == amounts[j];
    }
  }

  /** `s` is the finalised session of the block its number names among
      `blocks`, and that block holds at least two numbers. */
  predicate EmittedFrom(s: Session, blocks: seq<seq<int>>, now: string)
  {
    && s.sessionNumber.Some?
    && 1 <= s.sessionNumber.value <= |blocks|
    && |blocks[s.sessionNumber.value - 1]| >= 2
    && s == Finalize(BlockSession(blocks[s.sessionNumber.value - 1], s.sessionNumber.value, now), now)
  }

  /** Every session the blocks give is the finalised session of the block
      its number names. */
  lemma {:induction false} EmitFromBlocks(blocks: seq<seq<int>>, now: string)
    ensures forall i :: 0 <= i < |Emit(blocks, now)| ==> EmittedFrom(Emit(blocks, now)[i], blocks, now)
  {
    if blocks != [] {
      var n := |blocks|;
      var front := blocks[..n - 1];
      EmitFromBlocks(front, now);
      var earlier := Emit(front, now);
      var out := Emit(blocks, now);
      forall i | 0 <= i < |out|
        ensures EmittedFrom(out[i], blocks, now)
      {
        if i < |earlier| {
          assert out[i] == earlier[i];
          var k := earlier[i].sessionNumber.value;
          assert front[k - 1] == blocks[k - 1];
        } else {
          assert out[i] == Finalize(BlockSession(blocks[n - 1], n, now), now);
        }
      }
    }
  }

  /** `s` was read from the block of the line that opened it: that line is
      the first number of its block, and `s` moved through exactly the
      numbers of that block. */
  ghost predicate ReadFrom(s: Session, kinds: seq<LineKind>)
  {
    exists o ::
      && OpensAtLine(s, kinds, o)
      && CountSeparators(kinds[..o]) < |Blocks(kinds)|
      && Blocks(kinds)[CountSeparators(kinds[..o])] == Amounts(s)
  }

  lemma ReadFromBlock(s: Session, kinds: seq<LineKind>, k: nat)
    requires OpensAt(s, kinds) && s.sessionNumber == Some(k + 1)
    requires k < |Blocks(kinds)| && Blocks(kinds)[k] == Amounts(s)
    ensures ReadFrom(s, kinds)
  {
    var o :| OpensAtLine(s, kinds, o);
    assert CountSeparators(kinds[..o]) == k;
  }

  /** A session emitted from leading blocks of the lines, whose opening
      line is known, was read from that line's block. */
  lemma EmittedIsReadFrom(s: Session, kinds: seq<LineKind>, blocks: seq<seq<int>>, now: string)
    requires OpensAt(s, kinds) && EmittedFrom(s, blocks, now)
    requires |blocks| <= |Blocks(kinds)| && blocks == Blocks(kinds)[..|blocks|]
    ensures ReadFrom(s, kinds)
  {
    var k := s.sessionNumber.value;
    assert blocks[k - 1] == Blocks(kinds)[k - 1];
    BlockSessionAmounts(blocks[k - 1], k, now);
    ReadFromBlock(s, kinds, k - 1);
  }

  /** While scanning, the counter is one more than the separators read, and
      every session, open or completed, was read from the block of the line
      that opened it. */
  lemma ScanOpeningLines(kinds: seq<LineKind>, now: string)
    ensures var st := RunFrom(Initial, kinds, now);
            && st.sessionNumber == 1 + CountSeparators(kinds)
            && (st.open.Some? ==> ReadFrom(st.open.value, kinds))
            && (forall i :: 0 <= i < |st.sessions| ==> ReadFrom(st.sessions[i], kinds))
  {
    ScanOpensAt(kinds, now);
    ScanFollowsBlocks(kinds, now);
    var st := RunFrom(Initial, kinds, now);
    var blocks := Blocks(kinds);
    var n := |blocks|;
    if st.open.Some? {
      BlockSessionAmounts(blocks[n - 1], n, now);
      ReadFromBlock(st.open.value, kinds, n - 1);
    }
    EmitFromBlocks(blocks[..n - 1], now);
    forall i | 0 <= i < |st.sessions|
      ensures ReadFrom(st.sessions[i], kinds)
    {
      EmittedIsReadFrom(st.sessions[i], kinds, blocks[..n - 1], now);
    }
  }

  /** Each session the scanner returns is the session of the block its
      number names, finalised, and it was read from the block of the line
      that opened it. */
  lemma ScanSessionNumbers(kinds: seq<LineKind>, now: string)
    ensures var out := Scan(kinds, now);
            forall i :: 0 <= i < |out| ==>
              && ReadFrom(out[i], kinds)
              && EmittedFrom(out[i], Blocks(kinds), now)
              && out[i].sessionNumber.value <= CountSeparators(kinds) + 1
  {
    ScanOpensAt(kinds, now);
    var st := RunFrom(Initial, kinds, now);
    if st.open.Some? {
      OpensAtKept(st.open.value, Finalize(st.open.value, now), kinds);
    }
    ScanIsBlockSessions(kinds, now);
    var blocks := Blocks(kinds);
    EmitFromBlocks(blocks, now);
    var out := Scan(kinds, now);
    forall i | 0 <= i < |out|
      ensures ReadFrom(out[i], kinds)
    {
      assert OpensAt(out[i], kinds);
      EmittedIsReadFrom(out[i], kinds, blocks, now);
    }
  }
}
