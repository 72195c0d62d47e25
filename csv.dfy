/**
 * CSV ingestion of the slicer's upload handler: the text is split into lines,
 * line 0 gives the trimmed header labels, and every later line that is not
 * blank becomes a row holding one parsed number per comma-separated field
 * (row key `col<k>` is index k of the row).
 */
module Csv {
  import opened Wrappers
  import opened JsNumber

  type Row = seq<Num>

  datatype Table = Table(headers: seq<string>, rows: seq<Row>)

  // ---------------------------------------------------------------------
  // String.prototype.split with a one-character separator, and its inverse

  /** `s.split(sep)`: the maximal separator-free pieces between separators. */
  function Split(s: string, sep: char): (parts: seq<string>)
    ensures |parts| >= 1
    ensures forall i :: 0 <= i < |parts| ==> sep !in parts[i]
    decreases |s|
  {
    if |s| == 0 then [""]
    else
      var rest := Split(s[1..], sep);
      if s[0] == sep then [""] + rest
      else [[s[0]] + rest[0]] + rest[1..]
  }

  /** `parts.join(sep)`. */
  function Join(parts: seq<string>, sep: char): string
    requires |parts| >= 1
  {
    if |parts| == 1 then parts[0] else parts[0] + [sep] + Join(parts[1..], sep)
  }

  /** Number of occurrences of c in s. */
  function Count(s: string, c: char): nat {
    if |s| == 0 then 0 else (if s[0] == c then 1 else 0) + Count(s[1..], c)
  }

  /** Joining the pieces again gives back the text: no character is lost or added. */
  lemma {:induction false} JoinSplit(s: string, sep: char)
    ensures Join(Split(s, sep), sep) == s
    decreases |s|
  {
    if |s| > 0 {
      var rest := Split(s[1..], sep);
      JoinSplit(s[1..], sep);
      if s[0] == sep {
        assert Split(s, sep)[1..] == rest;
      } else if |rest| == 1 {
        assert Split(s, sep) == [[s[0]] + rest[0]];
      } else {
        var parts := Split(s, sep);
        assert parts[1..] == rest[1..];
        assert Join(rest, sep) == rest[0] + [sep] + Join(rest[1..], sep);
        assert s == [s[0]] + s[1..];
      }
    }
  }

  /** There is one piece more than there are separators. */
  lemma {:induction false} SplitCount(s: string, sep: char)
    ensures |Split(s, sep)| == Count(s, sep) + 1
    decreases |s|
  {
    if |s| > 0 {
      SplitCount(s[1..], sep);
    }
  }

  /** Text without the separator is a single piece. */
  lemma {:induction false} SplitNoSeparator(a: string, sep: char)
    requires sep !in a
    ensures Split(a, sep) == [a]
    decreases |a|
  {
    if |a| > 0 {
      assert sep !in a[1..];
      SplitNoSeparator(a[1..], sep);
      assert [a[0]] + a[1..] == a;
    }
  }

  /** The text before the first separator is the first piece; the rest is split on its own. */
  lemma {:induction false} SplitFirst(a: string, sep: char, b: string)
    requires sep !in a
    ensures Split(a + [sep] + b, sep) == [a] + Split(b, sep)
    decreases |a|
  {
    if |a| == 0 {
      assert a + [sep] + b == [sep] + b;
      assert ([sep] + b)[1..] == b;
    } else {
      var s := a + [sep] + b;
      assert s[1..] == a[1..] + [sep] + b;
      assert sep !in a[1..];
      SplitFirst(a[1..], sep, b);
      assert [a[0]] + a[1..] == a;
    }
  }

  // ---------------------------------------------------------------------
  // String.prototype.trim

  /** The characters JavaScript's trim removes: WhiteSpace and LineTerminator. */
  predicate IsWhitespace(c: char) {
    var n := c as int;
    n == 0x09 || n == 0x0A || n == 0x0B || n == 0x0C || n == 0x0D || n == 0x20
    || n == 0xA0 || n == 0x1680 || (0x2000 <= n <= 0x200A) || n == 0x2028
    || n == 0x2029 || n == 0x202F || n == 0x205F || n == 0x3000 || n == 0xFEFF
  }

  predicate AllWhitespace(s: string) {
    forall i :: 0 <= i < |s| ==> IsWhitespace(s[i])
  }

  /** Drops the leading whitespace: what remains starts with a non-blank. */
  function TrimStart(s: string): (r: string)
    ensures |r| <= |s|
    ensures AllWhitespace(s[..|s| - |r|])
    ensures r == [] || !IsWhitespace(r[0])
  {
    if |s| > 0 && IsWhitespace(s[0]) then TrimStart(s[1..]) else s
  }

  /** What TrimStart leaves is a suffix of s: only leading characters are dropped. */
  lemma {:induction false} TrimStartSuffix(s: string)
    ensures TrimStart(s) == s[|s| - |TrimStart(s)|..]
  {
    if |s| > 0 && IsWhitespace(s[0]) {
      TrimStartSuffix(s[1..]);
      assert s[1..][|s[1..]| - |TrimStart(s[1..])|..] == s[|s| - |TrimStart(s)|..];
    }
  }

  /** Drops the trailing whitespace: what remains is a prefix of s that ends with a non-blank. */
  function TrimEnd(s: string): (r: string)
    ensures |r| <= |s| && r == s[..|r|]
    ensures AllWhitespace(s[|r|..])
    ensures r == [] || !IsWhitespace(r[|r| - 1])
  {
    if |s| > 0 && IsWhitespace(s[|s| - 1]) then
      var r := TrimEnd(s[..|s| - 1]);
      assert s[|r|..] == s[..|s| - 1][|r|..] + [s[|s| - 1]];
      r
    else s
  }

  /** `s.trim()`. */
  function Trim(s: string): (r: string)
    ensures |r| <= |s|
    ensures r == [] || (!IsWhitespace(r[0]) && !IsWhitespace(r[|r| - 1]))
  {
    TrimEnd(TrimStart(s))
  }

  /**
   * The trimmed text is s with only whitespace cut from either end, and it
   * neither starts nor ends with whitespace.
   */
  lemma TrimShape(s: string)
    ensures exists i, j :: (0 <= i <= j <= |s| && Trim(s) == s[i..j]
      && AllWhitespace(s[..i]) && AllWhitespace(s[j..]))
    ensures Trim(s) == [] || (!IsWhitespace(Trim(s)[0]) && !IsWhitespace(Trim(s)[|Trim(s)| - 1]))
  {
    var t := TrimStart(s);
    TrimStartSuffix(s);
    var r := TrimEnd(t);
    var i := |s| - |t|;
    var j := i + |r|;
    assert r == s[i..j];
    assert s[j..] == t[|r|..];
    assert Trim(s) == s[i..j] && AllWhitespace(s[..i]) && AllWhitespace(s[j..]);
  }

  /** A line is dropped by the blank-line filter exactly when it holds only whitespace. */
  lemma TrimEmptyIffBlank(s: string)
    ensures Trim(s) == "" <==> AllWhitespace(s)
  {
    var t := TrimStart(s);
    if Trim(s) == "" {
      assert t[0..] == t;
      assert t == [];
      assert s[..|s|] == s;
    }
    if AllWhitespace(s) {
      AllWhitespaceTrimStart(s);
    }
  }

  lemma {:induction false} AllWhitespaceTrimStart(s: string)
    requires AllWhitespace(s)
    ensures TrimStart(s) == []
  {
    if |s| > 0 {
      AllWhitespaceTrimStart(s[1..]);
    }
  }

  // ---------------------------------------------------------------------
  // parseFloat

  predicate IsDigit(c: char) {
    '0' <= c <= '9'
  }

  predicate AllDigits(s: string) {
    forall i :: 0 <= i < |s| ==> IsDigit(s[i])
  }

  function DigitValue(c: char): (d: nat)
    requires IsDigit(c)
    ensures d < 10
  {
    c as int - '0' as int
  }

  /** Length of the longest prefix of s made of decimal digits. */
  function DigitRun(s: string): (n: nat)
    ensures n <= |s| && AllDigits(s[..n])
    ensures n < |s| ==> !IsDigit(s[n])
  {
    if |s| > 0 && IsDigit(s[0]) then 1 + DigitRun(s[1..]) else 0
  }

  /** The integer a digit string denotes. */
  function NatValue(ds: string): nat
    requires AllDigits(ds)
  {
    if |ds| == 0 then 0 else 10 * NatValue(ds[..|ds| - 1]) + DigitValue(ds[|ds| - 1])
  }

  /** The fraction `0.ds` a digit string denotes after the decimal point. */
  function FracValue(ds: string): (f: real)
    requires AllDigits(ds)
    ensures 0.0 <= f < 1.0
  {
    if |ds| == 0 then 0.0 else (DigitValue(ds[0]) as real + FracValue(ds[1..])) / 10.0
  }

  function Pow10(k: nat): (p: real)
    ensures p >= 1.0
  {
    if k == 0 then 1.0 else 10.0 * Pow10(k - 1)
  }

  /**
   * The factor an exponent part `e[+|-]digits` (or `E...`) at the start of s
   * contributes; 1 when s does not start with a complete exponent part.
   */
  function ExponentFactor(s: string): (f: real)
    ensures f > 0.0
  {
    if |s| >= 2 && (s[0] == 'e' || s[0] == 'E') then
      var ds := if s[1] == '+' || s[1] == '-' then s[2..] else s[1..];
      var k := DigitRun(ds);
      if k == 0 then 1.0
      else if s[1] == '-' then 1.0 / Pow10(NatValue(ds[..k]))
      else Pow10(NatValue(ds[..k]))
    else 1.0
  }

  /** A decimal prefix is present: s starts with a digit, or with `.` and a digit. */
  predicate StartsNumber(s: string) {
    (|s| > 0 && IsDigit(s[0])) || (|s| > 1 && s[0] == '.' && IsDigit(s[1]))
  }

  /** The text after an optional leading sign. */
  function Unsigned(t: string): (u: string)
    ensures |u| <= |t|
  {
    if |t| > 0 && (t[0] == '-' || t[0] == '+') then t[1..] else t
  }

  /**
   * The longest prefix of s of the form `digits[.digits][exponent]` or
   * `.digits[exponent]`, as a number; NaN when there is none.
   */
  function ParseUnsigned(s: string): (r: Num)
    ensures r.None? <==> !StartsNumber(s)
  {
    var n := DigitRun(s);
    var hasDot := n < |s| && s[n] == '.';
    var f := if hasDot then DigitRun(s[n + 1..]) else 0;
    if n == 0 && f == 0 then None
    else
      var frac := if hasDot then FracValue(s[n + 1..][..f]) else 0.0;
      var rest := if hasDot then s[n + 1 + f..] else s[n..];
      Some((NatValue(s[..n]) as real + frac) * ExponentFactor(rest))
  }

  /** `parseFloat(s)`: skips leading whitespace, reads an optional sign and a decimal prefix. */
  function ParseFloat(s: string): (r: Num)
    ensures TrimStart(s) == [] ==> r.None?
    ensures r.None? <==> !StartsNumber(Unsigned(TrimStart(s)))
  {
    var t := TrimStart(s);
    if |t| > 0 && t[0] == '-' then
      (match ParseUnsigned(t[1..]) case None => None case Some(v) => Some(-v))
    else if |t| > 0 && t[0] == '+' then ParseUnsigned(t[1..])
    else ParseUnsigned(t)
  }

  /** A digit run stops at the first character that is not a digit. */
  lemma {:induction false} DigitRunUpTo(s: string, n: nat)
    requires n <= |s| && AllDigits(s[..n])
    requires n == |s| || !IsDigit(s[n])
    ensures DigitRun(s) == n
  {
    if n > 0 {
      assert s[..n][0] == s[0];
      assert s[1..][..n - 1] == s[..n][1..];
      DigitRunUpTo(s[1..], n - 1);
    }
  }

  lemma AfterDot(s: string, n: nat, f: nat)
    requires n + 1 + f == |s|
    ensures s[n + 1..][..f] == s[n + 1..] && s[n + 1 + f..] == []
  {
  }

  /**
   * Read at the dot: when s has n digits, a dot and then exactly f digits, it
   * parses to the whole part plus the fraction.
   */
  lemma ParseUnsignedAtDot(s: string, n: nat, f: nat)
    requires n + 1 + f == |s| && n + f > 0
    requires DigitRun(s) == n && s[n] == '.' && DigitRun(s[n + 1..]) == f
    requires AllDigits(s[n + 1..])
    ensures ParseUnsigned(s) == Some(NatValue(s[..n]) as real + FracValue(s[n + 1..]))
  {
    AfterDot(s, n, f);
  }

  /**
   * Text made of digits, one dot at position n and digits again (`12.5`, `.5`,
   * `12.`) parses to the whole part plus the fraction.
   */
  lemma ParseUnsignedDecimal(s: string, n: nat)
    requires n < |s| && 1 < |s| && s[n] == '.'
    requires AllDigits(s[..n]) && AllDigits(s[n + 1..])
    ensures ParseUnsigned(s) == Some(NatValue(s[..n]) as real + FracValue(s[n + 1..]))
  {
    DigitRunUpTo(s, n);
    var b := s[n + 1..];
    assert b[..|b|] == b;
    DigitRunUpTo(b, |b|);
    ParseUnsignedAtDot(s, n, |b|);
  }

  /** Text that starts with a digit or a dot is read unsigned, and a leading minus negates it. */
  lemma ParseFloatSign(u: string, v: real)
    requires |u| > 0 && (IsDigit(u[0]) || u[0] == '.')
    requires ParseUnsigned(u) == Some(v)
    ensures ParseFloat(u) == Some(v)
    ensures ParseFloat(['-'] + u) == Some(-v)
  {
    assert TrimStart(u) == u;
    var t := ['-'] + u;
    assert TrimStart(t) == t;
    assert t[1..] == u;
  }

  /** The decimal digits of n, without leading zeros: `String(n)` for a whole number. */
  function DecimalString(n: nat): (s: string)
    ensures |s| > 0 && AllDigits(s)
  {
    if n < 10 then ['0' + n as char]
    else DecimalString(n / 10) + ['0' + (n % 10) as char]
  }

  lemma {:induction false} NatValueDecimalString(n: nat)
    ensures NatValue(DecimalString(n)) == n
  {
    if n >= 10 {
      var s := DecimalString(n);
      assert s[..|s| - 1] == DecimalString(n / 10);
      NatValueDecimalString(n / 10);
    }
  }

  lemma {:induction false} DigitRunAll(s: string)
    requires AllDigits(s)
    ensures DigitRun(s) == |s|
  {
    if |s| > 0 {
      DigitRunAll(s[1..]);
    }
  }

  /** A non-empty digit string parses to the whole number it denotes. */
  lemma ParseUnsignedDigits(s: string)
    requires |s| > 0 && AllDigits(s)
    ensures ParseUnsigned(s) == Some(NatValue(s) as real)
  {
    DigitRunAll(s);
    assert s[..|s|] == s;
    assert ExponentFactor(s[|s|..]) == 1.0;
  }

  /** Parsing the decimal text of a whole number gives that number back. */
  lemma ParseDecimalString(n: nat)
    ensures ParseFloat(DecimalString(n)) == Some(n as real)
    ensures ParseFloat("-" + DecimalString(n)) == Some(-(n as real))
  {
    var s := DecimalString(n);
    ParseUnsignedDigits(s);
    NatValueDecimalString(n);
    assert !IsWhitespace(s[0]) && s[0] != '-' && s[0] != '+';
    var m := "-" + s;
    assert !IsWhitespace(m[0]);
    assert m[1..] == s;
  }

  /** Text with no digit at all is not a number. */
  lemma ParseFloatNoDigits(s: string)
    requires forall i :: 0 <= i < |s| ==> !IsDigit(s[i])
    ensures ParseFloat(s) == None
  {
    var t := TrimStart(s);
    TrimStartSuffix(s);
    assert forall i :: 0 <= i < |t| ==> t[i] == s[|s| - |t| + i];
    if |t| > 0 && (t[0] == '-' || t[0] == '+') {
      NoDigitsUnsigned(t[1..]);
    } else {
      NoDigitsUnsigned(t);
    }
  }

  lemma NoDigitsUnsigned(s: string)
    requires forall i :: 0 <= i < |s| ==> !IsDigit(s[i])
    ensures ParseUnsigned(s) == None
  {
    assert |s| == 0 || !IsDigit(s[0]);
    assert DigitRun(s) == 0;
    if 0 < |s| {
      assert |s[1..]| == 0 || !IsDigit(s[1..][0]);
      assert DigitRun(s[1..]) == 0;
    }
  }

  // ---------------------------------------------------------------------
  // Rows and the whole file

  /** `s.map(f)`. */
  function Map<A, B>(f: A -> B, s: seq<A>): (r: seq<B>)
    ensures |r| == |s|
    ensures forall i :: 0 <= i < |s| ==> r[i] == f(s[i])
  {
    if |s| == 0 then [] else [f(s[0])] + Map(f, s[1..])
  }

  /** One field of a data line: `parseFloat(val.trim())`. */
  function ParseField(field: string): (r: Num)
    ensures AllWhitespace(field) ==> r.None?
  {
    TrimEmptyIffBlank(field);
    ParseFloat(Trim(field))
  }

  /** One row: the line's comma-separated fields, parsed; field k becomes `col<k>`. */
  function ParseRow(line: string): (r: Row)
    ensures |r| >= 1
  {
    Map(ParseField, Split(line, ','))
  }

  /** `lines.filter(line => line.trim())`: the lines that are not blank, in order. */
  function NonBlank(lines: seq<string>): (r: seq<string>)
    ensures |r| <= |lines|
  {
    if |lines| == 0 then []
    else (if Trim(lines[0]) != "" then [lines[0]] else []) + NonBlank(lines[1..])
  }

  /** The parse of the whole text in the `onload` callback of `handleFileUpload`. */
  function Parse(text: string): (r: Table)
    ensures |r.headers| >= 1
    ensures |r.rows| < |Split(text, '\n')|
  {
    var lines := Split(text, '\n');
    Table(Map(Trim, Split(lines[0], ',')), Map(ParseRow, NonBlank(lines[1..])))
  }

  /** The filter works line by line, so it keeps the order of the lines it keeps. */
  lemma {:induction false} NonBlankAppend(a: seq<string>, b: seq<string>)
    ensures NonBlank(a + b) == NonBlank(a) + NonBlank(b)
  {
    if |a| > 0 {
      assert (a + b)[1..] == a[1..] + b;
      NonBlankAppend(a[1..], b);
    } else {
      assert a + b == b;
    }
  }

  /** A line survives the filter exactly when it is one of the lines and is not blank. */
  lemma {:induction false} NonBlankMembers(lines: seq<string>, x: string)
    ensures x in NonBlank(lines) <==> x in lines && Trim(x) != ""
  {
    if |lines| > 0 {
      NonBlankMembers(lines[1..], x);
      assert lines == [lines[0]] + lines[1..];
    }
  }

  /** Lines none of which is blank all survive the filter. */
  lemma {:induction false} NonBlankKeepsAll(lines: seq<string>)
    requires forall i :: 0 <= i < |lines| ==> Trim(lines[i]) != ""
    ensures NonBlank(lines) == lines
  {
    if |lines| > 0 {
      NonBlankKeepsAll(lines[1..]);
    }
  }

  /** A row has exactly one cell per comma-separated field, one more than its commas. */
  lemma RowArity(line: string)
    ensures |ParseRow(line)| == Count(line, ',') + 1
    ensures forall k :: 0 <= k < |ParseRow(line)| ==>
      ParseRow(line)[k] == ParseField(Split(line, ',')[k])
  {
    SplitCount(line, ',');
  }

  /**
   * The headers are the trimmed fields of line 0, one per field, and row i is
   * the parse of the i-th non-blank line after line 0.
   */
  lemma ParseShape(text: string)
    ensures var lines := Split(text, '\n');
      && |Parse(text).headers| == Count(lines[0], ',') + 1
      && (forall k :: 0 <= k < |Parse(text).headers| ==>
            Parse(text).headers[k] == Trim(Split(lines[0], ',')[k]))
      && |Parse(text).rows| == |NonBlank(lines[1..])|
      && (forall i :: 0 <= i < |Parse(text).rows| ==>
            Parse(text).rows[i] == ParseRow(NonBlank(lines[1..])[i]))
  {
    SplitCount(Split(text, '\n')[0], ',');
  }

  /** Trimming text that has no whitespace at either end changes nothing. */
  lemma TrimUnchanged(s: string)
    requires s == [] || (!IsWhitespace(s[0]) && !IsWhitespace(s[|s| - 1]))
    ensures Trim(s) == s
  {
  }

  lemma ExampleLines(text: string)
    requires text == "h1,h2\n1,2\n3,4\n"
    ensures Split(text, '\n') == ["h1,h2", "1,2", "3,4", ""]
  {
    var l0, l1, l2 := "h1,h2", "1,2", "3,4";
    var t2 := l2 + ['\n'] + "";
    var t1 := l1 + ['\n'] + t2;
    assert text == l0 + ['\n'] + t1;
    SplitFirst(l2, '\n', "");
    SplitFirst(l1, '\n', t2);
    SplitFirst(l0, '\n', t1);
  }

  lemma MapPair<A, B>(f: A -> B, a: A, b: A)
    ensures Map(f, [a, b]) == [f(a), f(b)]
  {
    var r := Map(f, [a, b]);
    assert r[0] == f(a) && r[1] == f(b);
  }

  /** A field made of one digit parses to that digit. */
  lemma DigitField(c: char)
    requires IsDigit(c)
    ensures ParseField([c]) == Some(DigitValue(c) as real)
  {
    TrimUnchanged([c]);
    ParseUnsignedDigits([c]);
    assert [c][..0] == [];
  }

  /** A line `a,b` of two digits parses to the row of those two numbers. */
  lemma DigitRow(a: char, b: char)
    requires IsDigit(a) && IsDigit(b)
    ensures ParseRow([a, ',', b]) == [Some(DigitValue(a) as real), Some(DigitValue(b) as real)]
  {
    assert [a, ',', b] == [a] + [','] + [b];
    SplitFirst([a], ',', [b]);
    SplitNoSeparator([b], ',');
    MapPair(ParseField, [a], [b]);
    DigitField(a);
    DigitField(b);
  }

  /** A name that starts with a letter and ends with a letter or digit is its own trim. */
  lemma TrimName(a: string)
    requires |a| > 0 && 'a' <= a[0] <= 'z'
    requires 'a' <= a[|a| - 1] <= 'z' || '0' <= a[|a| - 1] <= '9'
    ensures Trim(a) == a
  {
    TrimUnchanged(a);
  }

  lemma HeaderLine(l0: string)
    requires l0 == "h1,h2"
    ensures Split(l0, ',') == ["h1", "h2"]
  {
    var h1, h2 := "h1", "h2";
    assert l0 == h1 + [','] + h2;
    SplitFirst(h1, ',', h2);
    SplitNoSeparator(h2, ',');
  }

  lemma NonBlankSingle(x: string)
    ensures NonBlank([x]) == if Trim(x) != "" then [x] else []
  {
    assert [x][1..] == [];
  }

  lemma ExampleNonBlank(rest: seq<string>, r1: string, r2: string)
    requires r1 != [] && !IsWhitespace(r1[0]) && !IsWhitespace(r1[|r1| - 1])
    requires r2 != [] && !IsWhitespace(r2[0]) && !IsWhitespace(r2[|r2| - 1])
    requires rest == [r1] + ([r2] + [""])
    ensures NonBlank(rest) == [r1, r2]
  {
    TrimUnchanged(r1);
    TrimUnchanged(r2);
    NonBlankAppend([r1], [r2] + [""]);
    NonBlankAppend([r2], [""]);
    NonBlankSingle(r1);
    NonBlankSingle(r2);
    NonBlankSingle("");
  }

  /** Parsing `"h1,h2\n1,2\n3,4\n"`: the header line gives the trimmed names h1 and h2. */
  lemma ExampleHeaders(text: string)
    requires text == "h1,h2\n1,2\n3,4\n"
    ensures Parse(text).headers == ["h1", "h2"]
  {
    ExampleLines(text);
    var l0 := Split(text, '\n')[0];
    HeaderLine(l0);
    var a, b := "h1", "h2";
    TrimName(a);
    TrimName(b);
    MapPair(Trim, a, b);
  }

  /** Parsing `"h1,h2\n1,2\n3,4\n"`: two data rows, and the empty line after the final newline is dropped. */
  lemma ExampleRows(text: string)
    requires text == "h1,h2\n1,2\n3,4\n"
    ensures Parse(text).rows == [[Some(1.0), Some(2.0)], [Some(3.0), Some(4.0)]]
  {
    ExampleLines(text);
    var lines := Split(text, '\n');
    var r1, r2 := ['1', ',', '2'], ['3', ',', '4'];
    assert lines[1..] == [r1] + ([r2] + [""]);
    ExampleNonBlank(lines[1..], r1, r2);
    MapPair(ParseRow, r1, r2);
    DigitRow('1', '2');
    DigitRow('3', '4');
  }

  /** Parsing `"h1,h2\n1,2\n3,4\n"`: a header line, two data lines and a final newline. */
  lemma ExampleParse(text: string)
    requires text == "h1,h2\n1,2\n3,4\n"
    ensures Parse(text) == Table(["h1", "h2"], [[Some(1.0), Some(2.0)], [Some(3.0), Some(4.0)]])
  {
    ExampleHeaders(text);
    ExampleRows(text);
  }
}
