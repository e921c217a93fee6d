/** The JavaScript string operations the dashboard relies on: `String.prototype.trim`,
    the `/\s+/g` whitespace class, ASCII lower-casing, and the decimal rendering of
    integers done by template literals and `Number.prototype.toString`. */
module JsText {

  import opened Options

  /** The characters JavaScript counts as WhiteSpace or LineTerminator: the set removed
      by `trim` and matched by `\s` in a regular expression. */
  predicate IsWhitespace(c: char) {
    || c == '\t' || c == '\n' || c == '\U{000B}' || c == '\U{000C}' || c == '\r' || c == ' '
    || c == '\U{00A0}' || c == '\U{1680}' || ('\U{2000}' <= c <= '\U{200A}')
    || c == '\U{2028}' || c == '\U{2029}' || c == '\U{202F}' || c == '\U{205F}'
    || c == '\U{3000}' || c == '\U{FEFF}'
  }

  /** A string made of whitespace only (the empty string included). */
  predicate IsBlank(s: string) {
    forall i :: 0 <= i < |s| ==> IsWhitespace(s[i])
  }

  /** The number of whitespace characters `s` starts with. */
  function LeadingWhitespace(s: string): (k: nat)
    ensures k <= |s|
    ensures forall i :: 0 <= i < k ==> IsWhitespace(s[i])
    ensures k < |s| ==> !IsWhitespace(s[k])
  {
    if |s| > 0 && IsWhitespace(s[0]) then 1 + LeadingWhitespace(s[1..]) else 0
  }

  /** The number of whitespace characters `s` ends with. */
  function TrailingWhitespace(s: string): (k: nat)
    ensures k <= |s|
    ensures forall i :: |s| - k <= i < |s| ==> IsWhitespace(s[i])
    ensures k < |s| ==> !IsWhitespace(s[|s| - 1 - k])
  {
    if |s| > 0 && IsWhitespace(s[|s| - 1]) then 1 + TrailingWhitespace(s[..|s| - 1]) else 0
  }

  /** Removes the leading whitespace: the result is a suffix of `s` that does not start
      with whitespace, and everything cut off is whitespace. */
  function TrimStart(s: string): (r: string)
    ensures |r| <= |s| && r == s[|s| - |r|..]
    ensures r == [] || !IsWhitespace(r[0])
    ensures forall i :: 0 <= i < |s| - |r| ==> IsWhitespace(s[i])
  {
    s[LeadingWhitespace(s)..]
  }

  /** `s.trim()`: the slice of `s` between its leading and its trailing whitespace.
      It neither starts nor ends with whitespace, and it is empty exactly when `s` is
      blank. */
  function Trim(s: string): (r: string)
    ensures var lo := LeadingWhitespace(s); lo + |r| <= |s| && r == s[lo..lo + |r|]
    ensures r == [] || (!IsWhitespace(r[0]) && !IsWhitespace(r[|r| - 1]))
    ensures r == [] <==> IsBlank(s)
    ensures forall i :: LeadingWhitespace(s) + |r| <= i < |s| ==> IsWhitespace(s[i])
  {
    var lo, k := LeadingWhitespace(s), TrailingWhitespace(s);
    if lo == |s| then []
    else
      assert lo < |s| - k by {
        assert !IsWhitespace(s[lo]);
      }
      s[lo..|s| - k]
  }

  /** Trimming twice is trimming once. */
  lemma {:induction false} TrimIdempotent(s: string)
    ensures Trim(Trim(s)) == Trim(s)
  {
    var r := Trim(s);
    if r != [] {
      assert LeadingWhitespace(r) == 0 by {
        assert !IsWhitespace(r[0]);
      }
      assert TrailingWhitespace(r) == 0 by {
        assert !IsWhitespace(r[|r| - 1]);
      }
      assert r[0..|r|] == r;
    }
  }

  /** `trim()` is determined by its result: text that is some whitespace, then a
      part with no whitespace at either end, then more whitespace, trims to that
      part. */
  lemma TrimUnique(s: string, a: string, r: string, b: string)
    requires s == a + r + b
    requires IsBlank(a) && IsBlank(b)
    requires r == [] || (!IsWhitespace(r[0]) && !IsWhitespace(r[|r| - 1]))
    ensures Trim(s) == r
  {
    assert forall i :: 0 <= i < |a| ==> s[i] == a[i];
    assert forall i :: 0 <= i < |b| ==> s[|a| + |r| + i] == b[i];
    if r == [] {
      assert IsBlank(s) by {
        forall i | 0 <= i < |s| ensures IsWhitespace(s[i]) {
          if i >= |a| {
            assert s[i] == b[i - |a|];
          }
        }
      }
    } else {
      var k := |a| + |r|;
      assert s[|a|] == r[0] && s[k - 1] == r[|r| - 1];
      assert LeadingWhitespace(s) == |a|;
      var t := Trim(s);
      assert t != [] by {
        assert !IsWhitespace(s[|a|]);
      }
      assert t == s[|a|..k] == r;
    }
  }

  /** Trimming `first + " " + last`: a blank part drops out, and otherwise the
      leading whitespace of `first` and the trailing whitespace of `last` go. */
  lemma TrimJoin(first: string, last: string)
    ensures IsBlank(first) ==> Trim(first + " " + last) == Trim(last)
    ensures IsBlank(last) ==> Trim(first + " " + last) == Trim(first)
    ensures !IsBlank(first) && !IsBlank(last) ==>
      Trim(first + " " + last) ==
        first[LeadingWhitespace(first)..] + " " + last[..|last| - TrailingWhitespace(last)]
  {
    if IsBlank(first) {
      TrimJoinBlankFirst(first, last);
    }
    if IsBlank(last) {
      TrimJoinBlankLast(first, last);
    }
    if !IsBlank(first) && !IsBlank(last) {
      TrimJoinBothNamed(first, last);
    }
  }

  lemma AppendAssoc<T>(x: seq<T>, y: seq<T>, z: seq<T>)
    ensures x + (y + z) == (x + y) + z
  {
  }

  /** Two blank texts joined by a space are blank. */
  lemma BlankJoin(x: string, y: string)
    requires IsBlank(x) && IsBlank(y)
    ensures IsBlank(x + " " + y)
  {
    var j := x + " " + y;
    assert forall i :: 0 <= i < |x| ==> j[i] == x[i];
    assert forall i :: 0 <= i < |y| ==> j[|x| + 1 + i] == y[i];
  }

  lemma TrimJoinBlankFirst(first: string, last: string)
    requires IsBlank(first)
    ensures Trim(first + " " + last) == Trim(last)
  {
    TrimSlices(last);
    var lo, r := LeadingWhitespace(last), Trim(last);
    var lead, b := last[..lo], last[lo + |r|..];
    var a := first + " " + lead;
    BlankJoin(first, lead);
    calc {
      first + " " + last;
      (first + " ") + ((lead + r) + b);
      { AppendAssoc(first + " ", lead + r, b); }
      ((first + " ") + (lead + r)) + b;
      { AppendAssoc(first + " ", lead, r); }
      a + r + b;
    }
    TrimUnique(first + " " + last, a, r, b);
  }

  lemma TrimJoinBlankLast(first: string, last: string)
    requires IsBlank(last)
    ensures Trim(first + " " + last) == Trim(first)
  {
    TrimSlices(first);
    var lo, r := LeadingWhitespace(first), Trim(first);
    var a, rest := first[..lo], first[lo + |r|..];
    var b := rest + " " + last;
    BlankJoin(rest, last);
    calc {
      first + " " + last;
      ((a + r) + rest) + (" " + last);
      { AppendAssoc(a + r, rest, " " + last); }
      (a + r) + (rest + (" " + last));
      { AppendAssoc(rest, " ", last); }
      a + r + b;
    }
    TrimUnique(first + " " + last, a, r, b);
  }

  lemma TrimJoinBothNamed(first: string, last: string)
    requires !IsBlank(first) && !IsBlank(last)
    ensures Trim(first + " " + last) ==
      first[LeadingWhitespace(first)..] + " " + last[..|last| - TrailingWhitespace(last)]
  {
    var a, r, b := JoinPieces(first, last);
    TrimUnique(first + " " + last, a, r, b);
  }

  /** `first + " " + last` cut into the three pieces `trim()` sees, when neither
      part is blank. */
  lemma JoinPieces(first: string, last: string) returns (a: string, r: string, b: string)
    requires !IsBlank(first) && !IsBlank(last)
    ensures r == first[LeadingWhitespace(first)..] + " " + last[..|last| - TrailingWhitespace(last)]
    ensures first + " " + last == a + r + b && IsBlank(a) && IsBlank(b)
    ensures r != [] && !IsWhitespace(r[0]) && !IsWhitespace(r[|r| - 1])
  {
    var lo, k := LeadingWhitespace(first), TrailingWhitespace(last);
    WhitespaceEdges(first, last);
    var head, tail := first[lo..], last[..|last| - k];
    a, b := first[..lo], last[|last| - k..];
    JoinedEnds(head, tail);
    assert first == a + head && last == tail + b;
    Regroup(a, head, tail, b);
    r := head + " " + tail;
  }

  /** Cutting the leading whitespace off a non-blank `first` and the trailing
      whitespace off a non-blank `last` cuts blank pieces and leaves pieces that
      start, and end, with a character that is not whitespace. */
  lemma WhitespaceEdges(first: string, last: string)
    requires !IsBlank(first) && !IsBlank(last)
    ensures var lo, k := LeadingWhitespace(first), TrailingWhitespace(last);
      lo < |first| && k < |last| &&
      IsBlank(first[..lo]) && IsBlank(last[|last| - k..]) &&
      var head, tail := first[lo..], last[..|last| - k];
      head != [] && tail != [] && !IsWhitespace(head[0]) && !IsWhitespace(tail[|tail| - 1])
  {
  }

  /** Joining by a space keeps the first character of `head` and the last of `tail`. */
  lemma JoinedEnds(head: string, tail: string)
    requires head != [] && tail != [] && !IsWhitespace(head[0]) && !IsWhitespace(tail[|tail| - 1])
    ensures var r := head + " " + tail; !IsWhitespace(r[0]) && !IsWhitespace(r[|r| - 1])
  {
    var r := head + " " + tail;
    assert r[0] == head[0] && r[|r| - 1] == tail[|tail| - 1];
  }

  lemma Regroup(a: string, head: string, tail: string, b: string)
    ensures (a + head) + " " + (tail + b) == a + (head + " " + tail) + b
  {
  }

  /** The three pieces `trim()` cuts a string into: its leading whitespace, the
      result, and its trailing whitespace. */
  lemma TrimSlices(s: string)
    ensures var lo, r := LeadingWhitespace(s), Trim(s);
      lo + |r| <= |s| && s == s[..lo] + r + s[lo + |r|..] &&
      IsBlank(s[..lo]) && IsBlank(s[lo + |r|..])
  {
    var lo, r := LeadingWhitespace(s), Trim(s);
    assert s == s[..lo] + s[lo..lo + |r|] + s[lo + |r|..];
  }

  /** One character of `toLowerCase` restricted to ASCII: 'A'..'Z' move down by 32. */
  function LowerAscii(c: char): (d: char)
    ensures !('A' <= d <= 'Z')
    ensures IsWhitespace(d) == IsWhitespace(c)
    ensures 'A' <= c <= 'Z' ==> d as int == c as int + 32
    ensures !('A' <= c <= 'Z') ==> d == c
  {
    if 'A' <= c <= 'Z' then (c as int + 32) as char else c
  }

  /** ASCII upper-case letters mapped to lower case; every other character unchanged. */
  function ToLowerAscii(s: string): (r: string)
    ensures |r| == |s|
    ensures forall i :: 0 <= i < |s| ==> r[i] == LowerAscii(s[i])
    ensures forall i :: 0 <= i < |s| ==> IsWhitespace(r[i]) == IsWhitespace(s[i])
    ensures forall i :: 0 <= i < |s| ==> !('A' <= r[i] <= 'Z')
  {
    if s == [] then [] else [LowerAscii(s[0])] + ToLowerAscii(s[1..])
  }

  /** `s.replace(/\s+/g, '-')`: every maximal run of whitespace becomes one '-'. The
      result holds no whitespace and is no longer than `s`. */
  function DashWhitespaceRuns(s: string): (r: string)
    ensures |r| <= |s|
    ensures forall i :: 0 <= i < |r| ==> !IsWhitespace(r[i])
    ensures r == [] <==> s == []
    decreases |s|
  {
    if s == [] then []
    else if IsWhitespace(s[0]) then "-" + DashWhitespaceRuns(TrimStart(s))
    else [s[0]] + DashWhitespaceRuns(s[1..])
  }

  /** Text without whitespace is left as it is. */
  lemma {:induction false} DashOfWord(s: string)
    requires forall i :: 0 <= i < |s| ==> !IsWhitespace(s[i])
    ensures DashWhitespaceRuns(s) == s
  {
    if s != [] {
      DashOfWord(s[1..]);
    }
  }

  /** A non-empty run of whitespace alone becomes a single '-'. */
  lemma DashOfRun(w: string)
    requires w != [] && IsBlank(w)
    ensures DashWhitespaceRuns(w) == "-"
  {
    assert LeadingWhitespace(w) == |w|;
    assert TrimStart(w) == [];
  }

  /** Leading whitespace is a property of the front of a string: appending `b` to `a`
      changes it only when `a` is all whitespace and `b` starts with more. */
  lemma {:induction false} LeadingWhitespaceAppend(a: string, b: string)
    requires LeadingWhitespace(a) < |a| || b == [] || !IsWhitespace(b[0])
    ensures LeadingWhitespace(a + b) == LeadingWhitespace(a)
  {
    if a != [] {
      assert (a + b)[0] == a[0];
      if IsWhitespace(a[0]) {
        LeadingWhitespaceAppend(a[1..], b);
        assert (a + b)[1..] == a[1..] + b;
      }
    } else {
      assert a + b == b;
    }
  }

  /** `replace` works piece by piece: splitting a string anywhere except inside a
      run of whitespace and replacing each piece gives the same result. With
      `DashOfRun` and `DashOfWord` this determines the
      result on every string: its words are kept in order and each run between them
      becomes one '-'. */
  lemma {:induction false} DashSplit(a: string, b: string)
    requires a == [] || b == [] || !IsWhitespace(a[|a| - 1]) || !IsWhitespace(b[0])
    ensures DashWhitespaceRuns(a + b) == DashWhitespaceRuns(a) + DashWhitespaceRuns(b)
    decreases |a|, 1
  {
    if a == [] {
      assert a + b == b;
    } else if !IsWhitespace(a[0]) {
      DashSplitWord(a, b);
    } else if LeadingWhitespace(a) < |a| {
      DashSplitRun(a, b);
    } else {
      assert IsBlank(a);
      LeadingWhitespaceAppend(a, b);
      assert TrimStart(a + b) == b;
      DashOfRun(a);
    }
  }

  /** `DashSplit` when `a` starts with a word character. */
  lemma {:induction false} DashSplitWord(a: string, b: string)
    requires a != [] && !IsWhitespace(a[0])
    requires b == [] || !IsWhitespace(a[|a| - 1]) || !IsWhitespace(b[0])
    ensures DashWhitespaceRuns(a + b) == DashWhitespaceRuns(a) + DashWhitespaceRuns(b)
    decreases |a|, 0
  {
    var w := a[1..];
    assert (a + b)[0] == a[0] && (a + b)[1..] == w + b;
    DashOfWordStart(a + b);
    DashOfWordStart(a);
    assert w == [] || w[|w| - 1] == a[|a| - 1];
    DashSplit(w, b);
    AppendAssoc([a[0]], DashWhitespaceRuns(w), DashWhitespaceRuns(b));
  }

  /** A string starting with a word character keeps that character in front. */
  lemma DashOfWordStart(s: string)
    requires s != [] && !IsWhitespace(s[0])
    ensures DashWhitespaceRuns(s) == [s[0]] + DashWhitespaceRuns(s[1..])
  {
  }

  /** `DashSplit` when `a` starts with whitespace but is not all whitespace. */
  lemma {:induction false} DashSplitRun(a: string, b: string)
    requires a != [] && IsWhitespace(a[0]) && LeadingWhitespace(a) < |a|
    requires b == [] || !IsWhitespace(a[|a| - 1]) || !IsWhitespace(b[0])
    ensures DashWhitespaceRuns(a + b) == DashWhitespaceRuns(a) + DashWhitespaceRuns(b)
    decreases |a|, 0
  {
    var t := TrimStart(a);
    calc {
      DashWhitespaceRuns(a + b);
      { assert (a + b)[0] == a[0]; LeadingWhitespaceAppend(a, b); assert TrimStart(a + b) == t + b; }
      "-" + DashWhitespaceRuns(t + b);
      { assert t != [] && t[|t| - 1] == a[|a| - 1]; DashSplit(t, b); }
      "-" + (DashWhitespaceRuns(t) + DashWhitespaceRuns(b));
      ("-" + DashWhitespaceRuns(t)) + DashWhitespaceRuns(b);
      DashWhitespaceRuns(a) + DashWhitespaceRuns(b);
    }
  }

  /** The digit character for a value below ten. */
  function DigitChar(d: nat): (c: char)
    requires d < 10
    ensures '0' <= c <= '9' && (c as int) - ('0' as int) == d
  {
    ('0' as int + d) as char
  }

  predicate IsDigit(c: char) {
    '0' <= c <= '9'
  }

  /** The decimal rendering of a natural number, as `String(n)` produces it: only
      digits, never empty, and no leading zero unless the number is zero. */
  function NatToDecimal(n: nat): (r: string)
    ensures |r| > 0
    ensures forall i :: 0 <= i < |r| ==> IsDigit(r[i])
    ensures r[0] == '0' ==> n == 0 && r == "0"
  {
    if n < 10 then [DigitChar(n)] else NatToDecimal(n / 10) + [DigitChar(n % 10)]
  }

  /** The value of a string of decimal digits, read left to right. */
  function DecimalValue(s: string): (n: nat)
    requires forall i :: 0 <= i < |s| ==> IsDigit(s[i])
  {
    if s == [] then 0
    else
      assert IsDigit(s[|s| - 1]);
      10 * DecimalValue(s[..|s| - 1]) + ((s[|s| - 1] as int) - ('0' as int))
  }

  /** Reading back a rendered number gives the number: the decimal rendering loses
      nothing. */
  lemma {:induction false} DecimalRoundTrip(n: nat)
    ensures DecimalValue(NatToDecimal(n)) == n
  {
    if n >= 10 {
      var r := NatToDecimal(n);
      DecimalRoundTrip(n / 10);
      assert r[..|r| - 1] == NatToDecimal(n / 10);
    }
  }

  /** Two numbers with the same rendering are the same number. */
  lemma NatToDecimalInjective(m: nat, n: nat)
    requires NatToDecimal(m) == NatToDecimal(n)
    ensures m == n
  {
    DecimalRoundTrip(m);
    DecimalRoundTrip(n);
  }

  /** The decimal rendering of any integer, with a leading '-' when it is negative. */
  function IntToDecimal(n: int): (r: string)
    ensures |r| > 0
    ensures r[0] == '-' <==> n < 0
  {
    if n < 0 then "-" + NatToDecimal(-n) else NatToDecimal(n)
  }

  /** Reads an optionally signed decimal integer: the inverse of IntToDecimal,
      returning None on text that is not one. */
  function ParseInteger(s: string): (r: Option<int>)
    ensures r.Some? && r.value < 0 ==> |s| > 1 && s[0] == '-'
  {
    if |s| > 1 && s[0] == '-' && (forall i :: 1 <= i < |s| ==> IsDigit(s[i])) then
      var magnitude: int := DecimalValue(s[1..]);
      Some(-magnitude)
    else if |s| > 0 && (forall i :: 0 <= i < |s| ==> IsDigit(s[i])) then
      Some(DecimalValue(s))
    else None
  }

  /** Parsing the rendering of any integer gives that integer back. */
  lemma IntegerRoundTrip(n: int)
    ensures ParseInteger(IntToDecimal(n)) == Some(n)
  {
    if n < 0 {
      var r := IntToDecimal(n);
      assert r[1..] == NatToDecimal(-n);
      DecimalRoundTrip(-n);
    } else {
      DecimalRoundTrip(n);
    }
  }
}
