/** String helpers with PHP semantics: trim, rtrim with one character, implode, explode, digits. */
module Text {

  /** The characters PHP's trim() strips by default: space, tab, LF, CR, NUL and vertical tab. */
  predicate IsPhpWhitespace(c: char) {
    c == ' ' || c == '\t' || c == '\n' || c == '\r' || c == '\0' || c == '\U{B}'
  }

  /** ltrim($s): drops the leading whitespace. */
  function TrimLeft(s: string): (r: string)
    ensures |r| <= |s| && r == s[|s| - |r|..]
    ensures r == [] || !IsPhpWhitespace(r[0])
    ensures forall k :: 0 <= k < |s| - |r| ==> IsPhpWhitespace(s[k])
  {
    if s != [] && IsPhpWhitespace(s[0]) then TrimLeft(s[1..]) else s
  }

  /** rtrim($s): drops the trailing whitespace. */
  function TrimRight(s: string): (r: string)
    ensures |r| <= |s| && r == s[..|r|]
    ensures r == [] || !IsPhpWhitespace(r[|r| - 1])
    ensures forall k :: |r| <= k < |s| ==> IsPhpWhitespace(s[k])
  {
    if s != [] && IsPhpWhitespace(s[|s| - 1]) then TrimRight(s[..|s| - 1]) else s
  }

  /** trim($s): drops whitespace at both ends. */
  function Trim(s: string): (r: string)
    ensures |r| <= |s|
    ensures r == [] || (!IsPhpWhitespace(r[0]) && !IsPhpWhitespace(r[|r| - 1]))
  {
    var l := TrimLeft(s);
    var r := TrimRight(l);
    assert r != [] ==> r[0] == l[0];
    r
  }

  /** A string with no whitespace at either end is its own trim. */
  lemma {:induction false} TrimmedIsFixed(s: string)
    requires s == [] || (!IsPhpWhitespace(s[0]) && !IsPhpWhitespace(s[|s| - 1]))
    ensures Trim(s) == s
  {
  }

  /** Trimming twice is trimming once. */
  lemma {:induction false} TrimIdempotent(s: string)
    ensures Trim(Trim(s)) == Trim(s)
  {
    TrimmedIsFixed(Trim(s));
  }

  /**
   * trim removes only edge whitespace: its result is the slice of the input that starts where the
   * leading whitespace ends, and everything before and after that slice is whitespace.
   */
  lemma {:induction false} TrimIsSlice(s: string)
    ensures var i := |s| - |TrimLeft(s)|; i + |Trim(s)| <= |s| && Trim(s) == s[i..i + |Trim(s)|]
    ensures var i := |s| - |TrimLeft(s)|; forall k :: 0 <= k < i ==> IsPhpWhitespace(s[k])
    ensures var i := |s| - |TrimLeft(s)|; forall k :: i + |Trim(s)| <= k < |s| ==> IsPhpWhitespace(s[k])
  {
    var l := TrimLeft(s);
    var r := TrimRight(l);
    var i := |s| - |l|;
    assert l == s[i..];
    assert r == l[..|r|];
    forall k | i + |r| <= k < |s|
      ensures IsPhpWhitespace(s[k])
    {
      assert s[k] == l[k - i];
    }
  }

  /** rtrim($s, $c) for a one-character mask: drops every trailing occurrence of c. */
  function TrimRightChar(s: string, c: char): (r: string)
    ensures |r| <= |s| && r == s[..|r|]
    ensures r == [] || r[|r| - 1] != c
    ensures forall k :: |r| <= k < |s| ==> s[k] == c
  {
    if s != [] && s[|s| - 1] == c then TrimRightChar(s[..|s| - 1], c) else s
  }

  /** implode($sep, $parts). */
  function Join(sep: char, parts: seq<string>): (r: string)
    ensures parts != [] ==> parts[0] <= r
    ensures |r| >= |parts| - 1
    ensures |parts| >= 2 ==> |r| > |parts[0]| && r[|parts[0]|] == sep
  {
    if parts == [] then []
    else if |parts| == 1 then parts[0]
    else parts[0] + [sep] + Join(sep, parts[1..])
  }

  /** implode of three or more parts: the first two, each followed by the separator, then the rest. */
  lemma JoinTwoHeads(sep: char, parts: seq<string>)
    requires |parts| >= 3
    ensures Join(sep, parts) == parts[0] + [sep] + parts[1] + [sep] + Join(sep, parts[2..])
  {
    assert parts[1..][1..] == parts[2..];
  }

  /**
   * The pieces between separators (one piece when there is none), as explode($sep, $s) gives them.
   * The hash generator never splits; this is the reference inverse of Join that SplitJoin relates it to.
   */
  function Split(sep: char, s: string): (r: seq<string>)
    ensures |r| >= 1
  {
    if s == [] then [[]]
    else
      var rest := Split(sep, s[1..]);
      if s[0] == sep then [[]] + rest else [[s[0]] + rest[0]] + rest[1..]
  }

  lemma {:induction false} SplitFree(sep: char, s: string)
    requires sep !in s
    ensures Split(sep, s) == [s]
  {
    if s != [] {
      SplitFree(sep, s[1..]);
      assert [s[0]] + s[1..] == s;
    }
  }

  lemma {:induction false} SplitAtFirst(sep: char, a: string, b: string)
    requires sep !in a
    ensures Split(sep, a + [sep] + b) == [a] + Split(sep, b)
  {
    if a == [] {
      assert a + [sep] + b == [sep] + b;
      assert ([sep] + b)[1..] == b;
    } else {
      assert (a + [sep] + b)[1..] == a[1..] + [sep] + b;
      SplitAtFirst(sep, a[1..], b);
      assert [a[0]] + a[1..] == a;
    }
  }

  /** explode undoes implode when no part contains the separator (and there is at least one part). */
  lemma {:induction false} SplitJoin(sep: char, parts: seq<string>)
    requires |parts| >= 1
    requires forall k :: 0 <= k < |parts| ==> sep !in parts[k]
    ensures Split(sep, Join(sep, parts)) == parts
  {
    if |parts| == 1 {
      SplitFree(sep, parts[0]);
    } else {
      SplitJoin(sep, parts[1..]);
      SplitAtFirst(sep, parts[0], Join(sep, parts[1..]));
      assert [parts[0]] + parts[1..] == parts;
    }
  }

  predicate IsDigit(c: char) {
    '0' <= c <= '9'
  }

  predicate AllDigits(s: string) {
    forall k :: 0 <= k < |s| ==> IsDigit(s[k])
  }

  function DigitChar(d: nat): (c: char)
    requires d < 10
    ensures IsDigit(c) && c as int == '0' as int + d
  {
    ('0' as int + d) as char
  }

  function DigitValue(c: char): (d: nat)
    requires IsDigit(c)
    ensures d < 10 && DigitChar(d) == c && c as int == '0' as int + d
  {
    (c as int - '0' as int) as nat
  }

  /** The decimal numeral of n, without leading zeros ("0" for zero). */
  function NatToString(n: nat): (r: string)
    ensures r != [] && AllDigits(r)
    ensures |r| > 1 ==> r[0] != '0'
  {
    if n < 10 then [DigitChar(n)] else NatToString(n / 10) + [DigitChar(n % 10)]
  }

  /** The value of a numeral. */
  function StringToNat(s: string): nat
    requires AllDigits(s)
  {
    if s == [] then 0 else 10 * StringToNat(s[..|s| - 1]) + DigitValue(s[|s| - 1])
  }

  lemma {:induction false} NatStringRoundTrip(n: nat)
    ensures StringToNat(NatToString(n)) == n
  {
    var r := NatToString(n);
    if n >= 10 {
      NatStringRoundTrip(n / 10);
      assert r[..|r| - 1] == NatToString(n / 10);
    }
  }
}
