/** The java.lang.String and Integer operations the loaders and the configuration rely on. */
module JavaString {
  import opened Wrappers
  import JavaInt

  /** Characters String.trim() strips from both ends: every char up to U+0020. */
  predicate IsTrimmable(c: char) {
    c <= ' '
  }

  /** Character.isWhitespace, the test String.isBlank() applies to every character. */
  predicate IsWhitespace(c: char) {
    var n := c as int;
    || n == 0x20 || 0x09 <= n <= 0x0D || 0x1C <= n <= 0x1F
    || n == 0x1680 || 0x2000 <= n <= 0x2006 || 0x2008 <= n <= 0x200A
    || n == 0x2028 || n == 0x2029 || n == 0x205F || n == 0x3000
  }

  predicate IsBlank(s: string) {
    forall i :: 0 <= i < |s| ==> IsWhitespace(s[i])
  }

  function TrimStart(s: string): (r: string)
    ensures |r| <= |s| && r == s[|s| - |r|..]
    ensures r == [] || !IsTrimmable(r[0])
    ensures forall i :: 0 <= i < |s| - |r| ==> IsTrimmable(s[i])
  {
    if s != [] && IsTrimmable(s[0]) then TrimStart(s[1..]) else s
  }

  function TrimEnd(s: string): (r: string)
    ensures |r| <= |s| && r == s[..|r|]
    ensures r == [] || !IsTrimmable(r[|r| - 1])
    ensures forall i :: |r| <= i < |s| ==> IsTrimmable(s[i])
  {
    if s != [] && IsTrimmable(s[|s| - 1]) then TrimEnd(s[..|s| - 1]) else s
  }

  /** String.trim(). */
  function Trim(s: string): (r: string)
    ensures r == [] || (!IsTrimmable(r[0]) && !IsTrimmable(r[|r| - 1]))
    ensures forall c :: c in r ==> c in s
  {
    TrimEnd(TrimStart(s))
  }

  /** A string whose ends are not trimmable is its own trim. */
  lemma {:induction false} TrimOfTrimmed(s: string)
    requires s == [] || (!IsTrimmable(s[0]) && !IsTrimmable(s[|s| - 1]))
    ensures Trim(s) == s
  {
  }

  /** String.indexOf(char): the first position of `c`, or -1. */
  function IndexOf(s: string, c: char): (i: int)
    ensures -1 <= i < |s|
    ensures i == -1 <==> c !in s
    ensures 0 <= i ==> s[i] == c && c !in s[..i]
  {
    if s == [] then -1
    else if s[0] == c then 0
    else
      var j := IndexOf(s[1..], c);
      assert s[1..][..j + 1] == s[1..j + 2] by { }
      if j == -1 then -1 else j + 1
  }

  /** String.indexOf(char, from): the first position at or after `from`, or -1. */
  function IndexOfFrom(s: string, c: char, from: nat): (i: int)
    requires from <= |s|
    ensures i == -1 <==> c !in s[from..]
    ensures 0 <= i ==> from <= i < |s| && s[i] == c && c !in s[from..i]
  {
    var j := IndexOf(s[from..], c);
    if j == -1 then -1
    else
      assert s[from..][..j] == s[from..from + j];
      from + j
  }

  /** The first occurrence is what indexOf finds. */
  lemma {:induction false} IndexOfAt(s: string, c: char, j: nat)
    requires j < |s| && s[j] == c && c !in s[..j]
    ensures IndexOf(s, c) == j
  {
    if j > 0 {
      assert s[0] == s[..j][0];
      assert s[1..][..j - 1] == s[1..j];
      assert s[1..j] == s[..j][1..];
      IndexOfAt(s[1..], c, j - 1);
    }
  }

  lemma IndexOfFromAt(s: string, c: char, from: nat, j: nat)
    requires from <= j < |s| && s[j] == c && c !in s[from..j]
    ensures IndexOfFrom(s, c, from) == j
  {
    assert s[from..][..j - from] == s[from..j];
    IndexOfAt(s[from..], c, j - from);
  }

  /** The parts of a string that opens with a quoted run. */
  lemma QuotedShape(d: string, tail: string)
    ensures var line := "\"" + d + "\"" + tail;
      && |line| == |d| + 2 + |tail|
      && line[0] == '"' && line[1..|d| + 1] == d && line[|d| + 1] == '"' && line[|d| + 2..] == tail
  {
    var line := "\"" + d + "\"" + tail;
    assert line[1..|d| + 1] == d by {
      forall i | 0 <= i < |d| ensures line[1..|d| + 1][i] == d[i] {
        assert line[1 + i] == ("\"" + d)[1 + i];
      }
    }
  }

  /** String.lastIndexOf(char): the last position of `c`, or -1. */
  function LastIndexOf(s: string, c: char): (i: int)
    ensures -1 <= i < |s|
    ensures i == -1 <==> c !in s
    ensures 0 <= i ==> s[i] == c && c !in s[i + 1..]
  {
    if s == [] then -1
    else if s[|s| - 1] == c then |s| - 1
    else
      var p := s[..|s| - 1];
      var j := LastIndexOf(p, c);
      assert s == p + [s[|s| - 1]];
      if j >= 0 then
        assert s[j + 1..] == p[j + 1..] + [s[|s| - 1]];
        j
      else j
  }

  /** The last occurrence is what lastIndexOf finds. */
  lemma {:induction false} LastIndexOfAt(s: string, c: char, j: nat)
    requires j < |s| && s[j] == c && c !in s[j + 1..]
    ensures LastIndexOf(s, c) == j
  {
    if j < |s| - 1 {
      assert s[|s| - 1] == s[j + 1..][|s| - j - 2];
      assert s[..|s| - 1][j + 1..] == s[j + 1..|s| - 1];
      assert s[j + 1..|s| - 1] == s[j + 1..][..|s| - j - 2];
      LastIndexOfAt(s[..|s| - 1], c, j);
    }
  }

  /** String.contains(CharSequence). */
  predicate Contains(s: string, t: string)
    decreases |s|
  {
    t <= s || (s != [] && Contains(s[1..], t))
  }

  /** String.replace(c, ""): every occurrence of `c` removed. */
  function Remove(s: string, c: char): (r: string)
    ensures c !in r
    ensures forall d :: d != c ==> (d in r <==> d in s)
    ensures |r| <= |s|
  {
    if s == [] then []
    else if s[0] == c then Remove(s[1..], c)
    else [s[0]] + Remove(s[1..], c)
  }

  lemma {:induction false} RemoveAbsent(s: string, c: char)
    requires c !in s
    ensures Remove(s, c) == s
  {
    if s != [] {
      RemoveAbsent(s[1..], c);
      assert s == [s[0]] + s[1..];
    }
  }

  lemma {:induction false} RemoveAppend(s: string, t: string, c: char)
    ensures Remove(s + t, c) == Remove(s, c) + Remove(t, c)
  {
    if s == [] {
      assert s + t == t;
    } else {
      assert (s + t)[1..] == s[1..] + t;
      RemoveAppend(s[1..], t, c);
    }
  }

  /** Trimming skips a trimmable prefix. */
  lemma {:induction false} TrimStartSkips(pad: string, s: string)
    requires forall i :: 0 <= i < |pad| ==> IsTrimmable(pad[i])
    requires s == [] || !IsTrimmable(s[0])
    ensures TrimStart(pad + s) == s
  {
    if pad != [] {
      assert (pad + s)[1..] == pad[1..] + s;
      TrimStartSkips(pad[1..], s);
    }
  }

  function ToUpperAscii(c: char): char {
    if 'a' <= c <= 'z' then (c as int - 32) as char else c
  }

  /** String.toUpperCase(), restricted to the ASCII letters. */
  function ToUpper(s: string): (r: string)
    ensures |r| == |s|
    ensures forall i :: 0 <= i < |s| ==> r[i] == ToUpperAscii(s[i])
  {
    seq(|s|, i requires 0 <= i < |s| => ToUpperAscii(s[i]))
  }

  /**
   * Boolean.parseBoolean: true exactly for "true" in any letter case. For the
   * letters of "true", Java's equalsIgnoreCase coincides with ASCII case folding.
   */
  predicate ParseBoolean(s: string) {
    ToUpper(s) == "TRUE"
  }

  predicate IsDigit(c: char) {
    '0' <= c <= '9'
  }

  predicate AllDigits(s: string) {
    forall i :: 0 <= i < |s| ==> IsDigit(s[i])
  }

  /** The value of a string of decimal digits, read most significant first. */
  function DigitsValue(s: string): (v: nat)
    requires AllDigits(s)
  {
    if s == [] then 0 else 10 * DigitsValue(s[..|s| - 1]) + (s[|s| - 1] as int - '0' as int)
  }

  /** The decimal digits of `n`, without sign or leading zeros. */
  function Decimal(n: nat): (s: string)
    ensures |s| >= 1 && AllDigits(s)
  {
    var d := ['0' + (n % 10) as char];
    if n < 10 then d else Decimal(n / 10) + d
  }

  /** Integer.toString. */
  function Show(n: int): (s: string) {
    if n < 0 then "-" + Decimal(-n) else Decimal(n)
  }

  /**
   * Integer.parseInt: an optional '+' or '-' followed by at least one digit,
   * with a value inside the int range; None where Java throws
   * NumberFormatException.
   */
  function ParseInt(s: string): (r: Option<int>)
    ensures r.Some? ==> JavaInt.IsInt(r.value)
    ensures r.Some? ==> s != [] && AllDigits(s[1..])
  {
    if s == [] then None
    else
      var signed := s[0] == '-' || s[0] == '+';
      var digits := if signed then s[1..] else s;
      if digits == [] || !AllDigits(digits) then None
      else
        var v: int := if s[0] == '-' then 0 - DigitsValue(digits) as int else DigitsValue(digits);
        if JavaInt.IsInt(v) then Some(v) else None
  }

  lemma {:induction false} DecimalValue(n: nat)
    ensures DigitsValue(Decimal(n)) == n
  {
    var d := ['0' + (n % 10) as char];
    if n >= 10 {
      DecimalValue(n / 10);
      var s := Decimal(n / 10) + d;
      assert s[..|s| - 1] == Decimal(n / 10);
    }
  }

  /** Parsing the text Integer.toString produces gives back the number. */
  lemma ParseShow(n: int)
    requires JavaInt.IsInt(n)
    ensures ParseInt(Show(n)) == Some(n)
  {
    var s := Show(n);
    if n < 0 {
      DecimalValue(-n);
      assert s[0] == '-';
      assert s[1..] == Decimal(-n);
    } else {
      DecimalValue(n);
      assert IsDigit(s[0]);
    }
  }

  /** An unsigned digit string parses to its decimal value when that fits in an int. */
  lemma ParseDigits(s: string)
    requires s != [] && AllDigits(s)
    ensures ParseInt(s).Some? <==> DigitsValue(s) <= JavaInt.MAX
    ensures ParseInt(s).Some? ==> ParseInt(s).value == DigitsValue(s)
  {
  }
}
