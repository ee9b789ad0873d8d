/**
 * The pieces of the .NET base library that the lighthouse core relies on, written
 * out so that their edge cases are part of the model: 64-bit unsigned integers and
 * bytes, ordinal String.StartsWith, String.Split(char), UInt64.ToString("X<n>"),
 * Convert.ToUInt64(string, 16) and bool.Parse.
 */
module Framework {
  import opened Wrappers

  const ULongLimit: int := 0x1_0000_0000_0000_0000

  /** System.UInt64 */
  type ulong = x: int | 0 <= x < ULongLimit

  /** System.Byte */
  type byte = x: int | 0 <= x < 256

  /** String.StartsWith(prefix), compared ordinally. */
  predicate StartsWith(s: string, prefix: string) {
    |prefix| <= |s| && s[..|prefix|] == prefix
  }

  // ---------------------------------------------------------------------------
  // String.Split(char)
  // ---------------------------------------------------------------------------

  /** String.Split(sep) with no options: every segment, empty ones included. */
  function Split(s: string, sep: char): (parts: seq<string>)
    ensures |parts| >= 1
    decreases |s|
  {
    if s == [] then [""]
    else
      var rest := Split(s[1..], sep);
      if s[0] == sep then [""] + rest else [[s[0]] + rest[0]] + rest[1..]
  }

  /** A string without the separator is not split. */
  lemma {:induction false} SplitWithoutSeparator(s: string, sep: char)
    requires sep !in s
    ensures Split(s, sep) == [s]
    decreases |s|
  {
    if s != [] {
      SplitWithoutSeparator(s[1..], sep);
      assert [s[0]] + s[1..] == s;
    }
  }

  /** Splitting at the first separator: the text before it is the first segment. */
  lemma {:induction false} SplitAtFirst(a: string, sep: char, b: string)
    requires sep !in a
    ensures Split(a + [sep] + b, sep) == [a] + Split(b, sep)
    decreases |a|
  {
    if a == [] {
      assert a + [sep] + b == [sep] + b;
      assert ([sep] + b)[1..] == b;
    } else {
      var s := a + [sep] + b;
      assert s[0] == a[0] && s[1..] == a[1..] + [sep] + b;
      SplitAtFirst(a[1..], sep, b);
      assert [a[0]] + a[1..] == a;
    }
  }

  /** No segment produced by Split contains the separator. */
  lemma {:induction false} SplitSegmentsHaveNoSeparator(s: string, sep: char)
    ensures forall k :: 0 <= k < |Split(s, sep)| ==> sep !in Split(s, sep)[k]
    decreases |s|
  {
    if s != [] {
      SplitSegmentsHaveNoSeparator(s[1..], sep);
    }
  }

  /**
   * The first segment of Split is the text before the first separator (all of s when
   * there is none), and Split yields a second segment exactly when s holds a separator.
   */
  lemma {:induction false} SplitFirstSegment(s: string, sep: char)
    ensures var f := Split(s, sep)[0];
      && |f| <= |s| && s[..|f|] == f && sep !in f
      && (|f| < |s| ==> s[|f|] == sep)
      && (|Split(s, sep)| > 1 <==> sep in s)
    decreases |s|
  {
    if s != [] && s[0] != sep {
      SplitFirstSegment(s[1..], sep);
      var f := Split(s[1..], sep)[0];
      assert Split(s, sep)[0] == [s[0]] + f;
      assert s[..|f| + 1] == [s[0]] + s[1..][..|f|];
      assert sep in s <==> sep in s[1..] by {
        assert s == [s[0]] + s[1..];
      }
    }
  }

  // ---------------------------------------------------------------------------
  // List<T>: FirstOrDefault(predicate), Remove, no duplicates
  // ---------------------------------------------------------------------------

  /** The index of the first element satisfying p, if any: Enumerable.FirstOrDefault(p). */
  function FirstWhere<T>(s: seq<T>, p: T -> bool): (r: Option<nat>)
    ensures r.Some? ==> r.value < |s| && p(s[r.value]) && forall j :: 0 <= j < r.value ==> !p(s[j])
    ensures r.None? ==> forall j :: 0 <= j < |s| ==> !p(s[j])
  {
    if s == [] then None
    else if p(s[0]) then Some(0)
    else
      var r := FirstWhere(s[1..], p);
      if r.Some? then Some(r.value + 1) else None
  }

  /** List.RemoveAt(i): the element at i goes, the others keep their order. */
  function RemoveAt<T>(s: seq<T>, i: nat): (r: seq<T>)
    requires i < |s|
    ensures |r| == |s| - 1
    ensures forall j :: 0 <= j < i ==> r[j] == s[j]
    ensures forall j :: i <= j < |r| ==> r[j] == s[j + 1]
  {
    s[..i] + s[i + 1..]
  }

  /** List.Remove(x): the first occurrence of x goes, if there is one. */
  function RemoveFirst<T(==)>(s: seq<T>, x: T): (r: seq<T>)
    ensures x in s ==> |r| == |s| - 1
    ensures x !in s ==> r == s
    ensures multiset(r) == multiset(s) - multiset{x}
  {
    if s == [] then []
    else
      assert s == [s[0]] + s[1..];
      if s[0] == x then s[1..] else [s[0]] + RemoveFirst(s[1..], x)
  }

  predicate NoDuplicates<T(==)>(s: seq<T>) {
    forall i, j :: 0 <= i < j < |s| ==> s[i] != s[j]
  }

  /** Removing an entry from a list without duplicates leaves none of it behind. */
  lemma {:induction false} RemoveFirstFromUnique<T>(s: seq<T>, x: T)
    requires NoDuplicates(s)
    ensures NoDuplicates(RemoveFirst(s, x)) && x !in RemoveFirst(s, x)
    ensures forall y :: y in RemoveFirst(s, x) <==> y in s && y != x
  {
    if s != [] && s[0] != x {
      RemoveFirstFromUnique(s[1..], x);
      assert s[0] !in s[1..];
    }
  }

  // ---------------------------------------------------------------------------
  // Hexadecimal digits
  // ---------------------------------------------------------------------------

  function Pow16(k: nat): (p: nat)
    ensures p >= 1
  {
    if k == 0 then 1 else 16 * Pow16(k - 1)
  }

  /** A digit that Convert.ToUInt64(s, 16) accepts: ASCII 0-9, A-F, a-f. */
  predicate IsHexDigit(c: char) {
    '0' <= c <= '9' || 'A' <= c <= 'F' || 'a' <= c <= 'f'
  }

  /** A digit that UInt64.ToString("X") produces. */
  predicate IsUpperHexDigit(c: char) {
    '0' <= c <= '9' || 'A' <= c <= 'F'
  }

  predicate AllHexDigits(s: string) {
    forall i :: 0 <= i < |s| ==> IsHexDigit(s[i])
  }

  function DigitValue(c: char): (v: nat)
    requires IsHexDigit(c)
    ensures v < 16
  {
    if '0' <= c <= '9' then c as int - '0' as int
    else if 'A' <= c <= 'F' then c as int - 'A' as int + 10
    else c as int - 'a' as int + 10
  }

  function UpperHexDigit(d: nat): (c: char)
    requires d < 16
    ensures IsUpperHexDigit(c) && DigitValue(c) == d
  {
    if d < 10 then ('0' as int + d) as char else ('A' as int + d - 10) as char
  }

  /** An upper-case digit is the one UpperHexDigit gives for its value. */
  lemma UpperHexDigitOfValue(c: char)
    requires IsUpperHexDigit(c)
    ensures UpperHexDigit(DigitValue(c)) == c
  {
  }

  /** The value of a run of hex digits, most significant digit first. */
  function HexValue(s: string): (v: nat)
    requires AllHexDigits(s)
    ensures v < Pow16(|s|)
  {
    if s == [] then 0 else 16 * HexValue(s[..|s| - 1]) + DigitValue(s[|s| - 1])
  }

  /** Exactly k upper-case digits: the k low-order hex digits of n. */
  function FixedHex(n: nat, k: nat): (s: string)
    ensures |s| == k
    ensures forall i :: 0 <= i < k ==> IsUpperHexDigit(s[i])
  {
    if k == 0 then [] else FixedHex(n / 16, k - 1) + [UpperHexDigit(n % 16)]
  }

  /** k digits are enough to write any n below 16^k, and they read back as n. */
  lemma {:induction false} FixedHexValue(n: nat, k: nat)
    requires n < Pow16(k)
    ensures AllHexDigits(FixedHex(n, k)) && HexValue(FixedHex(n, k)) == n
  {
    if k > 0 {
      FixedHexValue(n / 16, k - 1);
      var s := FixedHex(n, k);
      assert s[..k - 1] == FixedHex(n / 16, k - 1);
    }
  }

  /** Writing back the value of k upper-case digits as k digits gives them back. */
  lemma {:induction false} FixedHexOfValue(s: string)
    requires forall i :: 0 <= i < |s| ==> IsUpperHexDigit(s[i])
    ensures AllHexDigits(s) && FixedHex(HexValue(s), |s|) == s
    decreases |s|
  {
    if s != [] {
      var init := s[..|s| - 1];
      FixedHexOfValue(init);
      var v := HexValue(s);
      assert v / 16 == HexValue(init) && v % 16 == DigitValue(s[|s| - 1]);
      UpperHexDigitOfValue(s[|s| - 1]);
      assert init + [s[|s| - 1]] == s;
    }
  }

  /** The number of significant hex digits of n (one for zero). */
  function DigitCount(n: nat): (k: nat)
    ensures 1 <= k && n < Pow16(k)
  {
    if n < 16 then 1 else 1 + DigitCount(n / 16)
  }

  /** A value below 16^k has at most k significant digits. */
  lemma {:induction false} DigitCountAtMost(n: nat, k: nat)
    requires 1 <= k && n < Pow16(k)
    ensures DigitCount(n) <= k
  {
    if n >= 16 {
      DigitCountAtMost(n / 16, k - 1);
    }
  }

  /** UInt64.ToString("X" + width): upper-case hex, zero-padded to at least width digits. */
  function FormatHex(n: nat, width: nat): (s: string)
    ensures |s| == if DigitCount(n) <= width then width else DigitCount(n)
    ensures forall i :: 0 <= i < |s| ==> IsUpperHexDigit(s[i])
  {
    FixedHex(n, if DigitCount(n) <= width then width else DigitCount(n))
  }

  // ---------------------------------------------------------------------------
  // Convert.ToUInt64(string, 16)
  // ---------------------------------------------------------------------------

  /** Why Convert.ToUInt64(s, 16) throws. */
  datatype ParseError =
    | EmptyInput      // ArgumentOutOfRangeException
    | NegativeSign    // ArgumentException: a minus sign needs base 10
    | NoDigits        // FormatException: no parsable digits
    | Overflow        // OverflowException: the digits exceed UInt64.MaxValue
    | TrailingJunk    // FormatException: extra characters after the digits

  /** The length of the longest prefix of s made of hex digits. */
  function HexRun(s: string): (n: nat)
    ensures n <= |s| && AllHexDigits(s[..n])
    ensures n < |s| ==> !IsHexDigit(s[n])
  {
    if s == [] || !IsHexDigit(s[0]) then 0
    else
      var n := 1 + HexRun(s[1..]);
      assert s[..n] == [s[0]] + s[1..][..n - 1];
      n
  }

  /** Where the digits start: after an optional '+' and an optional "0x" or "0X". */
  function DigitsStart(s: string): (j: nat)
    requires s != []
    ensures j <= |s|
  {
    var i := if s[0] == '+' then 1 else 0;
    if i + 1 < |s| && s[i] == '0' && (s[i + 1] == 'x' || s[i + 1] == 'X') then i + 2 else i
  }

  /**
   * Convert.ToUInt64(s, 16): an optional '+', an optional "0x"/"0X", then at least one
   * hex digit and nothing else; digits whose value does not fit in 64 bits overflow.
   */
  function ToUInt64Hex(s: string): (r: Result<ulong, ParseError>)
    ensures r.Ok? ==> s != [] && AllHexDigits(s[DigitsStart(s)..]) && r.value == HexValue(s[DigitsStart(s)..])
  {
    if s == [] then Err(EmptyInput)
    else if s[0] == '-' then Err(NegativeSign)
    else
      var j := DigitsStart(s);
      var n := HexRun(s[j..]);
      if n == 0 then Err(NoDigits)
      else if HexValue(s[j..][..n]) >= ULongLimit then Err(Overflow)
      else if j + n < |s| then Err(TrailingJunk)
      else
        assert s[j..][..n] == s[j..];
        Ok(HexValue(s[j..]))
  }

  // ---------------------------------------------------------------------------
  // bool.Parse
  // ---------------------------------------------------------------------------

  /** char.IsWhiteSpace */
  predicate IsWhiteSpace(c: char) {
    || '\U{0009}' <= c <= '\U{000D}' || c == ' ' || c == '\U{0085}' || c == '\U{00A0}'
    || c == '\U{1680}' || '\U{2000}' <= c <= '\U{200A}' || c == '\U{2028}' || c == '\U{2029}'
    || c == '\U{202F}' || c == '\U{205F}' || c == '\U{3000}'
  }

  predicate IsTrimmed(c: char) {
    IsWhiteSpace(c) || c == '\0'
  }

  /** Removes white space and NUL characters from both ends, as bool.Parse does. */
  function TrimWhiteSpaceAndNull(s: string): (t: string)
    ensures |t| <= |s|
    decreases |s|
  {
    if s == [] then s
    else if IsTrimmed(s[0]) then TrimWhiteSpaceAndNull(s[1..])
    else if IsTrimmed(s[|s| - 1]) then TrimWhiteSpaceAndNull(s[..|s| - 1])
    else s
  }

  function AsciiUpper(c: char): char {
    if 'a' <= c <= 'z' then (c as int - 32) as char else c
  }

  /** Ordinal comparison ignoring the case of ASCII letters. */
  predicate EqualsIgnoreCase(a: string, b: string) {
    |a| == |b| && forall i :: 0 <= i < |a| ==> AsciiUpper(a[i]) == AsciiUpper(b[i])
  }

  /** bool.Parse: "True" or "False" in any letter case, surrounded by optional white space. */
  function ParseBool(s: string): (r: Option<bool>)
    ensures r == Some(true) ==> EqualsIgnoreCase(TrimWhiteSpaceAndNull(s), "True")
    ensures r == Some(false) ==> EqualsIgnoreCase(TrimWhiteSpaceAndNull(s), "False")
    ensures r == None ==> !EqualsIgnoreCase(TrimWhiteSpaceAndNull(s), "True")
                          && !EqualsIgnoreCase(TrimWhiteSpaceAndNull(s), "False")
  {
    var t := TrimWhiteSpaceAndNull(s);
    if EqualsIgnoreCase(t, "True") then Some(true)
    else if EqualsIgnoreCase(t, "False") then Some(false)
    else None
  }
}
