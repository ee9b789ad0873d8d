/**
 * AddressToStringConverter: a Bluetooth device address (BD_ADDR, 48 bits, Bluetooth
 * Core Specification Vol 2, Part B, section 1.2) held in a 64-bit integer, and its
 * text form "AA:BB:CC:DD:EE:FF".
 */
module AddressCodec {
  import opened Wrappers
  import opened Framework
  import opened Xaml

  /** 2^48: every Bluetooth device address is below this. */
  const AddressLimit: int := 0x1_0000_0000_0000

  /** AddressToString formats with "X012": at least twelve upper-case hex digits. */
  const HexWidth: nat := 12

  /** Why a converter call throws. */
  datatype ConverterError =
    | SliceOutOfRange               // hex[i..(i + 2)] past the end of an odd-length text
    | InvalidArgument               // ArgumentException for a value or parameter of the wrong type
    | InvalidAddress(e: ParseError) // StringToAddress could not parse its text

  /** The digit pairs of hex joined by ':' — the text the StringBuilder loop builds. */
  function Colonize(hex: string): (s: string)
    requires |hex| % 2 == 0
    decreases |hex|
  {
    if |hex| <= 2 then hex else hex[..2] + ":" + Colonize(hex[2..])
  }

  /** The canonical form: six upper-case digit pairs separated by single colons. */
  predicate IsCanonical(s: string) {
    && |s| == 17
    && (forall k :: 0 <= k < 17 ==> (k % 3 == 2 <==> s[k] == ':'))
    && (forall k :: 0 <= k < 17 && k % 3 != 2 ==> IsUpperHexDigit(s[k]))
  }

  /** string.Replace(":", "") */
  function RemoveColons(s: string): (t: string)
    ensures ':' !in t && |t| <= |s|
  {
    if s == [] then []
    else if s[0] == ':' then RemoveColons(s[1..])
    else [s[0]] + RemoveColons(s[1..])
  }

  /** The twelve-or-more digit text that AddressToString cuts into pairs. */
  function HexText(bluetoothAddress: ulong): (hex: string)
    ensures |hex| >= HexWidth
  {
    FormatHex(bluetoothAddress, HexWidth)
  }

  /**
   * AddressToString: walks the hex text two characters at a time, appending each
   * pair and a ':' after every pair but the last. A text of odd length (13 or 15
   * digits, an integer of 2^48 or more) makes the last slice run past the end.
   */
  method AddressToString(bluetoothAddress: ulong) returns (r: Result<string, ConverterError>)
    ensures |HexText(bluetoothAddress)| % 2 == 0 ==> r == Ok(Colonize(HexText(bluetoothAddress)))
    ensures |HexText(bluetoothAddress)| % 2 == 1 ==> r == Err(SliceOutOfRange)
  {
    var hex := HexText(bluetoothAddress);
    var sb := "";
    var i := 0;
    while i < |hex|
      invariant i % 2 == 0 && i <= |hex|
      invariant sb == Colonize(hex[..i]) + (if 0 < i < |hex| then ":" else "")
    {
      if i + 2 > |hex| {
        return Err(SliceOutOfRange);
      }
      ColonizeAppend(hex[..i], hex[i..i + 2]);
      assert hex[..i] + hex[i..i + 2] == hex[..i + 2];
      sb := sb + hex[i..i + 2];
      if i < |hex| - 2 {
        sb := sb + ":";
      }
      i := i + 2;
    }
    assert i == |hex| && hex[..i] == hex;
    assert sb == Colonize(hex);
    return Ok(sb);
  }

  /** StringToAddress: drop every ':' and parse the rest with Convert.ToUInt64(_, 16). */
  function StringToAddress(bluetoothAddressString: string): (r: Result<ulong, ParseError>)
    ensures r.Ok? ==> r == ToUInt64Hex(RemoveColons(bluetoothAddressString))
  {
    ToUInt64Hex(RemoveColons(bluetoothAddressString))
  }

  /** Convert: only a boxed ulong is accepted. */
  method Convert(value: Boxed) returns (r: Result<string, ConverterError>)
    ensures !value.BoxedULong? ==> r == Err(InvalidArgument)
    ensures value.BoxedULong? && value.u < AddressLimit ==> r.Ok? && IsCanonical(r.value)
    ensures value.BoxedULong? && r.Ok? ==> StringToAddress(r.value) == Ok(value.u)
    ensures value.BoxedULong? && |HexText(value.u)| % 2 == 0 ==> r == Ok(Colonize(HexText(value.u)))
    ensures value.BoxedULong? && |HexText(value.u)| % 2 == 1 ==> r == Err(SliceOutOfRange)
  {
    if value.BoxedULong? {
      r := AddressToString(value.u);
      if value.u < AddressLimit {
        AddressTextIsCanonical(value.u);
      }
      if r.Ok? {
        AddressRoundTrip(value.u);
      }
    } else {
      r := Err(InvalidArgument);
    }
  }

  /** ConvertBack: parses the converter PARAMETER, not the value, and needs it to be a string. */
  function ConvertBack(value: Boxed, parameter: Boxed): (r: Result<ulong, ConverterError>)
    ensures !parameter.BoxedString? ==> r == Err(InvalidArgument)
    ensures parameter.BoxedString? ==>
              (r.Ok? <==> StringToAddress(parameter.s).Ok?)
              && (r.Ok? ==> r.value == StringToAddress(parameter.s).value)
  {
    if parameter.BoxedString? then
      match StringToAddress(parameter.s)
      case Ok(a) => Ok(a)
      case Err(e) => Err(InvalidAddress(e))
    else Err(InvalidArgument)
  }

  // ---------------------------------------------------------------------------
  // Lemmas
  // ---------------------------------------------------------------------------

  /** Appending one more pair adds a separator and the pair at the end. */
  lemma {:induction false} ColonizeAppend(p: string, q: string)
    requires |p| % 2 == 0 && |q| == 2
    ensures Colonize(p + q) == if p == [] then q else Colonize(p) + ":" + q
    decreases |p|
  {
    if |p| > 2 {
      ColonizeAppend(p[2..], q);
      assert (p + q)[..2] == p[..2] && (p + q)[2..] == p[2..] + q;
    } else if |p| == 2 {
      assert (p + q)[..2] == p && (p + q)[2..] == q;
    } else {
      assert p + q == q;
    }
  }

  /** Removing colons from the joined pairs gives back the digits. */
  lemma {:induction false} RemoveColonsOfColonize(hex: string)
    requires |hex| % 2 == 0 && ':' !in hex
    ensures RemoveColons(Colonize(hex)) == hex
    decreases |hex|
  {
    if |hex| > 2 {
      RemoveColonsOfColonize(hex[2..]);
      RemoveColonsConcat(hex[..2], ":" + Colonize(hex[2..]));
      RemoveColonsConcat(":", Colonize(hex[2..]));
      RemoveColonsOfPlain(hex[..2]);
      assert hex[..2] + ":" + Colonize(hex[2..]) == hex[..2] + (":" + Colonize(hex[2..]));
      assert hex[..2] + hex[2..] == hex;
    } else {
      RemoveColonsOfPlain(hex);
    }
  }

  lemma {:induction false} RemoveColonsOfPlain(s: string)
    requires ':' !in s
    ensures RemoveColons(s) == s
  {
    if s != [] {
      RemoveColonsOfPlain(s[1..]);
      assert [s[0]] + s[1..] == s;
    }
  }

  /** Colons can be removed piecewise. */
  lemma {:induction false} RemoveColonsConcat(a: string, b: string)
    ensures RemoveColons(a + b) == RemoveColons(a) + RemoveColons(b)
  {
    if a != [] {
      assert (a + b)[0] == a[0] && (a + b)[1..] == a[1..] + b;
      RemoveColonsConcat(a[1..], b);
    } else {
      assert a + b == b;
    }
  }

  /** Character k of the joined text: a colon at every third place, otherwise a digit of hex. */
  lemma {:induction false} ColonizeAt(hex: string)
    requires |hex| % 2 == 0 && |hex| >= 2
    ensures |Colonize(hex)| == |hex| / 2 * 3 - 1
    ensures forall k :: 0 <= k < |Colonize(hex)| ==>
              Colonize(hex)[k] == if k % 3 == 2 then ':' else hex[k / 3 * 2 + k % 3]
    decreases |hex|
  {
    if |hex| > 2 {
      ColonizeAt(hex[2..]);
      var rest := Colonize(hex[2..]);
      var s := Colonize(hex);
      assert s == hex[..2] + ":" + rest;
      forall k | 3 <= k < |s|
        ensures s[k] == if k % 3 == 2 then ':' else hex[k / 3 * 2 + k % 3]
      {
        assert s[k] == rest[k - 3];
        assert (k - 3) % 3 == k % 3 && (k - 3) / 3 == k / 3 - 1;
      }
    }
  }

  /** The joined text of 2m upper-case digits is 3m - 1 long, with colons exactly at every third place. */
  lemma ColonizeShape(hex: string)
    requires |hex| % 2 == 0 && |hex| >= 2
    requires forall i :: 0 <= i < |hex| ==> IsUpperHexDigit(hex[i])
    ensures |Colonize(hex)| == |hex| / 2 * 3 - 1
    ensures forall k :: 0 <= k < |Colonize(hex)| ==> (k % 3 == 2 <==> Colonize(hex)[k] == ':')
    ensures forall k :: 0 <= k < |Colonize(hex)| && k % 3 != 2 ==> IsUpperHexDigit(Colonize(hex)[k])
  {
    ColonizeAt(hex);
    forall k | 0 <= k < |Colonize(hex)| && k % 3 != 2
      ensures 0 <= k / 3 * 2 + k % 3 < |hex|
    {
    }
  }

  /**
   * For every address below 2^48 the hex text has exactly twelve digits (so the
   * groups are zero-padded) and AddressToString yields the canonical 17-character form.
   */
  lemma AddressTextIsCanonical(a: ulong)
    requires a < AddressLimit
    ensures |HexText(a)| == 12
    ensures IsCanonical(Colonize(HexText(a)))
  {
    assert Pow16(12) == AddressLimit;
    DigitCountAtMost(a, 12);
    ColonizeShape(HexText(a));
  }

  /** Whenever AddressToString succeeds, StringToAddress reads its text back as the same integer. */
  lemma AddressRoundTrip(a: ulong)
    requires |HexText(a)| % 2 == 0
    ensures StringToAddress(Colonize(HexText(a))) == Ok(a)
  {
    var hex := HexText(a);
    var k := |hex|;
    RemoveColonsOfColonize(hex);
    Pow16Monotone(DigitCount(a), k);
    FixedHexValue(a, k);
    assert hex == FixedHex(a, k);
    assert IsHexDigit(hex[0]) && IsHexDigit(hex[1]);
    assert DigitsStart(hex) == 0;
    assert hex[0..] == hex && hex[0..][..k] == hex;
    HexRunOfDigits(hex);
    assert ToUInt64Hex(hex) == Ok(a);
  }

  lemma {:induction false} Pow16Monotone(i: nat, j: nat)
    requires i <= j
    ensures Pow16(i) <= Pow16(j)
    decreases j
  {
    if i < j {
      Pow16Monotone(i, j - 1);
    }
  }

  lemma {:induction false} HexRunOfDigits(s: string)
    requires AllHexDigits(s)
    ensures HexRun(s) == |s|
  {
    if s != [] {
      HexRunOfDigits(s[1..]);
    }
  }

  /** Round trip for an address below 2^48, the range a Bluetooth device address occupies. */
  lemma BluetoothAddressRoundTrip(a: ulong)
    requires a < AddressLimit
    ensures |HexText(a)| == 12
    ensures StringToAddress(Colonize(HexText(a))) == Ok(a)
  {
    AddressTextIsCanonical(a);
    AddressRoundTrip(a);
  }

  /** A canonical text parses to an address below 2^48 whose formatted text is that same text. */
  lemma CanonicalRoundTrip(s: string)
    requires IsCanonical(s)
    ensures StringToAddress(s).Ok?
    ensures StringToAddress(s).value < AddressLimit
    ensures |HexText(StringToAddress(s).value)| == 12
    ensures Colonize(HexText(StringToAddress(s).value)) == s
  {
    var hex := seq(12, i requires 0 <= i < 12 => s[i / 2 * 3 + i % 2]);
    assert Colonize(hex) == s by {
      CanonicalIsColonized(s, hex);
    }
    assert ':' !in hex;
    RemoveColonsOfColonize(hex);
    assert RemoveColons(s) == hex;
    FixedHexOfValue(hex);
    HexRunOfDigits(hex);
    assert DigitsStart(hex) == 0;
    assert hex[0..] == hex;
    var v := HexValue(hex);
    assert Pow16(12) == AddressLimit;
    assert StringToAddress(s) == Ok(v);
    DigitCountAtMost(v, 12);
    assert HexText(v) == FixedHex(v, 12);
  }

  /** The twelve digits of a canonical text, joined again, give that text. */
  lemma CanonicalIsColonized(s: string, hex: string)
    requires IsCanonical(s)
    requires |hex| == 12 && forall i :: 0 <= i < 12 ==> hex[i] == s[i / 2 * 3 + i % 2]
    ensures Colonize(hex) == s
  {
    ColonizeAt(hex);
    forall k | 0 <= k < 17 && k % 3 != 2
      ensures Colonize(hex)[k] == s[k]
    {
      var i := k / 3 * 2 + k % 3;
      assert i / 2 * 3 + i % 2 == k;
    }
  }

  /** Colons are ignored wherever they stand: "AA:BB" and "AABB" give the same value. */
  lemma ColonsAreIgnored(prefix: string, suffix: string)
    ensures StringToAddress(prefix + ":" + suffix) == StringToAddress(prefix + suffix)
  {
    RemoveColonsConcat(prefix + ":", suffix);
    RemoveColonsConcat(prefix, ":");
    RemoveColonsConcat(prefix, suffix);
    assert ":"[1..] == [];
    assert RemoveColons(":") == [];
    assert RemoveColons(prefix) + [] == RemoveColons(prefix);
    assert RemoveColons(prefix + ":" + suffix) == RemoveColons(prefix + suffix);
  }

  /** The colon-separated and the bare form of a text parse to the same value. */
  lemma BareFormAgrees(s: string)
    ensures StringToAddress(RemoveColons(s)) == StringToAddress(s)
  {
    RemoveColonsOfPlain(RemoveColons(s));
  }

  /** Text with nothing left once the colons are gone is rejected. */
  lemma EmptyTextRejected(s: string)
    requires RemoveColons(s) == []
    ensures StringToAddress(s) == Err(EmptyInput)
  {
  }

  /**
   * A character that is neither a hex digit nor part of the optional "+" / "0x" prefix
   * makes StringToAddress fail.
   */
  lemma NonHexRejected(s: string, k: nat)
    requires k < |RemoveColons(s)|
    requires var c := RemoveColons(s)[k]; !IsHexDigit(c) && c != '+' && c != 'x' && c != 'X'
    ensures StringToAddress(s).Err?
  {
    var t := RemoveColons(s);
    var j := DigitsStart(t);
    assert k >= j;
    assert t[j..][k - j] == t[k];
  }

  /** Digits whose value reaches 2^64 (more than sixteen significant digits) overflow. */
  lemma TooManyDigitsRejected(s: string)
    requires var t := RemoveColons(s); t != [] && AllHexDigits(t) && HexValue(t) >= ULongLimit
    ensures StringToAddress(s) == Err(Overflow)
  {
    var t := RemoveColons(s);
    HexRunOfDigits(t);
    assert IsHexDigit(t[0]) && (|t| > 1 ==> IsHexDigit(t[1]));
    assert DigitsStart(t) == 0;
    assert t[0..] == t && t[0..][..|t|] == t;
  }

  /** Any non-empty run of at most sixteen significant hex digits parses to its value. */
  lemma DigitsAccepted(s: string)
    requires var t := RemoveColons(s); t != [] && AllHexDigits(t) && HexValue(t) < ULongLimit
    ensures StringToAddress(s) == Ok(HexValue(RemoveColons(s)))
  {
    var t := RemoveColons(s);
    HexRunOfDigits(t);
    assert IsHexDigit(t[0]) && (|t| > 1 ==> IsHexDigit(t[1]));
    assert DigitsStart(t) == 0;
    assert t[0..] == t && t[0..][..|t|] == t;
  }
}
