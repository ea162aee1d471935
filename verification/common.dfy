/** Shared vocabulary of the model: optional values and results (for the
    source's `None` returns and raised `ValueError`s), the character classes
    Python's `str.isdigit`/`str.isspace` test (ASCII range only), and the
    string helpers the validators build on (`strip`, `zfill`, `int`, `str`). */
module Common {

  datatype Option<+T> = None | Some(value: T)

  /** A computation that either produces a value or fails the way the source
      raises: `Err` carries what the raised error says. */
  datatype Result<+T, +E> = Ok(value: T) | Err(error: E)

  predicate IsDigit(c: char) { '0' <= c <= '9' }

  /** Python's `str.isdigit()`: false on the empty string. */
  predicate IsDigitString(s: string) {
    |s| > 0 && forall i :: 0 <= i < |s| ==> IsDigit(s[i])
  }

  /** Every character a digit; unlike `IsDigitString` the empty string passes. */
  predicate AllDigits(s: string) {
    forall i :: 0 <= i < |s| ==> IsDigit(s[i])
  }

  /** Python's `str.isspace` on the ASCII range. */
  predicate IsSpace(c: char) {
    c == ' ' || ('\t' <= c <= '\r') || ('\U{1C}' <= c <= '\U{1F}')
  }

  function LStrip(s: string): (r: string)
    ensures |r| <= |s| && r == s[|s| - |r|..]
    ensures r != [] ==> !IsSpace(r[0])
    ensures forall i :: 0 <= i < |s| - |r| ==> IsSpace(s[i])
  {
    if s != [] && IsSpace(s[0]) then LStrip(s[1..]) else s
  }

  function RStrip(s: string): (r: string)
    ensures |r| <= |s| && r == s[..|r|]
    ensures r != [] ==> !IsSpace(r[|r| - 1])
    ensures forall i :: |r| <= i < |s| ==> IsSpace(s[i])
  {
    if s != [] && IsSpace(s[|s| - 1]) then RStrip(s[..|s| - 1]) else s
  }

  /** Python's `str.strip()` with no argument. */
  function Strip(s: string): string {
    RStrip(LStrip(s))
  }

  /** Text with no whitespace at either end is left alone by `strip`. */
  lemma StripUnpadded(s: string)
    requires s != [] && !IsSpace(s[0]) && !IsSpace(s[|s| - 1])
    ensures Strip(s) == s
  {
    assert LStrip(s) == s;
  }

  function Zeros(n: nat): (r: string)
    ensures |r| == n && forall i :: 0 <= i < n ==> r[i] == '0'
  {
    seq(n, _ => '0')
  }

  /** Python's `str.zfill(width)`: zeros go after a leading sign. */
  function ZFill(s: string, width: nat): string {
    if |s| >= width then s
    else if s != [] && (s[0] == '+' || s[0] == '-') then [s[0]] + Zeros(width - |s|) + s[1..]
    else Zeros(width - |s|) + s
  }

  /** A digit string shorter than the width is padded on the left with zeros. */
  lemma ZFillDigits(s: string, width: nat)
    requires IsDigitString(s) && |s| <= width
    ensures ZFill(s, width) == Zeros(width - |s|) + s
    ensures AllDigits(ZFill(s, width)) && |ZFill(s, width)| == width
  {
  }

  /** `''.join(filter(str.isdigit, s))`. */
  function KeepDigits(s: string): (r: string)
    ensures AllDigits(r) && |r| <= |s|
  {
    if s == [] then []
    else if IsDigit(s[|s| - 1]) then KeepDigits(s[..|s| - 1]) + [s[|s| - 1]]
    else KeepDigits(s[..|s| - 1])
  }

  function DigitValue(c: char): nat
    requires IsDigit(c)
  {
    (c as int - '0' as int) as nat
  }

  lemma DigitValues()
    ensures DigitValue('0') == 0 && DigitValue('1') == 1 && DigitValue('2') == 2 && DigitValue('3') == 3
    ensures DigitValue('4') == 4 && DigitValue('5') == 5 && DigitValue('6') == 6 && DigitValue('7') == 7
    ensures DigitValue('8') == 8 && DigitValue('9') == 9
  {
  }

  function DigitChar(d: nat): (c: char)
    requires d < 10
    ensures IsDigit(c) && DigitValue(c) == d
  {
    ('0' as int + d) as char
  }

  /** Python's `int(s)` on a string of ASCII digits. */
  function DigitsValue(s: string): nat
    requires AllDigits(s)
  {
    if s == [] then 0 else DigitsValue(s[..|s| - 1]) * 10 + DigitValue(s[|s| - 1])
  }

  function Pow10(k: nat): (r: nat)
    ensures r >= 1
  {
    if k == 0 then 1 else 10 * Pow10(k - 1)
  }

  /** A string of k digits denotes a number below 10^k. */
  lemma {:induction false} DigitsValueBound(s: string)
    requires AllDigits(s)
    ensures DigitsValue(s) < Pow10(|s|)
  {
    if s != [] {
      DigitsValueBound(s[..|s| - 1]);
    }
  }

  lemma Digits2Value(a: char, b: char)
    requires IsDigit(a) && IsDigit(b)
    ensures AllDigits([a, b])
    ensures DigitsValue([a, b]) == 10 * DigitValue(a) + DigitValue(b)
  {
    assert [a, b][..1] == [a];
    assert [a][..0] == [];
    assert DigitsValue([a]) == DigitValue(a);
  }

  lemma Digits4Value(a: char, b: char, c: char, d: char)
    requires IsDigit(a) && IsDigit(b) && IsDigit(c) && IsDigit(d)
    ensures AllDigits([a, b, c, d])
    ensures DigitsValue([a, b, c, d])
         == 1000 * DigitValue(a) + 100 * DigitValue(b) + 10 * DigitValue(c) + DigitValue(d)
  {
    assert [a, b, c, d][..3] == [a, b, c];
    assert [a, b, c][..2] == [a, b];
    Digits2Value(a, b);
  }

  /** Python's `str(n)` for a non-negative integer. */
  function NatToString(n: nat): (r: string)
    ensures IsDigitString(r)
    ensures r[0] == '0' ==> n == 0 && r == "0"
  {
    if n < 10 then [DigitChar(n)] else NatToString(n / 10) + [DigitChar(n % 10)]
  }

  lemma {:induction false} NatToStringValue(n: nat)
    ensures DigitsValue(NatToString(n)) == n
  {
    if n >= 10 {
      NatToStringValue(n / 10);
      var s := NatToString(n);
      assert s[..|s| - 1] == NatToString(n / 10);
    }
  }

  /** Leading zeros add nothing to the value of a digit string. */
  lemma {:induction false} ZerosPrefixValue(k: nat, s: string)
    requires AllDigits(s)
    ensures AllDigits(Zeros(k) + s) && DigitsValue(Zeros(k) + s) == DigitsValue(s)
  {
    if s == [] {
      assert Zeros(k) + s == Zeros(k);
      ZerosValue(k);
    } else {
      var t := Zeros(k) + s;
      assert t[..|t| - 1] == Zeros(k) + s[..|s| - 1];
      ZerosPrefixValue(k, s[..|s| - 1]);
    }
  }

  lemma {:induction false} ZerosValue(k: nat)
    ensures DigitsValue(Zeros(k)) == 0
  {
    if k > 0 {
      assert Zeros(k)[..k - 1] == Zeros(k - 1);
      ZerosValue(k - 1);
    }
  }

  /** Concatenation of a list of lists, as `extend` in a loop builds it. */
  function Flatten<T>(ss: seq<seq<T>>): seq<T> {
    if ss == [] then [] else ss[0] + Flatten(ss[1..])
  }

  lemma {:induction false} FlattenAppend<T>(a: seq<seq<T>>, b: seq<seq<T>>)
    ensures Flatten(a + b) == Flatten(a) + Flatten(b)
  {
    if a == [] {
      assert a + b == b;
    } else {
      assert (a + b)[1..] == a[1..] + b;
      FlattenAppend(a[1..], b);
    }
  }

  /** One more element of a sequence's prefix. */
  lemma PrefixExtend<T>(s: seq<T>, j: nat)
    requires j < |s|
    ensures s[..j + 1] == s[..j] + [s[j]] && |s[..j + 1]| == j + 1
  {
  }

  lemma FlattenLength<T>(ss: seq<seq<T>>, n: nat)
    requires forall i :: 0 <= i < |ss| ==> |ss[i]| == n
    ensures |Flatten(ss)| == n * |ss|
  {
    if ss != [] {
      FlattenLength(ss[1..], n);
    }
  }

  /** `str.split('.')[-1]`: the text after the last '.', or all of it. */
  function AfterLastDot(s: string): (r: string)
    ensures |r| <= |s| && '.' !in r
  {
    if s == [] then []
    else if s[|s| - 1] == '.' then []
    else AfterLastDot(s[..|s| - 1]) + [s[|s| - 1]]
  }

  /** `s.replace('.', '')`. */
  function RemoveDots(s: string): (r: string)
    ensures |r| <= |s|
  {
    if s == [] then []
    else if s[|s| - 1] == '.' then RemoveDots(s[..|s| - 1])
    else RemoveDots(s[..|s| - 1]) + [s[|s| - 1]]
  }

  lemma {:induction false} AfterLastDotOfSplit(a: string, b: string)
    requires '.' !in b
    ensures AfterLastDot(a + "." + b) == b
  {
    if b == [] {
    } else {
      var s := a + "." + b;
      assert s[..|s| - 1] == a + "." + b[..|b| - 1];
      AfterLastDotOfSplit(a, b[..|b| - 1]);
    }
  }

  lemma {:induction false} RemoveDotsOfSplit(a: string, b: string)
    requires '.' !in a && '.' !in b
    ensures RemoveDots(a + "." + b) == a + b
  {
    var s := a + "." + b;
    if b == [] {
      assert s[..|s| - 1] == a;
      RemoveDotsNoDot(a);
    } else {
      assert s[..|s| - 1] == a + "." + b[..|b| - 1];
      RemoveDotsOfSplit(a, b[..|b| - 1]);
    }
  }

  lemma {:induction false} AfterLastDotNoDot(s: string)
    requires '.' !in s
    ensures AfterLastDot(s) == s
  {
    if s != [] {
      AfterLastDotNoDot(s[..|s| - 1]);
    }
  }

  lemma {:induction false} RemoveDotsConcat(a: string, b: string)
    ensures RemoveDots(a + b) == RemoveDots(a) + RemoveDots(b)
  {
    if b == [] {
      assert a + b == a;
    } else {
      assert (a + b)[..|a + b| - 1] == a + b[..|b| - 1];
      RemoveDotsConcat(a, b[..|b| - 1]);
    }
  }

  lemma {:induction false} RemoveDotsNoDot(s: string)
    requires '.' !in s
    ensures RemoveDots(s) == s
  {
    if s != [] {
      RemoveDotsNoDot(s[..|s| - 1]);
    }
  }

  /** `s.find(c)`: the index of the first occurrence of `c`, if any. */
  function FirstIndexOf(s: string, c: char): (r: Option<nat>)
    ensures r.Some? ==> r.value < |s| && s[r.value] == c && c !in s[..r.value]
    ensures r.None? ==> c !in s
  {
    if s == [] then None
    else if s[0] == c then Some(0)
    else match FirstIndexOf(s[1..], c)
      case None => None
      case Some(k) => assert s[..k + 1] == [s[0]] + s[1..][..k]; Some(k + 1)
  }

  lemma {:induction false} FirstIndexOfConcat(a: string, c: char, b: string)
    requires c !in a
    ensures FirstIndexOf(a + [c] + b, c) == Some(|a|)
  {
    if a != [] {
      assert (a + [c] + b)[1..] == a[1..] + [c] + b;
      FirstIndexOfConcat(a[1..], c, b);
    }
  }

  /** Python's `needle in haystack` for strings. */
  predicate Contains(haystack: string, needle: string)
    decreases |haystack|
  {
    needle <= haystack || (haystack != [] && Contains(haystack[1..], needle))
  }

  /** A string contains whatever is written inside it. */
  lemma {:induction false} ContainsInfix(a: string, b: string, c: string)
    ensures Contains(a + b + c, b)
  {
    if a == [] {
      assert b <= a + b + c;
    } else {
      assert (a + b + c)[1..] == a[1..] + b + c;
      ContainsInfix(a[1..], b, c);
    }
  }
}
