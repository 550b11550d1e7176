/** The small part of JavaScript's string and number semantics that the live-timing
    code relies on: rendering a natural number in decimal, `padStart`, `split` on a
    one-character separator, `trim`, `parseInt` without a radix, and truthiness. */
module JsText {

  datatype Option<T> = None | Some(value: T)

  /** A JavaScript scalar as it arrives in a request body or a JSON record:
      absent (`undefined`/`null`), a string, or an integral number. */
  datatype JsScalar = Undefined | Str(s: string) | Num(n: int)

  /** JavaScript truthiness of a scalar: "", 0 and undefined are falsy. */
  predicate Truthy(v: JsScalar)
  {
    match v
    case Undefined => false
    case Str(s) => s != ""
    case Num(n) => n != 0
  }

  /** A string-valued optional field, read with JavaScript truthiness. */
  predicate Present(v: Option<string>)
  {
    v.Some? && v.value != ""
  }

  // ---------------------------------------------------------------------------
  // Decimal digits

  predicate IsDigit(c: char)
  {
    '0' <= c <= '9'
  }

  predicate AllDigits(s: string)
  {
    forall i :: 0 <= i < |s| ==> IsDigit(s[i])
  }

  function DigitChar(d: nat): (c: char)
    requires d < 10
    ensures IsDigit(c) && c as int - '0' as int == d
  {
    ['0', '1', '2', '3', '4', '5', '6', '7', '8', '9'][d]
  }

  function DigitValue(c: char): (d: nat)
    requires IsDigit(c)
    ensures d < 10 && DigitChar(d) == c
  {
    c as int - '0' as int
  }

  /** `n.toString()` for a natural number. */
  function NatToString(n: nat): (r: string)
    ensures |r| >= 1 && AllDigits(r)
    ensures (r[0] == '0') == (n == 0)
    ensures n < 10 <==> |r| == 1
  {
    if n < 10 then [DigitChar(n)] else NatToString(n / 10) + [DigitChar(n % 10)]
  }

  /** The value of a string of decimal digits (0 for the empty string). */
  function DigitsValue(s: string): (n: nat)
    requires AllDigits(s)
  {
    if s == [] then 0 else DigitsValue(s[..|s| - 1]) * 10 + DigitValue(s[|s| - 1])
  }

  lemma {:induction false} DigitsValueOfNatToString(n: nat)
    ensures DigitsValue(NatToString(n)) == n
  {
    var r := NatToString(n);
    if n >= 10 {
      DigitsValueOfNatToString(n / 10);
      assert r[..|r| - 1] == NatToString(n / 10);
    }
  }

  /** `k` copies of `c`. */
  function Repeat(c: char, k: nat): (r: string)
    ensures |r| == k && forall i :: 0 <= i < k ==> r[i] == c
  {
    if k == 0 then [] else [c] + Repeat(c, k - 1)
  }

  /** `s.padStart(width, fill)` with a one-character fill string. */
  function PadStart(s: string, width: nat, fill: char): (r: string)
    ensures |r| == if |s| >= width then |s| else width
    ensures r[|r| - |s|..] == s
    ensures forall i :: 0 <= i < |r| - |s| ==> r[i] == fill
  {
    if |s| >= width then s else Repeat(fill, width - |s|) + s
  }

  /** Leading zeros do not change the value of a digit string. */
  lemma {:induction false} DigitsValueZeroPrefix(k: nat, s: string)
    requires AllDigits(s)
    ensures AllDigits(Repeat('0', k) + s)
    ensures DigitsValue(Repeat('0', k) + s) == DigitsValue(s)
  {
    var z := Repeat('0', k);
    if s == [] {
      assert z + s == z;
      ZerosValue(k);
    } else {
      var init := s[..|s| - 1];
      DigitsValueZeroPrefix(k, init);
      assert (z + s)[..|z + s| - 1] == z + init;
    }
  }

  /** A run of zeros is worth 0. */
  lemma {:induction false} ZerosValue(k: nat)
    ensures AllDigits(Repeat('0', k)) && DigitsValue(Repeat('0', k)) == 0
  {
    if k > 0 {
      ZerosValue(k - 1);
      assert Repeat('0', k)[..k - 1] == Repeat('0', k - 1);
    }
  }

  /** A natural below `10^width`, padded to `width` digits, reads back as itself. */
  lemma PaddedDigits(n: nat, width: nat)
    requires |NatToString(n)| <= width
    ensures var p := PadStart(NatToString(n), width, '0');
      |p| == width && AllDigits(p) && DigitsValue(p) == n
  {
    var s := NatToString(n);
    assert PadStart(s, width, '0') == Repeat('0', width - |s|) + s;
    DigitsValueZeroPrefix(width - |s|, s);
    DigitsValueOfNatToString(n);
  }

  lemma NatToStringLength(n: nat)
    ensures n < 10 ==> |NatToString(n)| == 1
    ensures n < 100 ==> |NatToString(n)| <= 2
    ensures n < 1000 ==> |NatToString(n)| <= 3
  {
    if n >= 10 {
      NatToStringLength(n / 10);
    }
  }

  // ---------------------------------------------------------------------------
  // split

  /** The number of occurrences of `c` in `s`. */
  function Count(s: string, c: char): (k: nat)
    ensures k <= |s|
    ensures k == multiset(s)[c]
    ensures k == 0 <==> c !in s
  {
    if s == [] then 0
    else
      assert s == [s[0]] + s[1..];
      (if s[0] == c then 1 else 0) + Count(s[1..], c)
  }

  /** `s.split(sep)` for a one-character separator: the maximal pieces between
      separators, including empty ones, so `"".split(sep)` is `[""]`. */
  function Split(s: string, sep: char): (parts: seq<string>)
    ensures |parts| >= 1
  {
    if s == [] then [""]
    else
      var rest := Split(s[1..], sep);
      if s[0] == sep then [""] + rest else [[s[0]] + rest[0]] + rest[1..]
  }

  /** `parts.join(sep)`, the inverse of Split. */
  function Join(parts: seq<string>, sep: char): string
  {
    if parts == [] then ""
    else if |parts| == 1 then parts[0]
    else parts[0] + [sep] + Join(parts[1..], sep)
  }

  lemma {:induction false} SplitCount(s: string, sep: char)
    ensures |Split(s, sep)| == Count(s, sep) + 1
  {
    if s != [] {
      SplitCount(s[1..], sep);
    }
  }

  lemma {:induction false} SplitPiecesHaveNoSeparator(s: string, sep: char)
    ensures forall i :: 0 <= i < |Split(s, sep)| ==> sep !in Split(s, sep)[i]
  {
    if s != [] {
      SplitPiecesHaveNoSeparator(s[1..], sep);
    }
  }

  lemma {:induction false} JoinSplit(s: string, sep: char)
    ensures Join(Split(s, sep), sep) == s
  {
    if s != [] {
      var rest := Split(s[1..], sep);
      JoinSplit(s[1..], sep);
      if s[0] != sep && |rest| > 1 {
        assert Split(s, sep)[1..] == rest[1..];
        assert Join(Split(s, sep), sep) == [s[0]] + rest[0] + [sep] + Join(rest[1..], sep);
      }
    }
  }

  /** Splitting a separator-free string yields that string alone. */
  lemma {:induction false} SplitNoSeparator(s: string, sep: char)
    requires sep !in s
    ensures Split(s, sep) == [s]
  {
    if s != [] {
      assert s[0] != sep && sep !in s[1..];
      SplitNoSeparator(s[1..], sep);
      assert [s[0]] + s[1..] == s;
    }
  }

  /** Splitting `a + sep + b`, where `a` has no separator, gives `a` and then the pieces of `b`. */
  lemma {:induction false} SplitAt(a: string, sep: char, b: string)
    requires sep !in a
    ensures Split(a + [sep] + b, sep) == [a] + Split(b, sep)
  {
    if a == [] {
      assert a + [sep] + b == [sep] + b;
      assert ([sep] + b)[1..] == b;
    } else {
      assert a[0] != sep && sep !in a[1..];
      SplitAt(a[1..], sep, b);
      assert (a + [sep] + b)[1..] == a[1..] + [sep] + b;
      assert (a + [sep] + b)[0] == a[0];
      assert [a[0]] + a[1..] == a;
    }
  }

  /** Split undoes Join when no piece contains the separator. */
  lemma {:induction false} SplitJoin(parts: seq<string>, sep: char)
    requires parts != []
    requires forall i :: 0 <= i < |parts| ==> sep !in parts[i]
    ensures Split(Join(parts, sep), sep) == parts
  {
    if |parts| == 1 {
      SplitNoSeparator(parts[0], sep);
    } else {
      SplitJoin(parts[1..], sep);
      SplitAt(parts[0], sep, Join(parts[1..], sep));
      assert [parts[0]] + parts[1..] == parts;
    }
  }

  /** Every character of every piece comes from the split string. */
  lemma {:induction false} SplitPiecesComeFromInput(s: string, sep: char)
    ensures forall i, j :: 0 <= i < |Split(s, sep)| && 0 <= j < |Split(s, sep)[i]| ==> Split(s, sep)[i][j] in s
  {
    if s != [] {
      SplitPiecesComeFromInput(s[1..], sep);
      var rest := Split(s[1..], sep);
      var parts := Split(s, sep);
      forall i, j | 0 <= i < |parts| && 0 <= j < |parts[i]|
        ensures parts[i][j] in s
      {
        if s[0] == sep {
          assert i >= 1 && parts[i] == rest[i - 1];
          assert rest[i - 1][j] in s[1..];
        } else if i == 0 {
          if j > 0 {
            assert parts[0][j] == rest[0][j - 1];
            assert rest[0][j - 1] in s[1..];
          }
        } else {
          assert parts[i] == rest[i];
          assert rest[i][j] in s[1..];
        }
      }
    }
  }

  // ---------------------------------------------------------------------------
  // trim

  /** The characters ECMAScript's `trim` removes: WhiteSpace and LineTerminator. */
  predicate IsJsSpace(c: char)
  {
    c == ' ' || c == '\t' || c == '\n' || c == '\r' || c == '\U{000B}' || c == '\U{000C}' ||
    c == '\U{00A0}' || c == '\U{FEFF}' || c == '\U{1680}' || ('\U{2000}' <= c <= '\U{200A}') ||
    c == '\U{2028}' || c == '\U{2029}' || c == '\U{202F}' || c == '\U{205F}' || c == '\U{3000}'
  }

  /** The first index at or after `i` that does not hold white space (or `|s|`). */
  function SkipSpaces(s: string, i: nat): (j: nat)
    requires i <= |s|
    ensures i <= j <= |s|
    ensures forall k :: i <= k < j ==> IsJsSpace(s[k])
    ensures j < |s| ==> !IsJsSpace(s[j])
    decreases |s| - i
  {
    if i < |s| && IsJsSpace(s[i]) then SkipSpaces(s, i + 1) else i
  }

  /** The least index `j` with `lo <= j <= hi` such that `s[j..hi]` is all white space. */
  function BackSpaces(s: string, lo: nat, hi: nat): (j: nat)
    requires lo <= hi <= |s|
    ensures lo <= j <= hi
    ensures forall k :: j <= k < hi ==> IsJsSpace(s[k])
    ensures lo < j ==> !IsJsSpace(s[j - 1])
    decreases hi
  {
    if lo < hi && IsJsSpace(s[hi - 1]) then BackSpaces(s, lo, hi - 1) else hi
  }

  /** `s.trimStart()`. */
  function TrimStart(s: string): string
  {
    s[SkipSpaces(s, 0)..]
  }

  /** `s.trim()`: the text between the leading and the trailing white space. */
  function Trim(s: string): string
  {
    var a := SkipSpaces(s, 0);
    s[a..BackSpaces(s, a, |s|)]
  }

  /** Trim keeps the slice `s[a..b]` between a maximal white-space run at the
      front and one at the back: everything cut is white space, and the kept
      text neither starts nor ends with white space. */
  lemma TrimShape(s: string)
    ensures var a := SkipSpaces(s, 0);
      var b := BackSpaces(s, a, |s|);
      a <= b <= |s| && Trim(s) == s[a..b] &&
      (forall k :: 0 <= k < a ==> IsJsSpace(s[k])) &&
      (forall k :: b <= k < |s| ==> IsJsSpace(s[k])) &&
      (a < b ==> !IsJsSpace(s[a]) && !IsJsSpace(s[b - 1]))
  {
  }

  /** A string with no white space at either end is its own trim. */
  lemma TrimOfTrimmed(s: string)
    requires s == [] || (!IsJsSpace(s[0]) && !IsJsSpace(s[|s| - 1]))
    ensures Trim(s) == s
  {
  }

  /** Trim removes exactly the white space padding around a text whose ends are
      not white space. */
  lemma TrimPadded(pre: string, t: string, post: string)
    requires forall k :: 0 <= k < |pre| ==> IsJsSpace(pre[k])
    requires forall k :: 0 <= k < |post| ==> IsJsSpace(post[k])
    requires t == [] || (!IsJsSpace(t[0]) && !IsJsSpace(t[|t| - 1]))
    ensures Trim(pre + t + post) == t
  {
    var s := pre + t + post;
    var a := SkipSpaces(s, 0);
    if t == [] {
      assert forall k :: 0 <= k < |s| ==> IsJsSpace(s[k]);
      assert a == |s|;
    } else {
      assert s[|pre|] == t[0];
      assert forall k :: 0 <= k < |pre| ==> IsJsSpace(s[k]);
      assert a == |pre|;
      var e := |pre| + |t|;
      assert s[e - 1] == t[|t| - 1];
      assert forall k :: e <= k < |s| ==> IsJsSpace(s[k]);
      assert BackSpaces(s, a, |s|) == e;
      assert s[a..e] == t;
    }
  }

  // ---------------------------------------------------------------------------
  // parseInt

  predicate IsHexDigit(c: char)
  {
    IsDigit(c) || 'a' <= c <= 'f' || 'A' <= c <= 'F'
  }

  function HexValue(c: char): (d: nat)
    requires IsHexDigit(c)
    ensures d < 16
  {
    if IsDigit(c) then c as int - '0' as int
    else if 'a' <= c <= 'f' then c as int - 'a' as int + 10
    else c as int - 'A' as int + 10
  }

  /** A digit of base 16 when `hex`, of base 10 otherwise. */
  predicate IsRadixDigit(c: char, hex: bool)
  {
    if hex then IsHexDigit(c) else IsDigit(c)
  }

  /** The end of the run of radix digits that starts at index `i`. */
  function DigitsEnd(s: string, i: nat, hex: bool): (j: nat)
    requires i <= |s|
    ensures i <= j <= |s|
    ensures forall k :: i <= k < j ==> IsRadixDigit(s[k], hex)
    ensures j < |s| ==> !IsRadixDigit(s[j], hex)
    decreases |s| - i
  {
    if i < |s| && IsRadixDigit(s[i], hex) then DigitsEnd(s, i + 1, hex) else i
  }

  /** The value of a string of radix digits. */
  function RadixValue(s: string, hex: bool): nat
    requires forall i :: 0 <= i < |s| ==> IsRadixDigit(s[i], hex)
  {
    if s == [] then 0
    else
      assert IsRadixDigit(s[|s| - 1], hex);
      RadixValue(s[..|s| - 1], hex) * (if hex then 16 else 10) + HexValue(s[|s| - 1])
  }

  /** The digits `s[k..e]` are all radix digits. */
  lemma DigitsRun(s: string, k: nat, hex: bool)
    requires k <= |s|
    ensures forall i :: 0 <= i < DigitsEnd(s, k, hex) - k ==> IsRadixDigit(s[k..DigitsEnd(s, k, hex)][i], hex)
  {
    var e := DigitsEnd(s, k, hex);
    forall i | 0 <= i < e - k ensures IsRadixDigit(s[k..e][i], hex) {
      assert s[k..e][i] == s[k + i];
    }
  }

  /** The index after leading white space and an optional sign. */
  function SignEnd(s: string): (j: nat)
    ensures j <= |s|
  {
    var i := SkipSpaces(s, 0);
    if i < |s| && (s[i] == '-' || s[i] == '+') then i + 1 else i
  }

  /** `s[j..]` opens with `0x` or `0X`. */
  predicate IsHexAt(s: string, j: nat)
  {
    j + 1 < |s| && s[j] == '0' && (s[j + 1] == 'x' || s[j + 1] == 'X')
  }

  /** The sign position holds '-'. */
  predicate IsNegative(s: string)
  {
    var i := SkipSpaces(s, 0);
    i < |s| && s[i] == '-'
  }

  /** `parseInt(s)` with no radix: leading white space, an optional sign, an
      optional `0x`/`0X` prefix selecting base 16, then the longest run of digits;
      `None` stands for NaN (no digit at all). */
  function ParseInt(s: string): (r: Option<int>)
  {
    var j := SignEnd(s);
    var hex := IsHexAt(s, j);
    var k := if hex then j + 2 else j;
    var e := DigitsEnd(s, k, hex);
    if e == k then None
    else
      DigitsRun(s, k, hex);
      var v: int := RadixValue(s[k..e], hex);
      Some(if IsNegative(s) then -v else v)
  }

  /** parseInt applied to a scalar: numbers are already integral, `undefined` is NaN. */
  function ParseIntScalar(v: JsScalar): Option<int>
  {
    match v
    case Undefined => None
    case Str(s) => ParseInt(s)
    case Num(n) => Some(n)
  }

  lemma DecimalValueAgrees(s: string)
    requires AllDigits(s)
    ensures RadixValue(s, false) == DigitsValue(s)
  {
  }

  /** parseInt reads back what NatToString wrote. */
  lemma ParseIntOfNatToString(n: nat)
    ensures ParseInt(NatToString(n)) == Some(n)
  {
    var s := NatToString(n);
    assert SkipSpaces(s, 0) == 0;
    assert SignEnd(s) == 0;
    assert !IsHexAt(s, 0);
    DigitsOfAllDigits(s);
    assert s[0..|s|] == s;
    DecimalValueAgrees(s);
    DigitsValueOfNatToString(n);
  }

  /** In a string of decimal digits the run from 0 covers the whole string. */
  lemma DigitsOfAllDigits(s: string)
    requires AllDigits(s)
    ensures DigitsEnd(s, 0, false) == |s|
  {
  }

  /** A string with no decimal digit is NaN to parseInt. */
  lemma ParseIntNoDigits(s: string)
    requires forall i :: 0 <= i < |s| ==> !IsDigit(s[i])
    ensures ParseInt(s) == None
  {
    var j := SignEnd(s);
    assert !IsHexAt(s, j);
    assert j < |s| ==> !IsRadixDigit(s[j], false);
  }

  // ---------------------------------------------------------------------------
  // Number()

  /** `Number(v)` for the values route parameters carry: a string is trimmed,
      the empty string is 0, an optionally signed run of decimal digits is its
      value, and anything else is NaN (`None`). */
  function NumberValue(v: JsScalar): (r: Option<int>)
    ensures v.Num? ==> r == Some(v.n)
  {
    match v
    case Undefined => None
    case Num(n) => Some(n)
    case Str(s) =>
      var t := Trim(s);
      if t == "" then Some(0)
      else if AllDigits(t) then Some(DigitsValue(t))
      else if |t| > 1 && (t[0] == '-' || t[0] == '+') && AllDigits(t[1..]) then
        var d: int := DigitsValue(t[1..]);
        Some(if t[0] == '-' then -d else d)
      else None
  }

  /** A decimal id written with toString reads back through Number. */
  lemma NumberOfNatToString(n: nat)
    ensures NumberValue(Str(NatToString(n))) == Some(n)
  {
    var s := NatToString(n);
    assert !IsJsSpace(s[0]) && !IsJsSpace(s[|s| - 1]);
    TrimOfTrimmed(s);
    DigitsValueOfNatToString(n);
  }
}
