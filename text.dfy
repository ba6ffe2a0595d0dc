/** The JavaScript string built-ins the bot and organizer code relies on:
    whitespace, `trim`, `startsWith`, `replace` of the first occurrence,
    `parseInt` without a radix, `Number` applied to a string, `split` on one
    character, and the decimal rendering of a non-negative integer
    (`Date.now().toString()`). Strings are sequences of characters; a
    JavaScript string is a sequence of UTF-16 code units, which differs
    only outside the Basic Multilingual Plane, and every character these
    operations test for lies inside it. */
module JsText {

  datatype Option<T> = None | Some(value: T)

  /** The white-space and line-terminator characters that `trim`,
      `parseInt` and `Number` skip (ECMAScript's StrWhiteSpaceChar). */
  predicate IsSpace(c: char) {
    c == '\t' || c == '\n' || c == '\U{B}' || c == '\U{C}' || c == '\r' || c == ' '
    || c == '\U{A0}' || c == '\U{1680}' || ('\U{2000}' <= c <= '\U{200A}')
    || c == '\U{2028}' || c == '\U{2029}' || c == '\U{202F}' || c == '\U{205F}'
    || c == '\U{3000}' || c == '\U{FEFF}'
  }

  predicate AllSpace(s: string) {
    forall k :: 0 <= k < |s| ==> IsSpace(s[k])
  }

  // ---------------------------------------------------------------------------
  // trim

  /** Drops leading white space. */
  function TrimStart(s: string): string {
    if s != [] && IsSpace(s[0]) then TrimStart(s[1..]) else s
  }

  /** What `TrimStart` drops is all white space, and what it keeps is a
      suffix that does not start with white space. */
  lemma {:induction false} TrimStartKeepsSuffix(s: string)
    ensures |TrimStart(s)| <= |s| && TrimStart(s) == s[|s| - |TrimStart(s)|..]
    ensures AllSpace(s[..|s| - |TrimStart(s)|])
    ensures TrimStart(s) == [] || !IsSpace(TrimStart(s)[0])
    decreases |s|
  {
    if s != [] && IsSpace(s[0]) {
      TrimStartKeepsSuffix(s[1..]);
      var r := TrimStart(s);
      assert s[..|s| - |r|] == [s[0]] + s[1..][..|s| - 1 - |r|];
    }
  }

  /** Drops trailing white space. */
  function TrimEnd(s: string): string {
    if s != [] && IsSpace(s[|s| - 1]) then TrimEnd(s[..|s| - 1]) else s
  }

  /** `TrimEnd` keeps a prefix that does not end in white space, and
      everything it drops is white space. */
  lemma {:induction false} TrimEndKeepsPrefix(s: string)
    ensures |TrimEnd(s)| <= |s| && TrimEnd(s) == s[..|TrimEnd(s)|]
    ensures AllSpace(s[|TrimEnd(s)|..])
    ensures TrimEnd(s) == [] || !IsSpace(TrimEnd(s)[|TrimEnd(s)| - 1])
    decreases |s|
  {
    if s != [] && IsSpace(s[|s| - 1]) {
      TrimEndKeepsPrefix(s[..|s| - 1]);
      var r := TrimEnd(s);
      assert s[|r|..] == s[..|s| - 1][|r|..] + [s[|s| - 1]];
    }
  }

  /** `String.prototype.trim`. */
  function Trim(s: string): (r: string)
  {
    TrimEnd(TrimStart(s))
  }

  /** The number of white-space characters `trim` drops at the front. */
  function LeadingSpace(s: string): (n: nat)
    ensures n <= |s|
  {
    TrimStartKeepsSuffix(s);
    |s| - |TrimStart(s)|
  }

  /** The trimmed string is the slice of the input that starts after the
      leading white space, has only white space after it, and has none at
      either of its ends. */
  lemma TrimIsCore(s: string)
    ensures LeadingSpace(s) + |Trim(s)| <= |s|
    ensures Trim(s) == s[LeadingSpace(s)..LeadingSpace(s) + |Trim(s)|]
    ensures AllSpace(s[..LeadingSpace(s)]) && AllSpace(s[LeadingSpace(s) + |Trim(s)|..])
    ensures Trim(s) == [] || (!IsSpace(Trim(s)[0]) && !IsSpace(Trim(s)[|Trim(s)| - 1]))
  {
    var t := TrimStart(s);
    var r := TrimEnd(t);
    TrimStartKeepsSuffix(s);
    TrimEndKeepsPrefix(t);
    var i := |s| - |t|;
    var j := i + |r|;
    assert s[i..] == t;
    assert r == s[i..j];
    assert s[j..] == t[|r|..];
    if r != [] {
      assert r[0] == t[0];
    }
  }

  /** A string trims to nothing exactly when it is all white space. */
  lemma TrimEmptyIffAllSpace(s: string)
    ensures Trim(s) == [] <==> AllSpace(s)
  {
    var t := TrimStart(s);
    TrimStartKeepsSuffix(s);
    TrimEndKeepsPrefix(t);
    assert s == s[..|s| - |t|] + t;
    if Trim(s) == [] {
      assert t[0..] == t;
    }
    if t != [] {
      assert s[|s| - |t|] == t[0];
    }
  }

  /** Trimming twice is trimming once. */
  lemma TrimIdempotent(s: string)
    ensures Trim(Trim(s)) == Trim(s)
  {
    var r := Trim(s);
    TrimIsCore(s);
    if r != [] {
      assert !IsSpace(r[0]) && !IsSpace(r[|r| - 1]);
      assert TrimStart(r) == r;
      assert TrimEnd(r) == r;
    }
  }

  // ---------------------------------------------------------------------------
  // startsWith and replace

  predicate StartsWith(s: string, p: string) {
    |p| <= |s| && s[..|p|] == p
  }

  /** The index of the first occurrence of `p` in `s`, if any. */
  function IndexOf(s: string, p: string): (r: Option<nat>)
    ensures r.Some? ==> r.value + |p| <= |s| && s[r.value..r.value + |p|] == p
  {
    if StartsWith(s, p) then Some(0)
    else if s == [] then None
    else
      match IndexOf(s[1..], p)
      case None => None
      case Some(i) =>
        assert s[i + 1..i + 1 + |p|] == s[1..][i..i + |p|];
        Some(i + 1)
  }

  /** `IndexOf` finds the first occurrence, and reports none only when
      there is none. */
  lemma {:induction false} IndexOfIsFirst(s: string, p: string)
    ensures IndexOf(s, p).Some? ==> forall k :: 0 <= k < IndexOf(s, p).value ==> !StartsWith(s[k..], p)
    ensures IndexOf(s, p).None? ==> forall k :: 0 <= k <= |s| ==> !StartsWith(s[k..], p)
    decreases |s|
  {
    if !StartsWith(s, p) && s != [] {
      IndexOfIsFirst(s[1..], p);
      assert forall k :: 1 <= k <= |s| ==> s[k..] == s[1..][k - 1..];
    }
  }

  /** `s.replace(p, "")` for a string pattern: only the first occurrence
      is removed. */
  function RemoveFirst(s: string, p: string): string {
    match IndexOf(s, p)
    case None => s
    case Some(i) => s[..i] + s[i + |p|..]
  }

  /** When `s` starts with `p`, removing the first `p` drops that prefix. */
  lemma RemoveLeadingToken(s: string, p: string)
    requires StartsWith(s, p)
    ensures RemoveFirst(s, p) == s[|p|..]
  {
    assert IndexOf(s, p) == Some(0);
  }

  // ---------------------------------------------------------------------------
  // digits

  predicate IsDigit(c: char) { '0' <= c <= '9' }

  predicate IsHexDigit(c: char) {
    IsDigit(c) || 'a' <= c <= 'f' || 'A' <= c <= 'F'
  }

  predicate AllDigits(s: string) { forall k :: 0 <= k < |s| ==> IsDigit(s[k]) }

  function DigitValue(c: char): nat
    requires IsHexDigit(c)
  {
    if IsDigit(c) then c as nat - '0' as nat
    else if 'a' <= c <= 'f' then c as nat - 'a' as nat + 10
    else c as nat - 'A' as nat + 10
  }

  /** The value of a digit string in the given radix, most significant
      digit first. */
  function DigitsValue(ds: string, radix: nat): nat
    requires forall k :: 0 <= k < |ds| ==> IsHexDigit(ds[k])
  {
    if ds == [] then 0
    else DigitsValue(ds[..|ds| - 1], radix) * radix + DigitValue(ds[|ds| - 1])
  }

  predicate IsRadixDigit(c: char, radix: nat) {
    IsHexDigit(c) && DigitValue(c) < radix
  }

  /** The longest prefix of `s` made of digits of the given radix. */
  function RadixPrefix(s: string, radix: nat): (r: string)
    ensures |r| <= |s| && r == s[..|r|]
    ensures forall k :: 0 <= k < |r| ==> IsRadixDigit(r[k], radix)
    ensures |r| < |s| ==> !IsRadixDigit(s[|r|], radix)
  {
    if s != [] && IsRadixDigit(s[0], radix) then [s[0]] + RadixPrefix(s[1..], radix) else []
  }

  // ---------------------------------------------------------------------------
  // Number.prototype.toString for non-negative integers

  function DigitChar(d: nat): (c: char)
    requires d < 10
    ensures IsDigit(c) && DigitValue(c) == d
  {
    ('0' as nat + d) as char
  }

  /** The decimal rendering of `n`, without leading zeros. */
  function DecimalString(n: nat): (r: string)
    ensures r != [] && AllDigits(r)
    decreases n
  {
    if n < 10 then [DigitChar(n)] else DecimalString(n / 10) + [DigitChar(n % 10)]
  }

  /** Reading the rendering back in radix 10 gives the number. */
  lemma {:induction false} DecimalStringValue(n: nat)
    ensures DigitsValue(DecimalString(n), 10) == n
    decreases n
  {
    var r := DecimalString(n);
    if n >= 10 {
      DecimalStringValue(n / 10);
      assert r[..|r| - 1] == DecimalString(n / 10);
    }
  }

  /** `String(n)` for an integer `n`: a minus sign before the digits of a
      negative number. Never empty. */
  function IntegerString(n: int): (r: string)
    ensures r != []
  {
    if n >= 0 then DecimalString(n) else "-" + DecimalString(-n)
  }

  /** The rendering of an integer starts with a sign or a digit and ends
      with a digit. */
  lemma IntegerStringEnds(n: int)
    ensures var r := IntegerString(n); (r[0] == '-' || IsDigit(r[0])) && IsDigit(r[|r| - 1])
  {
    if n < 0 {
      var d := DecimalString(-n);
      assert ("-" + d)[|d|] == d[|d| - 1];
    }
  }

  // ---------------------------------------------------------------------------
  // parseInt

  /** `parseInt(s)` with no radix: skip leading white space, take an optional
      sign, switch to radix 16 after `0x`/`0X`, then read the longest digit
      prefix; no digits at all gives NaN (`None`). */
  function ParseInt(s: string): (r: Option<int>)
  {
    var t := TrimStart(s);
    var negative := t != [] && t[0] == '-';
    var u := if t != [] && (t[0] == '-' || t[0] == '+') then t[1..] else t;
    var hex := |u| >= 2 && u[0] == '0' && (u[1] == 'x' || u[1] == 'X');
    var radix := if hex then 16 else 10;
    var ds := RadixPrefix(if hex then u[2..] else u, radix);
    if ds == [] then None
    else
      var v: int := DigitsValue(ds, radix);
      Some(if negative then -v else v)
  }

  /** A string that starts with a digit and not with `0x` or `0X` is read
      in radix 10 from its first character. */
  lemma ParseUnsigned(s: string)
    requires s != [] && IsDigit(s[0])
    requires |s| >= 2 && s[0] == '0' ==> s[1] != 'x' && s[1] != 'X'
    ensures var ds := RadixPrefix(s, 10);
            ParseInt(s) == if ds == [] then None else Some(DigitsValue(ds, 10))
  {
    assert !IsSpace(s[0]);
    var t := TrimStart(s);
    assert t == s;
    assert t[0] != '-' && t[0] != '+';
    assert !(|t| >= 2 && t[0] == '0' && (t[1] == 'x' || t[1] == 'X'));
  }

  /** A digit string followed by anything that is not a digit parses to its
      decimal value. */
  lemma ParseDecimal(ds: string, rest: string)
    requires ds != [] && AllDigits(ds)
    requires rest == [] || !IsDigit(rest[0])
    requires ds == "0" && rest != [] ==> rest[0] != 'x' && rest[0] != 'X'
    ensures ParseInt(ds + rest) == Some(DigitsValue(ds, 10))
  {
    var s := ds + rest;
    assert s[0] == ds[0];
    if |s| >= 2 && s[0] == '0' {
      if |ds| >= 2 {
        assert s[1] == ds[1];
      } else {
        assert ds == "0" && s[1] == rest[0];
      }
    }
    ParseUnsigned(s);
    RadixPrefixOfDigits(ds, rest);
  }

  lemma {:induction false} RadixPrefixOfDigits(ds: string, rest: string)
    requires AllDigits(ds)
    requires rest == [] || !IsDigit(rest[0])
    ensures RadixPrefix(ds + rest, 10) == ds
    decreases |ds|
  {
    if ds != [] {
      var s := ds + rest;
      assert s[0] == ds[0] && IsRadixDigit(s[0], 10);
      assert s[1..] == ds[1..] + rest;
      assert RadixPrefix(s, 10) == [ds[0]] + RadixPrefix(ds[1..] + rest, 10);
      RadixPrefixOfDigits(ds[1..], rest);
    } else {
      assert ds + rest == rest;
    }
  }

  /** `parseInt` reads back the decimal rendering of every integer. */
  lemma ParseIntRoundTrip(n: int)
    ensures ParseInt(IntegerString(n)) == Some(n)
  {
    var m := if n >= 0 then n else -n;
    var ds := DecimalString(m);
    DecimalStringValue(m);
    if n >= 0 {
      ParseDecimal(ds, []);
      assert ds + [] == ds;
    } else {
      var s := "-" + ds;
      assert !IsSpace(s[0]);
      assert TrimStart(s) == s;
      assert s[1..] == ds;
      RadixPrefixOfDigits(ds, []);
      assert ds + [] == ds;
    }
  }

  // ---------------------------------------------------------------------------
  // Number(string)

  /** The JavaScript numbers `Number` can produce, with exact real values. */
  datatype JsNumber = NaN | Finite(value: real) | Infinity(negative: bool)

  function Pow10(e: nat): (r: real)
    ensures r >= 1.0
  {
    if e == 0 then 1.0 else 10.0 * Pow10(e - 1)
  }

  /** Scales `m` by ten to the power `e`. */
  function Scale(m: real, e: int): real {
    if e >= 0 then m * Pow10(e) else m / Pow10(-e)
  }

  /** An unsigned decimal literal: digits, an optional fraction and an
      optional exponent, with at least one digit before the exponent and
      nothing after it. */
  function UnsignedDecimal(u: string): JsNumber {
    var whole := RadixPrefix(u, 10);
    var afterWhole := u[|whole|..];
    var hasPoint := afterWhole != [] && afterWhole[0] == '.';
    var frac := if hasPoint then RadixPrefix(afterWhole[1..], 10) else [];
    var afterFrac := if hasPoint then afterWhole[1 + |frac|..] else afterWhole;
    if whole == [] && frac == [] then NaN
    else
      var mantissa := DigitsValue(whole, 10) as real + DigitsValue(frac, 10) as real / Pow10(|frac|);
      if afterFrac == [] then Finite(mantissa)
      else if afterFrac[0] != 'e' && afterFrac[0] != 'E' then NaN
      else
        var x := afterFrac[1..];
        var expNegative := x != [] && x[0] == '-';
        var y := if x != [] && (x[0] == '-' || x[0] == '+') then x[1..] else x;
        var eds := RadixPrefix(y, 10);
        if eds == [] || |eds| != |y| then NaN
        else
          var e: int := DigitsValue(eds, 10);
          Finite(Scale(mantissa, if expNegative then -e else e))
  }

  /** A non-decimal literal `0x…`, `0o…` or `0b…` that takes the whole string. */
  function PrefixedInteger(t: string, radix: nat): JsNumber
    requires |t| >= 2
  {
    var ds := RadixPrefix(t[2..], radix);
    if ds == [] || |ds| != |t| - 2 then NaN else Finite(DigitsValue(ds, radix) as real)
  }

  /** `Number(s)` for a string `s`: white space around is ignored, the empty
      string is zero, and anything that is not a numeric literal in full is
      NaN. */
  function ToNumber(s: string): JsNumber {
    var t := Trim(s);
    if t == [] then Finite(0.0)
    else if |t| >= 2 && t[0] == '0' && (t[1] == 'x' || t[1] == 'X') then PrefixedInteger(t, 16)
    else if |t| >= 2 && t[0] == '0' && (t[1] == 'o' || t[1] == 'O') then PrefixedInteger(t, 8)
    else if |t| >= 2 && t[0] == '0' && (t[1] == 'b' || t[1] == 'B') then PrefixedInteger(t, 2)
    else
      var negative := t[0] == '-';
      var u := if t[0] == '-' || t[0] == '+' then t[1..] else t;
      if u == "Infinity" then Infinity(negative)
      else
        match UnsignedDecimal(u)
        case Finite(v) => Finite(if negative then -v else v)
        case other => other
  }

  /** A plain digit string converts to its decimal value. */
  lemma ToNumberOfDigits(ds: string)
    requires ds != [] && AllDigits(ds)
    ensures ToNumber(ds) == Finite(DigitsValue(ds, 10) as real)
  {
    assert !IsSpace(ds[0]) && !IsSpace(ds[|ds| - 1]);
    assert TrimStart(ds) == ds;
    assert TrimEnd(ds) == ds;
    assert Trim(ds) == ds;
    if |ds| >= 2 {
      assert IsDigit(ds[1]);
    }
    assert ds[0] != '-' && ds[0] != '+';
    UnsignedDigits(ds);
    assert ToNumber(ds) == UnsignedDecimal(ds);
  }

  lemma UnsignedDigits(ds: string)
    requires ds != [] && AllDigits(ds)
    ensures UnsignedDecimal(ds) == Finite(DigitsValue(ds, 10) as real)
  {
    RadixPrefixOfDigits(ds, []);
    assert ds + [] == ds;
    assert RadixPrefix(ds, 10) == ds;
    assert ds[|ds|..] == [];
    assert DigitsValue([], 10) == 0;
  }

  // ---------------------------------------------------------------------------
  // split

  /** `s.split(c)` for a one-character separator: the pieces between the
      separators, so there is always at least one piece. */
  function Split(s: string, c: char): (r: seq<string>)
    ensures |r| >= 1
    ensures forall k :: 0 <= k < |r| ==> c !in r[k]
    decreases |s|
  {
    if c !in s then [s]
    else
      var i := IndexOfChar(s, c);
      [s[..i]] + Split(s[i + 1..], c)
  }

  function IndexOfChar(s: string, c: char): (i: nat)
    requires c in s
    ensures i < |s| && s[i] == c && c !in s[..i]
  {
    if s[0] == c then 0 else 1 + IndexOfChar(s[1..], c)
  }

  /** Joins pieces with the separator between them (`Array.prototype.join`). */
  function Join(parts: seq<string>, c: char): string
    requires |parts| >= 1
  {
    if |parts| == 1 then parts[0] else parts[0] + [c] + Join(parts[1..], c)
  }

  /** Splitting loses nothing: joining the pieces back gives the string. */
  lemma {:induction false} SplitJoin(s: string, c: char)
    ensures Join(Split(s, c), c) == s
    decreases |s|
  {
    if c in s {
      var i := IndexOfChar(s, c);
      SplitJoin(s[i + 1..], c);
      assert Split(s, c)[1..] == Split(s[i + 1..], c);
      assert s == s[..i] + [c] + s[i + 1..];
    }
  }
}
