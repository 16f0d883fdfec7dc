/**
 * The JavaScript string built-ins the form relies on: `String.prototype.trim`,
 * `parseInt` (radix omitted) and `String(n)` for an integer.
 */
module Text {
  import opened Wrappers

  /** The characters ECMAScript counts as WhiteSpace or LineTerminator; `trim` and `parseInt` skip them. */
  predicate IsSpace(c: char) {
    || c == '\t' || c == '\n' || c == '\U{B}' || c == '\U{C}' || c == '\r' || c == ' '
    || c == '\U{A0}' || c == '\U{1680}' || ('\U{2000}' <= c <= '\U{200A}')
    || c == '\U{2028}' || c == '\U{2029}' || c == '\U{202F}' || c == '\U{205F}'
    || c == '\U{3000}' || c == '\U{FEFF}'
  }

  predicate AllSpace(s: string) {
    forall i :: 0 <= i < |s| ==> IsSpace(s[i])
  }

  /** `s` with its leading whitespace removed: a suffix of `s` that does not start with whitespace. */
  function TrimStart(s: string): (r: string)
    ensures |r| <= |s| && r == s[|s| - |r|..]
    ensures AllSpace(s[..|s| - |r|])
    ensures r == [] || !IsSpace(r[0])
  {
    if |s| > 0 && IsSpace(s[0]) then
      var r := TrimStart(s[1..]);
      assert s[..|s| - |r|] == [s[0]] + s[1..][..|s| - 1 - |r|];
      r
    else
      s
  }

  /** `s` with its trailing whitespace removed: a prefix of `s` that does not end with whitespace. */
  function TrimEnd(s: string): (r: string)
    ensures |r| <= |s| && r == s[..|r|]
    ensures AllSpace(s[|r|..])
    ensures r == [] || !IsSpace(r[|r| - 1])
  {
    if |s| > 0 && IsSpace(s[|s| - 1]) then
      var r := TrimEnd(s[..|s| - 1]);
      assert s[|r|..] == s[..|s| - 1][|r|..] + [s[|s| - 1]];
      r
    else
      s
  }

  /** `String.prototype.trim`. */
  function Trim(s: string): (r: string)
    ensures |r| <= |s|
    ensures r == [] || (!IsSpace(r[0]) && !IsSpace(r[|r| - 1]))
  {
    TrimEnd(TrimStart(s))
  }

  /**
   * What `trim` means: the result is the slice of `s` left once a run of
   * whitespace is cut from each end, and it neither starts nor ends with whitespace.
   */
  lemma TrimIsCore(s: string)
    ensures exists i :: 0 <= i <= |s| - |Trim(s)| && Trim(s) == s[i..i + |Trim(s)|]
                     && AllSpace(s[..i]) && AllSpace(s[i + |Trim(s)|..])
  {
    var t := TrimStart(s);
    var r := TrimEnd(t);
    CutBothEnds(s, t, r);
    var i := |s| - |t|;
    assert r == s[i..i + |r|] && AllSpace(s[..i]) && AllSpace(s[i + |r|..]);
  }

  /** Cutting a whitespace prefix and then a whitespace suffix leaves a slice of `s` between two whitespace runs. */
  lemma CutBothEnds(s: string, t: string, r: string)
    requires |t| <= |s| && t == s[|s| - |t|..] && AllSpace(s[..|s| - |t|])
    requires |r| <= |t| && r == t[..|r|] && AllSpace(t[|r|..])
    ensures var i := |s| - |t|;
            r == s[i..i + |r|] && AllSpace(s[..i]) && AllSpace(s[i + |r|..])
  {
    var i := |s| - |t|;
    assert t[|r|..] == s[i + |r|..];
  }

  /** A string trims to `''` exactly when it is made of whitespace only. */
  lemma TrimEmptyIff(s: string)
    ensures Trim(s) == [] <==> AllSpace(s)
  {
    var t := TrimStart(s);
    if Trim(s) == [] {
      assert AllSpace(t[0..]);
      assert s == s[..|s| - |t|] + t;
    }
  }

  /** Trimming twice is trimming once. */
  lemma TrimIdempotent(s: string)
    ensures Trim(Trim(s)) == Trim(s)
  {
    var r := Trim(s);
    if r != [] {
      assert TrimStart(r) == r;
      assert TrimEnd(r) == r;
    }
  }

  // ---------------------------------------------------------------------------
  // parseInt and String(n)

  /** The value of `c` as a digit in base `radix` (10 or 16), if it is one. */
  function DigitValue(c: char, radix: nat): (d: Option<nat>)
    requires radix == 10 || radix == 16
    ensures d.Some? ==> d.value < radix
  {
    if '0' <= c <= '9' then Some(c as nat - '0' as nat)
    else if radix == 16 && 'a' <= c <= 'f' then Some(c as nat - 'a' as nat + 10)
    else if radix == 16 && 'A' <= c <= 'F' then Some(c as nat - 'A' as nat + 10)
    else None
  }

  predicate IsDigitIn(c: char, radix: nat)
    requires radix == 10 || radix == 16
  {
    DigitValue(c, radix).Some?
  }

  /** Length of the longest prefix of `s` made of base-`radix` digits. */
  function DigitRun(s: string, radix: nat): (n: nat)
    requires radix == 10 || radix == 16
    ensures n <= |s|
    ensures forall i :: 0 <= i < n ==> IsDigitIn(s[i], radix)
    ensures n < |s| ==> !IsDigitIn(s[n], radix)
  {
    if |s| > 0 && IsDigitIn(s[0], radix) then 1 + DigitRun(s[1..], radix) else 0
  }

  /** The number a string of base-`radix` digits denotes, most significant digit first. */
  function DigitsValue(s: string, radix: nat): nat
    requires radix == 10 || radix == 16
    requires forall i :: 0 <= i < |s| ==> IsDigitIn(s[i], radix)
  {
    if s == [] then 0
    else
      assert IsDigitIn(s[|s| - 1], radix);
      DigitsValue(s[..|s| - 1], radix) * radix + DigitValue(s[|s| - 1], radix).value
  }

  function SkipSpace(s: string): string {
    if |s| > 0 && IsSpace(s[0]) then SkipSpace(s[1..]) else s
  }

  /**
   * `parseInt(s)` with the radix omitted: leading whitespace skipped, one optional
   * sign, a `0x`/`0X` prefix switching to base 16, then the longest run of digits;
   * `None` (NaN) when that run is empty. `-0` is 0, as `===` does not tell them apart.
   */
  function ParseInt(s: string): (r: Option<int>)
  {
    var t := SkipSpace(s);
    var negative := |t| > 0 && t[0] == '-';
    var u := if |t| > 0 && (t[0] == '-' || t[0] == '+') then t[1..] else t;
    var hex := |u| >= 2 && u[0] == '0' && (u[1] == 'x' || u[1] == 'X');
    var radix := if hex then 16 else 10;
    var body := if hex then u[2..] else u;
    var n := DigitRun(body, radix);
    if n == 0 then None
    else
      var m: int := DigitsValue(body[..n], radix);
      var v: int := if negative then -m else m;
      Some(v)
  }

  function DigitChar(d: nat): (c: char)
    requires d < 10
    ensures DigitValue(c, 10) == Some(d)
  {
    ('0' as nat + d) as char
  }

  /** Decimal digits of `m`, without leading zeros. */
  function NatToDecimal(m: nat): (s: string)
    ensures |s| > 0
    ensures forall i :: 0 <= i < |s| ==> IsDigitIn(s[i], 10)
    ensures s[0] == '0' ==> m == 0 && |s| == 1
  {
    if m < 10 then [DigitChar(m)] else NatToDecimal(m / 10) + [DigitChar(m % 10)]
  }

  /** `String(n)` for an integer `n` (decimal, a `-` before negatives). */
  function IntToString(n: int): (s: string)
    ensures |s| > 0 && !IsSpace(s[0])
  {
    if n < 0 then "-" + NatToDecimal(-n) else NatToDecimal(n)
  }

  lemma {:induction false} NatToDecimalValue(m: nat)
    ensures DigitsValue(NatToDecimal(m), 10) == m
  {
    var s := NatToDecimal(m);
    if m >= 10 {
      NatToDecimalValue(m / 10);
      assert s[..|s| - 1] == NatToDecimal(m / 10);
    }
  }

  lemma DigitRunOfDigits(s: string)
    requires forall i :: 0 <= i < |s| ==> IsDigitIn(s[i], 10)
    ensures DigitRun(s, 10) == |s|
  {
  }

  /** `parseInt(String(n)) === n`: the text an integer is rendered to parses back to it. */
  lemma ParseIntOfIntToString(n: int)
    ensures ParseInt(IntToString(n)) == Some(n)
  {
    var s := IntToString(n);
    var m: nat := if n < 0 then -n else n;
    var d := NatToDecimal(m);
    assert SkipSpace(s) == s;
    var u := if n < 0 then s[1..] else s;
    assert u == d;
    DigitRunOfDigits(d);
    assert d[..|d|] == d;
    NatToDecimalValue(m);
  }
}
