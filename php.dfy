// PHP value semantics that the importers rely on: emptiness, string
// trimming, prefix tests, integer conversion, basename and ucfirst.

module Php {

  datatype Option<T> = None | Some(value: T)

  /** PHP's `empty()` on a string: true for "" and for "0". */
  predicate Empty(s: string)
  {
    s == "" || s == "0"
  }

  /** A string is truthy in PHP exactly when it is not empty. */
  predicate Truthy(s: string)
  {
    !Empty(s)
  }

  predicate StartsWith(s: string, p: string)
  {
    |p| <= |s| && s[..|p|] == p
  }

  predicate EndsWith(s: string, p: string)
  {
    |p| <= |s| && s[|s| - |p|..] == p
  }

  /** `strpos($s, $needle) !== false`: the needle occurs somewhere in s. */
  predicate Contains(s: string, needle: string)
  {
    StartsWith(s, needle) || (s != [] && Contains(s[1..], needle))
  }

  predicate AllSlashes(s: string)
  {
    forall i :: 0 <= i < |s| ==> s[i] == '/'
  }

  /** Number of slashes at the start of s. */
  function LeadingSlashes(s: string): (k: nat)
    ensures k <= |s|
    ensures forall i :: 0 <= i < k ==> s[i] == '/'
    ensures k == |s| || s[k] != '/'
  {
    if s == [] || s[0] != '/' then 0 else 1 + LeadingSlashes(s[1..])
  }

  /** Number of slashes at the end of s. */
  function TrailingSlashes(s: string): (k: nat)
    ensures k <= |s|
    ensures forall i :: |s| - k <= i < |s| ==> s[i] == '/'
    ensures k == |s| || s[|s| - k - 1] != '/'
  {
    if s == [] || s[|s| - 1] != '/' then 0 else 1 + TrailingSlashes(s[..|s| - 1])
  }

  /** `rtrim($s, '/')`. */
  function RTrimSlashes(s: string): (r: string)
    ensures |r| <= |s| && s[..|r|] == r && AllSlashes(s[|r|..])
    ensures r == [] || r[|r| - 1] != '/'
  {
    s[..|s| - TrailingSlashes(s)]
  }

  /** `ltrim($s, '/')`. */
  function LTrimSlashes(s: string): (r: string)
    ensures |r| <= |s| && s[|s| - |r|..] == r && AllSlashes(s[..|s| - |r|])
    ensures r == [] || r[0] != '/'
  {
    s[LeadingSlashes(s)..]
  }

  /**
   * `trim($s, '/')`: slashes removed from both ends.  Since r itself neither
   * starts nor ends with a slash, s is r between two runs of slashes in
   * exactly one way, and r is "" only when s is all slashes.
   */
  function TrimSlashes(s: string): (r: string)
    ensures |r| <= |s|
    ensures r == [] || (r[0] != '/' && r[|r| - 1] != '/')
    ensures exists i :: 0 <= i <= |s| - |r| && s[i..i + |r|] == r && AllSlashes(s[..i]) && AllSlashes(s[i + |r|..])
  {
    var l := LTrimSlashes(s);
    var i := |s| - |l|;
    assert s[i..i + |RTrimSlashes(l)|] == RTrimSlashes(l);
    assert s[i + |RTrimSlashes(l)|..] == l[|RTrimSlashes(l)|..];
    RTrimSlashes(l)
  }

  /** Trimming leaves a string without end slashes as it is. */
  lemma {:induction false} TrimSlashesFixed(t: string)
    requires t == [] || (t[0] != '/' && t[|t| - 1] != '/')
    ensures TrimSlashes(t) == t
  {
  }

  /** Trimming "/t/" gives back t when t has no end slashes of its own. */
  lemma {:induction false} TrimSlashesWrapped(t: string)
    requires t != [] && t[0] != '/' && t[|t| - 1] != '/'
    ensures TrimSlashes("/" + t + "/") == t
  {
    var w := "/" + t + "/";
    assert w[1..] == t + "/";
    assert LTrimSlashes(t + "/") == t + "/";
    assert LTrimSlashes(w) == t + "/";
    assert (t + "/")[..|t + "/"| - 1] == t;
    assert RTrimSlashes(t) == t;
  }

  /** ASCII upper-casing of one character (what `ucfirst` does outside a locale). */
  function UpperAscii(c: char): (u: char)
    ensures 'a' <= c <= 'z' ==> u as int == c as int - 32
    ensures !('a' <= c <= 'z') ==> u == c
  {
    if 'a' <= c <= 'z' then (c as int - 32) as char else c
  }

  function LowerAscii(c: char): (l: char)
    ensures 'A' <= c <= 'Z' ==> l as int == c as int + 32
    ensures !('A' <= c <= 'Z') ==> l == c
  {
    if 'A' <= c <= 'Z' then (c as int + 32) as char else c
  }

  /** `ucfirst($s)`: only the first character changes. */
  function Ucfirst(s: string): (r: string)
    ensures |r| == |s|
    ensures |s| > 0 ==> r[0] == UpperAscii(s[0]) && r[1..] == s[1..]
  {
    if s == [] then [] else [UpperAscii(s[0])] + s[1..]
  }

  /** Case-insensitive (ASCII) equality of two strings, as the `/i` regex flag compares. */
  predicate EqualsIgnoreCase(a: string, b: string)
  {
    |a| == |b| && forall i :: 0 <= i < |a| ==> LowerAscii(a[i]) == LowerAscii(b[i])
  }

  predicate IsDigit(c: char)
  {
    '0' <= c <= '9'
  }

  /** Value of the longest run of decimal digits at the start of s. */
  function DigitsValue(s: string, acc: nat): (n: nat)
    ensures n >= acc
    ensures s == [] || !IsDigit(s[0]) ==> n == acc
  {
    if s == [] || !IsDigit(s[0]) then acc
    else DigitsValue(s[1..], acc * 10 + (s[0] as int - '0' as int))
  }

  predicate IsSpace(c: char)
  {
    c == ' ' || c == '\t' || c == '\n' || c == '\r' || c == '\U{000B}' || c == '\U{000C}'
  }

  /** `intval($s)` for a string: leading white space, an optional sign and digits. */
  function IntVal(s: string): (n: int)
    ensures s == [] ==> n == 0
    ensures s != [] && IsDigit(s[0]) ==> n >= 0
    decreases |s|
  {
    if s == [] then 0
    else if IsSpace(s[0]) then IntVal(s[1..])
    else if s[0] == '-' then 0 - DigitsValue(s[1..], 0) as int
    else if s[0] == '+' then DigitsValue(s[1..], 0)
    else DigitsValue(s, 0)
  }

  predicate AllDigits(s: string)
  {
    forall i :: 0 <= i < |s| ==> IsDigit(s[i])
  }

  function DigitChar(d: nat): (c: char)
    requires d < 10
    ensures IsDigit(c) && c as int - '0' as int == d
  {
    (('0' as int) + d) as char
  }

  /** The decimal notation of n without leading zeros, as PHP writes an integer as a string. */
  function Decimal(n: nat): (s: string)
    ensures s != [] && AllDigits(s)
    ensures |s| > 1 ==> s[0] != '0'
  {
    if n < 10 then [DigitChar(n)] else Decimal(n / 10) + [DigitChar(n % 10)]
  }

  /** One more digit at the end multiplies the value read so far by ten and adds the digit. */
  lemma {:induction false} DigitsValueSnoc(d: string, c: char, acc: nat)
    requires AllDigits(d) && IsDigit(c)
    ensures DigitsValue(d + [c], acc) == DigitsValue(d, acc) * 10 + (c as int - '0' as int)
    decreases |d|
  {
    if d == [] {
      assert d + [c] == [c];
      assert [c][1..] == [];
    } else {
      assert (d + [c])[1..] == d[1..] + [c];
      DigitsValueSnoc(d[1..], c, acc * 10 + (d[0] as int - '0' as int));
    }
  }

  /** `intval` reads back the integer PHP writes: `intval((string) $n) == $n`, for either sign. */
  lemma {:induction false} IntValDecimal(n: nat)
    ensures IntVal(Decimal(n)) == n
    ensures IntVal("-" + Decimal(n)) == -(n as int)
    ensures IntVal("+" + Decimal(n)) == n
  {
    DecimalValue(n);
    assert ("-" + Decimal(n))[1..] == Decimal(n);
    assert ("+" + Decimal(n))[1..] == Decimal(n);
  }

  lemma {:induction false} DecimalValue(n: nat)
    ensures DigitsValue(Decimal(n), 0) == n
  {
    if n >= 10 {
      DecimalValue(n / 10);
      DigitsValueSnoc(Decimal(n / 10), DigitChar(n % 10), 0);
    }
  }

  /** Position just after the last '/' of s, or 0 when there is none. */
  function AfterLastSlash(s: string): (k: nat)
    ensures k <= |s|
    ensures k > 0 ==> s[k - 1] == '/'
    ensures forall i :: k <= i < |s| ==> s[i] != '/'
  {
    if s == [] then 0
    else if s[|s| - 1] == '/' then |s|
    else AfterLastSlash(s[..|s| - 1])
  }

  /** `basename($path)`: trailing slashes dropped, then what follows the last slash. */
  function Basename(path: string): string
  {
    var p := RTrimSlashes(path);
    p[AfterLastSlash(p)..]
  }

  /** The base name holds no slash and is how the path ends once its trailing slashes are dropped. */
  lemma BasenameShape(path: string)
    ensures forall i :: 0 <= i < |Basename(path)| ==> Basename(path)[i] != '/'
    ensures EndsWith(RTrimSlashes(path), Basename(path))
  {
    var p := RTrimSlashes(path);
    var k := AfterLastSlash(p);
    assert p[|p| - |p[k..]|..] == p[k..];
  }

  /** Two-digit zero padding, as `str_pad($i, 2, '0', STR_PAD_LEFT)` gives for 0..99. */
  function Pad2(i: nat): (s: string)
    requires i < 100
    ensures |s| == 2 && IsDigit(s[0]) && IsDigit(s[1])
    ensures (s[0] as int - '0' as int) * 10 + (s[1] as int - '0' as int) == i
  {
    [(('0' as int) + i / 10) as char, (('0' as int) + i % 10) as char]
  }
}
