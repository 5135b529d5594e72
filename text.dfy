/** The Python string builtins the core relies on, written out over
    `seq<char>`: `str(int)`, `int(str)`, `str.strip`, `str.lower`,
    `str.capitalize`, `str.startswith`, `str.split(" ", 1)` and `str.join`. */
module Text {
  import opened Wrappers

  // ---------- Characters ----------

  /** The characters `str.isspace` accepts (and `str.strip` removes). */
  predicate IsSpace(c: char) {
    c == ' ' || c == '\t' || c == '\n' || c == '\r' || c == '\U{B}' || c == '\U{C}'
    || ('\U{1C}' <= c <= '\U{1F}') || c == '\U{85}' || c == '\U{A0}' || c == '\U{1680}'
    || ('\U{2000}' <= c <= '\U{200A}') || c == '\U{2028}' || c == '\U{2029}' || c == '\U{202F}'
    || c == '\U{205F}' || c == '\U{3000}'
  }

  predicate IsDigit(c: char) {
    '0' <= c <= '9'
  }

  function DigitValue(c: char): (d: nat)
    requires IsDigit(c)
    ensures d < 10
  {
    (c as int - '0' as int) as nat
  }

  function DigitChar(d: nat): (c: char)
    requires d < 10
    ensures IsDigit(c) && DigitValue(c) == d
  {
    ('0' as int + d) as char
  }

  /** ASCII case mapping; letters outside A-Z / a-z are left as they are. */
  function LowerChar(c: char): (r: char)
    ensures r == ' ' <==> c == ' '
  {
    if 'A' <= c <= 'Z' then (c as int + 32) as char else c
  }

  function UpperChar(c: char): (r: char)
    ensures r == ' ' <==> c == ' '
  {
    if 'a' <= c <= 'z' then (c as int - 32) as char else c
  }

  // ---------- str.lower / str.capitalize / str.startswith ----------

  function Lower(s: string): (r: string)
    ensures |r| == |s|
    ensures forall k :: 0 <= k < |s| ==> r[k] == LowerChar(s[k])
  {
    if s == [] then [] else [LowerChar(s[0])] + Lower(s[1..])
  }

  /** A string without upper-case ASCII letters is its own lower case. */
  lemma LowerOfLowercase(s: string)
    requires forall k :: 0 <= k < |s| ==> !('A' <= s[k] <= 'Z')
    ensures Lower(s) == s
  {
    assert forall k :: 0 <= k < |s| ==> Lower(s)[k] == s[k];
  }

  /** Lower-casing twice is lower-casing once. */
  lemma LowerIdempotent(s: string)
    ensures Lower(Lower(s)) == Lower(s)
  {
    var l := Lower(s);
    assert forall k :: 0 <= k < |l| ==> Lower(l)[k] == LowerChar(LowerChar(s[k]));
  }

  /** `str.capitalize`: the first character upper-cased, the rest lower-cased. */
  function Capitalize(s: string): (r: string)
    ensures |r| == |s|
    ensures s != [] ==> r[0] == UpperChar(s[0]) && r[1..] == Lower(s[1..])
  {
    if s == [] then [] else [UpperChar(s[0])] + Lower(s[1..])
  }

  predicate StartsWith(s: string, prefix: string) {
    |prefix| <= |s| && s[..|prefix|] == prefix
  }

  // ---------- str.strip ----------

  function StripLeft(s: string): (r: string)
    ensures |r| <= |s| && r == s[|s| - |r|..]
    ensures forall k :: 0 <= k < |s| - |r| ==> IsSpace(s[k])
    ensures r == [] || !IsSpace(r[0])
  {
    if s != [] && IsSpace(s[0]) then StripLeft(s[1..]) else s
  }

  function StripRight(s: string): (r: string)
    ensures |r| <= |s| && r == s[..|r|]
    ensures forall k :: |r| <= k < |s| ==> IsSpace(s[k])
    ensures r == [] || !IsSpace(r[|r| - 1])
  {
    if s != [] && IsSpace(s[|s| - 1]) then StripRight(s[..|s| - 1]) else s
  }

  /** `str.strip()`: the input without its leading and trailing whitespace. */
  function Strip(s: string): (r: string)
    ensures |r| <= |s|
    ensures r == [] || (!IsSpace(r[0]) && !IsSpace(r[|r| - 1]))
    ensures r == [] <==> forall k :: 0 <= k < |s| ==> IsSpace(s[k])
  {
    var l := StripLeft(s);
    var r := StripRight(l);
    assert r == [] ==> l == [];
    assert (forall k :: 0 <= k < |s| ==> IsSpace(s[k])) ==> l == [] by {
      assert l == [] || l[0] == s[|s| - |l|];
    }
    r
  }

  /** Stripping a string that neither starts nor ends with whitespace is a no-op. */
  lemma StripUnchanged(s: string)
    requires s != [] && !IsSpace(s[0]) && !IsSpace(s[|s| - 1])
    ensures Strip(s) == s
  {
    assert StripLeft(s) == s;
    assert StripRight(s) == s;
  }

  /** Right-stripping removes exactly the whitespace appended to a string
      that does not end in whitespace. */
  lemma {:induction false} StripRightOfPadded(core: string, pad: string)
    requires core != [] && !IsSpace(core[|core| - 1])
    requires forall k :: 0 <= k < |pad| ==> IsSpace(pad[k])
    ensures StripRight(core + pad) == core
    decreases |pad|
  {
    var s := core + pad;
    if pad == [] {
      assert s == core;
    } else {
      assert s[|s| - 1] == pad[|pad| - 1];
      assert s[..|s| - 1] == core + pad[..|pad| - 1];
      StripRightOfPadded(core, pad[..|pad| - 1]);
    }
  }

  /** Trailing whitespace after a string that has none at its ends is all
      that stripping removes. */
  lemma StripOfPadded(core: string, pad: string)
    requires core != [] && !IsSpace(core[0]) && !IsSpace(core[|core| - 1])
    requires forall k :: 0 <= k < |pad| ==> IsSpace(pad[k])
    ensures Strip(core + pad) == core
  {
    var s := core + pad;
    assert s[0] == core[0];
    assert StripLeft(s) == s;
    StripRightOfPadded(core, pad);
  }

  // ---------- str.split(" ", 1)[1] ----------

  /** The text after the first space, or None when there is no space (the
      `[1]` of `split(" ", 1)` then raises IndexError). */
  function AfterFirstSpace(s: string): (r: Option<string>)
    ensures r.Some? <==> exists k :: 0 <= k < |s| && s[k] == ' '
    ensures r.Some? ==> exists k :: 0 <= k < |s| && s[k] == ' ' && r.value == s[k + 1..]
                                    && forall j :: 0 <= j < k ==> s[j] != ' '
  {
    if s == [] then None
    else if s[0] == ' ' then Some(s[1..])
    else
      var rest := AfterFirstSpace(s[1..]);
      if rest.None? then
        assert forall k :: 0 <= k < |s| ==> s[k] != ' ' by {
          forall k | 0 <= k < |s| ensures s[k] != ' ' {
            if k > 0 { assert s[k] == s[1..][k - 1]; }
          }
        }
        None
      else
        var k :| 0 <= k < |s[1..]| && s[1..][k] == ' ' && rest.value == s[1..][k + 1..]
                 && forall j :: 0 <= j < k ==> s[1..][j] != ' ';
        assert s[k + 1] == ' ' && rest.value == s[k + 2..];
        assert forall j :: 0 <= j < k + 1 ==> s[j] != ' ' by {
          forall j | 0 <= j < k + 1 ensures s[j] != ' ' {
            if j > 0 { assert s[j] == s[1..][j - 1]; }
          }
        }
        rest
  }

  /** When the lower-cased text starts with `prefix` and `prefix` has exactly
      one space, at its end, the split yields everything after `prefix`. */
  lemma AfterFirstSpaceOfPrefix(s: string, prefix: string)
    requires |prefix| > 0 && prefix[|prefix| - 1] == ' '
    requires forall j :: 0 <= j < |prefix| - 1 ==> prefix[j] != ' '
    requires StartsWith(Lower(s), prefix)
    ensures AfterFirstSpace(s) == Some(s[|prefix|..])
  {
    var n := |prefix|;
    assert Lower(s)[n - 1] == ' ';
    assert s[n - 1] == ' ';
    assert forall j :: 0 <= j < n - 1 ==> s[j] != ' ' by {
      forall j | 0 <= j < n - 1 ensures s[j] != ' ' {
        assert Lower(s)[j] == prefix[j];
      }
    }
    var r := AfterFirstSpace(s);
    var k :| 0 <= k < |s| && s[k] == ' ' && r.value == s[k + 1..]
             && forall j :: 0 <= j < k ==> s[j] != ' ';
    assert k == n - 1;
  }

  // ---------- str(int) ----------

  /** Decimal digits of a natural number, most significant first, no leading zero. */
  function NatToString(n: nat): (r: string)
    ensures |r| > 0
    ensures forall k :: 0 <= k < |r| ==> IsDigit(r[k])
    ensures |r| > 1 ==> r[0] != '0'
    decreases n
  {
    if n < 10 then [DigitChar(n)] else NatToString(n / 10) + [DigitChar(n % 10)]
  }

  /** `str(i)` for a Python int. */
  function IntToString(i: int): (r: string)
    ensures |r| > 0
    ensures (i < 0) <==> r[0] == '-'
    ensures forall k :: 0 <= k < |r| ==> r[k] == '-' || IsDigit(r[k])
  {
    if i < 0 then "-" + NatToString(-i) else NatToString(i)
  }

  // ---------- int(str) ----------

  /** A digit string as `int()` accepts it: digits, with single underscores
      allowed between two digits. */
  predicate ValidDigits(d: string) {
    && |d| > 0
    && IsDigit(d[0])
    && IsDigit(d[|d| - 1])
    && DigitsOrUnderscores(d)
    && forall k :: 0 <= k < |d| - 1 && d[k] == '_' ==> IsDigit(d[k + 1])
  }

  predicate DigitsOrUnderscores(d: string) {
    forall k :: 0 <= k < |d| ==> IsDigit(d[k]) || d[k] == '_'
  }

  /** The value of a digit string, underscores skipped. */
  function DigitsValue(d: string): nat
    requires DigitsOrUnderscores(d)
  {
    if d == [] then 0
    else if d[|d| - 1] == '_' then DigitsValue(d[..|d| - 1])
    else 10 * DigitsValue(d[..|d| - 1]) + DigitValue(d[|d| - 1])
  }

  /** `int(s)` for a string: surrounding whitespace, an optional sign and a
      digit string; anything else raises ValueError (None here). */
  function ParseInt(s: string): (r: Option<int>)
    ensures r.Some? ==> Strip(s) != []
  {
    var t := Strip(s);
    if t == [] then None
    else if t[0] == '-' || t[0] == '+' then
      if ValidDigits(t[1..]) then
        Some(if t[0] == '-' then -(DigitsValue(t[1..]) as int) else DigitsValue(t[1..]))
      else None
    else if ValidDigits(t) then Some(DigitsValue(t))
    else None
  }

  lemma {:induction false} DigitsValueOfNatToString(n: nat)
    ensures ValidDigits(NatToString(n))
    ensures DigitsValue(NatToString(n)) == n
    decreases n
  {
    var s := NatToString(n);
    if n < 10 {
      assert s[..|s| - 1] == [];
    } else {
      var p := NatToString(n / 10);
      assert s[..|s| - 1] == p;
      assert s[|s| - 1] == DigitChar(n % 10);
      DigitsValueOfNatToString(n / 10);
    }
  }

  lemma ParseIntOfDigits(t: string)
    requires ValidDigits(t) && Strip(t) == t
    ensures ParseInt(t) == Some(DigitsValue(t) as int)
  {
  }

  lemma ParseIntOfSigned(t: string)
    requires |t| > 1 && t[0] == '-' && ValidDigits(t[1..]) && Strip(t) == t
    ensures ParseInt(t) == Some(-(DigitsValue(t[1..]) as int))
  {
  }

  /** `int(str(i)) == i`: the decimal rendering of an int parses back to it. */
  lemma {:induction false} ParseIntOfIntToString(i: int)
    ensures ParseInt(IntToString(i)) == Some(i)
  {
    var s := IntToString(i);
    if i < 0 {
      var d := NatToString(-i);
      DigitsValueOfNatToString(-i);
      assert s == "-" + d && s[1..] == d;
      assert s[|s| - 1] == d[|d| - 1];
      StripUnchanged(s);
      ParseIntOfSigned(s);
    } else {
      DigitsValueOfNatToString(i);
      StripUnchanged(s);
      ParseIntOfDigits(s);
    }
  }

  // ---------- str.join ----------

  /** `sep.join(parts)`. */
  function Join(sep: string, parts: seq<string>): string {
    if |parts| == 0 then ""
    else if |parts| == 1 then parts[0]
    else Join(sep, parts[..|parts| - 1]) + sep + parts[|parts| - 1]
  }
}
