/** The string operations of JavaScript that the server's logic relies on:
    `toLowerCase`, `trim`, `includes`, `split`, number-to-string conversion
    in template literals and `Number.parseInt(s, 10)`. */
module Text {
  import opened JsValue

  /** `toLowerCase` on one character; only the ASCII letters are folded. */
  function LowerChar(c: char): char
  {
    if 'A' <= c <= 'Z' then (c as int + 32) as char else c
  }

  function Lower(s: string): (r: string)
    ensures |r| == |s|
    ensures forall i :: 0 <= i < |s| ==> r[i] == LowerChar(s[i])
  {
    seq(|s|, i requires 0 <= i < |s| => LowerChar(s[i]))
  }

  /** Lower-casing twice is lower-casing once. */
  lemma LowerIdempotent(s: string)
    ensures Lower(Lower(s)) == Lower(s)
  {
  }

  /** The characters `trim` removes and `parseInt` skips: ECMAScript's
      WhiteSpace and LineTerminator productions. */
  predicate IsWhite(c: char)
  {
    c == '\t' || c == '\n' || c == '\U{B}' || c == '\U{C}' || c == '\r' || c == ' '
    || c == '\U{A0}' || c == '\U{1680}' || ('\U{2000}' <= c <= '\U{200A}')
    || c == '\U{2028}' || c == '\U{2029}' || c == '\U{202F}' || c == '\U{205F}'
    || c == '\U{3000}' || c == '\U{FEFF}'
  }

  function TrimStart(s: string): (r: string)
    ensures |r| <= |s| && r == s[|s| - |r|..]
    ensures forall i :: 0 <= i < |s| - |r| ==> IsWhite(s[i])
    ensures r != [] ==> !IsWhite(r[0])
  {
    if s != [] && IsWhite(s[0]) then TrimStart(s[1..]) else s
  }

  function TrimEnd(s: string): (r: string)
    ensures |r| <= |s| && r == s[..|r|]
    ensures forall i :: |r| <= i < |s| ==> IsWhite(s[i])
    ensures r != [] ==> !IsWhite(r[|r| - 1])
  {
    if s != [] && IsWhite(s[|s| - 1]) then TrimEnd(s[..|s| - 1]) else s
  }

  /** `s.trim()` */
  function Trim(s: string): (r: string)
  {
    TrimEnd(TrimStart(s))
  }

  /** Neither end of `s` is whitespace. */
  predicate IsTrimmed(s: string)
  {
    s != [] ==> !IsWhite(s[0]) && !IsWhite(s[|s| - 1])
  }

  /** `trim` removes leading and trailing whitespace and nothing else: its
      result is a slice of the input whose ends are not whitespace, and
      everything cut off is whitespace. */
  lemma TrimSpec(s: string)
    ensures IsTrimmed(Trim(s))
    ensures exists a, b ::
              0 <= a <= b <= |s| && Trim(s) == s[a..b]
              && (forall i :: 0 <= i < a ==> IsWhite(s[i]))
              && (forall i :: b <= i < |s| ==> IsWhite(s[i]))
    ensures Trim(s) == "" <==> forall i :: 0 <= i < |s| ==> IsWhite(s[i])
  {
    TrimIsTrimmed(s);
    TrimIsSlice(s);
    TrimCutsWhite(s);
    TrimEmptyIffWhite(s);
  }

  /** What `trim` keeps is the slice of the input that starts where the
      leading whitespace ends. */
  lemma TrimIsSlice(s: string)
    ensures var a := |s| - |TrimStart(s)|;
      0 <= a <= a + |Trim(s)| <= |s| && Trim(s) == s[a..a + |Trim(s)|]
  {
    var t := TrimStart(s);
    PrefixOfSuffix(s, |s| - |t|, TrimEnd(t));
  }

  /** A prefix of a suffix is a slice. */
  lemma PrefixOfSuffix(s: string, a: nat, r: string)
    requires a <= |s| && |r| <= |s| - a && r == s[a..][..|r|]
    ensures r == s[a..a + |r|]
  {
  }

  /** Everything `trim` cuts off, on either side, is whitespace. */
  lemma TrimCutsWhite(s: string)
    ensures var a := |s| - |TrimStart(s)|;
      && (forall i :: 0 <= i < a ==> IsWhite(s[i]))
      && (forall i :: a + |Trim(s)| <= i < |s| ==> IsWhite(s[i]))
  {
    var t := TrimStart(s);
    var a := |s| - |t|;
    forall i | a + |Trim(s)| <= i < |s|
      ensures IsWhite(s[i])
    {
      assert s[i] == t[i - a];
    }
  }

  /** `trim` leaves nothing exactly when the input is all whitespace. */
  lemma TrimEmptyIffWhite(s: string)
    ensures Trim(s) == "" <==> forall i :: 0 <= i < |s| ==> IsWhite(s[i])
  {
    var t := TrimStart(s);
    var r := TrimEnd(t);
    var a := |s| - |t|;
    if r == "" {
      assert t == "";
      assert a == |s|;
    } else {
      assert s[a] == t[0] == r[0];
    }
  }

  /** Neither end of a trimmed string is whitespace. */
  lemma TrimIsTrimmed(s: string)
    ensures IsTrimmed(Trim(s))
  {
    var r := Trim(s);
    if r != [] {
      assert r[0] == TrimStart(s)[0];
    }
  }

  /** Trimming only removes characters. */
  lemma TrimKeepsChars(s: string, c: char)
    requires c in Trim(s)
    ensures c in s
  {
    var t := TrimStart(s);
    var r := TrimEnd(t);
    var k :| 0 <= k < |r| && r[k] == c;
    assert t[k] == c;
    assert s[|s| - |t| + k] == c;
  }

  /** A string that is already trimmed is its own trim. */
  lemma TrimOfTrimmed(s: string)
    requires IsTrimmed(s)
    ensures Trim(s) == s
  {
  }

  /** `s.startsWith(p)` */
  predicate StartsWith(s: string, p: string)
  {
    |p| <= |s| && s[..|p|] == p
  }

  /** `needle` occurs in `haystack` starting at position `i`. */
  predicate OccursAt(haystack: string, needle: string, i: int)
  {
    0 <= i && i + |needle| <= |haystack| && haystack[i..i + |needle|] == needle
  }

  /** A leading space is trimmed away. */
  lemma TrimLeadingSpace(s: string)
    requires IsTrimmed(s)
    ensures Trim(" " + s) == s
  {
    var t := [' '] + s;
    assert IsWhite(t[0]);
    assert TrimStart(t) == TrimStart(t[1..]);
    assert t[1..] == s;
    TrimOfTrimmed(s);
  }

  /** `haystack.includes(needle)` */
  predicate Contains(haystack: string, needle: string)
  {
    exists i :: 0 <= i <= |haystack| - |needle| && OccursAt(haystack, needle, i)
  }

  /** The pieces of `s.split(sep)`, for a one-character separator. */
  function Split(s: string, sep: char): (r: seq<string>)
    ensures |r| >= 1
    ensures forall i :: 0 <= i < |r| ==> sep !in r[i]
    decreases |s|
  {
    if sep !in s then [s]
    else
      var i := FirstIndex(s, sep);
      [s[..i]] + Split(s[i + 1..], sep)
  }

  function FirstIndex(s: string, c: char): (i: nat)
    requires c in s
    ensures i < |s| && s[i] == c && c !in s[..i]
  {
    if s[0] == c then 0 else 1 + FirstIndex(s[1..], c)
  }

  /** The first occurrence is the one with no occurrence before it. */
  lemma {:induction false} FirstIndexAt(s: string, c: char, j: nat)
    requires j < |s| && s[j] == c && c !in s[..j]
    ensures c in s && FirstIndex(s, c) == j
  {
    if j > 0 {
      assert s[0] == s[..j][0];
      assert s[1..][j - 1] == c;
      assert s[1..][..j - 1] == s[..j][1..];
      FirstIndexAt(s[1..], c, j - 1);
    }
  }

  /** `xs.join(sep)` */
  function Join(xs: seq<string>, sep: char): string
  {
    if |xs| == 0 then ""
    else if |xs| == 1 then xs[0]
    else xs[0] + [sep] + Join(xs[1..], sep)
  }

  /** Splitting a joined list gives the list back, provided no piece holds
      the separator. */
  lemma {:induction false} SplitJoin(xs: seq<string>, sep: char)
    requires |xs| >= 1
    requires forall i :: 0 <= i < |xs| ==> sep !in xs[i]
    ensures Split(Join(xs, sep), sep) == xs
    decreases |xs|
  {
    if |xs| > 1 {
      var s := Join(xs, sep);
      assert s == xs[0] + [sep] + Join(xs[1..], sep);
      assert sep in s by { assert s[|xs[0]|] == sep; }
      assert s[..|xs[0]|] == xs[0];
      FirstIndexAt(s, sep, |xs[0]|);
      assert s[|xs[0]| + 1..] == Join(xs[1..], sep);
      SplitJoin(xs[1..], sep);
    }
  }

  function DigitChar(d: nat): char
    requires d < 10
  {
    ('0' as int + d) as char
  }

  predicate IsDigit(c: char)
  {
    '0' <= c <= '9'
  }

  /** Decimal digits of a natural number, most significant first. */
  function NatToString(n: nat): (r: string)
    ensures |r| >= 1
    ensures forall i :: 0 <= i < |r| ==> IsDigit(r[i])
  {
    if n < 10 then [DigitChar(n)] else NatToString(n / 10) + [DigitChar(n % 10)]
  }

  /** An integer as a template literal writes it. */
  function IntToString(n: int): (r: string)
    ensures |r| >= 1
  {
    if n < 0 then "-" + NatToString(-n) else NatToString(n)
  }

  /** The value of a string of decimal digits. */
  function DigitsValue(s: string): nat
    requires forall i :: 0 <= i < |s| ==> IsDigit(s[i])
  {
    if s == [] then 0
    else
      assert IsDigit(s[|s| - 1]);
      DigitsValue(s[..|s| - 1]) * 10 + (s[|s| - 1] as int - '0' as int)
  }

  lemma {:induction false} DigitsOfNat(n: nat)
    ensures DigitsValue(NatToString(n)) == n
  {
    if n >= 10 {
      var s := NatToString(n);
      assert s[..|s| - 1] == NatToString(n / 10);
      DigitsOfNat(n / 10);
    }
  }

  /** The longest prefix of `s` made of decimal digits. */
  function DigitPrefix(s: string): (r: string)
    ensures |r| <= |s| && r == s[..|r|]
    ensures forall i :: 0 <= i < |r| ==> IsDigit(r[i])
    ensures |r| < |s| ==> !IsDigit(s[|r|])
  {
    if s != [] && IsDigit(s[0]) then [s[0]] + DigitPrefix(s[1..]) else ""
  }

  /** `Number.parseInt(s, 10)`: leading whitespace is skipped, an optional
      sign is read, then as many decimal digits as follow; with no digit the
      result is NaN, written None here. */
  function ParseInt(s: string): (r: Option<int>)
    ensures r.None? <==> DigitPrefix(AfterSign(TrimStart(s))) == ""
  {
    ParseSigned(TrimStart(s))
  }

  /** `parseInt` once the leading whitespace is gone. */
  function ParseSigned(t: string): Option<int>
  {
    var digits := DigitPrefix(AfterSign(t));
    if digits == "" then None
    else if t != [] && t[0] == '-' then Some(0 - DigitsValue(digits) as int)
    else Some(DigitsValue(digits))
  }

  function AfterSign(t: string): string
  {
    if t != [] && (t[0] == '-' || t[0] == '+') then t[1..] else t
  }

  /** Parsing reads back what a template literal writes, even when other
      text follows, as long as that text does not begin with a digit. */
  lemma ParseIntOfIntToString(n: int, rest: string)
    requires rest == "" || !IsDigit(rest[0])
    ensures ParseInt(IntToString(n) + rest) == Some(n)
  {
    var m: nat := if n < 0 then -n else n;
    var digits := NatToString(m);
    var s := IntToString(n) + rest;
    IntToStringUntrimmed(n, rest);
    IntToStringSign(n, rest);
    IntToStringAfterSign(n, rest);
    DigitPrefixAll(digits, rest);
    DigitsOfNat(m);
    assert ParseInt(s) == ParseSigned(s);
  }

  /** A template literal's integer, followed by anything, has no leading
      whitespace to trim. */
  lemma IntToStringUntrimmed(n: int, rest: string)
    ensures TrimStart(IntToString(n) + rest) == IntToString(n) + rest
  {
    var digits := NatToString(if n < 0 then -n else n);
    var s := IntToString(n) + rest;
    assert IsDigit(digits[0]);
    if n < 0 {
      assert s == "-" + (digits + rest);
    } else {
      assert s == digits + rest;
      assert s[0] == digits[0];
    }
    SignOrDigitIsNotWhite(s[0]);
  }

  lemma SignOrDigitIsNotWhite(c: char)
    requires c == '-' || IsDigit(c)
    ensures !IsWhite(c)
  {
  }

  /** It starts with a minus sign exactly when the integer is negative. */
  lemma IntToStringSign(n: int, rest: string)
    ensures (IntToString(n) + rest)[0] == '-' <==> n < 0
  {
    var digits := NatToString(if n < 0 then -n else n);
    assert IsDigit(digits[0]);
    if n >= 0 {
      assert (IntToString(n) + rest)[0] == digits[0];
    }
  }

  /** After its sign come the digits of its magnitude. */
  lemma IntToStringAfterSign(n: int, rest: string)
    ensures AfterSign(IntToString(n) + rest) == NatToString(if n < 0 then -n else n) + rest
  {
    var digits := NatToString(if n < 0 then -n else n);
    var s := IntToString(n) + rest;
    assert IsDigit(digits[0]);
    if n < 0 {
      assert s == "-" + (digits + rest);
    } else {
      assert s == digits + rest;
      assert s[0] == digits[0];
    }
  }

  lemma {:induction false} DigitPrefixAll(s: string, rest: string)
    requires forall i :: 0 <= i < |s| ==> IsDigit(s[i])
    requires rest == "" || !IsDigit(rest[0])
    ensures DigitPrefix(s + rest) == s
  {
    if s != [] {
      assert (s + rest)[1..] == s[1..] + rest;
      DigitPrefixAll(s[1..], rest);
    } else {
      assert s + rest == rest;
    }
  }

  /** `String(v)`, the text a template literal substitutes for a value: an
      array shows its items joined by commas, with null and undefined items
      left empty; any other object shows as "[object Object]". */
  function Display(v: Value): string
  {
    match v
    case Undefined => "undefined"
    case Null => "null"
    case Bool(b) => if b then "true" else "false"
    case Num(n) => IntToString(n)
    case Str(s) => s
    case Arr(items) => DisplayItems(items)
    case Obj(_) => "[object Object]"
  }

  function DisplayItems(items: seq<Value>): string
  {
    if items == [] then ""
    else
      var first := if items[0] == Null || items[0] == Undefined then "" else Display(items[0]);
      if |items| == 1 then first else first + "," + DisplayItems(items[1..])
  }

  /** A number is displayed in decimal, and the display reads back as the number. */
  lemma DisplayNumber(n: int)
    ensures ParseInt(Display(Num(n))) == Some(n)
  {
    ParseIntOfIntToString(n, "");
    assert IntToString(n) + "" == IntToString(n);
  }
}
