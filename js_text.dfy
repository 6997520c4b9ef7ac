/** The handful of JavaScript string and number primitives the dashboard relies
    on, written out: `String(n)` for integers, `parseInt`, `padStart(2, '0')`,
    `trim`, `toUpperCase` on the two-letter airline prefix, `split(c)[0]` and
    the truncating `%` operator. Airline names are compared in code-unit order,
    which approximates `localeCompare`. */
module JsText {
  import opened Wrappers

  predicate IsDigit(c: char) { '0' <= c <= '9' }

  predicate AllDigits(s: string) { forall i :: 0 <= i < |s| ==> IsDigit(s[i]) }

  function DigitChar(d: int): (c: char)
    requires 0 <= d < 10
    ensures IsDigit(c) && (c as int) - ('0' as int) == d
  {
    (('0' as int) + d) as char
  }

  /** `String(n)` for a non-negative integer: its decimal digits, no leading zeros. */
  function NatToString(n: nat): (s: string)
    ensures |s| > 0 && AllDigits(s)
    decreases n
  {
    if n < 10 then [DigitChar(n)] else NatToString(n / 10) + [DigitChar(n % 10)]
  }

  /** `String(n)` for any integer: a minus sign for negative numbers, then the
      digits of the magnitude. */
  function IntToString(n: int): (s: string)
    ensures |s| > 0
    ensures n >= 0 <==> IsDigit(s[0])
    ensures n >= 0 ==> AllDigits(s)
    ensures n < 0 ==> s[0] == '-' && AllDigits(s[1..])
  {
    if n < 0 then "-" + NatToString(-n) else NatToString(n)
  }

  /** The value of a string of decimal digits, read most significant first. */
  function DigitsValue(ds: string): nat
    requires AllDigits(ds)
  {
    if ds == [] then 0
    else DigitsValue(ds[..|ds| - 1]) * 10 + ((ds[|ds| - 1] as int) - ('0' as int))
  }

  /** The longest prefix of `s` made of decimal digits. */
  function LeadingDigits(s: string): (ds: string)
    ensures AllDigits(ds) && ds <= s
  {
    if s != [] && IsDigit(s[0]) then [s[0]] + LeadingDigits(s[1..]) else []
  }

  /** The characters `trim` and `parseInt` skip: ECMAScript WhiteSpace and
      LineTerminator code points. */
  predicate IsSpace(c: char)
  {
    c == '\t' || c == '\n' || c == '\U{000B}' || c == '\U{000C}' || c == '\r' || c == ' '
    || c == '\U{00A0}' || c == '\U{1680}' || ('\U{2000}' <= c <= '\U{200A}')
    || c == '\U{2028}' || c == '\U{2029}' || c == '\U{202F}' || c == '\U{205F}'
    || c == '\U{3000}' || c == '\U{FEFF}'
  }

  function TrimStart(s: string): (t: string)
    ensures t == [] || !IsSpace(t[0])
    ensures |t| <= |s| && t == s[|s| - |t|..]
    ensures forall k :: 0 <= k < |s| - |t| ==> IsSpace(s[k])
  {
    if s != [] && IsSpace(s[0]) then TrimStart(s[1..]) else s
  }

  function TrimEnd(s: string): (t: string)
    ensures t == [] || !IsSpace(t[|t| - 1])
    ensures t <= s
    ensures forall k :: |t| <= k < |s| ==> IsSpace(s[k])
  {
    if s != [] && IsSpace(s[|s| - 1]) then TrimEnd(s[..|s| - 1]) else s
  }

  /** `s.trim()` */
  function Trim(s: string): string
  {
    TrimEnd(TrimStart(s))
  }

  /** `parseInt(s)` with the default radix: leading white space is skipped, one
      sign is read, then the longest run of decimal digits; no digit at all is NaN. */
  function ParseInt(s: string): (r: Option<int>)
    ensures r == None <==> LeadingDigits(Unsigned(TrimStart(s))) == []
    ensures r.Some? && r.value < 0 ==> TrimStart(s)[0] == '-'
  {
    ParseSigned(TrimStart(s))
  }

  /** What follows the one optional sign. */
  function Unsigned(t: string): string
  {
    if t != [] && (t[0] == '-' || t[0] == '+') then t[1..] else t
  }

  /** `parseInt` once the leading white space is gone. */
  function ParseSigned(t: string): Option<int>
  {
    var negative := t != [] && t[0] == '-';
    var ds := LeadingDigits(Unsigned(t));
    var magnitude: int := DigitsValue(ds);
    if ds == [] then None
    else if negative then Some(-magnitude)
    else Some(magnitude)
  }

  /** `String(n).padStart(2, '0')` applied to an already formatted number. */
  function PadStart2(s: string): (t: string)
    ensures |t| >= 2
    ensures |s| <= 2 ==> |t| == 2
    ensures AllDigits(s) ==> AllDigits(t)
  {
    if |s| >= 2 then s else if |s| == 1 then "0" + s else "00"
  }

  /** `s.split(sep)[0]`: everything before the first `sep`, or all of `s`. */
  function SplitHead(s: string, sep: char): (h: string)
    ensures h <= s && sep !in h
    ensures h == s || s[|h|] == sep
  {
    if s == [] || s[0] == sep then [] else [s[0]] + SplitHead(s[1..], sep)
  }

  /** `s.substring(0, n)` for n >= 0. */
  function Substring0(s: string, n: nat): (t: string)
    ensures |t| == Min(n, |s|) && t <= s
  {
    if |s| <= n then s else s[..n]
  }

  /** `toUpperCase` on ASCII letters; other characters are kept. */
  function UpperAscii(s: string): (t: string)
    ensures |t| == |s|
    ensures forall k :: 0 <= k < |t| ==> !('a' <= t[k] <= 'z')
    ensures forall k :: 0 <= k < |s| ==> t[k] == if 'a' <= s[k] <= 'z' then ((s[k] as int) - 32) as char else s[k]
  {
    if s == [] then []
    else [if 'a' <= s[0] <= 'z' then ((s[0] as int) - 32) as char else s[0]] + UpperAscii(s[1..])
  }

  /** JavaScript's `a % b`, whose sign follows the dividend (Dafny's `%` is Euclidean). */
  function JsRem(a: int, b: int): (r: int)
    requires b > 0
    ensures -b < r < b
    ensures a >= 0 ==> r == a % b
    ensures a < 0 ==> r <= 0 && r == -((-a) % b)
  {
    if a >= 0 then a % b else -((-a) % b)
  }

  /** Code-unit lexicographic order on strings (`a <= b`). */
  predicate LexLe(a: string, b: string)
  {
    if a == [] then true
    else if b == [] then false
    else if a[0] != b[0] then a[0] < b[0]
    else LexLe(a[1..], b[1..])
  }

  // ---------------------------------------------------------------------------
  // Lemmas

  lemma {:induction false} DigitsValueOfNatToString(n: nat)
    ensures DigitsValue(NatToString(n)) == n
    decreases n
  {
    var s := NatToString(n);
    if n >= 10 {
      DigitsValueOfNatToString(n / 10);
      assert s[..|s| - 1] == NatToString(n / 10);
    }
  }

  lemma {:induction false} LeadingDigitsOfDigitsThen(ds: string, rest: string)
    requires AllDigits(ds)
    requires rest == [] || !IsDigit(rest[0])
    ensures LeadingDigits(ds + rest) == ds
  {
    if ds != [] {
      assert (ds + rest)[1..] == ds[1..] + rest;
      LeadingDigitsOfDigitsThen(ds[1..], rest);
    }
  }

  lemma {:induction false} DigitsValueLeadingZero(ds: string)
    requires AllDigits(ds)
    ensures DigitsValue("0" + ds) == DigitsValue(ds)
    decreases |ds|
  {
    if ds != [] {
      var z := "0" + ds;
      assert z[..|z| - 1] == "0" + ds[..|ds| - 1];
      DigitsValueLeadingZero(ds[..|ds| - 1]);
    }
  }

  lemma ParseSignedUnsigned(t: string)
    requires t != [] && IsDigit(t[0])
    ensures ParseSigned(t) == Some(DigitsValue(LeadingDigits(t)) as int)
  {
  }

  lemma ParseSignedNegative(t: string)
    requires t != [] && t[0] == '-' && LeadingDigits(t[1..]) != []
    ensures ParseSigned(t) == Some(-(DigitsValue(LeadingDigits(t[1..])) as int))
  {
  }

  lemma ParseIntOfDigits(ds: string, rest: string)
    requires ds != [] && AllDigits(ds)
    requires rest == [] || !IsDigit(rest[0])
    ensures ParseInt(ds + rest) == Some(DigitsValue(ds) as int)
  {
    var s := ds + rest;
    assert s[0] == ds[0];
    TrimStartOfNonSpace(s);
    LeadingDigitsOfDigitsThen(ds, rest);
    ParseSignedUnsigned(s);
  }

  lemma ParseIntOfNegative(u: string)
    requires LeadingDigits(u) != []
    ensures ParseInt("-" + u) == Some(-(DigitsValue(LeadingDigits(u)) as int))
  {
    TrimStartOfMinus(u);
    ParseSignedOfMinus(u);
  }

  lemma TrimStartOfMinus(u: string)
    ensures TrimStart("-" + u) == "-" + u
  {
    var t := "-" + u;
    assert t[0] == '-';
  }

  lemma ParseSignedOfMinus(u: string)
    requires LeadingDigits(u) != []
    ensures ParseSigned("-" + u) == Some(-(DigitsValue(LeadingDigits(u)) as int))
  {
    var t := "-" + u;
    assert t[0] == '-' && t[1..] == u;
    assert Unsigned(t) == u;
    ParseSignedNegative(t);
  }

  lemma ParseIntOfNegativeIntToString(n: int, rest: string)
    requires n < 0
    requires rest == [] || !IsDigit(rest[0])
    ensures ParseInt(IntToString(n) + rest) == Some(n)
  {
    var ds := NatToString(-n);
    var u := ds + rest;
    var s := IntToString(n) + rest;
    assert s == "-" + u by {
      assert IntToString(n) == "-" + ds;
      AppendAssociative("-", ds, rest);
    }
    assert LeadingDigits(u) == ds by {
      LeadingDigitsOfDigitsThen(ds, rest);
    }
    assert DigitsValue(ds) == -n by {
      DigitsValueOfNatToString(-n);
    }
    assert ParseInt("-" + u) == Some(-(DigitsValue(ds) as int)) by {
      ParseIntOfNegative(u);
    }
  }

  /** A number below 100 prints as at most two digits, and padding makes it two. */
  lemma PaddedBelow100(n: int)
    requires 0 <= n < 100
    ensures |PadStart2(IntToString(n))| == 2 && AllDigits(PadStart2(IntToString(n)))
  {
    if n >= 10 {
      assert NatToString(n) == NatToString(n / 10) + [DigitChar(n % 10)];
    }
  }

  /** `parseInt` of a string that starts with a digit is a number, and not a negative one. */
  lemma ParseIntOfDigitStart(t: string)
    requires t != [] && IsDigit(t[0])
    ensures ParseInt(t).Some? && ParseInt(t).value >= 0
  {
    TrimStartOfNonSpace(t);
    ParseSignedUnsigned(t);
  }

  lemma AppendAssociative(a: string, b: string, c: string)
    ensures (a + b) + c == a + (b + c)
  {
  }

  /** `parseInt(String(n) + rest)` gives back `n` whenever `rest` does not
      continue the number. */
  lemma ParseIntOfIntToString(n: int, rest: string)
    requires rest == [] || !IsDigit(rest[0])
    ensures ParseInt(IntToString(n) + rest) == Some(n)
  {
    if n < 0 {
      ParseIntOfNegativeIntToString(n, rest);
    } else {
      DigitsValueOfNatToString(n);
      ParseIntOfDigits(NatToString(n), rest);
    }
  }

  /** `String` is injective on integers. */
  lemma IntToStringInjective(a: int, b: int)
    requires IntToString(a) == IntToString(b)
    ensures a == b
  {
    ParseIntOfIntToString(a, []);
    ParseIntOfIntToString(b, []);
    assert IntToString(a) + [] == IntToString(a);
    assert IntToString(b) + [] == IntToString(b);
  }

  /** A zero-padded non-negative number still parses to itself. */
  lemma ParseIntOfPadded(n: nat, rest: string)
    requires rest == [] || !IsDigit(rest[0])
    ensures ParseInt(PadStart2(IntToString(n)) + rest) == Some(n)
  {
    var ds := NatToString(n);
    var p := PadStart2(ds);
    DigitsValueOfNatToString(n);
    if |ds| == 1 {
      DigitsValueLeadingZero(ds);
    }
    assert AllDigits(p);
    ParseIntOfDigits(p, rest);
  }

  lemma {:induction false} TrimStartOfNonSpace(s: string)
    requires s == [] || !IsSpace(s[0])
    ensures TrimStart(s) == s
  {
  }

  lemma {:induction false} TrimEndOfNonSpace(s: string)
    requires s == [] || !IsSpace(s[|s| - 1])
    ensures TrimEnd(s) == s
  {
  }

  lemma {:induction false} TrimEndKeepsFirst(s: string)
    requires s != [] && !IsSpace(s[0])
    ensures TrimEnd(s) == [] || TrimEnd(s)[0] == s[0]
  {
  }

  /** A trimmed string has no white space at either end, and trimming it again
      changes nothing. */
  lemma {:induction false} TrimIdempotent(s: string)
    ensures Trim(Trim(s)) == Trim(s)
    ensures Trim(s) == [] || (!IsSpace(Trim(s)[0]) && !IsSpace(Trim(s)[|Trim(s)| - 1]))
  {
    TrimmedEnds(s);
    TrimOfTrimmed(Trim(s));
  }

  lemma {:induction false} TrimmedEnds(s: string)
    ensures Trim(s) == [] || (!IsSpace(Trim(s)[0]) && !IsSpace(Trim(s)[|Trim(s)| - 1]))
  {
    var a := TrimStart(s);
    if a != [] {
      TrimEndKeepsFirst(a);
    }
  }

  lemma {:induction false} TrimOfTrimmed(t: string)
    requires t == [] || (!IsSpace(t[0]) && !IsSpace(t[|t| - 1]))
    ensures Trim(t) == t
  {
    TrimStartOfNonSpace(t);
    TrimEndOfNonSpace(t);
  }

  lemma {:induction false} LexLeTotal(a: string, b: string)
    ensures LexLe(a, b) || LexLe(b, a)
  {
    if a != [] && b != [] && a[0] == b[0] {
      LexLeTotal(a[1..], b[1..]);
    }
  }

  lemma {:induction false} LexLeTransitive(a: string, b: string, c: string)
    requires LexLe(a, b) && LexLe(b, c)
    ensures LexLe(a, c)
  {
    if a != [] && b != [] && c != [] && a[0] == b[0] && b[0] == c[0] {
      LexLeTransitive(a[1..], b[1..], c[1..]);
    }
  }
}
