/** The string operations the components call: `toLowerCase`, `trim`,
    `includes`, `Number.prototype.toString`, `padStart`, `join`, `length`
    and the UTF-16 code-unit ordering used by `sort()` (and, in this model,
    by `localeCompare`). A Dafny string is a sequence of Unicode scalar
    values; `Utf16` gives the code units JavaScript sees. */
module Text {
  import opened Js

  /** `toLowerCase` on one character: Latin A-Z and Cyrillic А-Я, Ѐ-Џ
      (which includes Ё); every other character is left as it is. */
  function LowerChar(c: char): char
  {
    if 'A' <= c <= 'Z' then (c as int + 32) as char
    else if 'А' <= c <= 'Я' then (c as int + 32) as char
    else if 'Ѐ' <= c <= 'Џ' then (c as int + 80) as char
    else c
  }

  /** `s.toLowerCase()` */
  function ToLower(s: string): (r: string)
    ensures |r| == |s|
    ensures forall i :: 0 <= i < |s| ==> r[i] == LowerChar(s[i])
  {
    seq(|s|, i requires 0 <= i < |s| => LowerChar(s[i]))
  }

  /** The characters `trim` removes: ECMAScript's WhiteSpace (tab, vertical
      tab, form feed, U+FEFF and the space separators of Unicode category
      Zs) and LineTerminator (line feed, carriage return, U+2028, U+2029). */
  predicate IsSpace(c: char)
  {
    c == '\t' || c == '\U{000B}' || c == '\U{000C}' || c == '\U{FEFF}'
    || c == ' ' || c == '\U{00A0}' || c == '\U{1680}' || ('\U{2000}' <= c <= '\U{200A}')
    || c == '\U{202F}' || c == '\U{205F}' || c == '\U{3000}'
    || c == '\n' || c == '\r' || c == '\U{2028}' || c == '\U{2029}'
  }

  /** The length of the run of white space at the start of s. */
  function LeadingSpaces(s: string): (n: nat)
    ensures n <= |s|
    ensures forall k :: 0 <= k < n ==> IsSpace(s[k])
    ensures n < |s| ==> !IsSpace(s[n])
  {
    if s != [] && IsSpace(s[0]) then 1 + LeadingSpaces(s[1..]) else 0
  }

  /** The length of the run of white space at the end of s. */
  function TrailingSpaces(s: string): (n: nat)
    ensures n <= |s|
    ensures forall k :: |s| - n <= k < |s| ==> IsSpace(s[k])
    ensures n < |s| ==> !IsSpace(s[|s| - 1 - n])
  {
    if s != [] && IsSpace(s[|s| - 1]) then 1 + TrailingSpaces(s[..|s| - 1]) else 0
  }

  /** `s.trim()`: s without its leading and trailing white space. */
  function Trim(s: string): (r: string)
    ensures r == [] || (!IsSpace(r[0]) && !IsSpace(r[|r| - 1]))
    ensures exists i, j :: 0 <= i <= j <= |s| && r == s[i..j]
              && (forall k :: 0 <= k < i ==> IsSpace(s[k]))
              && (forall k :: j <= k < |s| ==> IsSpace(s[k]))
  {
    var l := LeadingSpaces(s);
    if l == |s| then
      assert s[|s|..|s|] == [];
      []
    else
      var t := TrailingSpaces(s);
      assert !IsSpace(s[l]);
      s[l..|s| - t]
  }

  /** `s.includes(sub)` */
  predicate Contains(s: string, sub: string)
  {
    sub <= s || (s != [] && Contains(s[1..], sub))
  }

  /** Every string contains the empty string. */
  lemma ContainsEmpty(s: string)
    ensures Contains(s, "")
  {
  }

  /** `includes` finds sub at each position where it occurs. */
  lemma {:induction false} ContainsAt(s: string, sub: string, i: nat)
    requires i + |sub| <= |s| && s[i..i + |sub|] == sub
    ensures Contains(s, sub)
  {
    if i > 0 {
      assert s[1..][i - 1..i - 1 + |sub|] == s[i..i + |sub|];
      ContainsAt(s[1..], sub, i - 1);
    }
  }

  /** sub occurs in s starting at position i. */
  predicate OccursAt(s: string, sub: string, i: nat)
  {
    i + |sub| <= |s| && s[i..i + |sub|] == sub
  }

  /** `includes` is exactly "sub occurs at some position of s". */
  lemma {:induction false} ContainsOccurs(s: string, sub: string)
    ensures Contains(s, sub) <==> exists i: nat :: OccursAt(s, sub, i)
  {
    if sub <= s {
      assert OccursAt(s, sub, 0);
    } else if s != [] {
      ContainsOccurs(s[1..], sub);
      if Contains(s[1..], sub) {
        var i: nat :| OccursAt(s[1..], sub, i);
        assert s[1..][i..i + |sub|] == s[i + 1..i + 1 + |sub|];
        assert OccursAt(s, sub, i + 1);
      }
    }
    if exists i: nat :: OccursAt(s, sub, i) {
      var i: nat :| OccursAt(s, sub, i);
      ContainsAt(s, sub, i);
    }
  }

  predicate IsDigit(c: char)
  {
    '0' <= c <= '9'
  }

  predicate AllDigits(s: string)
  {
    forall i :: 0 <= i < |s| ==> IsDigit(s[i])
  }

  function DigitChar(d: nat): (c: char)
    requires d < 10
    ensures IsDigit(c) && c as int - '0' as int == d
  {
    (d + '0' as int) as char
  }

  /** The number a string of decimal digits denotes. */
  function DigitsValue(s: string): nat
    requires AllDigits(s)
  {
    if s == [] then 0 else DigitsValue(s[..|s| - 1]) * 10 + (s[|s| - 1] as int - '0' as int)
  }

  /** The length of the run of decimal digits at the start of s. */
  function DigitPrefix(s: string): (n: nat)
    ensures n <= |s|
    ensures AllDigits(s[..n])
    ensures n < |s| ==> !IsDigit(s[n])
  {
    if s != [] && IsDigit(s[0]) then
      var m := DigitPrefix(s[1..]);
      assert s[..1 + m] == [s[0]] + s[1..][..m];
      1 + m
    else 0
  }

  /** A digit run followed by a non-digit at i has length i. */
  lemma {:induction false} DigitPrefixAt(s: string, i: nat)
    requires i < |s| && AllDigits(s[..i]) && !IsDigit(s[i])
    ensures DigitPrefix(s) == i
  {
    if i > 0 {
      assert s[0] == s[..i][0];
      assert s[1..][..i - 1] == s[..i][1..];
      DigitPrefixAt(s[1..], i - 1);
    }
  }

  /** `n.toString()` for a non-negative integer. */
  function NatToString(n: nat): (r: string)
    ensures AllDigits(r) && |r| >= 1
    ensures n >= 10 ==> r[0] != '0'
  {
    if n < 10 then [DigitChar(n)] else NatToString(n / 10) + [DigitChar(n % 10)]
  }

  /** `n.toString()` for any integer. */
  function IntToString(n: int): (r: string)
    ensures |r| >= 1
    ensures n < 0 <==> r[0] == '-'
  {
    if n < 0 then "-" + NatToString(-n) else NatToString(n)
  }

  /** Reading back what `toString` wrote gives the number again. */
  lemma {:induction false} NatToStringRoundTrip(n: nat)
    ensures DigitsValue(NatToString(n)) == n
  {
    if n >= 10 {
      var r := NatToString(n);
      assert r[..|r| - 1] == NatToString(n / 10);
      NatToStringRoundTrip(n / 10);
    }
  }

  /** Decimal length of numbers below 10 and below 100. */
  lemma NatToStringShort(n: nat)
    requires n < 100
    ensures n < 10 ==> |NatToString(n)| == 1
    ensures 10 <= n ==> |NatToString(n)| == 2
  {
  }

  /** Four-digit numbers are written with four characters. */
  lemma NatToStringFourDigits(n: nat)
    requires 1000 <= n <= 9999
    ensures |NatToString(n)| == 4
  {
    NatToStringShort(n / 100);
  }

  /** Distinct numbers have distinct decimal forms. */
  lemma IntToStringInjective(a: int, b: int)
    requires IntToString(a) == IntToString(b)
    ensures a == b
  {
    if a < 0 {
      assert b < 0;
      var x, y := NatToString(-a), NatToString(-b);
      assert x == IntToString(a)[1..] && y == IntToString(b)[1..];
      NatToStringInjective(-a, -b);
    } else {
      assert b >= 0;
      NatToStringInjective(a, b);
    }
  }

  lemma NatToStringInjective(a: nat, b: nat)
    requires NatToString(a) == NatToString(b)
    ensures a == b
  {
    NatToStringRoundTrip(a);
    NatToStringRoundTrip(b);
  }

  /** `parseInt(s)` in base 10: leading white space, an optional sign, then
      as many digits as follow; NaN when there are none. */
  function ParseInt(s: string): (n: Number)
    ensures n.Finite? ==> exists k :: 0 <= k < |s| && IsDigit(s[k])
  {
    var t := s[LeadingSpaces(s)..];
    var signed := t != [] && (t[0] == '-' || t[0] == '+');
    var u := if signed then t[1..] else t;
    var d := DigitPrefix(u);
    if d == 0 then NaN
    else
      assert u[0] == u[..d][0] && u[0] in s;
      var v: int := DigitsValue(u[..d]);
      Finite(if signed && t[0] == '-' then -v else v)
  }

  /** `Number(s)` for the strings this model reads: blank is 0, an optionally
      signed run of digits is its value, anything else is NaN. */
  function ParseNumber(s: string): (n: Number)
    ensures Trim(s) == [] ==> n == Finite(0)
  {
    var t := Trim(s);
    if t == [] then Finite(0)
    else if AllDigits(t) then Finite(DigitsValue(t))
    else if |t| > 1 && (t[0] == '-' || t[0] == '+') && AllDigits(t[1..]) then
      var v: int := DigitsValue(t[1..]);
      Finite(if t[0] == '-' then -v else v)
    else NaN
  }

  /** A string without white space is its own trim. */
  lemma TrimNoSpace(s: string)
    requires forall k :: 0 <= k < |s| ==> !IsSpace(s[k])
    ensures Trim(s) == s
  {
    if s != [] {
      assert LeadingSpaces(s) == 0;
      assert TrailingSpaces(s) == 0;
      assert s[0..|s|] == s;
    }
  }

  /** The decimal form of an integer has no white space. */
  lemma IntToStringNoSpace(n: int)
    ensures forall k :: 0 <= k < |IntToString(n)| ==> !IsSpace(IntToString(n)[k])
  {
    var m: nat := if n < 0 then -n else n;
    var digits := NatToString(m);
    var s := IntToString(n);
    forall k | 0 <= k < |s|
      ensures !IsSpace(s[k])
    {
      if n < 0 && k > 0 { assert s[k] == digits[k - 1]; }
    }
  }

  /** Reading back what `toString` wrote, with `parseInt`, gives the number again. */
  lemma ParseIntToString(n: int)
    ensures ParseInt(IntToString(n)) == Finite(n)
  {
    var m: nat := if n < 0 then -n else n;
    var digits := NatToString(m);
    NatToStringRoundTrip(m);
    DigitPrefixAll(digits);
    IntToStringNoSpace(n);
    var s := IntToString(n);
    assert LeadingSpaces(s) == 0;
    assert s[0..] == s;
    if n < 0 {
      assert s[1..] == digits;
    }
    assert digits[..|digits|] == digits;
  }

  /** Reading back what `toString` wrote, with `Number`, gives the number again. */
  lemma ParseNumberToString(n: int)
    ensures ParseNumber(IntToString(n)) == Finite(n)
  {
    var m: nat := if n < 0 then -n else n;
    var digits := NatToString(m);
    NatToStringRoundTrip(m);
    IntToStringNoSpace(n);
    var s := IntToString(n);
    TrimNoSpace(s);
    if n < 0 {
      assert s[1..] == digits;
      assert !IsDigit(s[0]);
    }
  }

  /** A digit string is all digit run. */
  lemma {:induction false} DigitPrefixAll(s: string)
    requires AllDigits(s)
    ensures DigitPrefix(s) == |s|
  {
    if s != [] {
      DigitPrefixAll(s[1..]);
    }
  }

  function Repeat(c: char, n: nat): (r: string)
    ensures |r| == n && forall i :: 0 <= i < n ==> r[i] == c
  {
    if n == 0 then [] else [c] + Repeat(c, n - 1)
  }

  /** `s.padStart(width, c)` with a one-character fill. */
  function PadStart(s: string, width: nat, c: char): (r: string)
    ensures |s| >= width ==> r == s
    ensures |s| < width ==> |r| == width && r[width - |s|..] == s
                              && forall i :: 0 <= i < width - |s| ==> r[i] == c
  {
    if |s| >= width then s else Repeat(c, width - |s|) + s
  }

  /** `parts.join(sep)` */
  function Join(parts: seq<string>, sep: string): string
  {
    if parts == [] then ""
    else if |parts| == 1 then parts[0]
    else parts[0] + sep + Join(parts[1..], sep)
  }

  /** Joining two non-empty lists puts one separator between their joins. */
  lemma {:induction false} JoinAppend(a: seq<string>, b: seq<string>, sep: string)
    requires a != [] && b != []
    ensures Join(a + b, sep) == Join(a, sep) + sep + Join(b, sep)
  {
    if |a| > 1 {
      assert (a + b)[1..] == a[1..] + b;
      JoinAppend(a[1..], b, sep);
    } else {
      assert (a + b)[1..] == b;
    }
  }

  // ----- JavaScript strings are UTF-16 -----

  /** The UTF-16 code units of one character: the character itself inside
      the Basic Multilingual Plane, a high and a low surrogate above it. */
  function Units(c: char): (u: seq<int>)
    ensures 1 <= |u| <= 2
    ensures |u| == 1 <==> c as int < 0x10000
    ensures |u| == 2 ==> 0xD800 <= u[0] < 0xDC00 && 0xDC00 <= u[1] < 0xE000
  {
    var n := c as int;
    if n < 0x10000 then [n]
    else [0xD800 + (n - 0x10000) / 0x400, 0xDC00 + (n - 0x10000) % 0x400]
  }

  /** The code units of a string, as JavaScript stores it. */
  function Utf16(s: string): seq<int>
  {
    if s == [] then [] else Units(s[0]) + Utf16(s[1..])
  }

  /** `s.length`: the number of UTF-16 code units, which exceeds the number
      of characters by one for each character above U+FFFF. */
  function JsLength(s: string): (n: nat)
    ensures |s| <= n <= 2 * |s|
    ensures n == |Utf16(s)|
    ensures (forall i :: 0 <= i < |s| ==> s[i] as int < 0x10000) ==> n == |s|
  {
    if s == [] then 0
    else
      assert forall i :: 1 <= i < |s| ==> s[1..][i - 1] == s[i];
      |Units(s[0])| + JsLength(s[1..])
  }

  /** Lexicographic comparison of two sequences of code units. */
  function LexCompare(x: seq<int>, y: seq<int>): int
  {
    if x == [] && y == [] then 0
    else if x == [] then -1
    else if y == [] then 1
    else if x[0] < y[0] then -1
    else if x[0] > y[0] then 1
    else LexCompare(x[1..], y[1..])
  }

  /** Where a character's code units place it in UTF-16 order: characters
      below U+D800 come first, then those above U+FFFF (whose high
      surrogates are D800-DBFF), then U+E000-U+FFFF. */
  function UnitRank(c: char): int
  {
    var n := c as int;
    if n < 0xD800 then n else if n >= 0x10000 then n - 0x2800 else n + 0x100000
  }

  /** The comparison `sort()` uses: lexicographic by UTF-16 code unit,
      negative, zero or positive (proved equal to `LexCompare` on the code
      units in `CompareIsCodeUnitOrder`). */
  function Compare(a: string, b: string): (r: int)
    ensures -1 <= r <= 1
  {
    if a == [] && b == [] then 0
    else if a == [] then -1
    else if b == [] then 1
    else if UnitRank(a[0]) < UnitRank(b[0]) then -1
    else if UnitRank(a[0]) > UnitRank(b[0]) then 1
    else Compare(a[1..], b[1..])
  }

  lemma {:induction false} LexCommonPrefix(u: seq<int>, x: seq<int>, y: seq<int>)
    ensures LexCompare(u + x, u + y) == LexCompare(x, y)
  {
    if u != [] {
      assert (u + x)[1..] == u[1..] + x && (u + y)[1..] == u[1..] + y;
      assert (u + x)[0] == (u + y)[0];
      LexCommonPrefix(u[1..], x, y);
    } else {
      assert u + x == x && u + y == y;
    }
  }

  /** Two different characters are told apart within their own code units. */
  lemma UnitsDecide(a: char, b: char, x: seq<int>, y: seq<int>)
    requires a != b
    ensures LexCompare(Units(a) + x, Units(b) + y) == (if UnitRank(a) < UnitRank(b) then -1 else 1)
  {
    var na, nb := a as int, b as int;
    var ua, ub := Units(a) + x, Units(b) + y;
    assert ua[0] == Units(a)[0] && ub[0] == Units(b)[0];
    if na >= 0x10000 && nb >= 0x10000 {
      var qa, ra := (na - 0x10000) / 0x400, (na - 0x10000) % 0x400;
      var qb, rb := (nb - 0x10000) / 0x400, (nb - 0x10000) % 0x400;
      assert na == 0x10000 + 0x400 * qa + ra;
      assert nb == 0x10000 + 0x400 * qb + rb;
      if qa == qb {
        assert ua[1..][0] == Units(a)[1] && ub[1..][0] == Units(b)[1];
      }
    }
  }

  /** `Compare` is exactly the lexicographic order of the UTF-16 code units. */
  lemma {:induction false} CompareIsCodeUnitOrder(a: string, b: string)
    ensures Compare(a, b) == LexCompare(Utf16(a), Utf16(b))
  {
    if a != [] && b != [] {
      if a[0] == b[0] {
        LexCommonPrefix(Units(a[0]), Utf16(a[1..]), Utf16(b[1..]));
        CompareIsCodeUnitOrder(a[1..], b[1..]);
      } else {
        UnitsDecide(a[0], b[0], Utf16(a[1..]), Utf16(b[1..]));
      }
    }
  }

  /** The two places where UTF-16 differs from counting characters: "🎉a"
      is three code units long, and a character above U+FFFF sorts below
      the half-width "｡" (U+FF61) although its code point is larger. */
  lemma Utf16Examples()
    ensures JsLength("\U{1F389}a") == 3
    ensures Compare("\U{1F389}", "\U{FF61}") < 0
  {
    assert "\U{1F389}a"[1..] == "a";
  }

  /** Swapping the operands flips the sign of the comparison. */
  lemma {:induction false} CompareAntisymmetric(a: string, b: string)
    ensures Compare(a, b) == -Compare(b, a)
  {
    if a != [] && b != [] && a[0] == b[0] {
      CompareAntisymmetric(a[1..], b[1..]);
    }
  }

  /** Only equal strings compare equal. */
  lemma {:induction false} CompareZero(a: string, b: string)
    ensures Compare(a, b) == 0 <==> a == b
  {
    if a != [] && b != [] && a[0] == b[0] {
      CompareZero(a[1..], b[1..]);
      assert a == [a[0]] + a[1..] && b == [b[0]] + b[1..];
    }
  }

  /** "At most" by this comparison is transitive. */
  lemma {:induction false} CompareTransitive(a: string, b: string, c: string)
    requires Compare(a, b) <= 0 && Compare(b, c) <= 0
    ensures Compare(a, c) <= 0
  {
    if a != [] && b != [] && c != [] && a[0] == b[0] && b[0] == c[0] {
      CompareTransitive(a[1..], b[1..], c[1..]);
    }
  }

  /** "Strictly less" by this comparison is transitive. */
  lemma StrictCompareTransitive(a: string, b: string, c: string)
    requires Compare(a, b) < 0 && Compare(b, c) < 0
    ensures Compare(a, c) < 0
  {
    CompareTransitive(a, b, c);
    CompareZero(a, c);
    if a == c {
      CompareAntisymmetric(a, b);
    }
  }
}
