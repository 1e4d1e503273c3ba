/** The string operations the pages rely on: `toLowerCase` (over ASCII), `includes`,
    `String(n)`, `padStart` and `replace(/-/g, "")`, with the decimal reading that
    inverts the number formatting. */
module Text {
  import opened Lists

  /** `toLowerCase` of one character, over ASCII. */
  function LowerChar(c: char): char
  {
    if 'A' <= c <= 'Z' then (c as int + 32) as char else c
  }

  predicate IsUpper(c: char)
  {
    'A' <= c <= 'Z'
  }

  /** `s.toLowerCase()` over ASCII: same length, upper-case letters replaced by their
      lower-case forms, nothing upper-case left. */
  function Lower(s: string): (r: string)
    ensures |r| == |s|
    ensures forall i :: 0 <= i < |s| ==> r[i] == LowerChar(s[i])
    ensures forall i :: 0 <= i < |r| ==> !IsUpper(r[i])
  {
    if s == [] then [] else [LowerChar(s[0])] + Lower(s[1..])
  }

  /** Lower-casing twice is lower-casing once. */
  lemma LowerIdempotent(s: string)
    ensures Lower(Lower(s)) == Lower(s)
  {
  }

  predicate StartsWith(s: string, prefix: string)
  {
    |prefix| <= |s| && s[..|prefix|] == prefix
  }

  /** `s.includes(part)`, scanning the start positions from left to right. */
  function Includes(s: string, part: string): (r: bool)
    ensures part == [] ==> r
    ensures r ==> |part| <= |s|
    decreases |s|
  {
    StartsWith(s, part) || (|s| > 0 && Includes(s[1..], part))
  }

  /** `part` occurs in `s` starting at position `i`. */
  predicate OccursAt(s: string, part: string, i: int)
  {
    0 <= i && i + |part| <= |s| && s[i..i + |part|] == part
  }

  /** The scan finds `part` exactly when it occurs at some position of `s`. */
  lemma {:induction false} IncludesIff(s: string, part: string)
    ensures Includes(s, part) <==> exists i :: OccursAt(s, part, i)
    decreases |s|
  {
    if StartsWith(s, part) {
      assert OccursAt(s, part, 0);
    } else if |s| == 0 {
      assert forall i :: !OccursAt(s, part, i);
    } else {
      var t := s[1..];
      IncludesIff(t, part);
      if Includes(t, part) {
        var j :| OccursAt(t, part, j);
        var w, v := s[j + 1..j + 1 + |part|], t[j..j + |part|];
        assert |w| == |v| && forall k :: 0 <= k < |w| ==> w[k] == s[j + 1 + k] == v[k];
        assert w == v;
        assert OccursAt(s, part, j + 1);
      } else {
        forall i ensures !OccursAt(s, part, i) {
          if i == 0 && |part| <= |s| {
            assert s[0..|part|] == s[..|part|];
          } else if 0 < i && i + |part| <= |s| {
            var w, v := s[i..i + |part|], t[i - 1..i - 1 + |part|];
            assert |w| == |v| && forall k :: 0 <= k < |w| ==> w[k] == s[i + k] == v[k];
            assert w == v;
            assert !OccursAt(t, part, i - 1);
          }
        }
      }
    }
  }

  /** Every string includes the empty string, so an empty search term matches everything. */
  lemma IncludesEmpty(s: string)
    ensures Includes(s, "")
  {
  }

  /** The case-insensitive test the search boxes use. */
  predicate MatchesFolded(field: string, term: string)
  {
    Includes(Lower(field), Lower(term))
  }

  predicate IsDigit(c: char)
  {
    '0' <= c <= '9'
  }

  predicate AllDigits(s: string)
  {
    forall i :: 0 <= i < |s| ==> IsDigit(s[i])
  }

  function DigitChar(d: nat): (c: char)
    requires d < 10
    ensures IsDigit(c) && c as int - '0' as int == d
  {
    ('0' as int + d) as char
  }

  /** `String(n)` for a non-negative integer: its decimal digits, no leading zero. */
  function Decimal(n: nat): (r: string)
    ensures 1 <= |r| && AllDigits(r)
    ensures |r| > 1 ==> r[0] != '0'
    decreases n
  {
    if n < 10 then [DigitChar(n)] else Decimal(n / 10) + [DigitChar(n % 10)]
  }

  /** The number a string of decimal digits denotes. */
  function Value(s: string): nat
    requires AllDigits(s)
  {
    if s == [] then 0 else Value(s[..|s| - 1]) * 10 + (s[|s| - 1] as int - '0' as int)
  }

  /** Reading back the formatted number gives the number. */
  lemma {:induction false} ValueOfDecimal(n: nat)
    ensures Value(Decimal(n)) == n
    decreases n
  {
    if n >= 10 {
      ValueOfDecimal(n / 10);
      var r := Decimal(n);
      assert r[..|r| - 1] == Decimal(n / 10);
    }
  }

  function Pow10(k: nat): (p: nat)
    ensures p >= 1
  {
    if k == 0 then 1 else 10 * Pow10(k - 1)
  }

  /** A number below 10^k takes at most k digits. */
  lemma {:induction false} DecimalAtMost(n: nat, k: nat)
    requires 1 <= k && n < Pow10(k)
    ensures |Decimal(n)| <= k
    decreases n
  {
    if n >= 10 {
      assert k >= 2;
      DecimalAtMost(n / 10, k - 1);
    }
  }

  /** A number at least 10^k takes more than k digits. */
  lemma {:induction false} DecimalAtLeast(n: nat, k: nat)
    requires n >= Pow10(k)
    ensures |Decimal(n)| > k
    decreases n
  {
    if k > 0 {
      DecimalAtLeast(n / 10, k - 1);
    }
  }

  function Repeat(c: char, n: nat): (r: string)
    ensures |r| == n && forall i :: 0 <= i < n ==> r[i] == c
  {
    if n == 0 then [] else [c] + Repeat(c, n - 1)
  }

  /** `s.padStart(width, fill)` with a one-character fill: `fill` repeated in front of
      `s` up to `width` characters; a string already that long is kept whole. */
  function PadStart(s: string, width: nat, fill: char): (r: string)
    ensures |r| == if |s| >= width then |s| else width
    ensures r[|r| - |s|..] == s
    ensures forall i :: 0 <= i < |r| - |s| ==> r[i] == fill
  {
    if |s| >= width then s else Repeat(fill, width - |s|) + s
  }

  /** Leading zeros do not change the value of a digit string. */
  lemma {:induction false} ValueIgnoresZeros(z: nat, s: string)
    requires AllDigits(s)
    ensures AllDigits(Repeat('0', z) + s)
    ensures Value(Repeat('0', z) + s) == Value(s)
    decreases |s|
  {
    var zs := Repeat('0', z);
    if s == [] {
      assert zs + s == zs;
      ZerosValue(z);
    } else {
      var s' := s[..|s| - 1];
      ValueIgnoresZeros(z, s');
      assert (zs + s)[..|zs + s| - 1] == zs + s';
    }
  }

  lemma {:induction false} ZerosValue(z: nat)
    ensures AllDigits(Repeat('0', z)) && Value(Repeat('0', z)) == 0
  {
    if z > 0 {
      ZerosValue(z - 1);
      var r := Repeat('0', z);
      assert r[..z - 1] == Repeat('0', z - 1);
    }
  }

  /** `String(n).padStart(width, "0")`. */
  function ZeroPad(n: nat, width: nat): (r: string)
    ensures AllDigits(r)
  {
    var d := Decimal(n);
    var r := PadStart(d, width, '0');
    assert r == d || r == Repeat('0', width - |d|) + d;
    r
  }

  /** The padded form has exactly `width` characters when `n` fits, reads back as `n`,
      and is never truncated. */
  lemma ZeroPadRoundTrip(n: nat, width: nat)
    ensures Value(ZeroPad(n, width)) == n
    ensures |ZeroPad(n, width)| >= width && |ZeroPad(n, width)| >= |Decimal(n)|
    ensures 1 <= width && n < Pow10(width) ==> |ZeroPad(n, width)| == width
  {
    var d := Decimal(n);
    ValueOfDecimal(n);
    if |d| < width {
      ValueIgnoresZeros(width - |d|, d);
    }
    if 1 <= width && n < Pow10(width) {
      DecimalAtMost(n, width);
    }
  }

  /** The sequence number of the entity ids: `String(n).padStart(3, "0")`. */
  function Pad3(n: nat): string
  {
    ZeroPad(n, 3)
  }

  /** At least three digits; below 1000 exactly three; from 1000 on the plain decimal
      form, never cut to three. */
  lemma Pad3Shape(n: nat)
    ensures |Pad3(n)| >= 3 && AllDigits(Pad3(n)) && Value(Pad3(n)) == n
    ensures n < 1000 ==> |Pad3(n)| == 3
    ensures n >= 1000 ==> Pad3(n) == Decimal(n)
  {
    ZeroPadRoundTrip(n, 3);
    if n >= 1000 {
      DecimalAtLeast(n, 3);
    }
  }

  /** Distinct sequence numbers give distinct padded strings. */
  lemma ZeroPadInjective(a: nat, b: nat, width: nat)
    requires ZeroPad(a, width) == ZeroPad(b, width)
    ensures a == b
  {
    ZeroPadRoundTrip(a, width);
    ZeroPadRoundTrip(b, width);
  }

  /** `s.replace(/-/g, "")`. */
  function RemoveDashes(s: string): (r: string)
    ensures |r| <= |s| && '-' !in r
  {
    Filter(s, c => c != '-')
  }

  /** Removing dashes works piecewise and leaves digit strings alone. */
  lemma RemoveDashesAppend(a: string, b: string)
    ensures RemoveDashes(a + b) == RemoveDashes(a) + RemoveDashes(b)
  {
    FilterAppend(a, b, c => c != '-');
  }

  lemma RemoveDashesDigits(s: string)
    requires AllDigits(s)
    ensures RemoveDashes(s) == s
  {
    FilterAll(s, c => c != '-');
  }

  /** Three digit strings joined by dashes lose exactly the two dashes. */
  lemma RemoveDashesJoin(a: string, b: string, c: string)
    requires AllDigits(a) && AllDigits(b) && AllDigits(c)
    ensures RemoveDashes(a + "-" + b + "-" + c) == a + b + c
  {
    RemoveDashesAppend(a + "-" + b + "-", c);
    RemoveDashesAppend(a + "-" + b, "-");
    RemoveDashesAppend(a + "-", b);
    RemoveDashesAppend(a, "-");
    assert RemoveDashes("-") == [];
    RemoveDashesDigits(a);
    RemoveDashesDigits(b);
    RemoveDashesDigits(c);
  }
}
