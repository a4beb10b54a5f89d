/** Dates are kept as `YYYY-MM-DD` strings and compared with JavaScript's
    relational operators on strings, which order strings lexicographically by
    character code, a proper prefix coming first.  Dafny's own `<` on strings
    means "proper prefix", so the JavaScript order is defined here. */
module Dates {

  /** JavaScript's `a < b` on two strings. */
  predicate StringLess(a: string, b: string)
  {
    if a == [] || b == [] then a == [] && b != []
    else if a[0] != b[0] then a[0] < b[0]
    else StringLess(a[1..], b[1..])
  }

  lemma {:induction false} StringLessIrreflexive(a: string)
    ensures !StringLess(a, a)
  {
    if a != [] {
      StringLessIrreflexive(a[1..]);
    }
  }

  lemma {:induction false} StringLessAsymmetric(a: string, b: string)
    ensures StringLess(a, b) ==> !StringLess(b, a)
  {
    if a != [] && b != [] && a[0] == b[0] {
      StringLessAsymmetric(a[1..], b[1..]);
    }
  }

  lemma {:induction false} StringLessTransitive(a: string, b: string, c: string)
    requires StringLess(a, b) && StringLess(b, c)
    ensures StringLess(a, c)
  {
    if a != [] && a[0] == b[0] && b[0] == c[0] {
      StringLessTransitive(a[1..], b[1..], c[1..]);
    }
  }

  /** Any two different strings are ordered one way or the other. */
  lemma {:induction false} StringLessTrichotomy(a: string, b: string)
    ensures a == b || StringLess(a, b) || StringLess(b, a)
  {
    if a != [] && b != [] && a[0] == b[0] {
      StringLessTrichotomy(a[1..], b[1..]);
      assert a == [a[0]] + a[1..] && b == [b[0]] + b[1..];
    }
  }

  /** Comparing two strings that start with prefixes of the same length
      compares the prefixes first and the rests only when the prefixes agree. */
  lemma {:induction false} StringLessSplit(p: string, q: string, p': string, q': string)
    requires |p| == |p'|
    ensures StringLess(p + q, p' + q') == if p == p' then StringLess(q, q') else StringLess(p, p')
  {
    if p != [] {
      assert (p + q)[0] == p[0] && (p + q)[1..] == p[1..] + q;
      assert (p' + q')[0] == p'[0] && (p' + q')[1..] == p'[1..] + q';
      StringLessSplit(p[1..], q, p'[1..], q');
      assert p == [p[0]] + p[1..] && p' == [p'[0]] + p'[1..];
    } else {
      assert p + q == q && p' + q' == q';
    }
  }

  predicate IsDigit(c: char)
  {
    '0' <= c <= '9'
  }

  predicate AllDigits(s: string)
  {
    forall i :: 0 <= i < |s| ==> IsDigit(s[i])
  }

  function Pow10(n: nat): (r: nat)
    ensures r >= 1
  {
    if n == 0 then 1 else 10 * Pow10(n - 1)
  }

  /** The number a string of decimal digits denotes. */
  function DigitsValue(s: string): (v: nat)
    requires AllDigits(s)
    ensures v < Pow10(|s|)
  {
    if s == [] then 0
    else
      var d := (s[0] as int) - ('0' as int);
      var rest := DigitsValue(s[1..]);
      LeadingDigitDecides(d, 10, rest, 0, Pow10(|s| - 1));
      d * Pow10(|s| - 1) + rest
  }

  /** A larger leading digit outweighs whatever follows it. */
  lemma LeadingDigitDecides(da: nat, db: nat, ra: nat, rb: nat, unit: nat)
    requires da < db && ra < unit && rb < unit
    ensures da * unit + ra < db * unit + rb
  {
    var k := db - da;
    assert db * unit == da * unit + k * unit;
    assert k * unit == (k - 1) * unit + unit;
    assert (k - 1) * unit >= 0;
  }

  /** On digit strings of one length, the string order is the numeric order. */
  lemma {:induction false} DigitsOrder(a: string, b: string)
    requires AllDigits(a) && AllDigits(b) && |a| == |b|
    ensures StringLess(a, b) <==> DigitsValue(a) < DigitsValue(b)
    ensures a == b <==> DigitsValue(a) == DigitsValue(b)
  {
    if a != [] {
      var unit := Pow10(|a| - 1);
      var da, db := (a[0] as int) - ('0' as int), (b[0] as int) - ('0' as int);
      assert AllDigits(a[1..]) && AllDigits(b[1..]);
      var ra, rb := DigitsValue(a[1..]), DigitsValue(b[1..]);
      DigitsOrder(a[1..], b[1..]);
      assert DigitsValue(a) == da * unit + ra && DigitsValue(b) == db * unit + rb;
      if da < db {
        LeadingDigitDecides(da, db, ra, rb, unit);
        assert a[0] < b[0];
      } else if db < da {
        LeadingDigitDecides(db, da, rb, ra, unit);
        assert b[0] < a[0];
      } else {
        assert a[0] == b[0];
        assert a == [a[0]] + a[1..] && b == [b[0]] + b[1..];
      }
    }
  }

  /** The form `toISOString().split('T')[0]` and a date input produce. */
  predicate IsIsoDate(s: string)
  {
    |s| == 10 && s[4] == '-' && s[7] == '-'
    && AllDigits(s[..4]) && AllDigits(s[5..7]) && AllDigits(s[8..])
  }

  /** The calendar position of an ISO date: year, then month, then day. */
  function DayKey(s: string): nat
    requires IsIsoDate(s)
  {
    DigitsValue(s[..4]) * 10000 + DigitsValue(s[5..7]) * 100 + DigitsValue(s[8..])
  }

  /** String order on two ISO dates compares the years, then the months,
      then the days. */
  lemma IsoDateFields(a: string, b: string)
    requires IsIsoDate(a) && IsIsoDate(b)
    ensures StringLess(a, b) == if a[..4] != b[..4] then StringLess(a[..4], b[..4])
                                else if a[5..7] != b[5..7] then StringLess(a[5..7], b[5..7])
                                else StringLess(a[8..], b[8..])
  {
    var dash: string := ['-'];
    assert a == a[..4] + (dash + a[5..7] + (dash + a[8..]));
    assert b == b[..4] + (dash + b[5..7] + (dash + b[8..]));
    StringLessSplit(a[..4], dash + a[5..7] + (dash + a[8..]), b[..4], dash + b[5..7] + (dash + b[8..]));
    StringLessSplit(dash + a[5..7], dash + a[8..], dash + b[5..7], dash + b[8..]);
    StringLessSplit(dash, a[5..7], dash, b[5..7]);
    StringLessSplit(dash, a[8..], dash, b[8..]);
    StringLessIrreflexive(dash);
  }

  /** String order on ISO dates is calendar order: this is why the agenda may
      compare due dates as strings. */
  lemma IsoDateOrderIsCalendarOrder(a: string, b: string)
    requires IsIsoDate(a) && IsIsoDate(b)
    ensures StringLess(a, b) <==> DayKey(a) < DayKey(b)
    ensures a == b <==> DayKey(a) == DayKey(b)
  {
    IsoDateFields(a, b);
    DigitsOrder(a[..4], b[..4]);
    DigitsOrder(a[5..7], b[5..7]);
    DigitsOrder(a[8..], b[8..]);
    assert Pow10(2) == 100 by {
      assert Pow10(1) == 10;
    }
    KeyOrder(DigitsValue(a[..4]), DigitsValue(a[5..7]), DigitsValue(a[8..]),
             DigitsValue(b[..4]), DigitsValue(b[5..7]), DigitsValue(b[8..]));
    assert a == b <==> a[..4] == b[..4] && a[5..7] == b[5..7] && a[8..] == b[8..] by {
      if a[..4] == b[..4] && a[5..7] == b[5..7] && a[8..] == b[8..] {
        assert a == a[..4] + [a[4]] + a[5..7] + [a[7]] + a[8..];
        assert b == b[..4] + [b[4]] + b[5..7] + [b[7]] + b[8..];
      }
    }
  }

  /** Year, month and day below 100 combine into one key that orders them
      lexicographically. */
  lemma KeyOrder(ya: nat, ma: nat, da: nat, yb: nat, mb: nat, db: nat)
    requires ma < 100 && da < 100 && mb < 100 && db < 100
    ensures ya * 10000 + ma * 100 + da < yb * 10000 + mb * 100 + db <==>
      ya < yb || (ya == yb && (ma < mb || (ma == mb && da < db)))
    ensures ya * 10000 + ma * 100 + da == yb * 10000 + mb * 100 + db <==>
      ya == yb && ma == mb && da == db
  {
    if ya < yb {
      LeadingDigitDecides(ya, yb, ma * 100 + da, mb * 100 + db, 10000);
    } else if yb < ya {
      LeadingDigitDecides(yb, ya, mb * 100 + db, ma * 100 + da, 10000);
    } else if ma < mb {
      LeadingDigitDecides(ma, mb, da, db, 100);
    } else if mb < ma {
      LeadingDigitDecides(mb, ma, db, da, 100);
    }
  }
}
