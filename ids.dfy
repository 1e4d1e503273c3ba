/** Record identifiers and creation dates. Every page names a new record
    `PREFIX-` followed by the current list length plus one, padded to three digits;
    orders also embed the creation date. The clock is a parameter. */
module Ids {
  import opened Lists
  import opened Text

  /** A calendar day of the clock's UTC reading. */
  datatype Date = Date(year: nat, month: nat, day: nat)

  /** The days whose ISO form has a four-digit year. */
  predicate ValidDate(d: Date)
  {
    d.year <= 9999 && 1 <= d.month <= 12 && 1 <= d.day <= 31
  }

  lemma WidthsFit(d: Date)
    requires ValidDate(d)
    ensures |ZeroPad(d.year, 4)| == 4 && |ZeroPad(d.month, 2)| == 2 && |ZeroPad(d.day, 2)| == 2
  {
    assert Pow10(2) == 100 by { assert Pow10(1) == 10; }
    assert Pow10(4) == 10000 by { assert Pow10(3) == 1000; }
    ZeroPadRoundTrip(d.year, 4);
    ZeroPadRoundTrip(d.month, 2);
    ZeroPadRoundTrip(d.day, 2);
  }

  /** `new Date().toISOString().split("T")[0]`: "YYYY-MM-DD". */
  function IsoDate(d: Date): (r: string)
    requires ValidDate(d)
    ensures |r| == 10 && r[4] == '-' && r[7] == '-'
    ensures forall i :: 0 <= i < |r| ==> IsDigit(r[i]) || r[i] == '-'
  {
    WidthsFit(d);
    var y, m, dd := ZeroPad(d.year, 4), ZeroPad(d.month, 2), ZeroPad(d.day, 2);
    DashedShape(y, m, dd);
    y + "-" + m + "-" + dd
  }

  /** Four, two and two digits joined by dashes: digits everywhere but positions 4
      and 7. */
  lemma DashedShape(y: string, m: string, dd: string)
    requires AllDigits(y) && AllDigits(m) && AllDigits(dd)
    requires |y| == 4 && |m| == 2 && |dd| == 2
    ensures var r := y + "-" + m + "-" + dd;
      |r| == 10 && r[4] == '-' && r[7] == '-' &&
      forall i :: 0 <= i < |r| ==> IsDigit(r[i]) || r[i] == '-'
  {
    var r := y + "-" + m + "-" + dd;
    forall i | 0 <= i < |r| ensures IsDigit(r[i]) || r[i] == '-' {
      if i < 4 { assert r[i] == y[i]; }
      else if 5 <= i < 7 { assert r[i] == m[i - 5]; }
      else if 8 <= i { assert r[i] == dd[i - 8]; }
    }
  }

  /** `new Date().toISOString().slice(0, 10).replace(/-/g, "")`: "YYYYMMDD". */
  function CompactDate(d: Date): (r: string)
    requires ValidDate(d)
    ensures AllDigits(r)
  {
    var iso := IsoDate(d);
    var r := RemoveDashes(iso);
    assert forall i :: 0 <= i < |r| ==> IsDigit(r[i]) by {
      forall i | 0 <= i < |r| ensures IsDigit(r[i]) {
        assert r[i] in r;
        assert r[i] in iso;
      }
    }
    r
  }

  /** The compact form is the three padded fields side by side, eight digits. */
  lemma CompactDateShape(d: Date)
    requires ValidDate(d)
    ensures CompactDate(d) == ZeroPad(d.year, 4) + ZeroPad(d.month, 2) + ZeroPad(d.day, 2)
    ensures |CompactDate(d)| == 8 && AllDigits(CompactDate(d))
  {
    var y, m, dd := ZeroPad(d.year, 4), ZeroPad(d.month, 2), ZeroPad(d.day, 2);
    WidthsFit(d);
    assert IsoDate(d) == y + "-" + m + "-" + dd;
    RemoveDashesJoin(y, m, dd);
  }

  /** The value of a concatenation of digit strings. */
  lemma {:induction false} ValueAppend(x: string, y: string)
    requires AllDigits(x) && AllDigits(y)
    ensures AllDigits(x + y)
    ensures Value(x + y) == Value(x) * Pow10(|y|) + Value(y)
    decreases |y|
  {
    assert AllDigits(x + y) by {
      forall i | 0 <= i < |x + y| ensures IsDigit((x + y)[i]) {
        if i >= |x| { assert (x + y)[i] == y[i - |x|]; }
      }
    }
    if y == [] {
      assert x + y == x;
    } else {
      var y' := y[..|y| - 1];
      ValueAppend(x, y');
      var xy := x + y;
      assert xy[..|xy| - 1] == x + y';
      assert xy[|xy| - 1] == y[|y| - 1];
      var c := y[|y| - 1] as int - '0' as int;
      var vx, vy, p := Value(x), Value(y'), Pow10(|y'|);
      assert Value(xy) == Value(x + y') * 10 + c;
      assert Value(x + y') == vx * p + vy;
      assert Value(y) == vy * 10 + c;
      assert Pow10(|y|) == p * 10;
      ShiftDigit(vx, p, vy, c);
    }
  }

  /** Appending a digit to `a * p + b` multiplies the shift by ten. */
  lemma ShiftDigit(a: int, p: int, b: int, c: int)
    ensures (a * p + b) * 10 + c == a * (p * 10) + (b * 10 + c)
  {
  }

  /** Read as a number, "YYYYMMDD" is year * 10000 + month * 100 + day. */
  lemma CompactDateValue(d: Date)
    requires ValidDate(d)
    ensures AllDigits(CompactDate(d))
    ensures Value(CompactDate(d)) == d.year * 10000 + d.month * 100 + d.day
  {
    CompactDateShape(d);
    var y, m, dd := ZeroPad(d.year, 4), ZeroPad(d.month, 2), ZeroPad(d.day, 2);
    ZeroPadRoundTrip(d.year, 4);
    ZeroPadRoundTrip(d.month, 2);
    ZeroPadRoundTrip(d.day, 2);
    assert Pow10(2) == 100 by { assert Pow10(1) == 10; }
    ValueAppend(y, m);
    ValueAppend(y + m, dd);
    assert |m| == 2 && |dd| == 2;
  }

  /** `a` is an earlier day than `b` (the order of the time values JavaScript parses
      from two ISO dates). */
  predicate Before(a: Date, b: Date)
  {
    a.year < b.year || (a.year == b.year && (a.month < b.month || (a.month == b.month && a.day < b.day)))
  }

  /** The compact dates embedded in order ids sort in calendar order. */
  lemma CompactDateOrder(a: Date, b: Date)
    requires ValidDate(a) && ValidDate(b)
    ensures Before(a, b) <==> Value(CompactDate(a)) < Value(CompactDate(b))
  {
    CompactDateValue(a);
    CompactDateValue(b);
  }

  /** The id a page gives a new record when its list holds `count` records:
      `` `${prefix}${String(count + 1).padStart(3, "0")}` ``. */
  function NextId(prefix: string, count: nat): (r: string)
    ensures |r| >= |prefix| + 3 && r[..|prefix|] == prefix
    ensures AllDigits(r[|prefix|..]) && Value(r[|prefix|..]) == count + 1
  {
    Pad3Shape(count + 1);
    DropPrefix(prefix, Pad3(count + 1));
    prefix + Pad3(count + 1)
  }

  lemma NextIdInjective(prefix: string, a: nat, b: nat)
    requires NextId(prefix, a) == NextId(prefix, b)
    ensures a == b
  {
    var pa, pb := Pad3(a + 1), Pad3(b + 1);
    assert pa == NextId(prefix, a)[|prefix|..] by { DropPrefix(prefix, pa); }
    assert pb == NextId(prefix, b)[|prefix|..] by { DropPrefix(prefix, pb); }
    ZeroPadInjective(a + 1, b + 1, 3);
  }

  lemma DropPrefix(prefix: string, rest: string)
    ensures (prefix + rest)[|prefix|..] == rest
  {
  }

  /** Ids that were all handed out in order, with no deletion in between. */
  predicate Sequential(prefix: string, ids: seq<string>)
  {
    forall i :: 0 <= i < |ids| ==> ids[i] == NextId(prefix, i)
  }

  /** Without deletions the next id is new. */
  lemma NextIdFresh(prefix: string, ids: seq<string>)
    requires Sequential(prefix, ids)
    ensures NextId(prefix, |ids|) !in ids
  {
    forall i | 0 <= i < |ids| ensures ids[i] != NextId(prefix, |ids|) {
      assert Value(NextId(prefix, i)[|prefix|..]) == i + 1;
    }
  }

  /** After deleting any record but the last, the next id is the id of the surviving
      last record: ids come from the list length, not from a counter. */
  lemma NextIdCollidesAfterDelete(prefix: string, ids: seq<string>, j: nat)
    requires Sequential(prefix, ids)
    requires j < |ids| - 1
    ensures var rest := ids[..j] + ids[j + 1..];
            NextId(prefix, |rest|) == ids[|ids| - 1] && ids[|ids| - 1] in rest
  {
    var rest := ids[..j] + ids[j + 1..];
    assert rest[|rest| - 1] == ids[|ids| - 1];
  }

  /** An order id: `ORD-` + "YYYYMMDD" of the creation day + `-` + the padded number. */
  function OrderId(today: Date, count: nat): (r: string)
    requires ValidDate(today)
    ensures |r| >= 16 && r[..4] == "ORD-" && r[4..12] == CompactDate(today) && r[12] == '-'
    ensures AllDigits(r[13..]) && Value(r[13..]) == count + 1
  {
    var head := "ORD-" + CompactDate(today) + "-";
    CompactDateShape(today);
    assert |head| == 13;
    var r := NextId(head, count);
    assert r[..13] == head;
    assert r[..4] == head[..4] && r[4..12] == head[4..12] && r[12] == head[12];
    r
  }

  /** Different days give different compact dates. */
  lemma CompactDateInjective(d1: Date, d2: Date)
    requires ValidDate(d1) && ValidDate(d2)
    requires CompactDate(d1) == CompactDate(d2)
    ensures d1 == d2
  {
    CompactDateOrder(d1, d2);
    CompactDateOrder(d2, d1);
  }

  /** An order id determines the creation day and the list length it was made at. */
  lemma OrderIdInjective(d1: Date, n1: nat, d2: Date, n2: nat)
    requires ValidDate(d1) && ValidDate(d2)
    requires OrderId(d1, n1) == OrderId(d2, n2)
    ensures d1 == d2 && n1 == n2
  {
    CompactDateShape(d1);
    CompactDateShape(d2);
    var p1, p2 := "ORD-" + CompactDate(d1) + "-", "ORD-" + CompactDate(d2) + "-";
    assert |p1| == 13 == |p2|;
    var id := OrderId(d1, n1);
    assert id == p1 + Pad3(n1 + 1);
    assert id == p2 + Pad3(n2 + 1);
    assert p1 == id[..13] == p2;
    assert CompactDate(d1) == p1[4..12] == p2[4..12] == CompactDate(d2);
    CompactDateInjective(d1, d2);
    NextIdInjective(p1, n1, n2);
  }
}
