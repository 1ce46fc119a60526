/** Object keys of the observation store: the order in which the store lists keys,
    the capture stamp `%Y%m%d-%H%M%S`, the key a save writes and the prefix a lookup lists. */
module Keys {

  // ---------------------------------------------------------------------------
  // Listing order

  /** Strict lexicographic order on strings by code point. The store lists keys in
      ascending UTF-8 byte order, which is the same as code-point order. */
  predicate KeyLess(a: string, b: string)
    decreases |a|
  {
    if a == [] then b != []
    else if b == [] then false
    else if a[0] != b[0] then a[0] < b[0]
    else KeyLess(a[1..], b[1..])
  }

  lemma {:induction false} KeyLessIrreflexive(a: string)
    ensures !KeyLess(a, a)
    decreases |a|
  {
    if a != [] {
      KeyLessIrreflexive(a[1..]);
    }
  }

  lemma {:induction false} KeyLessTransitive(a: string, b: string, c: string)
    requires KeyLess(a, b) && KeyLess(b, c)
    ensures KeyLess(a, c)
    decreases |a|
  {
    if a != [] && b != [] && c != [] && a[0] == b[0] && b[0] == c[0] {
      KeyLessTransitive(a[1..], b[1..], c[1..]);
    }
  }

  lemma {:induction false} KeyLessTotal(a: string, b: string)
    requires a != b
    ensures KeyLess(a, b) || KeyLess(b, a)
    decreases |a|
  {
    if a != [] && b != [] && a[0] == b[0] {
      assert a == [a[0]] + a[1..] && b == [b[0]] + b[1..];
      KeyLessTotal(a[1..], b[1..]);
    }
  }

  lemma KeyLessAsymmetric(a: string, b: string)
    requires KeyLess(a, b)
    ensures !KeyLess(b, a)
  {
    if KeyLess(b, a) {
      KeyLessTransitive(a, b, a);
      KeyLessIrreflexive(a);
    }
  }

  /** Comparing two strings that start with blocks of the same width: the leading
      blocks decide, and only when they are equal do the rests. */
  lemma {:induction false} KeyLessBlocks(a1: string, b1: string, a2: string, b2: string)
    requires |a1| == |a2|
    ensures KeyLess(a1 + b1, a2 + b2) <==> KeyLess(a1, a2) || (a1 == a2 && KeyLess(b1, b2))
    ensures a1 + b1 == a2 + b2 <==> a1 == a2 && b1 == b2
    decreases |a1|
  {
    if a1 + b1 == a2 + b2 {
      assert a1 == (a1 + b1)[..|a1|] && a2 == (a2 + b2)[..|a2|];
      assert b1 == (a1 + b1)[|a1|..] && b2 == (a2 + b2)[|a2|..];
    }
    if a1 == [] {
      assert a1 + b1 == b1 && a2 + b2 == b2;
    } else {
      assert (a1 + b1)[1..] == a1[1..] + b1;
      assert (a2 + b2)[1..] == a2[1..] + b2;
      KeyLessBlocks(a1[1..], b1, a2[1..], b2);
      assert a1 == [a1[0]] + a1[1..] && a2 == [a2[0]] + a2[1..];
      KeyLessIrreflexive(a1);
    }
  }

  // ---------------------------------------------------------------------------
  // The capture stamp: `datetime.now().strftime('%Y%m%d-%H%M%S')`

  /** A local wall-clock reading as `datetime.now()` gives it, to the second. */
  datatype DateTime = DateTime(year: int, month: int, day: int, hour: int, minute: int, second: int)

  /** Readings the stamp format covers: four-digit years (below 1000 the padding of
      `%Y` depends on the C library) and the field ranges of `datetime`. */
  predicate ValidDateTime(d: DateTime)
  {
    && 1000 <= d.year <= 9999
    && 1 <= d.month <= 12
    && 1 <= d.day <= 31
    && 0 <= d.hour <= 23
    && 0 <= d.minute <= 59
    && 0 <= d.second <= 59
  }

  /** Chronological order of two readings. */
  predicate Before(d1: DateTime, d2: DateTime)
  {
    if d1.year != d2.year then d1.year < d2.year
    else if d1.month != d2.month then d1.month < d2.month
    else if d1.day != d2.day then d1.day < d2.day
    else if d1.hour != d2.hour then d1.hour < d2.hour
    else if d1.minute != d2.minute then d1.minute < d2.minute
    else d1.second < d2.second
  }

  predicate IsDigit(c: char)
  {
    '0' <= c <= '9'
  }

  /** The fixed-width shape `YYYYMMDD-HHMMSS`. */
  predicate IsStamp(s: string)
  {
    |s| == 15 && s[8] == '-' && forall i :: 0 <= i < 15 && i != 8 ==> IsDigit(s[i])
  }

  function DigitChar(n: int): (c: char)
    requires 0 <= n <= 9
    ensures IsDigit(c) && c as int - '0' as int == n
  {
    ('0' as int + n) as char
  }

  /** `%m`, `%d`, `%H`, `%M`, `%S`: two digits, zero-padded. */
  function Pad2(n: int): (s: string)
    requires 0 <= n < 100
    ensures |s| == 2 && IsDigit(s[0]) && IsDigit(s[1])
  {
    [DigitChar(n / 10), DigitChar(n % 10)]
  }

  /** `%Y` for a four-digit year. */
  function Pad4(n: int): (s: string)
    requires 0 <= n < 10000
    ensures |s| == 4 && forall i :: 0 <= i < 4 ==> IsDigit(s[i])
  {
    Pad2(n / 100) + Pad2(n % 100)
  }

  function Format(d: DateTime): (s: string)
    requires ValidDateTime(d)
    ensures IsStamp(s)
  {
    Pad4(d.year) + Pad2(d.month) + Pad2(d.day) + "-" + Pad2(d.hour) + Pad2(d.minute) + Pad2(d.second)
  }

  lemma CharBlockOrder(c: char, d: char)
    ensures KeyLess([c], [d]) <==> c < d
  {
    assert [c][1..] == [] && [d][1..] == [];
  }

  /** Zero-padded two-digit fields sort as their numbers do. */
  lemma Pad2Order(x: int, y: int)
    requires 0 <= x < 100 && 0 <= y < 100
    ensures KeyLess(Pad2(x), Pad2(y)) <==> x < y
    ensures Pad2(x) == Pad2(y) <==> x == y
  {
    var hx, lx, hy, ly := DigitChar(x / 10), DigitChar(x % 10), DigitChar(y / 10), DigitChar(y % 10);
    assert Pad2(x) == [hx] + [lx] && Pad2(y) == [hy] + [ly];
    KeyLessBlocks([hx], [lx], [hy], [ly]);
    CharBlockOrder(hx, hy);
    CharBlockOrder(lx, ly);
  }

  lemma Pad4Order(x: int, y: int)
    requires 0 <= x < 10000 && 0 <= y < 10000
    ensures KeyLess(Pad4(x), Pad4(y)) <==> x < y
    ensures Pad4(x) == Pad4(y) <==> x == y
  {
    KeyLessBlocks(Pad2(x / 100), Pad2(x % 100), Pad2(y / 100), Pad2(y % 100));
    Pad2Order(x / 100, y / 100);
    Pad2Order(x % 100, y % 100);
  }

  /** Stamps sort in the order of the readings they were made from. */
  lemma StampOrderIsChronological(d1: DateTime, d2: DateTime)
    requires ValidDateTime(d1) && ValidDateTime(d2)
    ensures KeyLess(Format(d1), Format(d2)) <==> Before(d1, d2)
    ensures Format(d1) == Format(d2) <==> d1 == d2
  {
    var y1, y2 := Pad4(d1.year), Pad4(d2.year);
    var mo1, mo2 := Pad2(d1.month), Pad2(d2.month);
    var da1, da2 := Pad2(d1.day), Pad2(d2.day);
    var h1, h2 := Pad2(d1.hour), Pad2(d2.hour);
    var mi1, mi2 := Pad2(d1.minute), Pad2(d2.minute);
    var s1, s2 := Pad2(d1.second), Pad2(d2.second);
    var a1, a2 := y1 + mo1, y2 + mo2;
    var b1, b2 := a1 + da1, a2 + da2;
    var c1, c2 := b1 + "-", b2 + "-";
    var e1, e2 := c1 + h1, c2 + h2;
    var f1, f2 := e1 + mi1, e2 + mi2;
    assert Format(d1) == f1 + s1 && Format(d2) == f2 + s2;
    KeyLessBlocks(f1, s1, f2, s2);
    KeyLessBlocks(e1, mi1, e2, mi2);
    KeyLessBlocks(c1, h1, c2, h2);
    KeyLessBlocks(b1, "-", b2, "-");
    KeyLessBlocks(a1, da1, a2, da2);
    KeyLessBlocks(y1, mo1, y2, mo2);
    KeyLessIrreflexive("-");
    Pad4Order(d1.year, d2.year);
    Pad2Order(d1.month, d2.month);
    Pad2Order(d1.day, d2.day);
    Pad2Order(d1.hour, d2.hour);
    Pad2Order(d1.minute, d2.minute);
    Pad2Order(d1.second, d2.second);
  }

  // ---------------------------------------------------------------------------
  // Keys and prefixes

  predicate StartsWith(s: string, prefix: string)
  {
    |prefix| <= |s| && s[..|prefix|] == prefix
  }

  /** The listing prefix of a city, `f"weather-data/{city}-"`. */
  function CityPrefix(city: string): string
  {
    "weather-data/" + city + "-"
  }

  /** The key a save writes, `f"weather-data/{city}-{timestamp}.json"`; every such key
      lies under the listing prefix of its city. */
  function ObjectKey(city: string, stamp: string): (key: string)
    ensures StartsWith(key, CityPrefix(city))
    ensures |key| == |CityPrefix(city)| + |stamp| + 5
  {
    assert ("weather-data/" + city + "-" + stamp + ".json")[..|CityPrefix(city)|] == CityPrefix(city);
    "weather-data/" + city + "-" + stamp + ".json"
  }

  /** A key determines the city and the stamp it was made from. */
  lemma ObjectKeyInjective(c1: string, s1: string, c2: string, s2: string)
    requires IsStamp(s1) && IsStamp(s2)
    requires ObjectKey(c1, s1) == ObjectKey(c2, s2)
    ensures c1 == c2 && s1 == s2
  {
    var k := ObjectKey(c1, s1);
    assert |c1| == |c2|;
    assert c1 == k[13..13 + |c1|];
    assert c2 == ObjectKey(c2, s2)[13..13 + |c2|];
    assert s1 == k[14 + |c1|..14 + |c1| + 15];
    assert s2 == ObjectKey(c2, s2)[14 + |c2|..14 + |c2| + 15];
  }

  /** For city names without a dash, the prefix of city `b` selects exactly the keys
      saved for `b` and none saved for another city. */
  lemma PrefixSelectsOnlyItsCity(a: string, b: string, stamp: string)
    requires '-' !in a && '-' !in b
    ensures StartsWith(ObjectKey(a, stamp), CityPrefix(b)) <==> a == b
  {
    var k, p := ObjectKey(a, stamp), CityPrefix(b);
    if |a| < |b| && |p| <= |k| {
      assert k[13 + |a|] == '-' && p[13 + |a|] == b[|a|];
      assert k[..|p|][13 + |a|] != p[13 + |a|];
    } else if |a| > |b| {
      assert p[13 + |b|] == '-' && k[13 + |b|] == a[|b|];
      assert k[..|p|][13 + |b|] != p[13 + |b|];
    } else if |a| == |b| && StartsWith(k, p) {
      assert a == k[13..13 + |a|];
      assert b == p[13..13 + |b|];
    }
  }

  /** Keys of one city sort in the order of their capture readings. */
  lemma KeyOrderIsChronological(city: string, d1: DateTime, d2: DateTime)
    requires ValidDateTime(d1) && ValidDateTime(d2)
    ensures KeyLess(ObjectKey(city, Format(d1)), ObjectKey(city, Format(d2))) <==> Before(d1, d2)
  {
    var p, s1, s2 := CityPrefix(city), Format(d1), Format(d2);
    assert ObjectKey(city, s1) == p + (s1 + ".json");
    assert ObjectKey(city, s2) == p + (s2 + ".json");
    KeyLessBlocks(p, s1 + ".json", p, s2 + ".json");
    KeyLessBlocks(s1, ".json", s2, ".json");
    KeyLessIrreflexive(p);
    KeyLessIrreflexive(".json");
    StampOrderIsChronological(d1, d2);
  }
}
