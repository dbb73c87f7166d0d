/** Coordinate normalisation and cache-key derivation (storage.py,
    `normalize_coordinates` and `_get_cache_key`).

    A normalised coordinate is kept as an integer number of hundredths of a
    degree, so that 55.75 is `5575`: the grid cell the cache groups queries
    by. The MD5 digest the source applies to the key string is replaced by
    the key string itself, which is injective outright. */
module Coordinates {
  import opened Wrappers
  import opened Text

  /** `round(x, 2)` on exact reals, in hundredths: the nearest hundredth,
      a tie going to the even neighbour. */
  function Round2(x: real): (n: int)
    ensures -0.5 <= x * 100.0 - n as real <= 0.5
  {
    var y := x * 100.0;
    var f := y.Floor;
    var d := y - f as real;
    if d < 0.5 then f
    else if d > 0.5 then f + 1
    else if f % 2 == 0 then f
    else f + 1
  }

  /** No other hundredth is closer to `x` than the one `Round2` picks. */
  lemma Round2Nearest(x: real, m: int)
    ensures Abs(x * 100.0 - Round2(x) as real) <= Abs(x * 100.0 - m as real)
  {
    var n := Round2(x);
    if m < n {
      assert m as real <= n as real - 1.0;
    } else if m > n {
      assert m as real >= n as real + 1.0;
    }
  }

  /** Every point strictly inside the half-hundredth window around `m`
      falls into cell `m`. */
  lemma Round2Within(x: real, m: int)
    requires Abs(x * 100.0 - m as real) < 0.5
    ensures Round2(x) == m
  {
    var n := Round2(x);
    assert -1.0 < n as real - m as real < 1.0;
  }

  /** A coordinate that is already a whole number of hundredths is its own cell. */
  lemma Round2OfCell(n: int)
    ensures Round2(n as real / 100.0) == n
  {
    Round2Within(n as real / 100.0, n);
  }

  /** At an exact `.xx5` tie the even hundredth wins. */
  lemma Round2Ties()
    ensures Round2(0.125) == 12 && Round2(0.135) == 14 && Round2(-0.125) == -12
  {
  }

  function Abs(x: real): real { if x < 0.0 then -x else x }

  /** A grid cell: normalised latitude and longitude in hundredths of a degree. */
  datatype Cell = Cell(lat: int, lon: int)

  /** `normalize_coordinates(lat, lon)`. */
  function Normalize(lat: real, lon: real): (c: Cell)
    ensures Abs(lat * 100.0 - c.lat as real) <= 0.5
    ensures Abs(lon * 100.0 - c.lon as real) <= 0.5
  {
    Cell(Round2(lat), Round2(lon))
  }

  /** The two points of the source's documentation share the cell (55.75, 37.62). */
  lemma NormalizeExamples()
    ensures Normalize(55.7504461, 37.6174943) == Cell(5575, 3762)
    ensures Normalize(55.754, 37.6204) == Cell(5575, 3762)
  {
    Round2Within(55.7504461, 5575);
    Round2Within(37.6174943, 3762);
    Round2Within(55.754, 5575);
    Round2Within(37.6204, 3762);
  }

  /** `f"{x:.2f}"` for a value of `n` hundredths. */
  function FormatHundredths(n: int): (s: string)
    ensures '_' !in s && '|' !in s
  {
    if n < 0 then "-" + UnsignedHundredths(-n) else UnsignedHundredths(n)
  }

  /** `a` hundredths without a sign: whole degrees, a point, two digits. */
  function UnsignedHundredths(a: nat): (t: string)
    ensures forall i :: 0 <= i < |t| ==> IsDigit(t[i]) || t[i] == '.'
  {
    var t := NatToString(a / 100) + "." + [DigitChar(a % 100 / 10), DigitChar(a % 10)];
    assert forall i :: 0 <= i < |t| ==> IsDigit(t[i]) || t[i] == '.';
    t
  }

  lemma TwoDigitsValue(r: nat)
    requires r < 100
    ensures AllDigits([DigitChar(r / 10), DigitChar(r % 10)])
    ensures DigitsValue([DigitChar(r / 10), DigitChar(r % 10)]) == r
  {
    var s := [DigitChar(r / 10), DigitChar(r % 10)];
    assert s[..1] == [DigitChar(r / 10)];
    assert [DigitChar(r / 10)][..0] == [];
    assert DigitsValue(s[..1]) == r / 10;
    assert DigitValue(s[1]) == r % 10;
  }

  /** The unsigned text reads back as `a / 100`, and starts with a digit. */
  lemma UnsignedHundredthsParses(a: nat)
    ensures ParseUnsignedDecimal(UnsignedHundredths(a)) == Some(a as real / 100.0)
    ensures IsDigit(UnsignedHundredths(a)[0])
  {
    var whole := NatToString(a / 100);
    var frac := [DigitChar(a % 100 / 10), DigitChar(a % 10)];
    assert a % 100 / 10 == (a % 100) / 10 && a % 10 == (a % 100) % 10;
    TwoDigitsValue(a % 100);
    NatToStringValue(a / 100);
    ParseUnsignedDecimalOf(whole, frac);
    assert DecimalValue(whole, frac) == a as real / 100.0 by {
      assert Pow10(2) == 100;
      assert a == 100 * (a / 100) + a % 100;
    }
    assert UnsignedHundredths(a) == whole + "." + frac;
    assert UnsignedHundredths(a)[0] == whole[0];
  }

  /** The formatted text reads back, as a decimal, as the cell's value. */
  lemma FormatHundredthsParses(n: int)
    ensures ParseDecimal(FormatHundredths(n)) == Some(n as real / 100.0)
  {
    if n < 0 {
      NegativeParses(n);
    } else {
      NonNegativeParses(n);
    }
  }

  lemma NegativeParses(n: int)
    requires n < 0
    ensures ParseDecimal(FormatHundredths(n)) == Some(n as real / 100.0)
  {
    var t := UnsignedHundredths(-n);
    UnsignedHundredthsParses(-n);
    MinusParses(t, (-n) as real / 100.0);
    assert FormatHundredths(n) == "-" + t;
    assert -((-n) as real / 100.0) == n as real / 100.0;
  }

  /** A leading minus negates whatever the unsigned parser reads. */
  lemma MinusParses(t: string, v: real)
    requires ParseUnsignedDecimal(t) == Some(v)
    ensures ParseDecimal("-" + t) == Some(-v)
  {
    assert ("-" + t)[1..] == t;
  }

  lemma NonNegativeParses(n: int)
    requires n >= 0
    ensures ParseDecimal(FormatHundredths(n)) == Some(n as real / 100.0)
  {
    UnsignedHundredthsParses(n);
    var t := UnsignedHundredths(n);
    assert FormatHundredths(n) == t;
    assert t[0] != '-' && t[0] != '+';
  }

  /** The formatted text is an optional minus, digits, a point and two
      digits: no blank, comma or separator anywhere. */
  lemma FormatHundredthsShape(n: int)
    ensures var s := FormatHundredths(n);
      && (forall i :: 0 <= i < |s| ==> IsDigit(s[i]) || s[i] == '.' || s[i] == '-')
      && |s| >= 4 && IsDigit(s[|s| - 1]) && (IsDigit(s[0]) || s[0] == '-')
  {
    var a := if n < 0 then -n else n;
    UnsignedHundredthsParses(a);
    var t := UnsignedHundredths(a);
    assert |t| >= 4 && IsDigit(t[|t| - 1]) by {
      assert t == NatToString(a / 100) + "." + [DigitChar(a % 100 / 10), DigitChar(a % 10)];
    }
  }

  lemma FormatHundredthsInjective(m: int, n: int)
    requires FormatHundredths(m) == FormatHundredths(n)
    ensures m == n
  {
    FormatHundredthsParses(m);
    FormatHundredthsParses(n);
  }

  /** The text the source hashes: `f"{norm_lat:.2f}_{norm_lon:.2f}_{endpoint}"`. */
  function KeyString(c: Cell, endpoint: string): string {
    FormatHundredths(c.lat) + "_" + FormatHundredths(c.lon) + "_" + endpoint
  }

  /** `_get_cache_key(lat, lon, endpoint)`, the digest step left out. */
  function CacheKey(lat: real, lon: real, endpoint: string): string {
    KeyString(Normalize(lat, lon), endpoint)
  }

  /** Distinct (cell, endpoint) pairs never share a key: the formatted
      numbers contain no `_`, so the key splits back into its parts. */
  lemma KeyStringInjective(c1: Cell, e1: string, c2: Cell, e2: string)
    ensures KeyString(c1, e1) == KeyString(c2, e2) <==> c1 == c2 && e1 == e2
  {
    var a1, b1 := FormatHundredths(c1.lat), FormatHundredths(c1.lon);
    var a2, b2 := FormatHundredths(c2.lat), FormatHundredths(c2.lon);
    JoinedInjective(a1, b1, e1, a2, b2, e2);
    if a1 == a2 && b1 == b2 {
      FormatHundredthsInjective(c1.lat, c2.lat);
      FormatHundredthsInjective(c1.lon, c2.lon);
    }
  }

  /** Joining two `_`-free fields and a tail with `_` loses nothing. */
  lemma JoinedInjective(a1: string, b1: string, e1: string, a2: string, b2: string, e2: string)
    requires '_' !in a1 && '_' !in b1 && '_' !in a2 && '_' !in b2
    ensures a1 + "_" + b1 + "_" + e1 == a2 + "_" + b2 + "_" + e2 ==> a1 == a2 && b1 == b2 && e1 == e2
  {
    var k1, k2 := a1 + "_" + b1 + "_" + e1, a2 + "_" + b2 + "_" + e2;
    if k1 == k2 {
      assert k1 == a1 + ['_'] + (b1 + ['_'] + e1);
      assert k2 == a2 + ['_'] + (b2 + ['_'] + e2);
      SplitFirst(a1, b1 + ['_'] + e1, '_');
      SplitFirst(a2, b2 + ['_'] + e2, '_');
      SplitFirst(b1, e1, '_');
      SplitFirst(b2, e2, '_');
      var parts := Split(k1, '_');
      assert parts[0] == a1 && parts[0] == a2;
      assert parts[1] == b1 && parts[1] == b2;
      var prefix := a1 + "_" + b1 + "_";
      assert k1 == prefix + e1;
      assert k2 == prefix + e2;
      assert e1 == k1[|prefix|..];
    }
  }

  /** Two raw points address the same record for an endpoint exactly when
      they normalise to the same cell. */
  lemma SameKeyIffSameCell(lat: real, lon: real, lat': real, lon': real, endpoint: string)
    ensures CacheKey(lat, lon, endpoint) == CacheKey(lat', lon', endpoint)
        <==> Normalize(lat, lon) == Normalize(lat', lon')
  {
    KeyStringInjective(Normalize(lat, lon), endpoint, Normalize(lat', lon'), endpoint);
  }

  /** A geocoding entry, kept at the sentinel point (0, 0), never shares a
      key with a weather, forecast or air-pollution entry, even one whose
      point normalises to (0.00, 0.00). */
  lemma GeocodingIsolated(lat: real, lon: real, endpoint: string, city: string)
    requires endpoint in {"weather", "forecast", "air_pollution"}
    ensures CacheKey(lat, lon, endpoint) != CacheKey(0.0, 0.0, "geocoding_" + city)
  {
    var g := "geocoding_" + city;
    assert g[0] == 'g';
    assert endpoint != g;
    KeyStringInjective(Normalize(lat, lon), endpoint, Normalize(0.0, 0.0), g);
  }
}
