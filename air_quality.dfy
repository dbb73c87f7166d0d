/** `analyze_air_pollution` of weather_app.py: each tracked pollutant's
    concentration falls into one of five bands, the overall index is the
    worst band found, and every indexed pollutant is described in input
    order. The input is the components dict as its list of items. */
module AirQuality {
  import opened Wrappers

  /** The pollutants the band table covers. */
  const Tracked: set<string> := {"so2", "no2", "pm10", "pm2_5", "o3", "co"}

  /** The lower limits of bands 1 to 5; band `i` runs from `Bounds(p)[i-1]`
      up to, not including, `Bounds(p)[i]`, and band 5 has no upper limit. */
  function Bounds(p: string): (b: seq<real>)
    ensures p in Tracked <==> |b| == 5
    ensures p !in Tracked ==> b == []
  {
    if p == "so2" then [0.0, 20.0, 80.0, 250.0, 350.0]
    else if p == "no2" then [0.0, 40.0, 70.0, 150.0, 200.0]
    else if p == "pm10" then [0.0, 20.0, 50.0, 100.0, 200.0]
    else if p == "pm2_5" then [0.0, 10.0, 25.0, 50.0, 75.0]
    else if p == "o3" then [0.0, 60.0, 100.0, 140.0, 180.0]
    else if p == "co" then [0.0, 4400.0, 9400.0, 12400.0, 15400.0]
    else []
  }

  /** `standards[index]["name"]`. */
  function BandName(i: nat): string {
    if i == 1 then "Хорошее"
    else if i == 2 then "Удовлетворительное"
    else if i == 3 then "Умеренное"
    else if i == 4 then "Плохое"
    else "Очень плохое"
  }

  /** The verdict attached to a pollutant's band. */
  function Assessment(i: nat): string {
    if i == 1 then "в норме"
    else if i == 2 then "немного повышен"
    else if i == 3 then "умеренно повышен"
    else if i == 4 then "значительно повышен"
    else "критически повышен"
  }

  /** `pollutant_names.get(pollutant, pollutant.upper())`. */
  function DisplayName(p: string): string {
    if p == "so2" then "SO₂ (диоксид серы)"
    else if p == "no2" then "NO₂ (диоксид азота)"
    else if p == "pm10" then "PM₁₀ (твердые частицы)"
    else if p == "pm2_5" then "PM₂.₅ (мелкие частицы)"
    else if p == "o3" then "O₃ (озон)"
    else if p == "co" then "CO (угарный газ)"
    else if p == "no" then "NO (оксид азота)"
    else if p == "nh3" then "NH₃ (аммиак)"
    else Upper(p)
  }

  /** `str.upper()` on ASCII: every lower-case letter becomes its
      capital, and every other character is kept. */
  function Upper(s: string): (r: string)
    ensures |r| == |s|
    ensures forall i :: 0 <= i < |s| ==> !('a' <= r[i] <= 'z')
    ensures forall i :: 0 <= i < |s| && 'a' <= s[i] <= 'z' ==> 'A' <= r[i] <= 'Z' && r[i] as int + 32 == s[i] as int
    ensures forall i :: 0 <= i < |s| && !('a' <= s[i] <= 'z') ==> r[i] == s[i]
  {
    seq(|s|, i requires 0 <= i < |s| => if 'a' <= s[i] <= 'z' then (s[i] as int - 32) as char else s[i])
  }

  /** `min_val <= value < max_val` for band `i` of the limits `b`. */
  predicate InBand(b: seq<real>, v: real, i: nat)
    requires |b| == 5
  {
    1 <= i <= 5 && b[i - 1] <= v && (i == 5 || v < b[i])
  }

  predicate Increasing(b: seq<real>) {
    forall i, j :: 0 <= i < j < |b| ==> b[i] < b[j]
  }

  /** The loop over `range(i, 6)`: the first band from `i` on that holds `v`. */
  function FirstBand(b: seq<real>, v: real, i: nat): (r: Option<nat>)
    requires |b| == 5 && 1 <= i <= 6
    ensures r.Some? ==> i <= r.value <= 5 && InBand(b, v, r.value)
    ensures r.Some? ==> forall k :: i <= k < r.value ==> !InBand(b, v, k)
    ensures r.None? ==> forall k :: i <= k <= 5 ==> !InBand(b, v, k)
    decreases 6 - i
  {
    if i > 5 then None
    else if b[i - 1] <= v && (i == 5 || v < b[i]) then Some(i)
    else FirstBand(b, v, i + 1)
  }

  /** The index a pollutant's value gets, if any. */
  function Band(p: string, v: real): Option<nat> {
    if p in Tracked then FirstBand(Bounds(p), v, 1) else None
  }

  lemma BoundsIncreasing(p: string)
    requires p in Tracked
    ensures Increasing(Bounds(p)) && Bounds(p)[0] == 0.0
  {
  }

  /** Bands of increasing limits do not overlap: a value in band `i` lies
      below every later band. */
  lemma BandsOrdered(b: seq<real>, v: real, i: nat, j: nat)
    requires |b| == 5 && Increasing(b) && 1 <= i < j <= 5
    ensures InBand(b, v, i) ==> !InBand(b, v, j)
  {
    if InBand(b, v, i) {
      assert b[i] <= b[j - 1];
    }
  }

  /** Every tracked pollutant with a value of at least zero gets exactly
      one index, the band holding its value; an untracked pollutant or a
      negative value gets none. */
  lemma BandExactlyOne(p: string, v: real, k: nat)
    ensures Band(p, v).Some? <==> p in Tracked && v >= 0.0
    ensures Band(p, v).Some? ==> 1 <= Band(p, v).value <= 5 && InBand(Bounds(p), v, Band(p, v).value)
    ensures p in Tracked && InBand(Bounds(p), v, k) ==> Band(p, v) == Some(k)
  {
    if p in Tracked {
      var b := Bounds(p);
      BoundsIncreasing(p);
      if v >= 0.0 {
        var w := if v >= b[4] then 5 else if v >= b[3] then 4 else if v >= b[2] then 3 else if v >= b[1] then 2 else 1;
        assert InBand(b, v, w);
        var first := FirstBand(b, v, 1).value;
        forall j | first < j <= 5 ensures !InBand(b, v, j) {
          BandsOrdered(b, v, first, j);
        }
      }
    }
  }

  /** One entry of `details`. */
  datatype Detail = Detail(pollutant: string, value: real, index: nat, status: string, assessment: string)

  /** The result dict. */
  datatype Analysis = Analysis(overallIndex: nat, overallStatus: string, details: seq<Detail>)

  function Names(data: seq<(string, real)>): set<string> {
    set k | 0 <= k < |data| :: data[k].0
  }

  /** `pollutant_indices`. */
  function Indices(data: seq<(string, real)>): (m: map<string, nat>)
    ensures m.Keys <= Names(data)
    ensures forall p :: p in m ==> 1 <= m[p] <= 5
  {
    if data == [] then map[]
    else
      var rest := Indices(data[1..]);
      assert Names(data[1..]) <= Names(data) by {
        forall p | p in Names(data[1..]) ensures p in Names(data) {
          var k :| 0 <= k < |data[1..]| && data[1..][k].0 == p;
          assert data[k + 1].0 == p;
        }
      }
      match Band(data[0].0, data[0].1)
      case Some(i) => (BandExactlyOne(data[0].0, data[0].1, i); rest[data[0].0 := i])
      case None => rest
  }

  /** The worst band among the indexed items, or 0 when none is indexed. */
  function WorstBand(data: seq<(string, real)>): (w: nat)
    ensures w <= 5
  {
    if data == [] then 0
    else
      var here := match Band(data[0].0, data[0].1) case Some(i) => i case None => 0;
      BandExactlyOne(data[0].0, data[0].1, 0);
      var rest := WorstBand(data[1..]);
      if here > rest then here else rest
  }

  /** The details of the indexed items, in input order. */
  function Details(data: seq<(string, real)>): (ds: seq<Detail>)
    ensures |ds| <= |data|
    ensures forall k :: 0 <= k < |ds| ==>
      (1 <= ds[k].index <= 5 && ds[k].status == BandName(ds[k].index) && ds[k].assessment == Assessment(ds[k].index))
  {
    if data == [] then []
    else
      var (p, v) := data[0];
      BandExactlyOne(p, v, 0);
      match Band(p, v)
      case Some(i) => [Detail(DisplayName(p), v, i, BandName(i), Assessment(i))] + Details(data[1..])
      case None => Details(data[1..])
  }

  /** `analyze_air_pollution(air_pollution_data)`. */
  function Analyze(data: seq<(string, real)>): (a: Analysis)
    ensures 1 <= a.overallIndex <= 5 && a.overallStatus == BandName(a.overallIndex)
    ensures forall k :: 0 <= k < |a.details| ==> a.details[k].index <= a.overallIndex
    ensures a.details == [] <==> a.overallIndex == 1 && Indices(data) == map[]
    ensures a.details != [] ==> exists k :: 0 <= k < |a.details| && a.details[k].index == a.overallIndex
  {
    var w := WorstBand(data);
    DetailsAgainstWorst(data);
    var overall := if w == 0 then 1 else w;
    Analysis(overall, BandName(overall), Details(data))
  }

  /** The worst band bounds every detail and is attained by one; no detail
      exactly when no item is indexed. */
  lemma DetailsAgainstWorst(data: seq<(string, real)>)
    ensures forall k :: 0 <= k < |Details(data)| ==> Details(data)[k].index <= WorstBand(data)
    ensures Details(data) == [] <==> WorstBand(data) == 0
    ensures Details(data) == [] <==> Indices(data) == map[]
    ensures Details(data) != [] ==> exists k :: 0 <= k < |Details(data)| && Details(data)[k].index == WorstBand(data)
  {
    WorstBounds(data);
    NoDetailsIffUnindexed(data);
    WorstAttained(data);
  }

  lemma {:induction false} WorstBounds(data: seq<(string, real)>)
    ensures forall k :: 0 <= k < |Details(data)| ==> Details(data)[k].index <= WorstBand(data)
  {
    if data != [] {
      WorstBounds(data[1..]);
      var (p, v) := data[0];
      var ds, rest := Details(data), Details(data[1..]);
      match Band(p, v)
      case Some(i) =>
        assert ds == [Detail(DisplayName(p), v, i, BandName(i), Assessment(i))] + rest;
        forall k | 0 <= k < |ds| ensures ds[k].index <= WorstBand(data) {
          if k > 0 {
            assert ds[k] == rest[k - 1];
          }
        }
      case None =>
    }
  }

  lemma {:induction false} NoDetailsIffUnindexed(data: seq<(string, real)>)
    ensures Details(data) == [] <==> WorstBand(data) == 0
    ensures Details(data) == [] <==> Indices(data) == map[]
  {
    if data != [] {
      NoDetailsIffUnindexed(data[1..]);
      var (p, v) := data[0];
      BandExactlyOne(p, v, 0);
      match Band(p, v)
      case Some(i) =>
        assert p in Indices(data);
      case None =>
    }
  }

  lemma {:induction false} WorstAttained(data: seq<(string, real)>)
    ensures Details(data) != [] ==> exists k :: 0 <= k < |Details(data)| && Details(data)[k].index == WorstBand(data)
  {
    if data != [] {
      WorstAttained(data[1..]);
      NoDetailsIffUnindexed(data[1..]);
      var (p, v) := data[0];
      BandExactlyOne(p, v, 0);
      var ds, rest := Details(data), Details(data[1..]);
      match Band(p, v)
      case Some(i) =>
        assert ds == [Detail(DisplayName(p), v, i, BandName(i), Assessment(i))] + rest;
        if i < WorstBand(data[1..]) {
          var k :| 0 <= k < |rest| && rest[k].index == WorstBand(data[1..]);
          assert ds[k + 1] == rest[k];
        } else {
          assert ds[0].index == WorstBand(data);
        }
      case None =>
    }
  }

  /** The details keep input order: analysing two runs of items one after
      the other describes the first run's pollutants, then the second's. */
  lemma {:induction false} DetailsAppend(a: seq<(string, real)>, b: seq<(string, real)>)
    ensures Details(a + b) == Details(a) + Details(b)
  {
    if a != [] {
      assert (a + b)[0] == a[0];
      assert (a + b)[1..] == a[1..] + b;
      DetailsAppend(a[1..], b);
      match Band(a[0].0, a[0].1)
      case Some(i) =>
        var d := Detail(DisplayName(a[0].0), a[0].1, i, BandName(i), Assessment(i));
        assert Details(a + b) == [d] + Details(a[1..] + b);
        assert Details(a) == [d] + Details(a[1..]);
        assert [d] + (Details(a[1..]) + Details(b)) == ([d] + Details(a[1..])) + Details(b);
      case None =>
        assert Details(a + b) == Details(a[1..] + b);
        assert Details(a) == Details(a[1..]);
    } else {
      assert a + b == b;
    }
  }

  /** One item is described exactly when it is indexed, under its display
      name, its band's name and its band's verdict. */
  lemma DetailOfItem(p: string, v: real)
    ensures Details([(p, v)]) == if p in Tracked && v >= 0.0 then
      var i := Band(p, v).value;
      [Detail(DisplayName(p), v, i, BandName(i), Assessment(i))]
    else []
  {
    BandExactlyOne(p, v, 0);
    assert [(p, v)][1..] == [];
  }

  /** The verdict is "в норме" exactly for band 1, and distinct bands get
      distinct verdicts and names. */
  lemma VerdictsDistinct(i: nat, j: nat)
    requires 1 <= i <= 5 && 1 <= j <= 5
    ensures Assessment(i) == "в норме" <==> i == 1
    ensures Assessment(i) == Assessment(j) <==> i == j
    ensures BandName(i) == BandName(j) <==> i == j
  {
  }

  /** The air is rated "Хорошее" exactly when no item reaches band 2 or
      above. */
  lemma {:induction false} GoodAirIff(data: seq<(string, real)>)
    ensures Analyze(data).overallIndex == 1
        <==> forall k :: 0 <= k < |data| ==> Band(data[k].0, data[k].1) in {None, Some(1)}
  {
    WorstAtMostOne(data);
  }

  lemma {:induction false} WorstAtMostOne(data: seq<(string, real)>)
    ensures WorstBand(data) <= 1 <==> forall k :: 0 <= k < |data| ==> Band(data[k].0, data[k].1) in {None, Some(1)}
  {
    if data != [] {
      WorstAtMostOne(data[1..]);
      BandExactlyOne(data[0].0, data[0].1, 0);
      if forall k :: 1 <= k < |data| ==> Band(data[k].0, data[k].1) in {None, Some(1)} {
        assert forall k :: 0 <= k < |data[1..]| ==> Band(data[1..][k].0, data[1..][k].1) in {None, Some(1)};
      } else {
        var k :| 1 <= k < |data| && Band(data[k].0, data[k].1) !in {None, Some(1)};
        assert data[1..][k - 1] == data[k];
      }
    }
  }

  /** The documented sample: every value lies in band 1 or is not
      indexed, so the air is "Хорошее". */
  lemma SampleAnalysis()
    ensures var a := Analyze([("co", 225.83), ("no", 3.72), ("no2", 8.06), ("o3", 44.71),
                              ("so2", 1.24), ("pm2_5", 8.08), ("pm10", 8.39), ("nh3", 0.37)]);
            a.overallIndex == 1 && a.overallStatus == "Хорошее"
  {
    var data := [("co", 225.83), ("no", 3.72), ("no2", 8.06), ("o3", 44.71),
                 ("so2", 1.24), ("pm2_5", 8.08), ("pm10", 8.39), ("nh3", 0.37)];
    assert Band("co", 225.83) == Some(1);
    assert Band("no", 3.72) == None;
    assert Band("no2", 8.06) == Some(1);
    assert Band("o3", 44.71) == Some(1);
    assert Band("so2", 1.24) == Some(1);
    assert Band("pm2_5", 8.08) == Some(1);
    assert Band("pm10", 8.39) == Some(1);
    assert Band("nh3", 0.37) == None;
    GoodAirIff(data);
  }
}
