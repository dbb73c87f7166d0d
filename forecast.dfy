/** `parse_forecast_data` of bot.py: the three-hourly forecast items are
    grouped by calendar day, and the earliest five days are summarised.
    The calendar is a parameter: `dayOf(dt)` is the day an item's
    timestamp falls on, numbered so that later days get larger numbers
    (the `%Y-%m-%d` key, which sorts the same way), and `dateLabel(dt)` is the
    `%d.%m (%a)` text shown for a day, taken from its first item. */
module Forecast {
  /** The fields of one forecast item the summary reads:
      `dt`, `main.temp`, `weather[0].description`, `main.humidity` and
      `wind.speed`. */
  datatype Item = Item(dt: int, temp: real, description: string, humidity: int, wind: real)

  /** One day of the result. */
  datatype Day = Day(date: string, tempMin: real, tempMax: real, description: string,
                     humidityAvg: int, windAvg: real, items: seq<Item>)

  /** The days the items fall on. */
  function DayKeys(items: seq<Item>, dayOf: int -> int): set<int> {
    set i | 0 <= i < |items| :: dayOf(items[i].dt)
  }

  /** The items of day `k`, in input order. */
  function OfDay(items: seq<Item>, dayOf: int -> int, k: int): seq<Item> {
    if items == [] then []
    else
      var last := items[|items| - 1];
      OfDay(items[..|items| - 1], dayOf, k) + (if dayOf(last.dt) == k then [last] else [])
  }

  /** A day's items are exactly the input items falling on it. */
  lemma {:induction false} OfDayMembers(items: seq<Item>, dayOf: int -> int, k: int, x: Item)
    ensures x in OfDay(items, dayOf, k) <==> x in items && dayOf(x.dt) == k
  {
    if items != [] {
      var init := items[..|items| - 1];
      OfDayMembers(init, dayOf, k, x);
      assert items == init + [items[|items| - 1]];
    }
  }

  /** Adding an item adds its day. */
  lemma DayKeysSnoc(items: seq<Item>, dayOf: int -> int)
    requires items != []
    ensures DayKeys(items, dayOf) == DayKeys(items[..|items| - 1], dayOf) + {dayOf(items[|items| - 1].dt)}
  {
    var init := items[..|items| - 1];
    forall d | d in DayKeys(items, dayOf) ensures d in DayKeys(init, dayOf) + {dayOf(items[|items| - 1].dt)} {
      var i :| 0 <= i < |items| && dayOf(items[i].dt) == d;
      if i < |init| {
        assert init[i] == items[i];
      }
    }
    forall d | d in DayKeys(init, dayOf) ensures d in DayKeys(items, dayOf) {
      var i :| 0 <= i < |init| && dayOf(init[i].dt) == d;
      assert items[i] == init[i];
    }
  }

  /** A day has items exactly when some input item falls on it. */
  lemma {:induction false} OfDayNonEmpty(items: seq<Item>, dayOf: int -> int, k: int)
    ensures OfDay(items, dayOf, k) != [] <==> k in DayKeys(items, dayOf)
  {
    if items != [] {
      OfDayNonEmpty(items[..|items| - 1], dayOf, k);
      DayKeysSnoc(items, dayOf);
    }
  }

  // ---------------------------------------------------------------------
  // The order of the days
  // ---------------------------------------------------------------------

  predicate Distinct(s: seq<int>) {
    forall i, j :: 0 <= i < j < |s| ==> s[i] != s[j]
  }

  predicate Ascending(s: seq<int>) {
    forall i, j :: 0 <= i < j < |s| ==> s[i] < s[j]
  }

  /** The keys of `daily_forecasts` in the order the dict holds them: each
      day where its first item comes. */
  function DayOrder(items: seq<Item>, dayOf: int -> int): (r: seq<int>)
    ensures Distinct(r)
  {
    if items == [] then []
    else
      var init := DayOrder(items[..|items| - 1], dayOf);
      var d := dayOf(items[|items| - 1].dt);
      if d in init then init else init + [d]
  }

  /** The dict holds every day of the items. */
  lemma {:induction false} DayOrderMembers(items: seq<Item>, dayOf: int -> int)
    ensures forall d :: d in DayOrder(items, dayOf) <==> d in DayKeys(items, dayOf)
  {
    if items != [] {
      DayOrderMembers(items[..|items| - 1], dayOf);
      DayKeysSnoc(items, dayOf);
    }
  }

  /** The dict holds each day once. */
  lemma {:induction false} DayOrderKeys(items: seq<Item>, dayOf: int -> int)
    ensures forall d :: d in DayOrder(items, dayOf) <==> d in DayKeys(items, dayOf)
    ensures |DayOrder(items, dayOf)| == |DayKeys(items, dayOf)|
  {
    DayOrderMembers(items, dayOf);
    if items == [] {
      assert DayKeys(items, dayOf) == {};
    } else {
      var init := items[..|items| - 1];
      var d := dayOf(items[|items| - 1].dt);
      DayOrderKeys(init, dayOf);
      DayKeysSnoc(items, dayOf);
      if d in DayKeys(init, dayOf) {
        assert DayKeys(items, dayOf) == DayKeys(init, dayOf);
      } else {
        assert |DayKeys(items, dayOf)| == |DayKeys(init, dayOf)| + 1;
      }
    }
  }

  /** `x` put into its place in an ascending sequence. */
  function Insert(x: int, s: seq<int>): (r: seq<int>)
    requires Ascending(s) && x !in s
    ensures Ascending(r) && |r| == |s| + 1
    ensures forall y :: y in r <==> y == x || y in s
  {
    if s == [] || x < s[0] then [x] + s
    else
      assert Ascending(s[1..]);
      var rest := Insert(x, s[1..]);
      assert forall y :: y in s <==> y == s[0] || y in s[1..];
      assert forall i :: 0 <= i < |rest| ==> s[0] < rest[i] by {
        forall i | 0 <= i < |rest| ensures s[0] < rest[i] {
          assert rest[i] in rest;
          if rest[i] != x {
            var j :| 0 <= j < |s[1..]| && s[1..][j] == rest[i];
            assert s[j + 1] == rest[i];
          }
        }
      }
      [s[0]] + rest
  }

  /** `sorted(keys)` for distinct keys: an insertion sort. */
  function Sort(s: seq<int>): (r: seq<int>)
    requires Distinct(s)
    ensures Ascending(r) && |r| == |s|
    ensures forall y :: y in r <==> y in s
  {
    if s == [] then []
    else
      assert Distinct(s[1..]);
      assert forall y :: y in s <==> y == s[0] || y in s[1..];
      Insert(s[0], Sort(s[1..]))
  }

  /** `sorted(daily_forecasts.keys())[:5]`. */
  function ShownDays(items: seq<Item>, dayOf: int -> int): seq<int> {
    var sorted := Sort(DayOrder(items, dayOf));
    if |sorted| <= 5 then sorted else sorted[..5]
  }

  /** The days shown: as many as there are up to five, in ascending order,
      each a day of the items, and none left out earlier than one shown. */
  lemma ShownDaysOrder(items: seq<Item>, dayOf: int -> int)
    ensures var keys := ShownDays(items, dayOf);
      var s := DayKeys(items, dayOf);
      && |keys| == (if |s| < 5 then |s| else 5)
      && Ascending(keys)
      && (forall k :: k in keys ==> k in s)
      && (forall k, x :: k in keys && x in s && x !in keys ==> k < x)
  {
    DayOrderKeys(items, dayOf);
    var sorted := Sort(DayOrder(items, dayOf));
    var keys := ShownDays(items, dayOf);
    assert keys == sorted[..|keys|];
    forall k, x | k in keys && x in DayKeys(items, dayOf) && x !in keys ensures k < x {
      var i :| 0 <= i < |keys| && keys[i] == k;
      var j :| 0 <= j < |sorted| && sorted[j] == x;
      assert forall m :: 0 <= m < |keys| ==> keys[m] == sorted[m];
    }
  }

  // ---------------------------------------------------------------------
  // The summary of one day
  // ---------------------------------------------------------------------

  /** `min(temps)`. */
  function MinTemp(items: seq<Item>): (t: real)
    requires items != []
    ensures (exists i :: 0 <= i < |items| && items[i].temp == t)
    ensures forall i :: 0 <= i < |items| ==> t <= items[i].temp
  {
    if |items| == 1 then items[0].temp
    else
      var r := MinTemp(items[1..]);
      assert forall i :: 1 <= i < |items| ==> items[i] == items[1..][i - 1];
      if items[0].temp <= r then items[0].temp else r
  }

  /** `max(temps)`. */
  function MaxTemp(items: seq<Item>): (t: real)
    requires items != []
    ensures (exists i :: 0 <= i < |items| && items[i].temp == t)
    ensures forall i :: 0 <= i < |items| ==> items[i].temp <= t
  {
    if |items| == 1 then items[0].temp
    else
      var r := MaxTemp(items[1..]);
      assert forall i :: 1 <= i < |items| ==> items[i] == items[1..][i - 1];
      if items[0].temp >= r then items[0].temp else r
  }

  /** How many items carry description `d`. */
  function Count(items: seq<Item>, d: string): nat {
    if items == [] then 0 else (if items[0].description == d then 1 else 0) + Count(items[1..], d)
  }

  /** A description among `cands` that no other candidate outnumbers in `items`. */
  function MostFrequentOf(cands: seq<Item>, items: seq<Item>): (d: string)
    requires cands != []
    ensures exists i :: 0 <= i < |cands| && cands[i].description == d
    ensures forall i :: 0 <= i < |cands| ==> Count(items, cands[i].description) <= Count(items, d)
  {
    if |cands| == 1 then cands[0].description
    else
      var r := MostFrequentOf(cands[1..], items);
      assert forall i :: 1 <= i < |cands| ==> cands[i] == cands[1..][i - 1];
      if Count(items, cands[0].description) >= Count(items, r) then cands[0].description else r
  }

  function SumHumidity(items: seq<Item>): int {
    if items == [] then 0 else items[0].humidity + SumHumidity(items[1..])
  }

  function SumWind(items: seq<Item>): real {
    if items == [] then 0.0 else items[0].wind + SumWind(items[1..])
  }

  /** The dict `parse_forecast_data` appends for one day. */
  function Summarize(items: seq<Item>, dateLabel: int -> string): (d: Day)
    requires items != []
    ensures d.tempMin <= d.tempMax
    ensures d.humidityAvg == FloorMean(SumHumidity(items), |items|)
    ensures d.windAvg == Mean(SumWind(items), |items|)
    ensures forall i :: 0 <= i < |items| ==> Count(items, items[i].description) <= Count(items, d.description)
    ensures d.items == items && d.date == dateLabel(items[0].dt)
  {
    Day(dateLabel(items[0].dt), MinTemp(items), MaxTemp(items), MostFrequentOf(items, items),
        FloorMean(SumHumidity(items), |items|), Mean(SumWind(items), |items|), items)
  }

  /** `total // n`: the quotient Python's floor division gives. */
  function FloorMean(total: int, n: nat): (q: int)
    requires n > 0
    ensures q * n <= total < (q + 1) * n
  {
    total / n
  }

  /** `total / n` on floats, exact here. */
  function Mean(total: real, n: nat): (q: real)
    requires n > 0
    ensures q * n as real == total
  {
    total / n as real
  }

  // ---------------------------------------------------------------------
  // parse_forecast_data
  // ---------------------------------------------------------------------

  lemma {:induction false} GroupStep(items: seq<Item>, dayOf: int -> int, i: nat, k: int)
    requires i < |items|
    ensures OfDay(items[..i + 1], dayOf, k)
         == OfDay(items[..i], dayOf, k) + (if dayOf(items[i].dt) == k then [items[i]] else [])
    ensures DayOrder(items[..i + 1], dayOf)
         == var order := DayOrder(items[..i], dayOf);
            if dayOf(items[i].dt) in order then order else order + [dayOf(items[i].dt)]
  {
    var pre := items[..i + 1];
    assert pre[..|pre| - 1] == items[..i] && pre[|pre| - 1] == items[i];
  }

  /** `parse_forecast_data(forecast_data)` for the items of
      `forecast_data['list']`: the items are grouped by day in a dict, and
      the first five days in sorted order are summarised. */
  method ParseForecastData(items: seq<Item>, dayOf: int -> int, dateLabel: int -> string) returns (days: seq<Day>)
    ensures var keys := ShownDays(items, dayOf);
      |days| == |keys|
      && forall j :: 0 <= j < |days| ==>
           OfDay(items, dayOf, keys[j]) != [] && days[j] == Summarize(OfDay(items, dayOf, keys[j]), dateLabel)
  {
    var order, groups := GroupByDay(items, dayOf);
    var sorted := Sort(order);
    var keys := if |sorted| <= 5 then sorted else sorted[..5];
    assert keys == ShownDays(items, dayOf);
    ShownDaysNonEmpty(items, dayOf);
    assert forall m :: 0 <= m < |keys| ==> keys[m] in sorted;
    days := SummarizeDays(groups, keys, dateLabel);
  }

  /** The second loop of `parse_forecast_data`: one summary per shown day. */
  method SummarizeDays(groups: map<int, seq<Item>>, keys: seq<int>, dateLabel: int -> string) returns (days: seq<Day>)
    requires forall m :: 0 <= m < |keys| ==> keys[m] in groups && groups[keys[m]] != []
    ensures |days| == |keys|
    ensures forall m :: 0 <= m < |keys| ==> days[m] == Summarize(groups[keys[m]], dateLabel)
  {
    days := [];
    for j := 0 to |keys|
      invariant |days| == j
      invariant forall m :: 0 <= m < j ==> days[m] == Summarize(groups[keys[m]], dateLabel)
    {
      days := days + [Summarize(groups[keys[j]], dateLabel)];
    }
  }

  /** The first loop of `parse_forecast_data`: `daily_forecasts`, its keys
      in insertion order and each day's items. */
  method GroupByDay(items: seq<Item>, dayOf: int -> int) returns (order: seq<int>, groups: map<int, seq<Item>>)
    ensures order == DayOrder(items, dayOf)
    ensures forall k :: k in groups <==> k in order
    ensures forall k :: k in groups ==> groups[k] == OfDay(items, dayOf, k)
  {
    order := [];
    groups := map[];
    var i := 0;
    while i < |items|
      invariant 0 <= i <= |items|
      invariant order == DayOrder(items[..i], dayOf)
      invariant forall k :: k in groups <==> k in order
      invariant forall k :: k in groups ==> groups[k] == OfDay(items[..i], dayOf, k)
    {
      var k := dayOf(items[i].dt);
      if k !in groups {
        DayOrderKeys(items[..i], dayOf);
        OfDayNonEmpty(items[..i], dayOf, k);
        order := order + [k];
        groups := groups[k := [items[i]]];
      } else {
        groups := groups[k := groups[k] + [items[i]]];
      }
      forall k' ensures OfDay(items[..i + 1], dayOf, k')
          == OfDay(items[..i], dayOf, k') + (if dayOf(items[i].dt) == k' then [items[i]] else []) {
        GroupStep(items, dayOf, i, k');
      }
      GroupStep(items, dayOf, i, k);
      i := i + 1;
    }
    assert items[..i] == items;
  }

  /** Every day shown has items. */
  lemma ShownDaysNonEmpty(items: seq<Item>, dayOf: int -> int)
    ensures var keys := ShownDays(items, dayOf);
      forall j :: 0 <= j < |keys| ==> OfDay(items, dayOf, keys[j]) != []
  {
    var keys := ShownDays(items, dayOf);
    ShownDaysOrder(items, dayOf);
    forall j | 0 <= j < |keys| ensures OfDay(items, dayOf, keys[j]) != [] {
      assert keys[j] in keys;
      OfDayNonEmpty(items, dayOf, keys[j]);
    }
  }

  /** Each day shown holds exactly the input items falling on it. */
  lemma ShownDaysContents(items: seq<Item>, dayOf: int -> int, j: nat, x: Item)
    requires j < |ShownDays(items, dayOf)|
    ensures var k := ShownDays(items, dayOf)[j];
      x in OfDay(items, dayOf, k) <==> x in items && dayOf(x.dt) == k
  {
    OfDayMembers(items, dayOf, ShownDays(items, dayOf)[j], x);
  }
}
