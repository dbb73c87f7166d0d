/** The callback-data codec of bot.py. Keyboards carry the point they were
    built for as `prefix|lat|lon`; the handlers split on `|` to get it
    back, and a day button starts with `day_<i>`. A coordinate is carried
    as the text Python's `str` gives the float; the model takes that text
    as given. */
module Callbacks {
  import opened Wrappers
  import opened Text

  /** Coordinate text as `f"{lat}"` writes it: never empty, never holding
      the field separator. */
  predicate CoordText(t: string) { t != "" && '|' !in t }

  /** `coords = f"{lat}|{lon}" if lat is not None and lon is not None else None`. */
  function Coords(lat: Option<string>, lon: Option<string>): Option<string> {
    if lat.Some? && lon.Some? then Some(lat.value + "|" + lon.value) else None
  }

  /** `f"{prefix}|{coords}" if coords else prefix`. */
  function WithCoords(prefix: string, coords: Option<string>): string {
    if coords.Some? && coords.value != "" then prefix + "|" + coords.value else prefix
  }

  /** The callback data of `get_weather_actions_menu(lat, lon)`, button by button. */
  function ActionsMenu(lat: Option<string>, lon: Option<string>): seq<string> {
    var coords := Coords(lat, lon);
    [WithCoords("extended_data", coords), WithCoords("forecast_5days", coords), "back_to_menu"]
  }

  /** The callback data of `get_forecast_keyboard(days_data, lat, lon)` for
      `days` days: one `day_<i>` button per day, then back and main menu. */
  function ForecastKeyboard(days: nat, lat: Option<string>, lon: Option<string>): (kb: seq<string>)
    ensures |kb| == days + 2
  {
    var coords := Coords(lat, lon);
    seq(days, i requires 0 <= i < days => WithCoords(DayLabel(i), coords))
      + [WithCoords("back_to_weather", coords), "back_to_menu"]
  }

  /** `f"day_{i}"`. */
  function DayLabel(i: nat): (s: string)
    ensures '|' !in s
  {
    var d := NatToString(i);
    assert forall k :: 0 <= k < |d| ==> IsDigit(d[k]);
    "day_" + d
  }

  /** The callback data of `get_back_button(lat, lon)`. */
  function BackButton(lat: Option<string>, lon: Option<string>): seq<string> {
    [WithCoords("forecast_5days", Coords(lat, lon)), "back_to_menu"]
  }

  /** The handlers' parse: split on `|`, and with at least three parts take
      the second and third as latitude and longitude; both must be
      non-empty to be used. */
  function CallbackCoords(data: string): (r: Option<(string, string)>)
    ensures r.Some? ==> r.value.0 != "" && r.value.1 != ""
    ensures '|' !in data ==> r.None?
  {
    var parts := Split(data, '|');
    if '|' !in data then None
    else if |parts| >= 3 && parts[1] != "" && parts[2] != "" then Some((parts[1], parts[2]))
    else None
  }

  /** `int(callback.data.split("|")[0].split("_")[1])`; `None` where Python
      raises. */
  function DayIndex(data: string): Option<int> {
    var pieces := Split(Split(data, '|')[0], '_');
    if |pieces| < 2 then None else ParseInt(pieces[1])
  }

  /** Where a location-using handler takes its point from. */
  datatype Source = FromCallback(lat: string, lon: string) | FromSaved | NotFound

  /** `if lat_param and lon_param: ... elif <saved location>: ... else: <not found>`. */
  function Resolve(data: string, hasSaved: bool): (s: Source)
    ensures s.FromCallback? <==> CallbackCoords(data).Some?
  {
    match CallbackCoords(data)
    case Some((lat, lon)) => FromCallback(lat, lon)
    case None => if hasSaved then FromSaved else NotFound
  }

  lemma {:induction false} SplitThree(a: string, b: string, c: string, sep: char)
    requires sep !in a && sep !in b && sep !in c
    ensures Split(a + [sep] + b + [sep] + c, sep) == [a, b, c]
  {
    assert a + [sep] + b + [sep] + c == a + [sep] + (b + [sep] + c);
    SplitFirst(a, b + [sep] + c, sep);
    SplitFirst(b, c, sep);
    SplitNoSeparator(c, sep);
  }

  /** A button built with a point gives that point back to the handler,
      whatever the prefix. */
  lemma CoordsRoundTrip(prefix: string, lat: string, lon: string)
    requires '|' !in prefix && CoordText(lat) && CoordText(lon)
    ensures CallbackCoords(WithCoords(prefix, Coords(Some(lat), Some(lon)))) == Some((lat, lon))
  {
    var data := WithCoords(prefix, Coords(Some(lat), Some(lon)));
    assert data == prefix + "|" + lat + "|" + lon;
    assert data[|prefix|] == '|';
    SplitThree(prefix, lat, lon, '|');
  }

  /** A button built without a point carries none, and the handler falls
      back to the saved location or gives up. */
  lemma NoCoordsRoundTrip(prefix: string, lat: Option<string>, lon: Option<string>, hasSaved: bool)
    requires '|' !in prefix && (lat.None? || lon.None?)
    ensures CallbackCoords(WithCoords(prefix, Coords(lat, lon))).None?
    ensures Resolve(WithCoords(prefix, Coords(lat, lon)), hasSaved) == if hasSaved then FromSaved else NotFound
  {
  }

  lemma NatTextHasNoSeparators(i: nat)
    ensures '|' !in NatToString(i) && '_' !in NatToString(i)
  {
    var s := NatToString(i);
    assert forall k :: 0 <= k < |s| ==> IsDigit(s[k]);
  }

  /** The day buttons name their day, with or without a point attached. */
  lemma DayRoundTrip(i: nat, coords: Option<string>)
    ensures DayIndex(WithCoords(DayLabel(i), coords)) == Some(i)
  {
    var d := NatToString(i);
    NatTextHasNoSeparators(i);
    var day := DayLabel(i);
    assert day == "day" + ['_'] + d;
    var data := WithCoords(day, coords);
    if coords.Some? && coords.value != "" {
      assert data == day + ['|'] + coords.value;
      SplitFirst(day, coords.value, '|');
    } else {
      SplitNoSeparator(day, '|');
    }
    SplitFirst("day", d, '_');
    SplitNoSeparator(d, '_');
    IntRoundTrip(i);
  }

  /** One button of the forecast keyboard built for a point: it hands the
      point back, and a day button its day. */
  lemma ForecastButtonRoundTrip(days: nat, lat: string, lon: string, i: nat)
    requires CoordText(lat) && CoordText(lon) && i <= days
    ensures CallbackCoords(ForecastKeyboard(days, Some(lat), Some(lon))[i]) == Some((lat, lon))
    ensures i < days ==> DayIndex(ForecastKeyboard(days, Some(lat), Some(lon))[i]) == Some(i)
  {
    var c := Coords(Some(lat), Some(lon));
    var kb := ForecastKeyboard(days, Some(lat), Some(lon));
    if i < days {
      assert kb[i] == WithCoords(DayLabel(i), c);
      CoordsRoundTrip(DayLabel(i), lat, lon);
      DayRoundTrip(i, c);
    } else {
      assert kb[i] == WithCoords("back_to_weather", c);
      CoordsRoundTrip("back_to_weather", lat, lon);
    }
  }

  /** Every button of the three keyboards, built for a point, hands that
      point back; every day button also hands back its day. */
  lemma KeyboardsRoundTrip(days: nat, lat: string, lon: string)
    requires CoordText(lat) && CoordText(lon)
    ensures forall k :: 0 <= k < 2 ==> CallbackCoords(ActionsMenu(Some(lat), Some(lon))[k]) == Some((lat, lon))
    ensures CallbackCoords(BackButton(Some(lat), Some(lon))[0]) == Some((lat, lon))
    ensures forall i :: 0 <= i <= days ==> CallbackCoords(ForecastKeyboard(days, Some(lat), Some(lon))[i]) == Some((lat, lon))
    ensures forall i :: 0 <= i < days ==> DayIndex(ForecastKeyboard(days, Some(lat), Some(lon))[i]) == Some(i)
  {
    CoordsRoundTrip("extended_data", lat, lon);
    CoordsRoundTrip("forecast_5days", lat, lon);
    forall i | 0 <= i <= days
      ensures CallbackCoords(ForecastKeyboard(days, Some(lat), Some(lon))[i]) == Some((lat, lon))
      ensures i < days ==> DayIndex(ForecastKeyboard(days, Some(lat), Some(lon))[i]) == Some(i)
    {
      ForecastButtonRoundTrip(days, lat, lon, i);
    }
  }

  // ---------------------------------------------------------------------
  // The keyboard the five-day forecast handler attaches
  // ---------------------------------------------------------------------

  /** The keyboard as `forecast_5days_callback` builds it:
      `get_forecast_keyboard(days_data, city_name)`, the city name landing
      in the `lat` slot and `lon` left unset. */
  function ForecastReplyAsWritten(days: nat, lat: string, lon: string, cityName: Option<string>): seq<string> {
    ForecastKeyboard(days, cityName, None)
  }

  /** The keyboard with the point the forecast was fetched for. */
  function ForecastReply(days: nat, lat: string, lon: string, cityName: Option<string>): seq<string> {
    ForecastKeyboard(days, Some(lat), Some(lon))
  }

  /** As written, no button under a forecast carries a point: a day or
      back tap from a user with no saved location (a forecast opened from
      an inline result) ends in "not found". */
  lemma ForecastReplyLosesPoint(days: nat, lat: string, lon: string, cityName: Option<string>, i: nat)
    requires i <= days
    ensures Resolve(ForecastReplyAsWritten(days, lat, lon, cityName)[i], false) == NotFound
  {
    var kb := ForecastReplyAsWritten(days, lat, lon, cityName);
    assert Coords(cityName, None) == None;
    var data := if i < days then DayLabel(i) else "back_to_weather";
    assert kb[i] == data;
    assert '|' !in data;
    assert CallbackCoords(data) == None;
  }

  /** With the point passed, every day and back tap reaches the point the
      forecast was shown for, saved location or not. */
  lemma ForecastReplyKeepsPoint(days: nat, lat: string, lon: string, cityName: Option<string>, i: nat, hasSaved: bool)
    requires CoordText(lat) && CoordText(lon) && i <= days
    ensures Resolve(ForecastReply(days, lat, lon, cityName)[i], hasSaved) == FromCallback(lat, lon)
    ensures i < days ==> DayIndex(ForecastReply(days, lat, lon, cityName)[i]) == Some(i)
  {
    ForecastButtonRoundTrip(days, lat, lon, i);
  }
}
