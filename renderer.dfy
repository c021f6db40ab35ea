/** The forecast renderer (renderer.py): which glyph, texts and reading end
    up on the display for a decoded OpenWeatherMap "one call" document. The
    drawing itself is not modelled: an image is the list of what would be
    drawn on it. */
module Renderer {
  import opened Py
  import opened Clock

  /** What is pushed to the display: a forecast with its icon glyph, clock
      text, main text, temperature reading as fetched and description, or
      the screensaver's star field. */
  datatype Image =
    | Forecast(icon: string, time: string, main: Json, temp: int, description: string)
    | Stars

  // ---------------------------------------------------------------------------
  // ICON_MAP

  /** OpenWeatherMap icon code to Meteocons glyph. */
  const IconMap: map<string, string> := map[
    "01d" := "B", "01n" := "C",
    "02d" := "H", "02n" := "I",
    "03d" := "N", "03n" := "N",
    "04d" := "Y", "04n" := "Y",
    "09d" := "Q", "09n" := "Q",
    "10d" := "R", "10n" := "R",
    "11d" := "Z", "11n" := "Z",
    "13d" := "W", "13n" := "W",
    "50d" := "J", "50n" := "K"
  ]

  /** The condition numbers OpenWeatherMap uses in icon codes. */
  const ConditionNumbers: seq<string> := ["01", "02", "03", "04", "09", "10", "11", "13", "50"]

  /** An icon code is a condition number followed by `d` (day) or `n` (night). */
  predicate IsIconCode(code: string)
  {
    |code| == 3 && [code[0], code[1]] in ConditionNumbers && (code[2] == 'd' || code[2] == 'n')
  }

  /** The eighteen codes the map defines. */
  lemma IconMapKeys()
    ensures IconMap.Keys == {"01d", "01n", "02d", "02n", "03d", "03n", "04d", "04n", "09d", "09n", "10d", "10n", "11d", "11n", "13d", "13n", "50d", "50n"}
  {
  }

  /** The map is defined for exactly the icon codes: a condition number
      followed by `d` or `n`. Looking up anything else fails. */
  lemma IconMapDomain(code: string)
    ensures code in IconMap <==> IsIconCode(code)
  {
    if code in IconMap {
      KeysAreIconCodes(code);
    }
    if IsIconCode(code) {
      IconCodesAreKeys(code);
    }
  }

  lemma KeysAreIconCodes(code: string)
    requires code in IconMap
    ensures IsIconCode(code)
  {
    if code[..2] == "01" {
    } else if code[..2] == "02" {
    } else if code[..2] == "03" {
    } else if code[..2] == "04" {
    } else if code[..2] == "09" {
    } else if code[..2] == "10" {
    } else if code[..2] == "11" {
    } else if code[..2] == "13" {
    } else {
      assert code == "50d" || code == "50n";
    }
  }

  lemma IconCodesAreKeys(code: string)
    requires IsIconCode(code)
    ensures code in IconMap
  {
    IconMapKeys();
    assert code == [code[0], code[1], code[2]];
  }

  /** Every glyph is a single character; the day and night variants of 03,
      04, 09, 10, 11 and 13 share a glyph, those of 01, 02 and 50 differ. */
  lemma IconGlyphs()
    ensures forall code :: code in IconMap ==> |IconMap[code]| == 1
    ensures IconMap["03d"] == IconMap["03n"] && IconMap["04d"] == IconMap["04n"]
    ensures IconMap["09d"] == IconMap["09n"] && IconMap["10d"] == IconMap["10n"]
    ensures IconMap["11d"] == IconMap["11n"] && IconMap["13d"] == IconMap["13n"]
    ensures IconMap["01d"] != IconMap["01n"] && IconMap["02d"] != IconMap["02n"]
    ensures IconMap["50d"] != IconMap["50n"]
  {
  }

  /** `ICON_MAP[icon]` for a decoded JSON value: strings are looked up,
      other hashable values are never keys, lists and dicts are unhashable. */
  function Glyph(icon: Json): (r: Result<string>)
    ensures r.Ok? <==> icon.JStr? && icon.s in IconMap
    ensures r.Ok? ==> r.value == IconMap[icon.s] && |r.value| == 1
    ensures icon.JStr? && icon.s !in IconMap ==> r == Err(KeyError(icon.s))
  {
    IconGlyphs();
    match icon
    case JStr(s) => if s in IconMap then Ok(IconMap[s]) else Err(KeyError(s))
    case JNum(n) => Err(KeyError(IntToString(n)))
    case JBool(b) => Err(KeyError(if b then "True" else "False"))
    case JNull => Err(KeyError("None"))
    case _ => Err(TypeError)
  }

  // ---------------------------------------------------------------------------
  // Description and clock texts

  /** `description[0].upper() + description[1:]`. */
  function Capitalised(description: Json): (r: Result<string>)
    ensures r.Ok? <==> description.JStr? && description.s != []
    ensures r.Ok? ==>
              && |r.value| == |description.s|
              && r.value[0] == Upper(description.s[0])
              && r.value[1..] == description.s[1..]
    ensures description == JStr([]) ==> r == Err(IndexError)
  {
    match description
    case JStr(s) => if s == [] then Err(IndexError) else Ok([Upper(s[0])] + s[1..])
    case JArr(items) =>
      if items == [] then Err(IndexError)
      // a str first element upper-cases, then `str + list` fails
      else if items[0].JStr? then Err(TypeError)
      else Err(AttributeError("upper"))
    case JObj(_) => Err(KeyError("0"))
    case _ => Err(TypeError)
  }

  /** The hour on a 12-hour clock face, as `%I` prints it. */
  function Hour12(h: nat): (r: nat)
    requires h < 24
    ensures 1 <= r <= 12 && r % 12 == h % 12
  {
    if h % 12 == 0 then 12 else h % 12
  }

  function AmPm(h: nat): string
  {
    if h < 12 then "AM" else "PM"
  }

  /** `now.strftime("%I:%M %p")`. */
  function Strftime(h: nat, m: nat): string
    requires h < 24 && m < 60
  {
    Pad2(Hour12(h)) + ":" + Pad2(m) + " " + AmPm(h)
  }

  /** `.lstrip("0").replace(" 0", " ")`. */
  function CleanTimeText(s: string): string
  {
    Replace(LStrip(s, '0'), " 0", " ")
  }

  /** The clock text the renderer draws at `now`. */
  function TimeText(now: Instant): string
  {
    CleanTimeText(Strftime(Hour(now), Minute(now)))
  }

  /** The cleanup removes exactly the leading zero of the hour: the result is
      the unpadded hour, the padded minutes and AM or PM, and it never starts
      with '0'. */
  lemma TimeTextShape(h: nat, m: nat)
    requires h < 24 && m < 60
    ensures CleanTimeText(Strftime(h, m)) == IntToString(Hour12(h)) + ":" + Pad2(m) + " " + AmPm(h)
    ensures CleanTimeText(Strftime(h, m))[0] != '0'
  {
    var d := IntToString(Hour12(h));
    var rest := ":" + Pad2(m) + " " + AmPm(h);
    StripHourZero(Hour12(h), rest);
    assert Strftime(h, m) == Pad2(Hour12(h)) + rest;
    assert d == Digits(Hour12(h));
    NoSpaceZero(d, Pad2(m), AmPm(h));
    assert d + rest == d + ":" + Pad2(m) + " " + AmPm(h);
    ReplaceAbsent(d + rest, " 0", " ");
  }

  /** `lstrip("0")` turns the zero-padded hour into the unpadded one. */
  lemma StripHourZero(h12: nat, rest: string)
    requires 1 <= h12 <= 12 && rest != [] && rest[0] == ':'
    ensures LStrip(Pad2(h12) + rest, '0') == IntToString(h12) + rest
    ensures IntToString(h12)[0] != '0'
  {
    var s := Pad2(h12) + rest;
    if h12 < 10 {
      assert s[1..] == [DigitChar(h12)] + rest;
      assert LStrip(s[1..], '0') == s[1..];
    } else {
      assert Digits(h12) == Digits(1) + [DigitChar(h12 % 10)];
    }
  }

  /** The text `H:MM AM` has no space followed by a zero. */
  lemma NoSpaceZero(d: string, mm: string, ap: string)
    requires forall i :: 0 <= i < |d| ==> '0' <= d[i] <= '9'
    requires |mm| == 2 && forall i :: 0 <= i < 2 ==> '0' <= mm[i] <= '9'
    requires ap == "AM" || ap == "PM"
    ensures forall i :: 0 <= i < |d + ":" + mm + " " + ap| ==> !OccursAt(d + ":" + mm + " " + ap, " 0", i)
  {
    var x := d + ":" + mm + " " + ap;
    forall i | 0 <= i < |x| - 1 ensures !(x[i] == ' ' && x[i + 1] == '0') {
      if i < |d| {
        assert x[i] == d[i];
      } else if i == |d| {
        assert x[i] == ':';
      } else if i < |d| + 3 {
        assert x[i] == mm[i - |d| - 1];
      } else {
        assert x[i + 1] == ap[i + 1 - |d| - 4];
      }
    }
    forall i | 0 <= i < |x| ensures !OccursAt(x, " 0", i) {
      if i + 2 <= |x| {
        assert x[i..i + 2] == [x[i], x[i + 1]];
      }
    }
  }

  /** "09:05 AM" loses its hour's zero. */
  lemma MorningTimeExample()
    ensures Strftime(9, 5) == "09:05 AM" && CleanTimeText("09:05 AM") == "9:05 AM"
  {
    MorningPrinted();
    MorningCleaned();
  }

  lemma MorningPrinted()
    ensures Strftime(9, 5) == "09:05 AM"
  {
    assert Pad2(9) == "09" && Pad2(5) == "05";
  }

  lemma MorningCleaned()
    ensures CleanTimeText("09:05 AM") == "9:05 AM"
  {
    MorningPrinted();
    TimeTextShape(9, 5);
    assert IntToString(9) == "9";
  }

  /** "12:05 PM" is left as it is. */
  lemma NoonTimeExample()
    ensures Strftime(12, 5) == "12:05 PM" && CleanTimeText(Strftime(12, 5)) == "12:05 PM"
  {
    assert Pad2(5) == "05" && Pad2(12) == "12";
    TimeTextShape(12, 5);
    assert Hour12(12) == 12 && AmPm(12) == "PM";
    assert IntToString(12) == "12" by { assert Digits(12) == Digits(1) + [DigitChar(2)]; }
  }

  // ---------------------------------------------------------------------------
  // Reading the document

  const IconPath: seq<Key> := [Name("daily"), Pos(0), Name("weather"), Pos(0), Name("icon")]
  const MainPath: seq<Key> := [Name("daily"), Pos(0), Name("weather"), Pos(0), Name("main")]
  const TempPath: seq<Key> := [Name("current"), Name("temp")]
  const DescriptionPath: seq<Key> := [Name("current"), Name("weather"), Pos(0), Name("description")]

  /** `ICON_MAP[weather["daily"][0]["weather"][0]["icon"]]`. */
  function IconOf(weather: Json): Result<string>
  {
    var icon :- Path(weather, IconPath);
    Glyph(icon)
  }

  /** `weather["daily"][0]["weather"][0]["main"]`. */
  function MainOf(weather: Json): Result<Json>
  {
    Path(weather, MainPath)
  }

  /** `weather["current"]["temp"]`, which must be a number (a bool counts as
      one in Python) for the arithmetic that converts it. */
  function TempOf(weather: Json): Result<int>
  {
    var t :- Path(weather, TempPath);
    match t
    case JNum(n) => Ok(n)
    case JBool(b) => Ok(if b then 1 else 0)
    case _ => Err(TypeError)
  }

  /** The capitalised `weather["current"]["weather"][0]["description"]`. */
  function DescriptionOf(weather: Json): Result<string>
  {
    var d :- Path(weather, DescriptionPath);
    Capitalised(d)
  }

  /** What `render` produces for a decoded document at `now`: the lookups in
      source order, the first exception winning. */
  function Draw(weather: Json, now: Instant): Result<Image>
  {
    var icon :- IconOf(weather);
    var main :- MainOf(weather);
    var temp :- TempOf(weather);
    var description :- DescriptionOf(weather);
    Ok(Forecast(icon, TimeText(now), main, temp, description))
  }

  /** `Draw` fails with the first failing lookup, in source order. */
  lemma DrawSteps(weather: Json, now: Instant)
    ensures IconOf(weather).Err? ==> Draw(weather, now) == Err(IconOf(weather).error)
    ensures IconOf(weather).Ok? && MainOf(weather).Err? ==> Draw(weather, now) == Err(MainOf(weather).error)
    ensures IconOf(weather).Ok? && MainOf(weather).Ok? && TempOf(weather).Err?
            ==> Draw(weather, now) == Err(TempOf(weather).error)
    ensures IconOf(weather).Ok? && MainOf(weather).Ok? && TempOf(weather).Ok? && DescriptionOf(weather).Err?
            ==> Draw(weather, now) == Err(DescriptionOf(weather).error)
    ensures IconOf(weather).Ok? && MainOf(weather).Ok? && TempOf(weather).Ok? && DescriptionOf(weather).Ok?
            ==> Draw(weather, now) == Ok(Forecast(IconOf(weather).value, TimeText(now), MainOf(weather).value,
                                                  TempOf(weather).value, DescriptionOf(weather).value))
  {
  }

  /** A one-call document holding the fields the renderer reads. */
  function OneCallDocument(icon: string, main: string, temp: int, description: string): Json
  {
    JObj(map[
      "daily" := JArr([JObj(map["weather" := JArr([JObj(map["icon" := JStr(icon), "main" := JStr(main)])])])]),
      "current" := JObj(map["temp" := JNum(temp),
                            "weather" := JArr([JObj(map["description" := JStr(description)])])])
    ])
  }

  /** A document with the expected shape renders its own fields: the glyph
      of its icon code, its main text and reading, and its description with
      the first letter upper-cased. It fails only for an unknown icon code
      or an empty description. */
  lemma RenderOneCall(icon: string, main: string, temp: int, description: string, now: Instant)
    ensures var r := Draw(OneCallDocument(icon, main, temp, description), now);
            && (r.Ok? <==> icon in IconMap && description != [])
            && (icon !in IconMap ==> r == Err(KeyError(icon)))
            && (icon in IconMap && description == [] ==> r == Err(IndexError))
            && (r.Ok? ==> r.value == Forecast(IconMap[icon], TimeText(now), JStr(main), temp,
                                               [Upper(description[0])] + description[1..]))
  {
    var w := OneCallDocument(icon, main, temp, description);
    OneCallPaths(icon, main, temp, description);
    assert IconOf(w) == Glyph(JStr(icon));
    assert MainOf(w) == Ok(JStr(main));
    assert TempOf(w) == Ok(temp);
    assert DescriptionOf(w) == Capitalised(JStr(description));
    DrawSteps(w, now);
  }

  /** The four lookups find the document's own fields. */
  lemma OneCallPaths(icon: string, main: string, temp: int, description: string)
    ensures Path(OneCallDocument(icon, main, temp, description), IconPath) == Ok(JStr(icon))
    ensures Path(OneCallDocument(icon, main, temp, description), MainPath) == Ok(JStr(main))
    ensures Path(OneCallDocument(icon, main, temp, description), TempPath) == Ok(JNum(temp))
    ensures Path(OneCallDocument(icon, main, temp, description), DescriptionPath) == Ok(JStr(description))
  {
    var w := OneCallDocument(icon, main, temp, description);
    var day := JObj(map["icon" := JStr(icon), "main" := JStr(main)]);
    DailyField(w, day, "icon", JStr(icon));
    DailyField(w, day, "main", JStr(main));
    CurrentPaths(icon, main, temp, description);
  }

  /** A field of the first daily forecast's first weather entry. */
  lemma DailyField(w: Json, day: Json, field: string, v: Json)
    requires w.JObj? && "daily" in w.fields
    requires w.fields["daily"] == JArr([JObj(map["weather" := JArr([day])])])
    requires day.JObj? && field in day.fields && day.fields[field] == v
    ensures Path(w, [Name("daily"), Pos(0), Name("weather"), Pos(0), Name(field)]) == Ok(v)
  {
    var days := JObj(map["weather" := JArr([day])]);
    var ks := [Name("daily"), Pos(0), Name("weather"), Pos(0), Name(field)];
    assert ks[1..] == [Pos(0), Name("weather"), Pos(0)] + [Name(field)];
    assert Subscript(w, Name("daily")) == Ok(JArr([days]));
    DailyPath(days, day, [Name(field)]);
    assert Path(day, [Name(field)]) == Ok(v);
  }

  /** The two lookups under `current`. */
  lemma CurrentPaths(icon: string, main: string, temp: int, description: string)
    ensures Path(OneCallDocument(icon, main, temp, description), TempPath) == Ok(JNum(temp))
    ensures Path(OneCallDocument(icon, main, temp, description), DescriptionPath) == Ok(JStr(description))
  {
    var w := OneCallDocument(icon, main, temp, description);
    var dj := JObj(map["description" := JStr(description)]);
    var cur := JObj(map["temp" := JNum(temp), "weather" := JArr([dj])]);
    assert Subscript(w, Name("current")) == Ok(cur);
    assert Path(cur, [Name("temp")]) == Ok(JNum(temp));
    assert TempPath[1..] == [Name("temp")];
    assert Path(dj, [Name("description")]) == Ok(JStr(description));
    assert Path(JArr([dj]), [Pos(0), Name("description")]) == Ok(JStr(description));
    assert Path(cur, [Name("weather"), Pos(0), Name("description")]) == Ok(JStr(description));
    assert DescriptionPath[1..] == [Name("weather"), Pos(0), Name("description")];
  }

  /** `[0]["weather"][0]` followed by `rest` on a list holding one entry. */
  lemma DailyPath(days: Json, day: Json, rest: seq<Key>)
    requires days == JObj(map["weather" := JArr([day])])
    ensures Path(JArr([days]), [Pos(0), Name("weather"), Pos(0)] + rest) == Path(day, rest)
  {
    var ks := [Pos(0), Name("weather"), Pos(0)] + rest;
    assert ks[1..] == [Name("weather"), Pos(0)] + rest;
    assert ks[1..][1..] == [Pos(0)] + rest;
    assert ks[1..][1..][1..] == rest;
    assert Subscript(JArr([days]), Pos(0)) == Ok(days);
    assert Subscript(days, Name("weather")) == Ok(JArr([day]));
    assert Subscript(JArr([day]), Pos(0)) == Ok(day);
    assert Path(JArr([day]), ks[1..][1..]) == Path(day, rest);
    assert Path(days, ks[1..]) == Path(day, rest);
  }

  // ---------------------------------------------------------------------------
  // The renderer object

  class Renderer {
    /** `renderer.motd`: None while the attribute has never been assigned
        (the constructor does not create it). */
    var motd: Option<string>
    var weatherIcon: string
    var timeText: string
    var mainText: Json
    /** The reading behind `_temperature`, in the unit the fetcher asked
        for; the converted, formatted text is not modelled. */
    var temp: Option<int>
    var description: string

    /** `Renderer(width, height)`: the text fields start empty and there is
        no motd yet. */
    constructor ()
      ensures motd == None
      ensures weatherIcon == "" && timeText == "" && mainText == JStr("")
      ensures temp == None && description == ""
    {
      motd := None;
      weatherIcon, timeText, mainText := "", "", JStr("");
      temp, description := None, "";
    }

    /** `render` on an already decoded document. Each text field is assigned
        as soon as its lookup succeeds, so a failing lookup leaves the fields
        before it updated and those after it as they were. */
    method Render(weather: Json, now: Instant) returns (r: Result<Image>)
      modifies this
      ensures r == Draw(weather, now)
      ensures motd == old(motd)
      ensures timeText == TimeText(now)
      ensures weatherIcon == (if IconOf(weather).Ok? then IconOf(weather).value else old(weatherIcon))
      ensures mainText == (if IconOf(weather).Ok? && MainOf(weather).Ok? then MainOf(weather).value else old(mainText))
      ensures temp == (if IconOf(weather).Ok? && MainOf(weather).Ok? && TempOf(weather).Ok?
                         then Some(TempOf(weather).value) else old(temp))
      ensures description == (if r.Ok? then r.value.description else old(description))
    {
      timeText := TimeText(now);
      DrawSteps(weather, now);
      var icon := IconOf(weather);
      if icon.Err? { return Err(icon.error); }
      weatherIcon := icon.value;
      var main := MainOf(weather);
      if main.Err? { return Err(main.error); }
      mainText := main.value;
      var k := TempOf(weather);
      if k.Err? { return Err(k.error); }
      temp := Some(k.value);
      var d := DescriptionOf(weather);
      if d.Err? { return Err(d.error); }
      description := d.value;
      r := Ok(Forecast(icon.value, timeText, main.value, k.value, d.value));
    }

    /** `render` as written: its first step is
        `json.loads(weather_response.decode("utf-8"))`, but every caller
        hands it the dict the fetcher already decoded, which has no `decode`
        method, so it raises before assigning anything. */
    method RenderAsWritten(weatherResponse: Json, now: Instant) returns (r: Result<Image>)
      modifies this
      ensures r == DecodeResponse(weatherResponse).PropagateFailure()
      ensures unchanged(this)
    {
      var decoded := DecodeResponse(weatherResponse);
      r := decoded.PropagateFailure();
    }
  }

  /** `weather_response.decode("utf-8")` on a decoded JSON value: no
      decoded value (dict, list, str, number, bool or None) has `decode`. */
  function DecodeResponse(weatherResponse: Json): (r: Result<Json>)
    ensures r.Err?
  {
    Err(AttributeError("decode"))
  }

  /** A document that the intended renderer draws is refused by `render` as
      written. */
  lemma RenderAsWrittenRefusesDocuments(now: Instant)
    ensures Draw(OneCallDocument("01d", "Clear", 293, "clear sky"), now).Ok?
    ensures DecodeResponse(OneCallDocument("01d", "Clear", 293, "clear sky")) == Err(AttributeError("decode"))
  {
    RenderOneCall("01d", "Clear", 293, "clear sky", now);
  }
}
