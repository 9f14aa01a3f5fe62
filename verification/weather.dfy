/**
 * The lookup behind the weather window: how the outcome of one lookup (the API key,
 * then what the provider's request produced) is classified, and the exact text
 * that outcome puts into the window's two labels.
 */
module Weather {
  import opened Wrappers
  import opened Decimal
  import opened Lines
  import opened Clock

  /** The body's "cod" entry, as json_data.get("cod") sees it. */
  datatype Cod =
    | Absent           // no "cod" key: get() gives None
    | Text(s: string)  // a JSON string, such as "404"
    | Number(n: int)   // a JSON number with an integral value (Python: 200.0 == 200)
    | OtherValue       // null, a boolean, a list, an object or a non-integral number

  /**
   * A decoded JSON object, reduced to what the lookup reads of it. Reading an entry
   * gives a `Result`: its value, or the str() of the exception the reading raises (a
   * KeyError for a missing key, an IndexError for an empty "weather" list, a
   * TypeError for a value of the wrong type).
   */
  datatype Body = Body(
    cod: Cod,
    message: Option<string>,    // str() of the "message" entry, when the key is there
    condition: Result<string>,  // weather[0].main
    temp: Result<int>,          // int(main.temp - 273.15), read and converted in one step
    tempMin: Result<int>,       // int(main.temp_min - 273.15)
    tempMax: Result<int>,       // int(main.temp_max - 273.15)
    pressure: Result<int>,      // main.pressure, hPa
    humidity: Result<int>,      // main.humidity, percent
    wind: Result<string>,       // str() of wind.speed
    // sys.sunrise and sys.sunset are read first and only later turned into clock
    // times, so each has two steps: the outer Result is the read, the inner one the
    // conversion of what was read (a UTC epoch second, or a value that cannot be
    // shifted by the IST offset and passed to gmtime).
    sunrise: Result<Result<int>>,
    sunset: Result<Result<int>>)

  /** What requests.get(url).json() did. */
  datatype Response =
    | ConnectionFailed        // raised requests.exceptions.ConnectionError
    | Raised(detail: string)  // raised anything else, or gave a value that is not a JSON object
    | Decoded(body: Body)

  /** Everything a successful lookup shows. */
  datatype Reading = Reading(
    condition: string,
    temp: int,
    tempMin: int,
    tempMax: int,
    pressure: int,
    humidity: int,
    wind: string,
    sunrise: int,
    sunset: int)

  /** The six ways a lookup can end. */
  datatype Outcome =
    | NoApiKey
    | CityNotFound
    | ProviderError(message: Option<string>)
    | Found(reading: Reading)
    | NetworkError
    | Crashed(detail: string)

  /** `not api_key` holds for an unset variable and for an empty one. */
  predicate HasKey(apiKey: Option<string>) {
    apiKey.Some? && apiKey.value != ""
  }

  /** Every step of reading a success body goes through. */
  predicate AllRead(b: Body) {
    && b.condition.Ok? && b.temp.Ok? && b.tempMin.Ok? && b.tempMax.Ok?
    && b.pressure.Ok? && b.humidity.Ok? && b.wind.Ok?
    && b.sunrise.Ok? && b.sunset.Ok? && b.sunrise.value.Ok? && b.sunset.value.Ok?
  }

  /** The exception a step raises, if it raises one. */
  function ErrorOf<T>(step: Result<T>): Option<string> {
    if step.Err? then Some(step.detail) else None
  }

  /** The conversion of an entry raises only when the entry was read. */
  function ConversionError(entry: Result<Result<int>>): Option<string> {
    if entry.Ok? then ErrorOf(entry.value) else None
  }

  /**
   * The steps of reading a success body, in the order the lookup takes them: the
   * condition, the three temperatures, pressure, humidity and wind, the reads of
   * sunrise and sunset, and then their conversions to clock times.
   */
  function Steps(b: Body): seq<Option<string>> {
    [ErrorOf(b.condition), ErrorOf(b.temp), ErrorOf(b.tempMin), ErrorOf(b.tempMax),
     ErrorOf(b.pressure), ErrorOf(b.humidity), ErrorOf(b.wind),
     ErrorOf(b.sunrise), ErrorOf(b.sunset), ConversionError(b.sunrise), ConversionError(b.sunset)]
  }

  /** `detail` is what the first raising step of reading `b` raises. */
  predicate FirstFailure(b: Body, detail: string) {
    exists i :: 0 <= i < |Steps(b)| && Steps(b)[i] == Some(detail)
      && forall j :: 0 <= j < i ==> Steps(b)[j].None?
  }

  /** Reading a success body: the first step that raises ends the reading. */
  function Extract(b: Body): (r: Result<Reading>)
    ensures r.Ok? <==> AllRead(b)
    ensures r.Ok? ==> r.value.condition == b.condition.value && r.value.temp == b.temp.value
    ensures r.Ok? ==> r.value.tempMin == b.tempMin.value && r.value.tempMax == b.tempMax.value
    ensures r.Ok? ==> r.value.pressure == b.pressure.value && r.value.humidity == b.humidity.value
    ensures r.Ok? ==> r.value.wind == b.wind.value
    ensures r.Ok? ==> r.value.sunrise == b.sunrise.value.value && r.value.sunset == b.sunset.value.value
  {
    if b.condition.Err? then Err(b.condition.detail)
    else if b.temp.Err? then Err(b.temp.detail)
    else if b.tempMin.Err? then Err(b.tempMin.detail)
    else if b.tempMax.Err? then Err(b.tempMax.detail)
    else if b.pressure.Err? then Err(b.pressure.detail)
    else if b.humidity.Err? then Err(b.humidity.detail)
    else if b.wind.Err? then Err(b.wind.detail)
    else if b.sunrise.Err? then Err(b.sunrise.detail)
    else if b.sunset.Err? then Err(b.sunset.detail)
    else if b.sunrise.value.Err? then Err(b.sunrise.value.detail)
    else if b.sunset.value.Err? then Err(b.sunset.value.detail)
    else Ok(Reading(
      b.condition.value, b.temp.value, b.tempMin.value, b.tempMax.value,
      b.pressure.value, b.humidity.value, b.wind.value, b.sunrise.value.value, b.sunset.value.value))
  }

  /**
   * Extract goes through the steps in order: it succeeds exactly when no step
   * raises, and otherwise reports what the first raising step raised.
   */
  lemma ExtractInOrder(b: Body)
    ensures AllRead(b) <==> forall i :: 0 <= i < |Steps(b)| ==> Steps(b)[i].None?
    ensures Extract(b).Err? ==> FirstFailure(b, Extract(b).detail)
  {
    var s := Steps(b);
    assert s[0] == ErrorOf(b.condition) && s[1] == ErrorOf(b.temp) && s[2] == ErrorOf(b.tempMin);
    assert s[3] == ErrorOf(b.tempMax) && s[4] == ErrorOf(b.pressure) && s[5] == ErrorOf(b.humidity);
    assert s[6] == ErrorOf(b.wind) && s[7] == ErrorOf(b.sunrise) && s[8] == ErrorOf(b.sunset);
    assert s[9] == ConversionError(b.sunrise) && s[10] == ConversionError(b.sunset);
    var r := Extract(b);
    if r.Err? {
      var i :=
        if b.condition.Err? then 0 else if b.temp.Err? then 1 else if b.tempMin.Err? then 2
        else if b.tempMax.Err? then 3 else if b.pressure.Err? then 4 else if b.humidity.Err? then 5
        else if b.wind.Err? then 6 else if b.sunrise.Err? then 7 else if b.sunset.Err? then 8
        else if b.sunrise.value.Err? then 9 else 10;
      assert s[i] == Some(r.detail);
      assert forall j :: 0 <= j < i ==> s[j].None?;
    }
  }

  /** A reading fails in exactly one way: the first failure is unique. */
  lemma FirstFailureUnique(b: Body, d1: string, d2: string)
    requires FirstFailure(b, d1) && FirstFailure(b, d2)
    ensures d1 == d2
  {
    var i1 :| 0 <= i1 < |Steps(b)| && Steps(b)[i1] == Some(d1) && forall j :: 0 <= j < i1 ==> Steps(b)[j].None?;
    var i2 :| 0 <= i2 < |Steps(b)| && Steps(b)[i2] == Some(d2) && forall j :: 0 <= j < i2 ==> Steps(b)[j].None?;
    assert i1 == i2;
  }

  /** How one lookup ends: the key check first, then the transport, then "cod", then the entries. */
  function Classify(apiKey: Option<string>, response: Response): Outcome {
    if !HasKey(apiKey) then NoApiKey
    else match response
      case ConnectionFailed => NetworkError
      case Raised(detail) => Crashed(detail)
      case Decoded(b) =>
        if b.cod == Text("404") then CityNotFound
        else if b.cod != Number(200) then ProviderError(b.message)
        else match Extract(b)
          case Err(detail) => Crashed(detail)
          case Ok(reading) => Found(reading)
  }

  // The fixed texts of the labels.
  const KeyErrorTitle: string := "Error: API Key not found."
  const KeyErrorHint: string := "Please set API_KEY in your .env file."
  const NotFoundTitle: string := "City Not Found \U{1F3D9}\U{FE0F}"
  const NetworkTitle: string := "Network Error \U{1F310}"
  const NetworkHint: string := "Please check your internet connection."
  const CrashTitle: string := "An Error Occurred \U{1F41B}"
  const Degrees: string := "\U{00B0}C"

  /** label1 of a provider error: "Error: " and the provider's message, or "Unknown error" without one. */
  function ProviderErrorText(message: Option<string>): string {
    "Error: " + match message
      case Some(m) => m
      case None => "Unknown error"
  }

  /** label2 of a crash: "Details: " and the text of the exception. */
  function CrashDetails(detail: string): string {
    "Details: " + detail
  }

  /** label1 of a success: the condition and a space, a line break, then the temperature in degrees Celsius. */
  function PrimaryText(condition: string, temp: int): string {
    condition + " \n" + IntToString(temp) + Degrees
  }

  /** The seven-line detail block, led by a line break, from the printed values. */
  function DetailBlock(maxTemp: string, minTemp: string, pressure: string, humidity: string,
                       wind: string, sunrise: string, sunset: string): string
  {
    "\nMax Temp: " + maxTemp + Degrees + "\nMin Temp: " + minTemp + Degrees
    + "\nPressure: " + pressure + " hPa" + "\nHumidity: " + humidity + "%"
    + "\nWind Speed: " + wind + " m/s" + "\nSunrise: " + sunrise + "\nSunset: " + sunset
  }

  /** final_data of a successful lookup: sunrise and sunset printed by the same clock rule. */
  function DetailText(r: Reading): string {
    DetailBlock(IntToString(r.tempMax), IntToString(r.tempMin), IntToString(r.pressure),
      IntToString(r.humidity), r.wind, FormatClock(r.sunrise), FormatClock(r.sunset))
  }

  /** The (label1, label2) texts an outcome shows. */
  function Render(o: Outcome): (string, string) {
    match o
    case NoApiKey => (KeyErrorTitle, KeyErrorHint)
    case CityNotFound => (NotFoundTitle, "")
    case ProviderError(message) => (ProviderErrorText(message), "")
    case Found(r) => (PrimaryText(r.condition, r.temp), DetailText(r))
    case NetworkError => (NetworkTitle, NetworkHint)
    case Crashed(detail) => (CrashTitle, CrashDetails(detail))
  }

  /** What the two labels read after one lookup. */
  function Show(apiKey: Option<string>, response: Response): (string, string) {
    Render(Classify(apiKey, response))
  }

  // Properties of the texts.

  lemma PrimaryHasLineBreak(condition: string, temp: int)
    ensures '\n' in PrimaryText(condition, temp)
  {
    assert PrimaryText(condition, temp)[|condition| + 1] == '\n';
  }

  /**
   * Read line by line, label1 of a successful lookup is the condition followed by a
   * space, then the temperature in degrees Celsius.
   */
  lemma PrimaryLines(condition: string, temp: int)
    requires '\n' !in condition
    ensures Split(PrimaryText(condition, temp), '\n') == [condition + " ", IntToString(temp) + Degrees]
  {
    var second := IntToString(temp) + Degrees;
    NoLineBreak(temp);
    SingleLineNotIn(condition, '\n');
    SingleLineNotIn(IntToString(temp), '\n');
    SingleLineJoin(condition, " ", "", '\n');
    SingleLineJoin(IntToString(temp), Degrees, "", '\n');
    assert condition + " " + "" == condition + " ";
    assert IntToString(temp) + Degrees + "" == second;
    assert PrimaryText(condition, temp) == (condition + " ") + ['\n'] + second;
    SplitJoin(condition + " ", second, '\n');
    SplitSingle(condition + " ", '\n');
    SplitSingle(second, '\n');
  }

  /** The number on label1's second line reads back as the temperature. */
  lemma TemperatureReadsBack(condition: string, temp: int)
    requires '\n' !in condition
    ensures var lines := Split(PrimaryText(condition, temp), '\n');
      && |lines| == 2 && |lines[1]| >= 2 && lines[1][|lines[1]| - 2..] == Degrees
      && IsCanonical(lines[1][..|lines[1]| - 2]) && ParseInt(lines[1][..|lines[1]| - 2]) == temp
  {
    PrimaryLines(condition, temp);
    IntRoundTrip(temp);
    var line := IntToString(temp) + Degrees;
    assert line[..|line| - 2] == IntToString(temp);
  }

  /** A piece that is a line break and then tag starts one more line: tag, value and unit. */
  lemma AddLine(s: string, piece: string, tag: string, value: string, unit: string)
    requires piece == "\n" + tag && SingleLine(tag + value + unit, '\n')
    ensures Split(s + piece + value + unit, '\n') == Split(s, '\n') + [tag + value + unit]
  {
    assert s + piece + value + unit == s + ['\n'] + (tag + value + unit);
    SplitJoin(s, tag + value + unit, '\n');
    SplitSingle(tag + value + unit, '\n');
  }

  /**
   * The shape of the detail block with its label pieces p1..p7 left open: every
   * piece starts a new line, so the block splits into an empty line and seven more.
   */
  lemma SevenLines(p1: string, t1: string, v1: string, u1: string,
                   p2: string, t2: string, v2: string, u2: string,
                   p3: string, t3: string, v3: string, u3: string,
                   p4: string, t4: string, v4: string, u4: string,
                   p5: string, t5: string, v5: string, u5: string,
                   p6: string, t6: string, v6: string,
                   p7: string, t7: string, v7: string)
    requires p1 == "\n" + t1 && SingleLine(t1 + v1 + u1, '\n')
    requires p2 == "\n" + t2 && SingleLine(t2 + v2 + u2, '\n')
    requires p3 == "\n" + t3 && SingleLine(t3 + v3 + u3, '\n')
    requires p4 == "\n" + t4 && SingleLine(t4 + v4 + u4, '\n')
    requires p5 == "\n" + t5 && SingleLine(t5 + v5 + u5, '\n')
    requires p6 == "\n" + t6 && SingleLine(t6 + v6 + "", '\n')
    requires p7 == "\n" + t7 && SingleLine(t7 + v7 + "", '\n')
    ensures var s3: string := p1 + v1 + u1 + p2 + v2 + u2 + p3 + v3 + u3;
      var s5: string := s3 + p4 + v4 + u4 + p5 + v5 + u5;
      Split(s5 + p6 + v6 + p7 + v7, '\n')
        == ["", t1 + v1 + u1, t2 + v2 + u2, t3 + v3 + u3, t4 + v4 + u4, t5 + v5 + u5, t6 + v6, t7 + v7]
  {
    var l1, l2, l3 := t1 + v1 + u1, t2 + v2 + u2, t3 + v3 + u3;
    var l4, l5, l6, l7 := t4 + v4 + u4, t5 + v5 + u5, t6 + v6, t7 + v7;
    var s1 := p1 + v1 + u1;
    var s2 := s1 + p2 + v2 + u2;
    var s3 := s2 + p3 + v3 + u3;
    var s4 := s3 + p4 + v4 + u4;
    var s5 := s4 + p5 + v5 + u5;
    var s6 := s5 + p6 + v6;
    assert Split(s1, '\n') == ["", l1] by {
      assert s1 == "" + p1 + v1 + u1;
      AddLine("", p1, t1, v1, u1);
    }
    assert Split(s2, '\n') == ["", l1, l2] by {
      AddLine(s1, p2, t2, v2, u2);
    }
    assert Split(s3, '\n') == ["", l1, l2, l3] by {
      AddLine(s2, p3, t3, v3, u3);
    }
    assert Split(s4, '\n') == ["", l1, l2, l3, l4] by {
      AddLine(s3, p4, t4, v4, u4);
    }
    assert Split(s5, '\n') == ["", l1, l2, l3, l4, l5] by {
      AddLine(s4, p5, t5, v5, u5);
    }
    assert Split(s6, '\n') == ["", l1, l2, l3, l4, l5, l6] by {
      assert s6 == s5 + p6 + v6 + "" && t6 + v6 + "" == l6;
      AddLine(s5, p6, t6, v6, "");
    }
    assert Split(s6 + p7 + v7, '\n') == ["", l1, l2, l3, l4, l5, l6, l7] by {
      assert s6 + p7 + v7 == s6 + p7 + v7 + "" && t7 + v7 + "" == l7;
      AddLine(s6, p7, t7, v7, "");
    }
  }

  /**
   * Read line by line, the detail block is an empty line and then the seven details
   * in their fixed order, each with its label and unit.
   */
  lemma BlockLines(maxT: string, minT: string, p: string, h: string, w: string, rise: string, fall: string)
    requires SingleLine(maxT, '\n') && SingleLine(minT, '\n') && SingleLine(p, '\n') && SingleLine(h, '\n')
    requires SingleLine(w, '\n') && SingleLine(rise, '\n') && SingleLine(fall, '\n')
    ensures Split(DetailBlock(maxT, minT, p, h, w, rise, fall), '\n') == [
      "",
      "Max Temp: " + maxT + Degrees,
      "Min Temp: " + minT + Degrees,
      "Pressure: " + p + " hPa",
      "Humidity: " + h + "%",
      "Wind Speed: " + w + " m/s",
      "Sunrise: " + rise,
      "Sunset: " + fall]
  {
    SingleLineJoin("Max Temp: ", maxT, Degrees, '\n');
    SingleLineJoin("Min Temp: ", minT, Degrees, '\n');
    SingleLineJoin("Pressure: ", p, " hPa", '\n');
    SingleLineJoin("Humidity: ", h, "%", '\n');
    SingleLineJoin("Wind Speed: ", w, " m/s", '\n');
    SingleLineJoin("Sunrise: ", rise, "", '\n');
    SingleLineJoin("Sunset: ", fall, "", '\n');
    assert "Sunrise: " + rise + "" == "Sunrise: " + rise;
    assert "Sunset: " + fall + "" == "Sunset: " + fall;
    SevenLines("\nMax Temp: ", "Max Temp: ", maxT, Degrees, "\nMin Temp: ", "Min Temp: ", minT, Degrees,
      "\nPressure: ", "Pressure: ", p, " hPa", "\nHumidity: ", "Humidity: ", h, "%",
      "\nWind Speed: ", "Wind Speed: ", w, " m/s",
      "\nSunrise: ", "Sunrise: ", rise, "\nSunset: ", "Sunset: ", fall);
  }

  /**
   * Read line by line, label2 of a successful lookup is an empty line and then the
   * seven details, with sunrise and sunset printed by the same clock rule.
   */
  lemma DetailLines(r: Reading)
    requires '\n' !in r.wind
    ensures Split(DetailText(r), '\n') == [
      "",
      "Max Temp: " + IntToString(r.tempMax) + Degrees,
      "Min Temp: " + IntToString(r.tempMin) + Degrees,
      "Pressure: " + IntToString(r.pressure) + " hPa",
      "Humidity: " + IntToString(r.humidity) + "%",
      "Wind Speed: " + r.wind + " m/s",
      "Sunrise: " + FormatClock(r.sunrise),
      "Sunset: " + FormatClock(r.sunset)]
  {
    var maxT, minT := IntToString(r.tempMax), IntToString(r.tempMin);
    var p, h := IntToString(r.pressure), IntToString(r.humidity);
    var rise, fall := FormatClock(r.sunrise), FormatClock(r.sunset);
    NoLineBreak(r.tempMax);
    NoLineBreak(r.tempMin);
    NoLineBreak(r.pressure);
    NoLineBreak(r.humidity);
    ClockNoLineBreak(r.sunrise);
    ClockNoLineBreak(r.sunset);
    SingleLineNotIn(maxT, '\n');
    SingleLineNotIn(minT, '\n');
    SingleLineNotIn(p, '\n');
    SingleLineNotIn(h, '\n');
    SingleLineNotIn(r.wind, '\n');
    SingleLineNotIn(rise, '\n');
    SingleLineNotIn(fall, '\n');
    BlockLines(IntToString(r.tempMax), IntToString(r.tempMin), IntToString(r.pressure),
      IntToString(r.humidity), r.wind, FormatClock(r.sunrise), FormatClock(r.sunset));
  }

  // Properties of a whole lookup.

  /** The fixed titles differ in their first letter and hold no line break. */
  lemma TitleFacts()
    ensures KeyErrorTitle[0] == 'E' && NotFoundTitle[0] == 'C' && NetworkTitle[0] == 'N' && CrashTitle[0] == 'A'
    ensures forall m :: ProviderErrorText(m)[0] == 'E'
    ensures '\n' !in KeyErrorTitle && '\n' !in NotFoundTitle && '\n' !in NetworkTitle && '\n' !in CrashTitle
    ensures KeyErrorHint != "" && NetworkHint != "" && KeyErrorHint != NetworkHint
    ensures forall d :: CrashDetails(d) != ""
  {
    assert KeyErrorHint[7] != NetworkHint[7];
  }

  /** The key error shows exactly when there is no usable key. */
  lemma KeyErrorIff(apiKey: Option<string>, response: Response)
    ensures Show(apiKey, response) == (KeyErrorTitle, KeyErrorHint) <==> (apiKey == None || apiKey == Some(""))
  {
    TitleFacts();
    var o := Classify(apiKey, response);
    if o.Found? {
      PrimaryHasLineBreak(o.reading.condition, o.reading.temp);
    }
  }

  /**
   * "City not found" shows exactly when the key is set and "cod" is the string "404",
   * whatever the rest of the body holds.
   */
  lemma NotFoundIff(apiKey: Option<string>, response: Response)
    ensures Show(apiKey, response) == (NotFoundTitle, "")
      <==> HasKey(apiKey) && response.Decoded? && response.body.cod == Text("404")
  {
    TitleFacts();
    var o := Classify(apiKey, response);
    match o
    case NoApiKey =>
    case ProviderError(m) =>
    case Found(r) =>
      PrimaryHasLineBreak(r.condition, r.temp);
    case NetworkError =>
    case Crashed(_) =>
    case CityNotFound =>
  }

  /**
   * Any other "cod" than the string "404" and the number 200 (a missing one, the
   * number 404, ...) shows "Error: " and the provider's message, or "Unknown error"
   * without one, over an empty label2; and those are the only lookups that leave
   * label2 empty without showing "City not found".
   */
  lemma ProviderErrorIff(apiKey: Option<string>, response: Response)
    ensures var labels := Show(apiKey, response);
      (labels.1 == "" && labels.0 != NotFoundTitle)
      <==> (HasKey(apiKey) && response.Decoded?
            && response.body.cod != Text("404") && response.body.cod != Number(200))
    ensures (HasKey(apiKey) && response.Decoded?
             && response.body.cod != Text("404") && response.body.cod != Number(200))
      ==> (Show(apiKey, response).0
           == "Error: " + (if response.body.message.Some? then response.body.message.value else "Unknown error"))
  {
    TitleFacts();
    var o := Classify(apiKey, response);
    match o
    case ProviderError(m) =>
    case Found(r) => assert DetailText(r)[0] == '\n';
    case NoApiKey =>
    case CityNotFound =>
    case NetworkError =>
    case Crashed(_) =>
  }

  /** The network error shows exactly when the key is set and the connection failed. */
  lemma NetworkErrorIff(apiKey: Option<string>, response: Response)
    ensures Show(apiKey, response) == (NetworkTitle, NetworkHint)
      <==> HasKey(apiKey) && response == ConnectionFailed
  {
    TitleFacts();
    var o := Classify(apiKey, response);
    match o
    case NoApiKey =>
    case CityNotFound =>
    case ProviderError(m) =>
    case Found(r) =>
      PrimaryHasLineBreak(r.condition, r.temp);
    case Crashed(_) =>
    case NetworkError =>
  }

  /**
   * "An Error Occurred" shows exactly when, with a key set, the request raised
   * anything but a connection error, or a step of reading a success body raises;
   * label2 then gives that exception's text, for a body the first raising step's.
   */
  lemma CrashIff(apiKey: Option<string>, response: Response)
    ensures Show(apiKey, response).0 == CrashTitle
      <==> (HasKey(apiKey) && (response.Raised?
            || (response.Decoded? && response.body.cod == Number(200) && !AllRead(response.body))))
    ensures HasKey(apiKey) && response.Raised?
      ==> Show(apiKey, response).1 == "Details: " + response.detail
    ensures HasKey(apiKey) && response.Decoded? && response.body.cod == Number(200) && !AllRead(response.body)
      ==> exists d :: FirstFailure(response.body, d) && Show(apiKey, response).1 == "Details: " + d
  {
    TitleFacts();
    var o := Classify(apiKey, response);
    match o
    case NoApiKey =>
    case CityNotFound =>
    case ProviderError(m) =>
    case Found(r) =>
      PrimaryHasLineBreak(r.condition, r.temp);
    case NetworkError =>
    case Crashed(d) =>
      if response.Decoded? {
        ExtractInOrder(response.body);
        assert FirstFailure(response.body, d);
      }
  }

  /**
   * sys.sunset is read before sys.sunrise is converted: with sunrise present and
   * sunset missing, the lookup reports the missing sunset, whatever sunrise holds.
   */
  lemma SunsetReadBeforeSunriseConverted(apiKey: Option<string>, b: Body)
    requires HasKey(apiKey) && b.cod == Number(200)
    requires b.condition.Ok? && b.temp.Ok? && b.tempMin.Ok? && b.tempMax.Ok?
    requires b.pressure.Ok? && b.humidity.Ok? && b.wind.Ok? && b.sunrise.Ok? && b.sunset.Err?
    ensures Show(apiKey, Decoded(b)) == (CrashTitle, "Details: " + b.sunset.detail)
  {
  }

  /**
   * A success body whose steps all go through shows its condition and temperature
   * over the detail block of its own values.
   */
  lemma FoundLabels(apiKey: Option<string>, b: Body)
    requires HasKey(apiKey) && b.cod == Number(200) && AllRead(b)
    ensures Show(apiKey, Decoded(b)).0 == PrimaryText(b.condition.value, b.temp.value)
    ensures Show(apiKey, Decoded(b)).1
      == DetailBlock(IntToString(b.tempMax.value), IntToString(b.tempMin.value),
           IntToString(b.pressure.value), IntToString(b.humidity.value), b.wind.value,
           FormatClock(b.sunrise.value.value), FormatClock(b.sunset.value.value))
  {
  }
}