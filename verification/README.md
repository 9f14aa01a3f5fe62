# Weather lookup: outcome classification and label texts

This project models the core of a small desktop weather app (`weather.py`). On each
lookup, `get_weather` checks for an API key and asks the OpenWeatherMap provider
about a city. It classifies what came back and writes text into the window's two
labels: `label1`, a large summary, and `label2`, a detail block. The model covers
the whole decision and all of the text:

- **Outcome classification** (`Weather.Classify`). The key check comes first (`not api_key`).
  Then the transport: a `ConnectionError`, or any other exception.
  Then the body's `cod` entry: the string `"404"`, anything other than the number `200`, or success.
  Last, the eleven reading steps of a success body, in the source's order: the
  condition, the three temperatures, pressure, humidity and wind, the reads of
  `sys.sunrise` and `sys.sunset`, and only then their conversion to clock times.
  The first step that raises sends the lookup to the generic error handler.
- **Label texts** (`Weather.Render`, `Weather.Show`). Each of the six outcomes has its own
  `(label1, label2)` pair, with the exact emoji, units and labels of the source.
- **Clock** (module `Clock`). This is `strftime("%I:%M:%S %p", gmtime(t + 19800))`:
  a UTC epoch second is shifted to India Standard Time (UTC+5:30) and printed on a
  zero-padded 12-hour clock, with the C-locale AM/PM marker. These are the `%I`,
  `%M`, `%S` and `%p` conversions of ISO C11 section 7.27.3.5.
- **Number text** (module `Decimal`). This is Python's `str()` of an int, as the
  f-strings print temperatures, pressure and humidity. `ParseInt` is its inverse.
- **The window** (`WeatherApp.Window`). A class holds the two label strings.
  `GetWeather` follows the source's control flow: early returns, the `cod` branches,
  and the two exception handlers. Its contract ties the new labels to `Show`.

The provider's decoded JSON is an abstract `Body`:
- `cod` is `Absent`, `Text(s)`, `Number(n)` or `OtherValue`. `Number(n)` stands for any
  JSON number with an integral value, because Python compares `200.0 == 200` as true.
- `message` is the `str()` of the `message` entry, or `None` when the entry is absent.
- Every other entry is a `Result`: either its value, or the `str()` of the exception that
  reading it raises. For example, a `KeyError` for a missing key reads `'main'`.
- `sunrise` and `sunset` are nested `Result`s. The outer one is the read, and the inner
  one is the later conversion of the value read: an epoch second, or a value whose
  `+ 19800` or `gmtime` raises.

Three details of the source that the model keeps:
- The summary is `"{condition} \n{temp}°C"`, with a space before the line break.
- Only the *string* `"404"` counts as "city not found". The number 404, like a missing `cod`, takes the provider-error path.
- An API key set to the empty string counts as missing, as `not api_key` does.

## Model

| member | source | states |
|---|---|---|
| `WeatherApp.Window.GetWeather` | weather.py:10-68 | Both labels are overwritten on every path, and become exactly `Show(key, response)` whatever they held before. The request is issued exactly when the key is neither unset (`None`) nor empty (`Some("")`). |
| `WeatherApp.Window.constructor` | weather.py:83-86 | A new window's two labels show no text. |
| `WeatherApp.ConsecutiveLookups` | weather.py:15-68 | After two lookups on one window, the labels show the second lookup's texts only. Nothing of the first survives. |
| `Weather.KeyErrorIff` | weather.py:15-18 | The pair ("Error: API Key not found.", "Please set API_KEY in your .env file.") shows if and only if the key is `None` or `Some("")`. |
| `Weather.NotFoundIff` | weather.py:25-28 | ("City Not Found 🏙️", "") shows if and only if a key is set and `cod` is the string "404". The message and all other entries make no difference. |
| `Weather.ProviderErrorIff` | weather.py:29-32 | A `cod` that is neither the string "404" nor the number 200 gives label1 = "Error: " + message, or "Error: Unknown error" when there is no message, and an empty label2. This includes an absent `cod` and the number 404. These are exactly the lookups that leave label2 empty without showing "City Not Found". |
| `Weather.NetworkErrorIff` | weather.py:63-65 | ("Network Error 🌐", "Please check your internet connection.") shows if and only if a key is set and the connection failed. |
| `Weather.CrashIff` | weather.py:66-68 | label1 is "An Error Occurred 🐛" if and only if a key is set and either the request raised something other than a connection error, or a step of reading a success body raises. label2 is then "Details: " followed by the exception's text. For a body, that is the text of the first raising step. |
| `Weather.FoundLabels` | weather.py:34-61 | A success body whose steps all pass shows the primary text of its own condition and temperature in label1. label2 is the detail block of its own values: `temp_max` after "Max Temp", `temp_min` after "Min Temp", then pressure, humidity, wind, and the clock texts of its sunrise and sunset. |
| `Weather.Extract` | weather.py:34-52 | Reading succeeds exactly when no step raises. On success, the reading holds all nine of the body's values: condition, temperature, max and min temperature, pressure, humidity, wind, and sunrise and sunset as epoch seconds. |
| `Weather.ExtractInOrder` | weather.py:34-52 | "No step raises" is the same as every step in `Steps` (the source's order) passing. A failed reading reports what the first raising step raised. |
| `Weather.FirstFailureUnique` | weather.py:34-52 | The first raising step's error is unique, so the error shown is determined by the body. |
| `Weather.SunsetReadBeforeSunriseConverted` | weather.py:47-52 | When sunrise was read and sunset is missing, the lookup shows "Details: " plus the sunset read's error, whatever sunrise holds. Both timestamps are read before either is converted. |
| `Weather.HasKey` | weather.py:15 | `not api_key`: unset or empty. `Weather.KeyErrorIff` and `WeatherApp.Window.GetWeather` state this without using it: the key error shows, and no request is issued, exactly for `None` and `Some("")`. |
| `Weather.Classify` | weather.py:15-68 | Which of the six outcomes a lookup has. Its cases are pinned down by `Weather.KeyErrorIff`, `Weather.NotFoundIff`, `Weather.ProviderErrorIff`, `Weather.NetworkErrorIff`, `Weather.CrashIff` and `Weather.FoundLabels`. |
| `Weather.Render` | weather.py:15-68 | The label pair of each outcome. Constrained by the same lemmas, through `Weather.Show`. |
| `Weather.Show` | weather.py:15-68 | The label pair after one lookup. It is the specification that `WeatherApp.Window.GetWeather` meets, and the subject of the five Iff lemmas and `Weather.FoundLabels`. |
| `Weather.ProviderErrorText` | weather.py:30 | "Error: " plus the message, or "Unknown error". Its value is stated by `Weather.ProviderErrorIff`. |
| `Weather.PrimaryText` | weather.py:55 | label1 of a success. Its lines are stated by `Weather.PrimaryLines` and `Weather.TemperatureReadsBack`. |
| `Weather.DetailBlock` | weather.py:56-58 | The seven-line detail text. Its lines are stated by `Weather.BlockLines`. |
| `Weather.DetailText` | weather.py:51-58 | label2 of a reading. Its lines are stated by `Weather.DetailLines`. |
| `Weather.CrashDetails` | weather.py:68 | label2 of the generic handler: "Details: " plus the exception's text. Its value is stated by `Weather.CrashIff`. |
| `Clock.ClockText` | weather.py:51-52 | The 12-hour text of an IST second of the day. It is stated by `Clock.ClockTextRoundTrip` (it reads back to the second of the day), `Clock.MidnightText` and `Clock.NoonText`. |
| `Clock.Meridiem` | weather.py:51 | `%p`: "AM" before hour 12, "PM" from hour 12 on. It is stated by `Clock.ClockFields`: the marker is AM exactly when the second of the day is before 43200. |
| `Clock.ClockTextRoundTrip` | weather.py:51-52 | Reading the clock text of a second of the day back gives that second. |
| `Clock.FormatClock` | weather.py:51-52 | The IST clock text of an epoch second. It is fixed by `Clock.ClockFields` together with `Clock.ClockRoundTrip`, and its periodicity by `Clock.ClockPeriodic` and `Clock.ClockSameIff`. |
| `Decimal.IntToString` | weather.py:55-57 | `str()` of an int. It is fixed by `Decimal.IntRoundTrip` and `Decimal.ParseRoundTrip`. |
| `Weather.PrimaryLines` | weather.py:55 | Line by line, label1 of a success is two lines: the condition followed by a space, then the temperature followed by "°C". |
| `Weather.TemperatureReadsBack` | weather.py:55 | The number on label1's second line, read back as an integer, is the temperature. |
| `Weather.BlockLines` | weather.py:56-58 | The detail block splits into an empty first line, then exactly seven lines in this order: Max Temp …°C, Min Temp …°C, Pressure … hPa, Humidity …%, Wind Speed … m/s, Sunrise …, Sunset …. |
| `Weather.DetailLines` | weather.py:51-58 | label2 of a success is that seven-line block. Max and min temperature, pressure and humidity are printed as decimal text. Sunrise and sunset are printed by the same clock rule. |
| `Decimal.IntRoundTrip` | weather.py:55-57 | The decimal text printed for an int has Python's canonical shape (no leading zeros, no "-0"), and parsing it gives back the same int. |
| `Decimal.ParseRoundTrip` | weather.py:55-57 | Every canonical decimal text is the one printed for its value, so the printing is a bijection onto canonical texts. |
| `Decimal.NoLineBreak` | weather.py:55-57 | A printed int never holds a line break. |
| `Clock.SecondOfDay` | weather.py:51-52 | The IST second of the day is in 0..86399 and congruent to t + 19800 modulo 86400. Flooring matches gmtime for negative t. |
| `Clock.Hour12` | weather.py:51 | The `%I` hour is in 1..12 and agrees with the 24-hour hour modulo 12. |
| `Clock.TwoDigits` | weather.py:51 | A `%I`/`%M`/`%S` field is two decimal digits whose value is the number printed. |
| `Clock.ClockFields` | weather.py:51-52 | Every clock text has the shape "hh:mm:ss AM" or "hh:mm:ss PM", with hour 01-12 and minute and second 00-59. The marker is AM if and only if (t + 19800) mod 86400 < 43200. |
| `Clock.ClockRoundTrip` | weather.py:51-52 | Reading hours, minutes, seconds and marker back from the clock text gives the IST second of the day. |
| `Clock.ClockPeriodic` | weather.py:51-52 | t and t + 86400 print the same clock text. |
| `Clock.ClockSameIff` | weather.py:51-52 | Two instants print the same clock text if and only if they are a whole number of days apart. |
| `Clock.MidnightAndNoon` | weather.py:51-52 | IST second of the day 0 prints "12:00:00 AM", and 43200 prints "12:00:00 PM". |
| `Clock.SunriseExample` | weather.py:47-51 | The sunrise 1700000000 prints "03:43:20 AM". |
| `Clock.ClockNoLineBreak` | weather.py:51-52 | A clock text never holds a line break. |

## Left out

- The tkinter window (weather.py:71-88): widgets, fonts, the `<Return>` binding and `mainloop`. They are user-interface scaffolding. Only the two labels' texts are modelled.
- The city text (weather.py:11) and the request URL (weather.py:20). The city only reaches the URL, so it cannot change what the labels show beyond the provider's answer, which is an input here.
- `requests.get(...).json()` (weather.py:23). This is network I/O. Its outcome is the input `Response`: a connection failure, any other exception (including a decoded value that is not a JSON object, whose `.get` raises), or a decoded body.
- `load_dotenv` and `os.getenv` (weather.py:5, 8, 13). This is environment I/O. The key is an `Option<string>` input.
- The Kelvin-to-Celsius conversion `int(x - 273.15)` (weather.py:35-37). It is floating point. The converted temperatures are integer inputs.
- The wind speed (weather.py:40). Its printed float text is an opaque string input.
- Pressure and humidity are modelled as ints only. Any other value, such as `1013.0`, which prints as `1013.0`, or `null`, which prints as `None`, is not modelled.
- Out-of-range timestamps. `gmtime` raises for timestamps outside the platform's `time_t` range, and float timestamps are possible. Neither is modelled. `FormatClock` is total over the integers. A conversion failure is an input: the inner `Result` of `sunrise`/`sunset`.
- `%p` in other locales. The C-locale "AM"/"PM" is assumed.
- How a label draws its text. Line structure is stated through `Lines.Split` (Python's `str.split("\n")`), not through Tk's rendering.
