/**
 * The window's side of a lookup: get_weather writes its result into two labels,
 * label1 (the large summary) and label2 (the detail block), on every path.
 */
module WeatherApp {
  import opened Wrappers
  import opened Weather

  /** The two text labels of the window; a fresh label shows no text. */
  class Window {
    var label1: string
    var label2: string

    constructor ()
      ensures label1 == "" && label2 == ""
    {
      label1 := "";
      label2 := "";
    }

    /**
     * get_weather: check the key, issue the request (its outcome is `response`),
     * classify the body and write both labels. `requested` says whether the
     * request was issued. Both labels end up as Show(apiKey, response), whatever
     * they held before.
     */
    method GetWeather(apiKey: Option<string>, response: Response) returns (requested: bool)
      modifies this
      ensures requested <==> !(apiKey == None || apiKey == Some(""))
      ensures (label1, label2) == Show(apiKey, response)
    {
      if !HasKey(apiKey) {
        label1 := KeyErrorTitle;
        label2 := KeyErrorHint;
        return false;
      }
      requested := true;
      match response {
        case ConnectionFailed =>
          label1 := NetworkTitle;
          label2 := NetworkHint;
        case Raised(e) =>
          label1 := CrashTitle;
          label2 := CrashDetails(e);
        case Decoded(body) =>
          if body.cod == Text("404") {
            label1 := NotFoundTitle;
            label2 := "";
            return;
          } else if body.cod != Number(200) {
            label1 := ProviderErrorText(body.message);
            label2 := "";
            return;
          }
          match Extract(body) {
            case Err(e) =>
              label1 := CrashTitle;
              label2 := CrashDetails(e);
            case Ok(r) =>
              label1 := PrimaryText(r.condition, r.temp);
              label2 := DetailText(r);
          }
      }
    }
  }

  /**
   * Two lookups in a row on one window: the labels show the second lookup only,
   * with nothing of the first left over.
   */
  method ConsecutiveLookups(key1: Option<string>, response1: Response,
                            key2: Option<string>, response2: Response)
    returns (text1: string, text2: string)
    ensures (text1, text2) == Show(key2, response2)
  {
    var w := new Window();
    var _ := w.GetWeather(key1, response1);
    var _ := w.GetWeather(key2, response2);
    text1, text2 := w.label1, w.label2;
  }
}
