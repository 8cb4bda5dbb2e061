/**
 * The event detail screen's text fallbacks (address, travel mode, weather and
 * temperature) and the guard of its layout, which sends a visitor without a
 * stored token to the login screen once, when the layout mounts.
 */
module EventDetailView {
  import opened JsValues
  import opened Platform

  /** `event.location?.address || event.address`. */
  function AddressShown(event: JsValue): (v: JsValue)
    requires !Nullish(event)
    ensures Truthy(OptProp(Prop(event, "location"), "address")) ==> v == Prop(Prop(event, "location"), "address")
    ensures !Truthy(OptProp(Prop(event, "location"), "address")) ==> v == Prop(event, "address")
  {
    Or(OptProp(Prop(event, "location"), "address"), Prop(event, "address"))
  }

  /** An event without a location, or whose location has no address, shows its own `address`. */
  lemma FlatAddressWithoutLocation(fields: map<string, JsValue>)
    requires "location" !in fields || fields["location"] == Null
    ensures AddressShown(Obj(fields)) == Prop(Obj(fields), "address")
  {
  }

  /** `event.travel_mode || "N/A"`. */
  function TravelModeShown(event: JsValue): (v: JsValue)
    requires !Nullish(event)
    ensures Truthy(v)
    ensures Truthy(Prop(event, "travel_mode")) ==> v == Prop(event, "travel_mode")
    ensures v == Str("N/A") <==> !Truthy(Prop(event, "travel_mode")) || Prop(event, "travel_mode") == Str("N/A")
  {
    Or(Prop(event, "travel_mode"), Str("N/A"))
  }

  /** A travel mode stored as the number 0 is shown as "N/A", like a missing one. */
  lemma ZeroTravelModeShownAsMissing(fields: map<string, JsValue>)
    ensures TravelModeShown(Obj(fields["travel_mode" := Num(0)])) == TravelModeShown(Obj(fields - {"travel_mode"}))
  {
  }

  /** `event.weather ? `${event.weather}` : "N/A"`. */
  function WeatherText(event: JsValue): (t: string)
    requires !Nullish(event)
    ensures !Truthy(Prop(event, "weather")) ==> t == "N/A"
    ensures Truthy(Prop(event, "weather")) ==> t == ToJsString(Prop(event, "weather"))
  {
    if Truthy(Prop(event, "weather")) then ToJsString(Prop(event, "weather")) else "N/A"
  }

  /** `event.temp_unit || "C"`, as printed. */
  function UnitText(event: JsValue): (u: string)
    requires !Nullish(event)
    ensures !Truthy(Prop(event, "temp_unit")) ==> u == "C"
    ensures Truthy(Prop(event, "temp_unit")) ==> u == ToJsString(Prop(event, "temp_unit"))
  {
    ToJsString(Or(Prop(event, "temp_unit"), Str("C")))
  }

  /** The temperature is shown whenever it is neither `undefined` nor `null`, 0 included. */
  predicate ShowsTemperature(event: JsValue)
    requires !Nullish(event)
  {
    !Nullish(Prop(event, "temperature"))
  }

  /** The text between the temperature and its unit: the sequence the source file holds, and the degree sign. */
  const DegreeAsWritten: string := "\U{00C2}\U{00B0}"
  const Degree: string := "\U{00B0}"

  /** `, <temperature><sign><unit>` when the temperature is shown, nothing otherwise. */
  function TemperatureSuffix(event: JsValue, sign: string): (s: string)
    requires !Nullish(event)
    ensures !ShowsTemperature(event) <==> s == ""
    ensures ShowsTemperature(event) ==> s == ", " + ToJsString(Prop(event, "temperature")) + sign + UnitText(event)
  {
    if ShowsTemperature(event) then ", " + ToJsString(Prop(event, "temperature")) + sign + UnitText(event) else ""
  }

  /** The weather line as the source file spells it, with the two characters "Â°" before the unit. */
  function WeatherLineAsWritten(event: JsValue): (line: string)
    requires !Nullish(event)
    ensures !ShowsTemperature(event) ==> line == WeatherText(event)
    ensures ShowsTemperature(event) ==>
              line == WeatherText(event) + ", " + ToJsString(Prop(event, "temperature")) + "\U{00C2}\U{00B0}" + UnitText(event)
  {
    WeatherText(event) + TemperatureSuffix(event, DegreeAsWritten)
  }

  /** The weather line with the degree sign the text was meant to carry. */
  function WeatherLine(event: JsValue): (line: string)
    requires !Nullish(event)
    ensures !ShowsTemperature(event) ==> line == WeatherText(event)
    ensures ShowsTemperature(event) ==>
              line == WeatherText(event) + ", " + ToJsString(Prop(event, "temperature")) + "\U{00B0}" + UnitText(event)
  {
    WeatherText(event) + TemperatureSuffix(event, Degree)
  }

  /**
   * The spelled-out line shows a stray "Â" exactly when a temperature is
   * shown: it is then one character longer than the intended line, and the
   * character before the degree sign is U+00C2.
   */
  lemma StrayCharacterBeforeDegree(event: JsValue)
    requires !Nullish(event)
    ensures WeatherLineAsWritten(event) == WeatherLine(event) <==> !ShowsTemperature(event)
    ensures ShowsTemperature(event) ==>
              var line := WeatherLineAsWritten(event);
              var k := |line| - |UnitText(event)| - 2;
              0 <= k && line[k] == '\U{00C2}' && line[k + 1] == '\U{00B0}'
  {
    if ShowsTemperature(event) {
      var line := WeatherLineAsWritten(event);
      var u := UnitText(event);
      var head := WeatherText(event) + ", " + ToJsString(Prop(event, "temperature"));
      assert line == head + DegreeAsWritten + u;
      assert |line| == |WeatherLine(event)| + 1;
      assert line[|head|] == DegreeAsWritten[0];
      assert line[|head| + 1] == DegreeAsWritten[1];
    }
  }

  /** With the degree sign, the unit follows the sign directly and ends the line. */
  lemma DegreeSignPrecedesUnit(event: JsValue)
    requires !Nullish(event) && ShowsTemperature(event)
    ensures var line := WeatherLine(event);
            var u := UnitText(event);
            && |line| > |u|
            && line[|line| - |u| - 1] == '\U{00B0}'
            && line[|line| - |u|..] == u
  {
    var u := UnitText(event);
    var head := WeatherText(event) + ", " + ToJsString(Prop(event, "temperature"));
    var line := WeatherLine(event);
    assert line == head + Degree + u;
    assert line[|head|] == Degree[0];
    assert line[|line| - |u|..] == u;
  }

  /** A temperature of 0 with no unit reads ", 0°C". */
  lemma ZeroTemperatureShown(fields: map<string, JsValue>)
    requires "temp_unit" !in fields
    ensures TemperatureSuffix(Obj(fields["temperature" := Num(0)]), Degree) == ", 0\U{00B0}C"
  {
    assert ToJsString(Num(0)) == "0" by {
      assert NatText(0) == [DigitChar(0)];
    }
  }

  /** The navigations the layout's mount effect asks for: a replace by the login screen without a token. */
  function MountRedirect(token: Option<string>): (navs: seq<Navigation>)
    ensures navs == [] <==> token.Some? && token.value != ""
    ensures navs != [] ==> navs == [Replace("/LoginView")]
  {
    if token.None? || token.value == "" then [Replace("/LoginView")] else []
  }

  /** The layout, with whether its mount effect (empty dependency list) has run. */
  class EventDetailLayout {
    var effectRan: bool

    constructor ()
      ensures !effectRan
    {
      effectRan := false;
    }

    /** After a render: the effect runs on the first one only. */
    method AfterRender(storage: SecureStorage, router: Router)
      modifies this, router
      ensures effectRan
      ensures old(effectRan) ==> router.history == old(router.history)
      ensures !old(effectRan) ==> router.history == old(router.history) + MountRedirect(storage.userToken)
    {
      if effectRan {
        return;
      }
      effectRan := true;
      var token := storage.userToken;
      if token.None? || token.value == "" {
        router.Replace("/LoginView");
      }
    }
  }
}
