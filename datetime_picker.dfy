/**
 * The date-time picker of the add-event screen. On the web it is a
 * `datetime-local` input: the value shown is the date's ISO text cut to
 * `YYYY-MM-DDTHH:MM`, and a change is parsed back by splitting on `T`, `-`
 * and `:`. On Android the selected date is forwarded as it comes; on iOS
 * only when there is one. The device time zone is taken to be UTC, so the
 * local shift before `toISOString` is zero.
 */
module DatetimePicker {
  import opened JsValues

  /** `s.split(sep)` for a one-character separator. */
  function SplitOn(s: string, sep: char): (parts: seq<string>)
    ensures |parts| >= 1
    ensures forall k :: 0 <= k < |parts| ==> sep !in parts[k]
    ensures sep !in s ==> parts == [s]
    decreases |s|
  {
    if s == [] then [""]
    else
      var rest := SplitOn(s[1..], sep);
      if s[0] == sep then [""] + rest
      else assert s == [s[0]] + s[1..]; [[s[0]] + rest[0]] + rest[1..]
  }

  /** `parts.join(sep)`. */
  function JoinWith(parts: seq<string>, sep: char): string
    requires |parts| >= 1
    decreases |parts|
  {
    if |parts| == 1 then parts[0] else parts[0] + [sep] + JoinWith(parts[1..], sep)
  }

  /** Splitting loses nothing: joining the pieces with the separator gives the input back. */
  lemma {:induction false} SplitJoinRoundTrip(s: string, sep: char)
    ensures JoinWith(SplitOn(s, sep), sep) == s
    decreases |s|
  {
    if s != [] {
      var rest := SplitOn(s[1..], sep);
      SplitJoinRoundTrip(s[1..], sep);
      if s[0] == sep {
        assert s == [sep] + s[1..];
      } else if |rest| == 1 {
        assert s == [s[0]] + s[1..];
      } else {
        assert JoinWith(rest, sep) == rest[0] + [sep] + JoinWith(rest[1..], sep);
        var parts := SplitOn(s, sep);
        assert parts[1..] == rest[1..];
        assert s == [s[0]] + s[1..];
      }
    }
  }

  /** The piece before the first separator comes off first. */
  lemma {:induction false} SplitAtFirst(a: string, sep: char, b: string)
    requires sep !in a
    ensures SplitOn(a + [sep] + b, sep) == [a] + SplitOn(b, sep)
    decreases |a|
  {
    if a == [] {
      assert a + [sep] + b == [sep] + b;
      assert ([sep] + b)[1..] == b;
    } else {
      var s := a + [sep] + b;
      assert s[1..] == a[1..] + [sep] + b;
      SplitAtFirst(a[1..], sep, b);
      assert a == [a[0]] + a[1..];
    }
  }

  /** The element `k` of a destructured array: `undefined`, and so NaN, when the array is shorter. */
  function Field(parts: seq<string>, k: nat): (r: Option<int>)
    ensures k >= |parts| ==> r.None?
    ensures k < |parts| ==> r == ToNumber(parts[k])
  {
    if k < |parts| then ToNumber(parts[k]) else None
  }

  /**
   * `new Date(year, month - 1, day, hour, minute)` in UTC: NaN in any argument
   * gives an invalid date, and a year from 0 to 99 means 1900 plus that year.
   * Fields out of their ranges are kept as given (no carrying into the next field).
   */
  function LocalDate(year: Option<int>, month: Option<int>, day: Option<int>,
                     hour: Option<int>, minute: Option<int>): (d: JsDate)
    ensures d.InvalidDate? <==> year.None? || month.None? || day.None? || hour.None? || minute.None?
    ensures d.DateTime? ==> d.second == 0 && d.month == month.value - 1
    ensures d.DateTime? ==> d.day == day.value && d.hour == hour.value && d.minute == minute.value
    ensures d.DateTime? && 0 <= year.value <= 99 ==> d.year == 1900 + year.value
    ensures d.DateTime? && !(0 <= year.value <= 99) ==> d.year == year.value
  {
    if year.None? || month.None? || day.None? || hour.None? || minute.None? then InvalidDate
    else
      var y := year.value;
      DateTime(if 0 <= y <= 99 then 1900 + y else y, month.value - 1, day.value, hour.value, minute.value, 0)
  }

  /** What the web input's change handler does: forward a date, or log the input and stop. */
  datatype WebChange = Forwarded(date: JsDate) | Rejected(loggedInput: string)

  function ParseDatetimeLocal(input: string): (r: WebChange)
    ensures r.Rejected? ==> r.loggedInput == input
    ensures 'T' !in input ==> r.Rejected?
    ensures r.Forwarded? ==> r.date.InvalidDate? || r.date.second == 0
  {
    var halves := SplitOn(input, 'T');
    if halves[0] == "" || |halves| < 2 || halves[1] == "" then
      Rejected(input)
    else
      var date := SplitOn(halves[0], '-');
      var time := SplitOn(halves[1], ':');
      Forwarded(LocalDate(Field(date, 0), Field(date, 1), Field(date, 2), Field(time, 0), Field(time, 1)))
  }

  /**
   * With a `T` present, the input is rejected exactly when the text before
   * the first `T` or the text between it and the next `T` is empty, as in
   * "T10:30" or "2024-01-01T".
   */
  lemma RejectsEmptyParts(a: string, b: string)
    requires 'T' !in a
    ensures ParseDatetimeLocal(a + "T" + b).Rejected? <==> a == "" || SplitOn(b, 'T')[0] == ""
  {
    SplitAtFirst(a, 'T', b);
  }

  /** A date part and a time part around a single `T` are split on `-` and `:` respectively. */
  lemma ParseParts(datePart: string, timePart: string)
    requires datePart != "" && timePart != "" && 'T' !in datePart && 'T' !in timePart
    ensures var date, time := SplitOn(datePart, '-'), SplitOn(timePart, ':');
            ParseDatetimeLocal(datePart + "T" + timePart)
            == Forwarded(LocalDate(Field(date, 0), Field(date, 1), Field(date, 2), Field(time, 0), Field(time, 1)))
  {
    SplitAtFirst(datePart, 'T', timePart);
  }

  /** `YYYY-MM-DD` splits into its three fields. */
  lemma SplitDate(y: string, mo: string, d: string)
    requires '-' !in y && '-' !in mo && '-' !in d
    ensures SplitOn(y + "-" + mo + "-" + d, '-') == [y, mo, d]
  {
    assert y + "-" + mo + "-" + d == y + ['-'] + (mo + ['-'] + d);
    SplitAtFirst(y, '-', mo + ['-'] + d);
    SplitAtFirst(mo, '-', d);
  }

  /** `HH:MM`, possibly followed by `:SS`, yields hour and minute first. */
  lemma SplitTime(h: string, mi: string, rest: string)
    requires ':' !in h && ':' !in mi
    requires rest == "" || rest[0] == ':'
    ensures var parts := SplitOn(h + ":" + mi + rest, ':');
            |parts| >= 2 && parts[0] == h && parts[1] == mi
  {
    assert h + ":" + mi + rest == h + [':'] + (mi + rest);
    SplitAtFirst(h, ':', mi + rest);
    if rest != "" {
      assert mi + rest == mi + [':'] + rest[1..];
      SplitAtFirst(mi, ':', rest[1..]);
    } else {
      assert mi + rest == mi;
    }
  }

  /** A well-formed value parses field by field, whatever seconds follow the minutes. */
  lemma ParseWellFormed(y: string, mo: string, d: string, h: string, mi: string, rest: string)
    requires |y| > 0 && |h| > 0
    requires AllDigits(y) && AllDigits(mo) && AllDigits(d) && AllDigits(h) && AllDigits(mi)
    requires rest == "" || (rest[0] == ':' && 'T' !in rest)
    ensures ParseDatetimeLocal(y + "-" + mo + "-" + d + "T" + h + ":" + mi + rest)
            == Forwarded(LocalDate(ToNumber(y), ToNumber(mo), ToNumber(d), ToNumber(h), ToNumber(mi)))
  {
    var datePart := y + "-" + mo + "-" + d;
    var timePart := h + ":" + mi + rest;
    DigitsExclude(y);
    DigitsExclude(mo);
    DigitsExclude(d);
    DigitsExclude(h);
    DigitsExclude(mi);
    assert y + "-" + mo + "-" + d + "T" + h + ":" + mi + rest == datePart + "T" + timePart;
    ParseParts(datePart, timePart);
    SplitDate(y, mo, d);
    SplitTime(h, mi, rest);
  }

  lemma DigitsExclude(s: string)
    requires AllDigits(s)
    ensures 'T' !in s && '-' !in s && ':' !in s && 'Z' !in s && '.' !in s
  {
  }

  /** `String.prototype.slice(0, n)`. */
  function Prefix(s: string, n: nat): (r: string)
    ensures |r| == if |s| < n then |s| else n
    ensures r <= s
  {
    if |s| < n then s else s[..n]
  }

  /** The web input's value: the ISO text cut to minutes. An invalid date throws while rendering. */
  function DisplayValue(d: JsDate): (r: Result<string>)
    ensures r.Err? <==> d.InvalidDate?
    ensures r.Ok? ==> |r.value| == 16 && r.value <= ToIsoString(d).value
  {
    match ToIsoString(d)
    case Err(e) => Err(e)
    case Ok(iso) =>
      IsoLength(d);
      Ok(Prefix(iso, 16))
  }

  lemma IsoLength(d: JsDate)
    requires d.DateTime?
    ensures |ToIsoString(d).value| >= 16
  {
  }

  /** A two-digit field of a date in its usual range. */
  lemma PadTwo(n: int)
    requires 0 <= n < 100
    ensures PadInt(n, 2) == PadNat(n, 2) && |PadNat(n, 2)| == 2
    ensures ToNumber(PadNat(n, 2)) == Some(n)
  {
    NatTextLength(n, 2);
    PadNatRoundTrip(n, 2);
  }

  /** Cutting a text followed by anything at the text's own length gives the text. */
  lemma PrefixOfAppend(a: string, b: string, c: string, d: string)
    ensures Prefix(a + b + c + d, |a|) == a
  {
    assert (a + b + c + d)[..|a|] == a;
  }

  /** The web input shows a date with fields in range as `YYYY-MM-DDTHH:MM`, zero-padded. */
  lemma DisplayShown(y: int, mo: int, d: int, h: int, mi: int, s: int)
    requires 0 <= y <= 9999 && 0 <= mo < 12 && 0 <= d < 100 && 0 <= h < 100 && 0 <= mi < 100
    ensures DisplayValue(DateTime(y, mo, d, h, mi, s)).value
            == PadNat(y, 4) + "-" + PadNat(mo + 1, 2) + "-" + PadNat(d, 2) + "T" + PadNat(h, 2) + ":" + PadNat(mi, 2)
  {
    NatTextLength(y, 4);
    PadTwo(mo + 1);
    PadTwo(d);
    PadTwo(h);
    PadTwo(mi);
    var shown := PadNat(y, 4) + "-" + PadNat(mo + 1, 2) + "-" + PadNat(d, 2) + "T" + PadNat(h, 2) + ":" + PadNat(mi, 2);
    assert |shown| == 16;
    assert ToIsoString(DateTime(y, mo, d, h, mi, s)).value == shown + ":" + PadInt(s, 2) + ".000Z";
    PrefixOfAppend(shown, ":", PadInt(s, 2), ".000Z");
  }

  /** A shown value, which has no seconds, parses field by field. */
  lemma ParseShown(y: string, mo: string, d: string, h: string, mi: string)
    requires |y| > 0 && |h| > 0
    requires AllDigits(y) && AllDigits(mo) && AllDigits(d) && AllDigits(h) && AllDigits(mi)
    ensures ParseDatetimeLocal(y + "-" + mo + "-" + d + "T" + h + ":" + mi)
            == Forwarded(LocalDate(ToNumber(y), ToNumber(mo), ToNumber(d), ToNumber(h), ToNumber(mi)))
  {
    ParseWellFormed(y, mo, d, h, mi, "");
    assert y + "-" + mo + "-" + d + "T" + h + ":" + mi + "" == y + "-" + mo + "-" + d + "T" + h + ":" + mi;
  }

  /** The shown fields read back as the date's own, the month one higher and a year below 100 moved up by 1900. */
  lemma ShownFields(y: int, mo: int, d: int, h: int, mi: int)
    requires 0 <= y <= 9999 && 0 <= mo < 12 && 0 <= d < 100 && 0 <= h < 100 && 0 <= mi < 100
    ensures LocalDate(ToNumber(PadNat(y, 4)), ToNumber(PadNat(mo + 1, 2)), ToNumber(PadNat(d, 2)),
                      ToNumber(PadNat(h, 2)), ToNumber(PadNat(mi, 2)))
            == DateTime(if y <= 99 then 1900 + y else y, mo, d, h, mi, 0)
  {
    PadNatRoundTrip(y, 4);
    PadNatRoundTrip(mo + 1, 2);
    PadNatRoundTrip(d, 2);
    PadNatRoundTrip(h, 2);
    PadNatRoundTrip(mi, 2);
  }

  /**
   * Showing a date with a year up to 9999 and fields in range, then parsing
   * the shown text, gives the date to the minute, except that a year from 0
   * to 99 comes back 1900 years later.
   */
  lemma DisplayParse(y: int, mo: int, d: int, h: int, mi: int, s: int)
    requires 0 <= y <= 9999 && 0 <= mo < 12 && 0 <= d < 100 && 0 <= h < 100 && 0 <= mi < 100
    ensures ParseDatetimeLocal(DisplayValue(DateTime(y, mo, d, h, mi, s)).value)
            == Forwarded(DateTime(if y <= 99 then 1900 + y else y, mo, d, h, mi, 0))
  {
    var ys, mos, ds, hs, mis := PadNat(y, 4), PadNat(mo + 1, 2), PadNat(d, 2), PadNat(h, 2), PadNat(mi, 2);
    DisplayShown(y, mo, d, h, mi, s);
    ParseShown(ys, mos, ds, hs, mis);
    ShownFields(y, mo, d, h, mi);
  }

  /**
   * The round trip of the web input: showing a date with a year from 100 to
   * 9999 and fields in range, then parsing the shown text, gives the same
   * date to the minute.
   */
  lemma DisplayParseRoundTrip(y: int, mo: int, d: int, h: int, mi: int, s: int)
    requires 100 <= y <= 9999 && 0 <= mo < 12 && 0 <= d < 100 && 0 <= h < 100 && 0 <= mi < 100
    ensures ParseDatetimeLocal(DisplayValue(DateTime(y, mo, d, h, mi, s)).value)
            == Forwarded(DateTime(y, mo, d, h, mi, 0))
  {
    DisplayParse(y, mo, d, h, mi, s);
  }

  /** Years 0 to 99 do not survive the round trip: the year 50 comes back as 1950. */
  lemma TwoDigitYearsDoNotRoundTrip()
    ensures ParseDatetimeLocal(DisplayValue(DateTime(50, 0, 1, 0, 0, 0)).value)
            == Forwarded(DateTime(1950, 0, 1, 0, 0, 0))
  {
    DisplayParse(50, 0, 1, 0, 0, 0);
  }

  /** What a native picker's change event does with `onChange`. */
  datatype Forwarding = Forward(selected: Option<JsDate>) | NoForward

  /** Android forwards whatever it is given, even no date. */
  function AndroidChange(selected: Option<JsDate>): (r: Forwarding)
    ensures r == Forward(selected)
  {
    Forward(selected)
  }

  /** The platforms part ways on a change without a date: Android forwards it, iOS drops it. */
  lemma AndroidForwardsMissingDate()
    ensures AndroidChange(None).Forward? && AndroidChange(None).selected.None?
    ensures IosChange(None) == NoForward
    ensures forall d: JsDate :: AndroidChange(Some(d)) == IosChange(Some(d))
  {
  }

  /** iOS forwards only a date that is there; any Date object, even an invalid one, is truthy. */
  function IosChange(selected: Option<JsDate>): (r: Forwarding)
    ensures r.Forward? <==> selected.Some?
    ensures r.Forward? ==> r.selected == selected
  {
    if selected.Some? then Forward(selected) else NoForward
  }

  datatype Platform = Web | Ios | Android

  /** The picker component: whether its picker is open, and the values it has passed to `onChange`. */
  class DatePicker {
    var showPicker: bool
    var forwarded: seq<Option<JsDate>>
    var logged: seq<string>

    constructor ()
      ensures !showPicker && forwarded == [] && logged == []
    {
      showPicker, forwarded, logged := false, [], [];
    }

    /** Pressing the field opens the picker, or closes it when open. */
    method PressField()
      modifies this
      ensures showPicker == !old(showPicker)
      ensures forwarded == old(forwarded) && logged == old(logged)
    {
      showPicker := !showPicker;
    }

    /** The Close and Finish buttons. */
    method Close()
      modifies this
      ensures !showPicker
      ensures forwarded == old(forwarded) && logged == old(logged)
    {
      showPicker := false;
    }

    method WebInputChanged(input: string)
      modifies this
      ensures showPicker == old(showPicker)
      ensures ParseDatetimeLocal(input).Forwarded? ==>
        forwarded == old(forwarded) + [Some(ParseDatetimeLocal(input).date)] && logged == old(logged)
      ensures ParseDatetimeLocal(input).Rejected? ==>
        forwarded == old(forwarded) && logged == old(logged) + ["Invalid date-time format: " + input]
    {
      match ParseDatetimeLocal(input)
      case Forwarded(d) =>
        forwarded := forwarded + [Some(d)];
      case Rejected(v) =>
        logged := logged + ["Invalid date-time format: " + v];
    }

    method NativeChanged(platform: Platform, selected: Option<JsDate>)
      requires platform != Web
      modifies this
      ensures showPicker == old(showPicker) && logged == old(logged)
      ensures platform == Android ==> forwarded == old(forwarded) + [selected]
      ensures platform == Ios && selected.Some? ==> forwarded == old(forwarded) + [selected]
      ensures platform == Ios && selected.None? ==> forwarded == old(forwarded)
    {
      var f := if platform == Android then AndroidChange(selected) else IosChange(selected);
      if f.Forward? {
        forwarded := forwarded + [f.selected];
      }
    }
  }
}
