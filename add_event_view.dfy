/**
 * The add-event screen: the denylist check on the title and address, the
 * validation chain of a save, the save itself (token, payload, create,
 * refetch, store update, reset) and the travel-mode table. The network is the
 * `Network` oracle; `now` stands for every `new Date()` of one save.
 */
module AddEventView {
  import opened JsValues
  import opened Validators
  import opened Platform
  import opened FetchApi
  import opened EventsSlice

  datatype TravelModeOption = TravelModeOption(caption: string, value: int)

  const TravelModeOptions: seq<TravelModeOption> := [
    TravelModeOption("Car", 0), TravelModeOption("Transit", 1), TravelModeOption("Bike", 2),
    TravelModeOption("Walking", 3), TravelModeOption("Flight", 4)]

  /** `travelModeOptions[travelMode].label`: reading `label` of a missing entry throws. */
  function TravelModeLabel(mode: int): (r: Result<string>)
    ensures r.Ok? <==> 0 <= mode < 5
    ensures r.Ok? ==> exists k | 0 <= k < |TravelModeOptions| :: TravelModeOptions[k].value == mode && TravelModeOptions[k].caption == r.value
  {
    if 0 <= mode < |TravelModeOptions| then
      assert TravelModeOptions[mode].value == mode;
      Ok(TravelModeOptions[mode].caption)
    else Err(ReadError(Undefined, "label"))
  }

  /** The screen's default mode, 0, shows as "Car"; the labels are distinct. */
  lemma TravelModeLabels()
    ensures TravelModeLabel(0) == Ok("Car") && TravelModeLabel(4) == Ok("Flight")
    ensures forall i, j | 0 <= i < j < |TravelModeOptions| :: TravelModeOptions[i].caption != TravelModeOptions[j].caption
  {
  }

  const ForbiddenMessage := "Please avoid using special SQL keywords or symbols."
  const RequiredMessage := "Please fill in all required fields."

  /** Why a save stops before it starts: the first failing check wins. */
  datatype SaveRejection = ForbiddenInput | MissingFields | MissingDateTime

  /**
   * The checks of `handleSaveEvent`, in order: the denylist on title and
   * address, then both present, then both times present. Start and end are not
   * compared with each other.
   */
  function SaveCheck(title: string, address: string, start: Option<JsDate>, end: Option<JsDate>): (r: Option<SaveRejection>)
    ensures r == Some(ForbiddenInput) <==> !ValidateInput(title) || !ValidateInput(address)
    ensures r == Some(MissingFields) <==> ValidateInput(title) && ValidateInput(address) && (title == "" || address == "")
    ensures r == Some(MissingDateTime) <==>
            ValidateInput(title) && ValidateInput(address) && title != "" && address != "" && (start.None? || end.None?)
    ensures r.None? <==>
            ValidateInput(title) && ValidateInput(address) && title != "" && address != "" && start.Some? && end.Some?
  {
    if !ValidateInput(title) || !ValidateInput(address) then Some(ForbiddenInput)
    else if title == "" || address == "" then Some(MissingFields)
    else if start.None? || end.None? then Some(MissingDateTime)
    else None
  }

  /** An end before the start is accepted: swapping the two times never changes the verdict. */
  lemma SaveCheckIgnoresTimeOrder(title: string, address: string, start: Option<JsDate>, end: Option<JsDate>)
    ensures SaveCheck(title, address, start, end) == SaveCheck(title, address, end, start)
  {
  }

  /** The body `createEvent` is given: the title, address and mode, and the three dates as ISO text. */
  datatype EventRecord = EventRecord(title: string, eventDatetime: string, address: string, travelMode: int,
                                     startDatetime: string, endDatetime: string)

  /** The record as the object literal the screen builds. */
  function EventJson(e: EventRecord): (v: JsValue)
    ensures v.Obj? && Truthy(v)
  {
    Obj(map["title" := Str(e.title), "event_datetime" := Str(e.eventDatetime),
            "address" := Str(e.address), "travel_mode" := Num(e.travelMode),
            "start_datetime" := Str(e.startDatetime), "end_datetime" := Str(e.endDatetime)])
  }

  /**
   * The event payload. Each `toISOString` throws a RangeError on an invalid
   * date, the event date's first.
   */
  function EventPayload(title: string, eventDate: JsDate, address: string, travelMode: int,
                        start: JsDate, end: JsDate): (r: Result<EventRecord>)
    ensures r.Err? <==> eventDate.InvalidDate? || start.InvalidDate? || end.InvalidDate?
    ensures r.Err? ==> r.error == JsError("RangeError", "Invalid time value")
    ensures r.Ok? ==> r.value.title == title && r.value.address == address && r.value.travelMode == travelMode
    ensures r.Ok? ==> r.value.eventDatetime == ToIsoString(eventDate).value
                      && r.value.startDatetime == ToIsoString(start).value
                      && r.value.endDatetime == ToIsoString(end).value
  {
    if eventDate.InvalidDate? || start.InvalidDate? || end.InvalidDate? then Err(ToIsoString(InvalidDate).error)
    else
      Ok(EventRecord(title, ToIsoString(eventDate).value, address, travelMode,
                     ToIsoString(start).value, ToIsoString(end).value))
  }

  /** How far an attempt that passed the checks gets: the calls it makes and the error that ends it, if any. */
  datatype Attempt = Attempt(calls: seq<Call>, failure: Option<JsError>, events: JsValue)

  /**
   * The `try` block of a save, up to the store update: token, payload,
   * `createEvent`, `fetchEvents`, then `setEvents` on what was fetched.
   */
  function SaveAttempt(token: string, payload: Result<EventRecord>, env: Env,
                       created: FetchOutcome, fetched: Result<JsValue>): (a: Attempt)
    ensures token == "" ==> a.calls == [] && a.failure == Some(Error("Not authenticated"))
    ensures token != "" && payload.Err? ==> a.calls == [] && a.failure == Some(payload.error)
    ensures a.calls != [] ==> token != "" && payload.Ok? && a.calls[0] == Http(CreateEventRequest(EventJson(payload.value), token, env))
    ensures |a.calls| == 2 ==> a.calls[1] == Call.FetchEvents(token) && DoFetchResult(created).Ok?
    ensures |a.calls| <= 2
    ensures a.failure.None? <==> |a.calls| == 2 && fetched.Ok? && !Nullish(fetched.value)
    ensures a.failure.None? ==> a.events == fetched.value
    ensures token != "" && payload.Ok? ==> |a.calls| == (if DoFetchResult(created).Ok? then 2 else 1)
    ensures token != "" && payload.Ok? && DoFetchResult(created).Err? ==> a.failure == Some(DoFetchResult(created).error)
    ensures token != "" && payload.Ok? && DoFetchResult(created).Ok? && fetched.Err? ==> a.failure == Some(fetched.error)
    ensures token != "" && payload.Ok? && DoFetchResult(created).Ok? && fetched.Ok? && Nullish(fetched.value)
            ==> a.failure == Some(ReadError(fetched.value, "data"))
  {
    if token == "" then Attempt([], Some(Error("Not authenticated")), Undefined)
    else if payload.Err? then Attempt([], Some(payload.error), Undefined)
    else
      var create := [Http(CreateEventRequest(EventJson(payload.value), token, env))];
      match DoFetchResult(created)
      case Err(e) => Attempt(create, Some(e), Undefined)
      case Ok(_) =>
        match fetched
        case Err(e) => Attempt(create + [Call.FetchEvents(token)], Some(e), Undefined)
        case Ok(events) =>
          if Nullish(events) then Attempt(create + [Call.FetchEvents(token)], Some(ReadError(events, "data")), Undefined)
          else Attempt(create + [Call.FetchEvents(token)], None, events)
  }

  /** Without a stored token no event is created and nothing is fetched. */
  lemma NoTokenNoEvent(payload: Result<EventRecord>, env: Env, created: FetchOutcome, fetched: Result<JsValue>)
    ensures forall k | 0 <= k < |SaveAttempt("", payload, env, created, fetched).calls| ::
            !SaveAttempt("", payload, env, created, fetched).calls[k].Http?
  {
  }

  datatype Alert = Alert(title: string, message: string)

  /** The alert of the `catch` block: the error's message, or a default when it is empty. */
  function FailureAlert(e: JsError): (a: Alert)
    ensures a.title == "Error"
    ensures e.message != "" ==> a.message == e.message
    ensures e.message == "" ==> a.message == "Failed to save event."
  {
    Alert("Error", if e.message != "" then e.message else "Failed to save event.")
  }

  /** The error line the screen renders below the form, as written: only `errors.required`. */
  function DisplayedErrorAsWritten(errors: map<string, string>): (r: Option<string>)
    ensures r.Some? <==> "required" in errors && errors["required"] != ""
    ensures r.Some? ==> r.value == errors["required"]
  {
    if "required" in errors && errors["required"] != "" then Some(errors["required"]) else None
  }

  /** The denylist message is stored under `password`, a key the form never renders. */
  lemma ForbiddenMessageNeverShown()
    ensures DisplayedErrorAsWritten(map["password" := ForbiddenMessage]) == None
  {
  }

  /** The error line the form evidently means to render: `required`, otherwise `password`. */
  function DisplayedError(errors: map<string, string>): (r: Option<string>)
    ensures r.None? <==> ("required" !in errors || errors["required"] == "") && ("password" !in errors || errors["password"] == "")
    ensures r.Some? ==> r.value in errors.Values
    ensures "required" in errors && errors["required"] != "" ==> r == Some(errors["required"])
  {
    if "required" in errors && errors["required"] != "" then Some(errors["required"])
    else if "password" in errors && errors["password"] != "" then Some(errors["password"])
    else None
  }

  /** Every refusal of the two checks that set `errors` is shown to the user. */
  lemma RefusalsAreShown()
    ensures DisplayedError(map["password" := ForbiddenMessage]) == Some(ForbiddenMessage)
    ensures DisplayedError(map["required" := RequiredMessage]) == Some(RequiredMessage)
  {
  }

  /** The form fields. `start` and `end` are `None` when a picker forwarded no date. */
  datatype Form = Form(title: string, address: string, eventDate: JsDate, travelMode: int,
                       start: Option<JsDate>, end: Option<JsDate>)

  /** The form as first shown and as reset after a save: empty texts, mode 0, every date `now`. */
  function BlankForm(now: JsDate): (f: Form)
    ensures f.title == "" && f.address == "" && f.travelMode == 0
    ensures f.eventDate == now && f.start == Some(now) && f.end == Some(now)
  {
    Form("", "", now, 0, Some(now), Some(now))
  }

  /** The checks of a save on the form's fields; a form that passes has both times and non-empty texts. */
  function Check(f: Form): (r: Option<SaveRejection>)
    ensures r.None? ==> f.title != "" && f.address != "" && f.start.Some? && f.end.Some?
    ensures r.None? ==> ValidateInput(f.title) && ValidateInput(f.address)
  {
    SaveCheck(f.title, f.address, f.start, f.end)
  }

  /** The alert after a save: titled "Event Saved", naming the event in quotes. */
  function SavedAlert(title: string): (a: Alert)
    ensures a.title == "Event Saved"
    ensures a.message == "Event \"" + title + "\" has been saved successfully!"
    ensures a.message[7..7 + |title|] == title
  {
    Alert("Event Saved", "Event \"" + title + "\" has been saved successfully!")
  }

  /** How a save that passed the checks ends, given the stored token. */
  function AttemptFor(f: Form, token: Option<string>, env: Env, created: FetchOutcome, fetched: Result<JsValue>): (a: Attempt)
    requires f.start.Some? && f.end.Some?
    ensures token.None? || token == Some("") ==> a.calls == [] && a.failure == Some(Error("Not authenticated"))
    ensures f.eventDate.InvalidDate? || f.start.value.InvalidDate? || f.end.value.InvalidDate? ==> a.calls == [] && a.failure.Some?
    ensures a.failure.None? ==>
              token.Some? && |a.calls| == 2 && a.calls[1] == Call.FetchEvents(token.value)
              && fetched.Ok? && a.events == fetched.value
  {
    SaveAttempt(TokenOrEmpty(token), EventPayload(f.title, f.eventDate, f.address, f.travelMode, f.start.value, f.end.value),
                env, created, fetched)
  }

  /**
   * The `try` block of `handleSaveEvent` up to the store update: it returns
   * what was thrown, if anything, and changes only the network log and the store.
   */
  method TrySave(env: Env, storage: SecureStorage, net: Network, store: EventsStore, f: Form,
                 created: FetchOutcome, fetched: Result<JsValue>) returns (failure: Option<JsError>)
    requires f.start.Some? && f.end.Some?
    modifies net, store
    ensures var attempt := AttemptFor(f, storage.userToken, env, created, fetched);
      && failure == attempt.failure
      && net.calls == old(net.calls) + attempt.calls
      && (failure.Some? ==> store.State() == old(store.State()))
      && (failure.None? ==> store.State() == old(store.State()).(events := Prop(attempt.events, "data")))
  {
    var token := TokenOrEmpty(storage.userToken);
    if token == "" {
      return Some(Error("Not authenticated"));
    }
    var payload := EventPayload(f.title, f.eventDate, f.address, f.travelMode, f.start.value, f.end.value);
    if payload.Err? {
      return Some(payload.error);
    }
    failure := SubmitEvent(env, token, payload.value, net, store, created, fetched);
  }

  /** `createEvent`, `fetchEvents` and `dispatch(setEvents(...))`, stopping at the first that throws. */
  method SubmitEvent(env: Env, token: string, record: EventRecord, net: Network, store: EventsStore,
                     created: FetchOutcome, fetched: Result<JsValue>) returns (failure: Option<JsError>)
    requires token != ""
    modifies net, store
    ensures var attempt := SaveAttempt(token, Ok(record), env, created, fetched);
      && failure == attempt.failure
      && net.calls == old(net.calls) + attempt.calls
      && (failure.Some? ==> store.State() == old(store.State()))
      && (failure.None? ==> store.State() == old(store.State()).(events := Prop(attempt.events, "data")))
  {
    var createResult := net.DoFetch(CreateEventRequest(EventJson(record), token, env), created);
    if createResult.Err? {
      return Some(createResult.error);
    }
    var events := net.FetchEvents(token, fetched);
    if events.Err? {
      return Some(events.error);
    }
    failure := store.SetEvents(events.value);
  }

  /** The screen's state. */
  class AddEventScreen {
    var form: Form
    var loading: bool
    /** Every value `setLoading` was called with, in order. */
    var loadingUpdates: seq<bool>
    var errors: map<string, string>
    var alerts: seq<Alert>

    constructor (now: JsDate)
      ensures form == BlankForm(now)
      ensures !loading && loadingUpdates == [] && errors == map[] && alerts == []
    {
      form := BlankForm(now);
      loading, loadingUpdates, errors, alerts := false, [], map[], [];
    }

    /** The error line below the form. */
    function ShownError(): (r: Option<string>)
      reads this
      ensures r.Some? <==> "required" in errors && errors["required"] != ""
      ensures r.Some? ==> r.value == errors["required"]
    {
      DisplayedErrorAsWritten(errors)
    }

    /**
     * `handleSaveEvent`. A refused save changes only `errors` or the alerts.
     * Otherwise `loading` is set and then cleared, the calls of the attempt are
     * made, and the attempt ends in either the saved alert, a store update and
     * a reset form, or the error alert with form and store untouched. `errors`
     * is never cleared.
     */
    method HandleSaveEvent(env: Env, storage: SecureStorage, net: Network, store: EventsStore, now: JsDate,
                           created: FetchOutcome, fetched: Result<JsValue>)
      modifies this, net, store
      ensures errors == (match Check(old(form))
                         case Some(ForbiddenInput) => map["password" := ForbiddenMessage]
                         case Some(MissingFields) => map["required" := RequiredMessage]
                         case _ => old(errors))
      ensures Check(old(form)).Some? ==>
        && net.calls == old(net.calls) && store.State() == old(store.State()) && form == old(form)
        && loading == old(loading) && loadingUpdates == old(loadingUpdates)
        && alerts == old(alerts) + (if Check(old(form)) == Some(MissingDateTime)
                                    then [Alert("Missing DateTime", "Please select both start and end times.")]
                                    else [])
      ensures Check(old(form)).None? ==>
        var attempt := AttemptFor(old(form), storage.userToken, env, created, fetched);
        && loadingUpdates == old(loadingUpdates) + [true, false] && !loading
        && net.calls == old(net.calls) + attempt.calls
        && (attempt.failure.Some? ==>
              && alerts == old(alerts) + [FailureAlert(attempt.failure.value)]
              && store.State() == old(store.State()) && form == old(form))
        && (attempt.failure.None? ==>
              && alerts == old(alerts) + [SavedAlert(old(form).title)]
              && store.State() == old(store.State()).(events := Prop(attempt.events, "data"))
              && form == BlankForm(now))
    {
      var check := Check(form);
      if check == Some(ForbiddenInput) {
        errors := map["password" := ForbiddenMessage];
        return;
      }
      if check == Some(MissingFields) {
        errors := map["required" := RequiredMessage];
        return;
      }
      if check == Some(MissingDateTime) {
        alerts := alerts + [Alert("Missing DateTime", "Please select both start and end times.")];
        return;
      }
      RunSave(env, storage, net, store, now, created, fetched);
    }

    /** The part of `handleSaveEvent` after the checks: `loading` around the attempt, then its alert. */
    method RunSave(env: Env, storage: SecureStorage, net: Network, store: EventsStore, now: JsDate,
                   created: FetchOutcome, fetched: Result<JsValue>)
      requires Check(form).None?
      modifies this, net, store
      ensures var attempt := AttemptFor(old(form), storage.userToken, env, created, fetched);
        && loadingUpdates == old(loadingUpdates) + [true, false] && !loading
        && errors == old(errors)
        && net.calls == old(net.calls) + attempt.calls
        && (attempt.failure.Some? ==>
              && alerts == old(alerts) + [FailureAlert(attempt.failure.value)]
              && store.State() == old(store.State()) && form == old(form))
        && (attempt.failure.None? ==>
              && alerts == old(alerts) + [SavedAlert(old(form).title)]
              && store.State() == old(store.State()).(events := Prop(attempt.events, "data"))
              && form == BlankForm(now))
    {
      loading, loadingUpdates := true, loadingUpdates + [true];
      var failure := TrySave(env, storage, net, store, form, created, fetched);
      Conclude(failure, now);
    }

    /** The end of `handleSaveEvent`: the alert, the reset on success, and `loading` cleared in `finally`. */
    method Conclude(failure: Option<JsError>, now: JsDate)
      modifies this
      ensures errors == old(errors)
      ensures failure.Some? ==> alerts == old(alerts) + [FailureAlert(failure.value)] && form == old(form)
      ensures failure.None? ==> alerts == old(alerts) + [SavedAlert(old(form).title)] && form == BlankForm(now)
      ensures loadingUpdates == old(loadingUpdates) + [false] && !loading
    {
      if failure.Some? {
        alerts := alerts + [FailureAlert(failure.value)];
      } else {
        alerts := alerts + [SavedAlert(form.title)];
        form := BlankForm(now);
      }
      loading, loadingUpdates := false, loadingUpdates + [false];
    }
  }
}
