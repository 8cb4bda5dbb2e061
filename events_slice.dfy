/**
 * The `events` slice of the Redux store: the list of events fetched from the
 * server and the event currently opened. Each reducer replaces one slot
 * wholesale and leaves the other alone. `Reduce` is the reducer as a function
 * of the old state; `EventsStore` holds the state and applies it in place.
 */
module EventsSlice {
  import opened JsValues

  datatype EventsState = EventsState(events: JsValue, currentEvent: JsValue)

  datatype Action =
    | SetEvents(payload: JsValue)
    | ClearEvents
    | SetCurrentEvent(event: JsValue)
    | DeleteCurrentEvent

  /** No events, no current event. */
  function InitialState(): (s: EventsState)
    ensures s.events == Arr([]) && s.currentEvent == Null
  {
    EventsState(Arr([]), Null)
  }

  /**
   * One reducer step. `setEvents` reads `payload.data`, which throws on a
   * null or undefined payload; the store then keeps its old state.
   */
  function Reduce(s: EventsState, a: Action): (r: Result<EventsState>)
    ensures r.Err? <==> a.SetEvents? && Nullish(a.payload)
    ensures r.Err? ==> r.error == ReadError(a.payload, "data")
    ensures r.Ok? && a.SetEvents? ==> r.value == s.(events := Prop(a.payload, "data"))
    ensures r.Ok? && a.ClearEvents? ==> r.value.events == Arr([]) && r.value.currentEvent == s.currentEvent
    ensures r.Ok? && a.SetCurrentEvent? ==> r.value.currentEvent == a.event && r.value.events == s.events
    ensures r.Ok? && a.DeleteCurrentEvent? ==> r.value.currentEvent == Null && r.value.events == s.events
  {
    match a
    case SetEvents(payload) =>
      (match ReadProp(payload, "data")
       case Err(e) => Err(e)
       case Ok(data) => Ok(EventsState(data, s.currentEvent)))
    case ClearEvents => Ok(EventsState(Arr([]), s.currentEvent))
    case SetCurrentEvent(e) => Ok(EventsState(s.events, e))
    case DeleteCurrentEvent => Ok(EventsState(s.events, Null))
  }

  /** The state a store reaches after dispatching each action in turn; a throwing dispatch changes nothing. */
  function Run(s: EventsState, actions: seq<Action>): EventsState
    decreases |actions|
  {
    if actions == [] then s
    else
      var next := match Reduce(s, actions[0]) case Ok(t) => t case Err(_) => s;
      Run(next, actions[1..])
  }

  predicate TouchesCurrentEvent(a: Action) { a.SetCurrentEvent? || a.DeleteCurrentEvent? }

  /** Whatever happens to the event list, the current event survives until an action names it. */
  lemma {:induction false} CurrentEventSurvivesListUpdates(s: EventsState, actions: seq<Action>)
    requires forall k :: 0 <= k < |actions| ==> !TouchesCurrentEvent(actions[k])
    ensures Run(s, actions).currentEvent == s.currentEvent
    decreases |actions|
  {
    if actions != [] {
      var next := match Reduce(s, actions[0]) case Ok(t) => t case Err(_) => s;
      assert next.currentEvent == s.currentEvent;
      CurrentEventSurvivesListUpdates(next, actions[1..]);
    }
  }

  /** Symmetrically, the event list survives any run of current-event actions. */
  lemma {:induction false} EventsSurviveCurrentEventUpdates(s: EventsState, actions: seq<Action>)
    requires forall k :: 0 <= k < |actions| ==> TouchesCurrentEvent(actions[k])
    ensures Run(s, actions).events == s.events
    decreases |actions|
  {
    if actions != [] {
      var next := match Reduce(s, actions[0]) case Ok(t) => t case Err(_) => s;
      assert next.events == s.events;
      EventsSurviveCurrentEventUpdates(next, actions[1..]);
    }
  }

  /** `clearEvents` and `deleteCurrentEvent` are idempotent. */
  lemma ClearingIsIdempotent(s: EventsState)
    ensures Reduce(Reduce(s, ClearEvents).value, ClearEvents) == Reduce(s, ClearEvents)
    ensures Reduce(Reduce(s, DeleteCurrentEvent).value, DeleteCurrentEvent) == Reduce(s, DeleteCurrentEvent)
  {
  }

  /** The store, holding the two slots the reducers assign in place. */
  class EventsStore {
    var events: JsValue
    var currentEvent: JsValue

    function State(): EventsState
      reads this
    {
      EventsState(events, currentEvent)
    }

    constructor ()
      ensures State() == InitialState()
    {
      events := Arr([]);
      currentEvent := Null;
    }

    /** `dispatch(setEvents(payload))`: returns the error it throws, if any. */
    method SetEvents(payload: JsValue) returns (thrown: Option<JsError>)
      modifies this
      ensures Reduce(old(State()), Action.SetEvents(payload)).Ok? ==>
              thrown.None? && State() == Reduce(old(State()), Action.SetEvents(payload)).value
      ensures Reduce(old(State()), Action.SetEvents(payload)).Err? ==>
              thrown == Some(Reduce(old(State()), Action.SetEvents(payload)).error) && State() == old(State())
    {
      match ReadProp(payload, "data")
      case Err(e) =>
        thrown := Some(e);
      case Ok(data) =>
        events := data;
        thrown := None;
    }

    method ClearEvents()
      modifies this
      ensures State() == Reduce(old(State()), Action.ClearEvents).value
    {
      events := Arr([]);
    }

    method SetCurrentEvent(event: JsValue)
      modifies this
      ensures State() == Reduce(old(State()), Action.SetCurrentEvent(event)).value
    {
      currentEvent := event;
    }

    method DeleteCurrentEvent()
      modifies this
      ensures State() == Reduce(old(State()), Action.DeleteCurrentEvent).value
    {
      currentEvent := Null;
    }
  }
}
