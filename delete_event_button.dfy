/**
 * The trash icon in the event header: pressing it opens the confirmation
 * modal; confirming deletes the current event on the server, reloads the
 * list, clears the current event, closes the modal and goes back to the
 * timeline. Each step runs only when every earlier one succeeded.
 */
module DeleteEventButton {
  import opened JsValues
  import opened Platform
  import opened FetchApi
  import opened EventsSlice
  import opened ModalContext

  /** The confirmation modal the icon puts into the modal slot. */
  const ConfirmModal := Element("DeleteEventModal")

  /** Where the screen goes after a deletion. */
  const TimelinePath := "/(tabs)/TimelineView"

  /** How far `handleDelete` got before it stopped. */
  datatype DeleteEnd =
    | MissingIdOrToken   // the guard threw before any request
    | DeleteFailed       // the delete request threw
    | RefetchFailed      // the event list could not be reloaded
    | ListRefused        // `setEvents` threw on the reloaded payload
    | Deleted            // every step ran

  /** The guard: `!currentEvent?.id || !token`. */
  predicate HasIdAndToken(currentEvent: JsValue, token: string)
  {
    Truthy(OptProp(currentEvent, "id")) && token != ""
  }

  /**
   * Where `handleDelete` stops, given the current event, the token and what
   * the two server calls return. Each stage is reached only when all the
   * earlier ones succeeded.
   */
  function DeleteEndOf(currentEvent: JsValue, token: string,
                       deleteOutcome: Result<JsValue>, fetchOutcome: Result<JsValue>): (e: DeleteEnd)
    ensures e == MissingIdOrToken <==> !HasIdAndToken(currentEvent, token)
    ensures e == DeleteFailed <==> HasIdAndToken(currentEvent, token) && deleteOutcome.Err?
    ensures e == RefetchFailed <==> HasIdAndToken(currentEvent, token) && deleteOutcome.Ok? && fetchOutcome.Err?
    ensures e == ListRefused <==>
            HasIdAndToken(currentEvent, token) && deleteOutcome.Ok? && fetchOutcome.Ok? && Nullish(fetchOutcome.value)
    ensures e == Deleted <==>
            HasIdAndToken(currentEvent, token) && deleteOutcome.Ok? && fetchOutcome.Ok? && !Nullish(fetchOutcome.value)
  {
    if !HasIdAndToken(currentEvent, token) then MissingIdOrToken
    else if deleteOutcome.Err? then DeleteFailed
    else if fetchOutcome.Err? then RefetchFailed
    else if Nullish(fetchOutcome.value) then ListRefused
    else Deleted
  }

  /** The server calls made: none past the guard, the delete, then the reload. */
  function DeleteCalls(end: DeleteEnd, id: JsValue, token: string): (calls: seq<Call>)
    ensures end == MissingIdOrToken <==> calls == []
    ensures |calls| == 1 <==> end == DeleteFailed
    ensures calls != [] ==> calls[0] == Call.DeleteEvent(id, token)
    ensures |calls| == 2 ==> calls[1] == Call.FetchEvents(token)
    ensures |calls| <= 2
  {
    match end
    case MissingIdOrToken => []
    case DeleteFailed => [Call.DeleteEvent(id, token)]
    case _ => [Call.DeleteEvent(id, token), Call.FetchEvents(token)]
  }

  /**
   * The events slice, the modal and the router after `handleDelete`: all
   * three unchanged unless every step ran; then the list is the reloaded
   * `data`, the current event is cleared, the modal hidden and emptied, and
   * the timeline replaces the screen.
   */
  predicate DeleteEffects(end: DeleteEnd, fetched: Result<JsValue>,
                          events0: EventsState, events: EventsState,
                          modal0: ModalState, modal: ModalState,
                          history0: seq<Navigation>, history: seq<Navigation>)
  {
    if end == Deleted then
      && fetched.Ok? && !Nullish(fetched.value)
      && events == EventsState(Prop(fetched.value, "data"), Null)
      && modal == ModalState(false, NullContent)
      && history == history0 + [Replace(TimelinePath)]
    else
      events == events0 && modal == modal0 && history == history0
  }

  /** A failed reload leaves the current event set and the modal as it was. */
  lemma FailedRefetchKeepsCurrentEvent(events0: EventsState, events: EventsState, modal0: ModalState, modal: ModalState,
                                       history0: seq<Navigation>, history: seq<Navigation>, fetched: Result<JsValue>)
    requires DeleteEffects(RefetchFailed, fetched, events0, events, modal0, modal, history0, history)
    ensures events.currentEvent == events0.currentEvent && modal.visible == modal0.visible
  {
  }

  /** The list and the current event change together or not at all. */
  lemma DeletionIsAllOrNothing(end: DeleteEnd, fetched: Result<JsValue>, events0: EventsState, events: EventsState,
                               modal0: ModalState, modal: ModalState, history0: seq<Navigation>, history: seq<Navigation>)
    requires DeleteEffects(end, fetched, events0, events, modal0, modal, history0, history)
    requires events0.currentEvent != Null
    ensures events.currentEvent == Null <==> end == Deleted
    ensures history != history0 <==> end == Deleted
  {
  }

  /** The button's `deleting` slot, with every `setDeleting` call recorded. */
  class DeleteEventHeaderButton {
    var deleting: bool
    var deletingUpdates: seq<bool>

    constructor ()
      ensures !deleting && deletingUpdates == []
    {
      deleting, deletingUpdates := false, [];
    }

    /**
     * `handleDelete`. `deleting` is set for the attempt and reset in
     * `finally`; whatever is thrown is caught and only logged.
     */
    method HandleDelete(storage: SecureStorage, store: EventsStore, modal: ModalProvider, net: Network, router: Router,
                        deleteOutcome: Result<JsValue>, fetchOutcome: Result<JsValue>)
      modifies this, store, modal, net, router
      ensures !deleting && deletingUpdates == old(deletingUpdates) + [true, false]
      ensures var end := DeleteEndOf(old(store.currentEvent), TokenOrEmpty(storage.userToken), deleteOutcome, fetchOutcome);
        && net.calls == old(net.calls)
                        + DeleteCalls(end, OptProp(old(store.currentEvent), "id"), TokenOrEmpty(storage.userToken))
        && DeleteEffects(end, fetchOutcome, old(store.State()), store.State(), old(modal.State()), modal.State(),
                         old(router.history), router.history)
    {
      deleting, deletingUpdates := true, deletingUpdates + [true];
      DeleteSteps(storage, store, modal, net, router, deleteOutcome, fetchOutcome);
      deleting, deletingUpdates := false, deletingUpdates + [false];
    }

    /** The `try` block: the guard, then the steps in order, stopping at the first that throws. */
    method DeleteSteps(storage: SecureStorage, store: EventsStore, modal: ModalProvider, net: Network, router: Router,
                       deleteOutcome: Result<JsValue>, fetchOutcome: Result<JsValue>)
      modifies store, modal, net, router
      ensures var end := DeleteEndOf(old(store.currentEvent), TokenOrEmpty(storage.userToken), deleteOutcome, fetchOutcome);
        && net.calls == old(net.calls)
                        + DeleteCalls(end, OptProp(old(store.currentEvent), "id"), TokenOrEmpty(storage.userToken))
        && DeleteEffects(end, fetchOutcome, old(store.State()), store.State(), old(modal.State()), modal.State(),
                         old(router.history), router.history)
    {
      var token := TokenOrEmpty(storage.userToken);
      var currentEvent := store.currentEvent;
      if !Truthy(OptProp(currentEvent, "id")) || token == "" {
        return;
      }
      var deleted := net.DeleteEvent(Prop(currentEvent, "id"), token, deleteOutcome);
      if deleted.Err? {
        return;
      }
      var events := net.FetchEvents(token, fetchOutcome);
      if events.Err? {
        return;
      }
      var thrown := store.SetEvents(events.value);
      if thrown.Some? {
        return;
      }
      store.DeleteCurrentEvent();
      modal.SetModalVisible(false);
      modal.SetModalContent(NullContent);
      router.Replace(TimelinePath);
    }

    /**
     * The icon's `onPress`: the content is set first and the modal shown
     * second. The two states the modal passes through are returned in order.
     */
    method PressIcon(modal: ModalProvider) returns (states: seq<ModalState>)
      modifies modal
      ensures states == [old(modal.State()).(content := ConfirmModal), ModalState(true, ConfirmModal)]
      ensures modal.State() == states[1] && Shown(modal.State())
    {
      modal.SetModalContent(ConfirmModal);
      var afterContent := modal.State();
      modal.SetModalVisible(true);
      states := [afterContent, modal.State()];
    }

    /** The modal's `onCancel`: hides the modal and keeps its content. */
    method Cancel(modal: ModalProvider)
      modifies modal
      ensures modal.State() == old(modal.State()).(visible := false)
      ensures !Shown(modal.State())
    {
      modal.SetModalVisible(false);
    }
  }
}
