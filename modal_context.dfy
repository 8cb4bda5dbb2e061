/**
 * The app-wide modal: one slot for whether it is visible and one for what it
 * shows. `ModalProvider` owns both slots; `AppModal` renders the modal only
 * when it is visible and has content; a press outside it or a back request
 * hides it without clearing the content.
 */
module ModalContext {
  import opened JsValues

  /** A React node as the modal slot holds it. */
  datatype ModalContent = NullContent | UndefinedContent | Element(component: string)

  datatype ModalState = ModalState(visible: bool, content: ModalContent)

  /** What `AppModal` renders: nothing, or a `Modal` element with its `visible` prop. */
  datatype Rendered = NothingRendered | ModalElement(visible: bool, content: ModalContent)

  /** The provider's initial state, which is also what the context offers with no provider. */
  function InitialModal(): (s: ModalState)
    ensures !s.visible && s.content == NullContent
  {
    ModalState(false, NullContent)
  }

  /**
   * `AppModal`: `modalVisible && <Modal visible={modalVisible && modalContent !== null}>`.
   * Only `null` counts as no content; `undefined` does not.
   */
  function AppModal(s: ModalState): (r: Rendered)
    ensures r.NothingRendered? <==> !s.visible
    ensures r.ModalElement? ==> r.content == s.content
  {
    if !s.visible then NothingRendered else ModalElement(s.visible && s.content != NullContent, s.content)
  }

  /** The modal is on screen. */
  predicate Shown(s: ModalState)
  {
    AppModal(s).ModalElement? && AppModal(s).visible
  }

  lemma ShownExactly(s: ModalState)
    ensures Shown(s) <==> s.visible && s.content != NullContent
  {
  }

  /** The two dismiss gestures of `AppModal`. */
  datatype Dismissal = RequestClose | PressOut

  /** The provider's two `useState` slots and their setters. */
  class ModalProvider {
    var visible: bool
    var content: ModalContent

    function State(): ModalState
      reads this
    {
      ModalState(visible, content)
    }

    constructor ()
      ensures State() == InitialModal()
    {
      visible, content := false, NullContent;
    }

    method SetModalVisible(v: bool)
      modifies this
      ensures visible == v && content == old(content)
    {
      visible := v;
    }

    method SetModalContent(c: ModalContent)
      modifies this
      ensures content == c && visible == old(visible)
    {
      content := c;
    }

    /** Both dismissals call `setModalVisible(false)`: the modal hides and its content stays. */
    method Dismiss(d: Dismissal)
      modifies this
      ensures State() == old(State()).(visible := false)
      ensures !Shown(State())
    {
      match d
      case RequestClose => SetModalVisible(false);
      case PressOut => SetModalVisible(false);
    }
  }

  /**
   * `useModal()`: the provider's slots, or, with no provider above, the
   * default context whose setters do nothing.
   */
  method SetVisibleThrough(provider: Option<ModalProvider>, v: bool)
    modifies if provider.Some? then {provider.value} else {}
    ensures provider.Some? ==> provider.value.State() == old(provider.value.State()).(visible := v)
  {
    if provider.Some? {
      provider.value.SetModalVisible(v);
    }
  }

  method SetContentThrough(provider: Option<ModalProvider>, c: ModalContent)
    modifies if provider.Some? then {provider.value} else {}
    ensures provider.Some? ==> provider.value.State() == old(provider.value.State()).(content := c)
  {
    if provider.Some? {
      provider.value.SetModalContent(c);
    }
  }
}
