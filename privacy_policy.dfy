/**
 * The privacy-policy gate of the signup screen: three flags (modal shown,
 * policy agreed, policy scrolled to the bottom) and the handlers that change
 * them. Agreement can be toggled only once the policy was scrolled to its end.
 * `Step` is the effect of one handler on the flags; `PolicyGate` holds the
 * flags and applies the handlers in place.
 */
module PrivacyPolicy {

  datatype Flags = Flags(modalVisible: bool, agreed: bool, scrolledToBottom: bool)

  /** The handlers the hook returns, and its raw `setHasAgreedToPolicy` setter. */
  datatype Handler =
    | OpenPolicy
    | ClosePolicy
    | ScrollToBottom
    | ToggleAgreement
    | SetAgreed(value: bool)

  /** The hook's state on first render: every flag false. */
  function InitialFlags(): (f: Flags)
    ensures !f.modalVisible && !f.agreed && !f.scrolledToBottom
  {
    Flags(false, false, false)
  }

  function Step(f: Flags, h: Handler): (r: Flags)
    ensures h.OpenPolicy? ==> r == f.(modalVisible := true)
    ensures h.ClosePolicy? ==> r == f.(modalVisible := false)
    ensures h.ScrollToBottom? ==> r == f.(scrolledToBottom := true)
    ensures h.ToggleAgreement? && f.scrolledToBottom ==> r == f.(agreed := !f.agreed)
    ensures h.ToggleAgreement? && !f.scrolledToBottom ==> r == f
    ensures h.SetAgreed? ==> r == f.(agreed := h.value)
  {
    match h
    case OpenPolicy => Flags(true, f.agreed, f.scrolledToBottom)
    case ClosePolicy => Flags(false, f.agreed, f.scrolledToBottom)
    case ScrollToBottom => Flags(f.modalVisible, f.agreed, true)
    case ToggleAgreement => if f.scrolledToBottom then Flags(f.modalVisible, !f.agreed, true) else f
    case SetAgreed(v) => Flags(f.modalVisible, v, f.scrolledToBottom)
  }

  function Run(f: Flags, hs: seq<Handler>): Flags
    decreases |hs|
  {
    if hs == [] then f else Run(Step(f, hs[0]), hs[1..])
  }

  /** Once scrolled to the bottom, always scrolled: no handler resets the flag. */
  lemma {:induction false} ScrolledStaysScrolled(f: Flags, hs: seq<Handler>)
    requires f.scrolledToBottom
    ensures Run(f, hs).scrolledToBottom
    decreases |hs|
  {
    if hs != [] {
      ScrolledStaysScrolled(Step(f, hs[0]), hs[1..]);
    }
  }

  /**
   * Through the four handlers, agreement is never reached before the policy
   * was scrolled to the bottom: the invariant `agreed ==> scrolledToBottom`
   * holds from the initial state on. (The raw setter is not one of them.)
   */
  lemma {:induction false} AgreementRequiresScroll(f: Flags, hs: seq<Handler>)
    requires f.agreed ==> f.scrolledToBottom
    requires forall k :: 0 <= k < |hs| ==> !hs[k].SetAgreed?
    ensures Run(f, hs).agreed ==> Run(f, hs).scrolledToBottom
    decreases |hs|
  {
    if hs != [] {
      AgreementRequiresScroll(Step(f, hs[0]), hs[1..]);
    }
  }

  /** From a fresh hook, agreement is unreachable without the scroll handler. */
  lemma {:induction false} NoAgreementWithoutScrolling(hs: seq<Handler>)
    requires forall k :: 0 <= k < |hs| ==> hs[k] != ScrollToBottom && !hs[k].SetAgreed?
    ensures !Run(InitialFlags(), hs).agreed && !Run(InitialFlags(), hs).scrolledToBottom
  {
    NeverScrolled(InitialFlags(), hs);
    AgreementRequiresScroll(InitialFlags(), hs);
  }

  lemma {:induction false} NeverScrolled(f: Flags, hs: seq<Handler>)
    requires !f.scrolledToBottom
    requires forall k :: 0 <= k < |hs| ==> hs[k] != ScrollToBottom && !hs[k].SetAgreed?
    ensures !Run(f, hs).scrolledToBottom && Run(f, hs).agreed == f.agreed
    decreases |hs|
  {
    if hs != [] {
      NeverScrolled(Step(f, hs[0]), hs[1..]);
    }
  }

  /** After scrolling, two toggles restore the original agreement. */
  lemma DoubleToggleRestores(f: Flags)
    requires f.scrolledToBottom
    ensures Run(f, [ToggleAgreement, ToggleAgreement]) == f
  {
    assert Run(Step(f, ToggleAgreement), [ToggleAgreement]) == Step(Step(f, ToggleAgreement), ToggleAgreement);
  }

  /** Scrolling again changes nothing. */
  lemma ScrollIsIdempotent(f: Flags)
    ensures Step(Step(f, ScrollToBottom), ScrollToBottom) == Step(f, ScrollToBottom)
  {
  }

  /** The three `useState` slots of the hook. */
  class PolicyGate {
    var modalVisible: bool
    var agreed: bool
    var scrolledToBottom: bool

    function Current(): Flags
      reads this
    {
      Flags(modalVisible, agreed, scrolledToBottom)
    }

    constructor ()
      ensures Current() == InitialFlags()
    {
      modalVisible, agreed, scrolledToBottom := false, false, false;
    }

    method HandleOpenPolicy()
      modifies this
      ensures Current() == Step(old(Current()), OpenPolicy)
    {
      modalVisible := true;
    }

    method HandleClosePolicy()
      modifies this
      ensures Current() == Step(old(Current()), ClosePolicy)
    {
      modalVisible := false;
    }

    method HandleScrollToPolicyBottom()
      modifies this
      ensures Current() == Step(old(Current()), ScrollToBottom)
    {
      scrolledToBottom := true;
    }

    method HandleToggleAgreement()
      modifies this
      ensures Current() == Step(old(Current()), ToggleAgreement)
    {
      if scrolledToBottom {
        agreed := !agreed;
      }
    }

    /** The raw setter the hook also exposes; it bypasses the scroll gate. */
    method SetHasAgreedToPolicy(value: bool)
      modifies this
      ensures Current() == Step(old(Current()), SetAgreed(value))
    {
      agreed := value;
    }
  }
}

/**
 * The privacy-policy modal: which policy document it shows, when a scroll
 * event counts as reaching the bottom, and which controls close it.
 */
module PrivacyPolicyModal {

  datatype PolicyDocument = ChinesePolicy | EnglishPolicy

  /** Only the exact language code `zh` selects the Chinese document. */
  function PolicyFor(language: string): (d: PolicyDocument)
    ensures d == ChinesePolicy <==> language == "zh"
  {
    if language == "zh" then ChinesePolicy else EnglishPolicy
  }

  /** The measurements a WebView scroll event carries. */
  datatype ScrollEvent = ScrollEvent(layoutHeight: real, offsetY: real, contentHeight: real)

  /** Close to the bottom: the visible part reaches within 20 points of the content's end. */
  predicate IsCloseToBottom(e: ScrollEvent): (b: bool)
    ensures b <==> e.contentHeight - (e.layoutHeight + e.offsetY) <= 20.0
  {
    e.layoutHeight + e.offsetY >= e.contentHeight - 20.0
  }

  /** `onScroll` over a sequence of events: `onScrollToBottom` fires once per qualifying event. */
  function BottomCallbacks(events: seq<ScrollEvent>): (n: nat)
    ensures n <= |events|
    ensures n == 0 <==> forall k :: 0 <= k < |events| ==> !IsCloseToBottom(events[k])
    ensures |events| == 1 ==> (n == 1 <==> IsCloseToBottom(events[0]))
    decreases |events|
  {
    if events == [] then 0
    else (if IsCloseToBottom(events[0]) then 1 else 0) + BottomCallbacks(events[1..])
  }

  /** The count is additive: each qualifying event fires once, wherever it falls. */
  lemma {:induction false} BottomCallbacksAppend(a: seq<ScrollEvent>, b: seq<ScrollEvent>)
    ensures BottomCallbacks(a + b) == BottomCallbacks(a) + BottomCallbacks(b)
    decreases |a|
  {
    if a == [] {
      assert a + b == b;
    } else {
      assert (a + b)[1..] == a[1..] + b;
      BottomCallbacksAppend(a[1..], b);
    }
  }

  /** Repeated events at the bottom each fire the callback: there is no de-duplication. */
  lemma {:induction false} EveryBottomEventFires(e: ScrollEvent, k: nat)
    requires IsCloseToBottom(e)
    ensures BottomCallbacks(seq(k, _ => e)) == k
    decreases k
  {
    if k > 0 {
      assert seq(k, _ => e)[1..] == seq(k - 1, _ => e);
      EveryBottomEventFires(e, k - 1);
    }
  }

  /** A scroll position inside the threshold: the end is 20 points away and counts. */
  lemma ThresholdIsInclusive(layout: real, offset: real)
    ensures IsCloseToBottom(ScrollEvent(layout, offset, layout + offset + 20.0))
    ensures !IsCloseToBottom(ScrollEvent(layout, offset, layout + offset + 20.5))
  {
  }

  /** The controls of the modal and the callback each one invokes. */
  datatype Control = CloseButton | BackRequest
  datatype Callback = OnClose | OnScrollToBottom

  function CallbackOf(c: Control): (cb: Callback)
    ensures cb == OnClose
  {
    match c
    case CloseButton => OnClose
    case BackRequest => OnClose
  }
}
