/**
 * The Bubble widget: construction from a root element, the open effect of
 * `show` (offset walk, placement, style, open listeners), the close effect of
 * a button click, and the listener API lifted to the widget's state.
 */
module Bubble {
  import opened Wrappers
  import Offsets
  import Placement
  import Listeners

  const InvalidElement: string := "Invalid bubble element"
  const NoLocation: string := "Could not find a suitable location to put element"

  /** The pointer's base class, set again at the start of every `show`. */
  const PointerBase: string := "bubble-pointer"
  const BottomClassName: string := "bottom"
  const RightClassName: string := "right"

  /** What the constructor finds below the root element, by class name. */
  datatype Element = Element(
    headingCount: nat,
    textCount: nat,
    buttonLabels: seq<string>,
    pointerCount: nat,
    pointerClasses: set<string>)

  /** Exactly one heading, one text and one pointer, and at least one button. */
  predicate WellFormed(e: Element)
  {
    e.headingCount == 1 && e.textCount == 1 && e.pointerCount == 1 && |e.buttonLabels| >= 1
  }

  /** The bubble root's opacity style: never written, "0" or "1". */
  datatype Opacity = Unset | Transparent | Opaque

  /** The numeric top/left styles of the bubble and of its pointer (pointer relative to the bubble). */
  datatype Layout = Layout(overlayTop: real, overlayLeft: real, pointerTop: real, pointerLeft: real)

  /** A constructed bubble; `layout` is None until a `show` has placed it. */
  datatype State = State(
    buttonLabels: seq<string>,
    listeners: Listeners.Registry,
    opacity: Opacity,
    layout: Option<Layout>,
    pointerClasses: set<string>)

  /**
   * The constructor: the checks of the heading, text, button and pointer
   * counts, in the source's order, all failing with the same message.
   */
  function Construct(e: Element): (r: Result<State, string>)
    ensures r.Ok? <==> WellFormed(e)
    ensures r.Err? ==> r.error == InvalidElement
    ensures r.Ok? ==> r.value.listeners == Listeners.Empty() && r.value.buttonLabels == e.buttonLabels
    ensures r.Ok? ==> r.value.opacity == Unset && r.value.layout == None && r.value.pointerClasses == e.pointerClasses
  {
    if e.headingCount != 1 then Err(InvalidElement)
    else if e.textCount != 1 then Err(InvalidElement)
    else if |e.buttonLabels| < 1 then Err(InvalidElement)
    else if e.pointerCount != 1 then Err(InvalidElement)
    else Ok(State(e.buttonLabels, Listeners.Registry([], []), Unset, None, e.pointerClasses))
  }

  // ---------------------------------------------------------------- show

  /** The anchor: its offset-parent chain (itself first) and its size. */
  datatype Anchor = Anchor(chain: seq<Offsets.NodeOffset>, width: real, height: real)

  /** The sizes `show` reads from the DOM: bubble, pointer and viewport. */
  datatype Measures = Measures(
    rootWidth: real, rootHeight: real,
    pointerWidth: real, pointerHeight: real,
    viewportWidth: real, viewportHeight: real)

  /** The solver's input: the anchor's absolute position from the offset walk, plus the measures. */
  function GeometryOf(a: Anchor, m: Measures, offsetLeft: real): (g: Placement.Geometry)
  {
    Placement.Geometry(
      Offsets.AbsoluteLeft(a.chain), Offsets.AbsoluteTop(a.chain), a.width, a.height,
      m.rootWidth, m.rootHeight, m.pointerWidth, m.pointerHeight,
      m.viewportWidth, m.viewportHeight, offsetLeft)
  }

  /** The pointer's class list for a side class: the base class and at most one side class. */
  function ClassesFor(c: Placement.PointerClass): (s: set<string>)
    ensures PointerBase in s
    ensures BottomClassName in s <==> c == Placement.BottomClass
    ensures RightClassName in s <==> c == Placement.RightClass
    ensures s <= {PointerBase, BottomClassName, RightClassName}
  {
    match c
    case NoSideClass => {PointerBase}
    case BottomClass => {PointerBase, BottomClassName}
    case RightClass => {PointerBase, RightClassName}
  }

  /** The result of `show`: the new state and the open listeners called, or the thrown error and the state it leaves. */
  datatype ShowOutcome =
    | Shown(state: State, notified: seq<Listeners.Callback>)
    | Threw(state: State, message: string)

  /**
   * `show(element, offsetLeft)`. The pointer's class list is reset first; if
   * no side fits, the call throws with nothing else changed; otherwise the
   * styles take the solver's values, opacity becomes "1" and every open
   * listener is called once, in registration order, with no argument.
   */
  function Show(b: State, a: Anchor, m: Measures, offsetLeft: real): (r: ShowOutcome)
    ensures r.Threw? <==> Placement.Solve(GeometryOf(a, m, offsetLeft)).NoFit?
    ensures r.Threw? ==> r.message == NoLocation && r.state == b.(pointerClasses := {PointerBase})
    ensures r.Shown? ==>
              var p := Placement.Solve(GeometryOf(a, m, offsetLeft));
              && r.state.layout == Some(Layout(p.overlayTop, p.overlayLeft, p.pointerTop, p.pointerLeft))
              && r.state.opacity == Opaque
              && r.state.pointerClasses == ClassesFor(p.pointerClass)
              && r.notified == b.listeners.openListeners
              && r.state.listeners == b.listeners
              && r.state.buttonLabels == b.buttonLabels
  {
    var g := GeometryOf(a, m, offsetLeft);
    var reset := b.(pointerClasses := {PointerBase});
    match Placement.Solve(g)
    case NoFit => Threw(reset, NoLocation)
    case Placed(_, top, left, pTop, pLeft, c) =>
      Shown(reset.(layout := Some(Layout(top, left, pTop, pLeft)),
                   pointerClasses := ClassesFor(c),
                   opacity := Opaque),
            b.listeners.openListeners)
  }

  /**
   * Whatever class list the pointer had before, after `show` it holds the base
   * class and at most one side class: "bottom" exactly when placed Above,
   * "right" exactly when placed Left or Right, neither when Below or on a throw.
   */
  lemma ShowLeavesOneSideClass(b: State, a: Anchor, m: Measures, offsetLeft: real)
    ensures var r := Show(b, a, m, offsetLeft);
            && PointerBase in r.state.pointerClasses
            && !(BottomClassName in r.state.pointerClasses && RightClassName in r.state.pointerClasses)
            && r.state.pointerClasses <= {PointerBase, BottomClassName, RightClassName}
    ensures var r := Show(b, a, m, offsetLeft);
            var p := Placement.Solve(GeometryOf(a, m, offsetLeft));
            && (BottomClassName in r.state.pointerClasses <==> p.Placed? && p.side == Placement.Above)
            && (RightClassName in r.state.pointerClasses <==> p.Placed? && p.side in {Placement.Left, Placement.Right})
  {

  }

  /**
   * A callback registered for "Bubble:opened" is called by the next successful
   * `show` once more than it was registered before, and last.
   */
  lemma OpenListenerRunsOnShow(b: State, cb: Listeners.Callback, a: Anchor, m: Measures, offsetLeft: real)
    requires Placement.Solve(GeometryOf(a, m, offsetLeft)).Placed?
    ensures Listen(b, Listeners.OpenedEvent, cb).Ok?
    ensures var r := Show(Listen(b, Listeners.OpenedEvent, cb).value, a, m, offsetLeft);
            && r.Shown?
            && |r.notified| > 0 && r.notified[|r.notified| - 1] == cb
            && multiset(r.notified)[cb] == multiset(b.listeners.openListeners)[cb] + 1
  {

  }

  /**
   * NaN offsets anywhere on the anchor's offset-parent chain are skipped by
   * the walk, so they change nothing that `show` does.
   */
  lemma ShowIgnoresNaNNode(b: State, pre: seq<Offsets.NodeOffset>, post: seq<Offsets.NodeOffset>,
                           width: real, height: real, m: Measures, offsetLeft: real)
    ensures Show(b, Anchor(pre + [Offsets.NodeOffset(None, None)] + post, width, height), m, offsetLeft)
         == Show(b, Anchor(pre + post, width, height), m, offsetLeft)
  {
    var withNaN := pre + [Offsets.NodeOffset(None, None)] + post;
    assert Offsets.Lefts(withNaN) == Offsets.Lefts(pre) + [None] + Offsets.Lefts(post);
    assert Offsets.Lefts(pre + post) == Offsets.Lefts(pre) + Offsets.Lefts(post);
    assert Offsets.Tops(withNaN) == Offsets.Tops(pre) + [None] + Offsets.Tops(post);
    assert Offsets.Tops(pre + post) == Offsets.Tops(pre) + Offsets.Tops(post);
    Offsets.NaNIsSkipped(Offsets.Lefts(pre), Offsets.Lefts(post));
    Offsets.NaNIsSkipped(Offsets.Tops(pre), Offsets.Tops(post));
  }

  // ------------------------------------------------------- button click

  /** The argument of a close listener: the clicked button's text and the click event. */
  datatype ClosePayload<E> = ClosePayload(value: string, event: E)

  datatype CloseCall<E> = CloseCall(callback: Listeners.Callback, payload: ClosePayload<E>)

  datatype ClickOutcome<E> = ClickOutcome(state: State, notified: seq<CloseCall<E>>)

  /**
   * A click on button `i`: opacity becomes "0" and every close listener is
   * called once, in registration order, with that button's text and the event.
   * Nothing else changes.
   */
  function ClickButton<E>(b: State, i: nat, event: E): (r: ClickOutcome<E>)
    requires i < |b.buttonLabels|
    ensures r.state == b.(opacity := Transparent)
    ensures |r.notified| == |b.listeners.closeListeners|
    ensures forall j :: 0 <= j < |r.notified| ==>
              r.notified[j].callback == b.listeners.closeListeners[j]
              && r.notified[j].payload == ClosePayload(b.buttonLabels[i], event)
  {
    var payload := ClosePayload(b.buttonLabels[i], event);
    var listeners := b.listeners.closeListeners;
    ClickOutcome(b.(opacity := Transparent),
                 seq(|listeners|, j requires 0 <= j < |listeners| => CloseCall(listeners[j], payload)))
  }

  // ---------------------------------------------------- listener API

  const UnknownEventMessage: string := "Unknown event"
  const UnknownCallbackMessage: string := "Unknown callback function"

  /** The message thrown for a misuse of the listener API. */
  function ErrorMessage(e: Listeners.ListenerError): string
  {
    match e
    case UnknownEvent => UnknownEventMessage
    case UnknownCallback => UnknownCallbackMessage
  }

  /** `listen` on a bubble: only its registry changes; an unknown event name throws "Unknown event". */
  function Listen(b: State, event: string, cb: Listeners.Callback): (r: Result<State, string>)
    ensures r.Err? <==> Listeners.KindOf(event).None?
    ensures r.Err? ==> r.error == UnknownEventMessage
    ensures r.Ok? ==> r.value == b.(listeners := Listeners.Listen(b.listeners, event, cb).value)
  {
    match Listeners.Listen(b.listeners, event, cb)
    case Err(e) => Err(ErrorMessage(e))
    case Ok(reg) => Ok(b.(listeners := reg))
  }

  /**
   * `unlisten` on a bubble: only its registry changes; an unknown event name
   * throws "Unknown event", an absent callback "Unknown callback function".
   */
  function Unlisten(b: State, event: string, cb: Listeners.Callback): (r: Result<State, string>)
    ensures Listeners.KindOf(event).None? ==> r == Err(UnknownEventMessage)
    ensures Listeners.KindOf(event).Some? && cb !in b.listeners.Get(Listeners.KindOf(event).value) ==>
              r == Err(UnknownCallbackMessage)
    ensures Listeners.KindOf(event).Some? && cb in b.listeners.Get(Listeners.KindOf(event).value) ==>
              r.Ok? && r.value == b.(listeners := Listeners.Unlisten(b.listeners, event, cb).value)
  {
    match Listeners.Unlisten(b.listeners, event, cb)
    case Err(e) => Err(ErrorMessage(e))
    case Ok(reg) => Ok(b.(listeners := reg))
  }

  /**
   * A click changes only the opacity, so a later `show` that places the bubble
   * ends exactly as it would have without the click, calling the same open
   * listeners; a `show` that throws leaves the bubble transparent.
   */
  lemma ShowAfterClick<E>(b: State, i: nat, event: E, a: Anchor, m: Measures, offsetLeft: real)
    requires i < |b.buttonLabels|
    ensures var after := Show(ClickButton(b, i, event).state, a, m, offsetLeft);
            var direct := Show(b, a, m, offsetLeft);
            && (after.Shown? <==> direct.Shown?)
            && (after.Shown? ==> after == direct)
            && (after.Threw? ==> after.state.opacity == Transparent)
  {
  }
}
