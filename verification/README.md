# Bubble placement and events, modelled in Dafny

This project models the `Bubble` class of bubble.js: a floating panel
("bubble") with a heading, a text, a pointer and one or more buttons, which
`show` places next to an anchor element and a button click closes.

What is modelled:

- **Construction** (`Bubble.Construct`): the root element is accepted only with
  exactly one heading, one text and one pointer and at least one button;
  otherwise "Invalid bubble element". Both listener lists start empty.
- **Offset walk** (`Offsets`): the anchor's absolute left and top are the sums
  of the offsets along the chain of offset parents, the element's own offset
  first; a NaN offset (`None`) is skipped. `WalkOffsets` is the source's loop,
  `SumDefined` the recursive reference it is proved equal to.
- **Placement solver** (`Placement`): four strict fit tests tried first-fit in
  the order Above, Below, Left, Right, and the per-side formulas for the
  bubble's top/left, the pointer's top/left (relative to the bubble) and the
  pointer's side class. The gap is 20. Lengths are exact `real`s, so the
  halvings of the centring formulas are exact.
- **Listener registry** (`Listeners`): `listen` appends to the list the event
  name selects ("Bubble:closed" or "Bubble:opened"); `unlisten` removes the
  first occurrence (`indexOf` then `splice`); unknown names fail with
  "Unknown event", an absent callback with "Unknown callback function", and
  a failure changes nothing.
- **Open and close effects** (`Bubble.Show`, `Bubble.ClickButton`): `show`
  resets the pointer's class list to "bubble-pointer", then either throws
  "Could not find a suitable location to put element" (nothing else changes:
  opacity is not touched and no listener runs) or writes the solver's
  positions, adds the side class, sets opacity to "1" and calls every open
  listener once, in registration order, with no argument. A click on a button
  sets opacity to "0" and calls every close listener once, in order, with
  `{value: <button text>, event}`.

Callbacks are opaque identifiers compared by equality (as `indexOf` compares
them); the click event is an opaque type parameter. The DOM reads (sizes of
anchor, bubble, pointer and viewport) are plain inputs (`Anchor`, `Measures`).

Observations about bubble.js that the model keeps as written:

- When no side fits, `show` throws (bubble.js:186); it does not hide the bubble.
- Below sets the pointer's top to the bubble's height, as Above does
  (bubble.js:167).
- Right places the bubble with Left's formula (`elemLeft - rootWidth - 20`,
  bubble.js:180) and sets the pointer's top from horizontal quantities
  (`elemLeft + elemWidth + 20`, bubble.js:183). Since Right is chosen only
  after Left's test failed, the bubble's left style is then at most -20
  (`Placement.RightPlacementStartsOffPage`).
- The Above test does not count the gap (bubble.js:136), so a bubble placed
  above gets a top style greater than -20 that may be negative
  (`Placement.AbovePlacementTopBound`).

The anchor's position is page-absolute (the offset walk); the bubble's top
and left are the values written to its styles, compared against those
page-absolute offsets, so they are page coordinates when the bubble's
containing block is the page.

## Model

| member | source | states |
|---|---|---|
| `Offsets.WalkOffsets` | bubble.js:112-120 | the do/while walk returns the sum of all defined offsets on the chain |
| `Offsets.SumDefinedAppend` | bubble.js:112-130 | the absolute offset of a chain split in two parts is the sum of the parts' offsets |
| `Offsets.NaNIsSkipped` | bubble.js:115-117 | a NaN offset anywhere on the chain does not change the absolute offset |
| `Offsets.AllNaNIsZero` | bubble.js:113-119 | a chain of NaN offsets gives the starting value 0 |
| `Offsets.AbsoluteIsOwnPlusParent` | bubble.js:114-118 | an element's absolute left/top is its own offset plus its offset parent's absolute left/top |
| `Bubble.ShowIgnoresNaNNode` | bubble.js:112-133 | a node whose offsets are NaN, anywhere on the anchor's offset-parent chain, changes nothing that show does |
| `Placement.PlaceAbove` | bubble.js:154-161 | above: the bubble's bottom edge is 20 above the anchor, its centre is the anchor's centre plus offsetLeft, the pointer's centre is the anchor's centre, the pointer sits at the bubble's bottom and gets "bottom" |
| `Placement.PlaceBelow` | bubble.js:162-168 | below: the bubble's top is 20 under the anchor's bottom, same horizontal centring and pointer aim as above, pointer top is the bubble's height, no side class |
| `Placement.PlaceLeft` | bubble.js:169-176 | left: bubble top-aligned with the anchor, its right edge 20 left of the anchor, pointer vertically centred at the bubble's left edge, class "right" |
| `Placement.PlaceRight` | bubble.js:177-184 | right: same bubble position as left, pointer top elemLeft + elemWidth + 20, pointer left the bubble's width, class "right" |
| `Placement.Solve` | bubble.js:135-187 | the chosen side passes its strict test, every side before it in the order Above, Below, Left, Right fails, and NoFit exactly when all four fail |
| `Placement.SolveIsFirstFit` | bubble.js:154-187 | the solver agrees with a generic first-fit over the side order |
| `Placement.SolvePlacesChosenSide` | bubble.js:154-187 | the positions and class are those of the chosen side's branch |
| `Placement.PointerAimIgnoresOffset` | bubble.js:157-161 | above or below, changing offsetLeft moves the bubble's centre by the change and leaves the pointer's absolute centre where it was |
| `Placement.RightPlacementStartsOffPage` | bubble.js:177-180 | when Right is chosen the bubble's left is at most -20 |
| `Placement.AbovePlacementTopBound` | bubble.js:135-156 | when Above is chosen the bubble's top is greater than -20 |
| `Listeners.KindOf` | bubble.js:73-79 | "Bubble:closed" selects the close list, "Bubble:opened" the open list, any other name neither |
| `Listeners.Empty` | bubble.js:40-41 | both lists start empty |
| `Listeners.IndexOf` | bubble.js:90-91 | -1 exactly when the callback is absent, otherwise the position of its first occurrence |
| `Listeners.RemoveAt` | bubble.js:92 | splice(i, 1) drops the element at i and keeps the order of the rest |
| `Listeners.Listen` | bubble.js:72-80 | on a known name the selected list gains the callback at its end and the other list is unchanged; any other name fails with UnknownEvent |
| `Listeners.Unlisten` | bubble.js:88-100 | unknown name fails with UnknownEvent, absent callback with UnknownCallback; otherwise exactly the first occurrence is removed, the other list is unchanged |
| `Listeners.ListenThenUnlisten` | bubble.js:72-100 | listen then unlisten of a callback not yet registered restores the registry |
| `Listeners.ListenThenUnlistenKeepsCallbacks` | bubble.js:88-96 | listen then unlisten always succeeds and keeps every callback's multiplicity |
| `Listeners.ListenUnlistenFromEmpty` | bubble.js:40-100 | from a new bubble, listen then unlisten leaves both lists empty |
| `Bubble.Construct` | bubble.js:7-42 | construction succeeds exactly when there is one heading, one text, one pointer and at least one button, otherwise "Invalid bubble element"; listeners start empty |
| `Bubble.ClassesFor` | bubble.js:153-184 | the pointer's class list is the base class plus "bottom" for the bottom class, "right" for the right class, nothing else |
| `Bubble.Show` | bubble.js:108-193 | throws exactly when the solver finds no fit, then only the pointer class is reset; otherwise the styles hold the solver's values, opacity is "1", the open listeners are called once each in order and the registry is unchanged |
| `Bubble.ShowLeavesOneSideClass` | bubble.js:153-184 | after show the pointer has the base class and never both side classes; "bottom" exactly when above, "right" exactly when left or right |
| `Bubble.OpenListenerRunsOnShow` | bubble.js:189-192 | a callback registered for "Bubble:opened" is called last by the next successful show, one more time than before |
| `Bubble.ClickButton` | bubble.js:25-31 | a click sets opacity to "0", changes nothing else, and calls each close listener once in order with the button's text and the event |
| `Bubble.ShowAfterClick` | bubble.js:25-31 | a click does not change what a later successful show produces; after a throwing show the bubble stays transparent |
| `Bubble.Listen` | bubble.js:72-80 | listen on a bubble throws "Unknown event" exactly for a name other than the two event names; otherwise only its registry changes, as the registry's listen does |
| `Bubble.Unlisten` | bubble.js:88-100 | unlisten on a bubble throws "Unknown event" for an unknown name and "Unknown callback function" for an absent callback; otherwise only its registry changes, as the registry's unlisten does |

## Left out

- `setHeading` and `setText` (bubble.js:49-64): they write HTML and then read a global `root` rather than the bubble's own root, so their effect depends on the page.
- The ripple effect created for each button (a call into an external library with a visual effect only) and the `console.debug` messages.
- The DOM reads: element lookups by class name, `offsetWidth`/`offsetHeight`, and the viewport size taken as the larger of the document's and the window's client size; all are inputs.
- Layout reflow between the style writes and later size reads within one `show`: the measures are taken as constant for the whole call.
- Style values are numbers, not `"px"` strings; the pointer's class list is a set of class names.
- `offsetLeft` is documented as a string; a string argument would be concatenated by `+` rather than added. Only numeric offsets are modelled.
- Event names are compared with `===` for "Bubble:closed" and `==` for "Bubble:opened"; the coercion `==` applies to non-string arguments is not modelled.
- The buttons are a live collection whose text is read at click time; the model fixes each button's text at construction.
- Click handlers are attached to the buttons before the pointer check, so after a failed construction a click still sets the root's opacity and then fails on the missing listener list; the model has no object after a failed construction.
- What listeners do when called: their own effects, mutating the lists during the iteration, or throwing (which stops the remaining calls).
- JavaScript numbers are doubles; the model uses exact reals, so rounding is not modelled.
