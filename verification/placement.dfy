/**
 * The placement solver of `Bubble.show`: four strict fit tests tried in the
 * fixed order Above, Below, Left, Right, the first that passes choosing the
 * side, and per-side formulas for the bubble's and its pointer's positions.
 * All lengths are exact reals, so the halvings of the centring formulas are exact.
 */
module Placement {
  import opened Wrappers

  /** The fixed margin between the anchor and the bubble. */
  const Gap: real := 20.0

  datatype Side = Above | Below | Left | Right

  /** The order in which the sides are tried. */
  const SideOrder: seq<Side> := [Above, Below, Left, Right]

  /** Position of a side in SideOrder. */
  function Rank(s: Side): (k: nat)
    ensures k < |SideOrder| && SideOrder[k] == s
  {
    match s
    case Above => 0
    case Below => 1
    case Left => 2
    case Right => 3
  }

  /**
   * Everything the solver reads: the anchor's absolute position and size,
   * the bubble's and the pointer's sizes, the viewport's size and the
   * caller's signed horizontal offset.
   */
  datatype Geometry = Geometry(
    elemLeft: real, elemTop: real, elemWidth: real, elemHeight: real,
    rootWidth: real, rootHeight: real,
    pointerWidth: real, pointerHeight: real,
    viewportWidth: real, viewportHeight: real,
    offsetLeft: real)

  /** The side class added to the pointer next to its base class. */
  datatype PointerClass = NoSideClass | BottomClass | RightClass

  /** Where the bubble and its pointer go, or no side fits. */
  datatype Placement =
    | Placed(side: Side, overlayTop: real, overlayLeft: real,
             pointerTop: real, pointerLeft: real, pointerClass: PointerClass)
    | NoFit

  predicate CanPlaceAbove(g: Geometry) { g.elemTop > g.rootHeight }

  predicate CanPlaceBelow(g: Geometry) { g.viewportHeight - (g.elemTop + g.elemHeight) > g.rootHeight }

  predicate CanPlaceLeft(g: Geometry) { g.elemLeft > g.rootWidth }

  predicate CanPlaceRight(g: Geometry) { g.viewportWidth - (g.elemLeft + g.elemWidth) > g.rootWidth }

  /** The fit test of one side. */
  predicate Fits(g: Geometry, s: Side)
  {
    match s
    case Above => CanPlaceAbove(g)
    case Below => CanPlaceBelow(g)
    case Left => CanPlaceLeft(g)
    case Right => CanPlaceRight(g)
  }

  // Derived positions. The anchor's are page-absolute (from the offset walk);
  // the bubble's are the values written to its top/left styles, which are
  // page coordinates when the bubble's containing block is the page.

  function AnchorCentreX(g: Geometry): real { g.elemLeft + g.elemWidth / 2.0 }

  function AnchorBottom(g: Geometry): real { g.elemTop + g.elemHeight }

  function BubbleBottom(g: Geometry, p: Placement): real
    requires p.Placed?
  {
    p.overlayTop + g.rootHeight
  }

  function BubbleRight(g: Geometry, p: Placement): real
    requires p.Placed?
  {
    p.overlayLeft + g.rootWidth
  }

  function BubbleCentreX(g: Geometry, p: Placement): real
    requires p.Placed?
  {
    p.overlayLeft + g.rootWidth / 2.0
  }

  /** Absolute horizontal centre of the pointer: its left is relative to the bubble. */
  function PointerCentreX(g: Geometry, p: Placement): real
    requires p.Placed?
  {
    p.overlayLeft + p.pointerLeft + g.pointerWidth / 2.0
  }

  /** Placement above the anchor. */
  function PlaceAbove(g: Geometry): (p: Placement)
    ensures p.Placed? && p.side == Above && p.pointerClass == BottomClass
    ensures BubbleBottom(g, p) + Gap == g.elemTop
    ensures BubbleCentreX(g, p) == AnchorCentreX(g) + g.offsetLeft
    ensures PointerCentreX(g, p) == AnchorCentreX(g)
    ensures p.pointerTop == g.rootHeight
  {
    Placed(Above,
           g.elemTop - g.rootHeight - Gap,
           (g.elemWidth - g.rootWidth) / 2.0 + g.elemLeft + g.offsetLeft,
           g.rootHeight,
           (g.rootWidth - g.pointerWidth) / 2.0 - g.offsetLeft,
           BottomClass)
  }

  /** Placement below the anchor; the pointer keeps the bubble's height as its top. */
  function PlaceBelow(g: Geometry): (p: Placement)
    ensures p.Placed? && p.side == Below && p.pointerClass == NoSideClass
    ensures p.overlayTop == AnchorBottom(g) + Gap
    ensures BubbleCentreX(g, p) == AnchorCentreX(g) + g.offsetLeft
    ensures PointerCentreX(g, p) == AnchorCentreX(g)
    ensures p.pointerTop == g.rootHeight
  {
    Placed(Below,
           g.elemTop + g.elemHeight + Gap,
           (g.elemWidth - g.rootWidth) / 2.0 + g.elemLeft + g.offsetLeft,
           g.rootHeight,
           (g.rootWidth - g.pointerWidth) / 2.0 - g.offsetLeft,
           NoSideClass)
  }

  /** Placement to the left of the anchor, top-aligned with it, pointer centred vertically. */
  function PlaceLeft(g: Geometry): (p: Placement)
    ensures p.Placed? && p.side == Left && p.pointerClass == RightClass
    ensures p.overlayTop == g.elemTop
    ensures BubbleRight(g, p) + Gap == g.elemLeft
    ensures p.pointerTop + g.pointerHeight / 2.0 == g.rootHeight / 2.0
    ensures p.pointerLeft == 0.0
  {
    Placed(Left,
           g.elemTop,
           g.elemLeft - g.rootWidth - Gap,
           (g.rootHeight - g.pointerHeight) / 2.0,
           0.0,
           RightClass)
  }

  /**
   * The Right branch: the bubble's left uses the same formula as Left, so the
   * bubble still ends 20 units left of the anchor; the pointer's top is
   * computed from horizontal quantities and its left is the bubble's width.
   */
  function PlaceRight(g: Geometry): (p: Placement)
    ensures p.Placed? && p.side == Right && p.pointerClass == RightClass
    ensures p.overlayTop == g.elemTop
    ensures BubbleRight(g, p) + Gap == g.elemLeft
    ensures p.pointerTop == g.elemLeft + g.elemWidth + Gap
    ensures p.pointerLeft == g.rootWidth
  {
    Placed(Right,
           g.elemTop,
           g.elemLeft - g.rootWidth - Gap,
           g.elemLeft + g.elemWidth + Gap,
           g.rootWidth,
           RightClass)
  }

  /**
   * The solver: first fit over Above, Below, Left, Right. The chosen side
   * passes its test and every side tried before it fails; NoFit exactly when
   * every test fails.
   */
  function Solve(g: Geometry): (p: Placement)
    ensures p.NoFit? <==> forall s: Side :: !Fits(g, s)
    ensures p.Placed? ==> Fits(g, p.side)
    ensures p.Placed? ==> forall s: Side :: Rank(s) < Rank(p.side) ==> !Fits(g, s)
  {
    if CanPlaceAbove(g) then assert Fits(g, Above); PlaceAbove(g)
    else if CanPlaceBelow(g) then assert Fits(g, Below); PlaceBelow(g)
    else if CanPlaceLeft(g) then assert Fits(g, Left); PlaceLeft(g)
    else if CanPlaceRight(g) then assert Fits(g, Right); PlaceRight(g)
    else NoFit
  }

  /** Reference first fit: the first side of `order` whose test passes. */
  function FirstFit(g: Geometry, order: seq<Side>): (r: Option<Side>)
    ensures r.Some? ==> r.value in order && Fits(g, r.value)
    ensures r.None? <==> forall i :: 0 <= i < |order| ==> !Fits(g, order[i])
  {
    if |order| == 0 then None
    else if Fits(g, order[0]) then Some(order[0])
    else FirstFit(g, order[1..])
  }

  /** The solver's side is the first side of SideOrder that fits, and NoFit when there is none. */
  lemma SolveIsFirstFit(g: Geometry)
    ensures Solve(g).NoFit? <==> FirstFit(g, SideOrder).None?
    ensures Solve(g).Placed? ==> FirstFit(g, SideOrder) == Some(Solve(g).side)
  {
    assert SideOrder[1..] == [Below, Left, Right];
    assert SideOrder[1..][1..] == [Left, Right];
    assert SideOrder[1..][1..][1..] == [Right];
    assert SideOrder[1..][1..][1..][1..] == [];
    assert FirstFit(g, [Right]) == if Fits(g, Right) then Some(Right) else FirstFit(g, []);
    assert FirstFit(g, [Left, Right]) == if Fits(g, Left) then Some(Left) else FirstFit(g, [Right]);
    assert FirstFit(g, [Below, Left, Right]) == if Fits(g, Below) then Some(Below) else FirstFit(g, [Left, Right]);
    assert FirstFit(g, SideOrder) == if Fits(g, Above) then Some(Above) else FirstFit(g, [Below, Left, Right]);
  }

  /** The solver's result is entirely determined by the side chosen. */
  lemma SolvePlacesChosenSide(g: Geometry)
    ensures Solve(g).Placed? && Solve(g).side == Above ==> Solve(g) == PlaceAbove(g)
    ensures Solve(g).Placed? && Solve(g).side == Below ==> Solve(g) == PlaceBelow(g)
    ensures Solve(g).Placed? && Solve(g).side == Left ==> Solve(g) == PlaceLeft(g)
    ensures Solve(g).Placed? && Solve(g).side == Right ==> Solve(g) == PlaceRight(g)
  {
  }

  /**
   * The pointer aims at the anchor's horizontal centre for every caller offset
   * when the bubble is above or below: the offset moves the bubble and the
   * pointer moves back by the same amount.
   */
  lemma PointerAimIgnoresOffset(g: Geometry, offset: real)
    requires Solve(g).Placed? && Solve(g).side in {Above, Below}
    ensures Solve(g.(offsetLeft := offset)).Placed?
    ensures Solve(g.(offsetLeft := offset)).side == Solve(g).side
    ensures PointerCentreX(g, Solve(g)) == PointerCentreX(g, Solve(g.(offsetLeft := offset)))
    ensures BubbleCentreX(g, Solve(g.(offsetLeft := offset))) - BubbleCentreX(g, Solve(g)) == offset - g.offsetLeft
  {
  }

  /**
   * When Right is chosen the Left test has failed, so the bubble, placed with
   * Left's formula, has a left style of at most -20: at least 20 units left of the
   * page's left edge when the bubble is positioned against the page.
   */
  lemma RightPlacementStartsOffPage(g: Geometry)
    requires Solve(g).Placed? && Solve(g).side == Right
    ensures Solve(g).overlayLeft <= -Gap
  {
  }

  /**
   * The fit test for Above ignores the gap: a bubble placed above gets a top
   * style greater than -20, which may be negative, so it can begin up to 20
   * units above the page's top edge when it is positioned against the page.
   */
  lemma AbovePlacementTopBound(g: Geometry)
    requires Solve(g).Placed? && Solve(g).side == Above
    ensures -Gap < Solve(g).overlayTop
  {
  }
}
