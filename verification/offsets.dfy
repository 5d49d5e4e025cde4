/**
 * The absolute position of the anchor element: the sum of the offsets found
 * while walking from the element up through its chain of offset parents.
 */
module Offsets {
  import opened Wrappers

  /** One element of the offset-parent chain; an offset the DOM reports as NaN is None. */
  datatype NodeOffset = NodeOffset(left: Option<real>, top: Option<real>)

  /** The contribution of one offset: NaN entries are skipped. */
  function Contribution(o: Option<real>): real
  {
    if o.Some? then o.value else 0.0
  }

  /** Reference definition: the sum of the defined offsets of a chain. */
  function SumDefined(offsets: seq<Option<real>>): real
  {
    if |offsets| == 0 then 0.0 else Contribution(offsets[0]) + SumDefined(offsets[1..])
  }

  /** The horizontal offsets of a chain, element first. */
  function Lefts(chain: seq<NodeOffset>): (r: seq<Option<real>>)
    ensures |r| == |chain|
    ensures forall i :: 0 <= i < |chain| ==> r[i] == chain[i].left
  {
    seq(|chain|, i requires 0 <= i < |chain| => chain[i].left)
  }

  /** The vertical offsets of a chain, element first. */
  function Tops(chain: seq<NodeOffset>): (r: seq<Option<real>>)
    ensures |r| == |chain|
    ensures forall i :: 0 <= i < |chain| ==> r[i] == chain[i].top
  {
    seq(|chain|, i requires 0 <= i < |chain| => chain[i].top)
  }

  /** The sum over a concatenated chain is the sum of the sums of its parts. */
  lemma {:induction false} SumDefinedAppend(a: seq<Option<real>>, b: seq<Option<real>>)
    ensures SumDefined(a + b) == SumDefined(a) + SumDefined(b)
    decreases |a|
  {
    if |a| == 0 {
      assert a + b == b;
    } else {
      assert (a + b)[1..] == a[1..] + b;
      SumDefinedAppend(a[1..], b);
    }
  }

  /** A NaN offset anywhere on the chain leaves the absolute position unchanged. */
  lemma NaNIsSkipped(a: seq<Option<real>>, b: seq<Option<real>>)
    ensures SumDefined(a + [None] + b) == SumDefined(a + b)
  {
    SumDefinedAppend(a + [None], b);
    SumDefinedAppend(a, [None]);
    SumDefinedAppend(a, b);
  }

  /** A chain on which every offset is NaN contributes nothing. */
  lemma {:induction false} AllNaNIsZero(offsets: seq<Option<real>>)
    requires forall i :: 0 <= i < |offsets| ==> offsets[i].None?
    ensures SumDefined(offsets) == 0.0
    decreases |offsets|
  {
    if |offsets| > 0 {
      AllNaNIsZero(offsets[1..]);
    }
  }

  /**
   * The walk as the source performs it: a running total, starting at 0,
   * to which each defined offset is added while moving to the parent.
   */
  method WalkOffsets(offsets: seq<Option<real>>) returns (total: real)
    ensures total == SumDefined(offsets)
  {
    total := 0.0;
    var i := 0;
    while i < |offsets|
      invariant 0 <= i <= |offsets|
      invariant total == SumDefined(offsets[..i])
    {
      if offsets[i].Some? {
        total := total + offsets[i].value;
      }
      SumDefinedAppend(offsets[..i], [offsets[i]]);
      assert offsets[..i + 1] == offsets[..i] + [offsets[i]];
      i := i + 1;
    }
    assert offsets[..i] == offsets;
  }

  /** The absolute left of an element: its own offset plus those of all offset parents. */
  function AbsoluteLeft(chain: seq<NodeOffset>): real
  {
    SumDefined(Lefts(chain))
  }

  /** The absolute top of an element: its own offset plus those of all offset parents. */
  function AbsoluteTop(chain: seq<NodeOffset>): real
  {
    SumDefined(Tops(chain))
  }

  /** An element's absolute position is its own offset plus its offset parent's absolute position. */
  lemma AbsoluteIsOwnPlusParent(node: NodeOffset, parents: seq<NodeOffset>)
    ensures AbsoluteLeft([node] + parents) == Contribution(node.left) + AbsoluteLeft(parents)
    ensures AbsoluteTop([node] + parents) == Contribution(node.top) + AbsoluteTop(parents)
  {
    assert Lefts([node] + parents) == [node.left] + Lefts(parents);
    assert Tops([node] + parents) == [node.top] + Tops(parents);
    SumDefinedAppend([node.left], Lefts(parents));
    SumDefinedAppend([node.top], Tops(parents));
  }
}
