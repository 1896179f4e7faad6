/** Integer rectangles as the response-curve component trims them.
    `RemoveFromTop` and friends follow the framework's Rectangle<int>:
    the strip removed is clipped to the rectangle's own size, so a
    rectangle never gets a negative width or height. */
module Geometry {

  datatype Rect = Rect(x: int, y: int, w: nat, h: nat) {
    function Right(): int { x + w }
    function Bottom(): int { y + h }

    /** Every point of `this` is a point of `outer`. */
    predicate Within(outer: Rect) {
      outer.x <= x && outer.y <= y && Right() <= outer.Right() && Bottom() <= outer.Bottom()
    }
  }

  function Min(a: nat, b: nat): nat { if a <= b then a else b }

  /** The rectangle left after cutting a strip of height `amount` off the top. */
  function RemoveFromTop(r: Rect, amount: nat): (s: Rect)
    ensures s.x == r.x && s.w == r.w && s.Bottom() == r.Bottom()
    ensures s.h == if amount <= r.h then r.h - amount else 0
  {
    var cut := Min(amount, r.h);
    Rect(r.x, r.y + cut, r.w, r.h - cut)
  }

  /** The rectangle left after cutting a strip of height `amount` off the bottom. */
  function RemoveFromBottom(r: Rect, amount: nat): (s: Rect)
    ensures s.x == r.x && s.y == r.y && s.w == r.w
    ensures s.h == if amount <= r.h then r.h - amount else 0
  {
    Rect(r.x, r.y, r.w, r.h - Min(amount, r.h))
  }

  /** The rectangle left after cutting a strip of width `amount` off the left. */
  function RemoveFromLeft(r: Rect, amount: nat): (s: Rect)
    ensures s.y == r.y && s.h == r.h && s.Right() == r.Right()
    ensures s.w == if amount <= r.w then r.w - amount else 0
  {
    var cut := Min(amount, r.w);
    Rect(r.x + cut, r.y, r.w - cut, r.h)
  }

  /** The rectangle left after cutting a strip of width `amount` off the right. */
  function RemoveFromRight(r: Rect, amount: nat): (s: Rect)
    ensures s.x == r.x && s.y == r.y && s.h == r.h
    ensures s.w == if amount <= r.w then r.w - amount else 0
  {
    Rect(r.x, r.y, r.w - Min(amount, r.w), r.h)
  }

  /** A component's local bounds: its own size at the origin. */
  function LocalBounds(width: nat, height: nat): Rect { Rect(0, 0, width, height) }

  /** getRenderArea: the local bounds less 12 at the top, 2 at the bottom
      and 20 on either side. */
  function RenderArea(width: nat, height: nat): (r: Rect)
    ensures r.Within(LocalBounds(width, height))
    ensures width >= 40 && height >= 14 ==> r == Rect(20, 12, width - 40, height - 14)
    ensures width < 40 ==> r.w == 0
    ensures height < 14 ==> r.h == 0
  {
    var b := LocalBounds(width, height);
    var b1 := RemoveFromTop(b, 12);
    var b2 := RemoveFromBottom(b1, 2);
    var b3 := RemoveFromLeft(b2, 20);
    RemoveFromRight(b3, 20)
  }

  /** getAnalysisArea: the render area less a further 4 at the top and 4 at
      the bottom. */
  function AnalysisArea(width: nat, height: nat): (r: Rect)
    ensures r.Within(RenderArea(width, height))
    ensures r.x == RenderArea(width, height).x && r.w == RenderArea(width, height).w
    ensures width >= 40 && height >= 22 ==> r == Rect(20, 16, width - 40, height - 22)
    ensures height < 22 ==> r.h == 0
  {
    var b := RenderArea(width, height);
    RemoveFromBottom(RemoveFromTop(b, 4), 4)
  }

  /** The analysis area sits inside the component, so everything drawn in it
      (grid, response curve, analyser paths) stays on the component. */
  lemma AnalysisAreaWithinBounds(width: nat, height: nat)
    ensures AnalysisArea(width, height).Within(LocalBounds(width, height))
  {
    var a, r, b := AnalysisArea(width, height), RenderArea(width, height), LocalBounds(width, height);
    assert a.Within(r) && r.Within(b);
  }
}
