/** The guided tour of the onboarding card (src/components/Onboarding.tsx):
    where the popup and its arrow go beside a target rectangle, and the
    tour's state as the user opens it, steps through it and closes it.
    The target's rectangle and the viewport size are inputs; finding the
    element in the page is not modelled. */
module Onboarding {
  import opened JsValues

  const POPUP_MAX_WIDTH: real := 520.0
  const POPUP_HEIGHT: real := 160.0
  const MARGIN: real := 12.0

  /** A bounding rectangle as the page reports it. */
  datatype Rect = Rect(left: real, top: real, width: real, height: real) {
    function Right(): real { left + width }
    function Bottom(): real { top + height }
    function CenterX(): real { left + width / 2.0 }
    function MiddleY(): real { top + height / 2.0 }
  }

  datatype PopupPos = PopupPos(left: real, top: real)
  datatype ArrowPos = ArrowPos(left: real, top: real, rotation: int)
  datatype Placement = Placement(popup: PopupPos, arrow: ArrowPos)

  function MaxR(a: real, b: real): real { if a >= b then a else b }
  function MinR(a: real, b: real): real { if a <= b then a else b }

  /** The popup's width: 520, or 32 less than the viewport when that is less. */
  function PopupWidth(vw: real): real {
    MinR(POPUP_MAX_WIDTH, vw - 32.0)
  }

  /** The final clamp of the popup's top into [12, vh - 172]; the lower
      bound wins when the viewport is too short for both. */
  function ClampTop(t: real, vh: real): (r: real)
    ensures r >= MARGIN
    ensures vh - POPUP_HEIGHT - MARGIN >= MARGIN ==> r <= vh - POPUP_HEIGHT - MARGIN
    ensures MARGIN <= t <= vh - POPUP_HEIGHT - MARGIN ==> r == t
  {
    MaxR(MARGIN, MinR(t, vh - POPUP_HEIGHT - MARGIN))
  }

  datatype Side = RightOf | LeftOf | Below | Above | Centered

  /** The popup goes right of the target; left of it when it would pass the
      viewport's right edge; and when neither side fits within [12, vw - 12],
      below, else above, else in the vertical middle of the viewport. */
  function ChooseSide(rect: Rect, vw: real, vh: real): Side {
    var w := PopupWidth(vw);
    var flip := rect.Right() + MARGIN + w > vw - 12.0;
    var left := if flip then rect.left - MARGIN - w else rect.Right() + MARGIN;
    if !(left < 12.0 || left + w > vw - 12.0) then
      (if flip then LeftOf else RightOf)
    else if rect.Bottom() + MARGIN + POPUP_HEIGHT < vh - 12.0 then Below
    else if rect.top - MARGIN - POPUP_HEIGHT > 12.0 then Above
    else Centered
  }

  /** The placement for each side, in closed form. */
  function PlacementFor(rect: Rect, vw: real, vh: real): Placement {
    var w := PopupWidth(vw);
    var centred := MaxR(12.0, rect.CenterX() - w / 2.0);
    match ChooseSide(rect, vw, vh)
    case RightOf =>
      Placement(PopupPos(rect.Right() + MARGIN, ClampTop(rect.MiddleY() - POPUP_HEIGHT / 2.0, vh)),
                ArrowPos(rect.Right() + 8.0, rect.MiddleY(), 180))
    case LeftOf =>
      Placement(PopupPos(rect.left - MARGIN - w, ClampTop(rect.MiddleY() - POPUP_HEIGHT / 2.0, vh)),
                ArrowPos(rect.left - 8.0, rect.MiddleY(), 0))
    case Below =>
      Placement(PopupPos(centred, ClampTop(rect.Bottom() + MARGIN, vh)),
                ArrowPos(rect.CenterX(), rect.Bottom() + 4.0, -90))
    case Above =>
      Placement(PopupPos(centred, ClampTop(rect.top - MARGIN - POPUP_HEIGHT, vh)),
                ArrowPos(rect.CenterX(), rect.top - 4.0, 90))
    case Centered =>
      Placement(PopupPos(centred, ClampTop((vh - POPUP_HEIGHT) / 2.0, vh)),
                ArrowPos(rect.CenterX(), rect.MiddleY(), 180))
  }

  predicate KnownRotation(r: int) {
    r == 180 || r == 0 || r == -90 || r == 90
  }

  /** `computePopupPosition`: the default right-hand placement, revised in
      turn by the two overflow checks, then the top clamped. */
  method ComputePopupPosition(rect: Rect, vw: real, vh: real) returns (p: Placement)
    ensures p == PlacementFor(rect, vw, vh)
  {
    var popupW := PopupWidth(vw);
    var popupH := POPUP_HEIGHT;
    var margin := MARGIN;

    var left := rect.Right() + margin;
    var top := rect.top + rect.height / 2.0 - popupH / 2.0;
    var arrowLeft := rect.Right() + 8.0;
    var arrowTop := rect.top + rect.height / 2.0;
    var rotation := 180;

    if left + popupW > vw - 12.0 {
      left := rect.left - margin - popupW;
      rotation := 0;
      arrowLeft := rect.left - 8.0;
      arrowTop := rect.top + rect.height / 2.0;
    }

    if left < 12.0 || left + popupW > vw - 12.0 {
      left := MaxR(12.0, rect.left + rect.width / 2.0 - popupW / 2.0);
      var belowTop := rect.Bottom() + margin;
      var aboveTop := rect.top - margin - popupH;

      if belowTop + popupH < vh - 12.0 {
        top := belowTop;
        arrowTop := rect.Bottom() + 4.0;
        arrowLeft := rect.left + rect.width / 2.0;
        rotation := -90;
      } else if aboveTop > 12.0 {
        top := aboveTop;
        arrowTop := rect.top - 4.0;
        arrowLeft := rect.left + rect.width / 2.0;
        rotation := 90;
      } else {
        top := (vh - popupH) / 2.0;
        arrowTop := rect.top + rect.height / 2.0;
        arrowLeft := rect.left + rect.width / 2.0;
        rotation := 180;
      }
    }

    top := MaxR(12.0, MinR(top, vh - popupH - 12.0));
    p := Placement(PopupPos(left, top), ArrowPos(arrowLeft, arrowTop, rotation));
  }

  /** Wherever it goes, the popup's top is at least 12 and, in a viewport at
      least 184 high, leaves 12 below it; the arrow turns one of four ways. */
  lemma PlacementBounds(rect: Rect, vw: real, vh: real)
    ensures var p := PlacementFor(rect, vw, vh);
      p.popup.top >= 12.0
      && (vh >= 184.0 ==> p.popup.top <= vh - 172.0)
      && KnownRotation(p.arrow.rotation)
  {
  }

  /** Placed beside the target, the popup lies within [12, vw - 12]; placed
      above, below or in the middle, its left edge is at least 12 and the
      arrow points at the target's horizontal centre. */
  lemma PlacementHorizontal(rect: Rect, vw: real, vh: real)
    ensures var p := PlacementFor(rect, vw, vh);
      var side := ChooseSide(rect, vw, vh);
      ((side == RightOf || side == LeftOf) ==>
         12.0 <= p.popup.left && p.popup.left + PopupWidth(vw) <= vw - 12.0)
      && (!(side == RightOf || side == LeftOf) ==> p.popup.left >= 12.0 && p.arrow.left == rect.CenterX())
  {
  }

  /** The arrow's rotation tells which side the popup is on: 0 on the left,
      -90 below, 90 above, 180 on the right or in the middle. */
  lemma RotationShowsSide(rect: Rect, vw: real, vh: real)
    ensures var r := PlacementFor(rect, vw, vh).arrow.rotation;
      var side := ChooseSide(rect, vw, vh);
      (r == 0 <==> side == LeftOf) && (r == -90 <==> side == Below) && (r == 90 <==> side == Above)
      && (r == 180 <==> side == RightOf || side == Centered)
  {
  }

  /** The step index clamped to the last step, then to 0. */
  function ClampStep(index: int, count: nat): (i: int)
    ensures 0 <= i
    ensures count > 0 ==> i < count
    ensures count == 0 ==> i == 0
    ensures 0 <= index < count ==> i == index
    ensures count > 0 && index >= count ==> i == count - 1
  {
    MaxI(0, MinI(index, count - 1))
  }

  function MaxI(a: int, b: int): int { if a >= b then a else b }
  function MinI(a: int, b: int): int { if a <= b then a else b }

  const KEY_ESCAPE := "Escape"
  const KEY_RIGHT := "ArrowRight"
  const KEY_LEFT := "ArrowLeft"

  class Tour {
    const stepCount: nat
    var isTourOpen: bool
    var currentStep: int
    var targetRect: Option<Rect>
    var popupPos: Option<PopupPos>
    var arrowPos: Option<ArrowPos>

    /** The current step is a step of the list (0 for an empty list); the
        popup and its arrow are shown together, for a known target, with the
        popup's top at least 12 and the arrow turned one of four ways. */
    predicate Valid()
      reads this
    {
      0 <= currentStep && (currentStep < stepCount || currentStep == 0) && ShownValid()
    }

    predicate ShownValid()
      reads this
    {
      (popupPos.Some? <==> arrowPos.Some?)
      && (popupPos.Some? ==> targetRect.Some? && popupPos.value.top >= MARGIN
                             && KnownRotation(arrowPos.value.rotation))
    }

    /** The popup and arrow shown beside `rect`, its placement computed for
        the viewport. */
    predicate ShownAt(rect: Rect, vw: real, vh: real)
      reads this
    {
      targetRect == Some(rect)
      && popupPos == Some(PlacementFor(rect, vw, vh).popup)
      && arrowPos == Some(PlacementFor(rect, vw, vh).arrow)
    }

    constructor (count: nat)
      ensures Valid()
      ensures stepCount == count && !isTourOpen && currentStep == 0
      ensures targetRect.None? && popupPos.None? && arrowPos.None?
    {
      stepCount := count;
      isTourOpen := false;
      currentStep := 0;
      targetRect := None;
      popupPos := None;
      arrowPos := None;
    }

    /** `gotoStep(index)`: the index clamped into the list; once the step's
        element is `found`, its rectangle and the placement beside it. While
        it is not found the polling goes on and nothing else changes. */
    method GotoStep(index: int, found: Option<Rect>, vw: real, vh: real)
      requires ShownValid()
      modifies this
      ensures Valid()
      ensures currentStep == ClampStep(index, stepCount) && isTourOpen == old(isTourOpen)
      ensures found.Some? ==> ShownAt(found.value, vw, vh)
      ensures found.None? ==> (targetRect == old(targetRect) && popupPos == old(popupPos)
                && arrowPos == old(arrowPos))
    {
      currentStep := ClampStep(index, stepCount);
      if found.Some? {
        targetRect := found;
        var p := ComputePopupPosition(found.value, vw, vh);
        PlacementBounds(found.value, vw, vh);
        popupPos := Some(p.popup);
        arrowPos := Some(p.arrow);
      }
    }

    /** `openTour(start)`, with the animation frame it schedules. */
    method OpenTour(start: int, found: Option<Rect>, vw: real, vh: real)
      requires Valid()
      modifies this
      ensures Valid()
      ensures isTourOpen && currentStep == ClampStep(start, stepCount)
      ensures found.Some? ==> ShownAt(found.value, vw, vh)
      ensures found.None? ==> (targetRect == old(targetRect) && popupPos == old(popupPos)
                && arrowPos == old(arrowPos))
    {
      currentStep := start;
      isTourOpen := true;
      GotoStep(MaxI(0, start), found, vw, vh);
    }

    /** `closeTour`: closed, with no target, popup or arrow. */
    method CloseTour()
      requires Valid()
      modifies this
      ensures Valid()
      ensures !isTourOpen && targetRect.None? && popupPos.None? && arrowPos.None?
      ensures currentStep == old(currentStep)
    {
      isTourOpen := false;
      targetRect := None;
      popupPos := None;
      arrowPos := None;
    }

    /** `next`: one step on, or close the tour from the last step. */
    method Next(found: Option<Rect>, vw: real, vh: real)
      requires Valid()
      modifies this
      ensures Valid()
      ensures old(currentStep) < stepCount - 1 ==>
                currentStep == old(currentStep) + 1 && isTourOpen == old(isTourOpen)
      ensures old(currentStep) < stepCount - 1 && found.Some? ==> ShownAt(found.value, vw, vh)
      ensures old(currentStep) < stepCount - 1 && found.None? ==>
                (targetRect == old(targetRect) && popupPos == old(popupPos) && arrowPos == old(arrowPos))
      ensures old(currentStep) >= stepCount - 1 ==>
                !isTourOpen && targetRect.None? && popupPos.None? && arrowPos.None?
                && currentStep == old(currentStep)
    {
      if currentStep < stepCount - 1 {
        GotoStep(currentStep + 1, found, vw, vh);
      } else {
        CloseTour();
      }
    }

    /** `prev`: one step back, and nothing at the first step. */
    method Prev(found: Option<Rect>, vw: real, vh: real)
      requires Valid()
      modifies this
      ensures Valid()
      ensures old(currentStep) > 0 ==> currentStep == old(currentStep) - 1 && isTourOpen == old(isTourOpen)
      ensures old(currentStep) > 0 && found.Some? ==> ShownAt(found.value, vw, vh)
      ensures old(currentStep) > 0 && found.None? ==>
                (targetRect == old(targetRect) && popupPos == old(popupPos) && arrowPos == old(arrowPos))
      ensures old(currentStep) == 0 ==> (currentStep == 0 && isTourOpen == old(isTourOpen)
                && targetRect == old(targetRect) && popupPos == old(popupPos) && arrowPos == old(arrowPos))
    {
      if currentStep > 0 {
        GotoStep(currentStep - 1, found, vw, vh);
      }
    }

    /** The resize listener, registered only while the tour is open: place
        the popup again for the current step. */
    method OnResize(found: Option<Rect>, vw: real, vh: real)
      requires Valid()
      modifies this
      ensures Valid()
      ensures currentStep == old(currentStep) && isTourOpen == old(isTourOpen)
      ensures !old(isTourOpen) || found.None? ==> (targetRect == old(targetRect) && popupPos == old(popupPos)
                && arrowPos == old(arrowPos))
      ensures old(isTourOpen) && found.Some? ==> ShownAt(found.value, vw, vh)
    {
      if isTourOpen {
        GotoStep(currentStep, found, vw, vh);
      }
    }

    /** The keydown handler: ignored while the tour is closed; Escape closes
        it, ArrowRight is `next`, ArrowLeft is `prev`, other keys do nothing. */
    method HandleKey(key: string, found: Option<Rect>, vw: real, vh: real)
      requires Valid()
      modifies this
      ensures Valid()
      ensures !old(isTourOpen) || (key != KEY_ESCAPE && key != KEY_RIGHT && key != KEY_LEFT) ==>
                isTourOpen == old(isTourOpen) && currentStep == old(currentStep)
                && targetRect == old(targetRect) && popupPos == old(popupPos) && arrowPos == old(arrowPos)
      ensures old(isTourOpen) && key == KEY_ESCAPE ==>
                !isTourOpen && targetRect.None? && popupPos.None? && arrowPos.None?
                && currentStep == old(currentStep)
      ensures old(isTourOpen) && key == KEY_RIGHT && old(currentStep) < stepCount - 1 ==>
                isTourOpen && currentStep == old(currentStep) + 1
      ensures old(isTourOpen) && key == KEY_RIGHT && old(currentStep) >= stepCount - 1 ==>
                !isTourOpen && targetRect.None? && popupPos.None? && arrowPos.None?
                && currentStep == old(currentStep)
      ensures old(isTourOpen) && key == KEY_LEFT ==>
                isTourOpen && currentStep == MaxI(0, old(currentStep) - 1)
      // a step that moves shows the popup at the new target once it is found
      ensures old(isTourOpen) && found.Some?
              && ((key == KEY_RIGHT && old(currentStep) < stepCount - 1) || (key == KEY_LEFT && old(currentStep) > 0)) ==>
                ShownAt(found.value, vw, vh)
      ensures old(isTourOpen) && found.None?
              && ((key == KEY_RIGHT && old(currentStep) < stepCount - 1) || key == KEY_LEFT) ==>
                (targetRect == old(targetRect) && popupPos == old(popupPos) && arrowPos == old(arrowPos))
      // ArrowLeft at the first step is `prev` doing nothing
      ensures old(isTourOpen) && key == KEY_LEFT && old(currentStep) == 0 ==>
                (targetRect == old(targetRect) && popupPos == old(popupPos) && arrowPos == old(arrowPos))
    {
      if !isTourOpen {
        return;
      }
      if key == KEY_ESCAPE {
        CloseTour();
      } else if key == KEY_RIGHT {
        Next(found, vw, vh);
      } else if key == KEY_LEFT {
        Prev(found, vw, vh);
      }
    }
  }
}
