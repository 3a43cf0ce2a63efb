/** The drag-to-dismiss sheet (Modal.js).

    Four shared values: the sheet's vertical position `y`, its `scale`, its `width`
    and its elevation (`shadow`). A pan gesture lifts the sheet (scale 0.95,
    elevation 0), lets the finger move it, and on release snaps it to one of two
    rest positions: open at 10 or closed at `wHeight - 100`. The screen size is a
    parameter. */
module Modal {
  import opened Animated
  import opened Gesture

  /** The open rest position. */
  const OpenY: real := 10.0
  /** Where `showModal` sends the sheet. */
  const ShownY: real := 0.0
  /** A release further than this from the start position counts as a drag. */
  const DragDistance: real := 50.0
  const RestScale: real := 1.0
  const LiftScale: real := 0.95
  const RestElevation: real := 5.0
  const LiftElevation: real := 0.0

  /** The closed rest position, 100 units above the bottom of the screen. */
  function ClosedY(wHeight: real): real { wHeight - 100.0 }

  /** The width of the closed sheet: 10 units of margin on each side. */
  function InsetWidth(wWidth: real): real { wWidth - 20.0 }

  function Midpoint(wHeight: real): real { wHeight / 2.0 }

  function Abs(x: real): real { if x < 0.0 then -x else x }

  /** The sheet's shared values and the pan handler's context slot `startY`. */
  datatype SheetValues = SheetValues(y: Shared, scale: Shared, width: Shared, shadow: Shared,
                                     startY: Option<real>)

  /** Where the sheet rests after a release that started at `startY` and ended at
      `finalY`. A drag longer than 50 units moves a sheet that started below the
      midpoint up to the open position and any other sheet to the closed one; a
      shorter movement sends a sheet that started above the midpoint back to the open
      position and any other sheet to the closed one. The first rule compares with
      `>`, the second with `<`: a start exactly at the midpoint closes under both. */
  function SnapTarget(startY: real, finalY: real, wHeight: real): (r: real)
    ensures r == OpenY || r == ClosedY(wHeight)
    ensures Abs(finalY - startY) > DragDistance && startY > Midpoint(wHeight) ==> r == OpenY
    ensures Abs(finalY - startY) > DragDistance && startY <= Midpoint(wHeight) ==> r == ClosedY(wHeight)
    ensures Abs(finalY - startY) <= DragDistance && startY < Midpoint(wHeight) ==> r == OpenY
    ensures Abs(finalY - startY) <= DragDistance && startY >= Midpoint(wHeight) ==> r == ClosedY(wHeight)
  {
    if Abs(finalY - startY) > DragDistance then
      (if startY > Midpoint(wHeight) then OpenY else ClosedY(wHeight))
    else
      (if startY < Midpoint(wHeight) then OpenY else ClosedY(wHeight))
  }

  /** The width a release aims at: the full screen width exactly when the gesture
      started below the midpoint, the inset width otherwise. */
  function WidthTarget(startY: real, wHeight: real, wWidth: real): (r: real)
    ensures r == wWidth || r == InsetWidth(wWidth)
    ensures r == wWidth <==> startY > Midpoint(wHeight)
  {
    if startY > Midpoint(wHeight) then wWidth else InsetWidth(wWidth)
  }

  /** Away from the midpoint the long-drag rule and the short-movement rule pick
      opposite rest positions for the same start; at the midpoint both pick the
      closed one. */
  lemma SnapRulesDisagree(startY: real, far: real, near: real, wHeight: real)
    requires Abs(far - startY) > DragDistance && Abs(near - startY) <= DragDistance
    requires OpenY != ClosedY(wHeight)
    ensures startY != Midpoint(wHeight) ==>
              (SnapTarget(startY, far, wHeight) == OpenY <==> SnapTarget(startY, near, wHeight) == ClosedY(wHeight))
    ensures startY == Midpoint(wHeight) ==>
              SnapTarget(startY, far, wHeight) == ClosedY(wHeight) == SnapTarget(startY, near, wHeight)
  {
  }

  /** The width rule agrees with the long-drag rule: after a real drag the sheet
      aims at full width exactly when it aims at the open position. */
  lemma WidthFollowsLongDragRule(startY: real, far: real, wHeight: real, wWidth: real)
    requires Abs(far - startY) > DragDistance
    requires OpenY != ClosedY(wHeight)
    ensures WidthTarget(startY, wHeight, wWidth) == wWidth <==> SnapTarget(startY, far, wHeight) == OpenY
  {
  }

  /** The mount values: closed, scale 1, inset width, elevation 5, all at rest, and
      no gesture context yet. */
  function Mount(wHeight: real, wWidth: real): (s: SheetValues)
    ensures s.y.AtRest() && s.scale.AtRest() && s.width.AtRest() && s.shadow.AtRest()
    ensures s.y.current == ClosedY(wHeight) && s.scale.current == RestScale
    ensures s.width.current == InsetWidth(wWidth) && s.shadow.current == RestElevation
    ensures s.startY == None
  {
    SheetValues(At(ClosedY(wHeight)), At(RestScale), At(InsetWidth(wWidth)), At(RestElevation), None)
  }

  /** `showModal`: only the position is aimed, at 0. */
  function Show(s: SheetValues): (r: SheetValues)
    ensures r.y.target == ShownY && r.y.current == s.y.current
    ensures r.(y := s.y) == s
  {
    s.(y := SpringTo(s.y, ShownY))
  }

  /** The pan handler's `onStart`: remember where the sheet is and lift it. */
  function Grab(s: SheetValues): (r: SheetValues)
    ensures r.startY == Some(s.y.current)
    ensures r.scale == SpringTo(s.scale, LiftScale) && r.shadow == SpringTo(s.shadow, LiftElevation)
    ensures r.y == s.y && r.width == s.width
  {
    s.(startY := Some(s.y.current),
       scale := SpringTo(s.scale, LiftScale),
       shadow := SpringTo(s.shadow, LiftElevation))
  }

  /** The pan handler's `onActive`: the sheet follows the finger directly. */
  function Drag(s: SheetValues, translationY: real): (r: SheetValues)
    requires s.startY.Some?
    ensures r.y.AtRest() && r.y.current == s.startY.value + translationY
    ensures r.(y := s.y) == s
  {
    s.(y := At(s.startY.value + translationY))
  }

  /** The pan handler's `onCancel`: only the scale is aimed back at rest. */
  function Cancel(s: SheetValues): (r: SheetValues)
    ensures r.scale == SpringTo(s.scale, RestScale)
    ensures r.(scale := s.scale) == s
  {
    s.(scale := SpringTo(s.scale, RestScale))
  }

  /** The pan handler's `onEnd`: scale and elevation always go back to rest, the
      position snaps by `SnapTarget` from the remembered start and the current
      position, the width by `WidthTarget` from the remembered start alone. */
  function Release(s: SheetValues, wHeight: real, wWidth: real): (r: SheetValues)
    requires s.startY.Some?
    ensures r.scale == SpringTo(s.scale, RestScale) && r.shadow == SpringTo(s.shadow, RestElevation)
    ensures r.y == SpringTo(s.y, SnapTarget(s.startY.value, s.y.current, wHeight))
    ensures r.width == SpringTo(s.width, WidthTarget(s.startY.value, wHeight, wWidth))
    ensures r.startY == s.startY
  {
    var startY := s.startY.value;
    s.(scale := SpringTo(s.scale, RestScale),
       shadow := SpringTo(s.shadow, RestElevation),
       y := SpringTo(s.y, SnapTarget(startY, s.y.current, wHeight)),
       width := SpringTo(s.width, WidthTarget(startY, wHeight, wWidth)))
  }

  /** Every spring has converged. */
  function SettleAll(s: SheetValues): (r: SheetValues)
    ensures r.y.AtRest() && r.scale.AtRest() && r.width.AtRest() && r.shadow.AtRest()
    ensures r.y.target == s.y.target && r.scale.target == s.scale.target
    ensures r.width.target == s.width.target && r.shadow.target == s.shadow.target
    ensures r.startY == s.startY
  {
    s.(y := Settle(s.y), scale := Settle(s.scale), width := Settle(s.width), shadow := Settle(s.shadow))
  }

  /** A run of `onActive` events, one per translation in `moves`. */
  function Drags(s: SheetValues, moves: seq<real>): (r: SheetValues)
    requires s.startY.Some?
    ensures r.startY == s.startY
    decreases |moves|
  {
    if moves == [] then s else Drags(Drag(s, moves[0]), moves[1..])
  }

  /** However many `onActive` events arrive, only the last one counts: the sheet
      sits at the start plus the last translation, and nothing else changes. */
  lemma {:induction false} DragsFollowLastMove(s: SheetValues, moves: seq<real>)
    requires s.startY.Some?
    ensures moves == [] ==> Drags(s, moves) == s
    ensures moves != [] ==> Drags(s, moves) == s.(y := At(s.startY.value + moves[|moves| - 1]))
    decreases |moves|
  {
    if moves != [] {
      var s' := Drag(s, moves[0]);
      DragsFollowLastMove(s', moves[1..]);
      if |moves| > 1 {
        assert moves[1..][|moves[1..]| - 1] == moves[|moves| - 1];
      }
    }
  }

  /** A whole gesture from the mount position (on a screen taller than 200): a drag
      longer than 50 units opens the sheet at full width, and the lift is undone. */
  lemma {:induction false} LongDragFromClosedOpens(wHeight: real, wWidth: real, moves: seq<real>)
    requires wHeight > 200.0 && wWidth > 0.0
    requires moves != [] && Abs(moves[|moves| - 1]) > DragDistance
    ensures var r := Release(Drags(Grab(Mount(wHeight, wWidth)), moves), wHeight, wWidth);
            r.y.target == OpenY && r.width.target == wWidth &&
            r.scale.target == RestScale && r.shadow.target == RestElevation
  {
    var g := Grab(Mount(wHeight, wWidth));
    DragsFollowLastMove(g, moves);
    var d := Drags(g, moves);
    assert d.y.current - g.startY.value == moves[|moves| - 1];
  }

  /** From the open position (on a screen taller than 20) a drag longer than 50
      units closes the sheet at inset width. */
  lemma {:induction false} LongDragFromOpenCloses(s: SheetValues, wHeight: real, wWidth: real, moves: seq<real>)
    requires wHeight > 20.0 && s.y.current == OpenY
    requires moves != [] && Abs(moves[|moves| - 1]) > DragDistance
    ensures var r := Release(Drags(Grab(s), moves), wHeight, wWidth);
            r.y.target == ClosedY(wHeight) && r.width.target == InsetWidth(wWidth)
  {
    var g := Grab(s);
    DragsFollowLastMove(g, moves);
    var d := Drags(g, moves);
    assert d.y.current - g.startY.value == moves[|moves| - 1];
  }

  /** A movement of at most 50 units from the mount position leaves the sheet
      closed, yet the width rule widens it to the full screen width: unlike at mount,
      a closed sheet then has no side margins. */
  lemma {:induction false} ShortDragFromClosedWidens(wHeight: real, wWidth: real, moves: seq<real>)
    requires wHeight > 200.0 && wWidth > 0.0
    requires moves != [] && Abs(moves[|moves| - 1]) <= DragDistance
    ensures var r := Release(Drags(Grab(Mount(wHeight, wWidth)), moves), wHeight, wWidth);
            r.y.target == ClosedY(wHeight) && r.width.target == wWidth
  {
    var g := Grab(Mount(wHeight, wWidth));
    DragsFollowLastMove(g, moves);
    var d := Drags(g, moves);
    assert d.y.current - g.startY.value == moves[|moves| - 1];
  }

  /** A movement of at most 50 units from the open position leaves the sheet open,
      and the width rule aims at the inset width. */
  lemma {:induction false} ShortDragFromOpenStays(s: SheetValues, wHeight: real, wWidth: real, moves: seq<real>)
    requires wHeight > 20.0 && s.y.current == OpenY
    requires moves != [] && Abs(moves[|moves| - 1]) <= DragDistance
    ensures var r := Release(Drags(Grab(s), moves), wHeight, wWidth);
            r.y.target == OpenY && r.width.target == InsetWidth(wWidth)
  {
    var g := Grab(s);
    DragsFollowLastMove(g, moves);
    var d := Drags(g, moves);
    assert d.y.current - g.startY.value == moves[|moves| - 1];
  }

  /** The width a release aims at depends on the remembered start alone, not on
      how far the sheet was dragged. */
  lemma WidthIgnoresDragDistance(a: SheetValues, b: SheetValues, wHeight: real, wWidth: real)
    requires a.startY.Some? && a.startY == b.startY
    ensures Release(a, wHeight, wWidth).width.target == Release(b, wHeight, wWidth).width.target
  {
  }

  /** A cancelled gesture restores the scale but not the elevation: the sheet keeps
      aiming at elevation 0 after the lift. */
  lemma CancelLeavesSheetFlat(s: SheetValues)
    ensures Cancel(Grab(s)).scale.target == RestScale
    ensures Cancel(Grab(s)).shadow.target == LiftElevation
  {
  }

  /** The targets of scale, elevation and width only ever take one of two values. */
  predicate TargetsInRange(s: SheetValues, wWidth: real)
  {
    && (s.scale.target == RestScale || s.scale.target == LiftScale)
    && (s.shadow.target == RestElevation || s.shadow.target == LiftElevation)
    && (s.width.target == wWidth || s.width.target == InsetWidth(wWidth))
  }

  /** `modalTransform`. */
  datatype ModalStyle = ModalStyle(transform: seq<Op>, width: real, elevation: real)

  /** `modalTransform`: translate by the position, then scale; width and elevation
      beside the transform. Every entry is the current value of its source. */
  function Style(s: SheetValues): (st: ModalStyle)
    ensures Kinds(st.transform) == [TranslateY, Scale]
    ensures st.transform[0].amount == s.y.current && st.transform[1].amount == s.scale.current
    ensures st.width == s.width.current && st.elevation == s.shadow.current
  {
    ModalStyle(Compose([TranslateY, Scale], [s.y, s.scale]), s.width.current, s.shadow.current)
  }

  /** The style depends on the current values alone, not on targets or context. */
  lemma StyleReadsOnlyCurrents(a: SheetValues, b: SheetValues)
    requires a.y.current == b.y.current && a.scale.current == b.scale.current
    requires a.width.current == b.width.current && a.shadow.current == b.shadow.current
    ensures Style(a) == Style(b)
  {
  }

  /** The sheet component: its shared values are fields that the callbacks update
      in place, and `startY` is the pan handler's context. */
  class Sheet {
    const wHeight: real
    const wWidth: real
    var y: Shared
    var scale: Shared
    var width: Shared
    var shadow: Shared
    var startY: Option<real>

    function Values(): SheetValues
      reads this
    {
      SheetValues(y, scale, width, shadow, startY)
    }

    ghost predicate Valid()
      reads this
    {
      wHeight > 0.0 && wWidth > 0.0 && TargetsInRange(Values(), wWidth)
    }

    constructor (wHeight: real, wWidth: real)
      requires wHeight > 0.0 && wWidth > 0.0
      ensures this.wHeight == wHeight && this.wWidth == wWidth
      ensures Valid() && Values() == Mount(wHeight, wWidth)
    {
      this.wHeight, this.wWidth := wHeight, wWidth;
      y := At(ClosedY(wHeight));
      scale := At(RestScale);
      width := At(InsetWidth(wWidth));
      shadow := At(RestElevation);
      startY := None;
    }

    method ShowModal()
      requires Valid()
      modifies this
      ensures Valid() && Values() == Show(old(Values()))
    {
      y := SpringTo(y, ShownY);
    }

    method OnStart()
      requires Valid()
      modifies this
      ensures Valid() && Values() == Grab(old(Values()))
    {
      startY := Some(y.current);
      scale := SpringTo(scale, LiftScale);
      shadow := SpringTo(shadow, LiftElevation);
    }

    /** The gesture library delivers `onStart` before any `onActive`. */
    method OnActive(translationY: real)
      requires Valid() && startY.Some?
      modifies this
      ensures Valid() && Values() == Drag(old(Values()), translationY)
    {
      y := At(startY.value + translationY);
    }

    method OnCancel()
      requires Valid()
      modifies this
      ensures Valid() && Values() == Cancel(old(Values()))
    {
      scale := SpringTo(scale, RestScale);
    }

    /** The gesture library delivers `onStart` before `onEnd`. */
    method OnEnd()
      requires Valid() && startY.Some?
      modifies this
      ensures Valid() && Values() == Release(old(Values()), wHeight, wWidth)
    {
      scale := SpringTo(scale, RestScale);
      shadow := SpringTo(shadow, RestElevation);
      if Abs(y.current - startY.value) > DragDistance {
        y := SpringTo(y, if startY.value > Midpoint(wHeight) then OpenY else ClosedY(wHeight));
      } else {
        y := SpringTo(y, if startY.value < Midpoint(wHeight) then OpenY else ClosedY(wHeight));
      }
      width := SpringTo(width, if startY.value > Midpoint(wHeight) then wWidth else InsetWidth(wWidth));
    }

    /** Stands in for the animation library: every spring converges. */
    method Settle()
      requires Valid()
      modifies this
      ensures Valid() && Values() == SettleAll(old(Values()))
    {
      y, scale, width, shadow := Animated.Settle(y), Animated.Settle(scale), Animated.Settle(width), Animated.Settle(shadow);
    }
  }
}
