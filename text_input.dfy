/** The free-transform label (TextInput.js).

    Four shared values (translation x and y, scale, rotation), two pieces of
    component state (the text and whether it is being edited), and one context per
    gesture handler. Pan, pinch and rotate each capture a baseline when they start
    and write baseline-plus-delta (or baseline-times-factor) while active; a tap puts
    the label into edit mode; a reset button aims everything back at its mount
    value. The text input exists only while the label is in edit mode; `focused`
    says whether it holds the keyboard focus. */
module TextInput {
  import opened Animated
  import opened Gesture

  /** The pan gesture shrinks the label by this factor while it is held. */
  const PanShrink: real := 0.95
  const MountText: string := "Drag me"

  /** The pan handler's context: the translation and the scale at its start. */
  datatype PanBaseline = PanBaseline(startX: real, startY: real, initialScale: real)

  datatype LabelValues = LabelValues(x: Shared, y: Shared, scale: Shared, rotation: Shared,
                                     text: string, editing: bool, focused: bool,
                                     pan: Option<PanBaseline>,
                                     pinchStart: Option<real>, rotateStart: Option<real>)

  /** Only a mounted text input can hold the focus. */
  predicate FocusOnlyWhileEditing(s: LabelValues)
  {
    s.focused ==> s.editing
  }

  /** The mount values: untranslated, unrotated, scale 1, all at rest, showing
      "Drag me", not editing, no gesture context yet. */
  function Mount(): (s: LabelValues)
    ensures s.x.AtRest() && s.y.AtRest() && s.scale.AtRest() && s.rotation.AtRest()
    ensures s.x.current == 0.0 && s.y.current == 0.0 && s.scale.current == 1.0 && s.rotation.current == 0.0
    ensures s.text == MountText && !s.editing && !s.focused
    ensures s.pan == None && s.pinchStart == None && s.rotateStart == None
  {
    LabelValues(At(0.0), At(0.0), At(1.0), At(0.0), MountText, false, false, None, None, None)
  }

  /** `textInputRef.current && textInputRef.current.blur()`: the input, when it is
      mounted, gives up the focus; when it is not, nothing happens. */
  function Blur(s: LabelValues): (r: LabelValues)
    ensures r.focused == (s.focused && !s.editing) && r.(focused := s.focused) == s
    ensures !s.editing ==> r == s
  {
    if s.editing then s.(focused := false) else s
  }

  /** `textInputRef.current && textInputRef.current.focus()`: the input, when it is
      mounted, takes the focus; when it is not, nothing happens. */
  function Focus(s: LabelValues): (r: LabelValues)
    ensures r.focused == (s.focused || s.editing) && r.(focused := s.focused) == s
    ensures !s.editing ==> r == s
  {
    if s.editing then s.(focused := true) else s
  }

  /** The pan handler's `onStart`: remember translation and scale, aim the scale at
      95% of where it is, and drop the text input's focus. */
  function PanStart(s: LabelValues): (r: LabelValues)
    ensures r.pan == Some(PanBaseline(s.x.current, s.y.current, s.scale.current))
    ensures r.scale == SpringTo(s.scale, s.scale.current * PanShrink)
    ensures r.x == s.x && r.y == s.y && r.rotation == s.rotation
    ensures r.editing == s.editing && r.focused == (s.focused && !s.editing) && r.text == s.text
    ensures r.pinchStart == s.pinchStart && r.rotateStart == s.rotateStart
  {
    var initialScale := s.scale.current;
    Blur(s.(pan := Some(PanBaseline(s.x.current, s.y.current, initialScale)),
            scale := SpringTo(s.scale, initialScale * PanShrink)))
  }

  /** The pan handler's `onActive`: the label follows the finger directly. */
  function PanActive(s: LabelValues, translationX: real, translationY: real): (r: LabelValues)
    requires s.pan.Some?
    ensures r.x == At(s.pan.value.startX + translationX)
    ensures r.y == At(s.pan.value.startY + translationY)
    ensures r.(x := s.x, y := s.y) == s
  {
    s.(x := At(s.pan.value.startX + translationX), y := At(s.pan.value.startY + translationY))
  }

  /** The pan handler's `onEnd`: aim the scale at its current value divided by the
      shrink factor. It reads no context. */
  function PanEnd(s: LabelValues): (r: LabelValues)
    ensures r.scale.current == s.scale.current && r.scale.target * PanShrink == s.scale.current
    ensures r.(scale := s.scale) == s
  {
    s.(scale := SpringTo(s.scale, s.scale.current / PanShrink))
  }

  /** The pinch handler's `onStart`: remember the scale, drop the focus. */
  function PinchStart(s: LabelValues): (r: LabelValues)
    ensures r.pinchStart == Some(s.scale.current)
    ensures r.(pinchStart := s.pinchStart, focused := s.focused) == s
    ensures r.focused == (s.focused && !s.editing)
  {
    Blur(s.(pinchStart := Some(s.scale.current)))
  }

  /** The pinch handler's `onActive`: aim the scale at the start scale times the
      pinch factor. */
  function PinchActive(s: LabelValues, factor: real): (r: LabelValues)
    requires s.pinchStart.Some?
    ensures r.scale == SpringTo(s.scale, s.pinchStart.value * factor)
    ensures r.(scale := s.scale) == s
  {
    s.(scale := SpringTo(s.scale, s.pinchStart.value * factor))
  }

  /** The rotation handler's `onStart`: remember the rotation, drop the focus. */
  function RotateStart(s: LabelValues): (r: LabelValues)
    ensures r.rotateStart == Some(s.rotation.current)
    ensures r.(rotateStart := s.rotateStart, focused := s.focused) == s
    ensures r.focused == (s.focused && !s.editing)
  {
    Blur(s.(rotateStart := Some(s.rotation.current)))
  }

  /** The rotation handler's `onActive`: the rotation follows the fingers directly. */
  function RotateActive(s: LabelValues, rotation: real): (r: LabelValues)
    requires s.rotateStart.Some?
    ensures r.rotation == At(s.rotateStart.value + rotation)
    ensures r.(rotation := s.rotation) == s
  {
    s.(rotation := At(s.rotateStart.value + rotation))
  }

  /** `onSingleTap`: only an event in the ACTIVE state does anything. It enters edit
      mode and focuses the input, which is there only if the label was already in
      edit mode before the tap. */
  function SingleTap(s: LabelValues, state: HandlerState): (r: LabelValues)
    ensures state != Active ==> r == s
    ensures state == Active ==> r.editing && r.focused == (s.focused || s.editing)
    ensures r.(editing := s.editing, focused := s.focused) == s
  {
    if state == Active then Focus(s).(editing := true) else s
  }

  /** `reset`: drop the focus, leave edit mode, and aim translation and rotation at
      0 and the scale at 1. The text stays. */
  function ResetAll(s: LabelValues): (r: LabelValues)
    ensures r.x == SpringTo(s.x, 0.0) && r.y == SpringTo(s.y, 0.0)
    ensures r.rotation == SpringTo(s.rotation, 0.0) && r.scale == SpringTo(s.scale, 1.0)
    ensures !r.editing && r.focused == (s.focused && !s.editing) && r.text == s.text
    ensures r.pan == s.pan && r.pinchStart == s.pinchStart && r.rotateStart == s.rotateStart
  {
    Blur(s).(editing := false,
             x := SpringTo(s.x, 0.0), y := SpringTo(s.y, 0.0),
             rotation := SpringTo(s.rotation, 0.0), scale := SpringTo(s.scale, 1.0))
  }

  /** `setEditingFalse` (the input's submit handler): leave edit mode. The input is
      unmounted and its focus goes with it. */
  function EndEditing(s: LabelValues): (r: LabelValues)
    ensures !r.editing && !r.focused
    ensures r.(editing := s.editing, focused := s.focused) == s
  {
    s.(editing := false, focused := false)
  }

  /** The input's `onChangeText`: store the new text. */
  function ChangeText(s: LabelValues, text: string): (r: LabelValues)
    ensures r.text == text && r.(text := s.text) == s
  {
    s.(text := text)
  }

  /** Every spring has converged. */
  function SettleAll(s: LabelValues): (r: LabelValues)
    ensures r.x.AtRest() && r.y.AtRest() && r.scale.AtRest() && r.rotation.AtRest()
    ensures r.x.target == s.x.target && r.y.target == s.y.target
    ensures r.scale.target == s.scale.target && r.rotation.target == s.rotation.target
    ensures r.(x := s.x, y := s.y, scale := s.scale, rotation := s.rotation) == s
  {
    s.(x := Settle(s.x), y := Settle(s.y), scale := Settle(s.scale), rotation := Settle(s.rotation))
  }

  /** Every transition keeps the focus on a mounted input only. */
  lemma TransitionsKeepFocusInvariant(s: LabelValues, tx: real, ty: real, f: real, a: real,
                                      st: HandlerState, text: string)
    requires FocusOnlyWhileEditing(s)
    ensures FocusOnlyWhileEditing(PanStart(s)) && FocusOnlyWhileEditing(PinchStart(s))
    ensures FocusOnlyWhileEditing(RotateStart(s)) && FocusOnlyWhileEditing(PanEnd(s))
    ensures s.pan.Some? ==> FocusOnlyWhileEditing(PanActive(s, tx, ty))
    ensures s.pinchStart.Some? ==> FocusOnlyWhileEditing(PinchActive(s, f))
    ensures s.rotateStart.Some? ==> FocusOnlyWhileEditing(RotateActive(s, a))
    ensures FocusOnlyWhileEditing(SingleTap(s, st)) && FocusOnlyWhileEditing(ResetAll(s))
    ensures FocusOnlyWhileEditing(EndEditing(s)) && FocusOnlyWhileEditing(ChangeText(s, text))
    ensures FocusOnlyWhileEditing(SettleAll(s))
  {
  }

  /** No gesture start changes whether the label is being edited, and every
      gesture start leaves the input without focus. */
  lemma GestureStartsKeepEditing(s: LabelValues)
    requires FocusOnlyWhileEditing(s)
    ensures PanStart(s).editing == s.editing && !PanStart(s).focused
    ensures PinchStart(s).editing == s.editing && !PinchStart(s).focused
    ensures RotateStart(s).editing == s.editing && !RotateStart(s).focused
  {
  }

  /** A run of pan `onActive` events, one per translation pair. */
  function PanMoves(s: LabelValues, moves: seq<(real, real)>): (r: LabelValues)
    requires s.pan.Some?
    ensures r.pan == s.pan
    decreases |moves|
  {
    if moves == [] then s else PanMoves(PanActive(s, moves[0].0, moves[0].1), moves[1..])
  }

  /** However many pan events arrive, the label sits at the start translation plus
      the last event's translation, and scale and rotation are untouched. */
  lemma {:induction false} PanMovesFollowLast(s: LabelValues, moves: seq<(real, real)>)
    requires s.pan.Some?
    ensures moves == [] ==> PanMoves(s, moves) == s
    ensures moves != [] ==>
              var last := moves[|moves| - 1];
              PanMoves(s, moves) == s.(x := At(s.pan.value.startX + last.0), y := At(s.pan.value.startY + last.1))
    decreases |moves|
  {
    if moves != [] {
      PanMovesFollowLast(PanActive(s, moves[0].0, moves[0].1), moves[1..]);
      if |moves| > 1 {
        assert moves[1..][|moves[1..]| - 1] == moves[|moves| - 1];
      }
    }
  }

  /** A whole pan gesture: if the shrink has settled when the finger lifts, the
      release aims the scale back at exactly the scale the gesture started with. */
  lemma PanRestoresScale(s: LabelValues, moves: seq<(real, real)>)
    ensures PanEnd(SettleAll(PanMoves(PanStart(s), moves))).scale.target == s.scale.current
  {
    var p := PanStart(s);
    PanMovesFollowLast(p, moves);
    assert PanMoves(p, moves).scale == p.scale;
  }

  /** A pinch factor of 1 aims the scale at the scale the pinch started with. */
  lemma PinchFactorOneKeepsScale(s: LabelValues)
    ensures PinchActive(PinchStart(s), 1.0).scale.target == s.scale.current
  {
  }

  /** Pan, pinch and rotate write disjoint values, so their active events commute. */
  lemma ActiveHandlersCommute(s: LabelValues, tx: real, ty: real, f: real, a: real)
    requires s.pan.Some? && s.pinchStart.Some? && s.rotateStart.Some?
    ensures PanActive(PinchActive(s, f), tx, ty) == PinchActive(PanActive(s, tx, ty), f)
    ensures PanActive(RotateActive(s, a), tx, ty) == RotateActive(PanActive(s, tx, ty), a)
    ensures PinchActive(RotateActive(s, a), f) == RotateActive(PinchActive(s, f), a)
  {
  }

  /** Once the springs converge after a reset, the label is back at its mount
      position, rotation and scale, out of edit mode, with its text kept. */
  lemma ResetReturnsToMount(s: LabelValues)
    ensures var r := SettleAll(ResetAll(s));
            r.x == Mount().x && r.y == Mount().y && r.scale == Mount().scale &&
            r.rotation == Mount().rotation && r.editing == Mount().editing && r.text == s.text
  {
  }

  /** A tap enters edit mode only when its event reports the ACTIVE state, and from
      outside edit mode the first tap mounts the input without focusing it. */
  lemma TapEditsOnlyWhenActive(s: LabelValues, state: HandlerState)
    requires FocusOnlyWhileEditing(s)
    ensures SingleTap(s, state).editing == (s.editing || state == Active)
    ensures !s.editing ==> !SingleTap(s, state).focused
  {
  }

  /** The gesture handlers wrapped around the label. */
  datatype Handler = Tap | Rotation | Pinch | Pan

  /** The `simultaneousHandlers` each handler declares. */
  function SimultaneousHandlers(h: Handler): (hs: set<Handler>)
    ensures h !in hs && Tap !in hs
    ensures h != Tap ==> hs == {Pan, Pinch, Rotation} - {h}
    ensures h == Tap ==> hs == {}
  {
    match h
    case Tap => {}
    case Rotation => {Pinch, Pan}
    case Pinch => {Pan, Rotation}
    case Pan => {Pinch, Rotation}
  }

  /** The `waitFor` each handler declares. */
  function WaitFor(h: Handler): (hs: set<Handler>)
    ensures hs <= {Tap}
    ensures hs != {} <==> h == Pan
  {
    match h
    case Pan => {Tap}
    case _ => {}
  }

  /** The declarations are consistent: every handler that names another as
      simultaneous is named back, no handler waits for one it may run with, and the
      tap handler takes part in neither relation except as the one the pan waits for. */
  lemma DeclarationsConsistent(a: Handler, b: Handler)
    ensures b in SimultaneousHandlers(a) <==> a in SimultaneousHandlers(b)
    ensures b in WaitFor(a) ==> b !in SimultaneousHandlers(a)
    ensures a in WaitFor(b) ==> a == Tap && b == Pan
  {
  }

  /** `boxStyle`: translate in x, then in y, then rotate, then scale, each by the
      current value of its source. */
  function BoxStyle(s: LabelValues): (t: seq<Op>)
    ensures Kinds(t) == [TranslateX, TranslateY, RotateZ, Scale]
    ensures t[0].amount == s.x.current && t[1].amount == s.y.current
    ensures t[2].amount == s.rotation.current && t[3].amount == s.scale.current
  {
    Compose([TranslateX, TranslateY, RotateZ, Scale], [s.x, s.y, s.rotation, s.scale])
  }

  /** The style depends on the current values alone. */
  lemma BoxStyleReadsOnlyCurrents(a: LabelValues, b: LabelValues)
    requires a.x.current == b.x.current && a.y.current == b.y.current
    requires a.rotation.current == b.rotation.current && a.scale.current == b.scale.current
    ensures BoxStyle(a) == BoxStyle(b)
  {
  }

  /** The label component: shared values, component state and the three handler
      contexts are fields that the callbacks update in place. */
  class Label {
    var x: Shared
    var y: Shared
    var scale: Shared
    var rotation: Shared
    var text: string
    var editing: bool
    var focused: bool
    var pan: Option<PanBaseline>
    var pinchStart: Option<real>
    var rotateStart: Option<real>

    function Values(): LabelValues
      reads this
    {
      LabelValues(x, y, scale, rotation, text, editing, focused, pan, pinchStart, rotateStart)
    }

    ghost predicate Valid()
      reads this
    {
      FocusOnlyWhileEditing(Values())
    }

    constructor ()
      ensures Valid() && Values() == Mount()
    {
      x, y, scale, rotation := At(0.0), At(0.0), At(1.0), At(0.0);
      text, editing, focused := MountText, false, false;
      pan, pinchStart, rotateStart := None, None, None;
    }

    /** The input gives up the focus if it is mounted. */
    method BlurInput()
      requires Valid()
      modifies this
      ensures Valid() && Values() == Blur(old(Values()))
    {
      if editing {
        focused := false;
      }
    }

    method OnPanStart()
      requires Valid()
      modifies this
      ensures Valid() && Values() == PanStart(old(Values()))
    {
      pan := Some(PanBaseline(x.current, y.current, scale.current));
      scale := SpringTo(scale, pan.value.initialScale * PanShrink);
      BlurInput();
    }

    /** The gesture library delivers `onStart` before any `onActive`. */
    method OnPanActive(translationX: real, translationY: real)
      requires Valid() && pan.Some?
      modifies this
      ensures Valid() && Values() == PanActive(old(Values()), translationX, translationY)
    {
      x := At(pan.value.startX + translationX);
      y := At(pan.value.startY + translationY);
    }

    method OnPanEnd()
      requires Valid()
      modifies this
      ensures Valid() && Values() == PanEnd(old(Values()))
    {
      var initialScale := scale.current;
      scale := SpringTo(scale, initialScale / PanShrink);
    }

    method OnPinchStart()
      requires Valid()
      modifies this
      ensures Valid() && Values() == PinchStart(old(Values()))
    {
      pinchStart := Some(scale.current);
      BlurInput();
    }

    method OnPinchActive(factor: real)
      requires Valid() && pinchStart.Some?
      modifies this
      ensures Valid() && Values() == PinchActive(old(Values()), factor)
    {
      scale := SpringTo(scale, pinchStart.value * factor);
    }

    method OnRotateStart()
      requires Valid()
      modifies this
      ensures Valid() && Values() == RotateStart(old(Values()))
    {
      rotateStart := Some(rotation.current);
      BlurInput();
    }

    method OnRotateActive(angle: real)
      requires Valid() && rotateStart.Some?
      modifies this
      ensures Valid() && Values() == RotateActive(old(Values()), angle)
    {
      rotation := At(rotateStart.value + angle);
    }

    method OnSingleTap(state: HandlerState)
      requires Valid()
      modifies this
      ensures Valid() && Values() == SingleTap(old(Values()), state)
    {
      if state == Active {
        var inputMounted := editing;
        editing := true;
        if inputMounted {
          focused := true;
        }
      }
    }

    method Reset()
      requires Valid()
      modifies this
      ensures Valid() && Values() == ResetAll(old(Values()))
    {
      BlurInput();
      editing := false;
      x := SpringTo(x, 0.0);
      y := SpringTo(y, 0.0);
      rotation := SpringTo(rotation, 0.0);
      scale := SpringTo(scale, 1.0);
    }

    method SetEditingFalse()
      requires Valid()
      modifies this
      ensures Valid() && Values() == EndEditing(old(Values()))
    {
      editing, focused := false, false;
    }

    method OnChangeText(newText: string)
      requires Valid()
      modifies this
      ensures Valid() && Values() == ChangeText(old(Values()), newText)
    {
      text := newText;
    }

    /** Stands in for the animation library: every spring converges. */
    method Settle()
      requires Valid()
      modifies this
      ensures Valid() && Values() == SettleAll(old(Values()))
    {
      x, y := Animated.Settle(x), Animated.Settle(y);
      scale, rotation := Animated.Settle(scale), Animated.Settle(rotation);
    }
  }
}
