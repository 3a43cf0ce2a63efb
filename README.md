# Interaction controllers of rn-animations-sandbox, in Dafny

This project models the three interaction controllers of the sandbox app. Each one holds a few
animated scalars (shared values). Gesture callbacks and button presses change them.

- **Drag-to-dismiss sheet** (`Modal.js`, module `Modal`). A pan gesture lifts the sheet
  (scale 0.95, elevation 0), the sheet follows the finger, and on release it snaps open (y = 10)
  or closed (y = `wHeight - 100`). A threshold-and-midpoint rule picks the position and the
  width.
- **Flip card** (`ECard.js`, module `ECard`). A two-state `shareMode` flag. Each press aims four
  values at the front set or the back set of targets, then flips the flag.
- **Free-transform label** (`TextInput.js`, module `TextInput`). Pan, pinch and rotate each
  capture a baseline at start. While active they write baseline plus delta, or baseline times
  factor. A tap enters edit mode, a reset button aims everything back at its mount values, and
  the handlers declare which gestures may run together and which must wait.

Shared modules:

- `Animated` models a shared value as a `current` value and a `target`.
  - `current` is what `.value` reads and what the view shows.
  - `withSpring(v)` sets only the target (`SpringTo`).
  - A direct write `x.value = v` sets both (`At`).
  - `Settle` stands in for the animation library's convergence.
  - `Compose` builds an animated style's transform: one entry per source, in the declared
    order, each reading the source's current value.
- `Gesture` holds the handler-state enumeration and the `Option` used for gesture contexts.

Each controller has two layers:

- A value datatype (`SheetValues`, `CardValues`, `LabelValues`) with one pure transition
  function per callback. The properties are stated on these functions and on lemmas about
  them.
- A class (`Sheet`, `Card`, `Label`) whose fields are the shared values, the component state
  and the gesture contexts. Each method updates the fields in place, as its callback does, and
  its postcondition ties the new state to the transition function applied to the old state.
  `Sheet` and `Card` also keep an invariant: the scale, elevation and width of the sheet, and
  the four targets of the card, only ever aim at one of two values.

Behaviours the lemmas make explicit:

- ECard: `shareMode` starts true, so the first press aims the card at the values it already
  has. Nothing visibly changes until the second press.
- Modal: the width rule depends only on where the gesture started. After a short movement, a
  sheet that stays closed ends at full width, and a sheet that stays open ends at the inset
  width.
- Modal: a cancelled pan restores the scale but leaves the elevation aimed at 0.
- Modal: the long-drag rule compares with `>` and the short-movement rule with `<`. A start
  exactly at the midpoint closes under both.
- Modal: `showModal` is defined but nothing in the component calls it. It is modelled as
  written.

## Model

| member | source | states |
|---|---|---|
| `Modal.Mount` | Modal.js:27-30 | mount: position `wHeight-100`, scale 1, width `wWidth-20`, elevation 5, all at rest, no context |
| `Modal.Show` | Modal.js:40-42 | `showModal` aims the position at 0 and changes nothing else |
| `Modal.Grab` | Modal.js:45-49 | pan start records `startY` = current position, aims scale at 0.95 and elevation at 0; position and width untouched |
| `Modal.Drag` | Modal.js:50-52 | while active the position is `startY + translationY` (a direct write) and nothing else changes |
| `Modal.Cancel` | Modal.js:53-55 | cancel aims only the scale back at 1; elevation, position and width untouched |
| `Modal.Release` | Modal.js:56-76 | on end scale always aims at 1 and elevation at 5; the position aims at `SnapTarget(startY, current y)`, the width at `WidthTarget(startY)` |
| `Modal.SnapTarget` | Modal.js:60-70 | the rest target is always 10 or `wHeight-100`; drag > 50: open iff `startY > wHeight/2`; otherwise (including exactly 50): open iff `startY < wHeight/2` |
| `Modal.WidthTarget` | Modal.js:72-75 | width target is `wWidth` iff `startY > wHeight/2`, else `wWidth-20` |
| `Modal.SnapRulesDisagree` | Modal.js:60-70 | off the midpoint the two branches pick opposite rest positions for the same start; at the midpoint both pick `wHeight-100` |
| `Modal.WidthFollowsLongDragRule` | Modal.js:60-75 | after a drag longer than 50 the width aims full exactly when the position aims open |
| `Modal.WidthIgnoresDragDistance` | Modal.js:72-75 | the width target depends only on `startY`, not on how far the sheet moved |
| `Modal.SettleAll` | Modal.js:57-58 | convergence: every value rests at its target; targets and context unchanged |
| `Modal.DragsFollowLastMove` | Modal.js:50-52 | after any run of `onActive` events only the last counts: position = start + last translation, nothing else changed |
| `Modal.LongDragFromClosedOpens` | Modal.js:27-76 | from mount, a whole gesture ending more than 50 from the start opens the sheet at full width and restores scale 1 and elevation 5 |
| `Modal.LongDragFromOpenCloses` | Modal.js:44-77 | from the open position, a drag of more than 50 closes the sheet at inset width |
| `Modal.ShortDragFromClosedWidens` | Modal.js:27-76 | from mount, a movement of at most 50 keeps the sheet closed but aims the width at full `wWidth` |
| `Modal.ShortDragFromOpenStays` | Modal.js:44-77 | from the open position, a movement of at most 50 keeps it open and aims at the inset width |
| `Modal.CancelLeavesSheetFlat` | Modal.js:45-55 | start then cancel: scale aims back at 1, elevation stays aimed at 0 |
| `Modal.Style` | Modal.js:32-38 | `modalTransform`: translateY then scale, plus width and elevation, each the current value |
| `Modal.StyleReadsOnlyCurrents` | Modal.js:32-38 | the style depends on current values only, not on targets or context |
| `Modal.Sheet.constructor` | Modal.js:27-30 | the component's shared values start at the mount values; screen size stored |
| `Modal.Sheet.ShowModal` | Modal.js:40-42 | in-place update equal to `Show`; keeps the two-value target invariant |
| `Modal.Sheet.OnStart` | Modal.js:45-49 | in-place update equal to `Grab`; keeps the invariant |
| `Modal.Sheet.OnActive` | Modal.js:50-52 | in-place update equal to `Drag` |
| `Modal.Sheet.OnCancel` | Modal.js:53-55 | in-place update equal to `Cancel` |
| `Modal.Sheet.OnEnd` | Modal.js:56-76 | the source's two-branch code, proved equal to `Release` |
| `Modal.Sheet.Settle` | Modal.js:57-58 | in-place convergence equal to `SettleAll` |
| `ECard.Mount` | ECard.js:28-34 | mount: scale 1, translateY 0, rotationY 0, rotationX 0, opacity 0, all at rest; `shareMode` true |
| `ECard.Press` | ECard.js:54-67 | `shareMode` true: targets rotationY 0, scale 1, translateY 0, opacity 0; false: 180, 0.5, -140, 1; the flag negates; no value moves and rotationX is never written |
| `ECard.SettleAll` | ECard.js:55-64 | convergence: every value rests at its target; targets and flag unchanged |
| `ECard.PressIgnoresAnimatedValues` | ECard.js:54-65 | the targets a press writes depend only on the pre-press `shareMode` |
| `ECard.PressesFlipParity` | ECard.js:66 | after n presses the flag is restored iff n is even |
| `ECard.PressesOnlyAim` | ECard.js:54-67 | no number of presses writes rotationX or moves any current value |
| `ECard.PressesPeriodTwo` | ECard.js:54-67 | press k+2 writes the same targets and leaves the same flag as press k; after convergence the whole card is the same |
| `ECard.FirstPressKeepsMountValues` | ECard.js:28-59 | the first press after mount aims every value at its mount value |
| `ECard.PressesFromMount` | ECard.js:28-67 | from mount the card aims at its back exactly after an even, nonzero number of presses |
| `ECard.CardTransform` | ECard.js:36-45 | `cardTransform`: translateY, rotateX, rotateY, scale in that order, each the current value |
| `ECard.ShareOptionsStyle` | ECard.js:47-52 | `shareOptionsStyle`: the same translateY plus the opacity |
| `ECard.ShareOptionsFollowCard` | ECard.js:36-52 | the share options' transform is the card transform's first entry |
| `ECard.StylesReadOnlyCurrents` | ECard.js:36-52 | both styles depend on current values only |
| `ECard.Card.constructor` | ECard.js:28-34 | the component starts at the mount values |
| `ECard.Card.ShareCard` | ECard.js:54-67 | the source's two-branch code, proved equal to `Press`; keeps "aimed at front or back, rotationX 0" |
| `ECard.Card.Settle` | ECard.js:55-64 | in-place convergence equal to `SettleAll` |
| `TextInput.Mount` | TextInput.js:25-30 | mount: translation (0,0), scale 1, rotation 0 at rest; text "Drag me"; not editing; no contexts |
| `TextInput.Blur` | TextInput.js:61 | the mounted input loses focus; with no input mounted nothing changes |
| `TextInput.Focus` | TextInput.js:96 | the mounted input gains focus; with no input mounted nothing changes |
| `TextInput.PanStart` | TextInput.js:56-62 | captures `startX`, `startY`, `initialScale` from current values, aims scale at `initialScale*0.95`, translation and rotation untouched, editing unchanged |
| `TextInput.PanActive` | TextInput.js:63-66 | translation is `(startX+tx, startY+ty)` by direct write; scale and rotation unchanged |
| `TextInput.PanEnd` | TextInput.js:67-70 | scale aims at `current / 0.95`; reads no context; nothing else changes |
| `TextInput.PinchStart` | TextInput.js:74-77 | records the current scale as the pinch baseline |
| `TextInput.PinchActive` | TextInput.js:78-80 | scale aims at `pinchStart * factor`; nothing else changes |
| `TextInput.RotateStart` | TextInput.js:84-87 | records the current rotation as the rotate baseline |
| `TextInput.RotateActive` | TextInput.js:88-90 | rotation is `start + angle` by direct write; nothing else changes |
| `TextInput.SingleTap` | TextInput.js:93-98 | only an ACTIVE event changes anything: editing becomes true, focus only if an input was already mounted |
| `TextInput.ResetAll` | TextInput.js:100-107 | aims translation (0,0), rotation 0, scale 1; editing false; text unchanged |
| `TextInput.EndEditing` | TextInput.js:109-111 | editing false (the input unmounts and loses focus); nothing else changes |
| `TextInput.ChangeText` | TextInput.js:139 | stores the new text; nothing else changes |
| `TextInput.SettleAll` | TextInput.js:59 | convergence: every value rests at its target |
| `TextInput.TransitionsKeepFocusInvariant` | TextInput.js:55-111 | every callback keeps "only a mounted input holds focus" |
| `TextInput.GestureStartsKeepEditing` | TextInput.js:56-87 | gesture starts never change `isEditing` and leave the input unfocused |
| `TextInput.PanMovesFollowLast` | TextInput.js:63-66 | after any run of pan events the translation is start + last event; scale and rotation untouched |
| `TextInput.PanRestoresScale` | TextInput.js:56-70 | start, any moves, settle, end: the scale aims at exactly the scale at the start |
| `TextInput.PinchFactorOneKeepsScale` | TextInput.js:74-80 | a pinch factor of 1 aims at the start scale |
| `TextInput.ActiveHandlersCommute` | TextInput.js:63-90 | pan, pinch and rotate active events write disjoint values, so any two commute |
| `TextInput.ResetReturnsToMount` | TextInput.js:100-107 | after reset and convergence: mount translation, rotation and scale, not editing, text kept |
| `TextInput.TapEditsOnlyWhenActive` | TextInput.js:93-98 | editing after a tap iff it was editing or the state is ACTIVE; a first tap does not focus |
| `TextInput.SimultaneousHandlers` | TextInput.js:116-131 | rotation, pinch and pan each declare the other two; tap declares none and is named by none |
| `TextInput.WaitFor` | TextInput.js:128-131 | only pan waits, and only for tap |
| `TextInput.DeclarationsConsistent` | TextInput.js:116-131 | the simultaneity relation is symmetric; no handler waits for one it may run with; only pan waits, and only for tap |
| `TextInput.BoxStyle` | TextInput.js:38-53 | `boxStyle`: translateX, translateY, rotateZ, scale in that order, each the current value |
| `TextInput.BoxStyleReadsOnlyCurrents` | TextInput.js:38-53 | the style depends on current values only |
| `TextInput.Label.constructor` | TextInput.js:25-30 | the component starts at the mount values |
| `TextInput.Label.BlurInput` | TextInput.js:61 | in-place update equal to `Blur` |
| `TextInput.Label.OnPanStart` | TextInput.js:56-62 | in-place update equal to `PanStart`; keeps the focus invariant |
| `TextInput.Label.OnPanActive` | TextInput.js:63-66 | in-place update equal to `PanActive` |
| `TextInput.Label.OnPanEnd` | TextInput.js:67-70 | in-place update equal to `PanEnd` |
| `TextInput.Label.OnPinchStart` | TextInput.js:74-77 | in-place update equal to `PinchStart` |
| `TextInput.Label.OnPinchActive` | TextInput.js:78-80 | in-place update equal to `PinchActive` |
| `TextInput.Label.OnRotateStart` | TextInput.js:84-87 | in-place update equal to `RotateStart` |
| `TextInput.Label.OnRotateActive` | TextInput.js:88-90 | in-place update equal to `RotateActive` |
| `TextInput.Label.OnSingleTap` | TextInput.js:93-98 | in-place update equal to `SingleTap` |
| `TextInput.Label.Reset` | TextInput.js:100-107 | in-place update equal to `ResetAll` |
| `TextInput.Label.SetEditingFalse` | TextInput.js:109-111 | in-place update equal to `EndEditing` |
| `TextInput.Label.OnChangeText` | TextInput.js:139 | in-place update equal to `ChangeText` |
| `TextInput.Label.Settle` | TextInput.js:59 | in-place convergence equal to `SettleAll` |

## Left out

- Spring physics. `withSpring` and the spring configurations (Modal.js:20-24, ECard.js:21-25,
  TextInput.js:18-22) are implemented inside the animation library, which is not part of this
  model. A spring only sets a target. The `Settle` methods jump every value to its target in one
  step and stand in for convergence. Velocity, overshoot and intermediate frames are not modelled.
- Gesture recognition and the enforcement of `simultaneousHandlers` and `waitFor`. The gesture
  library is not part of this model. Only the declarations are modelled. The tap's time and
  movement budgets are not modelled either.
- Event order. The gesture library delivers `onStart` before `onActive` and `onEnd`.
  `Sheet.OnActive`, `Sheet.OnEnd`, `Label.OnPanActive`, `Label.OnPinchActive` and
  `Label.OnRotateActive` require a filled context slot. The source, if that order were broken,
  would read an undefined `startY` and write NaN.
- Floating point. Values are exact reals. `PanRestoresScale` relies on
  `(s * 0.95) / 0.95 == s`, which IEEE doubles need not satisfy exactly.
- Threads. The worklet (UI thread) versus JS thread split is concurrency and is left out.
  `blur()` and `focus()` called from a worklet are treated as plain calls.
- React state batching. `setShareMode` and `setIsEditing` take effect at the next render. The
  model applies them at once; the text input counts as mounted exactly when `isEditing` was
  true before the callback.
- Text input internals. The text-entry widget is not modelled beyond a focus flag and the
  stored text.
- Screen size. `Dimensions.get` is replaced by the `Sheet` constructor's parameters (required
  positive). `ECard.js` uses the screen size only in its style sheet, so `Card` takes none.
- Views, styles and units. App.js, the JSX trees, the StyleSheets and the `"deg"`/`"rad"` unit
  strings are left out; rotations are plain numbers. TextInput.js:117-133 applies `boxStyle` to
  four nested views, so the rendered transform compounds; the model describes the style object
  once.
