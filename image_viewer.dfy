/**
 * The image viewer's zoom and rotation controls.
 *
 * The scale moves in steps of 0.25 between 0.5 and 3, so it is kept exactly
 * as a whole number of quarters (2 to 12, starting at 4). The rotation moves
 * in steps of 90 degrees modulo 360, starting at 0.
 */
module ImageViewer {
  const InitialQuarters: int := 4
  const MinQuarters: int := 2
  const MaxQuarters: int := 12
  const RotationStep: int := 90
  const FullTurn: int := 360

  /** The viewer's state: the scale in quarters and the rotation in degrees. */
  datatype View = View(quarters: int, rotation: int)

  const Initial: View := View(InitialQuarters, 0)

  /** The scale as the component holds it. */
  function Scale(v: View): real { v.quarters as real / 4.0 }

  /** The states the controls can reach: scale within bounds, rotation a multiple of 90 below 360. */
  predicate Reachable(v: View) {
    && MinQuarters <= v.quarters <= MaxQuarters
    && (v.rotation == 0 || v.rotation == 90 || v.rotation == 180 || v.rotation == 270)
  }

  /** `handleZoomIn`: `min(scale + 0.25, 3)`. */
  function ZoomIn(v: View): (r: View)
    ensures r.rotation == v.rotation
    ensures Scale(r) == if Scale(v) + 0.25 <= 3.0 then Scale(v) + 0.25 else 3.0
  {
    View(if v.quarters + 1 <= MaxQuarters then v.quarters + 1 else MaxQuarters, v.rotation)
  }

  /** `handleZoomOut`: `max(scale - 0.25, 0.5)`. */
  function ZoomOut(v: View): (r: View)
    ensures r.rotation == v.rotation
    ensures Scale(r) == if Scale(v) - 0.25 >= 0.5 then Scale(v) - 0.25 else 0.5
  {
    View(if v.quarters - 1 >= MinQuarters then v.quarters - 1 else MinQuarters, v.rotation)
  }

  /** `handleRotate`: `(rotation + 90) % 360`; the rotation is never negative, so `%` agrees with JavaScript's. */
  function Rotate(v: View): (r: View)
    requires v.rotation >= 0
    ensures r.quarters == v.quarters
    ensures 0 <= r.rotation < FullTurn
    ensures (r.rotation - v.rotation - RotationStep) % FullTurn == 0
  {
    View(v.quarters, (v.rotation + RotationStep) % FullTurn)
  }

  /** `handleReset`. */
  function Reset(v: View): (r: View)
    ensures Scale(r) == 1.0 && r.rotation == 0
  {
    Initial
  }

  /** The zoom-in button's `disabled={scale >= 3}`. */
  predicate ZoomInDisabled(v: View) { Scale(v) >= 3.0 }

  /** The zoom-out button's `disabled={scale <= 0.5}`. */
  predicate ZoomOutDisabled(v: View) { Scale(v) <= 0.5 }

  /** The label `Math.round(scale * 100)%`: a quarter is exactly 25 per cent. */
  function ZoomPercent(v: View): (p: int)
    requires Reachable(v)
    ensures 50 <= p <= 300 && p % 25 == 0
    ensures p as real == Scale(v) * 100.0
  {
    25 * v.quarters
  }

  datatype Action = ZoomInAction | ZoomOutAction | RotateAction | ResetAction

  function Step(v: View, a: Action): View
    requires v.rotation >= 0
  {
    match a
    case ZoomInAction => ZoomIn(v)
    case ZoomOutAction => ZoomOut(v)
    case RotateAction => Rotate(v)
    case ResetAction => Reset(v)
  }

  /** The state after pressing the buttons in `actions`, in order. */
  function Run(v: View, actions: seq<Action>): (r: View)
    requires Reachable(v)
    ensures Reachable(r)
    decreases |actions|
  {
    if actions == [] then v else Run(StepReachable(v, actions[0]), actions[1..])
  }

  /** One button press keeps the state reachable. */
  function StepReachable(v: View, a: Action): (r: View)
    requires Reachable(v)
    ensures Reachable(r)
    ensures r == Step(v, a)
  {
    Step(v, a)
  }

  // ---------------------------------------------------------------- lemmas

  lemma InitialReachable()
    ensures Reachable(Initial) && Scale(Initial) == 1.0
  {
  }

  /** A disabled zoom button is exactly one whose handler would change nothing. */
  lemma ZoomInDisabledIffNoop(v: View)
    requires Reachable(v)
    ensures ZoomInDisabled(v) <==> ZoomIn(v) == v
  {
    if ZoomIn(v) == v {
      assert v.quarters == MaxQuarters;
    }
  }

  lemma ZoomOutDisabledIffNoop(v: View)
    requires Reachable(v)
    ensures ZoomOutDisabled(v) <==> ZoomOut(v) == v
  {
    if ZoomOut(v) == v {
      assert v.quarters == MinQuarters;
    }
  }

  /** Zooming in and back out restores the view unless zoom-in was disabled. */
  lemma ZoomInThenOut(v: View)
    requires Reachable(v) && !ZoomInDisabled(v)
    ensures ZoomOut(ZoomIn(v)) == v
  {
  }

  lemma ZoomOutThenIn(v: View)
    requires Reachable(v) && !ZoomOutDisabled(v)
    ensures ZoomIn(ZoomOut(v)) == v
  {
  }

  /** Four quarter turns bring the image back to where it was. */
  lemma FullRotation(v: View)
    requires Reachable(v)
    ensures Rotate(Rotate(Rotate(Rotate(v)))) == v
  {
  }

  /** How many times `actions` presses the rotate button. */
  function Rotations(actions: seq<Action>): nat {
    if actions == [] then 0 else (if actions[0] == RotateAction then 1 else 0) + Rotations(actions[1..])
  }

  /** Without a reset, the rotation is the start plus 90 degrees per rotate press, modulo 360. */
  lemma {:induction false} RunRotation(v: View, actions: seq<Action>)
    requires Reachable(v)
    requires forall i :: 0 <= i < |actions| ==> actions[i] != ResetAction
    ensures Run(v, actions).rotation == (v.rotation + RotationStep * Rotations(actions)) % FullTurn
    decreases |actions|
  {
    if actions != [] {
      var w := StepReachable(v, actions[0]);
      RunRotation(w, actions[1..]);
      var n := Rotations(actions[1..]);
      if actions[0] == RotateAction {
        assert w.rotation == (v.rotation + RotationStep) % FullTurn;
        ModAddMultiple(v.rotation + RotationStep, RotationStep * n);
      }
    }
  }

  /** `((a % 360) + b) % 360 == (a + b) % 360`. */
  lemma ModAddMultiple(a: int, b: int)
    ensures (a % FullTurn + b) % FullTurn == (a + b) % FullTurn
  {
    var q := a / FullTurn;
    assert a == q * FullTurn + a % FullTurn;
    assert a + b == (a % FullTurn + b) + q * FullTurn;
  }

  /** Whatever came before, pressing reset last gives the initial view. */
  lemma {:induction false} ResetLast(v: View, actions: seq<Action>)
    requires Reachable(v)
    ensures Run(v, actions + [ResetAction]) == Initial
    decreases |actions|
  {
    if actions == [] {
      assert [ResetAction][1..] == [];
    } else {
      assert (actions + [ResetAction])[1..] == actions[1..] + [ResetAction];
      ResetLast(StepReachable(v, actions[0]), actions[1..]);
    }
  }

  // ----------------------------------------------------------- the component

  /** The component's two pieces of state, updated by its button handlers. */
  class Viewer {
    var quarters: int
    var rotation: int

    function Current(): View reads this { View(quarters, rotation) }

    predicate Valid() reads this { Reachable(Current()) }

    constructor ()
      ensures Valid() && Current() == Initial
    {
      quarters := InitialQuarters;
      rotation := 0;
    }

    method HandleZoomIn()
      requires Valid()
      modifies this
      ensures Valid() && Current() == ZoomIn(old(Current()))
    {
      quarters := if quarters + 1 <= MaxQuarters then quarters + 1 else MaxQuarters;
    }

    method HandleZoomOut()
      requires Valid()
      modifies this
      ensures Valid() && Current() == ZoomOut(old(Current()))
    {
      quarters := if quarters - 1 >= MinQuarters then quarters - 1 else MinQuarters;
    }

    method HandleRotate()
      requires Valid()
      modifies this
      ensures Valid() && Current() == Rotate(old(Current()))
    {
      rotation := (rotation + RotationStep) % FullTurn;
    }

    method HandleReset()
      requires Valid()
      modifies this
      ensures Valid() && Current() == Reset(old(Current()))
    {
      quarters := InitialQuarters;
      rotation := 0;
    }
  }
}
