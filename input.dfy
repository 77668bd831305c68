/**
 * The input handlers of app/main.go: the key actions that step one `UIState` component,
 * and the normalisation of pointer positions to the unit square.
 */
module Input {
  import opened LinearAlgebra
  import opened Observer

  /** The bound key actions: each move and strafe press has a matching release; Jump has none. */
  datatype KeyAction =
    | MoveUp | StopMoveUp | MoveDown | StopMoveDown
    | MoveForward | StopMoveForward | MoveBackward | StopMoveBackward
    | StrafeLeft | StopStrafeLeft | StrafeRight | StopStrafeRight
    | Jump

  function Component(v: Vec4, i: nat): real
    requires i < 4
  {
    if i == 0 then v.x else if i == 1 then v.y else if i == 2 then v.z else v.w
  }

  /** `v[i] += d`. */
  function Bump(v: Vec4, i: nat, d: real): (r: Vec4)
    requires i < 4
    ensures Component(r, i) == Component(v, i) + d
    ensures forall j :: 0 <= j < 4 && j != i ==> Component(r, j) == Component(v, j)
  {
    if i == 0 then v.(x := v.x + d) else if i == 1 then v.(y := v.y + d)
    else if i == 2 then v.(z := v.z + d) else v.(w := v.w + d)
  }

  /** The effect of one handler on the input state. */
  function Handle(a: KeyAction, ui: UIState): UIState {
    match a
    case MoveUp => ui.(movement := Bump(ui.movement, 1, 1.0))
    case StopMoveUp => ui.(movement := Bump(ui.movement, 1, -1.0))
    case MoveDown => ui.(movement := Bump(ui.movement, 1, -1.0))
    case StopMoveDown => ui.(movement := Bump(ui.movement, 1, 1.0))
    case MoveForward => ui.(movement := Bump(ui.movement, 2, -1.0))
    case StopMoveForward => ui.(movement := Bump(ui.movement, 2, 1.0))
    case MoveBackward => ui.(movement := Bump(ui.movement, 2, 1.0))
    case StopMoveBackward => ui.(movement := Bump(ui.movement, 2, -1.0))
    case StrafeLeft => ui.(movement := Bump(ui.movement, 0, -1.0))
    case StopStrafeLeft => ui.(movement := Bump(ui.movement, 0, 1.0))
    case StrafeRight => ui.(movement := Bump(ui.movement, 0, 1.0))
    case StopStrafeRight => ui.(movement := Bump(ui.movement, 0, -1.0))
    case Jump => ui.(impulse := Bump(ui.impulse, 1, 1.0))
  }

  /** `v` and `u` differ in exactly one component, by one unit. */
  predicate UnitStep(u: Vec4, v: Vec4) {
    exists i :: 0 <= i < 4 && (Component(v, i) - Component(u, i) == 1.0 || Component(v, i) - Component(u, i) == -1.0) &&
      forall j :: 0 <= j < 4 && j != i ==> Component(v, j) == Component(u, j)
  }

  /** The key release bound beside a press; Jump is bound without one. */
  function Release(a: KeyAction): (r: KeyAction)
    requires a != Jump
  {
    match a
    case MoveUp => StopMoveUp
    case StopMoveUp => MoveUp
    case MoveDown => StopMoveDown
    case StopMoveDown => MoveDown
    case MoveForward => StopMoveForward
    case StopMoveForward => MoveForward
    case MoveBackward => StopMoveBackward
    case StopMoveBackward => MoveBackward
    case StrafeLeft => StopStrafeLeft
    case StopStrafeLeft => StrafeLeft
    case StrafeRight => StopStrafeRight
    case StopStrafeRight => StrafeRight
  }

  /** The axis a movement handler steps. */
  function Axis(a: KeyAction): (i: nat)
    requires a != Jump
    ensures i < 3
  {
    match a
    case MoveUp | StopMoveUp | MoveDown | StopMoveDown => 1
    case MoveForward | StopMoveForward | MoveBackward | StopMoveBackward => 2
    case StrafeLeft | StopStrafeLeft | StrafeRight | StopStrafeRight => 0
  }

  /** Every handler changes exactly one component of one input vector, by plus or minus one. */
  lemma {:induction false} HandleSteps(a: KeyAction, ui: UIState)
    ensures a == Jump ==> Handle(a, ui).movement == ui.movement && UnitStep(ui.impulse, Handle(a, ui).impulse)
    ensures a != Jump ==> Handle(a, ui).impulse == ui.impulse && UnitStep(ui.movement, Handle(a, ui).movement)
  {
    var i := if a == Jump then 1 else Axis(a);
    var before := if a == Jump then ui.impulse else ui.movement;
    var after := if a == Jump then Handle(a, ui).impulse else Handle(a, ui).movement;
    assert Component(after, i) - Component(before, i) == 1.0 || Component(after, i) - Component(before, i) == -1.0;
    assert forall j :: 0 <= j < 4 && j != i ==> Component(after, j) == Component(before, j);
  }

  /** A press followed by its release restores the input state. */
  lemma ReleaseRestores(a: KeyAction, ui: UIState)
    requires a != Jump
    ensures Handle(Release(a), Handle(a, ui)) == ui
  {
  }

  /** `MouseCoord`: pixel coordinates over the window size, with y flipped so that up is positive. */
  function MouseCoord(xpos: real, ypos: real, width: int, height: int): (r: Vec2)
    requires width > 0 && height > 0
    ensures r.x * width as real == xpos && (1.0 - r.y) * height as real == ypos
  {
    Vec2(xpos / width as real, 1.0 - ypos / height as real)
  }

  /** A pointer inside the window lands in the unit square. */
  lemma MouseCoordInUnitSquare(xpos: real, ypos: real, width: int, height: int)
    requires width > 0 && height > 0
    requires 0.0 <= xpos <= width as real && 0.0 <= ypos <= height as real
    ensures 0.0 <= MouseCoord(xpos, ypos, width, height).x <= 1.0
    ensures 0.0 <= MouseCoord(xpos, ypos, width, height).y <= 1.0
  {
  }
}
