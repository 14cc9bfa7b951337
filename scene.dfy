/**
 * The command sink of the simulator: which part of the cube a button id
 * changes. Translation is counted in button steps of 0.3 units and rotation
 * in button steps of 0.2 radians, so every quantity is an integer.
 */
module Scene {
  import opened Wrappers

  datatype Axis = X | Y | Z

  datatype Vec = Vec(x: int, y: int, z: int) {
    function Get(a: Axis): int {
      match a
      case X => x
      case Y => y
      case Z => z
    }

    /** This vector with `d` added to the component on axis `a` only. */
    function Shift(a: Axis, d: int): (v: Vec)
      ensures v.Get(a) == Get(a) + d
      ensures forall b: Axis :: b != a ==> v.Get(b) == Get(b)
    {
      match a
      case X => this.(x := x + d)
      case Y => this.(y := y + d)
      case Z => this.(z := z + d)
    }
  }

  /** The cube's state that button events touch: `cube.position`,
      `cube.rotation` and `cube.material.wireframe`. */
  datatype Pose = Pose(position: Vec, rotation: Vec, wireframe: bool)

  datatype Command =
    | Translate(axis: Axis, delta: int)
    | Rotate(axis: Axis)
    | ToggleWireframe

  /** A component of the pose, the unit in which button effects are counted. */
  datatype Component = Position(axis: Axis) | Rotation(axis: Axis) | Wireframe

  const Components: set<Component> :=
    {Position(X), Position(Y), Position(Z), Rotation(X), Rotation(Y), Rotation(Z), Wireframe}

  /** The switch of `handleButtonEvent`: ids 1 to 9 move or turn the cube,
      10 and every other value (a non-integer or missing id included) fall
      through to the wireframe toggle. */
  function CommandFor(id: Option<int>): (c: Command)
    ensures c.ToggleWireframe? <==> !(id.Some? && 1 <= id.value <= 9)
    ensures c.Translate? ==> c.delta == 1 || c.delta == -1
  {
    if id == Some(1) then Translate(X, -1)
    else if id == Some(2) then Translate(X, 1)
    else if id == Some(3) then Translate(Y, 1)
    else if id == Some(4) then Translate(Y, -1)
    else if id == Some(5) then Translate(Z, 1)
    else if id == Some(6) then Translate(Z, -1)
    else if id == Some(7) then Rotate(X)
    else if id == Some(8) then Rotate(Y)
    else if id == Some(9) then Rotate(Z)
    else ToggleWireframe
  }

  /** One switch arm of `handleButtonEvent`: the command's target component
      moves one step (a move in the command's direction, a turn forwards, or
      a toggle) and every other component keeps its value. */
  function Apply(p: Pose, c: Command): (q: Pose)
    ensures forall k :: k != Target(c) ==> Agrees(p, q, k)
    ensures c.Translate? ==> q.position.Get(c.axis) == p.position.Get(c.axis) + c.delta
    ensures c.Rotate? ==> q.rotation.Get(c.axis) == p.rotation.Get(c.axis) + 1
    ensures c.ToggleWireframe? ==> q.wireframe == !p.wireframe
  {
    match c
    case Translate(a, d) => p.(position := p.position.Shift(a, d))
    case Rotate(a) => p.(rotation := p.rotation.Shift(a, 1))
    case ToggleWireframe => p.(wireframe := !p.wireframe)
  }

  /** The component a command changes. */
  function Target(c: Command): Component {
    match c
    case Translate(a, _) => Position(a)
    case Rotate(a) => Rotation(a)
    case ToggleWireframe => Wireframe
  }

  predicate Agrees(p: Pose, q: Pose, k: Component) {
    match k
    case Position(a) => p.position.Get(a) == q.position.Get(a)
    case Rotation(a) => p.rotation.Get(a) == q.rotation.Get(a)
    case Wireframe => p.wireframe == q.wireframe
  }

  /** The components on which two poses differ. */
  function Changed(p: Pose, q: Pose): set<Component> {
    set k | k in Components && !Agrees(p, q, k)
  }

  /** Every button event, whatever its id, changes exactly one component of
      the cube: the one its command targets. */
  lemma ExactlyOneComponent(p: Pose, id: Option<int>)
    ensures Changed(p, Apply(p, CommandFor(id))) == {Target(CommandFor(id))}
  {
  }

  /** No two of the nine moving ids have the same effect. */
  lemma MovingIdsDistinct(i: int, j: int)
    requires 1 <= i <= 9 && 1 <= j <= 9 && i != j
    ensures CommandFor(Some(i)) != CommandFor(Some(j))
  {
  }

  /** The position buttons come in opposite pairs (1 and 2 on x, 3 and 4 on
      y, 5 and 6 on z): one press of each leaves the cube where it was. */
  lemma OppositeMovesCancel(p: Pose, k: int)
    requires k == 1 || k == 3 || k == 5
    ensures Apply(Apply(p, CommandFor(Some(k))), CommandFor(Some(k + 1))) == p
  {
  }

  /** Two fall-through events restore the wireframe flag and the whole pose. */
  lemma TwoTogglesRestore(p: Pose, a: Option<int>, b: Option<int>)
    requires CommandFor(a).ToggleWireframe? && CommandFor(b).ToggleWireframe?
    ensures Apply(Apply(p, CommandFor(a)), CommandFor(b)) == p
  {
  }

  /** The cube after a sequence of button events, in arrival order. */
  function ApplyAll(p: Pose, ids: seq<Option<int>>): Pose
    decreases |ids|
  {
    if ids == [] then p else ApplyAll(Apply(p, CommandFor(ids[0])), ids[1..])
  }

  /** How many of the events carry id `k`. */
  function Presses(ids: seq<Option<int>>, k: int): nat
    decreases |ids|
  {
    if ids == [] then 0 else (if ids[0] == Some(k) then 1 else 0) + Presses(ids[1..], k)
  }

  /** How many of the events fall through to the wireframe toggle. */
  function Toggles(ids: seq<Option<int>>): nat
    decreases |ids|
  {
    if ids == [] then 0
    else (if CommandFor(ids[0]).ToggleWireframe? then 1 else 0) + Toggles(ids[1..])
  }

  function Parity(n: nat): bool {
    n % 2 == 1
  }

  /** Net effect of a sequence of button events: each position component
      moves by the difference of its two buttons' counts, each rotation by its
      button's count, and the wireframe flag flips once per fall-through event,
      whatever the order of arrival. */
  lemma {:induction false} NetEffect(p: Pose, ids: seq<Option<int>>)
    ensures ApplyAll(p, ids) == Pose(
      Vec(p.position.x - Presses(ids, 1) + Presses(ids, 2),
          p.position.y + Presses(ids, 3) - Presses(ids, 4),
          p.position.z + Presses(ids, 5) - Presses(ids, 6)),
      Vec(p.rotation.x + Presses(ids, 7),
          p.rotation.y + Presses(ids, 8),
          p.rotation.z + Presses(ids, 9)),
      p.wireframe != Parity(Toggles(ids)))
    decreases |ids|
  {
    if ids != [] {
      NetEffect(Apply(p, CommandFor(ids[0])), ids[1..]);
    }
  }
}
