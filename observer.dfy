/**
 * The observer's kinematics in app/main.go: the player record, the per-tick step of
 * `Simulate` written as a function (impulse, movement, portal crossing, integration,
 * ground clamp, camera), and the idle predicate.
 */
module Observer {
  import opened LinearAlgebra
  import opened Wrappers
  import opened Portal

  datatype Player = Player(position: Vec4, velocity: Vec4, panAxis: Vec4, tiltAxis: Vec4,
                           orientationH: Quat, orientation: Quat)

  /** The pending inputs: a one-shot impulse and a held movement direction. */
  datatype UIState = UIState(impulse: Vec4, movement: Vec4)

  datatype GameConstants = GameConstants(movementLimit: real, impulseLimit: real, gravity: real,
                                         panSensitivity: real, fov: real, viewNear: real,
                                         viewFar: real, debug: bool)

  const DefaultConstants := GameConstants(5.0, 5.0, -9.8, 7.0, 70.0, 0.001, 100.0, false)

  /** The fixed ground height. */
  const Ground: real := 1.0

  /** The state `Simulate` rewrites: the player, the inputs, the inception and camera matrices. */
  datatype World = World(player: Player, ui: UIState, inception: Mat4, cameraview: Mat4)

  /** `Player.Transform(m)`: position and velocity through `m`, both orientations pre-rotated. */
  function TransformPlayer(lib: MathLib, p: Player, m: Mat4): (r: Player)
    ensures r.panAxis == p.panAxis && r.tiltAxis == p.tiltAxis
  {
    var q := lib.quatOfMatrix(m);
    p.(position := MulV(m, p.position), velocity := MulV(m, p.velocity),
       orientation := lib.quatMul(q, p.orientation), orientationH := lib.quatMul(q, p.orientationH))
  }

  /** Transforming by a matrix and then by its inverse restores position and velocity. */
  lemma TransformPlayerRoundTrip(lib: MathLib, p: Player, m: Mat4, mi: Mat4)
    requires IsInverse(m, mi)
    ensures TransformPlayer(lib, TransformPlayer(lib, p, m), mi).position == p.position
    ensures TransformPlayer(lib, TransformPlayer(lib, p, m), mi).velocity == p.velocity
  {
    MulVMul(mi, m, p.position);
    MulVMul(mi, m, p.velocity);
    MulVIdentity(p.position);
    MulVIdentity(p.velocity);
  }

  /** An input direction scaled to `limit` and turned by the heading-only orientation. */
  function ViewAdjusted(lib: MathLib, p: Player, v: Vec4, limit: real): Vec4 {
    lib.toHomog(lib.quatRotate(p.orientationH, Scale4(lib.normalize4(v), limit).Xyz()))
  }

  /**
   * `PanView`: the pointer delta scaled by field of view times sensitivity; the horizontal part
   * turns about the pan axis (heading and full orientation), the vertical part about the tilt
   * axis (full orientation only, applied on the right).
   */
  function Panned(lib: MathLib, c: GameConstants, p: Player, delta: Vec2): (r: Player)
    ensures r.position == p.position && r.velocity == p.velocity
    ensures r.panAxis == p.panAxis && r.tiltAxis == p.tiltAxis
  {
    var k := c.fov * c.panSensitivity;
    var turnV := lib.quatRotated(delta.y * k, p.tiltAxis.Xyz());
    var turnH := lib.quatRotated(-(delta.x * k), p.panAxis.Xyz());
    p.(orientationH := lib.quatMul(turnH, p.orientationH),
       orientation := lib.quatMul(lib.quatMul(turnH, p.orientation), turnV))
  }

  /** A zero pointer delta leaves the view where it was, given the quaternion identity laws. */
  lemma PannedStill(lib: MathLib, c: GameConstants, p: Player)
    requires forall axis :: lib.quatRotated(0.0, axis) == QuatIdentity
    requires forall q :: lib.quatMul(QuatIdentity, q) == q && lib.quatMul(q, QuatIdentity) == q
    ensures Panned(lib, c, p, Zero2) == p
  {
    var k := c.fov * c.panSensitivity;
    assert 0.0 * k == 0.0 && -(0.0 * k) == 0.0;
    assert lib.quatRotated(0.0, p.tiltAxis.Xyz()) == QuatIdentity;
    assert lib.quatRotated(0.0, p.panAxis.Xyz()) == QuatIdentity;
    assert lib.quatMul(QuatIdentity, p.orientation) == p.orientation;
  }

  predicate Idle(ui: UIState, p: Player) {
    NearZero4(ui.impulse) && NearZero4(ui.movement) && NearZero4(p.velocity)
  }

  // ---------------------------------------------------------------------------
  // Portal crossing

  /** The time along this tick's displacement at which the portal plane z = 0 is met. */
  function CrossingTime(pos: Vec4, v: Vec4): real
    requires v.z > 0.0
  {
    -pos.z / v.z
  }

  /** In the portal's frame: behind the plane, moving forward, meeting it within the tick inside the unit square. */
  predicate CrossesAt(pos: Vec4, v: Vec4) {
    pos.z < 0.0 && v.z > 0.0 &&
      Abs(Hit(pos, v).x) <= 1.0 && Abs(Hit(pos, v).y) <= 1.0 &&
      CrossingTime(pos, v) > 0.0 && CrossingTime(pos, v) <= 1.0
  }

  /** Where the displacement meets the plane: `pos + v * t`. */
  function Hit(pos: Vec4, v: Vec4): Vec4
    requires v.z > 0.0
  {
    Add4(pos, Scale4(v, CrossingTime(pos, v)))
  }

  /** The crossing test of `Simulate`, on the player's position and displacement taken into the portal's frame. */
  predicate Crosses(portalview: Mat4, position: Vec4, dp: Vec4) {
    CrossesAt(MulV(portalview, position), MulV(portalview, dp))
  }

  /** The same test without division: behind the plane, reaching it within the tick, inside the square. */
  predicate CrossesSegment(pos: Vec4, v: Vec4) {
    pos.z < 0.0 && 0.0 < v.z && pos.z + v.z >= 0.0 &&
    Abs(pos.x * v.z - v.x * pos.z) <= v.z && Abs(pos.y * v.z - v.y * pos.z) <= v.z
  }

  lemma ScaledAbs(a: real, d: real)
    requires d > 0.0
    ensures Abs(a / d) <= 1.0 <==> Abs(a) <= d
  {
    if a >= 0.0 {
      assert a / d >= 0.0;
      assert a / d <= 1.0 <==> a <= d;
    } else {
      assert a / d < 0.0;
      assert -(a / d) == (-a) / d;
      assert (-a) / d <= 1.0 <==> -a <= d;
    }
  }

  lemma CrossingTimeBounds(pos: Vec4, v: Vec4)
    requires pos.z < 0.0 && v.z > 0.0
    ensures CrossingTime(pos, v) > 0.0
    ensures CrossingTime(pos, v) <= 1.0 <==> pos.z + v.z >= 0.0
    ensures pos.z + v.z * CrossingTime(pos, v) == 0.0
  {
    var t := CrossingTime(pos, v);
    assert t * v.z == -pos.z;
    if t <= 1.0 {
      assert t * v.z <= 1.0 * v.z;
    } else {
      assert t * v.z > 1.0 * v.z;
    }
  }

  lemma HitCoordinate(p: real, pz: real, d: real, dz: real)
    requires dz > 0.0
    ensures Abs(p + d * (-pz / dz)) <= 1.0 <==> Abs(p * dz - d * pz) <= dz
  {
    assert p + d * (-pz / dz) == (p * dz - d * pz) / dz;
    ScaledAbs(p * dz - d * pz, dz);
  }

  /** A crossing meets the plane exactly (hit.z = 0) at a time in (0, 1]. */
  lemma CrossingPoint(pos: Vec4, v: Vec4)
    requires CrossesAt(pos, v)
    ensures 0.0 < CrossingTime(pos, v) <= 1.0 && Hit(pos, v).z == 0.0
  {
    CrossingTimeBounds(pos, v);
  }

  lemma HitX(pos: Vec4, v: Vec4)
    requires v.z > 0.0
    ensures Abs(Hit(pos, v).x) <= 1.0 <==> Abs(pos.x * v.z - v.x * pos.z) <= v.z
  {
    HitCoordinate(pos.x, pos.z, v.x, v.z);
  }

  lemma HitY(pos: Vec4, v: Vec4)
    requires v.z > 0.0
    ensures Abs(Hit(pos, v).y) <= 1.0 <==> Abs(pos.y * v.z - v.y * pos.z) <= v.z
  {
    HitCoordinate(pos.y, pos.z, v.y, v.z);
  }

  lemma SegmentImpliesCrossing(pos: Vec4, v: Vec4)
    requires CrossesSegment(pos, v)
    ensures CrossesAt(pos, v)
  {
    HitX(pos, v);
    HitY(pos, v);
    CrossingTimeBounds(pos, v);
    assert Abs(Hit(pos, v).x) <= 1.0;
    assert Abs(Hit(pos, v).y) <= 1.0;
    assert CrossingTime(pos, v) <= 1.0;
  }

  lemma CrossingImpliesSegment(pos: Vec4, v: Vec4)
    requires CrossesAt(pos, v)
    ensures CrossesSegment(pos, v)
  {
    HitX(pos, v);
    HitY(pos, v);
    CrossingTimeBounds(pos, v);
  }

  /** The crossing test agrees with its division-free restatement. */
  lemma CrossingSegment(pos: Vec4, v: Vec4)
    ensures CrossesAt(pos, v) <==> CrossesSegment(pos, v)
  {
    if CrossesSegment(pos, v) {
      SegmentImpliesCrossing(pos, v);
    }
    if CrossesAt(pos, v) {
      CrossingImpliesSegment(pos, v);
    }
  }

  /** The first portal from `from` on whose unit square this tick's displacement passes through. */
  function FirstCrossing(portals: seq<Portal>, position: Vec4, dp: Vec4, from: nat): (r: Option<nat>)
    requires from <= |portals|
    ensures r.Some? ==> from <= r.value < |portals| && Crosses(portals[r.value].portalview, position, dp)
    ensures r.Some? ==> forall j :: from <= j < r.value ==> !Crosses(portals[j].portalview, position, dp)
    ensures r.None? <==> forall j :: from <= j < |portals| ==> !Crosses(portals[j].portalview, position, dp)
    decreases |portals| - from
  {
    if from == |portals| then None
    else if Crosses(portals[from].portalview, position, dp) then Some(from)
    else FirstCrossing(portals, position, dp, from + 1)
  }

  // ---------------------------------------------------------------------------
  // One tick

  /** The one-shot impulse: added to the velocity once and cleared, unless it is near zero. */
  function Kick(lib: MathLib, c: GameConstants, p: Player, ui: UIState): (Player, UIState) {
    if !NearZero4(ui.impulse) then
      (p.(velocity := Add4(p.velocity, ViewAdjusted(lib, p, ui.impulse, c.impulseLimit))),
       ui.(impulse := Zero4))
    else (p, ui)
  }

  /** This tick's displacement: the velocity plus the held movement, times the tick length. */
  function Displacement(lib: MathLib, c: GameConstants, p: Player, movement: Vec4, deltaT: real): Vec4 {
    var aggregate := if !NearZero4(movement) then Add4(p.velocity, ViewAdjusted(lib, p, movement, c.movementLimit))
                     else p.velocity;
    Scale4(aggregate, deltaT)
  }

  /** Integrate `dp` from `p` and apply the ground/gravity policy. */
  function Settle(c: GameConstants, p: Player, dp: Vec4, deltaT: real): Player {
    var p0 := p.position;
    var moved := Add4(p0, dp);
    if moved.y > Ground then
      p.(position := moved, velocity := p.velocity.(y := p.velocity.y + c.gravity * deltaT))
    else
      p.(position := if p0.y >= Ground then moved.(y := Ground) else moved,
         velocity := p.velocity.(y := 0.0))
  }

  /** The view matrix: the conjugate orientation composed with the translation by -position. */
  function CameraView(lib: MathLib, p: Player): Mat4 {
    Mul(lib.quatConjugateMat(p.orientation), Translation(-p.position.x, -p.position.y, -p.position.z))
  }

  /**
   * The portal loop: through the first crossed portal, if any, the player and the displacement
   * are mapped by the inverse of its transform and the inception matrix takes on the transform.
   */
  function Traverse(lib: MathLib, portals: seq<Portal>, p: Player, dp: Vec4, inception: Mat4): (Player, Vec4, Mat4) {
    match FirstCrossing(portals, p.position, dp, 0)
    case Some(k) =>
      var ti := lib.inv(portals[k].transform);
      (TransformPlayer(lib, p, ti), MulV(ti, dp), Mul(inception, portals[k].transform))
    case None => (p, dp, inception)
  }

  /** One call of `Simulate` with tick length `deltaT`. */
  function Tick(lib: MathLib, c: GameConstants, portals: seq<Portal>, deltaT: real, w: World): World {
    var (p1, ui1) := Kick(lib, c, w.player, w.ui);
    var dp := Displacement(lib, c, p1, ui1.movement, deltaT);
    var (p2, dp2, inception) := Traverse(lib, portals, p1, dp, w.inception);
    var p3 := Settle(c, p2, dp2, deltaT);
    World(p3, ui1, inception, CameraView(lib, p3))
  }

  // ---------------------------------------------------------------------------
  // What a tick promises

  /** The impulse is consumed exactly when it is not near zero; movement input is never touched. */
  lemma TickInputs(lib: MathLib, c: GameConstants, portals: seq<Portal>, deltaT: real, w: World)
    ensures Tick(lib, c, portals, deltaT, w).ui.movement == w.ui.movement
    ensures Tick(lib, c, portals, deltaT, w).ui.impulse == if NearZero4(w.ui.impulse) then w.ui.impulse else Zero4
  {
  }

  /**
   * At most one portal applies per tick, the first in list order that the displacement crosses;
   * the inception matrix is right-multiplied by its transform and otherwise unchanged.
   */
  lemma TickPortal(lib: MathLib, c: GameConstants, portals: seq<Portal>, deltaT: real, w: World)
    ensures var p1 := Kick(lib, c, w.player, w.ui).0;
      var dp := Displacement(lib, c, p1, w.ui.movement, deltaT);
      var w' := Tick(lib, c, portals, deltaT, w);
      match FirstCrossing(portals, p1.position, dp, 0)
      case Some(k) =>
        Crosses(portals[k].portalview, p1.position, dp) &&
        (forall j :: 0 <= j < k ==> !Crosses(portals[j].portalview, p1.position, dp)) &&
        w'.inception == Mul(w.inception, portals[k].transform)
      case None => w'.inception == w.inception
  {
  }

  /**
   * The ground policy: on or below the ground the vertical velocity is zero, and a player who
   * started the integration at or above the ground lands exactly on it; above the ground the
   * vertical velocity gains gravity times the tick length. Nothing else of the velocity changes.
   */
  lemma SettleGround(c: GameConstants, p: Player, dp: Vec4, deltaT: real)
    ensures var p' := Settle(c, p, dp, deltaT);
      (p'.position.y <= Ground ==> p'.velocity.y == 0.0) &&
      (p'.position.y <= Ground && p.position.y >= Ground ==> p'.position.y == Ground) &&
      (p'.position.y > Ground ==> p'.velocity.y == p.velocity.y + c.gravity * deltaT) &&
      p'.velocity.x == p.velocity.x && p'.velocity.z == p.velocity.z && p'.velocity.w == p.velocity.w &&
      p'.position.x == p.position.x + dp.x && p'.position.z == p.position.z + dp.z
  {
  }

  /**
   * The ground policy of a whole tick, stated on the player it stores: on or below the ground
   * the vertical velocity is zero; a player who was at or above the ground after the portal
   * step lands exactly on it; above the ground the vertical velocity gains gravity times the
   * tick length over the velocity after the portal step.
   */
  lemma TickGround(lib: MathLib, c: GameConstants, portals: seq<Portal>, deltaT: real, w: World)
    ensures var p1 := Kick(lib, c, w.player, w.ui).0;
      var p2 := Traverse(lib, portals, p1, Displacement(lib, c, p1, w.ui.movement, deltaT), w.inception).0;
      var p' := Tick(lib, c, portals, deltaT, w).player;
      (p'.position.y <= Ground ==> p'.velocity.y == 0.0) &&
      (p'.position.y <= Ground && p2.position.y >= Ground ==> p'.position.y == Ground) &&
      (p'.position.y > Ground ==> p'.velocity.y == p2.velocity.y + c.gravity * deltaT)
  {
    var p1 := Kick(lib, c, w.player, w.ui).0;
    var t := Traverse(lib, portals, p1, Displacement(lib, c, p1, w.ui.movement, deltaT), w.inception);
    SettleGround(c, t.0, t.1, deltaT);
  }

  /** The velocity a tick leaves in the horizontal and w components, given the portal crossed (if any). */
  function CarriedVelocity(lib: MathLib, portals: seq<Portal>, crossed: Option<nat>, v: Vec4): Vec4
    requires crossed.Some? ==> crossed.value < |portals|
  {
    match crossed
    case None => v
    case Some(k) => MulV(lib.inv(portals[k].transform), v)
  }

  /**
   * The held movement never enters the stored velocity: after a tick its x, z and w components
   * are those of the kicked velocity, mapped by the inverse transform of the first portal
   * crossed when there is one. Movement can change them only through which portal is crossed.
   */
  lemma TickMovementNotStored(lib: MathLib, c: GameConstants, portals: seq<Portal>, deltaT: real, w: World)
    ensures var p1 := Kick(lib, c, w.player, w.ui).0;
      var crossed := FirstCrossing(portals, p1.position, Displacement(lib, c, p1, w.ui.movement, deltaT), 0);
      var u := CarriedVelocity(lib, portals, crossed, p1.velocity);
      var v' := Tick(lib, c, portals, deltaT, w).player.velocity;
      v'.x == u.x && v'.z == u.z && v'.w == u.w
    ensures NearZero4(w.ui.impulse) ==> Kick(lib, c, w.player, w.ui).0.velocity == w.player.velocity
  {
    var p1 := Kick(lib, c, w.player, w.ui).0;
    var t := Traverse(lib, portals, p1, Displacement(lib, c, p1, w.ui.movement, deltaT), w.inception);
    SettleGround(c, t.0, t.1, deltaT);
  }

  /**
   * Two ticks from the same state that differ only in the held movement, and cross the same
   * portal (or none), store the same x, z and w velocity.
   */
  lemma TickVelocityIgnoresMovement(lib: MathLib, c: GameConstants, portals: seq<Portal>, deltaT: real, w: World, movement: Vec4)
    requires var p1 := Kick(lib, c, w.player, w.ui).0;
      FirstCrossing(portals, p1.position, Displacement(lib, c, p1, w.ui.movement, deltaT), 0) ==
      FirstCrossing(portals, p1.position, Displacement(lib, c, p1, movement, deltaT), 0)
    ensures var v := Tick(lib, c, portals, deltaT, w).player.velocity;
      var v' := Tick(lib, c, portals, deltaT, w.(ui := w.ui.(movement := movement))).player.velocity;
      v'.x == v.x && v'.z == v.z && v'.w == v.w
  {
    var w' := w.(ui := w.ui.(movement := movement));
    assert Kick(lib, c, w'.player, w'.ui).0 == Kick(lib, c, w.player, w.ui).0;
    TickMovementNotStored(lib, c, portals, deltaT, w);
    TickMovementNotStored(lib, c, portals, deltaT, w');
  }

  /** Under the identity portal view the test runs on the position and displacement themselves. */
  lemma CrossesIdentity(position: Vec4, dp: Vec4)
    ensures Crosses(Identity, position, dp) == CrossesAt(position, dp)
  {
    MulVIdentity(position);
    MulVIdentity(dp);
  }

  /** Worked example: from one unit behind the portal, a displacement of two crosses at t = 1/2. */
  lemma CrossingExampleHit()
    ensures Crosses(Identity, Vec4(0.0, 0.0, -1.0, 1.0), Vec4(0.0, 0.0, 2.0, 0.0))
    ensures CrossingTime(Vec4(0.0, 0.0, -1.0, 1.0), Vec4(0.0, 0.0, 2.0, 0.0)) == 0.5
  {
    var at, through := Vec4(0.0, 0.0, -1.0, 1.0), Vec4(0.0, 0.0, 2.0, 0.0);
    assert CrossingTime(at, through) == 0.5;
    assert CrossesSegment(at, through);
    SegmentImpliesCrossing(at, through);
    CrossesIdentity(at, through);
  }

  /** Worked example: a displacement of one half undershoots the plane. */
  lemma CrossingExampleShort()
    ensures !Crosses(Identity, Vec4(0.0, 0.0, -1.0, 1.0), Vec4(0.0, 0.0, 0.5, 0.0))
  {
    CrossesIdentity(Vec4(0.0, 0.0, -1.0, 1.0), Vec4(0.0, 0.0, 0.5, 0.0));
    CrossingSegment(Vec4(0.0, 0.0, -1.0, 1.0), Vec4(0.0, 0.0, 0.5, 0.0));
  }

  /** Worked example: meeting the plane at x = 1.5 misses the unit square. */
  lemma CrossingExampleOutside()
    ensures !Crosses(Identity, Vec4(1.5, 0.0, -1.0, 1.0), Vec4(0.0, 0.0, 2.0, 0.0))
  {
    CrossesIdentity(Vec4(1.5, 0.0, -1.0, 1.0), Vec4(0.0, 0.0, 2.0, 0.0));
    CrossingSegment(Vec4(1.5, 0.0, -1.0, 1.0), Vec4(0.0, 0.0, 2.0, 0.0));
  }
}
