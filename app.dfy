/**
 * The `Receiver` of app/main.go: the game state that the window callbacks update in place,
 * with the tick (`Simulate`), the idle test, the input callbacks, the portal half of scene
 * loading, and the stencil-buffer portal renderer.
 */
module App {
  import opened LinearAlgebra
  import opened Wrappers
  import opened Portal
  import opened Observer
  import opened Input
  import opened SceneLoading
  import opened Render

  /** The clock reading passed to `Simulate`; `delta` is the tick length in seconds. */
  datatype GameTime = GameTime(elapsed: real, delta: real)

  /** The matrices of `DataBindings`; buffers, programs and models are not modelled. */
  datatype DataBindings = DataBindings(projection: Mat4, cameraview: Mat4, inception: Mat4)

  /** The player `Init` places: one unit above the origin, at rest, looking down -Z. */
  const InitialPlayer := Player(Vec4(0.0, 1.0, 0.0, 1.0), Zero4, Vec4(0.0, 1.0, 0.0, 0.0), Vec4(1.0, 0.0, 0.0, 0.0),
                                QuatIdentity, QuatIdentity)

  /** Ready to draw the portals at stencil level `level`: what the renderer re-establishes after each portal. */
  predicate AtLevel(s: GLState, level: int) {
    s.stencilTest && s.depthTest && s.depthFunc == DepthLE && s.stencilRef == level &&
    s.colorWrite && s.depthMask && s.stencilOp == Keep && !s.clip && !s.cull && s.glow == 0.0 && s.program == SceneProgram
  }

  // ---------------------------------------------------------------------------
  // What one level of the portal renderer draws

  /** `Stencil.Enable().Mask(level).NoDraw()`: the state of the depth-only scene pass of a level. */
  function DepthOnly(s: GLState, level: nat): GLState {
    s.(stencilTest := true, stencilRef := level, colorWrite := false, depthMask := true, stencilOp := Keep)
  }

  /** `DepthLE().Increment()` with culling on: the state the portals are marked in. */
  function Marking(s: GLState, level: nat): GLState {
    DepthOnly(s, level).(depthFunc := DepthLE, stencilOp := Increment, cull := true)
  }

  /** The state the marking leaves: culling off again, colour back on, the stencil kept. */
  function Marked(s: GLState, level: nat): GLState {
    s.(stencilTest := true, stencilRef := level, colorWrite := true, depthMask := true, depthFunc := DepthLE,
       stencilOp := Keep)
  }

  /**
   * The draws of the marking (lines 400-411) from state `s`: the scene into the depth buffer
   * only, then the portal model raising the stencil, its outline too in debug mode.
   */
  function MarkingDraws(s: GLState, level: nat, debug: bool): seq<DrawCall> {
    [DrawCall(SceneModel, false, DepthOnly(s, level)), DrawCall(PortalModel, false, Marking(s, level))] +
    (if debug then [DrawCall(PortalModel, true, Marking(s, level))] else [])
  }

  /**
   * The draws of the colour pass (lines 413-425) from state `s`: the scene in colour, clipped
   * above level 0, then in debug mode the glowing outline one level up.
   */
  function ColourDraws(s: GLState, level: nat, debug: bool): seq<DrawCall> {
    [DrawCall(SceneModel, false, s.(clip := level > 0))] +
    (if debug then [DrawCall(PortalModel, true, s.(clip := level > 0, glow := 1.0, stencilRef := level + 1))] else [])
  }

  /** The one draw of `StepDown(level)` from state `s`. */
  function StepDownDraw(s: GLState, level: int): DrawCall {
    DrawCall(FillGeometry, false, s.(program := FillProgram, stencilTest := true, depthTest := false, depthMask := false,
                                     colorWrite := false, stencilRef := level, stencilOp := Decrement))
  }

  /** Everything a non-leaf level draws before its portal loop (lines 400-431), from state `s`. */
  function LevelDraws(s: GLState, level: nat, debug: bool): seq<DrawCall> {
    MarkingDraws(s, level, debug) + ColourDraws(Marked(s, level), level, debug) + [StepDownDraw(Marked(s, level), level + 1)]
  }

  /**
   * A non-leaf level first draws the scene without colour and marks the portals by raising the
   * stencil at its own level; it paints the scene exactly once, at its own level, clipped
   * exactly when seen through a portal; it ends by stepping the raised areas back down. All
   * its scene draws are at its own level, and every draw keeps the discipline of levels
   * `level .. level + 1`.
   */
  lemma LevelDrawsShape(s: GLState, level: nat, debug: bool)
    requires Ready(s)
    ensures var ds, k := LevelDraws(s, level, debug), |MarkingDraws(s, level, debug)|;
      ds[0].target == SceneModel && !ds[0].state.colorWrite && ds[0].state.stencilRef == level &&
      ds[1].target == PortalModel && ds[1].state.stencilOp == Increment && ds[1].state.stencilRef == level &&
      ds[k].target == SceneModel && ds[k].state.colorWrite && ds[k].state.stencilRef == level &&
      (ds[k].state.clip <==> level > 0) &&
      (forall j :: 0 <= j < |ds| && j != k && ds[j].target == SceneModel ==> !ds[j].state.colorWrite) &&
      ds[|ds| - 1].target == FillGeometry && ds[|ds| - 1].state.stencilOp == Decrement &&
      ds[|ds| - 1].state.stencilRef == level + 1
    ensures forall j :: 0 <= j < |LevelDraws(s, level, debug)| ==>
      WellDrawn(LevelDraws(s, level, debug)[j], level, level + 1, debug)
    ensures forall j :: 0 <= j < |LevelDraws(s, level, debug)| && LevelDraws(s, level, debug)[j].target == SceneModel ==>
      LevelDraws(s, level, debug)[j].state.stencilRef == level
  {
  }

  /**
   * `t[lo..hi]` is one pass of the portal loop at `level` for portal `i`: portal `i`'s quad
   * raises the stencil from `level`, the fill quad clears the depth one level up, and the pass
   * ends with the fill quad stepping that level back down.
   */
  predicate PortalPass(t: seq<DrawCall>, lo: int, hi: int, i: nat, level: int) {
    0 <= lo && lo + 3 <= hi <= |t| &&
    t[lo].target == PortalGeometry(i) && t[lo].state.stencilOp == Increment && t[lo].state.stencilRef == level &&
    t[lo + 1].target == FillGeometry && t[lo + 1].state.stencilOp == Keep && t[lo + 1].state.stencilRef == level + 1 &&
    t[hi - 1].target == FillGeometry && t[hi - 1].state.stencilOp == Decrement && t[hi - 1].state.stencilRef == level + 1
  }

  /**
   * From `start` to its end, `t` holds a non-leaf level's own draws from state `s` and then `n`
   * portal passes, one per portal in list order, separated at the positions `passes`.
   */
  predicate LevelThenPasses(t: seq<DrawCall>, start: nat, s: GLState, level: nat, debug: bool, passes: seq<int>, n: nat) {
    |passes| == n + 1 && passes[0] == start + |LevelDraws(s, level, debug)| && passes[n] == |t| &&
    passes[0] <= |t| && t[start..passes[0]] == LevelDraws(s, level, debug) &&
    forall j :: 0 <= j < n ==> PortalPass(t, passes[j], passes[j + 1], j, level)
  }

  /** Appending one more portal pass (and keeping the earlier draws) extends the structure. */
  lemma PassesExtend(t: seq<DrawCall>, t': seq<DrawCall>, start: nat, s: GLState, level: nat, debug: bool,
                     passes: seq<int>, n: nat)
    requires LevelThenPasses(t, start, s, level, debug, passes, n) && t <= t' && PortalPass(t', |t|, |t'|, n, level)
    ensures LevelThenPasses(t', start, s, level, debug, passes + [|t'|], n + 1)
  {
    var passes' := passes + [|t'|];
    assert t'[start..passes[0]] == t[start..passes[0]];
    forall j | 0 <= j < n
      ensures PortalPass(t', passes'[j], passes'[j + 1], j, level)
    {
      assert passes'[j] == passes[j] && passes'[j + 1] == passes[j + 1];
      assert PortalPass(t, passes[j], passes[j + 1], j, level);
      assert t'[passes[j]] == t[passes[j]] && t'[passes[j] + 1] == t[passes[j] + 1];
      assert t'[passes[j + 1] - 1] == t[passes[j + 1] - 1];
    }
  }

  /** The new part of a trace that grew from `a` to `b` and then to `c` is the two new parts joined. */
  lemma CountSteps(a: seq<DrawCall>, b: seq<DrawCall>, c: seq<DrawCall>, level: int)
    requires a <= b <= c
    ensures SceneDrawsAt(c[|a|..], level) == SceneDrawsAt(b[|a|..], level) + SceneDrawsAt(c[|b|..], level)
  {
    assert c[|a|..] == b[|a|..] + c[|b|..];
    SceneDrawsAtAppend(b[|a|..], c[|b|..], level);
  }

  /**
   * One pass through a portal, put together: the two draws that raise portal `i`'s area
   * (`t0` to `t1`), the recursion through it (`t1` to `t2`) and the one draw stepping the area
   * back down (`t2` to `t3`) make a portal pass drawn within levels `level .. level + 1 + depth`
   * whose scene draws at the innermost level are exactly the recursion's.
   */
  lemma {:induction false} PassAssembled(t0: seq<DrawCall>, t1: seq<DrawCall>, t2: seq<DrawCall>, t3: seq<DrawCall>,
                                         i: nat, level: nat, depth: nat, debug: bool)
    requires |t1| == |t0| + 2 && DrawnSince(t0, t1, level, level + 1, debug)
    requires t1[|t0|].target == PortalGeometry(i) && t1[|t0|].state.stencilOp == Increment && t1[|t0|].state.stencilRef == level
    requires t1[|t0| + 1].target == FillGeometry && t1[|t0| + 1].state.stencilOp == Keep &&
             t1[|t0| + 1].state.stencilRef == level + 1
    requires DrawnSince(t1, t2, level + 1, level + 1 + depth, debug)
    requires |t3| == |t2| + 1 && DrawnSince(t2, t3, level + 1, level + 1, debug)
    requires t3[|t2|] == StepDownDraw(t3[|t2|].state, level + 1)
    ensures DrawnSince(t0, t3, level, level + 1 + depth, debug)
    ensures PortalPass(t3, |t0|, |t3|, i, level)
    ensures SceneDrawsAt(t3[|t0|..], level + 1 + depth) == SceneDrawsAt(t2[|t1|..], level + 1 + depth)
  {
    DrawnSinceTrans(t0, t1, t2, level, level + 1 + depth, level, level + 1, level + 1, level + 1 + depth, debug);
    DrawnSinceTrans(t0, t2, t3, level, level + 1 + depth, level, level + 1 + depth, level + 1, level + 1, debug);
    assert t3[|t0|] == t1[|t0|] && t3[|t0| + 1] == t1[|t0| + 1];
    SceneDrawsAtNone(t1[|t0|..], level + 1 + depth);
    SceneDrawsAtNone(t3[|t2|..], level + 1 + depth);
    CountSteps(t0, t1, t2, level + 1 + depth);
    CountSteps(t0, t2, t3, level + 1 + depth);
  }

  /**
   * A non-leaf level's own draws start the structure with no pass yet: they keep within the
   * levels of any recursion at least one deep and paint nothing at its innermost level.
   */
  lemma LevelStart(t: seq<DrawCall>, t': seq<DrawCall>, s: GLState, level: nat, depth: nat, debug: bool)
    requires Ready(s) && depth > 0 && t' == t + LevelDraws(s, level, debug)
    ensures DrawnSince(t, t', level, level + depth, debug)
    ensures LevelThenPasses(t', |t|, s, level, debug, [|t'|], 0)
    ensures SceneDrawsAt(t'[|t|..], level + depth) == 0
  {
    LevelDrawsShape(s, level, debug);
    assert t'[|t|..] == LevelDraws(s, level, debug);
    SceneDrawsAtNone(t'[|t|..], level + depth);
  }

  /**
   * One turn of the portal loop at `level`: a level with `n` passes behind it, each adding
   * `per` innermost scene draws, gains pass `n` and `per` more draws.
   */
  lemma {:induction false} LoopStep(t: seq<DrawCall>, t0: seq<DrawCall>, t1: seq<DrawCall>, s: GLState, level: nat,
                                    depth: nat, debug: bool, passes: seq<int>, n: nat, per: nat)
    requires |t| <= |t0| && LevelThenPasses(t0, |t|, s, level, debug, passes, n)
    requires DrawnSince(t, t0, level, level + depth, debug) && DrawnSince(t0, t1, level, level + depth, debug)
    requires PortalPass(t1, |t0|, |t1|, n, level)
    requires SceneDrawsAt(t0[|t|..], level + depth) == n * per && SceneDrawsAt(t1[|t0|..], level + depth) == per
    ensures DrawnSince(t, t1, level, level + depth, debug)
    ensures LevelThenPasses(t1, |t|, s, level, debug, passes + [|t1|], n + 1)
    ensures SceneDrawsAt(t1[|t|..], level + depth) == (n + 1) * per
  {
    DrawnSinceTrans(t, t0, t1, level, level + depth, level, level + depth, level, level + depth, debug);
    PassesExtend(t0, t1, |t|, s, level, debug, passes, n);
    CountSteps(t, t0, t1, level + depth);
  }

  /**
   * The outcome of linking tables `t`: `portals` is `before` followed by one paired portal per
   * linked index, in the visiting order `order` (each linked index exactly once), and `warnings`
   * is `warned` followed by one `(index, exit)` per unlinked index, in the order `skipped`.
   */
  ghost predicate Linking(lib: MathLib, t: LinkTables, before: seq<Portal>, portals: seq<Portal>, order: seq<int>,
                          warned: seq<(int, int)>, warnings: seq<(int, int)>, skipped: seq<int>)
    requires t.WellFormed()
  {
    before <= portals && |portals| == |before| + |order| &&
    (forall k, m :: 0 <= k < m < |order| ==> order[k] != order[m]) &&
    (forall id :: id in order <==> id in Linked(t)) &&
    PairAll(lib, t, order) == Success(portals[|before|..]) &&
    warned <= warnings && |warnings| == |warned| + |skipped| &&
    (forall id :: id in skipped <==> id in Unlinked(t)) &&
    (forall k :: 0 <= k < |skipped| ==>
       skipped[k] in Unlinked(t) && warnings[|warned| + k] == (skipped[k], t.link[skipped[k]]))
  }

  /** The visited linked indices, each once, in visiting order. */
  ghost predicate OrderVisited(t: LinkTables, done: set<int>, order: seq<int>)
    requires t.WellFormed()
  {
    AllLinked(t, order) && (forall k :: 0 <= k < |order| ==> order[k] in done) &&
    (forall k, m :: 0 <= k < m < |order| ==> order[k] != order[m]) &&
    (forall id :: id in done && id in Linked(t) ==> id in order)
  }

  /** The portals appended after `before` are those `PairAll` makes of `order`. */
  ghost predicate PortalsPaired(lib: MathLib, t: LinkTables, before: seq<Portal>, portals: seq<Portal>, order: seq<int>)
    requires t.WellFormed()
  {
    before <= portals && |portals| == |before| + |order| &&
    AllLinked(t, order) && PairAll(lib, t, order) == Success(portals[|before|..])
  }

  /** The warnings appended after `warned` name the visited indices whose exit is missing. */
  ghost predicate SkippedWarned(t: LinkTables, done: set<int>, warned: seq<(int, int)>, warnings: seq<(int, int)>,
                                skipped: seq<int>)
    requires t.WellFormed()
  {
    warned <= warnings && |warnings| == |warned| + |skipped| &&
    (forall k :: 0 <= k < |skipped| ==>
       skipped[k] in done && skipped[k] in Unlinked(t) && warnings[|warned| + k] == (skipped[k], t.link[skipped[k]])) &&
    (forall id :: id in done && id in Unlinked(t) ==> id in skipped)
  }

  /**
   * The linking loop after visiting the indices `done`: the portals and warnings added so far
   * are those of `Linking`, restricted to the visited indices.
   */
  ghost predicate LinkInvariant(lib: MathLib, t: LinkTables, done: set<int>, before: seq<Portal>, portals: seq<Portal>,
                                order: seq<int>, warned: seq<(int, int)>, warnings: seq<(int, int)>, skipped: seq<int>)
    requires t.WellFormed()
  {
    OrderVisited(t, done, order) && PortalsPaired(lib, t, before, portals, order) &&
    SkippedWarned(t, done, warned, warnings, skipped)
  }

  /** Visiting a linked index that pairs appends its portal. */
  lemma LinkStepLinked(lib: MathLib, t: LinkTables, done: set<int>, before: seq<Portal>, portals: seq<Portal>,
                       order: seq<int>, warned: seq<(int, int)>, warnings: seq<(int, int)>, skipped: seq<int>, id: int)
    requires t.WellFormed() && LinkInvariant(lib, t, done, before, portals, order, warned, warnings, skipped)
    requires id !in done && id in Linked(t) && PairPortal(lib, t.quads[id], t.quads[t.link[id]]).Success?
    ensures LinkInvariant(lib, t, done + {id}, before, portals + [PairPortal(lib, t.quads[id], t.quads[t.link[id]]).value],
                          order + [id], warned, warnings, skipped)
  {
    OrderStep(t, done, order, id);
    PortalsStep(lib, t, before, portals, order, id);
    SkippedStep(t, done, warned, warnings, skipped, id);
  }

  lemma OrderStep(t: LinkTables, done: set<int>, order: seq<int>, id: int)
    requires t.WellFormed() && OrderVisited(t, done, order) && id !in done && id in Linked(t)
    ensures OrderVisited(t, done + {id}, order + [id])
  {
    var order' := order + [id];
    assert forall k :: 0 <= k < |order| ==> order'[k] == order[k];
  }

  lemma PortalsStep(lib: MathLib, t: LinkTables, before: seq<Portal>, portals: seq<Portal>, order: seq<int>, id: int)
    requires t.WellFormed() && PortalsPaired(lib, t, before, portals, order)
    requires id in Linked(t) && PairPortal(lib, t.quads[id], t.quads[t.link[id]]).Success?
    ensures PortalsPaired(lib, t, before, portals + [PairPortal(lib, t.quads[id], t.quads[t.link[id]]).value], order + [id])
  {
    var p := PairPortal(lib, t.quads[id], t.quads[t.link[id]]).value;
    assert (portals + [p])[|before|..] == portals[|before|..] + [p];
    PairAllSnoc(lib, t, order, id);
  }

  lemma SkippedStep(t: LinkTables, done: set<int>, warned: seq<(int, int)>, warnings: seq<(int, int)>,
                    skipped: seq<int>, id: int)
    requires t.WellFormed() && SkippedWarned(t, done, warned, warnings, skipped) && id in Linked(t)
    ensures SkippedWarned(t, done + {id}, warned, warnings, skipped)
  {
  }

  /** Pairing one more linked index appends its portal. */
  lemma PairAllSnoc(lib: MathLib, t: LinkTables, ids: seq<int>, id: int)
    requires AllLinked(t, ids) && id in Linked(t)
    requires PairAll(lib, t, ids).Success? && PairPortal(lib, t.quads[id], t.quads[t.link[id]]).Success?
    ensures AllLinked(t, ids + [id])
    ensures PairAll(lib, t, ids + [id]) ==
      Success(PairAll(lib, t, ids).value + [PairPortal(lib, t.quads[id], t.quads[t.link[id]]).value])
  {
    assert (ids + [id])[..|ids|] == ids;
  }

  lemma NonEmptyHasMember(s: set<int>)
    requires s != {}
    ensures exists x :: x in s
  {
    if forall x :: x !in s {
      assert false;
    }
  }

  /** Visiting an index whose exit is missing appends a warning. */
  lemma LinkStepUnlinked(lib: MathLib, t: LinkTables, done: set<int>, before: seq<Portal>, portals: seq<Portal>,
                         order: seq<int>, warned: seq<(int, int)>, warnings: seq<(int, int)>, skipped: seq<int>, id: int)
    requires t.WellFormed() && LinkInvariant(lib, t, done, before, portals, order, warned, warnings, skipped)
    requires id !in done && id in Unlinked(t)
    ensures LinkInvariant(lib, t, done + {id}, before, portals, order, warned, warnings + [(id, t.link[id])], skipped + [id])
  {
    var warnings', skipped' := warnings + [(id, t.link[id])], skipped + [id];
    assert forall k :: 0 <= k < |skipped| ==> skipped'[k] == skipped[k] && warnings'[|warned| + k] == warnings[|warned| + k];
    assert skipped'[|skipped|] == id && warnings'[|warned| + |skipped|] == (id, t.link[id]);
  }

  /** Once every index is visited, the invariant is the outcome `Linking` describes. */
  lemma LinkInvariantDone(lib: MathLib, t: LinkTables, before: seq<Portal>, portals: seq<Portal>,
                          order: seq<int>, warned: seq<(int, int)>, warnings: seq<(int, int)>, skipped: seq<int>)
    requires t.WellFormed() && LinkInvariant(lib, t, t.quads.Keys, before, portals, order, warned, warnings, skipped)
    ensures Linking(lib, t, before, portals, order, warned, warnings, skipped)
  {
  }

  class Receiver {
    const gl: GLContext
    var portals: seq<Portal>
    var warnings: seq<(int, int)>
    var lastMousePosition: Vec2
    var hasLastMousePosition: bool
    var simulationTime: GameTime
    var player: Player
    var ui: UIState
    var invalid: bool
    var constants: GameConstants
    var data: DataBindings

    /** The receiver as `Init` leaves it before the scene is loaded. */
    constructor (gl: GLContext)
      ensures this.gl == gl && portals == [] && warnings == []
      ensures lastMousePosition == Zero2 && !hasLastMousePosition
      ensures player == InitialPlayer && ui == UIState(Zero4, Zero4) && invalid
      ensures constants == DefaultConstants && data == DataBindings(Identity, Identity, Identity)
    {
      this.gl := gl;
      portals := [];
      warnings := [];
      lastMousePosition := Zero2;
      hasLastMousePosition := false;
      simulationTime := GameTime(0.0, 0.0);
      player := InitialPlayer;
      ui := UIState(Zero4, Zero4);
      invalid := true;
      constants := DefaultConstants;
      data := DataBindings(Identity, Identity, Identity);
    }

    /** The part of the receiver that one tick rewrites. */
    function State(): World
      reads this
    {
      World(player, ui, data.inception, data.cameraview)
    }

    // -------------------------------------------------------------------------
    // The tick

    /**
     * `Simulate`: consume the impulse, form this tick's displacement, pass through the first
     * portal crossed (at most one), integrate, apply the ground policy, rebuild the camera.
     */
    method Simulate(lib: MathLib, gameTime: GameTime)
      modifies this`simulationTime, this`player, this`ui, this`data
      ensures simulationTime == gameTime
      ensures State() == Tick(lib, constants, portals, gameTime.delta, old(State()))
      ensures data.projection == old(data.projection)
    {
      simulationTime := gameTime;
      var deltaT := gameTime.delta;

      ApplyImpulse(lib);
      var aggregateVelocity := player.velocity;
      if !NearZero4(ui.movement) {
        aggregateVelocity := Add4(aggregateVelocity, ViewAdjusted(lib, player, ui.movement, constants.movementLimit));
      }
      var dp := Scale4(aggregateVelocity, deltaT);
      assert dp == Displacement(lib, constants, player, ui.movement, deltaT);

      dp := PassThroughPortals(lib, dp);
      Integrate(dp, deltaT);

      var p := player.position;
      var translate := Translation(-p.x, -p.y, -p.z);
      var rotation := lib.quatConjugateMat(player.orientation);
      data := data.(cameraview := Mul(rotation, translate));
    }

    /** Lines 544-549 of `Simulate`: a pending impulse, turned by the heading, is added to the velocity once. */
    method ApplyImpulse(lib: MathLib)
      modifies this`player, this`ui
      ensures (player, ui) == Kick(lib, constants, old(player), old(ui))
    {
      if !NearZero4(ui.impulse) {
        player := player.(velocity := Add4(player.velocity, ViewAdjusted(lib, player, ui.impulse, constants.impulseLimit)));
        ui := ui.(impulse := Zero4);
      }
    }

    /**
     * Lines 581-592 of `Simulate`: move by `dp`; above the ground gravity accelerates the fall,
     * otherwise vertical velocity stops and a player who was on or above the ground is put back
     * on it.
     */
    method Integrate(dp: Vec4, deltaT: real)
      modifies this`player
      ensures player == Settle(constants, old(player), dp, deltaT)
    {
      var p0 := player.position;
      player := player.(position := Add4(p0, dp));
      if player.position.y > Ground {
        player := player.(velocity := player.velocity.(y := player.velocity.y + constants.gravity * deltaT));
      } else {
        player := player.(velocity := player.velocity.(y := 0.0));
        if p0.y >= Ground {
          player := player.(position := player.position.(y := Ground));
        }
      }
    }

    /**
     * The portal loop of `Simulate` (lines 560-579): test the portals in order and pass through
     * the first one crossed, mapping the player and the displacement by the inverse of its
     * transform and appending the transform to the inception matrix.
     */
    method PassThroughPortals(lib: MathLib, displacement: Vec4) returns (dp: Vec4)
      modifies this`player, this`data
      ensures (player, dp, data.inception) == Traverse(lib, portals, old(player), displacement, old(data.inception))
      ensures data.projection == old(data.projection) && data.cameraview == old(data.cameraview)
    {
      dp := displacement;
      var i := 0;
      while i < |portals|
        invariant 0 <= i <= |portals|
        invariant player == old(player) && dp == displacement && data == old(data)
        invariant FirstCrossing(portals, player.position, dp, 0) == FirstCrossing(portals, player.position, dp, i)
      {
        var portalview := portals[i].portalview;
        var pos := MulV(portalview, player.position);
        var v := MulV(portalview, dp);
        if pos.z < 0.0 && v.z > 0.0 {
          var t := -pos.z / v.z;
          var hit := Add4(pos, Scale4(v, t));
          assert t == CrossingTime(pos, v) && hit == Hit(pos, v);
          if Abs(hit.x) <= 1.0 && Abs(hit.y) <= 1.0 && t > 0.0 && t <= 1.0 {
            assert FirstCrossing(portals, player.position, dp, i) == Some(i);
            var ti := lib.inv(portals[i].transform);
            player := TransformPlayer(lib, player, ti);
            dp := MulV(ti, dp);
            data := data.(inception := Mul(data.inception, portals[i].transform));
            return;
          }
        }
        assert !Crosses(portals[i].portalview, player.position, dp);
        i := i + 1;
      }
    }

    /** `IsIdle`: no pending impulse, no held movement, no velocity (each up to the approximate-zero test). */
    method IsIdle() returns (idle: bool)
      ensures idle == Idle(ui, player)
    {
      if !NearZero4(ui.impulse) {
        return false;
      }
      if !NearZero4(ui.movement) {
        return false;
      }
      if !NearZero4(player.velocity) {
        return false;
      }
      return true;
    }

    /** `NeedsRender`: something is moving, or the picture was invalidated. */
    method NeedsRender() returns (needed: bool)
      ensures needed <==> !Idle(ui, player) || invalid
    {
      var idle := IsIdle();
      needed := !idle || invalid;
    }

    // -------------------------------------------------------------------------
    // Input callbacks

    /** `ToggleDebug`: flip the debug flag and invalidate the picture. */
    method ToggleDebug()
      modifies this`invalid, this`constants
      ensures invalid && constants == old(constants).(debug := !old(constants).debug)
    {
      invalid := true;
      constants := constants.(debug := !constants.debug);
    }

    /** A bound key handler (`MoveUp` .. `StopStrafeRight`, `Jump`). */
    method OnKey(a: KeyAction)
      modifies this`ui
      ensures ui == Handle(a, old(ui))
    {
      ui := Handle(a, ui);
    }

    /** `PanView`: turn the view by the pointer delta and invalidate the picture. */
    method PanView(lib: MathLib, pos: Vec2, delta: Vec2)
      modifies this`player, this`invalid
      ensures player == Panned(lib, constants, old(player), delta) && invalid
    {
      player := Panned(lib, constants, player, delta);
      invalid := true;
    }

    /**
     * `MouseMove` on a `width` x `height` window: normalise the pointer position; when a
     * pointer action is bound (`PanView` by default) pass it the delta from the last position,
     * zero on the first sample; remember the position either way.
     */
    method MouseMove(lib: MathLib, xpos: real, ypos: real, width: int, height: int, panBound: bool)
      requires width > 0 && height > 0
      modifies this`lastMousePosition, this`hasLastMousePosition, this`player, this`invalid
      ensures lastMousePosition == MouseCoord(xpos, ypos, width, height)
      ensures !panBound ==> hasLastMousePosition == old(hasLastMousePosition) && player == old(player) && invalid == old(invalid)
      ensures panBound ==>
        hasLastMousePosition && invalid &&
        player == Panned(lib, constants, old(player),
                         if old(hasLastMousePosition) then Sub2(MouseCoord(xpos, ypos, width, height), old(lastMousePosition)) else Zero2)
    {
      var pos := MouseCoord(xpos, ypos, width, height);
      if panBound {
        var delta := Sub2(pos, lastMousePosition);
        if !hasLastMousePosition {
          hasLastMousePosition := true;
          delta := Zero2;
        }
        PanView(lib, pos, delta);
      }
      lastMousePosition := pos;
    }

    // -------------------------------------------------------------------------
    // Scene loading

    /**
     * The portal half of `LoadScene` on the visual scene's `nodes` under the up-axis correction
     * `model`: collect the link tables (`CollectPortals`), then pair them (`LinkPortals`).
     */
    method LoadScene(lib: MathLib, model: Mat4, nodes: seq<SceneNode>)
      returns (fault: Option<LoadError>, ghost order: seq<int>, ghost skipped: seq<int>)
      modifies this`portals, this`warnings
      ensures Collected(lib, model, nodes).Failure? ==>
        fault == Some(Collected(lib, model, nodes).error) && portals == old(portals) && warnings == old(warnings)
      ensures Collected(lib, model, nodes).Success? ==>
        var t := Collected(lib, model, nodes).value;
        (fault.None? <==> AllPair(lib, t)) &&
        (fault.Some? ==> exists id :: id in Linked(t) && fault.value.BadGeometry? &&
                                      PairPortal(lib, t.quads[id], t.quads[t.link[id]]) == Failure(fault.value.fault)) &&
        (fault.None? ==> Linking(lib, t, old(portals), portals, order, old(warnings), warnings, skipped))
    {
      var collected := CollectPortals(lib, model, nodes);
      if collected.Failure? {
        return Some(collected.error), [], [];
      }
      var broken;
      broken, order, skipped := LinkPortals(lib, collected.value);
      fault := if broken.Some? then Some(BadGeometry(broken.value)) else None;
    }

    /**
     * Lines 294-307 of `LoadScene`: visit the collected indices in map order (`order` and
     * `skipped`, ghost, record the order) with `LinkOne`; a pairing whose geometry is degenerate
     * stops the load.
     */
    method LinkPortals(lib: MathLib, t: LinkTables) returns (fault: Option<Fault>, ghost order: seq<int>, ghost skipped: seq<int>)
      requires t.WellFormed()
      modifies this`portals, this`warnings
      ensures fault.None? <==> AllPair(lib, t)
      ensures fault.Some? ==> exists id :: id in Linked(t) && PairPortal(lib, t.quads[id], t.quads[t.link[id]]) == Failure(fault.value)
      ensures fault.None? ==> Linking(lib, t, old(portals), portals, order, old(warnings), warnings, skipped)
    {
      order, skipped := [], [];
      var remaining := t.quads.Keys;
      ghost var done: set<int> := {};
      assert portals[|portals|..] == [];
      while remaining != {}
        invariant remaining + done == t.quads.Keys && remaining !! done
        invariant LinkInvariant(lib, t, done, old(portals), portals, order, old(warnings), warnings, skipped)
        invariant forall id :: id in done && id in Linked(t) ==> PairPortal(lib, t.quads[id], t.quads[t.link[id]]).Success?
        decreases remaining
      {
        NonEmptyHasMember(remaining);
        var id :| id in remaining;
        ghost var portals0, warnings0 := portals, warnings;
        fault := LinkOne(lib, t, id);
        if fault.Some? {
          assert id in Linked(t) && PairPortal(lib, t.quads[id], t.quads[t.link[id]]) == Failure(fault.value);
          return;
        }
        if id in Linked(t) {
          LinkStepLinked(lib, t, done, old(portals), portals0, order, old(warnings), warnings, skipped, id);
          order := order + [id];
        } else {
          LinkStepUnlinked(lib, t, done, old(portals), portals, order, old(warnings), warnings0, skipped, id);
          skipped := skipped + [id];
        }
        remaining := remaining - {id};
        done := done + {id};
      }
      LinkInvariantDone(lib, t, old(portals), portals, order, old(warnings), warnings, skipped);
      fault := None;
    }

    /**
     * One visit of the linking loop: turn the exit quad half a turn about its up axis and pair
     * portal `id` with it, or warn that its exit is missing.
     */
    method LinkOne(lib: MathLib, t: LinkTables, id: int) returns (fault: Option<Fault>)
      requires t.WellFormed() && id in t.quads
      modifies this`portals, this`warnings
      ensures id in Linked(t) ==>
        warnings == old(warnings) &&
        (fault.None? <==> PairPortal(lib, t.quads[id], t.quads[t.link[id]]).Success?) &&
        (fault.Some? ==> PairPortal(lib, t.quads[id], t.quads[t.link[id]]) == Failure(fault.value)) &&
        (fault.None? ==> portals == old(portals) + [PairPortal(lib, t.quads[id], t.quads[t.link[id]]).value])
      ensures id in Unlinked(t) ==>
        fault.None? && portals == old(portals) && warnings == old(warnings) + [(id, t.link[id])]
    {
      var quad := t.quads[id];
      var exitId := t.link[id];
      if exitId in t.quads {
        var exit := t.quads[exitId];
        var up := Cross3D(exit.normal, exit.planeV);
        exit := Apply(exit, lib.rotate(Pi, up));
        var transforms := PortalTransform(lib, quad, exit);
        if transforms.Failure? {
          return Some(transforms.error);
        }
        portals := portals + [Portal(quad, transforms.value.ba, transforms.value.az)];
      } else {
        warnings := warnings + [(id, exitId)];
      }
      fault := None;
    }

    // -------------------------------------------------------------------------
    // Rendering

    /** The state `Draw` hands to the portal scene: depth testing on, the scene program, no glow. */
    function DrawStart(s: GLState): GLState {
      s.(depthTest := true, program := SceneProgram, glow := 0.0)
    }

    /**
     * `Draw`: depth testing on, the scene program with no glow, then the portal scene from the
     * identity camera with one level of recursion; the picture is valid afterwards. The frame
     * is the level-0 draws (the scene painted once, unclipped) followed by one pass per
     * portal, and the scene is painted `|portals|` times through the portals.
     */
    method Draw() returns (ghost passes: seq<int>)
      requires !gl.state.clip && !gl.state.cull
      modifies this`invalid, gl
      ensures !invalid && Restored(gl.state)
      ensures DrawnSince(old(gl.trace), gl.trace, 0, 1, constants.debug)
      ensures LevelThenPasses(gl.trace, |old(gl.trace)|, DrawStart(old(gl.state)), 0, constants.debug, passes, |portals|)
      ensures SceneDrawsAt(gl.trace[|old(gl.trace)|..], 1) == |portals|
    {
      gl.Enable(DepthTest);
      gl.UseProgram(FillProgram);
      gl.UseProgram(SceneProgram);
      gl.SetGlow(0.0);
      passes := DrawPortalScene(Identity, 0, 1);
      invalid := false;
    }

    /**
     * `DrawPortalScene`: at depth 0 draw the scene where the stencil holds `stencilLevel`
     * (`DrawLeaf`); otherwise draw this level (`DrawLevel`), then for each portal raise its area
     * to the next level, recurse through it with the camera moved by the portal's transform,
     * and step the area back down (`DrawThroughPortal`). Every draw is well-behaved in levels
     * `stencilLevel .. stencilLevel + depth`, the scene is drawn `|portals|^depth` times at the
     * innermost level, and clipping, culling, glow and the stencil test are off afterwards.
     */
    method DrawPortalScene(mv: Mat4, stencilLevel: nat, depth: nat) returns (ghost passes: seq<int>)
      requires Ready(gl.state)
      modifies gl
      ensures Restored(gl.state)
      ensures DrawnSince(old(gl.trace), gl.trace, stencilLevel, stencilLevel + depth, constants.debug)
      ensures depth == 0 ==> |gl.trace| == |old(gl.trace)| + 1
      ensures depth > 0 ==> LevelThenPasses(gl.trace, |old(gl.trace)|, old(gl.state), stencilLevel, constants.debug, passes, |portals|)
      ensures SceneDrawsAt(gl.trace[|old(gl.trace)|..], stencilLevel + depth) == Pow(|portals|, depth)
      decreases depth, 1
    {
      if depth == 0 {
        DrawLeaf(stencilLevel);
        assert gl.trace[|old(gl.trace)|..] == [gl.trace[|old(gl.trace)|]];
        passes := [];
      } else {
        passes := DrawRecursive(mv, stencilLevel, depth);
      }
    }

    /**
     * The `depth > 0` case of `DrawPortalScene`: this level's own draws, then one pass per
     * portal in list order, then the stencil test off.
     */
    method DrawRecursive(mv: Mat4, stencilLevel: nat, depth: nat) returns (ghost passes: seq<int>)
      requires Ready(gl.state) && depth > 0
      modifies gl
      ensures Restored(gl.state)
      ensures DrawnSince(old(gl.trace), gl.trace, stencilLevel, stencilLevel + depth, constants.debug)
      ensures LevelThenPasses(gl.trace, |old(gl.trace)|, old(gl.state), stencilLevel, constants.debug, passes, |portals|)
      ensures SceneDrawsAt(gl.trace[|old(gl.trace)|..], stencilLevel + depth) == Pow(|portals|, depth)
      decreases depth, 0
    {
      DrawLevel(stencilLevel);
      LevelStart(old(gl.trace), gl.trace, old(gl.state), stencilLevel, depth, constants.debug);
      passes := [|gl.trace|];
      for i := 0 to |portals|
        invariant AtLevel(gl.state, stencilLevel)
        invariant DrawnSince(old(gl.trace), gl.trace, stencilLevel, stencilLevel + depth, constants.debug)
        invariant LevelThenPasses(gl.trace, |old(gl.trace)|, old(gl.state), stencilLevel, constants.debug, passes, i)
        invariant SceneDrawsAt(gl.trace[|old(gl.trace)|..], stencilLevel + depth) == i * Pow(|portals|, depth - 1)
      {
        ghost var t0 := gl.trace;
        DrawThroughPortal(mv, i, stencilLevel, depth - 1);
        LoopStep(old(gl.trace), t0, gl.trace, old(gl.state), stencilLevel, depth, constants.debug, passes, i,
                 Pow(|portals|, depth - 1));
        passes := passes + [|gl.trace|];
      }
      gl.Disable(StencilTest);
    }

    /**
     * The bottom of the recursion: the scene, in colour and writing depth, where the stencil
     * holds `stencilLevel`, clipped by the portal plane when seen through a portal (above level 0).
     */
    method DrawLeaf(stencilLevel: nat)
      requires Ready(gl.state)
      modifies gl
      ensures gl.state == old(gl.state).(stencilTest := false, stencilRef := stencilLevel, colorWrite := true,
                                         depthMask := true, stencilOp := Keep, clip := false)
      ensures gl.trace == old(gl.trace) +
        [DrawCall(SceneModel, false, old(gl.state).(stencilTest := true, stencilRef := stencilLevel, colorWrite := true,
                                                    depthMask := true, stencilOp := Keep, clip := stencilLevel > 0))]
      ensures DrawnSince(old(gl.trace), gl.trace, stencilLevel, stencilLevel, constants.debug)
    {
      if stencilLevel > 0 {
        gl.Enable(ClipDistance0);
      }
      gl.StencilEnable();
      gl.Mask(stencilLevel);
      gl.DrawElements(SceneModel, false);
      gl.Disable(StencilTest);
      gl.Disable(ClipDistance0);
    }

    /**
     * One pass of the portal loop at `stencilLevel`: raise portal `i`'s area and clear its
     * depth, draw the scene through it to `depth` more levels with the camera moved by the
     * portal's transform, then step the area back down.
     */
    method DrawThroughPortal(mv: Mat4, i: nat, stencilLevel: nat, depth: nat)
      requires i < |portals| && AtLevel(gl.state, stencilLevel)
      modifies gl
      ensures AtLevel(gl.state, stencilLevel)
      ensures DrawnSince(old(gl.trace), gl.trace, stencilLevel, stencilLevel + 1 + depth, constants.debug)
      ensures PortalPass(gl.trace, |old(gl.trace)|, |gl.trace|, i, stencilLevel)
      ensures SceneDrawsAt(gl.trace[|old(gl.trace)|..], stencilLevel + 1 + depth) == Pow(|portals|, depth)
      decreases depth, 2
    {
      RaisePortal(i, stencilLevel);
      ghost var t1 := gl.trace;
      ghost var _ := DrawPortalScene(Mul(mv, portals[i].transform), stencilLevel + 1, depth);
      ghost var t2 := gl.trace;
      ReturnToLevel(stencilLevel);
      PassAssembled(old(gl.trace), t1, t2, gl.trace, i, stencilLevel, depth, constants.debug);
    }

    /**
     * The first half of a non-leaf level: the scene and the portals into the depth buffer, the
     * portal areas raised one stencil level, the scene in colour (clipped above level 0), the
     * debug outline with glow, the raised areas stepped back down, ready at `stencilLevel`.
     */
    method DrawLevel(stencilLevel: nat)
      requires Ready(gl.state)
      modifies gl
      ensures AtLevel(gl.state, stencilLevel)
      ensures gl.trace == old(gl.trace) + LevelDraws(old(gl.state), stencilLevel, constants.debug)
      ensures DrawnSince(old(gl.trace), gl.trace, stencilLevel, stencilLevel + 1, constants.debug)
    {
      MarkPortals(stencilLevel);
      DrawScene(stencilLevel);
      ReturnToLevel(stencilLevel);
    }

    /**
     * Lines 400-411 of the level: the scene into the depth buffer only, the portals raising the
     * stencil one level where they are visible (culled), the debug outline, colour back on.
     */
    method MarkPortals(stencilLevel: nat)
      requires Ready(gl.state)
      modifies gl
      ensures gl.state == Marked(old(gl.state), stencilLevel)
      ensures gl.trace == old(gl.trace) + MarkingDraws(old(gl.state), stencilLevel, constants.debug)
      ensures DrawnSince(old(gl.trace), gl.trace, stencilLevel, stencilLevel + 1, constants.debug)
    {
      gl.StencilEnable();
      gl.Mask(stencilLevel);
      gl.ColorWrite(false);
      gl.DrawElements(SceneModel, false);
      gl.DepthFunction(DepthLE);
      gl.StencilOperation(Increment);
      gl.Enable(CullFace);
      gl.DrawElements(PortalModel, false);
      if constants.debug {
        gl.DrawElements(PortalModel, true);
      }
      gl.Disable(CullFace);
      gl.ColorWrite(true);
      gl.StencilOperation(Keep);
    }

    /**
     * Lines 413-425 of the level: the scene in colour at this level (clipped above level 0),
     * then in debug mode the glowing portal outline on the raised areas; glow and clipping off.
     */
    method DrawScene(stencilLevel: nat)
      requires Ready(gl.state) && gl.state.stencilTest && gl.state.stencilRef == stencilLevel
      requires gl.state.colorWrite && gl.state.stencilOp == Keep
      modifies gl
      ensures gl.state == old(gl.state).(stencilRef := if constants.debug then stencilLevel + 1 else stencilLevel)
      ensures gl.trace == old(gl.trace) + ColourDraws(old(gl.state), stencilLevel, constants.debug)
      ensures DrawnSince(old(gl.trace), gl.trace, stencilLevel, stencilLevel + 1, constants.debug)
    {
      if stencilLevel > 0 {
        gl.Enable(ClipDistance0);
      }
      gl.DrawElements(SceneModel, false);
      if constants.debug {
        gl.SetGlow(1.0);
        gl.Mask(stencilLevel + 1);
        gl.DrawElements(PortalModel, true);
        gl.SetGlow(0.0);
      }
      gl.Disable(ClipDistance0);
    }

    /**
     * One portal's preparation in the loop of `DrawPortalScene`: raise the stencil over portal
     * `i`'s quad (culled, no colour), clear the raised area's depth with the fill quad, and get
     * ready again at `stencilLevel`.
     */
    method RaisePortal(i: nat, stencilLevel: nat)
      requires AtLevel(gl.state, stencilLevel)
      modifies gl
      ensures AtLevel(gl.state, stencilLevel)
      ensures gl.trace == old(gl.trace) +
        [DrawCall(PortalGeometry(i), false, old(gl.state).(colorWrite := false, stencilOp := Increment, cull := true)),
         DrawCall(FillGeometry, false, old(gl.state).(program := FillProgram, colorWrite := false, depthFunc := DepthAlways,
                                                      stencilRef := stencilLevel + 1))]
      ensures DrawnSince(old(gl.trace), gl.trace, stencilLevel, stencilLevel + 1, constants.debug)
    {
      gl.ColorWrite(false);
      gl.StencilOperation(Increment);
      gl.Enable(CullFace);
      gl.DrawElements(PortalGeometry(i), false);
      gl.Disable(CullFace);
      gl.ColorWrite(true);
      gl.StencilOperation(Keep);
      gl.UseProgram(FillProgram);
      gl.ColorWrite(false);
      gl.DepthFunction(DepthAlways);
      gl.Mask(stencilLevel + 1);
      gl.DrawElements(FillGeometry, false);
      EnterLevel(stencilLevel);
    }

    /**
     * `StepDown(level + 1)` followed by `EnterLevel(level)`: the raised areas go back down to
     * `level` and the context is ready to draw there again.
     */
    method ReturnToLevel(stencilLevel: nat)
      requires Ready(gl.state)
      modifies gl
      ensures AtLevel(gl.state, stencilLevel)
      ensures gl.trace == old(gl.trace) + [StepDownDraw(old(gl.state), stencilLevel + 1)]
      ensures DrawnSince(old(gl.trace), gl.trace, stencilLevel + 1, stencilLevel + 1, constants.debug)
    {
      StepDown(stencilLevel + 1);
      EnterLevel(stencilLevel);
    }

    /** `UseProgram(scene)` then `Stencil.Enable().Depth().DepthLE().Mask(level)`. */
    method EnterLevel(stencilLevel: nat)
      modifies gl
      ensures gl.state == old(gl.state).(program := SceneProgram, stencilTest := true, colorWrite := true,
                                         depthMask := true, stencilOp := Keep, depthTest := true,
                                         depthFunc := DepthLE, stencilRef := stencilLevel)
      ensures gl.trace == old(gl.trace)
    {
      gl.UseProgram(SceneProgram);
      gl.StencilEnable();
      gl.Enable(DepthTest);
      gl.DepthFunction(DepthLE);
      gl.Mask(stencilLevel);
    }

    /**
     * `StepDown(level)`: with the fill program, no depth test, no depth writes and no colour,
     * decrement the stencil where it holds `level`, returning a portal's area to the level below.
     */
    method StepDown(stencilLevel: int)
      modifies gl
      ensures gl.state == old(gl.state).(program := FillProgram, stencilTest := false, depthTest := false, depthMask := false,
                                         colorWrite := false, stencilRef := stencilLevel, stencilOp := Decrement)
      ensures gl.trace == old(gl.trace) + [StepDownDraw(old(gl.state), stencilLevel)]
    {
      gl.UseProgram(FillProgram);
      gl.StencilEnable();
      gl.Disable(DepthTest);
      gl.DepthWrite(false);
      gl.ColorWrite(false);
      gl.Mask(stencilLevel);
      gl.StencilOperation(Decrement);
      gl.DrawElements(FillGeometry, false);
      gl.Disable(StencilTest);
    }
  }
}
