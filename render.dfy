/**
 * The slice of OpenGL state that the portal renderer of app/main.go drives, and a context
 * object that records every draw together with the state it was issued under.
 */
module Render {
  datatype Program = NoProgram | FillProgram | SceneProgram

  datatype StencilOp = Keep | Increment | Decrement

  datatype DepthFunc = DepthLess | DepthLE | DepthAlways

  /** The switchable capabilities the renderer uses. */
  datatype Capability = StencilTest | DepthTest | ClipDistance0 | CullFace

  /**
   * Stencil test and reference level, colour writes, the stencil operation on pass, depth test,
   * comparison and writes, the user clip plane, face culling, the scene program's `glow`
   * uniform and the program in use.
   */
  datatype GLState = GLState(stencilTest: bool, stencilRef: int, colorWrite: bool, stencilOp: StencilOp,
                             depthTest: bool, depthFunc: DepthFunc, depthMask: bool, clip: bool, cull: bool,
                             glow: real, program: Program)

  /** A fresh context, with OpenGL's defaults. */
  const InitialState := GLState(false, 0, true, Keep, false, DepthLess, true, false, false, 0.0, NoProgram)

  /** What a draw call draws: the scene model, the portal model, one portal's quad, or the fill quad. */
  datatype Target = SceneModel | PortalModel | PortalGeometry(index: nat) | FillGeometry

  /** A draw call with the state it was issued under; `lines` selects the line elements. */
  datatype DrawCall = DrawCall(target: Target, lines: bool, state: GLState)

  function Switch(s: GLState, cap: Capability, on: bool): (r: GLState) {
    match cap
    case StencilTest => s.(stencilTest := on)
    case DepthTest => s.(depthTest := on)
    case ClipDistance0 => s.(clip := on)
    case CullFace => s.(cull := on)
  }

  /** The state a portal recursion may start from: no clipping, no culling, no glow, the scene program, depth testing on. */
  predicate Ready(s: GLState) {
    !s.clip && !s.cull && s.glow == 0.0 && s.depthTest && s.program == SceneProgram
  }

  /** `Ready`, with the stencil test off as well: the state a portal recursion leaves behind. */
  predicate Restored(s: GLState) {
    Ready(s) && !s.stencilTest
  }

  /**
   * The rendering discipline of one draw made by a recursion over stencil levels `lo .. hi`:
   * stencil-masked at a level in range, clipped as `Clipping` says, stencil and colour as
   * `Stencilling` says, glowing only for the debug outline of the portals, the fill quad
   * exactly with the fill program, and everything except the fill quad depth-tested.
   */
  predicate WellDrawn(d: DrawCall, lo: int, hi: int, debug: bool) {
    d.state.stencilTest && lo <= d.state.stencilRef <= hi &&
    Clipping(d) && Stencilling(d, hi) &&
    (d.state.glow != 0.0 ==> debug && d.target == PortalModel && d.lines) &&
    (d.target == FillGeometry <==> d.state.program == FillProgram) &&
    (d.target != FillGeometry ==> d.state.depthTest)
  }

  /**
   * The portal plane clips exactly what is seen through a portal: the scene drawn in colour is
   * clipped if and only if its stencil level is above 0; the glowing outline of a level, drawn
   * one stencil level up, is clipped if and only if that level is above 0; nothing else is
   * clipped (so every draw a top-level recursion makes at its own level is unclipped).
   */
  predicate Clipping(d: DrawCall) {
    (d.target == SceneModel && d.state.colorWrite ==> (d.state.clip <==> d.state.stencilRef > 0)) &&
    (d.state.glow != 0.0 ==> (d.state.clip <==> d.state.stencilRef > 1)) &&
    (d.state.clip ==> (d.target == SceneModel && d.state.colorWrite) || d.state.glow != 0.0)
  }

  /**
   * Only portal quads raise the stencil and only the fill quad lowers it, and neither paints;
   * the fill quad either clears the depth of a raised area (stencil kept, depth always written)
   * or steps it down (no depth test or write); the scene drawn at the innermost level `hi` is
   * painted and writes depth.
   */
  predicate Stencilling(d: DrawCall, hi: int) {
    (d.state.stencilOp == Increment ==> d.target == PortalModel || d.target.PortalGeometry?) &&
    (d.state.stencilOp == Decrement ==> d.target == FillGeometry) &&
    (d.state.stencilOp != Keep || d.target == FillGeometry ==> !d.state.colorWrite) &&
    (d.target == FillGeometry ==>
       if d.state.stencilOp == Decrement then !d.state.depthTest && !d.state.depthMask
       else d.state.depthMask && d.state.depthFunc == DepthAlways) &&
    (d.target == SceneModel && d.state.stencilRef == hi ==> d.state.colorWrite && d.state.depthMask)
  }

  /** A draw well drawn in a range of levels is well drawn in any wider one. */
  lemma WellDrawnWiden(d: DrawCall, lo: int, hi: int, lo1: int, hi1: int, debug: bool)
    requires WellDrawn(d, lo1, hi1, debug) && lo <= lo1 && hi1 <= hi
    ensures WellDrawn(d, lo, hi, debug)
  {
  }

  /** Every draw appended between `before` and `after` is well drawn in levels `lo .. hi`. */
  predicate DrawnSince(before: seq<DrawCall>, after: seq<DrawCall>, lo: int, hi: int, debug: bool) {
    before <= after && forall k :: |before| <= k < |after| ==> WellDrawn(after[k], lo, hi, debug)
  }

  /** Two stretches of well-drawn calls make one, over the union of their level ranges. */
  lemma DrawnSinceTrans(a: seq<DrawCall>, b: seq<DrawCall>, c: seq<DrawCall>, lo: int, hi: int,
                        lo1: int, hi1: int, lo2: int, hi2: int, debug: bool)
    requires DrawnSince(a, b, lo1, hi1, debug) && DrawnSince(b, c, lo2, hi2, debug)
    requires lo <= lo1 && lo <= lo2 && hi1 <= hi && hi2 <= hi
    ensures DrawnSince(a, c, lo, hi, debug)
  {
    forall k | |a| <= k < |c|
      ensures WellDrawn(c[k], lo, hi, debug)
    {
      if k < |b| {
        assert c[k] == b[k];
        WellDrawnWiden(c[k], lo, hi, lo1, hi1, debug);
      } else {
        WellDrawnWiden(c[k], lo, hi, lo2, hi2, debug);
      }
    }
  }

  /** One more well-drawn call extends a well-drawn stretch. */
  lemma DrawnSinceAppend(a: seq<DrawCall>, b: seq<DrawCall>, d: DrawCall, lo: int, hi: int, debug: bool)
    requires DrawnSince(a, b, lo, hi, debug) && WellDrawn(d, lo, hi, debug)
    ensures DrawnSince(a, b + [d], lo, hi, debug)
  {
  }

  /** `k` to the power `d`: the number of leaves of a recursion of depth `d` over `k` portals. */
  function Pow(k: nat, d: nat): nat {
    if d == 0 then 1 else k * Pow(k, d - 1)
  }

  /** How many draws of `t` draw the scene model at stencil level `level`. */
  function SceneDrawsAt(t: seq<DrawCall>, level: int): nat {
    if t == [] then 0
    else SceneDrawsAt(t[..|t| - 1], level) + (if t[|t| - 1].target == SceneModel && t[|t| - 1].state.stencilRef == level then 1 else 0)
  }

  /** Counting scene draws distributes over concatenation. */
  lemma {:induction false} SceneDrawsAtAppend(a: seq<DrawCall>, b: seq<DrawCall>, level: int)
    ensures SceneDrawsAt(a + b, level) == SceneDrawsAt(a, level) + SceneDrawsAt(b, level)
  {
    if b != [] {
      assert (a + b)[..|a + b| - 1] == a + b[..|b| - 1];
      SceneDrawsAtAppend(a, b[..|b| - 1], level);
    } else {
      assert a + b == a;
    }
  }

  /** A trace with no scene draw at `level` counts none there. */
  lemma {:induction false} SceneDrawsAtNone(t: seq<DrawCall>, level: int)
    requires forall k :: 0 <= k < |t| && t[k].target == SceneModel ==> t[k].state.stencilRef != level
    ensures SceneDrawsAt(t, level) == 0
  {
    if t != [] {
      SceneDrawsAtNone(t[..|t| - 1], level);
    }
  }

  /** The GL context: its current state and the draws issued so far. */
  class GLContext {
    var state: GLState
    var trace: seq<DrawCall>

    constructor ()
      ensures state == InitialState && trace == []
    {
      state := InitialState;
      trace := [];
    }

    /** `gl.Enable(cap)`, and `Stencil.Depth()` for the depth test. */
    method Enable(cap: Capability)
      modifies this
      ensures state == Switch(old(state), cap, true) && trace == old(trace)
    {
      state := Switch(state, cap, true);
    }

    /** `gl.Disable(cap)`, and `Stencil.Disable()` / `Stencil.NoDepth()`. */
    method Disable(cap: Capability)
      modifies this
      ensures state == Switch(old(state), cap, false) && trace == old(trace)
    {
      state := Switch(state, cap, false);
    }

    /**
     * `Stencil.Enable()`: the stencil test on, starting a fresh stencil pass with colour and
     * depth writes on and the stencil buffer kept.
     */
    method StencilEnable()
      modifies this
      ensures state == old(state).(stencilTest := true, colorWrite := true, depthMask := true, stencilOp := Keep)
      ensures trace == old(trace)
    {
      state := state.(stencilTest := true, colorWrite := true, depthMask := true, stencilOp := Keep);
    }

    /** `Stencil.NoDepthMask()` (`on` false): depth writes on or off. */
    method DepthWrite(on: bool)
      modifies this
      ensures state == old(state).(depthMask := on) && trace == old(trace)
    {
      state := state.(depthMask := on);
    }

    /** `Stencil.Mask(level)`: pass where the stencil buffer holds `level`. */
    method Mask(level: int)
      modifies this
      ensures state == old(state).(stencilRef := level) && trace == old(trace)
    {
      state := state.(stencilRef := level);
    }

    /** `Stencil.Draw()` (`on`) and `Stencil.NoDraw()`: colour writes on or off. */
    method ColorWrite(on: bool)
      modifies this
      ensures state == old(state).(colorWrite := on) && trace == old(trace)
    {
      state := state.(colorWrite := on);
    }

    /** `Stencil.Keep()`, `Stencil.Increment()`, `Stencil.Decrement()`. */
    method StencilOperation(op: StencilOp)
      modifies this
      ensures state == old(state).(stencilOp := op) && trace == old(trace)
    {
      state := state.(stencilOp := op);
    }

    /** `Stencil.DepthLE()`, `Stencil.DepthAlways()`. */
    method DepthFunction(f: DepthFunc)
      modifies this
      ensures state == old(state).(depthFunc := f) && trace == old(trace)
    {
      state := state.(depthFunc := f);
    }

    /** `gl.Uniform1f(glow, g)`. */
    method SetGlow(g: real)
      modifies this
      ensures state == old(state).(glow := g) && trace == old(trace)
    {
      state := state.(glow := g);
    }

    /** `Shaders.UseProgram(p)`. */
    method UseProgram(p: Program)
      modifies this
      ensures state == old(state).(program := p) && trace == old(trace)
    {
      state := state.(program := p);
    }

    /** One draw: recorded with the state in force. */
    method DrawElements(target: Target, lines: bool)
      modifies this
      ensures state == old(state) && trace == old(trace) + [DrawCall(target, lines, old(state))]
    {
      trace := trace + [DrawCall(target, lines, state)];
    }
  }
}
