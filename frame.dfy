/**
 * The per-frame pass sequence of `Game::Draw` as an abstract pipeline-state
 * machine. Each Direct3D context call becomes an `Op`; `Apply` gives its effect
 * on the few pieces of state the passes depend on (viewport, render target,
 * depth target, rasterizer state, pixel shader). `Staged` checks that every
 * shadow-caster draw runs in the shadow-map state and every lit draw in the
 * window state, whatever state the previous frame left behind.
 */
module Frames {
  import opened Math3D
  import Lights

  datatype RenderTarget = NoRenderTarget | BackBuffer
  datatype DepthTarget = WindowDepth | ShadowDepth
  datatype RasterizerState = DefaultRasterizer | ShadowRasterizer

  /** A D3D11_VIEWPORT at the origin with MinDepth 0. */
  datatype Viewport = Viewport(width: real, height: real, maxDepth: real)

  datatype Pipeline = Pipeline(
    viewport: Viewport,
    renderTarget: RenderTarget,
    depthTarget: DepthTarget,
    rasterizer: RasterizerState,
    pixelShaderBound: bool)

  datatype Op =
    | ClearBackBuffer
    | ClearDepth(target: DepthTarget)
    | SetRenderTargets(rt: RenderTarget, depth: DepthTarget)
    | UnbindPixelShader
    | SetViewport(vp: Viewport)
    | SetRasterizer(state: RasterizerState)
      /** shadowVS->SetShader() and its "view" and "projection" matrices. */
    | SetShadowMatrices(view: Matrix, projection: Matrix)
      /** The "world" matrix, CopyAllBufferData and Entity::DrawForLight for one entity. */
    | DrawShadowCaster(entity: nat, world: Matrix)
      /** BindMaterialShaders, the shadow map, light matrices, ambient, light blob and count, then Entity::Draw. */
    | DrawLit(entity: nat, camera: nat, lightView: Matrix, lightProjection: Matrix, lightBytes: nat, lightCount: nat)
    | DrawSky(camera: nat)
    | DrawOverlay
    | Present(vsync: bool)
    | UnbindShaderResources(count: nat)

  /** The effect of one op on the pipeline state. */
  function Apply(p: Pipeline, op: Op): Pipeline {
    match op
    case SetRenderTargets(rt, depth) => p.(renderTarget := rt, depthTarget := depth)
    case UnbindPixelShader => p.(pixelShaderBound := false)
    case SetViewport(vp) => p.(viewport := vp)
    case SetRasterizer(state) => p.(rasterizer := state)
    case DrawLit(_, _, _, _, _, _) => p.(pixelShaderBound := true)
      // Present is taken to be a flip-model Present, which unbinds the render target.
    case Present(_) => p.(renderTarget := NoRenderTarget)
    case _ => p
  }

  function Run(p: Pipeline, ops: seq<Op>): Pipeline
    decreases |ops|
  {
    if |ops| == 0 then p else Run(Apply(p, ops[0]), ops[1..])
  }

  /** Rendering depth only, into the shadow map, with the biased rasterizer. */
  predicate ShadowPassState(p: Pipeline, shadowMapResolution: nat) {
    && p.viewport == Viewport(shadowMapResolution as real, shadowMapResolution as real, 1.0)
    && p.renderTarget == NoRenderTarget
    && p.depthTarget == ShadowDepth
    && p.rasterizer == ShadowRasterizer
    && !p.pixelShaderBound
  }

  /** Rendering to the window's back buffer and depth buffer with the default rasterizer. */
  predicate WindowPassState(p: Pipeline, width: int, height: int) {
    && p.viewport == Viewport(width as real, height as real, 1.0)
    && p.renderTarget == BackBuffer
    && p.depthTarget == WindowDepth
    && p.rasterizer == DefaultRasterizer
  }

  /** An op is well staged when it is a draw of the right pass in the right state, or not a draw of either pass. */
  predicate OpStaged(p: Pipeline, op: Op, shadowMapResolution: nat, width: int, height: int) {
    && (op.DrawShadowCaster? ==> ShadowPassState(p, shadowMapResolution))
    && (op.DrawLit? ==> WindowPassState(p, width, height))
  }

  /** Every op of the sequence, run from p, is well staged. */
  predicate Staged(p: Pipeline, ops: seq<Op>, shadowMapResolution: nat, width: int, height: int)
    decreases |ops|
  {
    |ops| == 0 || (OpStaged(p, ops[0], shadowMapResolution, width, height)
                   && Staged(Apply(p, ops[0]), ops[1..], shadowMapResolution, width, height))
  }

  lemma {:induction false} RunAppend(p: Pipeline, a: seq<Op>, b: seq<Op>)
    ensures Run(p, a + b) == Run(Run(p, a), b)
    decreases |a|
  {
    if |a| > 0 {
      assert (a + b)[1..] == a[1..] + b;
      RunAppend(Apply(p, a[0]), a[1..], b);
    } else {
      assert a + b == b;
    }
  }

  /** A sequence is well staged exactly when its two halves are, the second from where the first ends. */
  lemma {:induction false} StagedAppend(p: Pipeline, a: seq<Op>, b: seq<Op>, res: nat, w: int, h: int)
    ensures Staged(p, a + b, res, w, h) <==> Staged(p, a, res, w, h) && Staged(Run(p, a), b, res, w, h)
    decreases |a|
  {
    if |a| > 0 {
      assert (a + b)[0] == a[0];
      assert (a + b)[1..] == a[1..] + b;
      StagedAppend(Apply(p, a[0]), a[1..], b, res, w, h);
    } else {
      assert a + b == b;
    }
  }

  // ---------------------------------------------------------------------------
  // The ops one call of Game::Draw issues, phase by phase

  /** Clear the back buffer and the window depth buffer. */
  const FrameStart: seq<Op> := [ClearBackBuffer, ClearDepth(WindowDepth)]

  /** Clear the shadow map, bind it alone, drop the pixel shader, size the viewport, load the light matrices, bias the rasterizer. */
  function ShadowSetup(shadowMapResolution: nat, lightView: Matrix, lightProjection: Matrix): seq<Op> {
    [ClearDepth(ShadowDepth),
     SetRenderTargets(NoRenderTarget, ShadowDepth),
     UnbindPixelShader,
     SetViewport(Viewport(shadowMapResolution as real, shadowMapResolution as real, 1.0)),
     SetShadowMatrices(lightView, lightProjection),
     SetRasterizer(ShadowRasterizer)]
  }

  /** One shadow-caster draw per entity, in entity order, each with that entity's world matrix. */
  function ShadowDraws(worlds: seq<Matrix>): (ops: seq<Op>)
    ensures |ops| == |worlds|
  {
    seq(|worlds|, k requires 0 <= k < |worlds| => DrawShadowCaster(k, worlds[k]))
  }

  /** Back to the window: its viewport (the maximum depth is kept from the shadow viewport), back buffer, default rasterizer. */
  function Restore(width: int, height: int): seq<Op> {
    [SetViewport(Viewport(width as real, height as real, 1.0)),
     SetRenderTargets(BackBuffer, WindowDepth),
     SetRasterizer(DefaultRasterizer)]
  }

  /** One lit draw per entity, in entity order, all from the same camera. */
  function LitDraws(entityCount: nat, camera: nat, lightView: Matrix, lightProjection: Matrix, lightCount: nat): (ops: seq<Op>)
    ensures |ops| == entityCount
  {
    seq(entityCount, k requires 0 <= k < entityCount =>
      DrawLit(k, camera, lightView, lightProjection, Lights.LightBlobBytes(lightCount), lightCount))
  }

  lemma ShadowDrawsSnoc(worlds: seq<Matrix>, m: Matrix)
    ensures ShadowDraws(worlds + [m]) == ShadowDraws(worlds) + [DrawShadowCaster(|worlds|, m)]
  {
    var a, b := ShadowDraws(worlds + [m]), ShadowDraws(worlds) + [DrawShadowCaster(|worlds|, m)];
    forall k | 0 <= k < |a| ensures a[k] == b[k] { }
  }

  lemma LitDrawsSnoc(n: nat, camera: nat, lightView: Matrix, lightProjection: Matrix, lightCount: nat)
    ensures LitDraws(n + 1, camera, lightView, lightProjection, lightCount)
            == LitDraws(n, camera, lightView, lightProjection, lightCount)
               + [DrawLit(n, camera, lightView, lightProjection, Lights.LightBlobBytes(lightCount), lightCount)]
  {
    var a, front := LitDraws(n + 1, camera, lightView, lightProjection, lightCount), LitDraws(n, camera, lightView, lightProjection, lightCount);
    var b := front + [DrawLit(n, camera, lightView, lightProjection, Lights.LightBlobBytes(lightCount), lightCount)];
    forall k | 0 <= k < |a| ensures a[k] == b[k] {
      if k < n {
        assert b[k] == front[k];
      }
    }
  }

  /** Sky, overlay, present, then rebind the back buffer and unbind 128 shader resources. */
  function FrameEnd(camera: nat, vsync: bool): seq<Op> {
    [DrawSky(camera), DrawOverlay, Present(vsync),
     SetRenderTargets(BackBuffer, WindowDepth), UnbindShaderResources(128)]
  }

  /** Everything `Game::Draw` needs to know about the scene. */
  datatype FrameInputs = FrameInputs(
    shadowMapResolution: nat, width: int, height: int,
    lightView: Matrix, lightProjection: Matrix,
    worlds: seq<Matrix>, camera: nat, cameraCount: nat,
    lightCount: nat, vsync: bool)

  /** The whole frame. The lit draws happen only when the camera index is in range. */
  function FrameOps(f: FrameInputs): seq<Op> {
    FrameStart
    + ShadowSetup(f.shadowMapResolution, f.lightView, f.lightProjection)
    + ShadowDraws(f.worlds)
    + Restore(f.width, f.height)
    + (if f.camera < f.cameraCount then LitDraws(|f.worlds|, f.camera, f.lightView, f.lightProjection, f.lightCount) else [])
    + FrameEnd(f.camera, f.vsync)
  }

  /** A run of shadow-caster draws in the shadow-map state is well staged and leaves the state as it was. */
  lemma {:induction false} ShadowOnlyKeepsState(p: Pipeline, ops: seq<Op>, res: nat, w: int, h: int)
    requires ShadowPassState(p, res)
    requires forall k :: 0 <= k < |ops| ==> ops[k].DrawShadowCaster?
    ensures Staged(p, ops, res, w, h) && Run(p, ops) == p
    decreases |ops|
  {
    if |ops| > 0 {
      assert Apply(p, ops[0]) == p;
      ShadowOnlyKeepsState(p, ops[1..], res, w, h);
    }
  }

  /** A run of lit draws in the window state is well staged and stays in the window state. */
  lemma {:induction false} LitOnlyKeepsWindow(p: Pipeline, ops: seq<Op>, res: nat, w: int, h: int)
    requires WindowPassState(p, w, h)
    requires forall k :: 0 <= k < |ops| ==> ops[k].DrawLit?
    ensures Staged(p, ops, res, w, h) && WindowPassState(Run(p, ops), w, h)
    decreases |ops|
  {
    if |ops| > 0 {
      assert WindowPassState(Apply(p, ops[0]), w, h);
      LitOnlyKeepsWindow(Apply(p, ops[0]), ops[1..], res, w, h);
    }
  }

  lemma ShadowDrawsKeepState(p: Pipeline, worlds: seq<Matrix>, res: nat, w: int, h: int)
    requires ShadowPassState(p, res)
    ensures Staged(p, ShadowDraws(worlds), res, w, h) && Run(p, ShadowDraws(worlds)) == p
  {
    ShadowOnlyKeepsState(p, ShadowDraws(worlds), res, w, h);
  }

  lemma LitDrawsStaged(p: Pipeline, n: nat, camera: nat, lv: Matrix, lp: Matrix, lightCount: nat, res: nat, w: int, h: int)
    requires WindowPassState(p, w, h)
    ensures Staged(p, LitDraws(n, camera, lv, lp, lightCount), res, w, h)
    ensures WindowPassState(Run(p, LitDraws(n, camera, lv, lp, lightCount)), w, h)
  {
    LitOnlyKeepsWindow(p, LitDraws(n, camera, lv, lp, lightCount), res, w, h);
  }

  /** The shadow setup is well staged and ends in the shadow-map state, from any state. */
  lemma SetupEntersShadowPass(p: Pipeline, res: nat, lv: Matrix, lp: Matrix, w: int, h: int)
    ensures Staged(p, ShadowSetup(res, lv, lp), res, w, h)
    ensures ShadowPassState(Run(p, ShadowSetup(res, lv, lp)), res)
  {
    var ops := ShadowSetup(res, lv, lp);
    var p1 := Apply(p, ops[0]);
    var p2 := Apply(p1, ops[1]);
    var p3 := Apply(p2, ops[2]);
    var p4 := Apply(p3, ops[3]);
    var p5 := Apply(p4, ops[4]);
    var p6 := Apply(p5, ops[5]);
    assert ShadowPassState(p6, res);
    assert ops[5..][1..] == [];
    assert Run(p5, ops[5..]) == p6 && Staged(p5, ops[5..], res, w, h);
    assert ops[4..][1..] == ops[5..];
    assert Run(p4, ops[4..]) == p6 && Staged(p4, ops[4..], res, w, h);
    assert ops[3..][1..] == ops[4..];
    assert Run(p3, ops[3..]) == p6 && Staged(p3, ops[3..], res, w, h);
    assert ops[2..][1..] == ops[3..];
    assert Run(p2, ops[2..]) == p6 && Staged(p2, ops[2..], res, w, h);
    assert ops[1..][1..] == ops[2..];
    assert Run(p1, ops[1..]) == p6 && Staged(p1, ops[1..], res, w, h);
  }

  /** The restore step is well staged and ends in the window state, from any state. */
  lemma RestoreEntersWindowPass(p: Pipeline, res: nat, w: int, h: int)
    ensures Staged(p, Restore(w, h), res, w, h)
    ensures WindowPassState(Run(p, Restore(w, h)), w, h)
    ensures Run(p, Restore(w, h)).pixelShaderBound == p.pixelShaderBound
  {
    var ops := Restore(w, h);
    var p1 := Apply(p, ops[0]);
    var p2 := Apply(p1, ops[1]);
    var p3 := Apply(p2, ops[2]);
    assert ops[2..][1..] == [];
    assert Run(p2, ops[2..]) == p3 && Staged(p2, ops[2..], res, w, h);
    assert ops[1..][1..] == ops[2..];
    assert Run(p1, ops[1..]) == p3 && Staged(p1, ops[1..], res, w, h);
  }

  /** The end of a frame draws no pass geometry and leaves the render target and window depth bound, although Present unbinds the render target. */
  lemma EndRebinds(p: Pipeline, camera: nat, vsync: bool, res: nat, w: int, h: int)
    ensures Staged(p, FrameEnd(camera, vsync), res, w, h)
    ensures Run(p, FrameEnd(camera, vsync)).renderTarget == BackBuffer
    ensures Run(p, FrameEnd(camera, vsync)).depthTarget == WindowDepth
  {
    var ops := FrameEnd(camera, vsync);
    var p3 := Apply(p, ops[2]);
    var p4 := Apply(p3, ops[3]);
    assert ops[4..][1..] == [];
    assert Run(p4, ops[4..]) == p4 && Staged(p4, ops[4..], res, w, h);
    assert ops[3..][1..] == ops[4..];
    assert Run(p3, ops[3..]) == p4 && Staged(p3, ops[3..], res, w, h);
    assert ops[2..][1..] == ops[3..];
    assert Run(p, ops[2..]) == p4 && Staged(p, ops[2..], res, w, h);
    assert ops[1..][1..] == ops[2..];
    assert Run(p, ops[1..]) == p4 && Staged(p, ops[1..], res, w, h);
  }

  /**
   * Whatever state the previous frame left, every shadow-caster draw of a
   * frame runs in the shadow-map state and every lit draw in the window state
   * (the restore step comes between them), and the frame ends with the back
   * buffer and window depth buffer bound again.
   */
  lemma FrameIsStaged(p: Pipeline, f: FrameInputs)
    ensures Staged(p, FrameOps(f), f.shadowMapResolution, f.width, f.height)
    ensures Run(p, FrameOps(f)).renderTarget == BackBuffer && Run(p, FrameOps(f)).depthTarget == WindowDepth
  {
    var res, w, h := f.shadowMapResolution, f.width, f.height;
    var start := FrameStart;
    var setup := ShadowSetup(res, f.lightView, f.lightProjection);
    var shadows := ShadowDraws(f.worlds);
    var restore := Restore(w, h);
    var lit := if f.camera < f.cameraCount then LitDraws(|f.worlds|, f.camera, f.lightView, f.lightProjection, f.lightCount) else [];
    var end := FrameEnd(f.camera, f.vsync);

    var p1 := Run(p, start);
    assert Staged(p, start, res, w, h) && p1 == p;
    var p2 := Run(p1, setup);
    SetupEntersShadowPass(p1, res, f.lightView, f.lightProjection, w, h);
    ShadowDrawsKeepState(p2, f.worlds, res, w, h);
    var p3 := Run(p2, shadows);
    var p4 := Run(p3, restore);
    RestoreEntersWindowPass(p3, res, w, h);
    var p5 := Run(p4, lit);
    if f.camera < f.cameraCount {
      assert lit == LitDraws(|f.worlds|, f.camera, f.lightView, f.lightProjection, f.lightCount);
      LitDrawsStaged(p4, |f.worlds|, f.camera, f.lightView, f.lightProjection, f.lightCount, res, w, h);
    }
    assert Staged(p4, lit, res, w, h);
    EndRebinds(p5, f.camera, f.vsync, res, w, h);

    StagedAppend(p, start, setup, res, w, h);
    RunAppend(p, start, setup);
    StagedAppend(p, start + setup, shadows, res, w, h);
    RunAppend(p, start + setup, shadows);
    StagedAppend(p, start + setup + shadows, restore, res, w, h);
    RunAppend(p, start + setup + shadows, restore);
    StagedAppend(p, start + setup + shadows + restore, lit, res, w, h);
    RunAppend(p, start + setup + shadows + restore, lit);
    StagedAppend(p, start + setup + shadows + restore + lit, end, res, w, h);
    RunAppend(p, start + setup + shadows + restore + lit, end);
  }

  /** Without the restore step, a frame with a lit draw is not staged: the lit pass would render into the shadow map. */
  lemma RestoreIsNeeded(p: Pipeline, f: FrameInputs)
    requires f.camera < f.cameraCount && |f.worlds| > 0
    ensures !Staged(p, FrameStart + ShadowSetup(f.shadowMapResolution, f.lightView, f.lightProjection) + ShadowDraws(f.worlds)
                       + LitDraws(|f.worlds|, f.camera, f.lightView, f.lightProjection, f.lightCount),
                    f.shadowMapResolution, f.width, f.height)
  {
    var res, w, h := f.shadowMapResolution, f.width, f.height;
    var a := FrameStart + ShadowSetup(res, f.lightView, f.lightProjection);
    var shadows := ShadowDraws(f.worlds);
    var lit := LitDraws(|f.worlds|, f.camera, f.lightView, f.lightProjection, f.lightCount);
    var p2 := Run(p, a);
    assert Run(p, FrameStart) == p;
    RunAppend(p, FrameStart, ShadowSetup(res, f.lightView, f.lightProjection));
    SetupEntersShadowPass(p, res, f.lightView, f.lightProjection, w, h);
    ShadowDrawsKeepState(p2, f.worlds, res, w, h);
    RunAppend(p, a, shadows);
    StagedAppend(p, a + shadows, lit, res, w, h);
    assert !OpStaged(p2, lit[0], res, w, h);
  }
}
