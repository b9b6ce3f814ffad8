/**
 * Game.cpp: the scene the renderer owns and the bookkeeping it does each frame.
 *
 * The game keeps the lights and their light-space matrices, a grid of entities
 * (one per material and mesh, plus a floor), the nine floats per entity the
 * editing UI works on, the cameras and the index of the active one, and the
 * plot ring buffer. Meshes are loaded from OBJ files, which is outside this
 * model, so the constructor takes them as a parameter; trigonometry, the clock
 * and the window size are parameters too.
 */
module Games {
  import opened Math3D
  import opened Transforms
  import opened Cameras
  import opened Lights
  import opened Meshes
  import opened Materials
  import opened Scene
  import opened Frames

  /** An entity: a shared mesh, a shared material and a transform of its own. */
  datatype Entity = Entity(mesh: Mesh, material: Material, transform: Transform)

  /** The eight lights Initialize pushes: three directional, three point, two spot. */
  const InitialLights: seq<Light> := [
    ZeroLight.(lightType := LightTypeDirectional, direction := Vec3(0.5, 1.0, 0.1), color := Vec3(1.0, 1.0, 0.3), intensity := 150.0),
    ZeroLight.(lightType := LightTypeDirectional, direction := Vec3(-1.0, -0.2, 1.0), color := Vec3(0.0, 0.0, 1.0), intensity := 2.0),
    ZeroLight.(lightType := LightTypeDirectional, direction := Vec3(0.5, -1.0, 0.5), color := Vec3(0.0, 1.0, 1.0), intensity := 1.0),
    ZeroLight.(lightType := LightTypePoint, position := Vec3(1.0, 1.0, 1.0), color := Vec3(1.0, 0.0, 1.0), intensity := 1.0, range := 5.0),
    ZeroLight.(lightType := LightTypePoint, position := Vec3(5.0, 3.0, 10.0), color := Vec3(1.0, 1.0, 1.0), intensity := 2.0, range := 15.0),
    ZeroLight.(lightType := LightTypePoint, position := Vec3(-1.0, -1.0, 1.0), color := Vec3(1.0, 1.0, 0.0), intensity := 1.0, range := 5.0),
    ZeroLight.(lightType := LightTypeSpot, position := Vec3(2.0, 5.0, 0.0), direction := Vec3(0.0, -1.0, 0.0), color := Vec3(1.0, 1.0, 0.0),
               intensity := 3.0, range := 7.0, spotInnerAngle := 20.0, spotOuterAngle := 30.0),
    ZeroLight.(lightType := LightTypeSpot, position := Vec3(2.0, -5.0, 0.0), direction := Vec3(0.0, 1.0, 0.0), color := Vec3(1.0, 1.0, 1.0),
               intensity := 5.0, range := 7.0, spotInnerAngle := 20.0, spotOuterAngle := 30.0)
  ]

  /** The colour tints of the nine materials, in creation order. */
  const MaterialTints: seq<Vec4> := [
    Vec4(1.0, 1.0, 1.0, 1.0), Vec4(1.0, 1.0, 1.0, 1.0), Vec4(1.0, 1.0, 1.0, 1.0),
    Vec4(1.0, 1.0, 1.0, 1.0), Vec4(1.0, 1.0, 1.0, 1.0), Vec4(1.0, 1.0, 1.0, 1.0),
    Vec4(0.2, 1.0, 0.5, 1.0), Vec4(0.8, 1.0, 0.3, 1.0), Vec4(0.8, 1.0, 0.3, 1.0)
  ]

  /** Where the three cameras start. */
  const CameraStarts: seq<Vec3> := [Vec3(0.0, 2.0, -5.0), Vec3(0.0, -2.0, 5.0), Vec3(-5.0, 0.0, -5.0)]

  /** The rotation Update gives entity k at time t: (sin(t + k), cos(t + k), sin(t + k) * cos(t + k)). */
  function Spin(sin: RealFn, cos: RealFn, totalTime: real, k: nat): Vec3 {
    var a := totalTime + k as real;
    Vec3(Eval(sin, a), Eval(cos, a), Eval(sin, a) * Eval(cos, a))
  }

  /** The clock is read on the first frame the plot is shown: a refresh time of 0 means "not started". */
  function Started(p: Plot, now: real): Plot {
    if p.refreshTime == 0.0 then p.(refreshTime := now) else p
  }

  /** A freshly built grid or floor entity: its mesh, material and pose, with the same pose in its data slot. */
  ghost predicate Placed(e: Entity, slot: (Vec3, Vec3, Vec3), mesh: Mesh, material: Material, position: Vec3, scale: Vec3)
    reads e.transform
  {
    && e.mesh == mesh && e.material == material
    && e.transform.position == position && e.transform.rotation == Zero && e.transform.scale == scale
    && slot == (position, Zero, scale)
  }

  /** An entity's data slot holds the position and scale its transform has (the rotation is left to the animation). */
  ghost predicate Mirrors(e: Entity, slot: (Vec3, Vec3, Vec3))
    reads e.transform
  {
    slot.0 == e.transform.position && slot.2 == e.transform.scale
  }

  /** The materials carry the tints MaterialTints lists, in order. */
  ghost predicate TintedAsListed(mats: seq<Material>)
    reads set i | 0 <= i < |mats| :: mats[i]
  {
    |mats| == |MaterialTints| && forall i :: 0 <= i < |mats| ==> mats[i].colorTint == MaterialTints[i]
  }

  /**
   * The entities CreateShaderToEntity lays out: entity GridIndex(i, j) has
   * material i and mesh j and stands at GridPosition(i, j); the floor, from
   * mesh 0 and material 0, comes last. Every data slot holds its entity's pose.
   */
  ghost predicate LaidOut(es: seq<Entity>, data: seq<real>, ms: seq<Mesh>, mats: seq<Material>)
    requires |ms| > 0 && |mats| > 0
    reads set k | 0 <= k < |es| :: es[k].transform
  {
    && |es| == |mats| * |ms| + 1 && |data| == SlotFloats * |es|
    && (forall i, j :: 0 <= i < |mats| && 0 <= j < |ms| ==>
          GridIndex(i, j, |ms|) < |es| - 1
          && Placed(es[GridIndex(i, j, |ms|)], ReadSlot(data, GridIndex(i, j, |ms|)), ms[j], mats[i], GridPosition(i, j, |mats|), One))
    && Placed(es[|es| - 1], ReadSlot(data, |es| - 1), ms[0], mats[0], FloorPosition, FloorScale)
  }

  class Game {
    /** The quaternion rotation every transform uses. */
    const rotateBy: QuatRotate
    const shadowMapResolution: nat
    const lightProjectionSize: real

    var lights: seq<Light>
    var lightViews: seq<Matrix>
    var lightProjections: seq<Matrix>

    var meshes: seq<Mesh>
    var materials: seq<Material>
    var entities: seq<Entity>
    /** Nine floats per entity: position, rotation, scale. */
    var entityData: seq<real>

    var cameras: seq<Camera>
    var cameraIndex: int

    /** The plot's statics: 90 samples, the next slot, the phase and the next sample time. */
    const vals: array<real>
    var valOffset: int
    var phase: real
    var refreshTime: real

    ghost function EntityTransforms(): set<Transform>
      reads this`entities
    {
      set k | 0 <= k < |entities| :: entities[k].transform
    }

    ghost function CameraTransforms(): set<Transform>
      reads this`cameras
    {
      set k | 0 <= k < |cameras| :: cameras[k].transform
    }

    ghost function PlotState(): Plot
      reads this, vals
    {
      Plot(vals[..], valOffset, phase, refreshTime)
    }

    /** Every entity has its own valid transform and nine floats whose position and scale mirror it. */
    ghost predicate EntitiesValid()
      reads this`entities, this`entityData, EntityTransforms()
    {
      && 1 <= |entities| && |entityData| == SlotFloats * |entities|
      && (forall k, m :: 0 <= k < m < |entities| ==> entities[k].transform != entities[m].transform)
      && (forall k :: 0 <= k < |entities| ==> entities[k].transform.Valid())
      && (forall k :: 0 <= k < |entities| ==> Mirrors(entities[k], ReadSlot(entityData, k)))
    }

    /** The active camera index is in range and every camera has its own valid transform. */
    ghost predicate CamerasValid()
      reads this`cameras, this`cameraIndex, CameraTransforms()
    {
      && 0 < |cameras| <= MaxInt && 0 <= cameraIndex < |cameras|
      && (forall k, m :: 0 <= k < m < |cameras| ==> cameras[k].transform != cameras[m].transform)
      && (forall k :: 0 <= k < |cameras| ==> cameras[k].Valid())
    }

    /** No camera shares a transform with an entity. */
    ghost predicate Separate()
      reads this`entities, this`cameras
    {
      forall k, m :: 0 <= k < |entities| && 0 <= m < |cameras| ==> entities[k].transform != cameras[m].transform
    }

    /** The light-space lists are the ones the directional lights call for. */
    ghost predicate LightsValid()
      reads this`lights, this`lightViews, this`lightProjections
    {
      lightViews == LightViews(lights) && lightProjections == LightProjections(lights, lightProjectionSize)
    }

    ghost predicate Valid()
      reads this`valOffset, this`lights, this`lightViews, this`lightProjections
      reads this`entities, this`entityData, this`cameras, this`cameraIndex
      reads EntityTransforms(), CameraTransforms()
    {
      && vals.Length == PlotSlots && 0 <= valOffset < PlotSlots
      && LightsValid() && EntitiesValid() && CamerasValid() && Separate()
    }

    /**
     * Initialize: the lights, their light-space matrices, the materials, the
     * entity grid with its floor, and the cameras, in that order.
     */
    constructor (shadowMapResolution: nat, lightProjectionSize: real, aspectRatio: real,
                 rotateBy: QuatRotate, meshes: seq<Mesh>, vs: ShaderRef, ps: ShaderRef)
      requires |meshes| > 0
      ensures Valid()
      ensures lights == InitialLights && |lightViews| == 3
      ensures this.meshes == meshes && TintedAsListed(materials)
      ensures LaidOut(entities, entityData, meshes, materials)
      ensures |cameras| == |CameraStarts| && cameraIndex == 0
      ensures forall k :: 0 <= k < |cameras| ==> cameras[k].transform.position == CameraStarts[k]
      ensures PlotState() == Plot(seq(PlotSlots, _ => 0.0), 0, 0.0, 0.0)
    {
      this.rotateBy := rotateBy;
      this.shadowMapResolution := shadowMapResolution;
      this.lightProjectionSize := lightProjectionSize;
      this.meshes := meshes;
      lights := InitialLights;
      lightViews := [];
      lightProjections := [];
      materials := [];
      entities := [];
      entityData := [];
      cameras := [];
      cameraIndex := 0;
      vals := new real[PlotSlots](_ => 0.0);
      valOffset := 0;
      phase := 0.0;
      refreshTime := 0.0;
      new;
      CreateShadowmapResources();
      InitialLightsHaveThreeDirectional(lightProjectionSize);
      CreateShaderToEntity(vs, ps);
      CreateCameras(aspectRatio);
      assert vals[..] == seq(PlotSlots, _ => 0.0);
    }

    /** The light loop of CreateShadowmapResources: one view and one projection per directional light, appended in order. */
    method CreateShadowmapResources()
      modifies this
      ensures lightViews == old(lightViews) + LightViews(lights)
      ensures lightProjections == old(lightProjections) + LightProjections(lights, lightProjectionSize)
      ensures lights == old(lights) && meshes == old(meshes) && materials == old(materials)
      ensures entities == old(entities) && entityData == old(entityData)
      ensures cameras == old(cameras) && cameraIndex == old(cameraIndex)
      ensures valOffset == old(valOffset) && phase == old(phase) && refreshTime == old(refreshTime)
    {
      var i := 0;
      while i < |lights|
        invariant 0 <= i <= |lights|
        invariant lightViews == old(lightViews) + LightViews(lights[..i])
        invariant lightProjections == old(lightProjections) + LightProjections(lights[..i], lightProjectionSize)
        invariant lights == old(lights) && meshes == old(meshes) && materials == old(materials)
        invariant entities == old(entities) && entityData == old(entityData)
        invariant cameras == old(cameras) && cameraIndex == old(cameraIndex)
        invariant valOffset == old(valOffset) && phase == old(phase) && refreshTime == old(refreshTime)
      {
        LightViewsAppend(lights[..i], lights[i], lightProjectionSize);
        assert lights[..i + 1] == lights[..i] + [lights[i]];
        if lights[i].lightType == LightTypeDirectional {
          lightViews := lightViews + [LightView(lights[i])];
          lightProjections := lightProjections + [LightProjection(lightProjectionSize)];
        }
        i := i + 1;
      }
      assert lights[..i] == lights;
    }

    /** CreateShaderToEntity: the nine materials, then the entity grid and the floor built from them and the meshes. */
    method CreateShaderToEntity(vs: ShaderRef, ps: ShaderRef)
      requires |meshes| > 0 && materials == [] && entities == [] && entityData == []
      modifies this
      ensures lights == old(lights) && lightViews == old(lightViews) && lightProjections == old(lightProjections)
      ensures meshes == old(meshes) && cameras == old(cameras) && cameraIndex == old(cameraIndex)
      ensures valOffset == old(valOffset) && phase == old(phase) && refreshTime == old(refreshTime)
      ensures |materials| == |MaterialTints| && TintedAsListed(materials)
      ensures LaidOut(entities, entityData, meshes, materials) && EntitiesValid()
      ensures forall i :: 0 <= i < |materials| ==> materials[i].vertexShader == vs && materials[i].pixelShader == ps
    {
      CreateMaterials(vs, ps);
      CreateEntities();
    }

    /** The nine materials, all with the same two shaders, tinted as MaterialTints lists. */
    method CreateMaterials(vs: ShaderRef, ps: ShaderRef)
      requires materials == []
      modifies this
      ensures TintedAsListed(materials)
      ensures forall i :: 0 <= i < |materials| ==> materials[i].vertexShader == vs && materials[i].pixelShader == ps
      ensures lights == old(lights) && lightViews == old(lightViews) && lightProjections == old(lightProjections)
      ensures meshes == old(meshes) && entities == old(entities) && entityData == old(entityData)
      ensures cameras == old(cameras) && cameraIndex == old(cameraIndex)
      ensures valOffset == old(valOffset) && phase == old(phase) && refreshTime == old(refreshTime)
    {
      var i := 0;
      while i < |MaterialTints|
        invariant 0 <= i <= |MaterialTints| && |materials| == i
        invariant forall k :: 0 <= k < i ==>
                    fresh(materials[k]) && materials[k].colorTint == MaterialTints[k]
                    && materials[k].vertexShader == vs && materials[k].pixelShader == ps
        invariant lights == old(lights) && lightViews == old(lightViews) && lightProjections == old(lightProjections)
        invariant meshes == old(meshes) && entities == old(entities) && entityData == old(entityData)
        invariant cameras == old(cameras) && cameraIndex == old(cameraIndex)
        invariant valOffset == old(valOffset) && phase == old(phase) && refreshTime == old(refreshTime)
      {
        var m := new Material(MaterialTints[i], vs, ps);
        materials := materials + [m];
        i := i + 1;
      }
    }

    /**
     * The entity loops of CreateShaderToEntity: for material i and mesh j, in
     * that nesting, a new entity at GridPosition(i, j) with nine floats of
     * data; then the floor, from mesh 0 and material 0.
     */
    method CreateEntities()
      requires |meshes| > 0 && |materials| > 0
      requires entities == [] && entityData == []
      modifies this`entities, this`entityData
      ensures LaidOut(entities, entityData, meshes, materials)
      ensures EntitiesValid()
    {
      var grid, gridData := BuildGrid(rotateBy, meshes, materials);
      var es, data := AddFloor(rotateBy, meshes[0], materials[0], grid, gridData);
      FloorAppended(grid, gridData, es, data, meshes, materials);
      entities := es;
      entityData := data;
    }

    /** Three perspective cameras at CameraStarts, all with the window's aspect ratio. */
    method CreateCameras(aspectRatio: real)
      requires cameras == [] && cameraIndex == 0
      modifies this
      ensures CamerasValid() && Separate()
      ensures old(EntitiesValid()) ==> EntitiesValid()
      ensures |cameras| == |CameraStarts|
      ensures forall k :: 0 <= k < |cameras| ==>
                cameras[k].transform.position == CameraStarts[k]
                && cameras[k].projectionMat == PerspectiveFov(FieldOfView, aspectRatio, NearClip, FarClip)
      ensures lights == old(lights) && lightViews == old(lightViews) && lightProjections == old(lightProjections)
      ensures meshes == old(meshes) && materials == old(materials) && entities == old(entities) && entityData == old(entityData)
      ensures cameraIndex == old(cameraIndex) && PlotState() == old(PlotState())
    {
      var i := 0;
      while i < |CameraStarts|
        invariant 0 <= i <= |CameraStarts| && |cameras| == i
        invariant forall k :: 0 <= k < i ==>
                    fresh(cameras[k]) && fresh(cameras[k].transform) && cameras[k].Valid()
                    && cameras[k].transform.position == CameraStarts[k]
                    && cameras[k].projectionMat == PerspectiveFov(FieldOfView, aspectRatio, NearClip, FarClip)
        invariant forall k, m :: 0 <= k < m < i ==> cameras[k].transform != cameras[m].transform
        invariant lights == old(lights) && lightViews == old(lightViews) && lightProjections == old(lightProjections)
        invariant meshes == old(meshes) && materials == old(materials) && entities == old(entities) && entityData == old(entityData)
        invariant cameraIndex == old(cameraIndex) && PlotState() == old(PlotState())
      {
        var c := new Camera(aspectRatio, CameraStarts[i], rotateBy);
        cameras := cameras + [c];
        i := i + 1;
      }
      assert CamerasValid();
    }

    /** A step that modifies only entity transforms (and the game itself) leaves every camera's transform alone. */
    twostate lemma CamerasUntouched()
      requires old(Separate()) && cameras == old(cameras) && entities == old(entities)
      requires forall o: object :: o !in old(EntityTransforms()) && o != this && old(allocated(o)) ==> unchanged(o)
      ensures forall m :: 0 <= m < |cameras| ==> unchanged(cameras[m].transform)
    {
      forall m | 0 <= m < |cameras| ensures unchanged(cameras[m].transform) {
        assert old(cameras[m].transform !in EntityTransforms());
      }
    }

    /**
     * The part of Update after the UI: the active camera flies (the call is
     * guarded by the index check), then every entity but the last, the floor,
     * takes the rotation Spin gives it. Positions and scales stay put.
     */
    method Update(dt: real, totalTime: real, input: InputState, sin: RealFn, cos: RealFn)
      requires Valid()
      modifies cameras[cameraIndex], cameras[cameraIndex].transform, EntityTransforms()
      ensures Valid()
      ensures cameras[cameraIndex].transform.position
              == MovedPosition(cameras[cameraIndex].transform.rotateBy, old(cameras[cameraIndex].transform.position), old(cameras[cameraIndex].transform.rotation), dt, input)
      ensures cameras[cameraIndex].transform.rotation == LookedRotation(old(cameras[cameraIndex].transform.rotation), input)
      ensures cameras[cameraIndex].transform.scale == old(cameras[cameraIndex].transform.scale)
      ensures cameras[cameraIndex].viewMat == cameras[cameraIndex].ExpectedView()
      ensures cameras[cameraIndex].projectionMat == old(cameras[cameraIndex].projectionMat)
              && cameras[cameraIndex].isPerspective == old(cameras[cameraIndex].isPerspective)
      ensures forall k :: 0 <= k < |entities| - 1 ==> entities[k].transform.rotation == Spin(sin, cos, totalTime, k)
      ensures entities[|entities| - 1].transform.rotation == old(entities[|entities| - 1].transform.rotation)
      ensures forall k :: 0 <= k < |entities| ==>
                entities[k].transform.position == old(entities[k].transform.position)
                && entities[k].transform.scale == old(entities[k].transform.scale)
    {
      var c := cameras[cameraIndex];
      if cameraIndex < |cameras| {
        UpdateActiveCamera(dt, input);
      }
      assert c.transform !in EntityTransforms();
      SpinEntities(totalTime, sin, cos);
    }

    /** The active camera's own Update; no entity transform and no other camera is touched. */
    method UpdateActiveCamera(dt: real, input: InputState)
      requires Valid()
      modifies cameras[cameraIndex], cameras[cameraIndex].transform
      ensures Valid()
      ensures cameras[cameraIndex].transform.position
              == MovedPosition(cameras[cameraIndex].transform.rotateBy, old(cameras[cameraIndex].transform.position), old(cameras[cameraIndex].transform.rotation), dt, input)
      ensures cameras[cameraIndex].transform.rotation == LookedRotation(old(cameras[cameraIndex].transform.rotation), input)
      ensures cameras[cameraIndex].transform.scale == old(cameras[cameraIndex].transform.scale)
      ensures cameras[cameraIndex].viewMat == cameras[cameraIndex].ExpectedView()
      ensures cameras[cameraIndex].projectionMat == old(cameras[cameraIndex].projectionMat)
              && cameras[cameraIndex].isPerspective == old(cameras[cameraIndex].isPerspective)
    {
      var c := cameras[cameraIndex];
      c.Update(dt, input);
      assert EntitiesValid();
      assert forall k :: 0 <= k < |cameras| && k != cameraIndex ==> cameras[k].transform != c.transform;
      assert CamerasValid();
    }

    /** The animation loop: every entity but the last takes the rotation Spin gives it. */
    method SpinEntities(totalTime: real, sin: RealFn, cos: RealFn)
      requires Valid()
      modifies EntityTransforms()
      ensures Valid()
      ensures forall k :: 0 <= k < |entities| - 1 ==> entities[k].transform.rotation == Spin(sin, cos, totalTime, k)
      ensures entities[|entities| - 1].transform.rotation == old(entities[|entities| - 1].transform.rotation)
      ensures forall k :: 0 <= k < |entities| ==>
                entities[k].transform.position == old(entities[k].transform.position)
                && entities[k].transform.scale == old(entities[k].transform.scale)
    {
      var i := 0;
      while i < |entities| - 1
        invariant 0 <= i <= |entities| - 1
        invariant forall k :: 0 <= k < i ==> entities[k].transform.rotation == Spin(sin, cos, totalTime, k)
        invariant forall k :: i <= k < |entities| ==> entities[k].transform.rotation == old(entities[k].transform.rotation)
        invariant forall k :: 0 <= k < |entities| ==>
                    entities[k].transform.position == old(entities[k].transform.position)
                    && entities[k].transform.scale == old(entities[k].transform.scale)
                    && entities[k].transform.Valid()
      {
        entities[i].transform.SetRotation(Spin(sin, cos, totalTime, i));
        i := i + 1;
      }
      CamerasUntouched();
      ValidKept(this);
    }

    /** "Next Camera": the index moves one on and wraps to 0 after the last camera. */
    method NextCamera()
      requires Valid()
      modifies this`cameraIndex
      ensures Valid()
      ensures cameraIndex == (if old(cameraIndex) == |cameras| - 1 then 0 else old(cameraIndex) + 1)
    {
      cameraIndex := NextIndex(cameraIndex, |cameras|);
    }

    /** "Prev Camera": the index moves one back and wraps to the last camera from 0. */
    method PrevCamera()
      requires Valid()
      modifies this`cameraIndex
      ensures Valid()
      ensures cameraIndex == (if old(cameraIndex) == 0 then |cameras| - 1 else old(cameraIndex) - 1)
    {
      cameraIndex := PrevIndex(cameraIndex, |cameras|);
    }

    /**
     * The entity editor for entity i: the nine floats of its slot are
     * overwritten with the edited position, rotation and scale, and the same
     * three go to its transform. No other slot and no other transform changes.
     */
    method EditEntity(i: nat, position: Vec3, rotation: Vec3, scale: Vec3)
      requires Valid() && i < |entities|
      modifies this`entityData, entities[i].transform
      ensures Valid()
      ensures entityData == WriteSlot(old(entityData), i, position, rotation, scale)
      ensures ReadSlot(entityData, i) == (position, rotation, scale)
      ensures forall k :: 0 <= k < |entities| && k != i ==> ReadSlot(entityData, k) == old(ReadSlot(entityData, k))
      ensures entities[i].transform.position == position
      ensures entities[i].transform.rotation == rotation
      ensures entities[i].transform.scale == scale
    {
      entityData := WriteSlot(entityData, i, position, rotation, scale);
      var t := entities[i].transform;
      t.SetPosition(position);
      t.SetRotation(rotation);
      t.SetScale(scale);
      forall k | 0 <= k < |entities|
        ensures ReadSlot(entityData, k) == (if k == i then (position, rotation, scale) else old(ReadSlot(entityData, k)))
      {
        SlotRoundTrip(old(entityData), i, k, position, rotation, scale);
      }
      CamerasUntouched();
      ValidKept(this);
    }

    /** The light editor for light i: only its colour changes, so neither light-space list does. */
    method EditLightColor(i: nat, color: Vec3)
      requires Valid() && i < |lights|
      modifies this`lights
      ensures Valid()
      ensures lights == old(lights)[i := old(lights)[i].(color := color)]
    {
      LightViewsIgnoreColor(lights, i, color, lightProjectionSize);
      lights := lights[i := lights[i].(color := color)];
    }

    /** The material editor's colour tint for material i. */
    method EditMaterialTint(i: nat, tint: Vec4)
      requires Valid() && i < |materials|
      modifies materials[i]
      ensures Valid()
      ensures materials[i].colorTint == tint
      ensures materials[i].vertexShader == old(materials[i].vertexShader) && materials[i].pixelShader == old(materials[i].pixelShader)
    {
      materials[i].SetColorTint(tint);
    }

    /**
     * The plot in BuildUI: on the first call the clock starts the schedule;
     * then one sample is written per 1/60 s interval until the next sample
     * time is no longer in the past.
     */
    method PlotTick(now: real, sin: RealFn)
      requires Valid()
      modifies this`valOffset, this`phase, this`refreshTime, vals
      ensures Valid()
      ensures PlotState() == PlotCatchUp(Started(old(PlotState()), now), now, sin)
    {
      ghost var start := Started(PlotState(), now);
      if refreshTime == 0.0 {
        refreshTime := now;
      }
      assert PlotState() == start;
      while refreshTime < now
        invariant vals.Length == PlotSlots && PlotValid(PlotState())
        invariant PlotCatchUp(PlotState(), now, sin) == PlotCatchUp(start, now, sin)
        decreases StepsBehind(refreshTime, now)
      {
        StepsBehindDecreases(refreshTime, now);
        PlotSample(sin);
      }
    }

    /** One pass of the plot loop, in place: PlotStep on the plot's state. */
    method PlotSample(sin: RealFn)
      requires vals.Length == PlotSlots && 0 <= valOffset < PlotSlots
      modifies this`valOffset, this`phase, this`refreshTime, vals
      ensures PlotState() == PlotStep(old(PlotState()), sin)
    {
      vals[valOffset] := Sample(sin, phase, refreshTime);
      valOffset := (valOffset + 1) % PlotSlots;
      phase := phase + 0.1 * valOffset as real;
      refreshTime := refreshTime + PlotInterval;
    }

    /** OnResize: every perspective camera gets a projection for the new aspect ratio. */
    method OnResize(aspectRatio: real)
      requires Valid()
      modifies set k | 0 <= k < |cameras| :: cameras[k]
      ensures Valid()
      ensures forall k :: 0 <= k < |cameras| ==>
                && cameras[k].isPerspective == old(cameras[k].isPerspective)
                && cameras[k].viewMat == old(cameras[k].viewMat)
                && (cameras[k].isPerspective ==> cameras[k].projectionMat == PerspectiveFov(FieldOfView, aspectRatio, NearClip, FarClip))
                && (!cameras[k].isPerspective ==> cameras[k].projectionMat == old(cameras[k].projectionMat))
    {
      var i := 0;
      while i < |cameras|
        invariant 0 <= i <= |cameras|
        invariant forall k :: 0 <= k < |cameras| ==>
                    cameras[k].isPerspective == old(cameras[k].isPerspective) && cameras[k].viewMat == old(cameras[k].viewMat)
        invariant forall k :: 0 <= k < i ==>
                    && (cameras[k].isPerspective ==> cameras[k].projectionMat == PerspectiveFov(FieldOfView, aspectRatio, NearClip, FarClip))
                    && (!cameras[k].isPerspective ==> cameras[k].projectionMat == old(cameras[k].projectionMat))
        invariant forall k :: i <= k < |cameras| ==> cameras[k].projectionMat == old(cameras[k].projectionMat)
      {
        cameras[i].UpdateProjectionMatrix(aspectRatio);
        i := i + 1;
      }
    }

    /**
     * Draw: the frame's ops, as FrameOps describes them, built from each
     * entity's world matrix (which refreshes its cache). Every shadow-caster
     * draw runs in the shadow-map state and every lit draw in the window
     * state, whatever state the frame starts from.
     */
    method Draw(width: int, height: int, vsync: bool) returns (ops: seq<Op>, worlds: seq<Matrix>)
      requires Valid() && |lightViews| > 0
      modifies EntityTransforms()
      ensures Valid()
      ensures |worlds| == |entities|
      ensures forall k :: 0 <= k < |entities| ==>
                worlds[k] == entities[k].transform.World() && !entities[k].transform.dirty
                && entities[k].transform.position == old(entities[k].transform.position)
                && entities[k].transform.rotation == old(entities[k].transform.rotation)
                && entities[k].transform.scale == old(entities[k].transform.scale)
      ensures ops == FrameOps(FrameInputs(shadowMapResolution, width, height, lightViews[0], lightProjections[0],
                                          worlds, cameraIndex, |cameras|, |lights|, vsync))
      ensures forall p :: Staged(p, ops, shadowMapResolution, width, height)
    {
      var lv, lp := lightViews[0], lightProjections[0];
      ops := FrameStart + ShadowSetup(shadowMapResolution, lv, lp);
      ops, worlds := ShadowPass(ops);
      ops := ops + Restore(width, height);
      ops := LitPass(ops, lv, lp);
      ops := ops + FrameEnd(cameraIndex, vsync);
      forall p ensures Staged(p, ops, shadowMapResolution, width, height) {
        FrameIsStaged(p, FrameInputs(shadowMapResolution, width, height, lv, lp, worlds, cameraIndex, |cameras|, |lights|, vsync));
      }
    }

    /** The shadow loop: each entity's world matrix, in order, each followed by its shadow-caster draw. */
    method ShadowPass(before: seq<Op>) returns (ops: seq<Op>, worlds: seq<Matrix>)
      requires Valid()
      modifies EntityTransforms()
      ensures Valid()
      ensures |worlds| == |entities| && ops == before + ShadowDraws(worlds)
      ensures forall k :: 0 <= k < |entities| ==>
                worlds[k] == entities[k].transform.World() && !entities[k].transform.dirty
                && entities[k].transform.position == old(entities[k].transform.position)
                && entities[k].transform.rotation == old(entities[k].transform.rotation)
                && entities[k].transform.scale == old(entities[k].transform.scale)
    {
      ops, worlds := before, [];
      var i := 0;
      while i < |entities|
        invariant 0 <= i <= |entities| && |worlds| == i
        invariant ops == before + ShadowDraws(worlds)
        invariant forall k :: 0 <= k < i ==> worlds[k] == entities[k].transform.World() && !entities[k].transform.dirty
        invariant forall k :: 0 <= k < |entities| ==>
                    entities[k].transform.position == old(entities[k].transform.position)
                    && entities[k].transform.rotation == old(entities[k].transform.rotation)
                    && entities[k].transform.scale == old(entities[k].transform.scale)
                    && entities[k].transform.Valid()
      {
        var m := entities[i].transform.GetWorldMatrix();
        ShadowDrawsSnoc(worlds, m);
        worlds := worlds + [m];
        ops := ops + [DrawShadowCaster(i, m)];
        i := i + 1;
      }
      CamerasUntouched();
      ValidKept(this);
    }

    /** The lit loop: one lit draw per entity from the active camera, each guarded by the camera-index check. */
    method LitPass(before: seq<Op>, lv: Matrix, lp: Matrix) returns (ops: seq<Op>)
      requires 0 <= cameraIndex
      ensures ops == before + (if cameraIndex < |cameras| then LitDraws(|entities|, cameraIndex, lv, lp, |lights|) else [])
    {
      ops := before;
      var n, camera, lightCount := |entities|, cameraIndex, |lights|;
      var guarded := camera < |cameras|;
      var j := 0;
      while j < n
        invariant 0 <= j <= n
        invariant ops == before + (if guarded then LitDraws(j, camera, lv, lp, lightCount) else [])
      {
        if guarded {
          LitDrawsSnoc(j, camera, lv, lp, lightCount);
          ops := ops + [DrawLit(j, camera, lv, lp, LightBlobBytes(lightCount), lightCount)];
        }
        j := j + 1;
      }
    }
  }

  /**
   * Valid() is kept by a step that leaves the game's lists and indices as they
   * were, keeps every entity transform valid and mirrored by its data slot, and
   * does not touch a camera's transform.
   */
  twostate lemma ValidKept(g: Game)
    requires old(g.Valid())
    requires g.lights == old(g.lights) && g.lightViews == old(g.lightViews) && g.lightProjections == old(g.lightProjections)
    requires g.entities == old(g.entities) && g.cameras == old(g.cameras) && g.cameraIndex == old(g.cameraIndex)
    requires g.valOffset == old(g.valOffset) && |g.entityData| == old(|g.entityData|)
    requires forall k :: 0 <= k < |g.entities| ==>
               g.entities[k].transform.Valid() && Mirrors(g.entities[k], ReadSlot(g.entityData, k))
    requires forall m :: 0 <= m < |g.cameras| ==> unchanged(g.cameras[m].transform)
    ensures g.Valid()
  {
    assert g.CamerasValid() by {
      forall m | 0 <= m < |g.cameras| ensures g.cameras[m].Valid() {
        assert old(g.cameras[m].Valid());
      }
    }
  }

  /**
   * Rows 0 to rows - 1 of the grid: entity GridIndex(a, b) has material a and
   * mesh b at GridPosition(a, b), and every entity has a transform of its own,
   * valid and mirrored by its data slot.
   */
  ghost predicate GridRows(es: seq<Entity>, data: seq<real>, ms: seq<Mesh>, mats: seq<Material>, rows: nat)
    requires rows <= |mats|
    reads set k | 0 <= k < |es| :: es[k].transform
  {
    && |es| == |ms| * rows && |data| == SlotFloats * |es|
    && (forall a, b :: 0 <= a < rows && 0 <= b < |ms| ==>
          GridIndex(a, b, |ms|) < |es|
          && Placed(es[GridIndex(a, b, |ms|)], ReadSlot(data, GridIndex(a, b, |ms|)), ms[b], mats[a], GridPosition(a, b, |mats|), One))
    && (forall k :: 0 <= k < |es| ==> es[k].transform.Valid() && Mirrors(es[k], ReadSlot(data, k)))
    && (forall k, m :: 0 <= k < m < |es| ==> es[k].transform != es[m].transform)
  }

  /** The outer entity loop: one row of the grid per material, in material order. */
  method BuildGrid(rotateBy: QuatRotate, ms: seq<Mesh>, mats: seq<Material>) returns (es: seq<Entity>, data: seq<real>)
    ensures GridRows(es, data, ms, mats, |mats|)
    ensures forall k :: 0 <= k < |es| ==> fresh(es[k].transform)
  {
    es, data := [], [];
    var i := 0;
    while i < |mats|
      invariant 0 <= i <= |mats|
      invariant GridRows(es, data, ms, mats, i)
      invariant forall k :: 0 <= k < |es| ==> fresh(es[k].transform)
    {
      var es', data' := AddGridRow(rotateBy, ms, mats[i], i, |mats|, es, data);
      GridRowAppended(es, data, es', data', ms, mats, i);
      forall k | 0 <= k < |es| ensures es'[k] == es[k] {
        assert es'[..|es|][k] == es'[k];
      }
      es, data := es', data';
      i := i + 1;
    }
  }

  /** The floor entity, appended last: mesh 0 and material 0 at FloorPosition, scaled to FloorScale. */
  method AddFloor(rotateBy: QuatRotate, mesh: Mesh, material: Material, es: seq<Entity>, data: seq<real>)
    returns (es': seq<Entity>, data': seq<real>)
    requires |data| == SlotFloats * |es|
    ensures |es'| == |es| + 1 && es' == es + [es'[|es|]]
    ensures |data'| == SlotFloats * |es'| && data'[..|data|] == data
    ensures forall k :: 0 <= k < |es| ==> ReadSlot(data', k) == ReadSlot(data, k)
    ensures Placed(es'[|es|], ReadSlot(data', |es|), mesh, material, FloorPosition, FloorScale)
    ensures fresh(es'[|es|].transform) && es'[|es|].transform.Valid()
  {
    var floor := new Transform(rotateBy);
    es' := es + [Entity(mesh, material, floor)];
    data' := data + Slot(FloorPosition, Zero, FloorScale);
    forall k | 0 <= k < |es| ensures ReadSlot(data', k) == ReadSlot(data, k) {
      ReadSlotOfPrefix(data, data', k);
    }
    es'[|es'| - 1].transform.SetPosition(FloorPosition);
    es'[|es'| - 1].transform.SetScale(FloorScale);
  }

  /**
   * The inner entity loop for material i: one new entity per mesh, each with a
   * fresh transform placed at GridPosition(i, j) and nine floats of data. The
   * source reaches each new entity through the index meshCount * i + j.
   */
  method AddGridRow(rotateBy: QuatRotate, ms: seq<Mesh>, material: Material, i: nat, count: nat,
                    es: seq<Entity>, data: seq<real>) returns (es': seq<Entity>, data': seq<real>)
    requires |es| == |ms| * i && |data| == SlotFloats * |es|
    ensures |es'| == |es| + |ms| && |data'| == SlotFloats * |es'|
    ensures es'[..|es|] == es && data'[..|data|] == data
    ensures forall b :: 0 <= b < |ms| ==>
              Placed(es'[|es| + b], ReadSlot(data', |es| + b), ms[b], material, GridPosition(i, b, count), One)
    ensures forall k :: |es| <= k < |es'| ==>
              fresh(es'[k].transform) && es'[k].transform.Valid() && Mirrors(es'[k], ReadSlot(data', k))
    ensures forall k, m :: 0 <= k < m < |es'| && |es| <= m ==> es'[k].transform != es'[m].transform
  {
    es', data' := es, data;
    var j := 0;
    while j < |ms|
      invariant 0 <= j <= |ms|
      invariant |es'| == |es| + j && |data'| == SlotFloats * |es'|
      invariant es'[..|es|] == es && data'[..|data|] == data
      invariant forall b :: 0 <= b < j ==>
                  Placed(es'[|es| + b], ReadSlot(data', |es| + b), ms[b], material, GridPosition(i, b, count), One)
      invariant forall k :: |es| <= k < |es'| ==>
                  fresh(es'[k].transform) && es'[k].transform.Valid() && Mirrors(es'[k], ReadSlot(data', k))
      invariant forall k, m :: 0 <= k < m < |es'| && |es| <= m ==> es'[k].transform != es'[m].transform
    {
      var t := new Transform(rotateBy);
      var before := data';
      es' := es' + [Entity(ms[j], material, t)];
      data' := data' + Slot(GridPosition(i, j, count), Zero, One);
      forall k | 0 <= k < |es'| - 1 ensures ReadSlot(data', k) == ReadSlot(before, k) {
        ReadSlotOfPrefix(before, data', k);
      }
      assert GridIndex(i, j, |ms|) == |es'| - 1;
      es'[GridIndex(i, j, |ms|)].transform.SetPosition(GridPosition(i, j, count));
      j := j + 1;
    }
  }

  /** Appending row i, as AddGridRow builds it, after rows 0 to i - 1 of the grid gives rows 0 to i. */
  lemma GridRowAppended(es: seq<Entity>, data: seq<real>, es': seq<Entity>, data': seq<real>,
                        ms: seq<Mesh>, mats: seq<Material>, i: nat)
    requires i < |mats| && GridRows(es, data, ms, mats, i)
    requires |es'| == |es| + |ms| && |data'| == SlotFloats * |es'| && es'[..|es|] == es && data'[..|data|] == data
    requires forall b :: 0 <= b < |ms| ==>
               Placed(es'[|es| + b], ReadSlot(data', |es| + b), ms[b], mats[i], GridPosition(i, b, |mats|), One)
    requires forall k :: |es| <= k < |es'| ==> es'[k].transform.Valid() && Mirrors(es'[k], ReadSlot(data', k))
    requires forall k, m :: 0 <= k < m < |es'| && |es| <= m ==> es'[k].transform != es'[m].transform
    ensures GridRows(es', data', ms, mats, i + 1)
  {
    var n := |ms|;
    assert n * (i + 1) == n * i + n;
    forall k | 0 <= k < |es| ensures es'[k] == es[k] && ReadSlot(data', k) == ReadSlot(data, k) {
      ReadSlotOfPrefix(data, data', k);
      assert es'[..|es|][k] == es'[k];
    }
    forall a, b | 0 <= a < i + 1 && 0 <= b < n
      ensures GridIndex(a, b, n) < |es'|
              && Placed(es'[GridIndex(a, b, n)], ReadSlot(data', GridIndex(a, b, n)), ms[b], mats[a], GridPosition(a, b, |mats|), One)
    {
      if a == i {
        assert GridIndex(a, b, n) == |es| + b;
      }
    }
  }

  /** The finished grid followed by the floor is the layout CreateShaderToEntity promises. */
  lemma FloorAppended(es: seq<Entity>, data: seq<real>, es': seq<Entity>, data': seq<real>, ms: seq<Mesh>, mats: seq<Material>)
    requires |ms| > 0 && |mats| > 0 && GridRows(es, data, ms, mats, |mats|)
    requires |es'| == |es| + 1 && es' == es + [es'[|es|]] && |data'| == SlotFloats * |es'|
    requires forall k :: 0 <= k < |es| ==> ReadSlot(data', k) == ReadSlot(data, k)
    requires Placed(es'[|es|], ReadSlot(data', |es|), ms[0], mats[0], FloorPosition, FloorScale)
    requires es'[|es|].transform.Valid() && forall k :: 0 <= k < |es| ==> es[k].transform != es'[|es|].transform
    ensures LaidOut(es', data', ms, mats)
    ensures forall k :: 0 <= k < |es'| ==> es'[k].transform.Valid() && Mirrors(es'[k], ReadSlot(data', k))
    ensures forall k, m :: 0 <= k < m < |es'| ==> es'[k].transform != es'[m].transform
  {
    forall k | 0 <= k < |es| ensures es'[k] == es[k] {
      assert es'[k] == (es + [es'[|es|]])[k];
    }
  }

  /** Appending to the data leaves every existing slot reading the same. */
  lemma ReadSlotOfPrefix(data: seq<real>, longer: seq<real>, k: nat)
    requires |data| <= |longer| && longer[..|data|] == data && SlotFloats * k + SlotFloats <= |data|
    ensures ReadSlot(longer, k) == ReadSlot(data, k)
  {
    var b := SlotFloats * k;
    forall x | b <= x < b + SlotFloats ensures longer[x] == data[x] {
      assert longer[..|data|][x] == longer[x];
    }
  }

  /** Initialize's light list holds three directional lights, the first of them at index 0. */
  lemma InitialLightsHaveThreeDirectional(size: real)
    ensures DirectionalIndices(InitialLights) == [0, 1, 2]
    ensures |LightViews(InitialLights)| == 3 && |LightProjections(InitialLights, size)| == 3
    ensures LightViews(InitialLights)[0] == LightView(InitialLights[0])
  {
    var ls := InitialLights;
    assert ls[..7][..6] == ls[..6];
    assert ls[..6][..5] == ls[..5];
    assert ls[..5][..4] == ls[..4];
    assert ls[..4][..3] == ls[..3];
    assert ls[..3][..2] == ls[..2];
    assert ls[..2][..1] == ls[..1];
    assert ls[..1][..0] == [];
    assert DirectionalIndices(ls[..1]) == [0];
    assert DirectionalIndices(ls[..2]) == [0, 1];
    assert DirectionalIndices(ls[..3]) == [0, 1, 2];
    assert DirectionalIndices(ls) == DirectionalIndices(ls[..7]);
    assert DirectionalIndices(ls[..7]) == DirectionalIndices(ls[..6]);
    assert DirectionalIndices(ls[..6]) == DirectionalIndices(ls[..5]);
    assert DirectionalIndices(ls[..5]) == DirectionalIndices(ls[..4]);
    assert DirectionalIndices(ls[..4]) == DirectionalIndices(ls[..3]);
    LightViewsFollowDirectionalLights(ls, size);
  }
}
