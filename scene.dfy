/**
 * The integer and sequence rules of Game.cpp, as functions of values: camera
 * cycling, the light-space matrix lists, the entity grid layout, the flat
 * `entityData` array and the plot ring buffer. The `Game` class applies them
 * to its own state.
 */
module Scene {
  import opened Math3D
  import opened Lights

  // ---------------------------------------------------------------------------
  // Camera cycling (the "Next Camera" and "Prev Camera" buttons)

  /** `size_t` is 64 bits wide. */
  const SizeRange: int := 0x1_0000_0000_0000_0000

  /** The camera count is cast to a 32-bit `int`. */
  const MaxInt: int := 0x7fff_ffff

  /** C++ `%` on ints: truncates toward zero, so the remainder takes the dividend's sign. */
  function CRem(a: int, n: int): (r: int)
    requires n > 0
    ensures a >= 0 ==> r == a % n
    ensures a < 0 ==> -n < r <= 0
  {
    if a >= 0 then a % n else -((-a) % n)
  }

  /** `cameraIndex += 1; cameraIndex %= (int)cameraPtrs.size();` */
  function NextIndex(idx: int, n: int): (r: int)
    requires n > 0
    ensures 0 <= idx ==> 0 <= r < n
    ensures 0 <= idx < n ==> r == (if idx == n - 1 then 0 else idx + 1)
  {
    StepUpMod(idx, n);
    CRem(idx + 1, n)
  }

  /**
   * `cameraIndex += (int)cameraPtrs.size() - 1; cameraIndex %= cameraPtrs.size();`
   * The second step converts the index to `size_t` before taking the remainder.
   */
  function PrevIndex(idx: int, n: int): (r: int)
    requires 0 < n <= MaxInt
    ensures 0 <= r < n
    ensures 0 <= idx < n ==> r == (if idx == 0 then n - 1 else idx - 1)
  {
    StepDownMod(idx, n);
    ((idx + n - 1) % SizeRange) % n
  }

  lemma StepUpMod(idx: int, n: int)
    requires n > 0
    ensures 0 <= idx < n ==> (idx + 1) % n == (if idx == n - 1 then 0 else idx + 1)
  {
    if 0 <= idx < n {
      if idx == n - 1 {
        DivModUnique(idx + 1, n, 1, 0);
      } else {
        DivModUnique(idx + 1, n, 0, idx + 1);
      }
    }
  }

  lemma StepDownMod(idx: int, n: int)
    requires 0 < n <= MaxInt
    ensures 0 <= idx < n ==> ((idx + n - 1) % SizeRange) % n == (if idx == 0 then n - 1 else idx - 1)
  {
    if 0 <= idx < n {
      DivModUnique(idx + n - 1, SizeRange, 0, idx + n - 1);
      if idx == 0 {
        DivModUnique(n - 1, n, 0, n - 1);
      } else {
        DivModUnique(idx + n - 1, n, 1, idx - 1);
      }
    }
  }

  /** Next and Prev are inverse on valid indices. */
  lemma CyclingRoundTrip(idx: int, n: int)
    requires 0 <= idx < n <= MaxInt
    ensures PrevIndex(NextIndex(idx, n), n) == idx
    ensures NextIndex(PrevIndex(idx, n), n) == idx
  {
  }

  /** n presses of "Next Camera" bring any valid index back to itself. */
  function NextPressed(idx: int, n: int, presses: nat): (r: int)
    requires 0 <= idx < n
    ensures 0 <= r < n
  {
    if presses == 0 then idx else NextIndex(NextPressed(idx, n, presses - 1), n)
  }

  lemma {:induction false} NextPressedAdvances(idx: int, n: int, presses: nat)
    requires 0 <= idx < n
    ensures NextPressed(idx, n, presses) == (idx + presses) % n
  {
    if presses > 0 {
      NextPressedAdvances(idx, n, presses - 1);
      var before := NextPressed(idx, n, presses - 1);
      assert NextPressed(idx, n, presses) == (if before == n - 1 then 0 else before + 1);
      ModSucc(idx + presses - 1, n);
    }
  }

  /** Stepping a remainder on by one, with wrap-around, gives the remainder of the successor. */
  lemma ModSucc(a: nat, n: int)
    requires n > 0
    ensures (if a % n == n - 1 then 0 else a % n + 1) == (a + 1) % n
  {
    var q, m := a / n, a % n;
    if m + 1 == n {
      DivModUnique(a + 1, n, q + 1, 0);
    } else {
      DivModUnique(a + 1, n, q, m + 1);
    }
  }

  lemma NextCyclesThroughAll(idx: int, n: int)
    requires 0 <= idx < n
    ensures NextPressed(idx, n, n as nat) == idx
  {
    NextPressedAdvances(idx, n, n as nat);
    DivModUnique(idx + n, n, 1, idx);
  }

  // ---------------------------------------------------------------------------
  // Light-space matrices (CreateShadowmapResources)

  /** The view from 30 units behind a directional light, looking along it, with up (0, 1, 0). */
  function LightView(l: Light): Matrix {
    LookAt(ScaleBy(l.direction, -30.0), l.direction, Vec3(0.0, 1.0, 0.0))
  }

  /** The orthographic light projection: `size` square, near 1, far 100. */
  function LightProjection(size: real): Matrix {
    Orthographic(size, size, 1.0, 100.0)
  }

  /** The view list the loop over `lights` builds: one entry per directional light, in order. */
  function LightViews(ls: seq<Light>): (views: seq<Matrix>)
    ensures |views| <= |ls|
  {
    if |ls| == 0 then []
    else
      var last := ls[|ls| - 1];
      LightViews(ls[..|ls| - 1]) + (if IsDirectional(last) then [LightView(last)] else [])
  }

  /** The projection list the same loop builds. */
  function LightProjections(ls: seq<Light>, size: real): (projs: seq<Matrix>)
    ensures |projs| == |LightViews(ls)|
  {
    if |ls| == 0 then []
    else
      var last := ls[|ls| - 1];
      LightProjections(ls[..|ls| - 1], size) + (if IsDirectional(last) then [LightProjection(size)] else [])
  }

  /** The positions of the directional lights, in increasing order. */
  function DirectionalIndices(ls: seq<Light>): (r: seq<nat>)
    ensures forall m :: 0 <= m < |r| ==> r[m] < |ls|
  {
    if |ls| == 0 then []
    else DirectionalIndices(ls[..|ls| - 1]) + (if IsDirectional(ls[|ls| - 1]) then [|ls| - 1] else [])
  }

  /**
   * The m-th light view belongs to the m-th directional light; the indices of
   * the directional lights are strictly increasing and name exactly the
   * directional lights; every projection is the same orthographic one.
   */
  lemma {:induction false} LightViewsFollowDirectionalLights(ls: seq<Light>, size: real)
    ensures |LightViews(ls)| == |DirectionalIndices(ls)|
    ensures forall m :: 0 <= m < |LightViews(ls)| ==> LightViews(ls)[m] == LightView(ls[DirectionalIndices(ls)[m]])
    ensures forall m :: 0 <= m < |LightProjections(ls, size)| ==> LightProjections(ls, size)[m] == LightProjection(size)
    ensures forall a, b :: 0 <= a < b < |DirectionalIndices(ls)| ==> DirectionalIndices(ls)[a] < DirectionalIndices(ls)[b]
    ensures forall k :: 0 <= k < |ls| ==> (IsDirectional(ls[k]) <==> k in DirectionalIndices(ls))
  {
    if |ls| > 0 {
      var init := ls[..|ls| - 1];
      LightViewsFollowDirectionalLights(init, size);
      forall k | 0 <= k < |init| ensures ls[k] == init[k] { }
    }
  }

  /** Appending a light appends its matrices exactly when it is directional. */
  lemma LightViewsAppend(ls: seq<Light>, l: Light, size: real)
    ensures LightViews(ls + [l]) == LightViews(ls) + (if IsDirectional(l) then [LightView(l)] else [])
    ensures LightProjections(ls + [l], size) == LightProjections(ls, size) + (if IsDirectional(l) then [LightProjection(size)] else [])
  {
    assert (ls + [l])[..|ls|] == ls;
  }

  /** Editing a light's colour changes neither light-space list. */
  lemma {:induction false} LightViewsIgnoreColor(ls: seq<Light>, i: nat, c: Vec3, size: real)
    requires i < |ls|
    ensures LightViews(ls[i := ls[i].(color := c)]) == LightViews(ls)
    ensures LightProjections(ls[i := ls[i].(color := c)], size) == LightProjections(ls, size)
  {
    var edited := ls[i := ls[i].(color := c)];
    if i < |ls| - 1 {
      LightViewsIgnoreColor(ls[..|ls| - 1], i, c, size);
      assert edited[..|ls| - 1] == ls[..|ls| - 1][i := ls[i].(color := c)];
    } else {
      assert edited[..|ls| - 1] == ls[..|ls| - 1];
    }
  }

  // ---------------------------------------------------------------------------
  // Entity grid (CreateShaderToEntity)

  const GridSpacing: real := 3.5

  /** Where the entity for material i and mesh j is placed, M materials in all. */
  function GridPosition(i: nat, j: nat, materialCount: nat): Vec3 {
    Vec3(j as real * GridSpacing, 0.0, (i as real - materialCount as real / 2.0) * GridSpacing)
  }

  /** The grid entity for material i and mesh j sits at index meshCount * i + j. */
  function GridIndex(i: nat, j: nat, meshCount: nat): nat {
    meshCount * i + j
  }

  /** Grid indices enumerate the grid exactly once, row by row. */
  lemma GridIndexBijective(i: nat, j: nat, meshCount: nat, materialCount: nat)
    requires i < materialCount && j < meshCount
    ensures GridIndex(i, j, meshCount) < materialCount * meshCount
    ensures GridIndex(i, j, meshCount) / meshCount == i && GridIndex(i, j, meshCount) % meshCount == j
  {
    MulMonotone(meshCount, i + 1, materialCount);
    DivModUnique(GridIndex(i, j, meshCount), meshCount, i, j);
  }

  /** Euclidean division has one quotient and one remainder. */
  lemma DivModUnique(k: int, n: int, q: int, r: int)
    requires n > 0 && 0 <= r < n && k == n * q + r
    ensures k / n == q && k % n == r
  {
    var q', r' := k / n, k % n;
    MulMonotone(n, q + 1, q');
    MulMonotone(n, q' + 1, q);
  }

  lemma MulMonotone(n: nat, a: int, b: int)
    ensures a <= b ==> n * a <= n * b
  {
    assert n * b - n * a == n * (b - a);
  }

  lemma GridIndexCovers(k: nat, meshCount: nat, materialCount: nat)
    requires k < materialCount * meshCount
    ensures meshCount > 0 && k / meshCount < materialCount
    ensures GridIndex(k / meshCount, k % meshCount, meshCount) == k
  {
    MulMonotone(meshCount, materialCount, k / meshCount);
  }

  /** The entity on the floor: mesh 0, material 0, at (0, -2, 0) scaled to a 25 x 0.1 x 25 slab. */
  const FloorPosition: Vec3 := Vec3(0.0, -2.0, 0.0)
  const FloorScale: Vec3 := Vec3(25.0, 0.1, 25.0)

  const SlotFloats: nat := 9

  /** The nine floats one entity owns in `entityData`: position, rotation, scale. */
  function Slot(position: Vec3, rotation: Vec3, scale: Vec3): (s: seq<real>)
    ensures |s| == SlotFloats
  {
    [position.x, position.y, position.z, rotation.x, rotation.y, rotation.z, scale.x, scale.y, scale.z]
  }

  /** Reads entity i's slot back as position, rotation and scale. */
  function ReadSlot(data: seq<real>, i: nat): (r: (Vec3, Vec3, Vec3))
    requires SlotFloats * i + SlotFloats <= |data|
  {
    var b := SlotFloats * i;
    (Vec3(data[b], data[b + 1], data[b + 2]),
     Vec3(data[b + 3], data[b + 4], data[b + 5]),
     Vec3(data[b + 6], data[b + 7], data[b + 8]))
  }

  /** The UI write-back: the nine assignments to entityData[9i] .. entityData[9i + 8]. */
  function WriteSlot(data: seq<real>, i: nat, position: Vec3, rotation: Vec3, scale: Vec3): (r: seq<real>)
    requires SlotFloats * i + SlotFloats <= |data|
    ensures |r| == |data|
    ensures forall k :: 0 <= k < |data| && !(SlotFloats * i <= k < SlotFloats * i + SlotFloats) ==> r[k] == data[k]
  {
    var b := SlotFloats * i;
    data[b := position.x][b + 1 := position.y][b + 2 := position.z]
        [b + 3 := rotation.x][b + 4 := rotation.y][b + 5 := rotation.z]
        [b + 6 := scale.x][b + 7 := scale.y][b + 8 := scale.z]
  }

  /** Writing a slot then reading it returns what was written; every other slot reads as before. */
  lemma SlotRoundTrip(data: seq<real>, i: nat, j: nat, position: Vec3, rotation: Vec3, scale: Vec3)
    requires SlotFloats * i + SlotFloats <= |data| && SlotFloats * j + SlotFloats <= |data|
    ensures ReadSlot(WriteSlot(data, i, position, rotation, scale), i) == (position, rotation, scale)
    ensures j != i ==> ReadSlot(WriteSlot(data, i, position, rotation, scale), j) == ReadSlot(data, j)
    ensures WriteSlot(data, i, position, rotation, scale)[SlotFloats * i .. SlotFloats * i + SlotFloats] == Slot(position, rotation, scale)
  {
  }

  /** Writing back what was read changes nothing, as when the UI fields are not dragged. */
  lemma WriteBackUnchanged(data: seq<real>, i: nat)
    requires SlotFloats * i + SlotFloats <= |data|
    ensures WriteSlot(data, i, ReadSlot(data, i).0, ReadSlot(data, i).1, ReadSlot(data, i).2) == data
  {
  }

  // ---------------------------------------------------------------------------
  // The plot ring buffer in BuildUI

  const PlotSlots: nat := 90
  const PlotInterval: real := 1.0 / 60.0

  /** The four statics of the plot: samples, next slot, phase and the time of the next sample. */
  datatype Plot = Plot(vals: seq<real>, valOffset: int, phase: real, refreshTime: real)

  ghost predicate PlotValid(p: Plot) {
    |p.vals| == PlotSlots && 0 <= p.valOffset < PlotSlots
  }

  /** The sample the plot records: `sin(phase * refreshTime)`. */
  function Sample(sin: RealFn, phase: real, time: real): real {
    Eval(sin, phase * time)
  }

  /** One pass of the catch-up loop: sample, advance the slot, grow the phase, schedule the next sample. */
  function PlotStep(p: Plot, sin: RealFn): (q: Plot)
    requires PlotValid(p)
    ensures PlotValid(q)
  {
    var offset := (p.valOffset + 1) % PlotSlots;
    Plot(p.vals[p.valOffset := Sample(sin, p.phase, p.refreshTime)],
         offset,
         p.phase + 0.1 * offset as real,
         p.refreshTime + PlotInterval)
  }

  /** One step writes exactly the slot it was at and moves one slot on, wrapping after the last. */
  lemma PlotStepWritesOneSlot(p: Plot, sin: RealFn)
    requires PlotValid(p)
    ensures PlotStep(p, sin).vals[p.valOffset] == Sample(sin, p.phase, p.refreshTime)
    ensures forall k :: 0 <= k < PlotSlots && k != p.valOffset ==> PlotStep(p, sin).vals[k] == p.vals[k]
    ensures PlotStep(p, sin).valOffset == (if p.valOffset == PlotSlots - 1 then 0 else p.valOffset + 1)
  {
    StepUpMod(p.valOffset, PlotSlots);
  }

  /** Steps remaining until the sample schedule passes `now`. */
  function StepsBehind(refreshTime: real, now: real): int {
    ((now - refreshTime) * 60.0).Floor
  }

  /** The whole while-loop: step until the next sample time is no longer in the past. */
  function PlotCatchUp(p: Plot, now: real, sin: RealFn): (q: Plot)
    requires PlotValid(p)
    ensures PlotValid(q)
    ensures q.refreshTime >= now || q == p
    decreases StepsBehind(p.refreshTime, now)
  {
    if p.refreshTime < now then
      StepsBehindDecreases(p.refreshTime, now);
      PlotCatchUp(PlotStep(p, sin), now, sin)
    else p
  }

  lemma StepsBehindDecreases(r: real, now: real)
    requires r < now
    ensures 0 <= StepsBehind(r, now)
    ensures StepsBehind(r + PlotInterval, now) == StepsBehind(r, now) - 1
  {
    assert (now - (r + PlotInterval)) * 60.0 == (now - r) * 60.0 - 1.0;
  }

  /**
   * Catching up leaves the next sample time within one interval after `now`
   * when it starts behind, and changes nothing when it does not.
   */
  lemma {:induction false} PlotCatchUpLands(p: Plot, now: real, sin: RealFn)
    requires PlotValid(p)
    ensures p.refreshTime < now ==> now <= PlotCatchUp(p, now, sin).refreshTime < now + PlotInterval
    ensures p.refreshTime >= now ==> PlotCatchUp(p, now, sin) == p
    decreases StepsBehind(p.refreshTime, now)
  {
    if p.refreshTime < now {
      StepsBehindDecreases(p.refreshTime, now);
      PlotCatchUpLands(PlotStep(p, sin), now, sin);
    }
  }
}
