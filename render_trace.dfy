/**
 * What one frame asks of the graphics API, as a trace. Each object draw is
 * the list of requests made to its shader, textures and geometry, in call
 * order; a frame is the list of passes `Scene::Draw` makes: shadow draws,
 * then shaded draws, then the environment backdrop. Matrices and GLSL are
 * not modelled: a transform upload carries the pose it is computed from.
 */
module RenderTrace {
  import opened Wrappers
  import opened Vectors

  /** The four shader programs the scene creates. */
  datatype ShaderKind = MeshShader | InfiniteQuadShader | ShadowShader | EnvironmentShader

  /**
   * A material: the shader it draws with, its Phong coefficients, and the
   * handles of its optional texture and optional environment cube map.
   */
  datatype Material = Material(shader: ShaderKind, ka: Vec3, kd: Vec3, ks: Vec3, shininess: real,
                               texture: Option<nat>, environmentMap: Option<nat>)

  /** The transform state of an object: position, non-uniform scale and yaw in degrees. */
  datatype Pose = Pose(position: Vec3, scaling: Vec3, orientation: real)

  /** Which class an object is: the base `Object`, `AvatarObject` or `BackgroundObject`. */
  datatype Behaviour = StaticObject | AvatarObject | BackgroundObject

  /** What drawing an object reads: its class, its mesh (material and geometry handle) and its pose. */
  datatype ObjectView = ObjectView(behaviour: Behaviour, material: Material, geometry: nat, pose: Pose)

  /** The light: ambient and emitted colours and a homogeneous world position. */
  datatype LightState = LightState(la: Vec3, le: Vec3, worldLightPosition: Vec4)

  /** A point light at `p`: the position with `w == 1`. */
  function PointLight(p: Vec3): (h: Vec4)
    ensures h.w == 1.0 && Cartesian(h) == p
  {
    Vec4(p.x, p.y, p.z, 1.0)
  }

  /** A directional light along `d`: the direction with `w == 0`. */
  function DirectionalLight(d: Vec3): (h: Vec4)
    ensures h.w == 0.0 && Cartesian(h) == d
  {
    Vec4(d.x, d.y, d.z, 0.0)
  }

  /** The `w` component alone tells the two kinds apart: no point light is a directional light. */
  lemma LightKindsDisjoint(p: Vec3, d: Vec3)
    ensures PointLight(p) != DirectionalLight(d)
    ensures PointLight(p) == PointLight(d) ==> p == d
  {
  }

  /** The fixed overhead position `DrawShadow` moves the light to. */
  const Overhead := Vec3(0.0, 100.0, 0.0)

  /** The light as `DrawShadow` leaves it: colours kept, a point light overhead. */
  function ShadowLight(l: LightState): (r: LightState)
    ensures r.la == l.la && r.le == l.le
    ensures r.worldLightPosition.w == 1.0 && Cartesian(r.worldLightPosition) == Overhead
  {
    l.(worldLightPosition := PointLight(Overhead))
  }

  /** One request made while drawing. Uploads name the shader object they are made through. */
  datatype Call =
    | UseProgram(program: ShaderKind)
    | UploadTransforms(target: ShaderKind, pose: Pose)
    | UploadLightAttributes(target: ShaderKind, light: LightState)
    | UploadEyePosition(target: ShaderKind, eye: Vec3)
    | UploadSamplerID(target: ShaderKind)
    | BindTexture(texture: nat)
    | UploadMaterialAttributes(target: ShaderKind, ka: Vec3, kd: Vec3, ks: Vec3, shininess: real)
    | UploadSamplerCubeID(target: ShaderKind)
    | BindCubeMap(cubeMap: nat)
    | UploadEnvironmentIndicator(target: ShaderKind, indicator: int)
    | DrawGeometry(geometry: nat)

  /**
   * `Material::UploadAttributes`: with a texture, the sampler, the texture
   * and the material coefficients; then with an environment map the cube
   * sampler, the cube map and indicator 1, without one indicator 0.
   */
  function MaterialCalls(m: Material): seq<Call>
  {
    (if m.texture.Some? then
       [UploadSamplerID(m.shader), BindTexture(m.texture.value),
        UploadMaterialAttributes(m.shader, m.ka, m.kd, m.ks, m.shininess)]
     else [])
    + (if m.environmentMap.Some? then
         [UploadSamplerCubeID(m.shader), BindCubeMap(m.environmentMap.value), UploadEnvironmentIndicator(m.shader, 1)]
       else [UploadEnvironmentIndicator(m.shader, 0)])
  }

  /**
   * The material uploads end with exactly one environment indicator, 1 with
   * an environment map and 0 without. With a texture they start with its
   * sampler, the texture and the coefficients, in that order; with a map they
   * end with the cube sampler, the cube map and the indicator, in that order;
   * without one, none of its calls appears. No program switch and no draw.
   */
  lemma MaterialUploads(m: Material)
    ensures var r := MaterialCalls(m);
      && |r| == (if m.texture.Some? then 3 else 0) + (if m.environmentMap.Some? then 3 else 1)
      && r[|r| - 1] == UploadEnvironmentIndicator(m.shader, if m.environmentMap.Some? then 1 else 0)
      && (forall i :: 0 <= i < |r| - 1 ==> !r[i].UploadEnvironmentIndicator?)
      && (m.texture.Some? ==>
            r[..3] == [UploadSamplerID(m.shader), BindTexture(m.texture.value),
                       UploadMaterialAttributes(m.shader, m.ka, m.kd, m.ks, m.shininess)])
      && (m.texture.None? ==>
            forall i :: 0 <= i < |r| ==> !r[i].UploadSamplerID? && !r[i].BindTexture? && !r[i].UploadMaterialAttributes?)
      && (m.environmentMap.Some? ==>
            r[|r| - 3..] == [UploadSamplerCubeID(m.shader), BindCubeMap(m.environmentMap.value),
                             UploadEnvironmentIndicator(m.shader, 1)])
      && (m.environmentMap.None? ==>
            forall i :: 0 <= i < |r| ==> !r[i].UploadSamplerCubeID? && !r[i].BindCubeMap?)
      && (forall i :: 0 <= i < |r| ==> !r[i].UseProgram? && !r[i].DrawGeometry?)
  {
  }

  /** The `UploadAttributes(shader)` hook: a no-op on the base class, the model transforms otherwise. */
  function TransformCalls(b: Behaviour, target: ShaderKind, pose: Pose): (r: seq<Call>)
    ensures r == [] <==> b == StaticObject
    ensures |r| <= 1
    ensures forall i :: 0 <= i < |r| ==> r[i] == UploadTransforms(target, pose)
  {
    if b == StaticObject then [] else [UploadTransforms(target, pose)]
  }

  /**
   * The calls of one object draw through `program`, with `light` uploaded:
   * run the program, the transform hook, light, eye, then `Mesh::Draw`
   * (material uploads through the material's own shader, then the geometry).
   */
  function ObjectCalls(o: ObjectView, program: ShaderKind, light: LightState, eye: Vec3): seq<Call>
  {
    [UseProgram(program)] + TransformCalls(o.behaviour, program, o.pose)
    + [UploadLightAttributes(program, light), UploadEyePosition(program, eye)]
    + MaterialCalls(o.material) + [DrawGeometry(o.geometry)]
  }

  /**
   * An object draw runs its program first and draws its geometry last, with
   * no other program switch or draw between, and uploads `light` and no
   * other light. An avatar or background object uploads its own pose through
   * that program right after switching to it; a base-class object uploads no
   * transform.
   */
  lemma ObjectDrawShape(o: ObjectView, program: ShaderKind, light: LightState, eye: Vec3)
    ensures var r := ObjectCalls(o, program, light, eye);
      && |r| >= 5
      && r[0] == UseProgram(program)
      && r[|r| - 1] == DrawGeometry(o.geometry)
      && (forall i :: 0 < i < |r| ==> !r[i].UseProgram?)
      && (forall i :: 0 <= i < |r| - 1 ==> !r[i].DrawGeometry?)
      && (forall i :: 0 <= i < |r| && r[i].UploadLightAttributes? ==> r[i] == UploadLightAttributes(program, light))
      && UploadLightAttributes(program, light) in r
      && (o.behaviour != StaticObject ==> r[1] == UploadTransforms(program, o.pose))
      && (forall i :: 0 <= i < |r| && r[i].UploadTransforms? ==> r[i] == UploadTransforms(program, o.pose))
      && (o.behaviour == StaticObject ==> forall i :: 0 <= i < |r| ==> !r[i].UploadTransforms?)
  {
    MaterialUploads(o.material);
  }

  /** `Object::Draw`: an object draw through the material's shader with the current light. */
  function ShadeCalls(o: ObjectView, light: LightState, eye: Vec3): seq<Call>
  {
    ObjectCalls(o, o.material.shader, light, eye)
  }

  /**
   * `Object::DrawShadow`: an object draw through the shadow shader, with the
   * light first moved overhead (the light before the call is `light`).
   */
  function ShadowCalls(o: ObjectView, light: LightState, eye: Vec3): seq<Call>
  {
    ObjectCalls(o, ShadowShader, ShadowLight(light), eye)
  }

  /** A shadow draw sets the overhead point light before uploading it, and uploads no other light. */
  lemma ShadowDrawUploadsOverheadLight(o: ObjectView, light: LightState, eye: Vec3)
    ensures var r := ShadowCalls(o, light, eye);
      && r[0] == UseProgram(ShadowShader)
      && UploadLightAttributes(ShadowShader, ShadowLight(light)) in r
      && forall i :: 0 <= i < |r| && r[i].UploadLightAttributes? ==>
           r[i].light.worldLightPosition == Vec4(0.0, 100.0, 0.0, 1.0)
  {
    var r := ShadowCalls(o, light, eye);
    ObjectDrawShape(o, ShadowShader, ShadowLight(light), eye);
    forall i | 0 <= i < |r| && r[i].UploadLightAttributes?
      ensures r[i].light.worldLightPosition == Vec4(0.0, 100.0, 0.0, 1.0)
    {
      assert r[i] == UploadLightAttributes(ShadowShader, ShadowLight(light));
    }
  }

  /** One pass of a frame. */
  datatype Pass =
    | ShadowPass(obj: nat, calls: seq<Call>)
    | ShadedPass(obj: nat, calls: seq<Call>)
    | EnvironmentPass

  // ---------------------------------------------------------------------------
  // The shadow loop bound

  /** `size_t` is 64 bits wide. */
  const SizeRange: nat := 0x1_0000_0000_0000_0000

  /**
   * The bound of the shadow loop as written, `objects.size() - 1` computed in
   * `size_t`: one less than the size, wrapping to the largest value for an
   * empty list (the `int` counter is converted to `size_t` for the comparison).
   */
  function ShadowLoopBound(n: nat): (r: nat)
    requires n < SizeRange
    ensures r < SizeRange
    ensures n >= 1 ==> r == n - 1
    ensures n == 0 ==> r == SizeRange - 1
  {
    (n - 1) % SizeRange
  }

  /** With no objects, the loop as written would run with `i == 0` and read `objects[0]` of an empty list. */
  lemma EmptySceneShadowLoopOverruns()
    ensures ShadowLoopBound(0) > 0
  {
  }

  /**
   * How many objects cast shadows: all but the last, which is the ground;
   * none for an empty list.
   */
  function ShadowCasters(n: nat): (r: nat)
    ensures r <= n
    ensures r == 0 <==> n <= 1
    ensures n >= 1 ==> r == n - 1
  {
    if n == 0 then 0 else n - 1
  }

  /** The corrected bound agrees with the loop as written on every non-empty list. */
  lemma ShadowLoopBoundWhenNonEmpty(n: nat)
    requires 1 <= n < SizeRange
    ensures ShadowLoopBound(n) == ShadowCasters(n)
  {
  }

  // ---------------------------------------------------------------------------
  // The frame

  /** The shadow draws of objects `0 .. k-1`, in order, each moving the light overhead first. */
  function ShadowPasses(views: seq<ObjectView>, k: nat, light: LightState, eye: Vec3): (r: seq<Pass>)
    requires k <= |views|
    ensures |r| == k
  {
    if k == 0 then []
    else ShadowPasses(views, k - 1, light, eye) + [ShadowPass(k - 1, ShadowCalls(views[k - 1], light, eye))]
  }

  /** The shaded draws of objects `0 .. k-1`, in order, all with `light`. */
  function ShadedPasses(views: seq<ObjectView>, k: nat, light: LightState, eye: Vec3): (r: seq<Pass>)
    requires k <= |views|
    ensures |r| == k
  {
    if k == 0 then []
    else ShadedPasses(views, k - 1, light, eye) + [ShadedPass(k - 1, ShadeCalls(views[k - 1], light, eye))]
  }

  /** The light after the shadow loop: overhead once any object cast a shadow, never restored. */
  function LightAfterShadows(light: LightState, n: nat): (r: LightState)
    ensures n >= 2 ==> r == ShadowLight(light)
    ensures n <= 1 ==> r == light
  {
    if ShadowCasters(n) == 0 then light else ShadowLight(light)
  }

  /** `Scene::Draw`: shadows of all objects but the last, shaded draws of all, the environment last. */
  function FrameTrace(views: seq<ObjectView>, light: LightState, eye: Vec3): (r: seq<Pass>)
    ensures |r| == ShadowCasters(|views|) + |views| + 1
    ensures r[|r| - 1] == EnvironmentPass
  {
    ShadowPasses(views, ShadowCasters(|views|), light, eye)
    + ShadedPasses(views, |views|, LightAfterShadows(light, |views|), eye)
    + [EnvironmentPass]
  }

  lemma {:induction false} ShadowPassAt(views: seq<ObjectView>, k: nat, light: LightState, eye: Vec3, i: nat)
    requires i < k <= |views|
    ensures ShadowPasses(views, k, light, eye)[i] == ShadowPass(i, ShadowCalls(views[i], light, eye))
  {
    if i < k - 1 {
      ShadowPassAt(views, k - 1, light, eye, i);
    }
  }

  lemma {:induction false} ShadedPassAt(views: seq<ObjectView>, k: nat, light: LightState, eye: Vec3, i: nat)
    requires i < k <= |views|
    ensures ShadedPasses(views, k, light, eye)[i] == ShadedPass(i, ShadeCalls(views[i], light, eye))
  {
    if i < k - 1 {
      ShadedPassAt(views, k - 1, light, eye, i);
    }
  }

  /**
   * The frame, position by position: the shadow draw of object `i` at `i`
   * for every object but the last, then the shaded draw of object `i` at
   * `ShadowCasters(n) + i` for every object, then the environment.
   */
  lemma FrameOrder(views: seq<ObjectView>, light: LightState, eye: Vec3)
    ensures var n, c, r := |views|, ShadowCasters(|views|), FrameTrace(views, light, eye);
      && (forall i :: 0 <= i < c ==> r[i] == ShadowPass(i, ShadowCalls(views[i], light, eye)))
      && (forall i :: 0 <= i < n ==> r[c + i] == ShadedPass(i, ShadeCalls(views[i], LightAfterShadows(light, n), eye)))
      && r[c + n] == EnvironmentPass
  {
    var n, c, r := |views|, ShadowCasters(|views|), FrameTrace(views, light, eye);
    var shadows := ShadowPasses(views, c, light, eye);
    var shaded := ShadedPasses(views, n, LightAfterShadows(light, n), eye);
    assert r == shadows + shaded + [EnvironmentPass];
    forall i | 0 <= i < c
      ensures r[i] == ShadowPass(i, ShadowCalls(views[i], light, eye))
    {
      ShadowPassAt(views, c, light, eye, i);
    }
    forall i | 0 <= i < n
      ensures r[c + i] == ShadedPass(i, ShadeCalls(views[i], LightAfterShadows(light, n), eye))
    {
      ShadedPassAt(views, n, LightAfterShadows(light, n), eye, i);
    }
  }

  /**
   * The three phases never interleave: every shadow draw comes before every
   * shaded draw, and only the last pass is the environment.
   */
  lemma PhasesInOrder(views: seq<ObjectView>, light: LightState, eye: Vec3)
    ensures var c, r := ShadowCasters(|views|), FrameTrace(views, light, eye);
      && (forall i :: 0 <= i < |r| ==> (r[i].ShadowPass? <==> i < c) && (r[i].ShadedPass? <==> c <= i < |r| - 1))
      && (forall i, j :: 0 <= i < |r| && 0 <= j < |r| && r[i].ShadowPass? && r[j].ShadedPass? ==> i < j)
      && (forall i :: 0 <= i < |r| - 1 ==> !r[i].EnvironmentPass?)
  {
    var n, c, r := |views|, ShadowCasters(|views|), FrameTrace(views, light, eye);
    var after := LightAfterShadows(light, n);
    var shadows := ShadowPasses(views, c, light, eye);
    var shaded := ShadedPasses(views, n, after, eye);
    assert r == shadows + shaded + [EnvironmentPass];
    forall i | 0 <= i < |r|
      ensures r[i].ShadowPass? <==> i < c
      ensures r[i].ShadedPass? <==> c <= i < c + n
    {
      if i < c {
        ShadowPassAt(views, c, light, eye, i);
        assert r[i] == shadows[i];
      } else if i < c + n {
        ShadedPassAt(views, n, after, eye, i - c);
        assert r[i] == shaded[i - c];
      }
    }
  }

  /**
   * The ground (the last object) casts no shadow, yet is shaded; every other
   * object casts exactly one shadow.
   */
  lemma GroundCastsNoShadow(views: seq<ObjectView>, light: LightState, eye: Vec3)
    requires |views| >= 1
    ensures var r := FrameTrace(views, light, eye);
      && (forall i :: 0 <= i < |r| && r[i].ShadowPass? ==> r[i].obj < |views| - 1)
      && (forall k :: 0 <= k < |views| - 1 ==> r[k].ShadowPass? && r[k].obj == k)
      && r[|views| - 1 + |views| - 1].ShadedPass? && r[|views| - 1 + |views| - 1].obj == |views| - 1
  {
    var n, c, r := |views|, ShadowCasters(|views|), FrameTrace(views, light, eye);
    FrameOrder(views, light, eye);
    PhasesInOrder(views, light, eye);
    assert r[c + (n - 1)] == ShadedPass(n - 1, ShadeCalls(views[n - 1], LightAfterShadows(light, n), eye));
  }

  /**
   * The three-object scene (avatar, tree, ground): two shadow draws, for
   * objects 0 and 1, then three shaded draws under the overhead light the
   * shadow draws left behind, then the environment.
   */
  lemma ThreeObjectFrame(views: seq<ObjectView>, light: LightState, eye: Vec3)
    requires |views| == 3
    ensures FrameTrace(views, light, eye) ==
      [ ShadowPass(0, ShadowCalls(views[0], light, eye)),
        ShadowPass(1, ShadowCalls(views[1], light, eye)),
        ShadedPass(0, ShadeCalls(views[0], ShadowLight(light), eye)),
        ShadedPass(1, ShadeCalls(views[1], ShadowLight(light), eye)),
        ShadedPass(2, ShadeCalls(views[2], ShadowLight(light), eye)),
        EnvironmentPass ]
  {
    FrameOrder(views, light, eye);
  }

  /** With a single object nothing casts a shadow and the light reaches the shaded draw unchanged. */
  lemma SingleObjectFrame(views: seq<ObjectView>, light: LightState, eye: Vec3)
    requires |views| == 1
    ensures FrameTrace(views, light, eye) == [ShadedPass(0, ShadeCalls(views[0], light, eye)), EnvironmentPass]
  {
    FrameOrder(views, light, eye);
  }
}
