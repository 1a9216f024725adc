/**
 * The mutable state of a frame: the global light, the key table, the
 * objects with their poses, and the scene that draws and moves them. Each
 * method is proved against the trace and movement specifications.
 */
module Scenes {
  import opened Vectors
  import opened RenderTrace
  import opened Movement

  /** The light: ambient and emitted colours and a homogeneous position (`w` 1 point, 0 directional). */
  class Light {
    var la: Vec3
    var le: Vec3
    var worldLightPosition: Vec4

    function State(): LightState
      reads this
    {
      LightState(la, le, worldLightPosition)
    }

    constructor (la: Vec3, le: Vec3, worldLightPosition: Vec4)
      ensures State() == LightState(la, le, worldLightPosition)
    {
      this.la, this.le, this.worldLightPosition := la, le, worldLightPosition;
    }

    /** Uploads the colours and the position through `shader`. */
    method UploadAttributes(shader: ShaderKind) returns (call: Call)
      ensures call == UploadLightAttributes(shader, State())
    {
      call := UploadLightAttributes(shader, LightState(la, le, worldLightPosition));
    }

    /** Makes this a point light at `pos`; the colours are kept. */
    method SetPointLightSource(pos: Vec3)
      modifies this
      ensures State() == old(State()).(worldLightPosition := PointLight(pos))
    {
      worldLightPosition := Vec4(pos.x, pos.y, pos.z, 1.0);
    }

    /** Makes this a directional light along `dir`; the colours are kept. */
    method SetDirectionalLightSource(dir: Vec3)
      modifies this
      ensures State() == old(State()).(worldLightPosition := DirectionalLight(dir))
    {
      worldLightPosition := Vec4(dir.x, dir.y, dir.z, 0.0);
    }
  }

  /** `keyboardState`: which of the 256 key codes are held down. */
  class Keyboard {
    const keyboardState: array<bool>

    ghost predicate Valid()
      reads this
    {
      keyboardState.Length == 256
    }

    /** No key is held at start-up (the table is zero-initialised). */
    constructor ()
      ensures Valid() && fresh(keyboardState)
      ensures forall k :: 0 <= k < 256 ==> !keyboardState[k]
    {
      keyboardState := new bool[256](_ => false);
    }

    /** The four keys the avatar reads. */
    function Controls(): Controls
      reads this, keyboardState
      requires Valid()
    {
      ControlsOf(keyboardState[..])
    }

    /** `onKeyboard`: marks `key` held; every other key is unchanged. */
    method OnKeyboard(key: Key)
      requires Valid()
      modifies keyboardState
      ensures keyboardState[..] == old(keyboardState[..])[key as int := true]
    {
      keyboardState[key] := true;
    }

    /** `onKeyboardUp`: marks `key` released; every other key is unchanged. */
    method OnKeyboardUp(key: Key)
      requires Valid()
      modifies keyboardState
      ensures keyboardState[..] == old(keyboardState[..])[key as int := false]
    {
      keyboardState[key] := false;
    }
  }

  /**
   * A drawn object: its class, its mesh (material and geometry handle) and
   * its pose, which only an avatar changes.
   */
  class Object {
    const behaviour: Behaviour
    const material: Material
    const geometry: nat
    var position: Vec3
    var scaling: Vec3
    var orientation: real

    function View(): ObjectView
      reads this
    {
      ObjectView(behaviour, material, geometry, Pose(position, scaling, orientation))
    }

    constructor (behaviour: Behaviour, material: Material, geometry: nat, position: Vec3, scaling: Vec3, orientation: real)
      ensures View() == ObjectView(behaviour, material, geometry, Pose(position, scaling, orientation))
    {
      this.behaviour, this.material, this.geometry := behaviour, material, geometry;
      this.position, this.scaling, this.orientation := position, scaling, orientation;
    }

    /** `Object::Draw`: the material's program, the transform hook, light, eye, then the mesh. */
    method Draw(light: Light, eye: Vec3) returns (calls: seq<Call>)
      ensures calls == ShadeCalls(View(), light.State(), eye)
    {
      var shader := material.shader;
      calls := [UseProgram(shader)];
      if behaviour != StaticObject {
        calls := calls + [UploadTransforms(shader, Pose(position, scaling, orientation))];
      }
      var lightCall := light.UploadAttributes(shader);
      calls := calls + [lightCall, UploadEyePosition(shader, eye)];
      calls := calls + MaterialCalls(material) + [DrawGeometry(geometry)];
    }

    /**
     * `Object::DrawShadow`: the shadow program, the transform hook, then the
     * light moved to the overhead point and uploaded, eye, then the mesh.
     * The light is left overhead.
     */
    method DrawShadow(light: Light, eye: Vec3) returns (calls: seq<Call>)
      modifies light
      ensures calls == ShadowCalls(View(), old(light.State()), eye)
      ensures light.State() == ShadowLight(old(light.State()))
    {
      calls := [UseProgram(ShadowShader)];
      if behaviour != StaticObject {
        calls := calls + [UploadTransforms(ShadowShader, Pose(position, scaling, orientation))];
      }
      light.SetPointLightSource(Vec3(0.0, 100.0, 0.0));
      var lightCall := light.UploadAttributes(ShadowShader);
      calls := calls + [lightCall, UploadEyePosition(ShadowShader, eye)];
      calls := calls + MaterialCalls(material) + [DrawGeometry(geometry)];
    }

    /**
     * `Move(dt)`: an avatar reads `w`, `s`, `a`, `d` and steps along the
     * heading it had on entry; other objects stay put.
     */
    method Move(dt: real, keyboard: Keyboard, heading: real -> (real, real))
      requires keyboard.Valid()
      modifies this
      ensures View() == MovedView(old(View()), dt, keyboard.Controls(), heading)
    {
      if behaviour == AvatarObject {
        var trig := heading(orientation);
        var c, s := trig.0, trig.1;
        if keyboard.keyboardState[KeyW] {
          position := Vec3(position.x - dt * c, position.y, position.z - dt * s);
        }
        if keyboard.keyboardState[KeyS] {
          position := Vec3(position.x + dt * c, position.y, position.z + dt * s);
        }
        if keyboard.keyboardState[KeyA] {
          orientation := orientation - dt * TurnRate;
        }
        if keyboard.keyboardState[KeyD] {
          orientation := orientation + dt * TurnRate;
        }
      }
    }
  }

  /** The scene's object list; the last object is the ground. */
  class Scene {
    var objects: seq<Object>

    /** No object appears twice, so moving one leaves the others alone. */
    ghost predicate Valid()
      reads this
    {
      forall i, j :: 0 <= i < j < |objects| ==> objects[i] != objects[j]
    }

    constructor (objects: seq<Object>)
      requires forall i, j :: 0 <= i < j < |objects| ==> objects[i] != objects[j]
      ensures this.objects == objects && Valid()
    {
      this.objects := objects;
    }

    /** What drawing reads of each object, in list order. */
    function Views(): (r: seq<ObjectView>)
      reads this, objects
      ensures |r| == |objects|
      ensures forall i :: 0 <= i < |objects| ==> r[i] == objects[i].View()
    {
      seq(|objects|, i reads this, objects requires 0 <= i < |objects| => objects[i].View())
    }

    /**
     * `Scene::Draw`: shadow draws for all objects but the last, shaded draws
     * for all, then the environment. The light is left where the last shadow
     * draw put it.
     */
    method Draw(light: Light, eye: Vec3) returns (frame: seq<Pass>)
      modifies light
      ensures frame == FrameTrace(old(Views()), old(light.State()), eye)
      ensures light.State() == LightAfterShadows(old(light.State()), |objects|)
    {
      ghost var views := Views();
      ghost var initial := light.State();
      var n := |objects|;
      frame := [];
      for i := 0 to ShadowCasters(n)
        invariant frame == ShadowPasses(views, i, initial, eye)
        invariant light.State() == if i == 0 then initial else ShadowLight(initial)
      {
        assert objects[i].View() == views[i];
        var calls := objects[i].DrawShadow(light, eye);
        assert calls == ShadowCalls(views[i], initial, eye);
        frame := frame + [ShadowPass(i, calls)];
      }
      ghost var shadows := frame;
      for i := 0 to n
        invariant frame == shadows + ShadedPasses(views, i, LightAfterShadows(initial, n), eye)
        invariant light.State() == LightAfterShadows(initial, n)
      {
        assert objects[i].View() == views[i];
        var calls := objects[i].Draw(light, eye);
        assert calls == ShadeCalls(views[i], LightAfterShadows(initial, n), eye);
        frame := frame + [ShadedPass(i, calls)];
      }
      frame := frame + [EnvironmentPass];
    }

    /** `Scene::Move`: every object moves in list order; only avatars change. */
    method Move(dt: real, keyboard: Keyboard, heading: real -> (real, real))
      requires Valid() && keyboard.Valid()
      modifies objects
      ensures forall i :: 0 <= i < |objects| ==>
                objects[i].View() == MovedView(old(objects[i].View()), dt, keyboard.Controls(), heading)
    {
      for i := 0 to |objects|
        invariant forall j :: 0 <= j < i ==>
                    objects[j].View() == MovedView(old(objects[j].View()), dt, keyboard.Controls(), heading)
        invariant forall j :: i <= j < |objects| ==> objects[j].View() == old(objects[j].View())
      {
        objects[i].Move(dt, keyboard, heading);
      }
    }
  }
}
