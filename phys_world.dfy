/**
 * The physics world of src/core/physWorld.ts: a registry of named materials,
 * a debug flag and the stepping call. The rigid-body simulation itself is
 * the physics library's; only the arguments passed to its step are kept.
 */
module PhysWorld {
  import opened Wrappers
  import opened Materials

  /** The fixed simulation step, in seconds. */
  const FIXED_TIME_STEPS: real := 1.0 / 60.0
  /** The cap on sub-steps per call. */
  const MAX_TIME_STEPS: int := 3

  /** The arguments of one `world.step(fixed, dt, max)` call. */
  datatype StepCall = StepCall(fixedStep: real, elapsed: real, maxSubSteps: int)

  class World {
    var materials: map<MaterialName, Material>
    var debug: bool
    /** Whether the constructor added the debug ground plane. */
    var hasDebugPlane: bool
    /** The last step handed to the physics library, if any. */
    var lastStep: Option<StepCall>

    /** The constructor registers PUCK, WALL then GROUND, each as a new
        material; the debug plane is decided while `debug` is still false,
        so it is never added. */
    constructor ()
      ensures materials.Keys == {PuckMaterial, WallMaterial, GroundMaterial}
      ensures forall n :: n in materials ==> fresh(materials[n]) && materials[n].name == n
      ensures !debug && !hasDebugPlane && lastStep == None
    {
      materials := map[];
      debug := false;
      hasDebugPlane := false;
      lastStep := None;
      new;
      var puck := CreateMaterial(PuckMaterial);
      var wall := CreateMaterial(WallMaterial);
      var ground := CreateMaterial(GroundMaterial);
      hasDebugPlane := debug;
    }

    /** `createMaterial(name)`: a new material replaces whatever was registered
        under the name; other names keep their entries. */
    method CreateMaterial(name: MaterialName) returns (m: Material)
      modifies this`materials
      ensures fresh(m) && m.name == name
      ensures materials == old(materials)[name := m]
      ensures GetMaterial(name) == Some(m)
      ensures forall n :: n != name ==> GetMaterial(n) == old(GetMaterial(n))
    {
      m := new Material(name);
      materials := materials[name := m];
    }

    /** `getMaterial(name)`: the registered material, or `undefined`. */
    function GetMaterial(name: MaterialName): (r: Option<Material>)
      reads this
      ensures r.Some? <==> name in materials
      ensures r.Some? ==> r.value == materials[name]
    {
      if name in materials then Some(materials[name]) else None
    }

    /** `setDebugDraw(value)` only stores the flag. */
    method SetDebugDraw(value: bool)
      modifies this`debug
      ensures debug == value
    {
      debug := value;
    }

    /** `update(dt)`: one step with the fixed step 1/60 s and at most 3 sub-steps. */
    method Update(dt: real)
      modifies this`lastStep
      ensures lastStep == Some(StepCall(FIXED_TIME_STEPS, dt, MAX_TIME_STEPS))
    {
      lastStep := Some(StepCall(FIXED_TIME_STEPS, dt, MAX_TIME_STEPS));
    }
  }
}
