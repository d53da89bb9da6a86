/**
 * The earlier physics world of src/physWorld.ts: a public material registry
 * in which the constructor registers only GROUND, and a debug flag that is
 * fixed to true, so the debug ground plane is always added.
 */
module LegacyPhysWorld {
  import opened Wrappers
  import opened Materials
  import PhysWorld

  class World {
    var materials: map<MaterialName, Material>
    const isDebugging: bool
    var hasDebugPlane: bool
    /** The last step the controller took on this world, if any. */
    var lastStep: Option<PhysWorld.StepCall>

    constructor ()
      ensures materials.Keys == {GroundMaterial}
      ensures fresh(materials[GroundMaterial]) && materials[GroundMaterial].name == GroundMaterial
      ensures isDebugging && hasDebugPlane && lastStep == None
    {
      materials := map[];
      isDebugging := true;
      hasDebugPlane := false;
      lastStep := None;
      new;
      var ground := CreateMaterial(GroundMaterial);
      hasDebugPlane := isDebugging;
    }

    /** `createMaterial(name)`: create-or-replace; other entries unchanged. */
    method CreateMaterial(name: MaterialName) returns (m: Material)
      modifies this`materials
      ensures fresh(m) && m.name == name
      ensures materials == old(materials)[name := m]
      ensures GetMaterial(name) == Some(m)
      ensures forall n :: n != name ==> GetMaterial(n) == old(GetMaterial(n))
    {
      m := new Material(name);
      materials := materials[name := m];
    }

    /** `world.step(fixed, dt, max)`, which the controller calls on the
        world this wrapper exposes. */
    method Step(fixedStep: real, dt: real, maxSubSteps: int)
      modifies this`lastStep
      ensures lastStep == Some(PhysWorld.StepCall(fixedStep, dt, maxSubSteps))
    {
      lastStep := Some(PhysWorld.StepCall(fixedStep, dt, maxSubSteps));
    }

    /** `getMaterial(name)`: the registered material, or `undefined` (PUCK and
        WALL until somebody creates them). */
    function GetMaterial(name: MaterialName): (r: Option<Material>)
      reads this
      ensures r.Some? <==> name in materials
      ensures r.Some? ==> r.value == materials[name]
    {
      if name in materials then Some(materials[name]) else None
    }
  }

  /** Right after construction, PUCK is not registered. */
  lemma PuckUnregisteredAtStart(w: World)
    requires w.materials.Keys == {GroundMaterial}
    ensures w.GetMaterial(PuckMaterial) == None && w.GetMaterial(WallMaterial) == None
  {
  }
}
