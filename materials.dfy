/** The physics materials both physics-world files register by name. */
module Materials {
  /** The `Materials` enumeration: 'groundMaterial', 'wallMaterial', 'puckMaterial'. */
  datatype MaterialName = GroundMaterial | WallMaterial | PuckMaterial

  /** A physics-engine material; only its name is modelled. */
  class Material {
    const name: MaterialName

    constructor (name: MaterialName)
      ensures this.name == name
    {
      this.name := name;
    }
  }
}
