/**
 * What the rigid body asks of its surroundings: the block at a point of the
 * world and the space's three medium densities and gravity.
 */
module Space {
  import opened Wrappers
  import opened Geometry

  datatype Block = Air | Water | Lava | Other(id: string)

  /**
   * The world's answer for a point: `None` when the chunk holding it is not
   * loaded. Flooring the point to a block position happens inside.
   */
  type World = Vec3 -> Option<Block>

  /** The densities and gravity that the physics space is configured with. */
  datatype Config = Config(airDensity: real, waterDensity: real, lavaDensity: real, gravity: Vec3)

  /** `BoundingBox.getMax`: the maximum corner of a box with the given centre and half extent. */
  function MaxCorner(center: Vec3, extent: Vec3): Vec3 {
    Add(center, extent)
  }

  /**
   * The density of the medium in `block`: lava is tested first, then water,
   * and everything else, an unloaded chunk included, is air.
   */
  function MediumDensity(block: Option<Block>, cfg: Config): (d: real)
    ensures block == Some(Lava) ==> d == cfg.lavaDensity
    ensures block == Some(Water) ==> d == cfg.waterDensity
    ensures block != Some(Lava) && block != Some(Water) ==> d == cfg.airDensity
    ensures d == cfg.airDensity || d == cfg.waterDensity || d == cfg.lavaDensity
  {
    var b := block.GetOr(Air);
    if b == Lava then cfg.lavaDensity
    else if b == Water then cfg.waterDensity
    else cfg.airDensity
  }
}
