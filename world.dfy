/** Values shared by the entity models: block coordinates and an optional value. */
module World {

  /** An optional value; `None` stands for a property a block state does not have. */
  datatype Option<T> = None | Some(value: T)

  /** Integer block coordinates (x, y, z) in world space. */
  datatype BlockPos = BlockPos(x: int, y: int, z: int)

  /** The block directly underneath `p`: one step down the Y axis. */
  function Below(p: BlockPos): (q: BlockPos)
  {
    BlockPos(p.x, p.y - 1, p.z)
  }
}
