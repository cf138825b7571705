/**
 * The host side of infection cursors: the surface-infector cursor entity, reduced to
 * the configuration its setters write, and the level whose entity list it joins.
 * The cursor's spreading behaviour is not part of this model.
 */
module Infection {
  import opened World

  class CursorSurfaceInfectorEntity {
    const level: Level
    var pos: BlockPos
    var maxInfections: int
    var maxRange: int
    var tickIntervalMilliseconds: int
    var searchIterationsPerTick: int

    /** A new cursor in `level`; its own default configuration is left unspecified. */
    constructor (level: Level)
      ensures this.level == level
    {
      this.level := level;
    }

    method SetPos(x: int, y: int, z: int)
      modifies this`pos
      ensures pos == BlockPos(x, y, z)
    {
      pos := BlockPos(x, y, z);
    }

    method SetMaxInfections(n: int)
      modifies this`maxInfections
      ensures maxInfections == n
    {
      maxInfections := n;
    }

    method SetMaxRange(n: int)
      modifies this`maxRange
      ensures maxRange == n
    {
      maxRange := n;
    }

    method SetTickIntervalMilliseconds(n: int)
      modifies this`tickIntervalMilliseconds
      ensures tickIntervalMilliseconds == n
    {
      tickIntervalMilliseconds := n;
    }

    method SetSearchIterationsPerTick(n: int)
      modifies this`searchIterationsPerTick
      ensures searchIterationsPerTick == n
    {
      searchIterationsPerTick := n;
    }
  }

  /** A level, reduced to the cursors that have been added to it, in order. */
  class Level {
    var entities: seq<CursorSurfaceInfectorEntity>

    constructor ()
      ensures entities == []
    {
      entities := [];
    }

    /** `addFreshEntity`: the entity joins the level after every entity already in it. */
    method AddFreshEntity(e: CursorSurfaceInfectorEntity)
      modifies this`entities
      ensures entities == old(entities) + [e]
    {
      entities := entities + [e];
    }
  }
}
