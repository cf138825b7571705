/**
 * The sculk bee infector: which block states it accepts as flowers, the infection
 * cursor it starts when it pollinates, and the mass it refunds when it leaves the world.
 */
module SculkBeeInfector {
  import opened World
  import opened JavaNumerics
  import opened Infection
  import opened Gravemind

  datatype DoubleBlockHalf = Upper | Lower

  /** The blocks the flower rule tells apart; every other block is `OtherBlock`. */
  datatype Block = Sunflower | Grass | TallGrass | Fern | OtherBlock(id: nat)

  /**
   * A block state: its block, its WATERLOGGED property (None when the block has none),
   * whether its block is in the flowers tag, and its HALF property (None when absent).
   */
  datatype BlockStateData = BlockStateData(
    block: Block,
    waterlogged: Option<bool>,
    inFlowersTag: bool,
    half: Option<DoubleBlockHalf>)

  /** Sunflower states always carry the HALF property. */
  type BlockState = s: BlockStateData | s.block == Sunflower ==> s.half.Some?
    witness BlockStateData(OtherBlock(0), None, false, None)

  /** The state has the WATERLOGGED property and it is set. */
  predicate IsWaterlogged(s: BlockState)
  {
    s.waterlogged == Some(true)
  }

  /** Grass, tall grass and fern. */
  predicate IsGrassLike(b: Block)
  {
    b == Grass || b == TallGrass || b == Fern
  }

  /** Cursor configuration the bee uses when it pollinates. */
  const CURSOR_MAX_INFECTIONS: int := 100
  const CURSOR_MAX_RANGE: int := 100
  const CURSOR_TICK_INTERVAL_MILLISECONDS: int := 500
  const CURSOR_SEARCH_ITERATIONS_PER_TICK: int := 10

  /**
   * The bee's flower rule: a waterlogged state never qualifies; a state in the flowers
   * tag qualifies unless it is the lower half of a sunflower; an untagged state
   * qualifies only when it is grass, tall grass or fern.
   */
  function IsValidFlower(s: BlockState): (valid: bool)
    ensures valid <==>
              !IsWaterlogged(s) &&
              ((s.inFlowersTag && !(s.block == Sunflower && s.half == Some(Lower))) || IsGrassLike(s.block))
  {
    if s.waterlogged.Some? && s.waterlogged.value then false
    else if s.inFlowersTag then
      if s.block == Sunflower then s.half.value == Upper else true
    else if s.block == Grass || s.block == TallGrass || s.block == Fern then true
    else false
  }

  lemma WaterloggedNeverValid(s: BlockState)
    requires s.waterlogged == Some(true)
    ensures !IsValidFlower(s)
  {
  }

  lemma TaggedSunflowerValidIffUpper(s: BlockState)
    requires !IsWaterlogged(s) && s.inFlowersTag && s.block == Sunflower
    ensures IsValidFlower(s) <==> s.half == Some(Upper)
  {
  }

  lemma OtherTaggedFlowerValid(s: BlockState)
    requires !IsWaterlogged(s) && s.inFlowersTag && s.block != Sunflower
    ensures IsValidFlower(s)
  {
  }

  lemma UntaggedValidIffGrassLike(s: BlockState)
    requires !IsWaterlogged(s) && !s.inFlowersTag
    ensures IsValidFlower(s) <==> IsGrassLike(s.block)
  {
  }

  class SculkBeeInfectorEntity {
    const level: Level
    var blockPosition: BlockPos
    /** Current health; a real-valued stand-in for the engine's float. */
    var health: real
    /** `IS_VALID_FLOWER`: the bee's flower rule, fixed when the bee is created. */
    const isValidFlower: BlockState -> bool := IsValidFlower

    constructor (level: Level, blockPosition: BlockPos, health: real)
      ensures this.level == level && this.blockPosition == blockPosition && this.health == health
    {
      this.level := level;
      this.blockPosition := blockPosition;
      this.health := health;
    }

    /** `getIsFlowerValidPredicate`: always the bee's own flower rule. */
    function GetIsFlowerValidPredicate(): (isFlower: BlockState -> bool)
      ensures forall s :: isFlower(s) == IsValidFlower(s)
    {
      isValidFlower
    }

    /**
     * `executeCodeOnPollination`: adds exactly one fresh cursor to the level, one block
     * below the bee, configured for 100 infections within range 100, stepping every
     * 500 ms with 10 search iterations per tick.
     */
    method ExecuteCodeOnPollination()
      modifies level`entities
      ensures |level.entities| == |old(level.entities)| + 1
      ensures level.entities[..|old(level.entities)|] == old(level.entities)
      ensures var cursor := level.entities[|old(level.entities)|];
              && fresh(cursor)
              && cursor.level == level
              && cursor.pos == Below(blockPosition)
              && cursor.maxInfections == CURSOR_MAX_INFECTIONS
              && cursor.maxRange == CURSOR_MAX_RANGE
              && cursor.tickIntervalMilliseconds == CURSOR_TICK_INTERVAL_MILLISECONDS
              && cursor.searchIterationsPerTick == CURSOR_SEARCH_ITERATIONS_PER_TICK
    {
      var cursor := new CursorSurfaceInfectorEntity(level);
      cursor.SetPos(blockPosition.x, blockPosition.y - 1, blockPosition.z);
      cursor.SetMaxInfections(100);
      cursor.SetMaxRange(100);
      cursor.SetTickIntervalMilliseconds(500);
      cursor.SetSearchIterationsPerTick(10);
      level.AddFreshEntity(cursor);
    }

    /**
     * `onRemovedFromWorld`: credits the current health, cast to int, to the accumulated
     * mass. Nothing guards against a second call.
     */
    method OnRemovedFromWorld(memory: GravemindMemory)
      modifies memory`sculkAccumulatedMass
      ensures memory.sculkAccumulatedMass == old(memory.sculkAccumulatedMass) + FloatToInt(health)
    {
      memory.AddSculkAccumulatedMass(FloatToInt(health));
    }
  }

  /** Each removal notification credits again: two of them credit the refund twice. */
  method RemoveTwice(bee: SculkBeeInfectorEntity, memory: GravemindMemory)
    modifies memory`sculkAccumulatedMass
    ensures memory.sculkAccumulatedMass == old(memory.sculkAccumulatedMass) + 2 * FloatToInt(bee.health)
  {
    bee.OnRemovedFromWorld(memory);
    bee.OnRemovedFromWorld(memory);
  }

  /** A bee removed with 12 health credits exactly 12, a second notification 12 more. */
  method RemoveBeeWithTwelveHealth(level: Level, pos: BlockPos) returns (memory: GravemindMemory)
    ensures memory.sculkAccumulatedMass == 24
  {
    var bee := new SculkBeeInfectorEntity(level, pos, 12.0);
    memory := new GravemindMemory(0);
    bee.OnRemovedFromWorld(memory);
    FloatToIntExact(12);
    assert memory.sculkAccumulatedMass == 12;
    bee.OnRemovedFromWorld(memory);
  }

  /** Pollinating twice leaves two distinct cursors at the same spot. */
  method PollinateTwice(bee: SculkBeeInfectorEntity)
    modifies bee.level`entities
    ensures |bee.level.entities| == |old(bee.level.entities)| + 2
    ensures var n := |old(bee.level.entities)|;
            bee.level.entities[n] != bee.level.entities[n + 1] &&
            bee.level.entities[n].pos == bee.level.entities[n + 1].pos == Below(bee.blockPosition)
  {
    bee.ExecuteCodeOnPollination();
    bee.ExecuteCodeOnPollination();
  }
}
