/**
 * The sculk zombie: its natural-spawn rule, its spawn constants and the way it
 * registers its AI goals with the engine's goal selectors.
 */
module SculkZombie {
  import opened World
  import opened Goals

  /** The world difficulty levels of the host engine. */
  datatype Difficulty = Peaceful | Easy | Normal | Hard

  /** Why the host engine is trying to spawn a mob. */
  datatype SpawnReason =
    | Natural | ChunkGeneration | Spawner | Structure | Breeding | MobSummoned | Jockey | Event
    | Conversion | Reinforcement | Triggered | Bucket | SpawnEgg | Command | Dispenser | Patrol

  /** Spawn rarity, relative to other mobs (zombies are 100). */
  const SPAWN_WEIGHT: int := 100
  /** Fewest zombies in one spawned group. */
  const SPAWN_MIN: int := 1
  /** Most zombies in one spawned group. */
  const SPAWN_MAX: int := 3
  /** Highest Y level at which a zombie may spawn naturally. */
  const SPAWN_Y_MAX: int := 15

  /**
   * Whether a natural spawn attempt at `pos` passes the zombie's own rule, in a
   * world of the given difficulty. Peaceful worlds refuse first, then every reason
   * other than natural spawning or chunk generation, then positions above SPAWN_Y_MAX.
   */
  function PassSpawnCondition(difficulty: Difficulty, reason: SpawnReason, pos: BlockPos): (pass: bool)
    ensures pass <==> difficulty != Peaceful && reason in {ChunkGeneration, Natural} && pos.y <= SPAWN_Y_MAX
  {
    if difficulty == Peaceful then false
    else if reason != ChunkGeneration && reason != Natural then false
    else if pos.y > SPAWN_Y_MAX then false
    else true
  }

  lemma PeacefulNeverSpawns(reason: SpawnReason, pos: BlockPos)
    ensures !PassSpawnCondition(Peaceful, reason, pos)
  {
  }

  lemma OnlyNaturalReasonsSpawn(difficulty: Difficulty, reason: SpawnReason, pos: BlockPos)
    requires reason != ChunkGeneration && reason != Natural
    ensures !PassSpawnCondition(difficulty, reason, pos)
  {
  }

  /** Above SPAWN_Y_MAX is refused; SPAWN_Y_MAX itself is not refused by the height check. */
  lemma SpawnHeightBoundIsInclusive(difficulty: Difficulty, reason: SpawnReason, x: int, z: int)
    ensures forall y :: y > SPAWN_Y_MAX ==> !PassSpawnCondition(difficulty, reason, BlockPos(x, y, z))
    ensures PassSpawnCondition(difficulty, reason, BlockPos(x, SPAWN_Y_MAX, z)) <==>
              difficulty != Peaceful && reason in {ChunkGeneration, Natural}
  {
  }

  lemma SpawnGroupSizeBounds()
    ensures 1 <= SPAWN_MIN <= SPAWN_MAX
  {
  }

  /** The goals the zombie's two payloads construct, as opaque ids. */
  datatype Goal =
    | Swim | MeleeAttack | MoveTowardsTarget | WaterAvoidingRandomWalking | LookAtPig | LookRandomly
    | HurtByTarget | NearestAttackablePlayer | NearestAttackableIronGolem

  /**
   * Movement and combat goals, highest priority first: six goals, each constructed
   * afresh, so no goal appears twice.
   */
  function GoalSelectorPayload(): (goals: seq<Goal>)
    ensures |goals| == 6
    ensures forall i, j :: 0 <= i < j < |goals| ==> goals[i] != goals[j]
  {
    [Swim, MeleeAttack, MoveTowardsTarget, WaterAvoidingRandomWalking, LookAtPig, LookRandomly]
  }

  /**
   * Targeting goals, highest priority first: three goals, each constructed afresh,
   * so no goal appears twice.
   */
  function TargetSelectorPayload(): (goals: seq<Goal>)
    ensures |goals| == 3
    ensures forall i, j :: 0 <= i < j < |goals| ==> goals[i] != goals[j]
  {
    [HurtByTarget, NearestAttackablePlayer, NearestAttackableIronGolem]
  }

  /** What `registerGoals` leaves appended to the goal selector, as the code is written. */
  function RegisteredGoals(): (entries: seq<WrappedGoal<Goal>>)
  {
    Prioritized(GoalSelectorPayload()) + Prioritized(TargetSelectorPayload())
  }

  /**
   * Both payloads land in one selector, so it receives 6 + 3 entries: the movement goals
   * in order with priorities 0 .. 5, then the targeting goals in order with priorities 0 .. 2.
   */
  lemma RegisteredGoalsLayout()
    ensures |RegisteredGoals()| == 9
    ensures GoalsOf(RegisteredGoals()) == GoalSelectorPayload() + TargetSelectorPayload()
    ensures forall i :: 0 <= i < 6 ==> RegisteredGoals()[i].priority == i
    ensures forall i :: 6 <= i < 9 ==> RegisteredGoals()[i].priority == i - 6
  {
  }

  /**
   * No goal is registered twice: the two payloads share no goal and neither repeats one,
   * so every insertion adds a new entry to the engine's identity-keyed goal set.
   */
  lemma RegisteredGoalsDistinct()
    ensures forall i, j :: 0 <= i < j < |RegisteredGoals()| ==>
              RegisteredGoals()[i].goal != RegisteredGoals()[j].goal
  {
    var goals, targets := GoalSelectorPayload(), TargetSelectorPayload();
    forall i, j | 0 <= i < j < |RegisteredGoals()|
      ensures RegisteredGoals()[i].goal != RegisteredGoals()[j].goal
    {
      if j < |goals| {
        assert RegisteredGoals()[i].goal == goals[i] && RegisteredGoals()[j].goal == goals[j];
      } else if i >= |goals| {
        assert RegisteredGoals()[i].goal == targets[i - |goals|];
        assert RegisteredGoals()[j].goal == targets[j - |goals|];
      } else {
        assert RegisteredGoals()[j].goal == targets[j - |goals|];
      }
    }
  }

  /** Priorities 0 .. 2 are each used twice by the registered goals, 3 .. 5 once, others never. */
  lemma {:induction false} RegisteredPriorityCounts(p: int)
    ensures CountPriority(RegisteredGoals(), p) ==
              if 0 <= p < 3 then 2 else if 3 <= p < 6 then 1 else 0
  {
    CountPriorityAppend(Prioritized(GoalSelectorPayload()), Prioritized(TargetSelectorPayload()), p);
    CountPrioritized(GoalSelectorPayload(), p);
    CountPrioritized(TargetSelectorPayload(), p);
  }

  /** Registering the target payload into its own selector gives every priority at most once. */
  lemma {:induction false} IntendedPrioritiesUnique(p: int)
    ensures CountPriority(Prioritized(GoalSelectorPayload()), p) <= 1
    ensures CountPriority(Prioritized(TargetSelectorPayload()), p) <= 1
    ensures CountPriority(Prioritized(TargetSelectorPayload()), p) == 1 <==> 0 <= p < 3
  {
    CountPrioritized(GoalSelectorPayload(), p);
    CountPrioritized(TargetSelectorPayload(), p);
  }

  class SculkZombieEntity {
    const goalSelector: GoalSelector<Goal>
    const targetSelector: GoalSelector<Goal>

    /** The entity owns two distinct selectors. */
    ghost predicate Valid()
    {
      goalSelector != targetSelector
    }

    constructor ()
      ensures Valid() && fresh(goalSelector) && fresh(targetSelector)
      ensures goalSelector.availableGoals == [] && targetSelector.availableGoals == []
    {
      goalSelector := new GoalSelector();
      targetSelector := new GoalSelector();
    }

    /**
     * `registerGoals`, as written: each payload's goal at index i is added with
     * priority i, and both payloads are added to the goal selector.
     */
    method RegisterGoals()
      requires Valid()
      modifies goalSelector
      ensures goalSelector.availableGoals == old(goalSelector.availableGoals) + RegisteredGoals()
      ensures unchanged(targetSelector)
    {
      var goals := GoalSelectorPayload();
      ghost var start := goalSelector.availableGoals;
      for priority := 0 to |goals|
        invariant goalSelector.availableGoals == start + Prioritized(goals[..priority])
      {
        PrioritizedSnoc(goals, priority);
        goalSelector.AddGoal(priority, goals[priority]);
      }
      assert goals[..|goals|] == goals;

      var targets := TargetSelectorPayload();
      ghost var middle := goalSelector.availableGoals;
      for priority := 0 to |targets|
        invariant goalSelector.availableGoals == middle + Prioritized(targets[..priority])
      {
        PrioritizedSnoc(targets, priority);
        goalSelector.AddGoal(priority, targets[priority]);
      }
      assert targets[..|targets|] == targets;
    }

    /** `registerGoals` as its documentation describes it: target goals go to the target selector. */
    method RegisterGoalsIntended()
      requires Valid()
      modifies goalSelector, targetSelector
      ensures goalSelector.availableGoals ==
                old(goalSelector.availableGoals) + Prioritized(GoalSelectorPayload())
      ensures targetSelector.availableGoals ==
                old(targetSelector.availableGoals) + Prioritized(TargetSelectorPayload())
    {
      var goals := GoalSelectorPayload();
      ghost var start := goalSelector.availableGoals;
      for priority := 0 to |goals|
        invariant goalSelector.availableGoals == start + Prioritized(goals[..priority])
        invariant unchanged(targetSelector)
      {
        PrioritizedSnoc(goals, priority);
        goalSelector.AddGoal(priority, goals[priority]);
      }
      assert goals[..|goals|] == goals;

      var targets := TargetSelectorPayload();
      ghost var startTargets := targetSelector.availableGoals;
      ghost var goalsDone := goalSelector.availableGoals;
      for priority := 0 to |targets|
        invariant targetSelector.availableGoals == startTargets + Prioritized(targets[..priority])
        invariant goalSelector.availableGoals == goalsDone
      {
        PrioritizedSnoc(targets, priority);
        targetSelector.AddGoal(priority, targets[priority]);
      }
      assert targets[..|targets|] == targets;
    }
  }

  /**
   * A freshly constructed zombie that registers its goals ends with nine goals in its
   * goal selector, two at each of priorities 0 .. 2, and none in its target selector.
   */
  method RegisterGoalsOnFreshZombie() returns (zombie: SculkZombieEntity)
    ensures |zombie.goalSelector.availableGoals| == 9
    ensures CountPriority(zombie.goalSelector.availableGoals, 0) == 2
    ensures CountPriority(zombie.goalSelector.availableGoals, 1) == 2
    ensures CountPriority(zombie.goalSelector.availableGoals, 2) == 2
    ensures zombie.targetSelector.availableGoals == []
  {
    zombie := new SculkZombieEntity();
    zombie.RegisterGoals();
    assert zombie.goalSelector.availableGoals == RegisteredGoals();
    RegisteredGoalsLayout();
    RegisteredPriorityCounts(0);
    RegisteredPriorityCounts(1);
    RegisteredPriorityCounts(2);
  }
}
