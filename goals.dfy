/**
 * The host engine's goal selector, reduced to what the entity code touches:
 * an ordered collection of goals, each wrapped with the priority it was added with
 * (lower numbers run first). Goals are opaque ids.
 */
module Goals {

  /** A goal together with the priority it was registered with. */
  datatype WrappedGoal<G> = WrappedGoal(priority: int, goal: G)

  /** The entries a payload registers when the goal at index i gets priority i. */
  function Prioritized<G>(payload: seq<G>): (entries: seq<WrappedGoal<G>>)
  {
    seq(|payload|, i requires 0 <= i < |payload| => WrappedGoal(i, payload[i]))
  }

  /** How many entries carry priority `p`. */
  function CountPriority<G>(entries: seq<WrappedGoal<G>>, p: int): (count: nat)
  {
    if entries == [] then 0
    else (if entries[0].priority == p then 1 else 0) + CountPriority(entries[1..], p)
  }

  /** The goals of `entries`, in order, without their priorities. */
  function GoalsOf<G>(entries: seq<WrappedGoal<G>>): (goals: seq<G>)
  {
    seq(|entries|, i requires 0 <= i < |entries| => entries[i].goal)
  }

  /** Registering one more goal extends the prioritized prefix by one entry. */
  lemma PrioritizedSnoc<G>(payload: seq<G>, k: nat)
    requires k < |payload|
    ensures Prioritized(payload[..k + 1]) == Prioritized(payload[..k]) + [WrappedGoal(k, payload[k])]
  {
  }

  /**
   * Priorities assigned from a payload follow its order: the goals come out in
   * payload order, the first has priority 0, and each later one a strictly larger one.
   */
  lemma PrioritizedPreservesOrder<G>(payload: seq<G>)
    ensures GoalsOf(Prioritized(payload)) == payload
    ensures |payload| > 0 ==> Prioritized(payload)[0].priority == 0
    ensures forall i, j :: 0 <= i < j < |payload| ==>
              Prioritized(payload)[i].priority < Prioritized(payload)[j].priority
  {
  }

  lemma {:induction false} CountPriorityAppend<G>(a: seq<WrappedGoal<G>>, b: seq<WrappedGoal<G>>, p: int)
    ensures CountPriority(a + b, p) == CountPriority(a, p) + CountPriority(b, p)
  {
    if a == [] {
      assert a + b == b;
    } else {
      assert (a + b)[1..] == a[1..] + b;
      CountPriorityAppend(a[1..], b, p);
    }
  }

  /** A prioritized payload uses each priority 0 .. |payload| - 1 exactly once, and no other. */
  lemma {:induction false} CountPrioritized<G>(payload: seq<G>, p: int)
    ensures CountPriority(Prioritized(payload), p) == if 0 <= p < |payload| then 1 else 0
  {
    if payload == [] {
      assert Prioritized(payload) == [];
    } else {
      var n := |payload| - 1;
      assert payload[..n + 1] == payload;
      PrioritizedSnoc(payload, n);
      CountPriorityAppend(Prioritized(payload[..n]), [WrappedGoal(n, payload[n])], p);
      CountPrioritized(payload[..n], p);
      assert CountPriority([WrappedGoal(n, payload[n])], p) == if p == n then 1 else 0;
    }
  }

  /** The engine's goal selector: goals in the order they were added. */
  class GoalSelector<G> {
    var availableGoals: seq<WrappedGoal<G>>

    constructor ()
      ensures availableGoals == []
    {
      availableGoals := [];
    }

    /** `addGoal(priority, goal)`: wraps the goal with its priority and appends it. */
    method AddGoal(priority: int, goal: G)
      modifies this
      ensures availableGoals == old(availableGoals) + [WrappedGoal(priority, goal)]
    {
      availableGoals := availableGoals + [WrappedGoal(priority, goal)];
    }
  }
}
