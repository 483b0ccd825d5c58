/** The packing loop of the `/next` handler, with the roll length already
    floored to a whole number and the three queues already fetched. */
module Packer {
  import opened Rugs
  import opened Greedy
  import opened PlanProperties

  /** Builds the print plan for a roll of length `budget` from the large,
      runner and small queues, and returns it with the length it queued.
      `rounds` counts the passes through the loop, the last one included. */
  method Pack(budget: nat, large: seq<Item>, runner: seq<Item>, small: seq<Item>)
    returns (plan: seq<Entry>, used: nat, ghost rounds: nat)
    requires WellSized(large, runner, small)
    requires SortedForPrinting(large) && SortedForPrinting(runner) && SortedForPrinting(small)
    ensures plan == Schedule(budget, large, runner, small).0
    ensures used == Schedule(budget, large, runner, small).1.used
    ensures used <= budget
    ensures TakesPrefix(plan, large, Large) && TakesPrefix(plan, runner, Runner) && TakesPrefix(plan, small, Small)
    ensures used == Queued(plan)
    ensures Numbered(plan) && SharedOnlyByRunnerPairs(plan) && LoneRunnersAreLast(plan, runner)
    ensures multiset(Components(plan)) <= multiset(large + runner + small)
    ensures Saturated(budget, large, runner, small, plan, used)
    ensures Prioritized(budget, large, runner, small, plan)
    ensures rounds == NextPosition(plan) <= |large| + |runner| + |small| + 1
  {
    plan := [];
    var largeIt, runnerIt, smallIt := 0, 0, 0;
    used := 0;
    var position := 1;
    rounds := 0;
    ghost var target := Schedule(budget, large, runner, small);
    while true
      invariant InQueues(large, runner, small, State(largeIt, runnerIt, smallIt, used, position))
      invariant Run(budget, large, runner, small, plan, State(largeIt, runnerIt, smallIt, used, position))
             == target
      invariant rounds + 1 == position
      decreases Remaining(large, runner, small, State(largeIt, runnerIt, smallIt, used, position))
    {
      ghost var cur, before := State(largeIt, runnerIt, smallIt, used, position), plan;
      ghost var m := Choose(budget, large, runner, small, cur);
      rounds := rounds + 1;
      var room := budget - used;
      var top: Option<Item> := None;
      if largeIt < |large| && room >= 7 {
        top := Some(large[largeIt]);
      }
      if smallIt < |small| && room >= 3 {
        if top.Some? {
          if HighestPriority(small[smallIt], top.value) {
            top := Some(small[smallIt]);
          }
        } else {
          top := Some(small[smallIt]);
        }
      }
      if runnerIt < |runner| && room >= 7 {
        if top.None? || HighestPriority(runner[runnerIt], top.value) {
          if runnerIt + 1 < |runner| {
            assert m == TakePair(runner[runnerIt], runner[runnerIt + 1]);
            // two runners share one position and one charge
            plan := plan + [Entry(runner[runnerIt], position), Entry(runner[runnerIt + 1], position)];
            runnerIt := runnerIt + 2;
            position := position + 1;
            used := used + 7;
            assert plan == before + Emit(m, cur.position) && State(largeIt, runnerIt, smallIt, used, position) == Advance(m, cur);
            continue;
          }
          top := Some(runner[runnerIt]);
        }
      }
      if top.None? {
        assert m == Stop;
        assert target == (plan, State(largeIt, runnerIt, smallIt, used, position));
        break;
      }
      var winner := top.value;
      assert m == Take(winner);
      match winner.size {
        case Large =>
          used := used + 7;
          largeIt := largeIt + 1;
        case Runner =>
          used := used + 7;
          runnerIt := runnerIt + 1;
        case Small =>
          used := used + 3;
          smallIt := smallIt + 1;
      }
      plan := plan + [Entry(winner, position)];
      position := position + 1;
      assert plan == before + Emit(m, cur.position) && State(largeIt, runnerIt, smallIt, used, position) == Advance(m, cur);
    }
    ScheduleProperties(budget, large, runner, small, plan, target.1);
    ScheduleHonorsPriority(budget, large, runner, small);
  }
}
