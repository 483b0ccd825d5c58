/** A functional reference for the packing loop of the `/next` handler: one
    round chooses what to dispatch (`Choose`), the round's effect on the
    cursors and counters (`Advance`) and on the plan (`Emit`), and the rounds
    repeated until nothing is eligible (`Run`, `Schedule`). */
module Greedy {
  import opened Rugs

  /** The loop's variables: a cursor into each queue, the length queued so
      far and the next position to hand out. */
  datatype State = State(large: nat, runner: nat, small: nat, used: nat, position: int)

  /** What one round does: stop, dispatch one component, or dispatch two
      runners together. */
  datatype Move = Stop | Take(item: Item) | TakePair(first: Item, second: Item)

  const Start := State(0, 0, 0, 0, 1)

  /** Each queue holds only components of its own size. */
  predicate WellSized(large: seq<Item>, runner: seq<Item>, small: seq<Item>)
  {
    OfSize(large, Large) && OfSize(runner, Runner) && OfSize(small, Small)
  }

  predicate InQueues(large: seq<Item>, runner: seq<Item>, small: seq<Item>, st: State)
  {
    st.large <= |large| && st.runner <= |runner| && st.small <= |small|
  }

  /** The head of `q` at `cursor` is considered: the queue is not used up
      and `room` still covers the cost of size `s`. */
  predicate Eligible(q: seq<Item>, cursor: nat, room: int, s: Size)
  {
    cursor < |q| && room >= Cost(s)
  }

  /** The large head is eligible and no other eligible head outranks it. */
  predicate LargeWins(large: seq<Item>, runner: seq<Item>, small: seq<Item>, st: State, room: int)
  {
    && Eligible(large, st.large, room, Large)
    && (Eligible(small, st.small, room, Small) ==> !HighestPriority(small[st.small], large[st.large]))
    && (Eligible(runner, st.runner, room, Runner) ==> !HighestPriority(runner[st.runner], large[st.large]))
  }

  /** The small head is eligible, strictly outranks an eligible large head,
      and is not outranked by an eligible runner head. */
  predicate SmallWins(large: seq<Item>, runner: seq<Item>, small: seq<Item>, st: State, room: int)
  {
    && Eligible(small, st.small, room, Small)
    && (Eligible(large, st.large, room, Large) ==> HighestPriority(small[st.small], large[st.large]))
    && (Eligible(runner, st.runner, room, Runner) ==> !HighestPriority(runner[st.runner], small[st.small]))
  }

  /** The runner head is eligible and strictly outranks every other eligible head. */
  predicate RunnerWins(large: seq<Item>, runner: seq<Item>, small: seq<Item>, st: State, room: int)
  {
    && Eligible(runner, st.runner, room, Runner)
    && (Eligible(large, st.large, room, Large) ==> HighestPriority(runner[st.runner], large[st.large]))
    && (Eligible(small, st.small, room, Small) ==> HighestPriority(runner[st.runner], small[st.small]))
  }

  /** One round of the loop: large is the provisional winner, small
      challenges it, runner challenges what is left; a winning runner with a
      second runner behind it is dispatched as a pair. */
  function Choose(budget: nat, large: seq<Item>, runner: seq<Item>, small: seq<Item>, st: State): (m: Move)
    ensures m.Stop? <==>
      && !Eligible(large, st.large, budget - st.used, Large)
      && !Eligible(runner, st.runner, budget - st.used, Runner)
      && !Eligible(small, st.small, budget - st.used, Small)
    ensures !m.Stop? ==>
      || LargeWins(large, runner, small, st, budget - st.used)
      || SmallWins(large, runner, small, st, budget - st.used)
      || RunnerWins(large, runner, small, st, budget - st.used)
    ensures LargeWins(large, runner, small, st, budget - st.used) ==> m == Take(large[st.large])
    ensures SmallWins(large, runner, small, st, budget - st.used) ==> m == Take(small[st.small])
    ensures RunnerWins(large, runner, small, st, budget - st.used) ==>
      m == if st.runner + 1 < |runner| then TakePair(runner[st.runner], runner[st.runner + 1])
           else Take(runner[st.runner])
  {
    var room := budget - st.used;
    var provisional :=
      if Eligible(large, st.large, room, Large) then Some(large[st.large]) else None;
    var challenged :=
      if Eligible(small, st.small, room, Small)
         && (provisional.None? || HighestPriority(small[st.small], provisional.value))
      then Some(small[st.small]) else provisional;
    if Eligible(runner, st.runner, room, Runner)
       && (challenged.None? || HighestPriority(runner[st.runner], challenged.value))
    then
      if st.runner + 1 < |runner| then TakePair(runner[st.runner], runner[st.runner + 1])
      else Take(runner[st.runner])
    else if challenged.Some? then Take(challenged.value)
    else Stop
  }

  /** The plan lines a move appends, all at position `position`. */
  function Emit(m: Move, position: int): (lines: seq<Entry>)
    ensures lines == [] <==> m.Stop?
    ensures |lines| <= 2 && (|lines| == 2 <==> m.TakePair?)
    ensures forall k :: 0 <= k < |lines| ==> lines[k].position == position
  {
    match m
    case Stop => []
    case Take(it) => [Entry(it, position)]
    case TakePair(a, b) => [Entry(a, position), Entry(b, position)]
  }

  /** The loop variables after a move: a pair costs 7 and moves the runner
      cursor by two; a single component is charged and counted by its own size. */
  function Advance(m: Move, st: State): State
  {
    match m
    case Stop => st
    case TakePair(_, _) =>
      st.(runner := st.runner + 2, used := st.used + 7, position := st.position + 1)
    case Take(it) =>
      match it.size
      case Large =>
        st.(large := st.large + 1, used := st.used + Cost(Large), position := st.position + 1)
      case Runner =>
        st.(runner := st.runner + 1, used := st.used + Cost(Runner), position := st.position + 1)
      case Small =>
        st.(small := st.small + 1, used := st.used + Cost(Small), position := st.position + 1)
  }

  /** The cursors move past exactly the lines a move emits, a move other than
      Stop takes one position, and it is charged the cost of what it dispatches. */
  lemma AdvanceAccounts(m: Move, st: State)
    ensures var next := Advance(m, st);
      && next.large + next.runner + next.small == st.large + st.runner + st.small + |Emit(m, st.position)|
      && next.position == st.position + (if m.Stop? then 0 else 1)
      && (m.Take? ==> next.used == st.used + Cost(m.item.size))
      && (m.TakePair? ==> next.used == st.used + Cost(Runner))
  {
  }

  function Remaining(large: seq<Item>, runner: seq<Item>, small: seq<Item>, st: State): nat
    requires InQueues(large, runner, small, st)
  {
    (|large| - st.large) + (|runner| - st.runner) + (|small| - st.small)
  }

  /** A move other than Stop consumes at least one queued component. */
  lemma ChooseProgresses(budget: nat, large: seq<Item>, runner: seq<Item>, small: seq<Item>, st: State)
    requires WellSized(large, runner, small) && InQueues(large, runner, small, st)
    requires !Choose(budget, large, runner, small, st).Stop?
    ensures var next := Advance(Choose(budget, large, runner, small, st), st);
      InQueues(large, runner, small, next)
      && Remaining(large, runner, small, next) < Remaining(large, runner, small, st)
  {
    var room := budget - st.used;
    if LargeWins(large, runner, small, st, room) {
      assert large[st.large].size == Large;
    } else if SmallWins(large, runner, small, st, room) {
      assert small[st.small].size == Small;
    } else {
      assert runner[st.runner].size == Runner;
    }
  }

  /** Rounds from `st` on, appending to `plan`, until a round finds nothing eligible. */
  function Run(budget: nat, large: seq<Item>, runner: seq<Item>, small: seq<Item>, plan: seq<Entry>, st: State): (r: (seq<Entry>, State))
    requires WellSized(large, runner, small) && InQueues(large, runner, small, st)
    decreases Remaining(large, runner, small, st)
  {
    var m := Choose(budget, large, runner, small, st);
    if m.Stop? then (plan, st)
    else
      ChooseProgresses(budget, large, runner, small, st);
      Run(budget, large, runner, small, plan + Emit(m, st.position), Advance(m, st))
  }

  /** The rounds only append to the plan, never lower the queued length or
      the position counter, and end in a state where nothing is eligible. */
  lemma {:induction false} RunExtends(budget: nat, large: seq<Item>, runner: seq<Item>, small: seq<Item>, plan: seq<Entry>, st: State)
    requires WellSized(large, runner, small) && InQueues(large, runner, small, st)
    ensures var (plan', st') := Run(budget, large, runner, small, plan, st);
      && plan <= plan'
      && InQueues(large, runner, small, st') && Choose(budget, large, runner, small, st').Stop?
      && st.used <= st'.used && st.position <= st'.position
    decreases Remaining(large, runner, small, st)
  {
    var m := Choose(budget, large, runner, small, st);
    if !m.Stop? {
      ChooseProgresses(budget, large, runner, small, st);
      RunExtends(budget, large, runner, small, plan + Emit(m, st.position), Advance(m, st));
    }
  }

  /** The plan and final loop variables the packer produces for a budget and three queues. */
  function Schedule(budget: nat, large: seq<Item>, runner: seq<Item>, small: seq<Item>): (r: (seq<Entry>, State))
    requires WellSized(large, runner, small)
  {
    Run(budget, large, runner, small, [], Start)
  }
}
