/** What the packer promises about the plan it builds, and the proof that
    every round of `Greedy.Run` keeps those promises. */
module PlanProperties {
  import opened Rugs
  import opened Greedy

  /** The components of size `s` in the plan, in plan order. */
  function Taken(plan: seq<Entry>, s: Size): seq<Item>
  {
    if plan == [] then []
    else
      var last := plan[|plan| - 1];
      Taken(plan[..|plan| - 1], s) + (if last.item.size == s then [last.item] else [])
  }

  /** The components of the plan, in plan order. */
  function Components(plan: seq<Entry>): seq<Item>
  {
    if plan == [] then [] else Components(plan[..|plan| - 1]) + [plan[|plan| - 1].item]
  }

  /** Entry `i` opens a dispatch: it does not share its predecessor's position. */
  predicate Opens(plan: seq<Entry>, i: int)
    requires 0 <= i < |plan|
  {
    i == 0 || plan[i - 1].position != plan[i].position
  }

  /** How many dispatches (a single runner or a runner pair) took runners. */
  function RunnerEvents(plan: seq<Entry>): nat
  {
    if plan == [] then 0
    else
      RunnerEvents(plan[..|plan| - 1])
      + (if plan[|plan| - 1].item.size == Runner && Opens(plan, |plan| - 1) then 1 else 0)
  }

  /** The components of size `s` are the front of queue `q`, in queue order. */
  predicate TakesPrefix(plan: seq<Entry>, q: seq<Item>, s: Size)
  {
    |Taken(plan, s)| <= |q| && Taken(plan, s) == q[..|Taken(plan, s)|]
  }

  /** Positions start at 1, never decrease, and grow by at most one from a
      line to the next. */
  predicate Numbered(plan: seq<Entry>)
  {
    && (plan != [] ==> plan[0].position == 1)
    && forall i, j :: 0 <= i < j < |plan| ==>
         plan[i].position <= plan[j].position <= plan[i].position + (j - i)
  }

  /** Two lines share a position only when they are two consecutive runners. */
  predicate SharedOnlyByRunnerPairs(plan: seq<Entry>)
  {
    forall i, j :: 0 <= i < j < |plan| && plan[i].position == plan[j].position ==>
      j == i + 1 && plan[i].item.size == Runner && plan[j].item.size == Runner
  }

  /** Line `i` shares its position with neither neighbour. */
  predicate Alone(plan: seq<Entry>, i: int)
    requires 0 <= i < |plan|
  {
    && (i == 0 || plan[i - 1].position != plan[i].position)
    && (i == |plan| - 1 || plan[i + 1].position != plan[i].position)
  }

  /** A runner on a position of its own is the last runner of the runner queue. */
  predicate LoneRunnersAreLast(plan: seq<Entry>, runner: seq<Item>)
  {
    forall i {:trigger Alone(plan, i)} :: 0 <= i < |plan| && plan[i].item.size == Runner && Alone(plan, i) ==>
      |runner| > 0 && plan[i].item == runner[|runner| - 1]
  }

  /** The length a plan queues: 7 per large, 3 per small, 7 per runner dispatch. */
  function Queued(plan: seq<Entry>): nat
  {
    7 * |Taken(plan, Large)| + 3 * |Taken(plan, Small)| + 7 * RunnerEvents(plan)
  }

  /** Nothing more fits: each size is used up or costs more than what is left. */
  predicate Saturated(budget: nat, large: seq<Item>, runner: seq<Item>, small: seq<Item>, plan: seq<Entry>, used: int)
  {
    && (|Taken(plan, Large)| == |large| || budget - used < Cost(Large))
    && (|Taken(plan, Runner)| == |runner| || budget - used < Cost(Runner))
    && (|Taken(plan, Small)| == |small| || budget - used < Cost(Small))
  }

  /** Next position to hand out, as the plan so far determines it. */
  function NextPosition(plan: seq<Entry>): int
  {
    if plan == [] then 1 else plan[|plan| - 1].position + 1
  }

  /** The loop variables agree with the plan: the cursors count what was
      taken from each queue, the queued length is what those lines cost, and
      the position counter counts the dispatches. */
  predicate Counted(budget: nat, large: seq<Item>, runner: seq<Item>, small: seq<Item>, plan: seq<Entry>, st: State)
  {
    && InQueues(large, runner, small, st)
    && st.used <= budget
    && Taken(plan, Large) == large[..st.large]
    && Taken(plan, Runner) == runner[..st.runner]
    && Taken(plan, Small) == small[..st.small]
    && st.used == Queued(plan)
    && st.position - 1 == st.large + st.small + RunnerEvents(plan)
    && RunnerEvents(plan) <= st.runner
  }

  /** The plan's positions are numbered from 1, only runner pairs share one,
      lone runners are the runner queue's last, and `next` follows the last. */
  predicate Shaped(plan: seq<Entry>, runner: seq<Item>, next: int)
  {
    && Numbered(plan)
    && next == NextPosition(plan)
    && SharedOnlyByRunnerPairs(plan)
    && LoneRunnersAreLast(plan, runner)
  }

  /** What holds between the loop variables and the plan at the top of every round. */
  predicate Inv(budget: nat, large: seq<Item>, runner: seq<Item>, small: seq<Item>, plan: seq<Entry>, st: State)
  {
    Counted(budget, large, runner, small, plan, st) && Shaped(plan, runner, st.position)
  }

  lemma InvAtStart(budget: nat, large: seq<Item>, runner: seq<Item>, small: seq<Item>)
    ensures Inv(budget, large, runner, small, [], Start)
  {
    assert large[..0] == [] && runner[..0] == [] && small[..0] == [];
  }

  /** Appending one line extends `Taken` by that line's component when it has size `s`. */
  lemma TakenAppend(plan: seq<Entry>, e: Entry, s: Size)
    ensures Taken(plan + [e], s) == Taken(plan, s) + (if e.item.size == s then [e.item] else [])
  {
    assert (plan + [e])[..|plan|] == plan;
  }

  /** Appending one line counts a new runner dispatch when the line is a runner that opens one. */
  lemma RunnerEventsAppend(plan: seq<Entry>, e: Entry)
    ensures RunnerEvents(plan + [e]) ==
      RunnerEvents(plan) + (if e.item.size == Runner && Opens(plan + [e], |plan|) then 1 else 0)
  {
    assert (plan + [e])[..|plan|] == plan;
  }

  /** Dispatching the head of its queue on its own keeps the invariant. */
  lemma TakeKeepsInv(budget: nat, large: seq<Item>, runner: seq<Item>, small: seq<Item>, plan: seq<Entry>, st: State, it: Item)
    requires Inv(budget, large, runner, small, plan, st)
    requires budget - st.used >= Cost(it.size)
    requires it.size == Large ==> st.large < |large| && it == large[st.large]
    requires it.size == Small ==> st.small < |small| && it == small[st.small]
    requires it.size == Runner ==> st.runner + 1 == |runner| && it == runner[st.runner]
    ensures Inv(budget, large, runner, small, plan + [Entry(it, st.position)], Advance(Take(it), st))
  {
    TakeKeepsCounted(budget, large, runner, small, plan, st, it);
    SingleKeepsShape(plan, Entry(it, st.position), runner);
  }

  lemma TakeKeepsCounted(budget: nat, large: seq<Item>, runner: seq<Item>, small: seq<Item>, plan: seq<Entry>, st: State, it: Item)
    requires Counted(budget, large, runner, small, plan, st) && st.position == NextPosition(plan)
    requires budget - st.used >= Cost(it.size)
    requires it.size == Large ==> st.large < |large| && it == large[st.large]
    requires it.size == Small ==> st.small < |small| && it == small[st.small]
    requires it.size == Runner ==> st.runner + 1 == |runner| && it == runner[st.runner]
    ensures Counted(budget, large, runner, small, plan + [Entry(it, st.position)], Advance(Take(it), st))
  {
    SingleAccounts(plan, Entry(it, st.position));
    match it.size
    case Large =>
      assert large[..st.large + 1] == large[..st.large] + [it];
    case Small =>
      assert small[..st.small + 1] == small[..st.small] + [it];
    case Runner =>
      assert runner[..st.runner + 1] == runner[..st.runner] + [it];
  }

  /** Dispatching the two runners at the front of the runner queue together keeps the invariant. */
  lemma PairKeepsInv(budget: nat, large: seq<Item>, runner: seq<Item>, small: seq<Item>, plan: seq<Entry>, st: State)
    requires OfSize(runner, Runner)
    requires Inv(budget, large, runner, small, plan, st)
    requires budget - st.used >= Cost(Runner) && st.runner + 1 < |runner|
    ensures var m := TakePair(runner[st.runner], runner[st.runner + 1]);
      Inv(budget, large, runner, small, plan + Emit(m, st.position), Advance(m, st))
  {
    var e := Entry(runner[st.runner], st.position);
    var f := Entry(runner[st.runner + 1], st.position);
    assert e.item.size == Runner && f.item.size == Runner;
    PairKeepsShape(plan, e, f, runner);
    PairKeepsCounted(budget, large, runner, small, plan, st);
  }

  lemma PairKeepsCounted(budget: nat, large: seq<Item>, runner: seq<Item>, small: seq<Item>, plan: seq<Entry>, st: State)
    requires OfSize(runner, Runner)
    requires Counted(budget, large, runner, small, plan, st) && st.position == NextPosition(plan)
    requires budget - st.used >= Cost(Runner) && st.runner + 1 < |runner|
    ensures var m := TakePair(runner[st.runner], runner[st.runner + 1]);
      Counted(budget, large, runner, small, plan + Emit(m, st.position), Advance(m, st))
  {
    var e := Entry(runner[st.runner], st.position);
    var f := Entry(runner[st.runner + 1], st.position);
    assert e.item.size == Runner && f.item.size == Runner;
    PairAccounts(plan, e, f);
    assert runner[..st.runner + 2] == runner[..st.runner] + [e.item, f.item];
  }

  /** Appending one line at the next position adds its component to `Taken`
      and, for a runner, counts one runner dispatch. */
  lemma SingleAccounts(plan: seq<Entry>, e: Entry)
    requires e.position == NextPosition(plan)
    ensures RunnerEvents(plan + [e]) == RunnerEvents(plan) + (if e.item.size == Runner then 1 else 0)
    ensures forall s | s != e.item.size :: Taken(plan + [e], s) == Taken(plan, s)
    ensures Taken(plan + [e], e.item.size) == Taken(plan, e.item.size) + [e.item]
  {
    RunnerEventsAppend(plan, e);
    assert Opens(plan + [e], |plan|) by {
      if plan != [] {
        assert (plan + [e])[|plan| - 1] == plan[|plan| - 1];
      }
    }
    TakenAppend(plan, e, Large);
    TakenAppend(plan, e, Small);
    TakenAppend(plan, e, Runner);
  }

  /** Appending a runner pair adds both runners to `Taken` and counts one runner dispatch. */
  lemma PairAccounts(plan: seq<Entry>, e: Entry, f: Entry)
    requires e.item.size == Runner && f.item.size == Runner
    requires e.position == NextPosition(plan) && f.position == e.position
    ensures RunnerEvents(plan + [e, f]) == RunnerEvents(plan) + 1
    ensures Taken(plan + [e, f], Large) == Taken(plan, Large)
    ensures Taken(plan + [e, f], Small) == Taken(plan, Small)
    ensures Taken(plan + [e, f], Runner) == Taken(plan, Runner) + [e.item, f.item]
  {
    var q := plan + [e, f];
    assert plan + [e] + [f] == q;
    RunnerEventsAppend(plan, e);
    RunnerEventsAppend(plan + [e], f);
    assert Opens(plan + [e], |plan|) by {
      if plan != [] {
        assert (plan + [e])[|plan| - 1] == plan[|plan| - 1];
      }
    }
    assert !Opens(q, |plan| + 1);
    TakenAppend(plan, e, Large);
    TakenAppend(plan + [e], f, Large);
    TakenAppend(plan, e, Small);
    TakenAppend(plan + [e], f, Small);
    TakenAppend(plan, e, Runner);
    TakenAppend(plan + [e], f, Runner);
  }

  /** One round keeps the invariant. */
  lemma StepKeepsInv(budget: nat, large: seq<Item>, runner: seq<Item>, small: seq<Item>, plan: seq<Entry>, st: State)
    requires WellSized(large, runner, small)
    requires Inv(budget, large, runner, small, plan, st)
    requires !Choose(budget, large, runner, small, st).Stop?
    ensures Inv(budget, large, runner, small,
                plan + Emit(Choose(budget, large, runner, small, st), st.position),
                Advance(Choose(budget, large, runner, small, st), st))
  {
    var room := budget - st.used;
    if LargeWins(large, runner, small, st, room) {
      assert large[st.large].size == Large;
      TakeKeepsInv(budget, large, runner, small, plan, st, large[st.large]);
    } else if SmallWins(large, runner, small, st, room) {
      assert small[st.small].size == Small;
      TakeKeepsInv(budget, large, runner, small, plan, st, small[st.small]);
    } else if st.runner + 1 < |runner| {
      PairKeepsInv(budget, large, runner, small, plan, st);
    } else {
      assert runner[st.runner].size == Runner;
      TakeKeepsInv(budget, large, runner, small, plan, st, runner[st.runner]);
    }
  }

  /** Appending one line, or two runners, all at the next position keeps
      the numbering and lets only those two runners share a position. */
  lemma AppendAtNext(plan: seq<Entry>, more: seq<Entry>)
    requires Numbered(plan) && SharedOnlyByRunnerPairs(plan)
    requires 1 <= |more| <= 2
    requires forall k :: 0 <= k < |more| ==> more[k].position == NextPosition(plan)
    requires |more| == 2 ==> more[0].item.size == Runner && more[1].item.size == Runner
    ensures Numbered(plan + more) && SharedOnlyByRunnerPairs(plan + more)
    ensures NextPosition(plan + more) == NextPosition(plan) + 1
    ensures Opens(plan + more, |plan|)
  {
    var q := plan + more;
    var next := NextPosition(plan);
    forall i | 0 <= i < |plan|
      ensures plan[i].position < next <= plan[i].position + (|plan| - i)
    {
      PositionsBounded(plan, i);
    }
    forall i, j | 0 <= i < j < |q|
      ensures q[i].position <= q[j].position <= q[i].position + (j - i)
    {
      if j < |plan| {
        assert q[i] == plan[i] && q[j] == plan[j];
      } else if i < |plan| {
        assert q[i] == plan[i] && q[j].position == next;
      } else {
        assert q[i].position == next && q[j].position == next;
      }
    }
    forall i, j | 0 <= i < j < |q|
      ensures q[i].position == q[j].position ==>
        j == i + 1 && q[i].item.size == Runner && q[j].item.size == Runner
    {
      if j < |plan| {
        assert q[i] == plan[i] && q[j] == plan[j];
      } else if i < |plan| {
        assert q[i] == plan[i] && q[j] == more[j - |plan|];
        assert q[i].position < q[j].position;
      } else {
        assert |more| == 2 && i == |plan| && j == |plan| + 1;
      }
    }
    if plan != [] {
      assert q[|plan| - 1] == plan[|plan| - 1];
    }
  }

  /** Appending one line at the next position keeps the numbering and pairing shape. */
  lemma SingleKeepsShape(plan: seq<Entry>, e: Entry, runner: seq<Item>)
    requires Numbered(plan) && SharedOnlyByRunnerPairs(plan) && LoneRunnersAreLast(plan, runner)
    requires e.position == NextPosition(plan)
    requires e.item.size == Runner ==> |runner| > 0 && e.item == runner[|runner| - 1]
    ensures Numbered(plan + [e]) && SharedOnlyByRunnerPairs(plan + [e])
    ensures LoneRunnersAreLast(plan + [e], runner)
    ensures NextPosition(plan + [e]) == NextPosition(plan) + 1
    ensures Opens(plan + [e], |plan|)
  {
    var q := plan + [e];
    AppendAtNext(plan, [e]);
    forall i | 0 <= i < |q| && q[i].item.size == Runner && Alone(q, i)
      ensures |runner| > 0 && q[i].item == runner[|runner| - 1]
    {
      if i < |plan| {
        assert q[i] == plan[i];
        assert Alone(plan, i);
      }
    }
  }

  /** Appending a runner pair at the next position keeps the numbering and pairing shape. */
  lemma PairKeepsShape(plan: seq<Entry>, e: Entry, f: Entry, runner: seq<Item>)
    requires Numbered(plan) && SharedOnlyByRunnerPairs(plan) && LoneRunnersAreLast(plan, runner)
    requires e.position == NextPosition(plan) && f.position == e.position
    requires e.item.size == Runner && f.item.size == Runner
    ensures Numbered(plan + [e, f]) && SharedOnlyByRunnerPairs(plan + [e, f])
    ensures LoneRunnersAreLast(plan + [e, f], runner)
    ensures NextPosition(plan + [e, f]) == NextPosition(plan) + 1
    ensures Opens(plan + [e], |plan|) && !Opens(plan + [e, f], |plan| + 1)
  {
    var q := plan + [e, f];
    AppendAtNext(plan, [e, f]);
    AppendAtNext(plan, [e]);
    forall i | 0 <= i < |q| && q[i].item.size == Runner && Alone(q, i)
      ensures |runner| > 0 && q[i].item == runner[|runner| - 1]
    {
      assert i < |plan|;
      assert q[i] == plan[i];
      assert Alone(plan, i);
    }
  }

  /** In a numbered plan every position is below the next one to hand out. */
  lemma {:induction false} PositionsBounded(plan: seq<Entry>, i: int)
    requires Numbered(plan) && 0 <= i < |plan|
    ensures plan[i].position < NextPosition(plan)
    decreases |plan| - i
  {
    if i < |plan| - 1 {
      PositionsBounded(plan, i + 1);
    }
  }

  /** Every round from a state satisfying the invariant keeps it, and the
      rounds stop only when nothing is eligible. */
  lemma {:induction false} RunKeepsInv(budget: nat, large: seq<Item>, runner: seq<Item>, small: seq<Item>, plan: seq<Entry>, st: State)
    requires WellSized(large, runner, small)
    requires Inv(budget, large, runner, small, plan, st)
    ensures var (plan', st') := Run(budget, large, runner, small, plan, st);
      Inv(budget, large, runner, small, plan', st')
      && Choose(budget, large, runner, small, st').Stop?
    decreases Remaining(large, runner, small, st)
  {
    var m := Choose(budget, large, runner, small, st);
    if !m.Stop? {
      ChooseProgresses(budget, large, runner, small, st);
      StepKeepsInv(budget, large, runner, small, plan, st);
      RunKeepsInv(budget, large, runner, small, plan + Emit(m, st.position), Advance(m, st));
    }
  }

  /** Everything the packer promises about the plan and final loop
      variables it produces for a budget and three well-sized queues. */
  lemma ScheduleProperties(budget: nat, large: seq<Item>, runner: seq<Item>, small: seq<Item>, plan: seq<Entry>, st: State)
    requires WellSized(large, runner, small)
    requires (plan, st) == Schedule(budget, large, runner, small)
    ensures st.used <= budget
    ensures TakesPrefix(plan, large, Large) && TakesPrefix(plan, runner, Runner) && TakesPrefix(plan, small, Small)
    ensures st.large == |Taken(plan, Large)| && st.runner == |Taken(plan, Runner)| && st.small == |Taken(plan, Small)|
    ensures |plan| == st.large + st.runner + st.small
    ensures multiset(Components(plan)) <= multiset(large + runner + small)
    ensures st.used == Queued(plan)
    ensures Numbered(plan) && SharedOnlyByRunnerPairs(plan) && LoneRunnersAreLast(plan, runner)
    ensures Saturated(budget, large, runner, small, plan, st.used)
    ensures st.position == NextPosition(plan) <= |large| + |runner| + |small| + 1
  {
    assert Inv(budget, large, runner, small, plan, st) && Choose(budget, large, runner, small, st).Stop? by {
      InvAtStart(budget, large, runner, small);
      RunKeepsInv(budget, large, runner, small, [], Start);
    }
    TakenPartition(plan);
    ComponentsQueued(plan, large, runner, small, st.large, st.runner, st.small);
  }

  /** A plan that took the fronts of the three queues dispatches each
      component at most as often as it is queued. */
  lemma ComponentsQueued(plan: seq<Entry>, large: seq<Item>, runner: seq<Item>, small: seq<Item>, l: nat, r: nat, s: nat)
    requires l <= |large| && r <= |runner| && s <= |small|
    requires Taken(plan, Large) == large[..l] && Taken(plan, Runner) == runner[..r] && Taken(plan, Small) == small[..s]
    ensures multiset(Components(plan)) <= multiset(large + runner + small)
  {
    TakenMultiset(plan);
    PrefixWithin(large, l);
    PrefixWithin(runner, r);
    PrefixWithin(small, s);
    assert multiset(large + runner + small) == multiset(large) + multiset(runner) + multiset(small);
  }

  lemma PrefixWithin(q: seq<Item>, k: nat)
    requires k <= |q|
    ensures multiset(q[..k]) <= multiset(q)
  {
    assert q == q[..k] + q[k..];
    assert multiset(q) == multiset(q[..k]) + multiset(q[k..]);
  }

  /** The plan's components are exactly those counted under the three sizes. */
  lemma {:induction false} TakenMultiset(plan: seq<Entry>)
    ensures multiset(Components(plan))
         == multiset(Taken(plan, Large)) + multiset(Taken(plan, Runner)) + multiset(Taken(plan, Small))
  {
    if plan != [] {
      TakenMultiset(plan[..|plan| - 1]);
    }
  }

  /** Every line of a plan is counted under exactly one size. */
  lemma {:induction false} TakenPartition(plan: seq<Entry>)
    ensures |plan| == |Taken(plan, Large)| + |Taken(plan, Runner)| + |Taken(plan, Small)|
  {
    if plan != [] {
      TakenPartition(plan[..|plan| - 1]);
    }
  }

  /** Three empty queues give an empty plan and nothing queued, whatever the budget. */
  lemma EmptyQueues(budget: nat)
    ensures Schedule(budget, [], [], []) == ([], Start)
  {
  }

  /** Nothing still waiting in queue `q` from cursor `k` on outranks `w`,
      when `room` covers the cost of the queue's size `s`. */
  predicate NoneWaitingOutranks(q: seq<Item>, k: nat, room: int, s: Size, w: Item)
  {
    room >= Cost(s) ==> forall j :: k <= j < |q| ==> !HighestPriority(q[j], w)
  }

  /** `w`, dispatched after the lines `before`, is outranked by no component
      that was still waiting in a queue whose size fitted the roll. */
  predicate Unbeaten(budget: nat, large: seq<Item>, runner: seq<Item>, small: seq<Item>, before: seq<Entry>, w: Item)
  {
    var room := budget - Queued(before);
    && NoneWaitingOutranks(large, |Taken(before, Large)|, room, Large, w)
    && NoneWaitingOutranks(runner, |Taken(before, Runner)|, room, Runner, w)
    && NoneWaitingOutranks(small, |Taken(before, Small)|, room, Small, w)
  }

  /** Every dispatch (the first line of each position) is unbeaten when it is made. */
  predicate Prioritized(budget: nat, large: seq<Item>, runner: seq<Item>, small: seq<Item>, plan: seq<Entry>)
  {
    forall i :: 0 <= i < |plan| && Opens(plan, i) ==>
      Unbeaten(budget, large, runner, small, plan[..i], plan[i].item)
  }

  /** In a sorted queue, what does not outrank the head outranks nothing behind it either. */
  lemma QueueUnbeaten(q: seq<Item>, k: nat, room: int, s: Size, w: Item)
    requires SortedForPrinting(q) && k <= |q|
    requires k < |q| && room >= Cost(s) ==> !HighestPriority(q[k], w)
    ensures NoneWaitingOutranks(q, k, room, s, w)
  {
    if room >= Cost(s) {
      forall j | k <= j < |q|
        ensures !HighestPriority(q[j], w)
      {
        StrictPartOfQueryOrder(q[k], w);
        StrictPartOfQueryOrder(q[j], w);
        if j > k {
          NoLaterThanTransitive(w, q[k], q[j]);
        }
      }
    }
  }

  /** With sorted queues, the component a round dispatches first is unbeaten. */
  lemma WinnerUnbeaten(budget: nat, large: seq<Item>, runner: seq<Item>, small: seq<Item>, plan: seq<Entry>, st: State)
    requires SortedForPrinting(large) && SortedForPrinting(runner) && SortedForPrinting(small)
    requires Counted(budget, large, runner, small, plan, st)
    requires !Choose(budget, large, runner, small, st).Stop?
    ensures var m := Choose(budget, large, runner, small, st);
      Unbeaten(budget, large, runner, small, plan, if m.Take? then m.item else m.first)
  {
    var m := Choose(budget, large, runner, small, st);
    var w := if m.Take? then m.item else m.first;
    var room := budget - st.used;
    assert |Taken(plan, Large)| == st.large && |Taken(plan, Runner)| == st.runner && |Taken(plan, Small)| == st.small;
    if LargeWins(large, runner, small, st, room) {
      assert w == large[st.large];
    } else if SmallWins(large, runner, small, st, room) {
      assert w == small[st.small];
      if Eligible(large, st.large, room, Large) {
        Asymmetric(small[st.small], large[st.large]);
      }
    } else {
      assert RunnerWins(large, runner, small, st, room) && w == runner[st.runner];
      if Eligible(large, st.large, room, Large) {
        Asymmetric(runner[st.runner], large[st.large]);
      }
      if Eligible(small, st.small, room, Small) {
        Asymmetric(runner[st.runner], small[st.small]);
      }
    }
    QueueUnbeaten(large, st.large, room, Large, w);
    QueueUnbeaten(runner, st.runner, room, Runner, w);
    QueueUnbeaten(small, st.small, room, Small, w);
  }

  /** One round keeps every dispatch unbeaten. */
  lemma StepKeepsPrioritized(budget: nat, large: seq<Item>, runner: seq<Item>, small: seq<Item>, plan: seq<Entry>, st: State)
    requires SortedForPrinting(large) && SortedForPrinting(runner) && SortedForPrinting(small)
    requires Inv(budget, large, runner, small, plan, st)
    requires Prioritized(budget, large, runner, small, plan)
    requires !Choose(budget, large, runner, small, st).Stop?
    ensures Prioritized(budget, large, runner, small, plan + Emit(Choose(budget, large, runner, small, st), st.position))
  {
    var m := Choose(budget, large, runner, small, st);
    var q := plan + Emit(m, st.position);
    WinnerUnbeaten(budget, large, runner, small, plan, st);
    forall i | 0 <= i < |q| && Opens(q, i)
      ensures Unbeaten(budget, large, runner, small, q[..i], q[i].item)
    {
      if i < |plan| {
        assert q[..i] == plan[..i];
        assert Opens(plan, i);
      } else if i == |plan| {
        assert q[..i] == plan;
      } else {
        assert false;
      }
    }
  }

  /** Every round from a state satisfying the invariant keeps every dispatch unbeaten. */
  lemma {:induction false} RunKeepsPrioritized(budget: nat, large: seq<Item>, runner: seq<Item>, small: seq<Item>, plan: seq<Entry>, st: State)
    requires WellSized(large, runner, small)
    requires SortedForPrinting(large) && SortedForPrinting(runner) && SortedForPrinting(small)
    requires Inv(budget, large, runner, small, plan, st)
    requires Prioritized(budget, large, runner, small, plan)
    ensures Prioritized(budget, large, runner, small, Run(budget, large, runner, small, plan, st).0)
    decreases Remaining(large, runner, small, st)
  {
    var m := Choose(budget, large, runner, small, st);
    if !m.Stop? {
      ChooseProgresses(budget, large, runner, small, st);
      StepKeepsInv(budget, large, runner, small, plan, st);
      StepKeepsPrioritized(budget, large, runner, small, plan, st);
      RunKeepsPrioritized(budget, large, runner, small, plan + Emit(m, st.position), Advance(m, st));
    }
  }

  /** With queues sorted as the inventory query sorts them, no dispatch
      passes over a waiting component that outranks it and would have fitted. */
  lemma ScheduleHonorsPriority(budget: nat, large: seq<Item>, runner: seq<Item>, small: seq<Item>)
    requires WellSized(large, runner, small)
    requires SortedForPrinting(large) && SortedForPrinting(runner) && SortedForPrinting(small)
    ensures Prioritized(budget, large, runner, small, Schedule(budget, large, runner, small).0)
  {
    InvAtStart(budget, large, runner, small);
    RunKeepsPrioritized(budget, large, runner, small, [], Start);
  }
}
