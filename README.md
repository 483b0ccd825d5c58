# Roll packer model

A Dafny model of the scheduler behind the `/next` endpoint of a rug-printing
service. A printer reports the length of roll it has loaded. The service then
builds a print plan from three queues of pending components:

- large `5x7` components, costing 7 feet of roll;
- runner `2.5x7` components, costing 7 feet (two runners print side by side
  and share those 7 feet);
- small `3x5` components, costing 3 feet.

Each round of the packing loop works as follows:

- The head of every queue whose cost still fits the remaining roll is
  considered.
- The large head is the provisional winner. The small head challenges it,
  then the runner head challenges whatever is left, through the priority rule
  `HighestPriority`. Rush beats non-rush. Between equal rush, the strictly
  older order wins.
- A winning runner with a second runner behind it goes out as a pair. The two
  share one position and one charge of 7.
- Otherwise the single winner is charged by its size, given the current
  position, and the position counter moves on.
- The loop ends when no head fits.

The model is split into modules:

- `Rugs` (`rugs.dfy`): sizes, components, plan lines and the priority rule.
  The rule is proved to be the strict part of the order in which the
  inventory query sorts each queue (rush first, then oldest first).
- `Greedy` (`greedy.dfy`): a functional reference for the loop. `Choose`
  decides one round, `Advance` and `Emit` give its effect, and
  `Run`/`Schedule` repeat rounds until one stops.
- `PlanProperties` (`plan_properties.dfy`): what the plan satisfies, the
  invariant every round keeps, and the priority guarantee.
- `Packer` (`packer.dfy`): `Pack`, the loop itself as an imperative method.
  It has the same three cursors, the queued length, the position counter and
  the same `continue`/`break` structure. It is proved equal to `Schedule`, and
  it carries every property proved about `Schedule`.
- `Scenarios` (`scenarios.dfy`): worked examples on small inputs.

The input queues come with the two guarantees of the inventory query
(`src/api/main.go:85` and `:87`):

- every component in a queue has that queue's size;
- each queue is sorted rush first, then oldest first.

The first is a precondition of everything that runs the loop. Without it the
size-keyed commit at `src/api/main.go:255-266` could advance no cursor and
never end. The second is needed only for the priority guarantee.

The budget is the loop's `int(nextReq.RollLength)`: the floored roll length,
taken here as an unbounded natural number. The handler rejects lengths of 3
or less before the loop. The model is proved for every natural budget,
including those, but not for roll lengths too large for a Go `int` (see
"## Left out").

The comment at `src/api/main.go:115` says equal-rush comparisons find "the
newest" item. The code returns true when the right-hand order date is
strictly after the left-hand one, so the older item wins. The model follows
the code.

## Model

| member | source | states |
|---|---|---|
| Rugs.HighestPriority | src/api/main.go:108-123 | `l` goes before `r` exactly when `l` cannot sort after `r` in the inventory query's order: rush before non-rush, and between equal rush a strictly earlier order date |
| Rugs.Cost | src/api/main.go:201-266 | a small costs 3 and only a small; large and runner cost 7. These are both the remaining-roll thresholds at lines 201, 205 and 216 and the charges at lines 229, 244 and 255-266 |
| Rugs.RushOutranksNonRush | src/api/main.go:116-122 | a rush component outranks a non-rush one and is never outranked by it, whatever the dates |
| Rugs.SameRushOlderWins | src/api/main.go:116-118 | with equal rush, `l` outranks `r` exactly when `l`'s order date is strictly earlier |
| Rugs.TieKeepsIncumbent | src/api/main.go:116-118 | equal rush and equal date: neither outranks the other, so a challenger never displaces the incumbent |
| Rugs.Asymmetric | src/api/main.go:108-123 | two components never outrank each other |
| Rugs.StrictPartOfQueryOrder | src/api/main.go:108-123 | `a` outranks `b` exactly when `b` cannot sort before `a` in the inventory query's order (rush first, then date ascending, line 87), and that order is total |
| Rugs.OutranksThrough | src/api/main.go:108-123 | a component that outranks `b` outranks everything `b` sorts before in the query's order (the comparator is a strict weak order) |
| Rugs.NoLaterThanTransitive | src/api/main.go:87 | the query's sort order is transitive |
| Greedy.Choose | src/api/main.go:198-253 | one round: it stops exactly when no queue head is both present and affordable. Otherwise the large head wins when no eligible small or runner head outranks it. The small head wins when it outranks an eligible large head and no eligible runner outranks it. The runner head wins when it outranks every other eligible head, and goes as a pair exactly when a second runner follows it |
| Greedy.Emit | src/api/main.go:224-269 | the lines a round appends (lines 226, 241 and 269): none exactly when it stops, two exactly for a runner pair, all at the current position |
| Greedy.Advance | src/api/main.go:221-268 | the loop variables after a round. A pair moves the runner cursor by two and charges 7 (lines 227-229, 242-244). A single winner moves the cursor of its own size and is charged by its size (lines 255-266). Any dispatch moves the position by one (lines 228, 243, 268) |
| Greedy.AdvanceAccounts | src/api/main.go:221-268 | the three cursors together move past exactly the lines `Emit` appends. A dispatch takes one position. A single winner is charged its size's cost and a pair the runner cost |
| Greedy.Run | src/api/main.go:198-270 | the loop from a given state: a round that stops returns the plan and variables unchanged (line 252); any other appends `Emit` and continues from `Advance`. It terminates because every such round consumes a queued component |
| Greedy.RunExtends | src/api/main.go:198-270 | the loop only appends to the plan and never lowers the queued length or the position counter. It ends within the queues, in a state where nothing is eligible (lines 250-253) |
| Greedy.Schedule | src/api/main.go:189-270 | the loop from its initial state at lines 189-196: empty plan, cursors 0, nothing queued, position 1 |
| Greedy.ChooseProgresses | src/api/main.go:221-266 | every round that does not stop keeps the cursors inside their queues and consumes at least one queued component, so the loop ends |
| PlanProperties.TakeKeepsInv | src/api/main.go:255-269 | committing a single affordable winner (a lone runner only as the runner queue's last) keeps the loop invariant: prefix cursors, the queued-length accounting, and positions |
| PlanProperties.PairKeepsInv | src/api/main.go:221-231 | dispatching two runners at one position for 7 keeps the loop invariant |
| PlanProperties.SingleKeepsShape | src/api/main.go:267-269 | one line at the next position keeps positions numbered and unshared, and moves the counter by one |
| PlanProperties.PairKeepsShape | src/api/main.go:224-228 | two runners at the next position keep the numbering and share only their own position; the first opens a dispatch and the second does not |
| PlanProperties.StepKeepsInv | src/api/main.go:198-270 | every round that does not stop preserves the loop invariant |
| PlanProperties.RunKeepsInv | src/api/main.go:198-270 | from any state satisfying the invariant, the loop ends in a state that satisfies it and in which nothing is eligible |
| PlanProperties.ScheduleProperties | src/api/main.go:189-270 | the final plan: queued length at most the budget. The items of each size are exactly a prefix of their queue, in queue order. Each final cursor is the number of items of its size in the plan, so the plan length is the sum of the three cursors. No component appears more often than queued. Queued length = 7·large + 3·small + 7·runner dispatches. Positions start at 1, never decrease and step by at most one. Only two consecutive runners share a position, and a lone runner is the runner queue's last. Every size is used up or no longer fits. The position counter ends one past the last position, at most the total queue length + 1 |
| PlanProperties.EmptyQueues | src/api/main.go:198-253 | three empty queues give an empty plan, nothing queued and position 1, for any budget |
| PlanProperties.QueueUnbeaten | src/api/main.go:87 | in a sorted queue, a component the head does not outrank is outranked by nothing further back |
| PlanProperties.WinnerUnbeaten | src/api/main.go:201-249 | the component a round dispatches is outranked by no component still waiting in a queue whose size fits the remaining roll |
| PlanProperties.StepKeepsPrioritized | src/api/main.go:198-270 | appending a round's lines keeps every dispatch of the plan unbeaten at the time it was made |
| PlanProperties.RunKeepsPrioritized | src/api/main.go:198-270 | running the loop to the end keeps every dispatch unbeaten |
| PlanProperties.ScheduleHonorsPriority | src/api/main.go:189-270 | for sorted queues, every dispatch of the final plan was, when made, outranked by no waiting component that still fit the roll |
| Packer.Pack | src/api/main.go:189-270 | the imperative loop returns exactly `Schedule`'s plan and queued length, and with them every property of `ScheduleProperties` and `ScheduleHonorsPriority`. Its pass count equals the next position, so the loop makes at most `|large|+|runner|+|small|` passes that do not stop |
| Scenarios.OlderSmallBeforeLarge | src/api/main.go:205-210 | roll 10: an older small displaces the large, then the large still fits; 10 queued |
| Scenarios.TieKeepsLargeFirst | src/api/main.go:201-210 | equal rush and date: the large keeps first place and the small follows; 10 queued |
| Scenarios.RunnerPairOnSeven | src/api/main.go:234-246 | roll 7, two runners: both at position 1, charged 7 together |
| Scenarios.LargeNeverFitsSix | src/api/main.go:201-205 | roll 6: the large is never eligible, the small goes, 3 queued |
| Scenarios.LoneRushRunner | src/api/main.go:216-233 | a rush runner beats an older non-rush large. Alone in its queue it goes singly for 7, then the large follows; 14 queued |

## Left out

- HTTP boundary: request decoding, the rejection of roll lengths of 3 or
  less, status codes and the JSON response (`src/api/main.go:126-152`,
  `:285-290`). This is I/O. The budget is a parameter of `Pack`.
- Flooring the floating-point roll length (`src/api/main.go:143`). The budget
  is modelled as the already-floored natural number.
- `GetRugBucketOfSize` (`src/api/main.go:78-104`), a SQL query plus row
  scanning. Its results are the three input queues, and its size filter and
  sort order are the preconditions above.
- The fetch limits (`src/api/main.go:163`, `:171`, `:179`). They are
  floating-point and only bound the queue lengths, which the packer does not
  depend on.
- The status update and transaction commit after the loop
  (`src/api/main.go:271-283`). This is database plumbing whose errors are
  ignored. As written it issues the `UPDATE` with a `$1` placeholder even for
  an empty plan.
- `UseRugBlocks` (`src/api/main.go:51-64`). The scheduler never calls it.
- Server start-up, routing and shutdown, and `sim/sim.py` (a randomised
  simulation driving the service over HTTP). These are I/O and concurrency.
- Writing `Position` into shared component records: each plan line is
  modelled as an `Entry` pairing the component with its position. Aliasing
  between plan lines and queue slots is not modelled.
- Packer.Pack: the budget is assumed to fit in a Go `int`. The conversion
  `int(nextReq.RollLength)` (`src/api/main.go:201`, `:205`, `:216`) of roll
  lengths of 2^63 or more is not modelled, and neither is a 32-bit `int`.
  The Go conversion there is implementation-dependent (on amd64 it yields the
  most negative `int`, so nothing is eligible and the plan is empty); `Pack`
  instead works with the full length.
- The `Sku` field and the component's size string: a component's size is the
  `Size` datatype, and its order date is an integer timestamp.
