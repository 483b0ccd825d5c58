/** Worked examples of the packer on small inputs. */
module Scenarios {
  import opened Rugs
  import opened Greedy

  /** Roll of 10, one large and one older small: the small wins the first
      round on age, then the large still fits the 7 that are left. */
  lemma OlderSmallBeforeLarge()
    ensures var l := Item(1, Large, 5, false);
      var s := Item(2, Small, 0, false);
      var (plan, st) := Schedule(10, [l], [], [s]);
      plan == [Entry(s, 1), Entry(l, 2)] && st.used == 10
  {
    var l := Item(1, Large, 5, false);
    var s := Item(2, Small, 0, false);
    assert Choose(10, [l], [], [s], Start) == Take(s);
    var st1 := State(0, 0, 1, 3, 2);
    assert Choose(10, [l], [], [s], st1) == Take(l);
    var st2 := State(1, 0, 1, 10, 3);
    assert Choose(10, [l], [], [s], st2) == Stop;
  }

  /** Equal rush and equal dates: the large, considered first, keeps its place. */
  lemma TieKeepsLargeFirst()
    ensures var l := Item(1, Large, 5, false);
      var s := Item(2, Small, 5, false);
      var (plan, st) := Schedule(10, [l], [], [s]);
      plan == [Entry(l, 1), Entry(s, 2)] && st.used == 10
  {
    var l := Item(1, Large, 5, false);
    var s := Item(2, Small, 5, false);
    assert Choose(10, [l], [], [s], Start) == Take(l);
    var st1 := State(1, 0, 0, 7, 2);
    assert Choose(10, [l], [], [s], st1) == Take(s);
    var st2 := State(1, 0, 1, 10, 3);
    assert Choose(10, [l], [], [s], st2) == Stop;
  }

  /** Roll of 7 and two runners: both go out together at position 1 for a charge of 7. */
  lemma RunnerPairOnSeven()
    ensures var a := Item(1, Runner, 0, false);
      var b := Item(2, Runner, 0, false);
      var (plan, st) := Schedule(7, [], [a, b], []);
      plan == [Entry(a, 1), Entry(b, 1)] && st.used == 7
  {
    var a := Item(1, Runner, 0, false);
    var b := Item(2, Runner, 0, false);
    assert Choose(7, [], [a, b], [], Start) == TakePair(a, b);
    var st1 := State(0, 2, 0, 7, 2);
    assert Choose(7, [], [a, b], [], st1) == Stop;
  }

  /** Roll of 6: the large never fits, the small does, and then 3 are left over. */
  lemma LargeNeverFitsSix()
    ensures var l := Item(1, Large, 0, false);
      var s := Item(2, Small, 0, false);
      var (plan, st) := Schedule(6, [l], [], [s]);
      plan == [Entry(s, 1)] && st.used == 3
  {
    var l := Item(1, Large, 0, false);
    var s := Item(2, Small, 0, false);
    assert Choose(6, [l], [], [s], Start) == Take(s);
    var st1 := State(0, 0, 1, 3, 2);
    assert Choose(6, [l], [], [s], st1) == Stop;
  }

  /** A rush runner beats an older non-rush large; alone in its queue it is
      dispatched on its own and charged 7. */
  lemma LoneRushRunner()
    ensures var l := Item(1, Large, 0, false);
      var r := Item(2, Runner, 9, true);
      var (plan, st) := Schedule(14, [l], [r], []);
      plan == [Entry(r, 1), Entry(l, 2)] && st.used == 14
  {
    var l := Item(1, Large, 0, false);
    var r := Item(2, Runner, 9, true);
    assert Choose(14, [l], [r], [], Start) == Take(r);
    var st1 := State(0, 1, 0, 7, 2);
    assert Choose(14, [l], [r], [], st1) == Take(l);
    var st2 := State(1, 1, 0, 14, 3);
    assert Choose(14, [l], [r], [], st2) == Stop;
  }
}
