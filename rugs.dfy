/** Data model of the roll scheduler: the three component sizes, a pending
    component as the inventory query returns it, one line of a print plan,
    and the priority rule that decides which of two components goes first. */
module Rugs {

  datatype Option<T> = None | Some(value: T)

  /** The component sizes the scheduler packs: "5x7", "2.5x7" (runners) and "3x5". */
  datatype Size = Large | Runner | Small

  /** A pending component: its id, its size, the date of its order (a
      timestamp, as an integer) and whether its line item is a rush. */
  datatype Item = Item(id: int, size: Size, date: int, rush: bool)

  /** One line of the print plan: a component and the position written into it. */
  datatype Entry = Entry(item: Item, position: int)

  /** Roll length a component of size `s` uses up; a size is only considered
      while at least that much of the roll is left. */
  function Cost(s: Size): (c: nat)
    ensures c == 3 <==> s == Small
    ensures c == 7 <==> s != Small
  {
    match s
    case Large => 7
    case Runner => 7
    case Small => 3
  }

  /** True when `l` must be printed before `r`: a rush component beats a
      non-rush one whatever the dates, and between components of equal rush
      the strictly older order wins, so an equal date keeps `r`. */
  predicate HighestPriority(l: Item, r: Item)
    ensures HighestPriority(l, r) <==> !NoLaterThan(r, l)
  {
    if l.rush == r.rush then r.date > l.date else l.rush
  }

  /** The order the inventory query sorts each queue by (rush first, then
      oldest order first): `a` may come no later than `b`. */
  predicate NoLaterThan(a: Item, b: Item)
  {
    (a.rush && !b.rush) || (a.rush == b.rush && a.date <= b.date)
  }

  /** A queue as the inventory query returns it. */
  predicate SortedForPrinting(q: seq<Item>)
  {
    forall i, j :: 0 <= i < j < |q| ==> NoLaterThan(q[i], q[j])
  }

  /** Every component of queue `q` has size `s`, as the query's size filter ensures. */
  predicate OfSize(q: seq<Item>, s: Size)
  {
    forall i :: 0 <= i < |q| ==> q[i].size == s
  }

  lemma RushOutranksNonRush(a: Item, b: Item)
    requires a.rush && !b.rush
    ensures HighestPriority(a, b) && !HighestPriority(b, a)
  {
  }

  lemma SameRushOlderWins(a: Item, b: Item)
    requires a.rush == b.rush
    ensures HighestPriority(a, b) <==> a.date < b.date
  {
  }

  /** Equal rush and equal date: neither outranks the other, so the incumbent stays. */
  lemma TieKeepsIncumbent(a: Item, b: Item)
    requires a.rush == b.rush && a.date == b.date
    ensures !HighestPriority(a, b) && !HighestPriority(b, a)
  {
  }

  lemma Asymmetric(a: Item, b: Item)
    ensures !(HighestPriority(a, b) && HighestPriority(b, a))
  {
  }

  /** The comparator is exactly the strict part of the query's sort order. */
  lemma StrictPartOfQueryOrder(a: Item, b: Item)
    ensures HighestPriority(a, b) <==> !NoLaterThan(b, a)
    ensures NoLaterThan(a, b) || NoLaterThan(b, a)
  {
  }

  /** Outranking is transitive through the query's order, so the comparator
      is a strict weak order (ties are exactly equal rush and equal date). */
  lemma OutranksThrough(a: Item, b: Item, c: Item)
    requires HighestPriority(a, b) && NoLaterThan(b, c)
    ensures HighestPriority(a, c)
  {
  }

  lemma NoLaterThanTransitive(a: Item, b: Item, c: Item)
    requires NoLaterThan(a, b) && NoLaterThan(b, c)
    ensures NoLaterThan(a, c)
  {
  }
}
