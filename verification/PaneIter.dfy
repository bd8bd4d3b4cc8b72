/** The iterator over the panes of a layout, which keeps its own stack (src/config/tabs.rs). */
module PaneIter {
  import opened Common

  datatype Layout = Pane(id: nat) | Split(panes: seq<Layout>)

  /** The panes of a layout from left to right. */
  function Leaves(l: Layout): seq<nat> {
    match l
    case Pane(id) => [id]
    case Split(panes) => AllLeaves(panes)
  }

  function AllLeaves(ls: seq<Layout>): seq<nat> {
    if ls == [] then [] else Leaves(ls[0]) + AllLeaves(ls[1..])
  }

  function Reverse(s: seq<nat>): (r: seq<nat>)
    ensures |r| == |s| && forall i :: 0 <= i < |s| ==> r[i] == s[|s| - 1 - i]
  {
    if s == [] then [] else Reverse(s[1..]) + [s[0]]
  }

  /** The number of panes and splits. */
  function Size(l: Layout): nat {
    match l
    case Pane(_) => 1
    case Split(panes) => 1 + AllSize(panes)
  }

  function AllSize(ls: seq<Layout>): nat {
    if ls == [] then 0 else Size(ls[0]) + AllSize(ls[1..])
  }

  lemma {:induction false} LeavesPlus(a: seq<Layout>, b: seq<Layout>)
    ensures AllLeaves(a + b) == AllLeaves(a) + AllLeaves(b)
    ensures AllSize(a + b) == AllSize(a) + AllSize(b)
    decreases |a|
  {
    if a == [] {
      assert a + b == b;
    } else {
      LeavesPlus(a[1..], b);
      assert (a + b)[1..] == a[1..] + b;
    }
  }

  lemma LeavesOfOne(layout: Layout)
    ensures AllLeaves([layout]) == Leaves(layout) && AllSize([layout]) == Size(layout)
  {
  }

  lemma LeavesOfLast(queue: seq<Layout>)
    requires queue != []
    ensures var last := queue[|queue| - 1];
      && AllLeaves(queue) == AllLeaves(queue[..|queue| - 1]) + Leaves(last)
      && AllSize(queue) == AllSize(queue[..|queue| - 1]) + Size(last)
  {
    var before, last := queue[..|queue| - 1], queue[|queue| - 1];
    assert queue == before + [last];
    LeavesPlus(before, [last]);
    LeavesOfOne(last);
  }

  lemma ReverseOfLast(s: seq<nat>, x: nat)
    ensures Reverse(s + [x]) == [x] + Reverse(s)
  {
  }

  class Panes {
    /** The stack; its top is at the end. */
    var queue: seq<Layout>

    constructor (layout: Layout)
      ensures Rest() == Reverse(Leaves(layout))
    {
      queue := if layout.Pane? then [layout] else layout.panes;
      new;
      LeavesOfOne(layout);
    }

    /** What is still to come. */
    ghost function Rest(): seq<nat>
      reads this
    {
      Reverse(AllLeaves(queue))
    }

    method Next() returns (r: Option<nat>)
      modifies this
      ensures old(Rest()) == [] ==> r == None && Rest() == []
      ensures old(Rest()) != [] ==> r == Some(old(Rest())[0]) && Rest() == old(Rest())[1..]
      decreases AllSize(queue)
    {
      if queue == [] {
        return None;
      }
      LeavesOfLast(queue);
      var top := queue[|queue| - 1];
      queue := queue[..|queue| - 1];
      match top {
        case Pane(id) =>
          ReverseOfLast(AllLeaves(queue), id);
          return Some(id);
        case Split(panes) =>
          LeavesPlus(queue, panes);
          queue := queue + panes;
          r := Next();
      }
    }
  }

  function Count(s: seq<nat>, x: nat): nat {
    if s == [] then 0 else (if s[0] == x then 1 else 0) + Count(s[1..], x)
  }

  lemma {:induction false} CountPlus(a: seq<nat>, b: seq<nat>, x: nat)
    ensures Count(a + b, x) == Count(a, x) + Count(b, x)
    decreases |a|
  {
    if a == [] {
      assert a + b == b;
    } else {
      CountPlus(a[1..], b, x);
      assert (a + b)[1..] == a[1..] + b;
    }
  }

  lemma {:induction false} CountReverse(s: seq<nat>, x: nat)
    ensures Count(Reverse(s), x) == Count(s, x)
    decreases |s|
  {
    if s != [] {
      CountReverse(s[1..], x);
      CountPlus(Reverse(s[1..]), [s[0]], x);
      assert [s[0]][1..] == [];
    }
  }

  /** How often a pane is in a layout. */
  function Occurrences(l: Layout, x: nat): nat {
    match l
    case Pane(id) => if id == x then 1 else 0
    case Split(panes) => AllOccurrences(panes, x)
  }

  function AllOccurrences(ls: seq<Layout>, x: nat): nat {
    if ls == [] then 0 else Occurrences(ls[0], x) + AllOccurrences(ls[1..], x)
  }

  lemma {:induction false} CountLeaves(l: Layout, x: nat)
    ensures Count(Leaves(l), x) == Occurrences(l, x)
    decreases l, 0
  {
    match l
    case Pane(id) => assert [id][1..] == [];
    case Split(panes) => CountAllLeaves(panes, x);
  }

  lemma {:induction false} CountAllLeaves(ls: seq<Layout>, x: nat)
    ensures Count(AllLeaves(ls), x) == AllOccurrences(ls, x)
    decreases ls, 1
  {
    if ls != [] {
      CountLeaves(ls[0], x);
      CountAllLeaves(ls[1..], x);
      CountPlus(Leaves(ls[0]), AllLeaves(ls[1..]), x);
    }
  }

  lemma YieldedAsOften(layout: Layout, x: nat)
    ensures Count(Reverse(Leaves(layout)), x) == Occurrences(layout, x)
  {
    CountReverse(Leaves(layout), x);
    CountLeaves(layout, x);
  }

  /** Every pane once, from right to left, and then nothing any more. */
  method PanesOf(layout: Layout) returns (yielded: seq<nat>)
    ensures yielded == Reverse(Leaves(layout))
    ensures forall x :: Count(yielded, x) == Occurrences(layout, x)
  {
    var panes := new Panes(layout);
    yielded := [];
    var next := panes.Next();
    while next.Some?
      invariant yielded + (if next.Some? then [next.value] + panes.Rest() else []) == Reverse(Leaves(layout))
      invariant next.None? ==> panes.Rest() == []
      decreases next.Some?, |panes.Rest()|
    {
      yielded := yielded + [next.value];
      next := panes.Next();
    }
    assert yielded == Reverse(Leaves(layout));
    forall x ensures Count(yielded, x) == Occurrences(layout, x) {
      YieldedAsOften(layout, x);
    }
  }
}
