/**
 * The `BidirectionalList<T>` assignment: an append-only list that can be
 * enumerated front to back and, without copying, back to front.
 *
 * The wrapped `LinkedList<T>` is kept as the sequence of its node values
 * and its version, which every change bumps and every enumerator checks;
 * `Backward` walks it from the last position to the first, one `Previous`
 * step at a time.
 */
module BidirectionalList {
  import opened Seqs
  import opened Outcomes

  /** What a `LinkedList<T>` enumerator throws once its list has changed. */
  const CollectionModified := "Collection was modified; enumeration operation may not execute."

  class BidirectionalList<T> {
    var list: seq<T>
    var version: nat

    constructor()
      ensures list == [] && version == 0
    {
      list := [];
      version := 0;
    }

    function Count(): nat
      reads this
    {
      |list|
    }

    /** `AddLast`. */
    method Add(value: T)
      modifies this
      ensures list == old(list) + [value] && version == old(version) + 1
    {
      list := list + [value];
      version := version + 1;
    }

    /** `Add` on each value in turn, for values the loop does not change. */
    method AddRange(values: seq<T>)
      modifies this
      ensures list == old(list) + values && version == old(version) + |values|
    {
      for k := 0 to |values|
        invariant list == old(list) + values[..k] && version == old(version) + k
      {
        assert values[..k + 1] == values[..k] + [values[k]];
        Add(values[k]);
      }
      assert values[..|values|] == values;
    }

    /**
     * `AddRange` handed the list itself: the `foreach` enumerates the list it
     * appends to.  Each `MoveNext` first checks the version, so after the
     * first value is appended the next step throws; an empty list yields
     * nothing and completes.
     */
    method AddRangeOfItself() returns (outcome: Outcome)
      modifies this
      ensures old(list) == [] ==> outcome == Completed && list == []
      ensures old(list) != [] ==>
        outcome == Threw(InvalidOperation(CollectionModified)) && list == old(list) + [old(list)[0]]
    {
      var enumerated := version;
      var k := 0;
      while true
        invariant k == 0 ==> list == old(list) && version == enumerated
        invariant k == 1 ==> old(list) != [] && list == old(list) + [old(list)[0]] && version == enumerated + 1
        invariant k <= 1
        decreases 1 - k
      {
        if version != enumerated {
          return Threw(InvalidOperation(CollectionModified));
        }
        if k == |list| {
          return Completed;
        }
        Add(list[k]);
        k := k + 1;
      }
    }

    /** The forward enumerator: insertion order. */
    method Forward() returns (items: seq<T>)
      ensures items == list
    {
      items := [];
      for k := 0 to |list|
        invariant items == list[..k]
      {
        assert list[..k + 1] == list[..k] + [list[k]];
        items := items + [list[k]];
      }
      assert list[..|list|] == list;
    }

    /** `Backward`: from the last node through each `Previous` link to the first. */
    method Backward() returns (items: seq<T>)
      ensures items == Reverse(list)
    {
      items := [];
      var node := |list| - 1;
      while node >= 0
        invariant -1 <= node < |list|
        invariant |items| == |list| - 1 - node
        invariant forall i :: 0 <= i < |items| ==> items[i] == list[|list| - 1 - i]
      {
        items := items + [list[node]];
        node := node - 1;
      }
    }
  }

  /** After `Add(x)`, the backward walk starts with `x` and then walks the old list backward. */
  lemma ReverseAfterAdd<T>(s: seq<T>, x: T)
    ensures Reverse(s + [x]) == [x] + Reverse(s)
  {
    assert forall i :: 0 <= i < |s| + 1 ==> Reverse(s + [x])[i] == ([x] + Reverse(s))[i];
  }

  /** The test: `AddRange([1, 2, 3])` gives count 3, forward 1, 2, 3 and backward 3, 2, 1. */
  method ListScenario() returns (before: nat, after: nat, forward: seq<int>, backward: seq<int>)
    ensures before == 0 && after == 3
    ensures forward == [1, 2, 3] && backward == [3, 2, 1]
  {
    var list := new BidirectionalList<int>();
    before := list.Count();
    list.AddRange([1, 2, 3]);
    after := list.Count();
    forward := list.Forward();
    backward := list.Backward();
  }

  /** `AddRange` of a list of 1, 2, 3 into itself appends 1 and then throws. */
  method SelfAddRangeScenario() returns (outcome: Outcome, contents: seq<int>)
    ensures outcome == Threw(InvalidOperation(CollectionModified)) && contents == [1, 2, 3, 1]
  {
    var list := new BidirectionalList<int>();
    list.AddRange([1, 2, 3]);
    outcome := list.AddRangeOfItself();
    contents := list.Forward();
  }
}
