/**
 * The composite demo's neurons: a `Neuron` has a value and two edge lists,
 * `In` and `Out`, which `ConnectTo` appends to.  A single neuron enumerates
 * as the one-element collection of itself, and a `NeuronLayer` as its
 * members, so one extension method connects neurons and layers alike.
 */
module NeuralNetwork {
  import opened Seqs

  class Neuron {
    /** A C# `float`, untouched by connecting. */
    var value: real
    var ins: seq<Neuron>
    var outs: seq<Neuron>

    constructor(value: real)
      ensures this.value == value && ins == [] && outs == []
    {
      this.value := value;
      ins := [];
      outs := [];
    }
  }

  /** A `Collection<Neuron>`. */
  class NeuronLayer {
    var members: seq<Neuron>

    constructor(members: seq<Neuron>)
      ensures this.members == members
    {
      this.members := members;
    }
  }

  /** The two `IEnumerable<Neuron>` kinds the model connects: a neuron, or a layer. */
  datatype Neurons = Single(neuron: Neuron) | Layer(layer: NeuronLayer)

  /** The enumeration: a neuron yields only itself, a layer its members in order. */
  function Elements(e: Neurons): seq<Neuron>
    reads if e.Layer? then {e.layer} else {}
  {
    match e
    case Single(neuron) => [neuron]
    case Layer(layer) => layer.members
  }

  /** Every neuron on either side. */
  function Members(self: Neurons, other: Neurons): set<Neuron>
    reads if self.Layer? then {self.layer} else {}, if other.Layer? then {other.layer} else {}
  {
    set n | n in Elements(self) + Elements(other)
  }

  /** `ReferenceEquals(self, other)`: the same neuron or the same layer object. */
  predicate SameReference(a: Neurons, b: Neurons) {
    a == b
  }

  /** What the outgoing list of `n` gains when every `from` is connected to every `to`. */
  function OutAdded(froms: seq<Neuron>, tos: seq<Neuron>, n: Neuron): seq<Neuron> {
    if froms == [] then []
    else OutAdded(froms[..|froms| - 1], tos, n) + (if froms[|froms| - 1] == n then tos else [])
  }

  /** What the incoming list of `n` gains from one source: `from` for each target that is `n`. */
  function Hits(tos: seq<Neuron>, n: Neuron, from: Neuron): seq<Neuron> {
    if tos == [] then []
    else Hits(tos[..|tos| - 1], n, from) + (if tos[|tos| - 1] == n then [from] else [])
  }

  /** What the incoming list of `n` gains when every `from` is connected to every `to`. */
  function InAdded(froms: seq<Neuron>, tos: seq<Neuron>, n: Neuron): seq<Neuron> {
    if froms == [] then []
    else InAdded(froms[..|froms| - 1], tos, n) + Hits(tos, n, froms[|froms| - 1])
  }

  /** Connecting one more source appends its edges to what the earlier sources added. */
  lemma PrefixStep(froms: seq<Neuron>, i: nat, tos: seq<Neuron>, n: Neuron)
    requires i < |froms|
    ensures OutAdded(froms[..i + 1], tos, n) == OutAdded(froms[..i], tos, n) + (if froms[i] == n then tos else [])
    ensures InAdded(froms[..i + 1], tos, n) == InAdded(froms[..i], tos, n) + Hits(tos, n, froms[i])
  {
    assert froms[..i + 1][..i] == froms[..i];
  }

  /** One edge: `to` at the end of `from`'s outgoing list, `from` at the end of `to`'s incoming list. */
  method Link(from: Neuron, to: Neuron)
    modifies from`outs, to`ins
    ensures from.outs == old(from.outs) + [to] && to.ins == old(to.ins) + [from]
  {
    from.outs := from.outs + [to];
    to.ins := to.ins + [from];
  }

  /** The inner loop: `from` connected to each target in turn. */
  method ConnectFrom(from: Neuron, tos: seq<Neuron>, ghost touched: set<Neuron>)
    requires from in touched && forall j :: 0 <= j < |tos| ==> tos[j] in touched
    modifies touched`outs, touched`ins
    ensures forall n :: n in touched ==> n.outs == old(n.outs) + (if n == from then tos else [])
    ensures forall n :: n in touched ==> n.ins == old(n.ins) + Hits(tos, n, from)
  {
    for j := 0 to |tos|
      invariant forall n :: n in touched ==> n.outs == old(n.outs) + (if n == from then tos[..j] else [])
      invariant forall n :: n in touched ==> n.ins == old(n.ins) + Hits(tos[..j], n, from)
    {
      var to := tos[j];
      assert tos[..j + 1][..j] == tos[..j];
      assert tos[..j + 1] == tos[..j] + [to];
      Link(from, to);
      forall n | n in touched
        ensures n.outs == old(n.outs) + (if n == from then tos[..j + 1] else [])
        ensures n.ins == old(n.ins) + Hits(tos[..j + 1], n, from)
      {
      }
    }
    assert tos[..|tos|] == tos;
  }

  /** The outer loop: each source in turn connected to every target. */
  method ConnectAll(froms: seq<Neuron>, tos: seq<Neuron>, ghost touched: set<Neuron>)
    requires forall i :: 0 <= i < |froms| ==> froms[i] in touched
    requires forall j :: 0 <= j < |tos| ==> tos[j] in touched
    modifies touched`outs, touched`ins
    ensures forall n :: n in touched ==> n.outs == old(n.outs) + OutAdded(froms, tos, n)
    ensures forall n :: n in touched ==> n.ins == old(n.ins) + InAdded(froms, tos, n)
  {
    for i := 0 to |froms|
      invariant forall n :: n in touched ==> n.outs == old(n.outs) + OutAdded(froms[..i], tos, n)
      invariant forall n :: n in touched ==> n.ins == old(n.ins) + InAdded(froms[..i], tos, n)
    {
      var from := froms[i];
      ConnectFrom(from, tos, touched);
      forall n | n in touched
        ensures n.outs == old(n.outs) + OutAdded(froms[..i + 1], tos, n)
        ensures n.ins == old(n.ins) + InAdded(froms[..i + 1], tos, n)
      {
        PrefixStep(froms, i, tos, n);
        Associative(old(n.outs), OutAdded(froms[..i], tos, n), if from == n then tos else []);
        Associative(old(n.ins), InAdded(froms[..i], tos, n), Hits(tos, n, from));
      }
    }
    assert froms[..|froms|] == froms;
  }

  /**
   * `ConnectTo`: nothing when both sides are the same object; otherwise,
   * for each `from` of `self` and then each `to` of `other`, `to` is
   * appended to `from`'s outgoing list and `from` to `to`'s incoming list.
   * Only the edge lists change.
   */
  method ConnectTo(self: Neurons, other: Neurons)
    modifies Members(self, other)`outs, Members(self, other)`ins
    ensures SameReference(self, other) ==>
      forall n :: n in Elements(self) ==> n.outs == old(n.outs) && n.ins == old(n.ins)
    ensures !SameReference(self, other) ==>
      forall n :: n in Members(self, other) ==> n.outs == old(n.outs) + OutAdded(Elements(self), Elements(other), n)
    ensures !SameReference(self, other) ==>
      forall n :: n in Members(self, other) ==> n.ins == old(n.ins) + InAdded(Elements(self), Elements(other), n)
  {
    if SameReference(self, other) {
      return;
    }
    ConnectAll(Elements(self), Elements(other), Members(self, other));
  }

  /** `n`'s outgoing list gains all targets once per occurrence of `n` among the sources. */
  lemma {:induction false} OutAddedLength(froms: seq<Neuron>, tos: seq<Neuron>, n: Neuron)
    ensures |OutAdded(froms, tos, n)| == Count(froms, n) * |tos|
  {
    if froms != [] {
      var front, last := froms[..|froms| - 1], froms[|froms| - 1];
      OutAddedLength(front, tos, n);
      assert froms == front + [last];
      CountAppend(front, [last], n);
      assert [last][1..] == [];
      if last == n {
        MultiplySuccessor(Count(front, n), |tos|);
      }
    }
  }

  lemma MultiplySuccessor(c: nat, k: nat)
    ensures (c + 1) * k == c * k + k
  {
  }

  /** The targets `n` gains are those of `other`, and only when `n` is among the sources. */
  lemma {:induction false} OutAddedMembers(froms: seq<Neuron>, tos: seq<Neuron>, n: Neuron, x: Neuron)
    ensures x in OutAdded(froms, tos, n) <==> n in froms && x in tos
  {
    if froms != [] {
      var front, last := froms[..|froms| - 1], froms[|froms| - 1];
      OutAddedMembers(front, tos, n, x);
      assert froms == front + [last];
    }
  }

  /** One source's contribution to `n`'s incoming list is that source repeated once per occurrence of `n` among the targets. */
  lemma {:induction false} HitsIsRepeat(tos: seq<Neuron>, n: Neuron, from: Neuron)
    ensures Hits(tos, n, from) == Repeat(from, Count(tos, n))
  {
    if tos != [] {
      var front, last := tos[..|tos| - 1], tos[|tos| - 1];
      HitsIsRepeat(front, n, from);
      assert tos == front + [last];
      CountAppend(front, [last], n);
      assert [last][1..] == [];
    }
  }

  /** `n`'s incoming list gains every source once per occurrence of `n` among the targets. */
  lemma {:induction false} InAddedLength(froms: seq<Neuron>, tos: seq<Neuron>, n: Neuron)
    ensures |InAdded(froms, tos, n)| == |froms| * Count(tos, n)
  {
    if froms != [] {
      var front := froms[..|froms| - 1];
      InAddedLength(front, tos, n);
      HitsIsRepeat(tos, n, froms[|froms| - 1]);
      MultiplySuccessor(|front|, Count(tos, n));
    }
  }

  /** The sources `n` gains are those of `self`, and only when `n` is among the targets. */
  lemma {:induction false} InAddedMembers(froms: seq<Neuron>, tos: seq<Neuron>, n: Neuron, x: Neuron)
    ensures x in InAdded(froms, tos, n) <==> x in froms && n in tos
  {
    if froms != [] {
      var front, last := froms[..|froms| - 1], froms[|froms| - 1];
      InAddedMembers(front, tos, n, x);
      HitsIsRepeat(tos, n, last);
      assert froms == front + [last];
      var c := Count(tos, n);
      RepeatContains(last, c, x);
      assert x in InAdded(froms, tos, n) <==> x in InAdded(front, tos, n) || x in Repeat(last, c);
    }
  }

  /** A source that occurs once gains exactly the targets, in `other`'s order. */
  lemma {:induction false} OutAddedOnce(froms: seq<Neuron>, tos: seq<Neuron>, n: Neuron)
    requires Count(froms, n) == 1
    ensures OutAdded(froms, tos, n) == tos
  {
    var front, last := froms[..|froms| - 1], froms[|froms| - 1];
    assert froms == front + [last];
    CountAppend(front, [last], n);
    assert [last][1..] == [];
    if last == n {
      NotInOutAdded(front, tos, n);
    } else {
      OutAddedOnce(front, tos, n);
    }
  }

  lemma {:induction false} NotInOutAdded(froms: seq<Neuron>, tos: seq<Neuron>, n: Neuron)
    requires n !in froms
    ensures OutAdded(froms, tos, n) == []
  {
    if froms != [] {
      NotInOutAdded(froms[..|froms| - 1], tos, n);
    }
  }

  /** A target that occurs once gains exactly the sources, in `self`'s order. */
  lemma {:induction false} InAddedOnce(froms: seq<Neuron>, tos: seq<Neuron>, n: Neuron)
    requires Count(tos, n) == 1
    ensures InAdded(froms, tos, n) == froms
  {
    if froms != [] {
      var front, last := froms[..|froms| - 1], froms[|froms| - 1];
      InAddedOnce(front, tos, n);
      HitsIsRepeat(tos, n, last);
      assert Repeat(last, 1) == [last];
      assert froms == front + [last];
    }
  }

  /** Connecting a neuron to itself: the same object on both sides adds nothing. */
  method SelfConnection() returns (outs: nat, ins: nat)
    ensures outs == 0 && ins == 0
  {
    var neuron := new Neuron(1.0);
    ConnectTo(Single(neuron), Single(neuron));
    outs, ins := |neuron.outs|, |neuron.ins|;
  }

  /** The test connecting two single neurons: a neuron enumerates as itself, so one edge goes each way. */
  method NeuronToNeuronScenario() returns (n1: Neuron, n2: Neuron)
    ensures n1.outs == [n2] && n2.ins == [n1]
    ensures n1.ins == [] && n2.outs == []
  {
    n1 := new Neuron(1.0);
    n2 := new Neuron(2.0);
    var self, other := Single(n1), Single(n2);
    ConnectTo(self, other);
    assert Elements(self) == [n1] && Elements(other) == [n2];
    assert n1 in Members(self, other) && n2 in Members(self, other);
    assert [n1][..0] == [] && [n2][..0] == [];
    assert OutAdded([n1], [n2], n1) == [n2] && OutAdded([n1], [n2], n2) == [];
    assert Hits([n2], n2, n1) == [n1] && Hits([n2], n1, n1) == [];
    assert InAdded([n1], [n2], n2) == [n1] && InAdded([n1], [n2], n1) == [];
  }

  /** The two layers of the test connecting layer to layer, connected. */
  method ConnectedLayers() returns (n1: Neuron, n2: Neuron, n3: Neuron, n4: Neuron)
    ensures n1 != n2 && n1 != n3 && n1 != n4 && n2 != n3 && n2 != n4 && n3 != n4
    ensures n1.outs == OutAdded([n1, n2], [n3, n4], n1) && n2.outs == OutAdded([n1, n2], [n3, n4], n2)
    ensures n3.ins == InAdded([n1, n2], [n3, n4], n3) && n4.ins == InAdded([n1, n2], [n3, n4], n4)
  {
    n1 := new Neuron(1.0);
    n2 := new Neuron(2.0);
    n3 := new Neuron(3.0);
    n4 := new Neuron(4.0);
    var layer1 := new NeuronLayer([n1, n2]);
    var layer2 := new NeuronLayer([n3, n4]);
    var self, other := Layer(layer1), Layer(layer2);
    ConnectTo(self, other);
    assert Elements(self) == [n1, n2] && Elements(other) == [n3, n4];
    assert n1 in Members(self, other) && n2 in Members(self, other);
    assert n3 in Members(self, other) && n4 in Members(self, other);
  }

  /** The test connecting two layers of two neurons each: every edge in both directions, in order. */
  method LayerToLayerScenario() returns (n1: Neuron, n2: Neuron, n3: Neuron, n4: Neuron)
    ensures n1.outs == [n3, n4] && n2.outs == [n3, n4]
    ensures n3.ins == [n1, n2] && n4.ins == [n1, n2]
  {
    n1, n2, n3, n4 := ConnectedLayers();
    ScenarioEdges(n1, n2, n3, n4);
  }

  /** What the test's two layers add: every source's outgoing list is the second layer, every target's incoming list the first. */
  lemma ScenarioEdges(n1: Neuron, n2: Neuron, n3: Neuron, n4: Neuron)
    requires n1 != n2 && n1 != n3 && n1 != n4 && n2 != n3 && n2 != n4 && n3 != n4
    ensures OutAdded([n1, n2], [n3, n4], n1) == [n3, n4] && OutAdded([n1, n2], [n3, n4], n2) == [n3, n4]
    ensures InAdded([n1, n2], [n3, n4], n3) == [n1, n2] && InAdded([n1, n2], [n3, n4], n4) == [n1, n2]
  {
    var froms, tos := [n1, n2], [n3, n4];
    assert froms[1..] == [n2] && tos[1..] == [n4];
    OutAddedOnce(froms, tos, n1);
    OutAddedOnce(froms, tos, n2);
    InAddedOnce(froms, tos, n3);
    InAddedOnce(froms, tos, n4);
  }
}
