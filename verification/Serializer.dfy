/** The message serializers: a singleton object stands for "attribute not specified" and travels as
    a reserved string. Dictionaries and lists are rewritten in place. */
module Serializer {
  import opened Cloud

  const RESERVED := "@@**ATTR_NOT_SPECIFIED**@@"

  datatype Scalar = NotSpecified | Text(text: string) | Number(number: int) | Boolean(flag: bool) | Null

  const DIRECT_MAPPING := map[NotSpecified := Text(RESERVED)]
  const REVERSE_MAPPING := map[Text(RESERVED) := NotSpecified]

  /** The items of a dictionary in their order; no two have the same key. */
  predicate IsDict(items: seq<(Scalar, Scalar)>) {
    forall i, j :: 0 <= i < j < |items| ==> items[i].0 != items[j].0
  }

  function Reversed(items: seq<(Scalar, Scalar)>): map<Scalar, Scalar> {
    if items == [] then map[] else Reversed(items[..|items| - 1])[items[|items| - 1].1 := items[|items| - 1].0]
  }

  /** Swaps keys and values. */
  method Mapping(items: seq<(Scalar, Scalar)>) returns (reverse: map<Scalar, Scalar>)
    ensures reverse == Reversed(items)
  {
    reverse := map[];
    for n := 0 to |items|
      invariant reverse == Reversed(items[..n])
    {
      assert items[..n + 1][..n] == items[..n];
      reverse := reverse[items[n].1 := items[n].0];
    }
    assert items[..|items|] == items;
  }

  /** No later item has the value of this one. */
  predicate LastOf(items: seq<(Scalar, Scalar)>, i: nat)
    requires i < |items|
  {
    forall j :: i < j < |items| ==> items[j].1 != items[i].1
  }

  lemma {:induction false} ReversedKeys(items: seq<(Scalar, Scalar)>, v: Scalar)
    ensures v in Reversed(items) <==> exists i :: 0 <= i < |items| && items[i].1 == v
  {
    if items != [] {
      ReversedKeys(items[..|items| - 1], v);
    }
  }

  /** Of several keys with the same value the last one stays. */
  lemma {:induction false} ReversedAt(items: seq<(Scalar, Scalar)>, i: nat)
    requires IsDict(items) && i < |items|
    ensures items[i].1 in Reversed(items) && (Reversed(items)[items[i].1] == items[i].0 <==> LastOf(items, i))
  {
    var n := |items| - 1;
    if i < n {
      var before := items[..n];
      ReversedAt(before, i);
      if items[n].1 != items[i].1 {
        assert LastOf(items, i) <==> LastOf(before, i);
      }
    }
  }

  /** So the result is the inverse exactly if no value is repeated. */
  lemma MappingInverts(items: seq<(Scalar, Scalar)>)
    requires IsDict(items)
    ensures (forall k, v :: (v in Reversed(items) && Reversed(items)[v] == k) <==> (k, v) in items)
      <==> forall i, j :: 0 <= i < j < |items| ==> items[i].1 != items[j].1
  {
    var r := Reversed(items);
    if forall i, j :: 0 <= i < j < |items| ==> items[i].1 != items[j].1 {
      forall k, v
        ensures (v in r && r[v] == k) <==> (k, v) in items
      {
        ReversedKeys(items, v);
        if i: nat :| i < |items| && items[i].1 == v {
          ReversedAt(items, i);
          if (k, v) in items {
            var j :| 0 <= j < |items| && items[j] == (k, v);
          }
        }
      }
    } else {
      var i: nat, j: nat :| i < j < |items| && items[i].1 == items[j].1;
      ReversedAt(items, i);
      assert !LastOf(items, i);
      assert (items[i].0, items[i].1) in items;
    }
  }

  datatype Direction = Serializing | Deserializing

  function Swap(d: Direction, s: Scalar): Scalar {
    var mapping := if d.Serializing? then DIRECT_MAPPING else REVERSE_MAPPING;
    if s in mapping then mapping[s] else s
  }

  // ---------------------------------------------------------------- entities as values

  /** A dictionary has the keys of its children, in insertion order; a list has none. */
  datatype Entity = Leaf(scalar: Scalar) | Branch(keys: Option<seq<string>>, kids: seq<Entity>)

  function Translated(d: Direction, e: Entity): Entity {
    match e
    case Leaf(s) => Leaf(Swap(d, s))
    case Branch(keys, kids) => Branch(keys, seq(|kids|, i requires 0 <= i < |kids| => Translated(d, kids[i])))
  }

  predicate Contains(e: Entity, s: Scalar) {
    match e
    case Leaf(t) => s == t
    case Branch(_, kids) => exists i :: 0 <= i < |kids| && Contains(kids[i], s)
  }

  /** Receiving gives back exactly what was sent, unless the reserved string itself was sent. */
  lemma {:induction false} RoundTrip(e: Entity)
    ensures Translated(Deserializing, Translated(Serializing, e)) == e <==> !Contains(e, Text(RESERVED))
  {
    match e {
      case Leaf(_) =>
      case Branch(keys, kids) =>
        var back := Translated(Deserializing, Translated(Serializing, e));
        forall i | 0 <= i < |kids|
          ensures back.kids[i] == kids[i] <==> !Contains(kids[i], Text(RESERVED))
        {
          RoundTrip(kids[i]);
        }
        if forall i :: 0 <= i < |kids| ==> back.kids[i] == kids[i] {
          assert back.kids == kids;
        }
    }
  }

  /** And the other way round, unless the singleton was received. */
  lemma {:induction false} RoundTripBack(e: Entity)
    ensures Translated(Serializing, Translated(Deserializing, e)) == e <==> !Contains(e, NotSpecified)
  {
    match e {
      case Leaf(_) =>
      case Branch(keys, kids) =>
        var back := Translated(Serializing, Translated(Deserializing, e));
        forall i | 0 <= i < |kids|
          ensures back.kids[i] == kids[i] <==> !Contains(kids[i], NotSpecified)
        {
          RoundTripBack(kids[i]);
        }
        if forall i :: 0 <= i < |kids| ==> back.kids[i] == kids[i] {
          assert back.kids == kids;
        }
    }
  }

  /** What was sent never contains the singleton, what was received never the reserved string, and
      a second pass in the same direction changes nothing. */
  lemma {:induction false} TranslatedOnce(d: Direction, e: Entity)
    ensures !Contains(Translated(d, e), if d.Serializing? then NotSpecified else Text(RESERVED))
    ensures Translated(d, Translated(d, e)) == Translated(d, e)
  {
    match e {
      case Leaf(_) =>
      case Branch(keys, kids) =>
        forall i | 0 <= i < |kids|
          ensures Translated(d, Translated(d, kids[i])) == Translated(d, kids[i])
          ensures !Contains(Translated(d, kids[i]), if d.Serializing? then NotSpecified else Text(RESERVED))
        {
          TranslatedOnce(d, kids[i]);
        }
        assert Translated(d, Translated(d, e)).kids == Translated(d, e).kids;
    }
  }

  // ---------------------------------------------------------------- entities in memory

  datatype Value = Plain(scalar: Scalar) | Ref(node: Node)

  /** A dictionary or a list. */
  class Node {
    const keys: Option<seq<string>>
    var kids: seq<Value>

    constructor (keys: Option<seq<string>>, kids: seq<Value>)
      ensures this.keys == keys && this.kids == kids
    {
      this.keys, this.kids := keys, kids;
    }
  }

  /** What some dictionaries and lists hold. */
  type Memory = map<Node, seq<Value>>

  ghost function Now(nodes: set<Node>): Memory
    reads nodes
  {
    map n | n in nodes :: n.kids
  }

  ghost predicate Within(h: Memory, v: Value) {
    v.Ref? ==> v.node in h
  }

  /** Nothing contains itself: what is inside is less deep. One dictionary or list may well be reached in
      several ways. */
  ghost predicate Acyclic(h: Memory, depth: map<Node, nat>) {
    && h.Keys == depth.Keys
    && forall n, i :: n in h && 0 <= i < |h[n]| && h[n][i].Ref? ==>
         h[n][i].node in h && depth[h[n][i].node] < depth[n]
  }

  ghost function Depth(depth: map<Node, nat>, v: Value): nat {
    if v.Ref? && v.node in depth then depth[v.node] + 1 else 0
  }

  ghost function EntityOf(h: Memory, depth: map<Node, nat>, v: Value): Entity
    requires Acyclic(h, depth) && Within(h, v)
    decreases Depth(depth, v)
  {
    match v
    case Plain(s) => Leaf(s)
    case Ref(n) => Branch(n.keys, seq(|h[n]|, i requires 0 <= i < |h[n]| => EntityOf(h, depth, h[n][i])))
  }

  /** Nothing is left to translate. */
  ghost predicate Done(h: Memory, depth: map<Node, nat>, v: Value, d: Direction)
    requires Acyclic(h, depth) && Within(h, v)
    decreases Depth(depth, v)
  {
    match v
    case Plain(s) => Swap(d, s) == s
    case Ref(n) => forall i :: 0 <= i < |h[n]| ==> Done(h, depth, h[n][i], d)
  }

  // ---------------------------------------------------------------- memory that is being translated

  /** A slot keeps its dictionary or list; a scalar is kept or translated. */
  predicate SlotMoves(d: Direction, a: Value, b: Value) {
    if a.Ref? then b == a else b.Plain? && (b.scalar == a.scalar || b.scalar == Swap(d, a.scalar))
  }

  ghost predicate SameSizes(a: Memory, b: Memory) {
    a.Keys == b.Keys && forall n :: n in a ==> |b[n]| == |a[n]|
  }

  ghost predicate Moves(d: Direction, a: Memory, b: Memory) {
    SameSizes(a, b) && forall n, i :: n in a && 0 <= i < |a[n]| ==> SlotMoves(d, a[n][i], b[n][i])
  }

  lemma SlotMovesOn(d: Direction, a: Value, b: Value, c: Value)
    requires SlotMoves(d, a, b) && SlotMoves(d, b, c)
    ensures SlotMoves(d, a, c)
  {
  }

  lemma MovesOn(d: Direction, a: Memory, b: Memory, c: Memory)
    requires Moves(d, a, b) && Moves(d, b, c)
    ensures Moves(d, a, c)
  {
    hide SlotMoves;
    forall n, i | n in a && 0 <= i < |a[n]|
      ensures SlotMoves(d, a[n][i], c[n][i])
    {
      SlotMovesOn(d, a[n][i], b[n][i], c[n][i]);
    }
  }

  lemma StaysAcyclic(d: Direction, depth: map<Node, nat>, a: Memory, b: Memory)
    requires Moves(d, a, b) && Acyclic(a, depth)
    ensures Acyclic(b, depth)
  {
    forall n, i | n in b && 0 <= i < |b[n]| && b[n][i].Ref?
      ensures b[n][i].node in b && depth[b[n][i].node] < depth[n]
    {
      assert SlotMoves(d, a[n][i], b[n][i]);
    }
  }

  /** What is translated stays as it is. */
  lemma {:induction false} StaysDone(d: Direction, depth: map<Node, nat>, a: Memory, b: Memory, v: Value)
    requires Moves(d, a, b) && Acyclic(a, depth) && Acyclic(b, depth)
    requires Within(a, v) && Done(a, depth, v, d)
    ensures Done(b, depth, v, d)
    decreases Depth(depth, v)
  {
    if v.Ref? {
      var n := v.node;
      forall i | 0 <= i < |b[n]|
        ensures Done(b, depth, b[n][i], d)
      {
        assert SlotMoves(d, a[n][i], b[n][i]) && Done(a, depth, a[n][i], d);
        StaysDone(d, depth, a, b, a[n][i]);
      }
    }
  }

  /** Once nothing is left to translate, the value is the translation of what it was. */
  lemma {:induction false} DoneIsTranslated(d: Direction, depth: map<Node, nat>, a: Memory, b: Memory, v: Value)
    requires Moves(d, a, b) && Acyclic(a, depth) && Acyclic(b, depth)
    requires v.Ref? && v.node in a && Done(b, depth, v, d)
    ensures EntityOf(b, depth, v) == Translated(d, EntityOf(a, depth, v))
    decreases Depth(depth, v)
  {
    var n := v.node;
    var after, translated := EntityOf(b, depth, v), Translated(d, EntityOf(a, depth, v));
    forall i | 0 <= i < |a[n]|
      ensures after.kids[i] == translated.kids[i]
    {
      assert SlotMoves(d, a[n][i], b[n][i]) && Done(b, depth, b[n][i], d);
      assert after.kids[i] == EntityOf(b, depth, b[n][i]);
      assert translated.kids[i] == Translated(d, EntityOf(a, depth, a[n][i]));
      if a[n][i].Ref? {
        DoneIsTranslated(d, depth, a, b, a[n][i]);
      }
    }
    assert after.kids == translated.kids;
  }

  /** Whoever shares dictionaries or lists with the translated value finds them translated or not; in either
      case a translation of his own gives what it would have given before. */
  lemma {:induction false} SharersAgree(d: Direction, depth: map<Node, nat>, a: Memory, b: Memory, v: Value)
    requires Moves(d, a, b) && Acyclic(a, depth) && Acyclic(b, depth) && Within(a, v)
    ensures Translated(d, EntityOf(b, depth, v)) == Translated(d, EntityOf(a, depth, v))
    decreases Depth(depth, v)
  {
    if v.Ref? {
      var n := v.node;
      var after, before := Translated(d, EntityOf(b, depth, v)), Translated(d, EntityOf(a, depth, v));
      forall i | 0 <= i < |a[n]|
        ensures after.kids[i] == before.kids[i]
      {
        assert after.kids[i] == Translated(d, EntityOf(b, depth, b[n][i]));
        assert before.kids[i] == Translated(d, EntityOf(a, depth, a[n][i]));
        assert SlotMoves(d, a[n][i], b[n][i]);
        if a[n][i].Ref? {
          SharersAgree(d, depth, a, b, a[n][i]);
        }
      }
      assert after.kids == before.kids;
    }
  }

  // ---------------------------------------------------------------- the serializer

  lemma LessDeep(h: Memory, depth: map<Node, nat>, n: Node, i: nat)
    requires Acyclic(h, depth) && n in h && i < |h[n]|
    ensures Within(h, h[n][i]) && Depth(depth, h[n][i]) <= depth[n] < Depth(depth, Ref(n))
  {
  }

  /** The slots before `i` are done. */
  ghost predicate DoneTo(h: Memory, depth: map<Node, nat>, n: Node, i: nat, d: Direction)
    requires Acyclic(h, depth) && n in h && i <= |h[n]|
  {
    forall j :: 0 <= j < i ==> Done(h, depth, h[n][j], d)
  }

  /** Writing what became of slot `i` back into it. */
  lemma SlotWritten(d: Direction, depth: map<Node, nat>, a: Memory, b: Memory, c: Memory, n: Node, i: nat, r: Value)
    requires Moves(d, a, b) && Acyclic(a, depth) && Acyclic(b, depth) && n in a && i < |a[n]|
    requires DoneTo(a, depth, n, i, d)
    requires b[n] == a[n] && Within(b, r) && Done(b, depth, r, d)
    requires if a[n][i].Ref? then r == a[n][i] else r == Plain(Swap(d, a[n][i].scalar))
    requires c == b[n := b[n][i := r]]
    ensures Moves(d, a, c) && Acyclic(c, depth) && DoneTo(c, depth, n, i + 1, d)
  {
    assert Moves(d, b, c);
    MovesOn(d, a, b, c);
    StaysAcyclic(d, depth, b, c);
    forall j | 0 <= j < i + 1
      ensures Done(c, depth, c[n][j], d)
    {
      if j == i {
        StaysDone(d, depth, b, c, r);
      } else {
        StaysDone(d, depth, a, c, a[n][j]);
      }
    }
  }

  /** Rewrites everything that can be reached, in place, and returns the very same dictionary or list.
      `nodes` are closed under containment; the least such set holds what can be reached. */
  method Translate(v: Value, d: Direction, ghost nodes: set<Node>, ghost depth: map<Node, nat>) returns (r: Value)
    requires Acyclic(Now(nodes), depth) && Within(Now(nodes), v)
    modifies nodes
    ensures v.Ref? ==> r == v
    ensures v.Plain? ==> r == Plain(Swap(d, v.scalar))
    ensures Moves(d, old(Now(nodes)), Now(nodes)) && Acyclic(Now(nodes), depth)
    ensures Done(Now(nodes), depth, r, d)
    ensures forall n :: n in nodes && depth[n] >= Depth(depth, v) ==> n.kids == old(n.kids)
    decreases Depth(depth, v), 1
  {
    ghost var start := Now(nodes);
    match v
    case Plain(s) =>
      r := Plain(Swap(d, s));
    case Ref(n) =>
      for i := 0 to |n.kids|
        invariant |n.kids| == |start[n]|
        invariant Moves(d, start, Now(nodes)) && Acyclic(Now(nodes), depth)
        invariant DoneTo(Now(nodes), depth, n, i, d)
        invariant forall m :: m in nodes && depth[m] > depth[n] ==> m.kids == old(m.kids)
      {
        hide Acyclic, Within, Done, DoneTo, Swap, SlotMoves;
        ghost var before := Now(nodes);
        TranslateSlot(n, i, d, nodes, depth);
        MovesOn(d, start, before, Now(nodes));
      }
      r := v;
  }

  /** One slot is translated, and what it became is written back into it. */
  method TranslateSlot(n: Node, i: nat, d: Direction, ghost nodes: set<Node>, ghost depth: map<Node, nat>)
    requires Acyclic(Now(nodes), depth) && n in nodes && i < |n.kids| && DoneTo(Now(nodes), depth, n, i, d)
    modifies nodes
    ensures Moves(d, old(Now(nodes)), Now(nodes)) && Acyclic(Now(nodes), depth)
    ensures |n.kids| == old(|n.kids|) && DoneTo(Now(nodes), depth, n, i + 1, d)
    ensures forall m :: m in nodes && depth[m] > depth[n] ==> m.kids == old(m.kids)
    decreases Depth(depth, Ref(n)), 0
  {
    hide Acyclic, Within, Done, DoneTo, Swap, SlotMoves, Moves;
    ghost var before := Now(nodes);
    LessDeep(before, depth, n, i);
    var kid := Translate(n.kids[i], d, nodes, depth);
    ghost var between := Now(nodes);
    n.kids := n.kids[i := kid];
    assert Now(nodes) == between[n := between[n][i := kid]];
    SlotWritten(d, depth, before, between, Now(nodes), n, i, kid);
  }

  /** What is sent: the same object, now holding the translation. */
  method SerializeEntity(v: Value, ghost nodes: set<Node>, ghost depth: map<Node, nat>) returns (r: Value)
    requires Acyclic(Now(nodes), depth) && Within(Now(nodes), v)
    modifies nodes
    ensures Acyclic(Now(nodes), depth) && Within(Now(nodes), r) && (v.Ref? ==> r == v)
    ensures EntityOf(Now(nodes), depth, r) == Translated(Serializing, old(EntityOf(Now(nodes), depth, v)))
    ensures Moves(Serializing, old(Now(nodes)), Now(nodes))
  {
    ghost var start := Now(nodes);
    r := Translate(v, Serializing, nodes, depth);
    if v.Ref? {
      DoneIsTranslated(Serializing, depth, start, Now(nodes), v);
    }
  }

  method DeserializeEntity(v: Value, ghost nodes: set<Node>, ghost depth: map<Node, nat>) returns (r: Value)
    requires Acyclic(Now(nodes), depth) && Within(Now(nodes), v)
    modifies nodes
    ensures Acyclic(Now(nodes), depth) && Within(Now(nodes), r) && (v.Ref? ==> r == v)
    ensures EntityOf(Now(nodes), depth, r) == Translated(Deserializing, old(EntityOf(Now(nodes), depth, v)))
    ensures Moves(Deserializing, old(Now(nodes)), Now(nodes))
  {
    ghost var start := Now(nodes);
    r := Translate(v, Deserializing, nodes, depth);
    if v.Ref? {
      DoneIsTranslated(Deserializing, depth, start, Now(nodes), v);
    }
  }
}
