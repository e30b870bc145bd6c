/**
 * detach: cut the gradient history of a (nested) hidden state.  Lists and
 * tuples are rebuilt element-wise as lists; every tensor leaf is replaced by
 * a copy that is no longer recorded on the autograd tape.
 */
module HiddenState {

  /** A tensor leaf: its value and whether it is still attached to the recorded graph. */
  datatype Tensor<V> = Tensor(value: V, attached: bool)

  /** A hidden state: a tensor, or a list or tuple of hidden states. */
  datatype Hidden<V> = Leaf(tensor: Tensor<V>) | List(items: seq<Hidden<V>>) | Tuple(items: seq<Hidden<V>>)

  /** The nesting of a hidden state, with lists and tuples alike. */
  datatype Shape = TensorShape | Node(children: seq<Shape>)

  function Detach<V>(h: Hidden<V>): (r: Hidden<V>)
    ensures h.Leaf? <==> r.Leaf?
    ensures !h.Leaf? ==> r.List? && |r.items| == |h.items|
  {
    match h
    case Leaf(t) => Leaf(Tensor(t.value, false))
    case List(items) => List(seq(|items|, k requires 0 <= k < |items| => Detach(items[k])))
    case Tuple(items) => List(seq(|items|, k requires 0 <= k < |items| => Detach(items[k])))
  }

  function ShapeOf<V>(h: Hidden<V>): Shape
  {
    match h
    case Leaf(_) => TensorShape
    case List(items) => Node(seq(|items|, k requires 0 <= k < |items| => ShapeOf(items[k])))
    case Tuple(items) => Node(seq(|items|, k requires 0 <= k < |items| => ShapeOf(items[k])))
  }

  function Flatten<V>(parts: seq<seq<V>>): seq<V>
  {
    if parts == [] then [] else parts[0] + Flatten(parts[1..])
  }

  /** The tensor values at the leaves, left to right. */
  function LeafValues<V>(h: Hidden<V>): seq<V>
  {
    match h
    case Leaf(t) => [t.value]
    case List(items) => Flatten(seq(|items|, k requires 0 <= k < |items| => LeafValues(items[k])))
    case Tuple(items) => Flatten(seq(|items|, k requires 0 <= k < |items| => LeafValues(items[k])))
  }

  /** No leaf is attached to the recorded graph. */
  ghost predicate Severed<V>(h: Hidden<V>)
  {
    match h
    case Leaf(t) => !t.attached
    case List(items) => forall k :: 0 <= k < |items| ==> Severed(items[k])
    case Tuple(items) => forall k :: 0 <= k < |items| ==> Severed(items[k])
  }

  /** Only lists, no tuples, at every level. */
  ghost predicate ListsOnly<V>(h: Hidden<V>)
  {
    match h
    case Leaf(_) => true
    case List(items) => forall k :: 0 <= k < |items| ==> ListsOnly(items[k])
    case Tuple(_) => false
  }

  /** detach keeps the nesting: same leaves in the same places, containers of the same lengths. */
  lemma {:induction false} DetachKeepsShape<V>(h: Hidden<V>)
    ensures ShapeOf(Detach(h)) == ShapeOf(h)
  {
    if !h.Leaf? {
      forall k | 0 <= k < |h.items| ensures ShapeOf(Detach(h.items[k])) == ShapeOf(h.items[k]) {
        DetachKeepsShape(h.items[k]);
      }
      assert ShapeOf(Detach(h)).children == ShapeOf(h).children;
    }
  }

  /** detach replaces only leaves, and each by a tensor with the same value. */
  lemma {:induction false} DetachKeepsValues<V>(h: Hidden<V>)
    ensures LeafValues(Detach(h)) == LeafValues(h)
  {
    if !h.Leaf? {
      forall k | 0 <= k < |h.items| ensures LeafValues(Detach(h.items[k])) == LeafValues(h.items[k]) {
        DetachKeepsValues(h.items[k]);
      }
      var d := Detach(h);
      assert seq(|d.items|, k requires 0 <= k < |d.items| => LeafValues(d.items[k]))
          == seq(|h.items|, k requires 0 <= k < |h.items| => LeafValues(h.items[k]));
    }
  }

  /** After detach no leaf is attached, and every container is a list. */
  lemma {:induction false} DetachSevers<V>(h: Hidden<V>)
    ensures Severed(Detach(h)) && ListsOnly(Detach(h))
  {
    if !h.Leaf? {
      forall k | 0 <= k < |h.items| ensures Severed(Detach(h.items[k])) && ListsOnly(Detach(h.items[k])) {
        DetachSevers(h.items[k]);
      }
    }
  }

  /** Detaching twice is detaching once. */
  lemma {:induction false} DetachIdempotent<V>(h: Hidden<V>)
    ensures Detach(Detach(h)) == Detach(h)
  {
    if !h.Leaf? {
      forall k | 0 <= k < |h.items| ensures Detach(Detach(h.items[k])) == Detach(h.items[k]) {
        DetachIdempotent(h.items[k]);
      }
      assert Detach(Detach(h)).items == Detach(h).items;
    }
  }
}
