/**
 The search tree that dup_mmap builds beside the list of memory areas.

 A tree is a value over the areas it indexes.  A slot is an address into which a link is stored,
 so storing through a slot overwrites whatever hung there; nothing in the definition of
 `StoreRight` says that the slot was empty.
 */
module VmaTree {

  datatype Tree<T> = Leaf | Node(left: Tree<T>, item: T, right: Tree<T>)

  /** Where the next node is to be linked: the root pointer, or the right pointer of a node. */
  datatype Slot<T> = RootSlot | RightOf(item: T)

  function InOrder<T>(t: Tree<T>): seq<T> {
    match t
    case Leaf => []
    case Node(l, v, r) => InOrder(l) + [v] + InOrder(r)
  }

  /** The effect of storing a fresh one-node tree for x through the right pointer of v. */
  function StoreRight<T(==)>(t: Tree<T>, v: T, x: T): Tree<T> {
    match t
    case Leaf => Leaf
    case Node(l, u, r) =>
      if u == v then Node(l, u, Node(Leaf, x, Leaf))
      else Node(StoreRight(l, v, x), u, StoreRight(r, v, x))
  }

  function Store<T(==)>(t: Tree<T>, slot: Slot<T>, x: T): Tree<T> {
    match slot
    case RootSlot => Node(Leaf, x, Leaf)
    case RightOf(v) => StoreRight(t, v, x)
  }

  /** v lies at the end of the right spine, so that nothing hangs from its right pointer. */
  predicate IsRightmost<T(==)>(t: Tree<T>, v: T) {
    t.Node? && if t.right.Leaf? then t.item == v else IsRightmost(t.right, v)
  }

  /** The slot is empty and what is stored there comes last. */
  predicate EmptyLastSlot<T(==)>(t: Tree<T>, slot: Slot<T>) {
    match slot
    case RootSlot => t.Leaf?
    case RightOf(v) => IsRightmost(t, v)
  }

  /** The last element occurs nowhere before the end. */
  predicate LastIsNew<T(==)>(s: seq<T>) {
    s != [] ==> s[|s| - 1] !in s[..|s| - 1]
  }

  lemma {:induction false} StoreRightElsewhere<T>(t: Tree<T>, v: T, x: T)
    requires v !in InOrder(t)
    ensures StoreRight(t, v, x) == t
  {
    match t
    case Leaf =>
    case Node(l, u, r) =>
      assert forall y :: y in InOrder(l) || y == u || y in InOrder(r) ==> y in InOrder(t);
      StoreRightElsewhere(l, v, x);
      StoreRightElsewhere(r, v, x);
  }

  lemma {:induction false} LastIsRightmost<T>(t: Tree<T>, s: seq<T>, v: T)
    requires InOrder(t) == s + [v]
    ensures IsRightmost(t, v)
  {
    assert t.Node?;
    assert InOrder(t)[|s|] == v;
    if t.right.Node? {
      var r := InOrder(t.right);
      assert InOrder(t) == (InOrder(t.left) + [t.item]) + r;
      assert |r| > 0 by {
        assert t.right.item in r;
      }
      assert r == r[..|r| - 1] + [v];
      LastIsRightmost(t.right, r[..|r| - 1], v);
    }
  }

  lemma {:induction false} StoreRightAtRightmost<T>(t: Tree<T>, s: seq<T>, v: T, x: T)
    requires InOrder(t) == s + [v] && v !in s
    ensures InOrder(StoreRight(t, v, x)) == s + [v, x]
  {
    LastIsRightmost(t, s, v);
    var Node(l, u, r) := t;
    var front, back := InOrder(l) + [u], InOrder(r);
    assert InOrder(t) == front + back;
    if r.Leaf? {
      assert front == s + [v];
      assert InOrder(l) == front[..|front| - 1] == s;
      assert InOrder(StoreRight(t, v, x)) == s + [v] + ([] + [x] + []);
    } else {
      RightmostIn(r, v);
      var s' := back[..|back| - 1];
      assert s + [v] == front + back && back == s' + [v];
      assert s == (s + [v])[..|s|] == (front + back)[..|s|] == front + s';
      assert forall y :: y in InOrder(l) || y == u || y in s' ==> y in s;
      StoreRightElsewhere(l, v, x);
      StoreRightAtRightmost(r, s', v, x);
    }
  }

  lemma {:induction false} RightmostIn<T>(t: Tree<T>, v: T)
    requires IsRightmost(t, v)
    ensures InOrder(t) != [] && InOrder(t)[|InOrder(t)| - 1] == v
  {
    if t.right.Node? {
      RightmostIn(t.right, v);
    }
  }

  /** The slot that the copy loop carries from one area to the next. */
  function LastSlot<T>(s: seq<T>): Slot<T> {
    if s == [] then RootSlot else RightOf(s[|s| - 1])
  }

  /**
   Whatever shape rebalancing gave the tree, a tree that lists s in order has its last slot empty,
   and storing through it lists s + [x].
   */
  lemma StoreAtLastSlot<T>(t: Tree<T>, s: seq<T>, x: T)
    requires InOrder(t) == s && LastIsNew(s)
    ensures EmptyLastSlot(t, LastSlot(s))
    ensures InOrder(Store(t, LastSlot(s), x)) == s + [x]
  {
    if s == [] {
      assert t.Node? ==> |InOrder(t)| > 0;
    } else {
      var front, v := s[..|s| - 1], s[|s| - 1];
      assert s == front + [v];
      LastIsRightmost(t, front, v);
      StoreRightAtRightmost(t, front, v, x);
      assert front + [v, x] == s + [x];
    }
  }
}
