/**
 The mutable XOR trie. Every node owns the objects below it and keeps the value of
 the tree below it in `shape`; each method is tied to the operation of the same name
 on values.
 */
module XorTries {
  import opened Wrappers
  import opened TrieKeys
  import T = Tries
  import opened TrieFacts

  class XorTrie {
    var branch0: XorTrie?
    var branch1: XorTrie?
    var key: Option<TrieKey>
    ghost var shape: T.Trie
    ghost var Repr: set<object>

    ghost predicate Valid()
      reads this, Repr
      decreases Repr
      ensures Valid() ==> this in Repr
    {
      && this in Repr
      && (branch0 == null <==> branch1 == null)
      && (branch0 == null && branch1 == null ==> shape == T.Leaf(key))
      && (branch0 != null && branch1 != null ==>
            && key == None
            && branch0 in Repr && branch0.Repr < Repr && this !in branch0.Repr && branch0.Valid()
            && branch1 in Repr && branch1.Repr < Repr && this !in branch1.Repr && branch1.Valid()
            && branch0.Repr !! branch1.Repr
            && shape == T.Branch(branch0.shape, branch1.shape))
    }

    constructor ()
      ensures Valid() && fresh(Repr) && shape == T.EMPTY
    {
      branch0, branch1, key := null, null, None;
      shape := T.EMPTY;
      Repr := {this};
    }

    function Branch(b: Bit): XorTrie?
      reads this
    {
      if b == 0 then branch0 else branch1
    }

    predicate IsEmptyLeaf()
      reads this
    {
      key == None && branch0 == null && branch1 == null
    }

    predicate IsNonEmptyLeaf()
      reads this
    {
      key != None && branch0 == null && branch1 == null
    }

    /** The depth of the deepest leaf, counting this node as `depth`. */
    function DepthFrom(depth: nat): (r: nat)
      requires Valid()
      reads this, Repr
      ensures r == T.Depth(shape, depth)
      decreases Repr
    {
      if branch0 == null || branch1 == null then depth
      else T.Max(branch0.DepthFrom(depth + 1), branch1.DepthFrom(depth + 1))
    }

    method InsertFrom(depth: nat, q: TrieKey) returns (insertedDepth: nat, insertedOK: bool)
      requires Valid() && T.Insert(shape, depth, q) != T.Panic
      modifies Repr
      ensures Valid() && fresh(Repr - old(Repr))
      ensures T.Insert(old(shape), depth, q) == T.Done(shape, insertedDepth, insertedOK)
      decreases if shape == T.EMPTY then 0 else BitLen(q) - depth, 1
    {
      var qb := Branch(BitAt(q, depth));
      if qb != null {
        insertedDepth, insertedOK := InsertBelow(depth, q);
      } else {
        match key
        case None =>
          key := Some(q);
          shape := T.Leaf(key);
          return depth, true;
        case Some(p) =>
          if p == q {
            return depth, false;
          }
          Grow();
          var _, _ := InsertBelow(depth, p);
          insertedDepth, insertedOK := InsertBelow(depth, q);
      }
    }

    /** The recursive call of insert on the branch that q's bit selects. */
    method InsertBelow(depth: nat, q: TrieKey) returns (insertedDepth: nat, insertedOK: bool)
      requires Valid() && branch0 != null && depth < BitLen(q)
      requires T.InSide(shape, depth, q) != T.Panic
      modifies Repr
      ensures Valid() && branch0 != null && fresh(Repr - old(Repr))
      ensures T.InSide(old(shape), depth, q) == T.Done(shape, insertedDepth, insertedOK)
      decreases if shape == T.Branch(T.EMPTY, T.EMPTY) then 1 else BitLen(q) - depth, 0
    {
      var qb := Branch(BitAt(q, depth));
      insertedDepth, insertedOK := qb.InsertFrom(depth + 1, q);
      Repr := Repr + qb.Repr;
      shape := T.Branch(branch0.shape, branch1.shape);
    }

    /** Turns a leaf into a branching node with two empty leaves. */
    method Grow()
      requires Valid() && branch0 == null
      modifies this
      ensures Valid() && branch0 != null && fresh(Repr - old(Repr))
      ensures shape == T.Branch(T.EMPTY, T.EMPTY)
    {
      key := None;
      branch0 := new XorTrie();
      branch1 := new XorTrie();
      Repr := {this} + branch0.Repr + branch1.Repr;
      shape := T.Branch(branch0.shape, branch1.shape);
    }

    method RemoveFrom(depth: nat, q: TrieKey) returns (reachedDepth: nat, removed: bool)
      requires Valid() && T.Remove(shape, depth, q) != T.Panic
      modifies Repr
      ensures Valid() && fresh(Repr - old(Repr))
      ensures T.Remove(old(shape), depth, q) == T.Done(shape, reachedDepth, removed)
      decreases BitLen(q) - depth, 1
    {
      var qb := Branch(BitAt(q, depth));
      if qb != null {
        var d, ok := RemoveBelow(depth, q);
        if ok {
          Shrink();
          return d, true;
        } else {
          return d, false;
        }
      } else if key == Some(q) {
        key := None;
        shape := T.EMPTY;
        return depth, true;
      } else {
        return depth, false;
      }
    }

    /** The recursive call of remove on the branch that q's bit selects. */
    method RemoveBelow(depth: nat, q: TrieKey) returns (reachedDepth: nat, removed: bool)
      requires Valid() && branch0 != null && depth < BitLen(q)
      requires T.Remove(shape.Side(BitAt(q, depth)), depth + 1, q) != T.Panic
      modifies Repr
      ensures Valid() && branch0 != null && fresh(Repr - old(Repr)) && shape.Branch?
      ensures var b := BitAt(q, depth);
              && T.Remove(old(shape).Side(b), depth + 1, q) == T.Done(shape.Side(b), reachedDepth, removed)
              && shape.Side(1 - b) == old(shape).Side(1 - b)
      decreases BitLen(q) - depth, 0
    {
      var qb := Branch(BitAt(q, depth));
      reachedDepth, removed := qb.RemoveFrom(depth + 1, q);
      Repr := Repr + qb.Repr;
      shape := T.Branch(branch0.shape, branch1.shape);
    }

    method Shrink()
      requires Valid() && branch0 != null
      modifies this
      ensures Valid() && Repr == old(Repr)
      ensures shape == T.Shrink(old(shape))
    {
      var b0, b1 := branch0, branch1;
      shape := T.Shrink(shape);
      if b0.IsEmptyLeaf() && b1.IsEmptyLeaf() {
        branch0, branch1 := null, null;
      } else if b0.IsEmptyLeaf() && b1.IsNonEmptyLeaf() {
        key := b1.key;
        branch0, branch1 := null, null;
      } else if b0.IsNonEmptyLeaf() && b1.IsEmptyLeaf() {
        key := b0.key;
        branch0, branch1 := null, null;
      }
    }

    // ---- The trie as a set of keys -------------------------------------------

    ghost function KeySet(): set<TrieKey>
      reads this
    {
      Keys(shape)
    }

    /** The node is the root of a well-shaped trie of n-bit keys, so of the canonical one. */
    ghost predicate Sound(n: nat)
      reads this, Repr
    {
      Valid() && Storable(KeySet(), n) && shape == Root(KeySet(), n)
    }

    function Depth(): (r: nat)
      requires Valid()
      reads this, Repr
      ensures r == T.Depth(shape, 0)
    {
      DepthFrom(0)
    }

    method Insert(q: TrieKey) returns (insertedDepth: nat, insertedOK: bool)
      requires Sound(BitLen(q)) && !T.HasTwin(KeySet(), q)
      modifies Repr
      ensures Sound(BitLen(q)) && fresh(Repr - old(Repr))
      ensures KeySet() == old(KeySet()) + {q}
      ensures insertedOK <==> q !in old(KeySet())
      ensures T.Rests(old(KeySet()), q, 0, insertedDepth)
    {
      ghost var S, n := KeySet(), BitLen(q);
      InsertAtRoot(S, q, n);
      insertedDepth, insertedOK := InsertFrom(0, q);
      CanonicalIsWellShaped(S + {q}, 0, n);
    }

    method Remove(q: TrieKey) returns (removedDepth: nat, removed: bool)
      requires Sound(BitLen(q))
      modifies Repr
      ensures Sound(BitLen(q)) && fresh(Repr - old(Repr))
      ensures KeySet() == old(KeySet()) - {q}
      ensures removed <==> q in old(KeySet())
      ensures T.Remove(old(shape), 0, q) == T.Done(shape, removedDepth, removed)
    {
      ghost var S, n := KeySet(), BitLen(q);
      RemoveAtRoot(S, q, n);
      removedDepth, removed := RemoveFrom(0, q);
      CanonicalIsWellShaped(S - {q}, 0, n);
    }
  }
}
