/**
 XOR tries as values: what one call of insert, remove and depth does to the tree
 below a node, and the canonical trie of a set of keys, to which every reachable
 trie is equal.
 */
module Tries {
  import opened Wrappers
  import opened TrieKeys

  /** The tree below a node: a leaf with at most one key, or two branches. */
  datatype Trie = Leaf(key: Option<TrieKey>) | Branch(zero: Trie, one: Trie)
  {
    function Side(b: Bit): Trie
      requires Branch?
    {
      if b == 0 then zero else one
    }

    function WithSide(b: Bit, t: Trie): Trie
      requires Branch?
    {
      if b == 0 then Branch(t, one) else Branch(zero, t)
    }
  }

  const EMPTY: Trie := Leaf(None)

  /** What a call leaves behind, or a read past the end of a key. */
  datatype Outcome = Panic | Done(trie: Trie, depth: nat, ok: bool)

  // ---- The operations --------------------------------------------------------

  function Insert(t: Trie, depth: nat, q: TrieKey): Outcome
    decreases BitLen(q) - depth
  {
    if depth >= BitLen(q) then Panic else
    match t
    case Branch(_, _) =>
      InSide(t, depth, q)
    case Leaf(None) =>
      Done(Leaf(Some(q)), depth, true)
    case Leaf(Some(p)) =>
      if p == q then Done(t, depth, false)
      // the resident key is pushed one level down, where its next bit is read
      else if depth + 1 >= BitLen(p) then Panic
      else InSide(Branch(EMPTY, EMPTY).WithSide(BitAt(p, depth), t), depth, q)
  }

  function InSide(t: Trie, depth: nat, q: TrieKey): Outcome
    requires t.Branch? && depth < BitLen(q)
    decreases BitLen(q) - depth, 0
  {
    var b := BitAt(q, depth);
    match Insert(t.Side(b), depth + 1, q)
    case Panic => Panic
    case Done(s, r, ok) => Done(t.WithSide(b, s), r, ok)
  }

  function Remove(t: Trie, depth: nat, q: TrieKey): Outcome
    decreases BitLen(q) - depth
  {
    if depth >= BitLen(q) then Panic else
    match t
    case Branch(_, _) =>
      var b := BitAt(q, depth);
      (match Remove(t.Side(b), depth + 1, q)
       case Panic => Panic
       case Done(s, r, ok) =>
         var t' := t.WithSide(b, s);
         Done(if ok then Shrink(t') else t', r, ok))
    case Leaf(k) =>
      if k == Some(q) then Done(EMPTY, depth, true) else Done(t, depth, false)
  }

  /** Collapses a branch that holds at most one key, all of it in leaves. */
  function Shrink(t: Trie): Trie
    requires t.Branch?
  {
    match (t.zero, t.one)
    case (Leaf(None), Leaf(k)) => Leaf(k)
    case (Leaf(k), Leaf(None)) => Leaf(k)
    case _ => t
  }

  function Depth(t: Trie, depth: nat): (r: nat)
    ensures r >= depth
  {
    match t
    case Leaf(_) => depth
    case Branch(zero, one) => Max(Depth(zero, depth + 1), Depth(one, depth + 1))
  }

  function Max(x: nat, y: nat): nat {
    if x > y then x else y
  }

  // ---- Sets of keys ----------------------------------------------------------

  /** All keys are n bits long, and any two share their first d bits. */
  ghost predicate Sharing(S: set<TrieKey>, d: nat, n: nat) {
    && (forall p | p in S :: BitLen(p) == n)
    && (forall p, q | p in S && q in S :: |p| == |q| && Cpl(p, q) >= d)
  }

  /** Two different keys that agree up to and including the last bit but one. */
  ghost predicate Twins(p: TrieKey, q: TrieKey) {
    |p| == |q| && Cpl(p, q) + 1 == BitLen(p)
  }

  ghost predicate HasTwin(S: set<TrieKey>, q: TrieKey) {
    exists p | p in S :: Twins(p, q)
  }

  ghost predicate TwinFree(S: set<TrieKey>) {
    forall p, q {:trigger Twins(p, q)} | p in S && q in S :: !Twins(p, q)
  }

  ghost function Half(S: set<TrieKey>, d: nat, b: Bit): set<TrieKey> {
    set p | p in S && d < BitLen(p) && BitAt(p, d) == b
  }

  /**
   The canonical trie of a set of n-bit keys that share d bits: empty, a leaf,
   or a branch between the canonical tries of the two halves.
   */
  ghost function Canonical(S: set<TrieKey>, d: nat, n: nat): Trie
    decreases n - d
  {
    if S == {} then EMPTY
    else
      var p :| p in S;
      if S == {p} || d >= n then Leaf(Some(p))
      else Branch(Canonical(Half(S, d, 0), d + 1, n), Canonical(Half(S, d, 1), d + 1, n))
  }

  lemma CanonicalSingle(p: TrieKey, d: nat, n: nat)
    ensures Canonical({p}, d, n) == Leaf(Some(p))
  {
  }

  lemma CanonicalBranch(S: set<TrieKey>, p: TrieKey, q: TrieKey, d: nat, n: nat)
    requires p in S && q in S && p != q && d < n
    ensures Canonical(S, d, n) ==
            Branch(Canonical(Half(S, d, 0), d + 1, n), Canonical(Half(S, d, 1), d + 1, n))
  {
  }

  lemma HalfSharing(S: set<TrieKey>, d: nat, n: nat, b: Bit)
    requires Sharing(S, d, n) && d < n
    ensures Sharing(Half(S, d, b), d + 1, n)
  {
  }

  // ---- Insert ----------------------------------------------------------------

  /**
   The depth at which q rests beside the keys of S, from a node at depth d: d when
   there is no other key, otherwise one more than the longest prefix q shares with
   another key.
   */
  ghost predicate Rests(S: set<TrieKey>, q: TrieKey, d: nat, r: nat) {
    && (forall p | p in S && p != q :: |p| == |q| && Cpl(p, q) < r)
    && (if S - {q} == {} then r == d else exists p | p in S && p != q :: |p| == |q| && Cpl(p, q) + 1 == r)
  }

  /** What insert owes for the set S: a panic exactly when S holds a twin of q. */
  ghost predicate InsertMeets(o: Outcome, S: set<TrieKey>, q: TrieKey, d: nat, n: nat) {
    if HasTwin(S, q) then o == Panic
    else o.Done? && o.trie == Canonical(S + {q}, d, n) && o.ok == (q !in S) && Rests(S, q, d, o.depth)
  }

  lemma {:induction false} InsertCanonical(S: set<TrieKey>, q: TrieKey, d: nat, n: nat)
    requires d < n && Sharing(S + {q}, d, n) && TwinFree(S)
    ensures InsertMeets(Insert(Canonical(S, d, n), d, q), S, q, d, n)
    decreases n - d
  {
    if S == {} {
      CanonicalSingle(q, d, n);
      assert S + {q} == {q};
    } else {
      var p :| p in S;
      if S == {p} {
        CanonicalSingle(p, d, n);
        InsertAtLeaf(p, q, d, n);
      } else {
        var x :| x in S && x != p;
        var H := Half(S, d, BitAt(q, d));
        InsertInHalf(S, H, p, x, q, d, n);
        InsertThroughBranch(S, H, p, x, q, d, n);
      }
    }
  }

  lemma {:induction false} InsertAtLeaf(p: TrieKey, q: TrieKey, d: nat, n: nat)
    requires d < n && Sharing({p} + {q}, d, n)
    ensures InsertMeets(Insert(Leaf(Some(p)), d, q), {p}, q, d, n)
    decreases n - d
  {
    if p == q {
      assert {p} + {q} == {p};
      CanonicalSingle(p, d, n);
    } else if BitAt(p, d) != BitAt(q, d) {
      InsertParts(p, q, d, n);
    } else {
      assert Cpl(p, q) > d by {
        assert p in {p} + {q} && q in {p} + {q};
        CplStep(p, q, d);
      }
      if d + 1 < n {
        InsertAtLeaf(p, q, d + 1, n);
        InsertDescends(p, q, d, n);
      }
    }
  }

  /** Two keys that differ at bit d are parted at once. */
  lemma InsertParts(p: TrieKey, q: TrieKey, d: nat, n: nat)
    requires d < n && Sharing({p} + {q}, d, n) && p != q && BitAt(p, d) != BitAt(q, d)
    ensures InsertMeets(Insert(Leaf(Some(p)), d, q), {p}, q, d, n)
  {
    var S := {p} + {q};
    assert p in {p} && q in S && p in S;
    CplStep(p, q, d);
    if d + 1 < n {
      var b := BitAt(q, d);
      CanonicalBranch(S, p, q, d, n);
      assert Half(S, d, b) == {q} && Half(S, d, 1 - b) == {p};
      CanonicalSingle(p, d + 1, n);
      CanonicalSingle(q, d + 1, n);
      assert Insert(EMPTY, d + 1, q) == Done(Leaf(Some(q)), d + 1, true);
    }
  }

  /** Two keys that agree on bit d are parted further down, one side staying empty. */
  lemma InsertDescends(p: TrieKey, q: TrieKey, d: nat, n: nat)
    requires d + 1 < n && Sharing({p} + {q}, d, n) && p != q && BitAt(p, d) == BitAt(q, d)
    requires InsertMeets(Insert(Leaf(Some(p)), d + 1, q), {p}, q, d + 1, n)
    ensures InsertMeets(Insert(Leaf(Some(p)), d, q), {p}, q, d, n)
  {
    var S := {p} + {q};
    var b := BitAt(q, d);
    assert p in {p} && q in S && p in S;
    CanonicalBranch(S, p, q, d, n);
    assert Half(S, d, b) == S && Half(S, d, 1 - b) == {};
  }

  lemma {:induction false} InsertInHalf(S: set<TrieKey>, H: set<TrieKey>, x: TrieKey, y: TrieKey, q: TrieKey, d: nat, n: nat)
    requires d < n && Sharing(S + {q}, d, n) && TwinFree(S)
    requires x in S && y in S && x != y && H == Half(S, d, BitAt(q, d))
    ensures d + 1 < n && InsertMeets(Insert(Canonical(H, d + 1, n), d + 1, q), H, q, d + 1, n)
    decreases n - d, 0
  {
    DeeperThan(S, x, y, d, n);
    HalfWith(S, H, q, d, n);
    InsertCanonical(H, q, d + 1, n);
  }

  /** Above the half that q belongs to, insert only passes the result up. */
  lemma InsertThroughBranch(S: set<TrieKey>, H: set<TrieKey>, x: TrieKey, y: TrieKey, q: TrieKey, d: nat, n: nat)
    requires d + 1 < n && Sharing(S + {q}, d, n)
    requires x in S && y in S && x != y
    requires H == Half(S, d, BitAt(q, d)) && InsertMeets(Insert(Canonical(H, d + 1, n), d + 1, q), H, q, d + 1, n)
    ensures InsertMeets(Insert(Canonical(S, d, n), d, q), S, q, d, n)
  {
    var b := BitAt(q, d);
    var o := Insert(Canonical(H, d + 1, n), d + 1, q);
    assert Half(S + {q}, d, b) == H + {q};
    assert Half(S + {q}, d, 1 - b) == Half(S, d, 1 - b);
    CanonicalBranch(S, x, y, d, n);
    CanonicalBranch(S + {q}, x, y, d, n);
    TwinsInHalf(S, q, d, n);
    if o.Done? {
      assert Rests(S, q, d, o.depth) by { RestsInHalf(S, x, y, q, d, n, o.depth); }
    }
  }

  lemma HalfWith(S: set<TrieKey>, H: set<TrieKey>, q: TrieKey, d: nat, n: nat)
    requires d < n && Sharing(S + {q}, d, n) && TwinFree(S) && H == Half(S, d, BitAt(q, d))
    ensures Sharing(H + {q}, d + 1, n) && TwinFree(H)
  {
    HalfSharing(S + {q}, d, n, BitAt(q, d));
    assert Half(S + {q}, d, BitAt(q, d)) == H + {q};
  }

  /** Two keys that share d bits and are not twins leave room below depth d. */
  lemma DeeperThan(S: set<TrieKey>, x: TrieKey, y: TrieKey, d: nat, n: nat)
    requires d < n && TwinFree(S) && x in S && y in S && x != y
    requires BitLen(x) == n && |x| == |y| && Cpl(x, y) >= d
    ensures d + 1 < n
  {
    assert !Twins(x, y);
  }

  /** Either half of a set of two keys or more is a set of the same kind, one level down. */
  lemma HalfOf(S: set<TrieKey>, x: TrieKey, y: TrieKey, d: nat, n: nat, b: Bit)
    requires d < n && Sharing(S, d, n) && TwinFree(S) && x in S && y in S && x != y
    ensures d + 1 < n && Sharing(Half(S, d, b), d + 1, n) && TwinFree(Half(S, d, b))
  {
    DeeperThan(S, x, y, d, n);
    HalfSharing(S, d, n, b);
  }

  lemma TwinsInHalf(S: set<TrieKey>, q: TrieKey, d: nat, n: nat)
    requires d + 1 < n && Sharing(S + {q}, d, n)
    ensures HasTwin(S, q) <==> HasTwin(Half(S, d, BitAt(q, d)), q)
  {
  }

  lemma RestsInHalf(S: set<TrieKey>, x: TrieKey, y: TrieKey, q: TrieKey, d: nat, n: nat, r: nat)
    requires d < n && Sharing(S + {q}, d, n)
    requires x in S && y in S && x != y
    requires Rests(Half(S, d, BitAt(q, d)), q, d + 1, r)
    ensures Rests(S, q, d, r)
  {
    var H := Half(S, d, BitAt(q, d));
    forall p | p in S && p !in H
      ensures Cpl(p, q) == d
    {
      CplStep(p, q, d);
    }
    var z := if x != q then x else y;
    assert z in S - {q};
    assert H - {q} == {} ==> z !in H;
  }

  // ---- Remove ----------------------------------------------------------------

  ghost predicate Shares(p: TrieKey, q: TrieKey, e: nat) {
    |p| == |q| && Cpl(p, q) >= e
  }

  ghost predicate TwoShare(S: set<TrieKey>, q: TrieKey, e: nat) {
    exists p, p' | p in S && p' in S && p != p' :: Shares(p, q, e) && Shares(p', q, e)
  }

  /**
   The depth at which the search for q ends: the first level, from d on, whose
   prefix of q is shared by at most one key of S.
   */
  ghost predicate Reaches(S: set<TrieKey>, q: TrieKey, d: nat, r: nat) {
    r >= d && !TwoShare(S, q, r) && (r > d ==> TwoShare(S, q, r - 1))
  }

  ghost predicate RemoveMeets(o: Outcome, S: set<TrieKey>, q: TrieKey, d: nat, n: nat) {
    o.Done? && o.trie == Canonical(S - {q}, d, n) && o.ok == (q in S) && Reaches(S, q, d, o.depth)
  }

  lemma {:induction false} RemoveCanonical(S: set<TrieKey>, q: TrieKey, d: nat, n: nat)
    requires d < n && Sharing(S + {q}, d, n) && TwinFree(S)
    ensures RemoveMeets(Remove(Canonical(S, d, n), d, q), S, q, d, n)
    decreases n - d
  {
    if S == {} {
      assert S - {q} == {};
    } else {
      var p :| p in S;
      if S == {p} {
        CanonicalSingle(p, d, n);
        assert S - {q} == if p == q then {} else {p};
      } else {
        var x :| x in S && x != p;
        var H := Half(S, d, BitAt(q, d));
        RemoveInHalf(S, H, p, x, q, d, n);
        RemoveThroughBranch(S, H, p, x, q, d, n);
      }
    }
  }

  lemma {:induction false} RemoveInHalf(S: set<TrieKey>, H: set<TrieKey>, x: TrieKey, y: TrieKey, q: TrieKey, d: nat, n: nat)
    requires d < n && Sharing(S + {q}, d, n) && TwinFree(S)
    requires x in S && y in S && x != y && H == Half(S, d, BitAt(q, d))
    ensures d + 1 < n && RemoveMeets(Remove(Canonical(H, d + 1, n), d + 1, q), H, q, d + 1, n)
    decreases n - d, 0
  {
    DeeperThan(S, x, y, d, n);
    HalfWith(S, H, q, d, n);
    RemoveCanonical(H, q, d + 1, n);
  }

  /** Above the half that q belongs to, remove passes the result up and shrinks. */
  lemma RemoveThroughBranch(S: set<TrieKey>, H: set<TrieKey>, x: TrieKey, y: TrieKey, q: TrieKey, d: nat, n: nat)
    requires d + 1 < n && Sharing(S + {q}, d, n)
    requires x in S && y in S && x != y
    requires H == Half(S, d, BitAt(q, d)) && RemoveMeets(Remove(Canonical(H, d + 1, n), d + 1, q), H, q, d + 1, n)
    ensures RemoveMeets(Remove(Canonical(S, d, n), d, q), S, q, d, n)
  {
    var b := BitAt(q, d);
    var o := Remove(Canonical(H, d + 1, n), d + 1, q);
    assert Half(S - {q}, d, b) == H - {q};
    assert Half(S - {q}, d, 1 - b) == Half(S, d, 1 - b);
    CanonicalBranch(S, x, y, d, n);
    if q in S {
      ShrinkCanonical(S - {q}, d, n);
    } else {
      assert S - {q} == S;
    }
    assert Reaches(S, q, d, o.depth) by { ReachesInHalf(S, x, y, q, d, n, o.depth); }
  }

  /** Shrinking a branch between canonical halves gives the canonical whole. */
  lemma ShrinkCanonical(T: set<TrieKey>, d: nat, n: nat)
    requires d + 1 < n && Sharing(T, d, n)
    ensures Shrink(Branch(Canonical(Half(T, d, 0), d + 1, n), Canonical(Half(T, d, 1), d + 1, n))) == Canonical(T, d, n)
  {
    if T == {} {
      assert Half(T, d, 0) == Half(T, d, 1) == {};
    } else {
      var p :| p in T;
      if T == {p} {
        CanonicalSingle(p, d, n);
        CanonicalSingle(p, d + 1, n);
        assert Half(T, d, BitAt(p, d)) == {p} && Half(T, d, 1 - BitAt(p, d)) == {};
      } else {
        var x :| x in T && x != p;
        CanonicalBranch(T, p, x, d, n);
        var b := BitAt(p, d);
        if BitAt(x, d) == b {
          CanonicalBranch(Half(T, d, b), p, x, d + 1, n);
        } else {
          assert p in Half(T, d, b) && x in Half(T, d, 1 - b);
          CanonicalEmpty(Half(T, d, b), d + 1, n);
          CanonicalEmpty(Half(T, d, 1 - b), d + 1, n);
        }
      }
    }
  }

  lemma CanonicalEmpty(S: set<TrieKey>, d: nat, n: nat)
    ensures Canonical(S, d, n) == EMPTY <==> S == {}
  {
  }

  lemma ReachesInHalf(S: set<TrieKey>, x: TrieKey, y: TrieKey, q: TrieKey, d: nat, n: nat, r: nat)
    requires d < n && Sharing(S + {q}, d, n)
    requires x in S && y in S && x != y
    requires Reaches(Half(S, d, BitAt(q, d)), q, d + 1, r)
    ensures Reaches(S, q, d, r)
  {
    var H := Half(S, d, BitAt(q, d));
    forall p | p in S && p !in H
      ensures Cpl(p, q) == d
    {
      CplStep(p, q, d);
    }
    assert Shares(x, q, d) && Shares(y, q, d);
    if r > d + 1 {
      var p, p' :| p in H && p' in H && p != p' && Shares(p, q, r - 1) && Shares(p', q, r - 1);
      assert p in S && p' in S;
    }
    TwoShareInHalf(S, q, d, n, r);
  }

  lemma TwoShareInHalf(S: set<TrieKey>, q: TrieKey, d: nat, n: nat, r: nat)
    requires d < n && r > d && Sharing(S + {q}, d, n)
    ensures TwoShare(S, q, r) ==> TwoShare(Half(S, d, BitAt(q, d)), q, r)
  {
  }

  /** For a stored key, the depth the search reaches is the depth it rests at. */
  lemma ReachesIsRests(S: set<TrieKey>, q: TrieKey, d: nat, n: nat, r: nat)
    requires q in S && d < n && Sharing(S, d, n) && Reaches(S, q, d, r)
    ensures Rests(S, q, d, r)
  {
    if r > d {
      var a, c :| a in S && c in S && a != c && Shares(a, q, r - 1) && Shares(c, q, r - 1);
      var z := if a != q then a else c;
      assert z in S - {q} && Shares(z, q, r - 1);
      assert Cpl(q, q) >= r;
      assert Shares(q, q, r);
      assert !Shares(z, q, r);
    } else {
      assert Shares(q, q, r);
      assert forall z | z in S && z != q :: Shares(z, q, d);
    }
    forall p | p in S && p != q
      ensures Cpl(p, q) < r
    {
      assert !Shares(p, q, r);
    }
  }
}
