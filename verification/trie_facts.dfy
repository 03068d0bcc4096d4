/**
 What holds of every trie a client can reach: it is the only well-shaped trie for
 its keys, it depends on the set of keys and not on how the set came about, and its
 depth is a function of the longest shared prefixes.
 */
module TrieFacts {
  import opened Wrappers
  import opened TrieKeys
  import opened Tries

  // ---- One shape per set -----------------------------------------------------

  ghost function Keys(t: Trie): set<TrieKey> {
    match t
    case Leaf(None) => {}
    case Leaf(Some(p)) => {p}
    case Branch(zero, one) => Keys(zero) + Keys(one)
  }

  ghost predicate AllHaveBit(S: set<TrieKey>, d: nat, b: Bit) {
    forall p | p in S :: d < BitLen(p) && BitAt(p, d) == b
  }

  /** Keys only in leaves, each on the side its bit names; a branching node has two keys below it. */
  ghost predicate WellShaped(t: Trie, d: nat, n: nat) {
    t.Branch? ==>
      && d < n
      && WellShaped(t.zero, d + 1, n) && AllHaveBit(Keys(t.zero), d, 0)
      && WellShaped(t.one, d + 1, n) && AllHaveBit(Keys(t.one), d, 1)
      && (exists p, q | p in Keys(t) && q in Keys(t) :: p != q)
  }

  lemma {:induction false} WellShapedIsCanonical(t: Trie, d: nat, n: nat)
    requires WellShaped(t, d, n)
    ensures t == Canonical(Keys(t), d, n)
    decreases t
  {
    match t
    case Leaf(None) =>
    case Leaf(Some(p)) =>
      CanonicalSingle(p, d, n);
    case Branch(zero, one) =>
      WellShapedIsCanonical(zero, d + 1, n);
      WellShapedIsCanonical(one, d + 1, n);
      assert Half(Keys(t), d, 0) == Keys(zero);
      assert Half(Keys(t), d, 1) == Keys(one);
      var p, q :| p in Keys(t) && q in Keys(t) && p != q;
      CanonicalBranch(Keys(t), p, q, d, n);
  }

  lemma {:induction false} CanonicalIsWellShaped(S: set<TrieKey>, d: nat, n: nat)
    requires Sharing(S, d, n) && d < n && TwinFree(S)
    ensures Shows(S, d, n)
    decreases n - d
  {
    if S != {} {
      var p :| p in S;
      if S == {p} {
        CanonicalSingle(p, d, n);
      } else {
        var x :| x in S && x != p;
        HalfIsWellShaped(S, p, x, d, n, 0);
        HalfIsWellShaped(S, p, x, d, n, 1);
        JoinWellShaped(S, p, x, d, n);
      }
    }
  }

  ghost predicate Shows(S: set<TrieKey>, d: nat, n: nat) {
    WellShaped(Canonical(S, d, n), d, n) && Keys(Canonical(S, d, n)) == S
  }

  lemma {:induction false} HalfIsWellShaped(S: set<TrieKey>, x: TrieKey, y: TrieKey, d: nat, n: nat, b: Bit)
    requires Sharing(S, d, n) && d < n && TwinFree(S) && x in S && y in S && x != y
    ensures Shows(Half(S, d, b), d + 1, n)
    decreases n - d, 0
  {
    HalfOf(S, x, y, d, n, b);
    CanonicalIsWellShaped(Half(S, d, b), d + 1, n);
  }

  lemma JoinWellShaped(S: set<TrieKey>, x: TrieKey, y: TrieKey, d: nat, n: nat)
    requires Sharing(S, d, n) && d < n && x in S && y in S && x != y
    requires Shows(Half(S, d, 0), d + 1, n) && Shows(Half(S, d, 1), d + 1, n)
    ensures Shows(S, d, n)
  {
    CanonicalBranch(S, x, y, d, n);
    assert Half(S, d, 0) + Half(S, d, 1) == S by {
      assert forall p | p in S :: BitAt(p, d) == 0 || BitAt(p, d) == 1;
    }
    var t := Canonical(S, d, n);
    assert x in Keys(t) && y in Keys(t);
  }

  // ---- Histories -------------------------------------------------------------

  /** A set of keys a trie may hold: n-bit keys, no two of them twins. */
  ghost predicate Storable(S: set<TrieKey>, n: nat) {
    && n > 0
    && (forall p | p in S :: BitLen(p) == n)
    && TwinFree(S)
  }

  lemma StorableInsert(S: set<TrieKey>, q: TrieKey, n: nat)
    requires Storable(S, n) && BitLen(q) == n && !HasTwin(S, q)
    ensures Storable(S + {q}, n)
  {
  }

  ghost function Root(S: set<TrieKey>, n: nat): Trie {
    Canonical(S, 0, n)
  }

  lemma InsertAtRoot(S: set<TrieKey>, q: TrieKey, n: nat)
    requires Storable(S, n) && BitLen(q) == n
    ensures InsertMeets(Insert(Root(S, n), 0, q), S, q, 0, n)
    ensures !HasTwin(S, q) ==> Storable(S + {q}, n)
  {
    InsertCanonical(S, q, 0, n);
    if !HasTwin(S, q) {
      StorableInsert(S, q, n);
    }
  }

  lemma RemoveAtRoot(S: set<TrieKey>, q: TrieKey, n: nat)
    requires Storable(S, n) && BitLen(q) == n
    ensures RemoveMeets(Remove(Root(S, n), 0, q), S, q, 0, n)
    ensures Storable(S - {q}, n)
    ensures q in S ==> Rests(S, q, 0, Remove(Root(S, n), 0, q).depth)
  {
    RemoveCanonical(S, q, 0, n);
    if q in S {
      RestsAtRoot(S, q, n, Remove(Root(S, n), 0, q).depth);
    }
    assert Storable(S - {q}, n) by { StorableRemove(S, q, n); }
  }

  lemma StorableRemove(S: set<TrieKey>, q: TrieKey, n: nat)
    requires Storable(S, n)
    ensures Storable(S - {q}, n)
  {
  }

  lemma RestsAtRoot(S: set<TrieKey>, q: TrieKey, n: nat, r: nat)
    requires Storable(S, n) && q in S && Reaches(S, q, 0, r)
    ensures Rests(S, q, 0, r)
  {
    ReachesIsRests(S, q, 0, n, r);
  }

  datatype TrieCall = CallInsert(q: TrieKey) | CallRemove(q: TrieKey)

  /** The trie and the success flags after a list of calls, or None after a panic. */
  function RunTrie(t: Trie, calls: seq<TrieCall>): Option<(Trie, seq<bool>)>
    decreases |calls|
  {
    if calls == [] then Some((t, [])) else
    match (match calls[0] case CallInsert(q) => Insert(t, 0, q) case CallRemove(q) => Remove(t, 0, q))
    case Panic => None
    case Done(t', _, ok) =>
      (match RunTrie(t', calls[1..])
       case None => None
       case Some((u, oks)) => Some((u, [ok] + oks)))
  }

  /** The same calls on a plain set, which refuses exactly the twin of a stored key. */
  ghost function RunSet(S: set<TrieKey>, calls: seq<TrieCall>): Option<(set<TrieKey>, seq<bool>)>
    decreases |calls|
  {
    if calls == [] then Some((S, [])) else
    var q := calls[0].q;
    if calls[0].CallInsert? && HasTwin(S, q) then None else
    var S' := if calls[0].CallInsert? then S + {q} else S - {q};
    match RunSet(S', calls[1..])
    case None => None
    case Some((T, oks)) => Some((T, [calls[0].CallInsert? == (q !in S)] + oks))
  }

  /**
   From the trie of a set, every run of calls ends in the trie of the set the calls
   make, with the flags a set would give; it panics exactly when an insert meets the
   twin of a stored key.
   */
  lemma {:induction false} TrieRefinesSet(S: set<TrieKey>, calls: seq<TrieCall>, n: nat)
    requires Storable(S, n) && (forall c | c in calls :: BitLen(c.q) == n)
    ensures RunTrie(Root(S, n), calls) ==
            match RunSet(S, calls)
            case None => None
            case Some((T, oks)) => Some((Root(T, n), oks))
    decreases |calls|
  {
    if calls != [] {
      var q := calls[0].q;
      assert calls[0] in calls;
      if calls[0].CallInsert? {
        InsertAtRoot(S, q, n);
        if !HasTwin(S, q) {
          TrieRefinesSet(S + {q}, calls[1..], n);
        }
      } else {
        RemoveAtRoot(S, q, n);
        TrieRefinesSet(S - {q}, calls[1..], n);
      }
    }
  }

  /** Two runs from the empty trie that leave the same keys leave structurally equal tries. */
  lemma HistoryIndependence(a: seq<TrieCall>, b: seq<TrieCall>, n: nat)
    requires n > 0 && (forall c | c in a + b :: BitLen(c.q) == n)
    requires RunTrie(EMPTY, a).Some? && RunTrie(EMPTY, b).Some?
    ensures RunTrie(EMPTY, a).value.0 == RunTrie(EMPTY, b).value.0 <==>
            Keys(RunTrie(EMPTY, a).value.0) == Keys(RunTrie(EMPTY, b).value.0)
  {
    assert forall c | c in a :: c in a + b;
    assert forall c | c in b :: c in a + b;
    TrieRefinesSet({}, a, n);
    TrieRefinesSet({}, b, n);
    RunSetStorable({}, a, n);
    RunSetStorable({}, b, n);
    CanonicalIsWellShaped(RunSet({}, a).value.0, 0, n);
    CanonicalIsWellShaped(RunSet({}, b).value.0, 0, n);
  }

  lemma {:induction false} RunSetStorable(S: set<TrieKey>, calls: seq<TrieCall>, n: nat)
    requires Storable(S, n) && (forall c | c in calls :: BitLen(c.q) == n)
    requires RunSet(S, calls).Some?
    ensures Storable(RunSet(S, calls).value.0, n)
    decreases |calls|
  {
    if calls != [] {
      var q := calls[0].q;
      assert calls[0] in calls;
      if calls[0].CallInsert? {
        StorableInsert(S, q, n);
        RunSetStorable(S + {q}, calls[1..], n);
      } else {
        RunSetStorable(S - {q}, calls[1..], n);
      }
    }
  }

  lemma LastBitTwins()
    ensures Twins([0x00], [0x80])
  {
  }

  /** Two one-byte keys that differ only in their last bit: the second insert reads past the end. */
  lemma TwinsPanic()
    ensures RunTrie(EMPTY, [CallInsert([0x00]), CallInsert([0x80])]) == None
  {
    LastBitTwins();
    var p: TrieKey, q: TrieKey := [0x00], [0x80];
    var calls := [CallInsert(p), CallInsert(q)];
    assert calls[1..] == [CallInsert(q)] && calls[1..][1..] == [];
    TrieRefinesSet({}, calls, 8);
    assert p in {} + {p} && HasTwin({} + {p}, q);
  }

  // ---- Depths ----------------------------------------------------------------

  lemma RestsUnique(S: set<TrieKey>, T: set<TrieKey>, q: TrieKey, d: nat, r: nat, s: nat)
    requires S - {q} == T - {q} && Rests(S, q, d, r) && Rests(T, q, d, s)
    ensures r == s
  {
    if S - {q} != {} {
      var p :| p in S && p != q && |p| == |q| && Cpl(p, q) + 1 == r;
      var p' :| p' in T && p' != q && |p'| == |q| && Cpl(p', q) + 1 == s;
      assert p in T - {q} && p' in S - {q};
    }
  }

  /** Inserting an absent key and removing it again is invisible, and reports one depth twice. */
  lemma ProbeIsInvisible(S: set<TrieKey>, q: TrieKey, n: nat)
    requires Storable(S, n) && BitLen(q) == n && q !in S && !HasTwin(S, q)
    ensures var o := Insert(Root(S, n), 0, q);
            o.Done? && o.ok && Remove(o.trie, 0, q) == Done(Root(S, n), o.depth, true)
  {
    InsertAtRoot(S, q, n);
    RemoveAtRoot(S + {q}, q, n);
    assert S + {q} - {q} == S;
    var o := Insert(Root(S, n), 0, q);
    RestsUnique(S, S + {q}, q, 0, o.depth, Remove(o.trie, 0, q).depth);
  }

  ghost predicate Two(S: set<TrieKey>) {
    exists p, q | p in S && q in S :: p != q
  }

  ghost predicate PairAt(S: set<TrieKey>, c: nat) {
    exists p, q | p in S && q in S && p != q :: |p| == |q| && Cpl(p, q) == c
  }

  /** d for at most one key; otherwise one more than the longest prefix two keys share. */
  ghost predicate DepthOf(S: set<TrieKey>, d: nat, r: nat) {
    && (forall p, q | p in S && q in S && p != q :: |p| == |q| && Cpl(p, q) < r)
    && (if Two(S) then r > d && PairAt(S, r - 1) else r == d)
  }

  lemma {:induction false} DepthCanonical(S: set<TrieKey>, d: nat, n: nat)
    requires d < n && Sharing(S, d, n) && TwinFree(S)
    ensures Reaching(S, d, n)
    decreases n - d
  {
    if S != {} {
      var p :| p in S;
      if S == {p} {
        CanonicalSingle(p, d, n);
      } else {
        var x :| x in S && x != p;
        DepthInHalf(S, p, x, d, n, 0);
        DepthInHalf(S, p, x, d, n, 1);
        DepthOfHalves(S, p, x, d, n);
      }
    }
  }

  ghost predicate Reaching(S: set<TrieKey>, d: nat, n: nat) {
    DepthOf(S, d, Depth(Canonical(S, d, n), d)) && Depth(Canonical(S, d, n), d) < n
  }

  lemma {:induction false} DepthInHalf(S: set<TrieKey>, x: TrieKey, y: TrieKey, d: nat, n: nat, b: Bit)
    requires d < n && Sharing(S, d, n) && TwinFree(S) && x in S && y in S && x != y
    ensures Reaching(Half(S, d, b), d + 1, n)
    decreases n - d, 0
  {
    HalfOf(S, x, y, d, n, b);
    DepthCanonical(Half(S, d, b), d + 1, n);
  }

  lemma DepthOfHalves(S: set<TrieKey>, x: TrieKey, y: TrieKey, d: nat, n: nat)
    requires d < n && Sharing(S, d, n) && x in S && y in S && x != y
    requires Reaching(Half(S, d, 0), d + 1, n) && Reaching(Half(S, d, 1), d + 1, n)
    ensures Reaching(S, d, n)
  {
    CanonicalBranch(S, x, y, d, n);
    MaxOfHalves(S, x, y, d, n,
                Depth(Canonical(Half(S, d, 0), d + 1, n), d + 1), Depth(Canonical(Half(S, d, 1), d + 1, n), d + 1));
  }

  lemma MaxOfHalves(S: set<TrieKey>, x: TrieKey, y: TrieKey, d: nat, n: nat, r0: nat, r1: nat)
    requires d < n && Sharing(S, d, n) && x in S && y in S && x != y
    requires DepthOf(Half(S, d, 0), d + 1, r0) && DepthOf(Half(S, d, 1), d + 1, r1)
    ensures DepthOf(S, d, Max(r0, r1))
  {
    var A, B := Half(S, d, 0), Half(S, d, 1);
    var r := Max(r0, r1);
    forall p, q | p in S && q in S && p != q
      ensures Cpl(p, q) < r
    {
      CplStep(p, q, d);
      if BitAt(p, d) == BitAt(q, d) {
        assert (p in A && q in A) || (p in B && q in B);
      }
    }
    assert PairAt(S, r - 1) by {
      if r > d + 1 {
        var H := if r == r0 then A else B;
        var p, q :| p in H && q in H && p != q && |p| == |q| && Cpl(p, q) == r - 1;
        assert p in S && q in S;
      } else {
        assert !Two(A) && !Two(B);
        CplStep(x, y, d);
      }
    }
  }

  lemma DepthOfUnique(S: set<TrieKey>, d: nat, r: nat, s: nat)
    requires DepthOf(S, d, r) && DepthOf(S, d, s)
    ensures r == s
  {
  }

  /** Depth of the trie of a set, from the set alone. */
  lemma DepthAtRoot(S: set<TrieKey>, n: nat)
    requires Storable(S, n)
    ensures DepthOf(S, 0, Depth(Root(S, n), 0)) && Depth(Root(S, n), 0) < n
  {
    DepthCanonical(S, 0, n);
  }

  /** Adding a key deepens the trie exactly to where the key comes to rest, if that is deeper. */
  lemma DepthAfterInsert(S: set<TrieKey>, q: TrieKey, n: nat, r: nat)
    requires Storable(S, n) && Storable(S + {q}, n) && Rests(S, q, 0, r)
    ensures Depth(Root(S + {q}, n), 0) == Max(Depth(Root(S, n), 0), r)
  {
    var e := Depth(Root(S, n), 0);
    DepthAtRoot(S, n);
    DepthAtRoot(S + {q}, n);
    DepthOfInsert(S, q, n, e, r);
    DepthOfUnique(S + {q}, 0, Depth(Root(S + {q}, n), 0), Max(e, r));
  }

  lemma DepthOfInsert(S: set<TrieKey>, q: TrieKey, n: nat, e: nat, r: nat)
    requires Storable(S + {q}, n) && DepthOf(S, 0, e) && Rests(S, q, 0, r)
    ensures DepthOf(S + {q}, 0, Max(e, r))
  {
    var T := S + {q};
    PrefixesBelow(S, q, e, r);
    if S - {q} == {} {
      assert !Two(T) && !Two(S);
    } else {
      var p :| p in S && p != q && |p| == |q| && Cpl(p, q) + 1 == r;
      assert p in T && q in T;
      assert Two(T);
      if e > r {
        PairStays(S, q, e - 1);
      } else {
        assert PairAt(T, r - 1);
      }
    }
  }

  lemma PrefixesBelow(S: set<TrieKey>, q: TrieKey, e: nat, r: nat)
    requires DepthOf(S, 0, e) && Rests(S, q, 0, r)
    ensures forall a, b | a in S + {q} && b in S + {q} && a != b :: |a| == |b| && Cpl(a, b) < Max(e, r)
  {
    forall a, b | a in S + {q} && b in S + {q} && a != b
      ensures |a| == |b| && Cpl(a, b) < Max(e, r)
    {
      if a == q {
        CplSymmetric(b, q);
      }
    }
  }

  lemma PairStays(S: set<TrieKey>, q: TrieKey, c: nat)
    requires PairAt(S, c)
    ensures PairAt(S + {q}, c)
  {
  }

  // ---- How many keys fit -----------------------------------------------------

  function Pow2(e: nat): (r: nat)
    ensures r > 0
  {
    if e == 0 then 1 else 2 * Pow2(e - 1)
  }

  /** Total weight of the leaves below a node, empty ones included, a leaf at depth e weighing 2^(D - e). */
  function Weight(t: Trie, depth: nat, D: nat): nat
    requires Depth(t, depth) <= D
  {
    match t
    case Leaf(_) => Pow2(D - depth)
    case Branch(zero, one) => Weight(zero, depth + 1, D) + Weight(one, depth + 1, D)
  }

  lemma {:induction false} LeavesFillTheTrie(t: Trie, depth: nat, D: nat)
    requires Depth(t, depth) <= D
    ensures Weight(t, depth, D) == Pow2(D - depth)
    ensures |Keys(t)| <= Weight(t, depth, D)
    decreases t
  {
    match t
    case Leaf(_) =>
    case Branch(zero, one) =>
      LeavesFillTheTrie(zero, depth + 1, D);
      LeavesFillTheTrie(one, depth + 1, D);
      assert |Keys(zero) + Keys(one)| == |Keys(zero)| + |Keys(one)| - |Keys(zero) * Keys(one)|;
  }

  /** A trie of depth D holds at most 2^D keys. */
  lemma KeysFitDepth(S: set<TrieKey>, n: nat)
    requires Storable(S, n)
    ensures |S| <= Pow2(Depth(Root(S, n), 0))
  {
    var t := Root(S, n);
    assert Keys(t) == S by { CanonicalIsWellShaped(S, 0, n); }
    LeavesFillTheTrie(t, 0, Depth(t, 0));
  }
}
