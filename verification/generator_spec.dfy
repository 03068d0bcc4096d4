/**
 The balanced identity generator as a value: the set of stored trie keys, the salt
 counter and the count, and what each call makes of them.
 */
module GeneratorSpec {
  import opened Wrappers
  import opened TrieKeys
  import opened Tries
  import opened TrieFacts

  const SALTS := 0x1_0000_0000
  const KEY_BITS := 256

  /** The 32-bit counter that salts key derivation; it wraps. */
  type Salt = s: nat | s < SALTS

  datatype PrivKey = PrivKey(bytes: seq<bv8>)

  /** Key derivation as deterministic functions: seed and salt to private key, private key to Kademlia ID. */
  datatype Source = Source(seed: seq<bv8>, generate: (seq<bv8>, Salt) -> Option<PrivKey>, kadID: PrivKey -> Option<seq<bv8>>)

  /** The i-th salt after s. */
  function Ahead(s: Salt, i: nat): Salt {
    (s + i) % SALTS
  }

  function Next(s: Salt): Salt {
    Ahead(s, 1)
  }

  /** Private key to peer ID to Kademlia ID to trie key. */
  function ToTrieKey(src: Source, pk: PrivKey): Option<TrieKey> {
    match src.kadID(pk)
    case None => None
    case Some(id) => Some(Reversed(id))
  }

  function Derive(src: Source, s: Salt): Result<(PrivKey, TrieKey)> {
    match src.generate(src.seed, s)
    case None => Failed
    case Some(pk) =>
      match ToTrieKey(src, pk)
      case None => Failed
      case Some(k) => Ok((pk, k))
  }

  /** The salt derives this identity, and the key has the bits of its Kademlia identifier. */
  ghost predicate DerivesTo(src: Source, s: Salt, pk: PrivKey, k: TrieKey) {
    src.generate(src.seed, s) == Some(pk) && src.kadID(pk).Some? && HasBitsOf(k, src.kadID(pk).value)
  }

  /** Derivation uses the seed and the salt, and fails exactly if there is no private key or no identifier for it. */
  lemma DeriveMeans(src: Source, s: Salt)
    ensures Derive(src, s).Ok? <==> src.generate(src.seed, s).Some? && src.kadID(src.generate(src.seed, s).value).Some?
    ensures Derive(src, s).Ok? ==> DerivesTo(src, s, Derive(src, s).value.0, Derive(src, s).value.1)
  {
    if Derive(src, s).Ok? {
      ReversedHasBits(src.kadID(src.generate(src.seed, s).value).value);
    }
  }

  /** Two candidates share as many leading bits as the XOR of their Kademlia identifiers has leading zeros. */
  lemma CandidatesFollowKademlia(src: Source, s: Salt, t: Salt)
    requires Sane(src) && Derive(src, s).Ok? && Derive(src, t).Ok?
    ensures var (pk, k) := Derive(src, s).value;
            var (pk', k') := Derive(src, t).value;
            && src.kadID(pk).Some? && src.kadID(pk').Some? && |k| == |k'| == 32
            && |src.kadID(pk).value| == |src.kadID(pk').value|
            && Cpl(k, k') == LeadingZeros(Xor(src.kadID(pk).value, src.kadID(pk').value))
  {
    DeriveMeans(src, s);
    DeriveMeans(src, t);
    var (pk, k) := Derive(src, s).value;
    var (pk', k') := Derive(src, t).value;
    BitsGiveXorDistance(k, k', src.kadID(pk).value, src.kadID(pk').value);
  }

  ghost predicate Derived(src: Source, k: TrieKey) {
    exists s: Salt :: Derive(src, s).Ok? && Derive(src, s).value.1 == k
  }

  /** Identifiers are 32 bytes long, and no two keys derived from the seed are twins. */
  ghost predicate Sane(src: Source) {
    && (forall pk :: src.kadID(pk).Some? ==> |src.kadID(pk).value| == 32)
    && (forall k, k' {:trigger Twins(k, k')} | Derived(src, k) && Derived(src, k') :: !Twins(k, k'))
  }

  // ---- Drawing candidates ----------------------------------------------------

  /** A draw ends the search when derivation fails or its key is not stored. */
  ghost predicate Settles(src: Source, S: set<TrieKey>, s: Salt) {
    Derive(src, s).Ok? ==> Derive(src, s).value.1 !in S
  }

  /** Some salt ends the search; without one the search never ends. */
  ghost predicate Live(src: Source, S: set<TrieKey>) {
    exists s: Salt :: Settles(src, S, s)
  }

  /** From wherever it starts, the search goes through every salt: it ends at all exactly when some salt ends it. */
  lemma SearchEndsIffLive(src: Source, S: set<TrieKey>, s: Salt)
    ensures (exists j: nat | j > 0 :: Settles(src, S, Ahead(s, j))) <==> Live(src, S)
  {
    if Live(src, S) {
      var g: Salt :| Settles(src, S, g);
      var j: nat := g + SALTS - s;
      assert Ahead(s, j) == g;
    }
  }

  ghost function Goal(src: Source, S: set<TrieKey>): (s: Salt)
    requires Live(src, S)
    ensures Settles(src, S, s)
  {
    var s: Salt :| Settles(src, S, s);
    s
  }

  /** Draws from salt s that come before the one at salt g. */
  function Gap(s: Salt, g: Salt): nat {
    if g > s then g - s - 1 else g + SALTS - s - 1
  }

  /** The salt at which a search starting after salt s ends. */
  ghost function Drawn(src: Source, S: set<TrieKey>, s: Salt): (r: Salt)
    requires Live(src, S)
    ensures Settles(src, S, r)
    decreases Gap(s, Goal(src, S))
  {
    if Settles(src, S, Next(s)) then Next(s) else Drawn(src, S, Next(s))
  }

  lemma DrawnStep(src: Source, S: set<TrieKey>, s: Salt)
    requires Live(src, S)
    ensures Settles(src, S, Next(s)) ==> Drawn(src, S, s) == Next(s)
    ensures !Settles(src, S, Next(s)) ==>
              Drawn(src, S, s) == Drawn(src, S, Next(s)) && Gap(Next(s), Goal(src, S)) < Gap(s, Goal(src, S))
  {
    if !Settles(src, S, Next(s)) {
      GapShrinks(s, Goal(src, S));
    }
  }

  lemma GapShrinks(s: Salt, g: Salt)
    requires Next(s) != g
    ensures Gap(Next(s), g) < Gap(s, g)
  {
  }

  /** Nothing before the salt drawn would have ended the search, and j draws were made. */
  ghost predicate DrawnAfter(src: Source, S: set<TrieKey>, s: Salt, j: nat) {
    && j > 0
    && Settles(src, S, Ahead(s, j))
    && forall i: nat | 0 < i < j :: !Settles(src, S, Ahead(s, i))
  }

  lemma AheadNext(s: Salt, i: nat)
    ensures Ahead(Next(s), i) == Ahead(s, i + 1)
  {
  }

  lemma DrawnAfterNext(src: Source, S: set<TrieKey>, s: Salt, j: nat)
    requires DrawnAfter(src, S, s, j) && j > 1
    ensures DrawnAfter(src, S, Next(s), j - 1)
  {
    AheadNext(s, j - 1);
    forall i: nat | 0 < i < j - 1
      ensures !Settles(src, S, Ahead(Next(s), i))
    {
      AheadNext(s, i);
      assert !Settles(src, S, Ahead(s, i + 1));
    }
  }

  lemma {:induction false} DrawnIsFirst(src: Source, S: set<TrieKey>, s: Salt, j: nat)
    requires DrawnAfter(src, S, s, j)
    ensures Live(src, S) && Drawn(src, S, s) == Ahead(s, j)
    decreases j
  {
    var t: Salt := Ahead(s, j);
    assert Settles(src, S, t);
    if j > 1 {
      assert !Settles(src, S, Ahead(s, 1));
      DrawnAfterNext(src, S, s, j);
      AheadNext(s, j - 1);
      DrawnIsFirst(src, S, Next(s), j - 1);
    }
  }

  /** Two of the next n salts after s that both derive a key derive different ones. */
  ghost predicate NextDistinct(src: Source, s: Salt, n: nat) {
    forall i: nat, j: nat | 0 < i < j <= n ::
      var a, b := Derive(src, Ahead(s, i)), Derive(src, Ahead(s, j));
      a.Ok? && b.Ok? ==> a.value.1 != b.value.1
  }

  /** Pigeonhole: among |S| + 1 draws with distinct keys one ends the search. */
  lemma DrawsSuffice(src: Source, S: set<TrieKey>, s: Salt) returns (j: nat)
    requires NextDistinct(src, s, |S| + 1)
    ensures j <= |S| + 1 && DrawnAfter(src, S, s, j)
    ensures Live(src, S) && Drawn(src, S, s) == Ahead(s, j)
  {
    j := 1;
    ghost var seen: set<TrieKey> := {};
    while !Settles(src, S, Ahead(s, j))
      invariant 1 <= j <= |S| + 1
      invariant forall i: nat | 0 < i < j :: !Settles(src, S, Ahead(s, i))
      invariant |seen| == j - 1 && seen <= S
      invariant forall k | k in seen :: exists i: nat | 0 < i < j :: Derive(src, Ahead(s, i)).Ok? && Derive(src, Ahead(s, i)).value.1 == k
      decreases |S| - j
    {
      var k := Derive(src, Ahead(s, j)).value.1;
      Bounded(seen + {k}, S);
      seen := seen + {k};
      j := j + 1;
    }
    DrawnIsFirst(src, S, s, j);
  }

  lemma Bounded<T>(A: set<T>, B: set<T>)
    requires A <= B
    ensures |A| <= |B|
  {
    assert B == A + (B - A);
  }

  // ---- The calls -------------------------------------------------------------

  datatype Gen = Gen(keys: set<TrieKey>, salt: Salt, count: int)

  const START := Gen({}, 0, 0)

  /** The depth at which q rests beside the keys of S. */
  ghost function Landing(S: set<TrieKey>, q: TrieKey): nat {
    if exists r: nat :: Rests(S, q, 0, r) then
      var r: nat :| Rests(S, q, 0, r);
      r
    else 0
  }

  lemma LandingIs(S: set<TrieKey>, q: TrieKey, r: nat)
    requires Rests(S, q, 0, r)
    ensures Landing(S, q) == r
  {
  }

  lemma LandingRests(S: set<TrieKey>, q: TrieKey)
    requires Storable(S, KEY_BITS) && BitLen(q) == KEY_BITS && !HasTwin(S, q)
    ensures Rests(S, q, 0, Landing(S, q))
  {
    InsertAtRoot(S, q, KEY_BITS);
    LandingIs(S, q, Insert(Root(S, KEY_BITS), 0, q).depth);
  }

  ghost function Store(g: Gen, s: Salt, k: TrieKey): Gen {
    Gen(g.keys + {k}, s, g.count + 1)
  }

  ghost function AddUnbalanced(src: Source, g: Gen): (Gen, Option<PrivKey>)
    requires Live(src, g.keys)
  {
    var s := Drawn(src, g.keys, g.salt);
    match Derive(src, s)
    case Failed => (g.(salt := s), None)
    case Ok((p, t)) => (Store(g, s, t), Some(p))
  }

  /** Two candidates are drawn; the first is kept only if it lands strictly higher. */
  ghost function AddBalanced(src: Source, g: Gen): (Gen, Option<PrivKey>)
    requires Live(src, g.keys)
  {
    var s0 := Drawn(src, g.keys, g.salt);
    match Derive(src, s0)
    case Failed => (g.(salt := s0), None)
    case Ok((p0, t0)) =>
      var s1 := Drawn(src, g.keys, s0);
      match Derive(src, s1)
      case Failed => (g.(salt := s1), None)
      case Ok((p1, t1)) =>
        if Landing(g.keys, t0) < Landing(g.keys, t1) then (Store(g, s1, t0), Some(p0))
        else (Store(g, s1, t1), Some(p1))
  }

  /** Fails only when no trie key can be made from the private key. */
  ghost function RemoveKey(src: Source, g: Gen, pk: PrivKey): (Gen, bool) {
    match ToTrieKey(src, pk)
    case None => (g, false)
    case Some(k) =>
      (Gen(g.keys - {k}, g.salt, if k in g.keys then g.count - 1 else g.count), true)
  }

  /** An identity the salt derives, if it derives one. */
  ghost function IdentityAt(src: Source, s: Salt): Option<PrivKey> {
    match src.generate(src.seed, s)
    case None => None
    case Some(pk) => if src.kadID(pk).Some? then Some(pk) else None
  }

  /**
   An unbalanced add ends at the first settling salt, j draws on; it returns the
   identity derived there, and an error exactly if there is none.
   */
  lemma AddUnbalancedReturns(src: Source, g: Gen, j: nat)
    requires DrawnAfter(src, g.keys, g.salt, j)
    ensures Live(src, g.keys)
    ensures var (g', r) := AddUnbalanced(src, g);
            g'.salt == Ahead(g.salt, j) && r == IdentityAt(src, Ahead(g.salt, j))
  {
    DrawnIsFirst(src, g.keys, g.salt, j);
    DeriveMeans(src, Ahead(g.salt, j));
  }

  /**
   A balanced add draws up to the first settling salt, i draws on, and from there, if
   that derives an identity, up to the next one, j draws on; it returns one of the two
   identities, and an error exactly if there are not two.
   */
  lemma AddBalancedReturns(src: Source, g: Gen, i: nat, j: nat)
    requires DrawnAfter(src, g.keys, g.salt, i) && DrawnAfter(src, g.keys, Ahead(g.salt, i), j)
    ensures Live(src, g.keys)
    ensures var (g', r) := AddBalanced(src, g);
            var s0 := Ahead(g.salt, i);
            var s1 := Ahead(s0, j);
            && g'.salt == (if IdentityAt(src, s0).Some? then s1 else s0)
            && (r.Some? <==> IdentityAt(src, s0).Some? && IdentityAt(src, s1).Some?)
            && (r.Some? ==> r == IdentityAt(src, s0) || r == IdentityAt(src, s1))
  {
    DrawnIsFirst(src, g.keys, g.salt, i);
    DrawnIsFirst(src, g.keys, Ahead(g.salt, i), j);
    DeriveMeans(src, Ahead(g.salt, i));
    DeriveMeans(src, Ahead(Ahead(g.salt, i), j));
  }

  /** Removing takes the key with the bits of the identifier, and is an error that changes nothing if there is none. */
  lemma RemoveMeans(src: Source, g: Gen, pk: PrivKey, k: TrieKey)
    ensures src.kadID(pk).None? ==> RemoveKey(src, g, pk) == (g, false)
    ensures src.kadID(pk).Some? && HasBitsOf(k, src.kadID(pk).value) ==>
              RemoveKey(src, g, pk).1 && RemoveKey(src, g, pk).0.keys == g.keys - {k} && RemoveKey(src, g, pk).0.salt == g.salt
  {
    if src.kadID(pk).Some? && HasBitsOf(k, src.kadID(pk).value) {
      HasBitsIsReversed(k, src.kadID(pk).value);
    }
  }

  /** What every call keeps: storable keys of this source, counted exactly. */
  ghost predicate Consistent(src: Source, g: Gen) {
    && Storable(g.keys, KEY_BITS)
    && (forall k | k in g.keys :: Derived(src, k))
    && g.count == |g.keys|
  }

  lemma StartConsistent(src: Source)
    ensures Consistent(src, START)
  {
  }

  /** A derived key never meets its twin in the trie. */
  lemma DerivedFits(src: Source, S: set<TrieKey>, s: Salt)
    requires Sane(src) && (forall k | k in S :: Derived(src, k)) && Derive(src, s).Ok?
    ensures var k := Derive(src, s).value.1; BitLen(k) == KEY_BITS && Derived(src, k) && !HasTwin(S, k)
  {
  }

  /** Storing the key at a settled salt keeps the generator consistent. */
  lemma StoreConsistent(src: Source, g: Gen, s: Salt, t: Salt)
    requires Sane(src) && Consistent(src, g) && Settles(src, g.keys, s) && Derive(src, s).Ok?
    ensures var k := Derive(src, s).value.1;
            && Consistent(src, Store(g, t, k))
            && k !in g.keys && BitLen(k) == KEY_BITS && !HasTwin(g.keys, k)
            && Rests(g.keys, k, 0, Landing(g.keys, k))
            && ToTrieKey(src, Derive(src, s).value.0) == Some(k)
  {
    var k := Derive(src, s).value.1;
    DerivedFits(src, g.keys, s);
    StorableInsert(g.keys, k, KEY_BITS);
    LandingRests(g.keys, k);
  }

  ghost predicate Grows(g: Gen, r: (Gen, Option<PrivKey>), src: Source) {
    match r.1
    case None => r.0.keys == g.keys && r.0.count == g.count
    case Some(pk) =>
      match ToTrieKey(src, pk)
      case None => false
      case Some(k) => k !in g.keys && r.0.keys == g.keys + {k} && r.0.count == g.count + 1
  }

  /** An add either changes no key or stores the new key it returns; the generator stays consistent. */
  lemma AddUnbalancedConsistent(src: Source, g: Gen)
    requires Sane(src) && Consistent(src, g) && Live(src, g.keys)
    ensures Consistent(src, AddUnbalanced(src, g).0) && Grows(g, AddUnbalanced(src, g), src)
  {
    var s := Drawn(src, g.keys, g.salt);
    if Derive(src, s).Ok? {
      StoreConsistent(src, g, s, s);
    }
  }

  lemma AddBalancedConsistent(src: Source, g: Gen)
    requires Sane(src) && Consistent(src, g) && Live(src, g.keys)
    ensures Consistent(src, AddBalanced(src, g).0) && Grows(g, AddBalanced(src, g), src)
  {
    var s0 := Drawn(src, g.keys, g.salt);
    if Derive(src, s0).Ok? {
      var s1 := Drawn(src, g.keys, s0);
      if Derive(src, s1).Ok? {
        var first := Landing(g.keys, Derive(src, s0).value.1) < Landing(g.keys, Derive(src, s1).value.1);
        StoreConsistent(src, g, if first then s0 else s1, s1);
      }
    }
  }

  lemma RemoveConsistent(src: Source, g: Gen, pk: PrivKey)
    requires Sane(src) && Consistent(src, g)
    ensures Consistent(src, RemoveKey(src, g, pk).0)
  {
  }

  /** The candidate with the smaller depth is stored and returned, the second one on a tie. */
  ghost predicate Greedy(g: Gen, c0: (PrivKey, TrieKey), d0: nat, c1: (PrivKey, TrieKey), d1: nat, r: (Gen, Option<PrivKey>)) {
    var (pk, k) := if d0 < d1 then c0 else c1;
    var m := if d0 < d1 then d0 else d1;
    && r.1 == Some(pk)
    && r.0.keys == g.keys + {k}
    && Rests(g.keys, k, 0, m)
    && Depth(Root(r.0.keys, KEY_BITS), 0) == Max(Depth(Root(g.keys, KEY_BITS), 0), m)
  }

  /**
   The balanced add is greedy: d0 and d1 being where its two candidates would rest,
   the stored key rests at the smaller, and the trie deepens no further than that.
   */
  lemma BalancedIsGreedy(src: Source, g: Gen, s0: Salt, s1: Salt) returns (d0: nat, d1: nat)
    requires Sane(src) && Consistent(src, g) && Live(src, g.keys) && AddBalanced(src, g).1.Some?
    requires s0 == Drawn(src, g.keys, g.salt) && s1 == Drawn(src, g.keys, s0)
    ensures Derive(src, s0).Ok? && Rests(g.keys, Derive(src, s0).value.1, 0, d0)
    ensures Derive(src, s1).Ok? && Rests(g.keys, Derive(src, s1).value.1, 0, d1)
    ensures Greedy(g, Derive(src, s0).value, d0, Derive(src, s1).value, d1, AddBalanced(src, g))
  {
    var k0, k1 := Derive(src, s0).value.1, Derive(src, s1).value.1;
    StoreConsistent(src, g, s0, s1);
    StoreConsistent(src, g, s1, s1);
    d0, d1 := Landing(g.keys, k0), Landing(g.keys, k1);
    if d0 < d1 {
      DepthAfterInsert(g.keys, k0, KEY_BITS, d0);
    } else {
      DepthAfterInsert(g.keys, k1, KEY_BITS, d1);
    }
  }
}
