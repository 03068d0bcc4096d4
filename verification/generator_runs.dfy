/**
 Whole runs of the identity generator: what every mix of calls keeps, how many salts
 it uses, and how generators that start at different offsets of one seed share out
 the sequence of identities.
 */
module GeneratorRuns {
  import opened Wrappers
  import opened TrieKeys
  import opened Tries
  import opened GeneratorSpec
  import opened Iteration

  datatype Call = Balanced | Unbalanced | Delete(pk: PrivKey)

  ghost predicate CanStep(src: Source, g: Gen, c: Call) {
    !c.Delete? ==> Live(src, g.keys)
  }

  ghost function Step(src: Source, g: Gen, c: Call): Gen
    requires CanStep(src, g, c)
  {
    match c
    case Balanced => AddBalanced(src, g).0
    case Unbalanced => AddUnbalanced(src, g).0
    case Delete(pk) => RemoveKey(src, g, pk).0
  }

  /** Every call of the run returns. */
  ghost predicate CanRun(src: Source, g: Gen, calls: seq<Call>)
    decreases |calls|
  {
    calls != [] ==> CanStep(src, g, calls[0]) && CanRun(src, Step(src, g, calls[0]), calls[1..])
  }

  ghost function Run(src: Source, g: Gen, calls: seq<Call>): Gen
    requires CanRun(src, g, calls)
    decreases |calls|
  {
    if calls == [] then g else Run(src, Step(src, g, calls[0]), calls[1..])
  }

  /** The count is the number of stored keys after any mix of calls, failed ones included. */
  lemma {:induction false} RunConsistent(src: Source, g: Gen, calls: seq<Call>)
    requires Sane(src) && Consistent(src, g) && CanRun(src, g, calls)
    ensures Consistent(src, Run(src, g, calls))
    decreases |calls|
  {
    if calls != [] {
      match calls[0] {
        case Balanced => AddBalancedConsistent(src, g);
        case Unbalanced => AddUnbalancedConsistent(src, g);
        case Delete(pk) => RemoveConsistent(src, g, pk);
      }
      RunConsistent(src, Step(src, g, calls[0]), calls[1..]);
    }
  }

  // ---- How many salts a run uses ---------------------------------------------

  /** Among the salts 1 to top, those that derive a key derive different ones. */
  ghost predicate Distinct(src: Source, top: Salt) {
    forall s: Salt, t: Salt | 0 < s < t <= top && Derive(src, s).Ok? && Derive(src, t).Ok? ::
      Derive(src, s).value.1 != Derive(src, t).value.1
  }

  /** None of the salts 1 to top makes derivation fail. */
  ghost predicate NoErrors(src: Source, top: Salt) {
    forall s: Salt | 0 < s <= top :: Derive(src, s).Ok?
  }

  /** Every stored key comes from a salt already used. */
  ghost predicate Behind(src: Source, g: Gen) {
    forall k | k in g.keys :: exists s: Salt | 0 < s <= g.salt :: Derive(src, s).Ok? && Derive(src, s).value.1 == k
  }

  function SaltsUsed(calls: seq<Call>): nat {
    if calls == [] then 0
    else (match calls[0] case Balanced => 2 case Unbalanced => 1 case Delete(_) => 0) + SaltsUsed(calls[1..])
  }

  /** The next salt always settles while keys are distinct and the counter has not wrapped. */
  lemma NextSettles(src: Source, g: Gen, s: Salt, top: Salt)
    requires Distinct(src, top) && Behind(src, g) && g.salt <= s < top
    ensures Live(src, g.keys) && Drawn(src, g.keys, s) == s + 1
  {
    var t: Salt := s + 1;
    assert Next(s) == t;
    assert Settles(src, g.keys, t);
  }

  /** The identity at one of the salts after `low`, up to `high`. */
  ghost predicate Between(src: Source, low: Salt, high: Salt, pk: PrivKey) {
    exists s: Salt | low < s <= high :: Derive(src, s).Ok? && Derive(src, s).value.0 == pk
  }

  /** The generator's salts move on from g's, by two without errors, and what is returned comes from one of them. */
  ghost predicate UsesTwo(src: Source, g: Gen, r: (Gen, Option<PrivKey>), top: Salt) {
    && g.salt < r.0.salt <= g.salt + 2
    && (NoErrors(src, top) ==> r.0.salt == g.salt + 2)
    && Behind(src, r.0)
    && (r.1.Some? ==> Between(src, g.salt, r.0.salt, r.1.value))
  }

  ghost function KeptAt(src: Source, g: Gen, s: Salt, t: Salt): (Gen, Option<PrivKey>)
    requires Derive(src, s).Ok?
  {
    (Store(g, t, Derive(src, s).value.1), Some(Derive(src, s).value.0))
  }

  /** The outcomes of a balanced add, its candidates' salts being s0 and s1. */
  lemma BalancedOutcomes(src: Source, g: Gen, s0: Salt, s1: Salt)
    requires Live(src, g.keys) && s0 == Drawn(src, g.keys, g.salt) && s1 == Drawn(src, g.keys, s0)
    ensures Derive(src, s0).Failed? ==> AddBalanced(src, g) == (g.(salt := s0), None)
    ensures Derive(src, s0).Ok? && Derive(src, s1).Failed? ==> AddBalanced(src, g) == (g.(salt := s1), None)
    ensures Derive(src, s0).Ok? && Derive(src, s1).Ok? ==>
              AddBalanced(src, g) == KeptAt(src, g, s0, s1) || AddBalanced(src, g) == KeptAt(src, g, s1, s1)
  {
  }

  lemma KeptUses(src: Source, g: Gen, s: Salt, t: Salt, top: Salt)
    requires Behind(src, g) && g.salt < s <= t == g.salt + 2 <= top && Derive(src, s).Ok?
    ensures UsesTwo(src, g, KeptAt(src, g, s, t), top)
  {
    BehindStore(src, g, s, t);
  }

  lemma FailedUses(src: Source, g: Gen, s: Salt, top: Salt)
    requires Behind(src, g) && g.salt < s <= g.salt + 2 <= top && Derive(src, s).Failed?
    ensures UsesTwo(src, g, (g.(salt := s), None), top)
  {
    BehindLater(src, g, s);
  }

  /** A balanced add uses two salts, fewer only on an error, and returns what one of them derives. */
  lemma BalancedUses(src: Source, g: Gen, top: Salt)
    requires Distinct(src, top) && Behind(src, g) && g.salt + 2 <= top
    ensures Live(src, g.keys) && UsesTwo(src, g, AddBalanced(src, g), top)
  {
    var s0: Salt, s1: Salt := g.salt + 1, g.salt + 2;
    NextSettles(src, g, g.salt, top);
    NextSettles(src, g, s0, top);
    BalancedOutcomes(src, g, s0, s1);
    if Derive(src, s0).Failed? {
      FailedUses(src, g, s0, top);
    } else if Derive(src, s1).Failed? {
      FailedUses(src, g, s1, top);
    } else {
      KeptUses(src, g, s0, s1, top);
      KeptUses(src, g, s1, s1, top);
    }
  }

  lemma BehindLater(src: Source, g: Gen, t: Salt)
    requires Behind(src, g) && g.salt <= t
    ensures Behind(src, g.(salt := t))
  {
  }

  lemma BehindStore(src: Source, g: Gen, s: Salt, t: Salt)
    requires Behind(src, g) && g.salt < s <= t && Derive(src, s).Ok?
    ensures Behind(src, Store(g, t, Derive(src, s).value.1))
    ensures Between(src, g.salt, t, Derive(src, s).value.0)
  {
  }

  /** The outcomes of an unbalanced add, its candidate's salt being s. */
  lemma UnbalancedOutcomes(src: Source, g: Gen, s: Salt)
    requires Live(src, g.keys) && s == Drawn(src, g.keys, g.salt)
    ensures Derive(src, s).Failed? ==> AddUnbalanced(src, g) == (g.(salt := s), None)
    ensures Derive(src, s).Ok? ==> AddUnbalanced(src, g) == KeptAt(src, g, s, s)
  {
  }

  lemma UnbalancedUses(src: Source, g: Gen, top: Salt)
    requires Distinct(src, top) && Behind(src, g) && g.salt + 1 <= top
    ensures Live(src, g.keys)
    ensures AddUnbalanced(src, g).0.salt == g.salt + 1 && Behind(src, AddUnbalanced(src, g).0)
  {
    var s: Salt := g.salt + 1;
    NextSettles(src, g, g.salt, top);
    UnbalancedOutcomes(src, g, s);
    if Derive(src, s).Ok? {
      BehindStore(src, g, s, s);
    } else {
      BehindLater(src, g, s);
    }
  }

  lemma StepUses(src: Source, g: Gen, c: Call, top: Salt)
    requires Distinct(src, top) && Behind(src, g) && g.salt + SaltsUsed([c]) <= top
    ensures CanStep(src, g, c) && Behind(src, Step(src, g, c))
    ensures g.salt <= Step(src, g, c).salt <= g.salt + SaltsUsed([c])
    ensures NoErrors(src, top) ==> Step(src, g, c).salt == g.salt + SaltsUsed([c])
  {
    match c
    case Delete(_) =>
    case Unbalanced => UnbalancedUses(src, g, top);
    case Balanced => BalancedUses(src, g, top);
  }

  /**
   With distinct keys and no wrap, no draw is ever repeated: every call returns, and
   without errors the counter moves by exactly two for a balanced add and one for an
   unbalanced add, whatever removals come between.
   */
  lemma {:induction false} NeverRetries(src: Source, g: Gen, calls: seq<Call>, top: Salt)
    requires Distinct(src, top) && Behind(src, g) && g.salt + SaltsUsed(calls) <= top
    ensures CanRun(src, g, calls)
    ensures g.salt <= Run(src, g, calls).salt <= g.salt + SaltsUsed(calls)
    ensures NoErrors(src, top) ==> Run(src, g, calls).salt == g.salt + SaltsUsed(calls)
    decreases |calls|
  {
    if calls != [] {
      StepUses(src, g, calls[0], top);
      NeverRetries(src, Step(src, g, calls[0]), calls[1..], top);
    }
  }

  // ---- Offsets into one seed -------------------------------------------------

  /** One balanced add, if it returns. */
  ghost function Adder(src: Source): Gen -> Option<(Gen, Option<PrivKey>)> {
    (g: Gen) => if Live(src, g.keys) then Some(AddBalanced(src, g)) else None
  }

  /** Each of n balanced adds returns, an error or not. */
  ghost predicate CanAdd(src: Source, g: Gen, n: nat) {
    Iterate(Adder(src), g, n).Some?
  }

  /** The generator after n balanced adds, whose errors are ignored. */
  ghost function AddMany(src: Source, g: Gen, n: nat): Gen {
    match Iterate(Adder(src), g, n)
    case None => g
    case Some((g', _)) => g'
  }

  /** What n balanced adds return. */
  ghost function Emissions(src: Source, g: Gen, n: nat): (r: seq<Option<PrivKey>>)
    ensures CanAdd(src, g, n) ==> |r| == n
  {
    match Iterate(Adder(src), g, n)
    case None => []
    case Some((_, ids)) => ids
  }

  /** The first of n adds. */
  lemma AddFirst(src: Source, g: Gen, n: nat)
    requires n > 0 && CanAdd(src, g, n)
    ensures Live(src, g.keys)
    ensures var (g', r) := AddBalanced(src, g);
            && CanAdd(src, g', n - 1)
            && AddMany(src, g, n) == AddMany(src, g', n - 1)
            && Emissions(src, g, n) == [r] + Emissions(src, g', n - 1)
  {
    assert Adder(src)(g).Some?;
  }

  /** n balanced adds lead from g to the goal. */
  ghost predicate AddsReach(src: Source, g: Gen, n: nat, goal: Gen) {
    CanAdd(src, g, n) && AddMany(src, g, n) == goal
  }

  lemma AddsReachNone(src: Source, g: Gen, goal: Gen)
    ensures AddsReach(src, g, 0, goal) <==> g == goal
  {
  }

  lemma AddsReachFirst(src: Source, g: Gen, n: nat, goal: Gen)
    requires n > 0 && AddsReach(src, g, n, goal)
    ensures Live(src, g.keys) && AddsReach(src, AddBalanced(src, g).0, n - 1, goal)
  {
    AddFirst(src, g, n);
  }

  /** Adding a and then n identities is adding a + n. */
  lemma AddManySplit(src: Source, g: Gen, a: nat, n: nat)
    requires CanAdd(src, g, a + n)
    ensures CanAdd(src, g, a) && CanAdd(src, AddMany(src, g, a), n)
    ensures AddMany(src, g, a + n) == AddMany(src, AddMany(src, g, a), n)
    ensures Emissions(src, g, a + n) == Emissions(src, g, a) + Emissions(src, AddMany(src, g, a), n)
  {
    IterateSplit(Adder(src), g, a, n);
  }

  /** The identity at one of the two salts after s. */
  ghost predicate FromPair(src: Source, s: nat, r: Option<PrivKey>) {
    s + 2 < SALTS && r.Some? && (r == IdentityAt(src, s + 1) || r == IdentityAt(src, s + 2))
  }

  /** Until the salts run out each step returns, takes two salts, and returns the identity of one of them. */
  ghost predicate TakesPairs(src: Source, top: Salt, step: Gen -> Option<(Gen, Option<PrivKey>)>) {
    forall g | Behind(src, g) && g.salt + 2 <= top ::
      && step(g).Some?
      && Behind(src, step(g).value.0) && step(g).value.0.salt == g.salt + 2
      && FromPair(src, g.salt, step(g).value.1)
  }

  lemma AdderTakesPairs(src: Source, top: Salt)
    requires Distinct(src, top) && NoErrors(src, top)
    ensures TakesPairs(src, top, Adder(src))
  {
    forall g | Behind(src, g) && g.salt + 2 <= top
      ensures Adder(src)(g).Some? && Behind(src, Adder(src)(g).value.0)
      ensures Adder(src)(g).value.0.salt == g.salt + 2 && FromPair(src, g.salt, Adder(src)(g).value.1)
    {
      AddTakesPair(src, g, top);
    }
  }

  lemma AddTakesPair(src: Source, g: Gen, top: Salt)
    requires Distinct(src, top) && NoErrors(src, top) && Behind(src, g) && g.salt + 2 <= top
    ensures Live(src, g.keys) && UsesTwo(src, g, AddBalanced(src, g), top)
    ensures FromPair(src, g.salt, AddBalanced(src, g).1)
  {
    BalancedUses(src, g, top);
    var s0: Salt, s1: Salt := g.salt + 1, g.salt + 2;
    NextSettles(src, g, g.salt, top);
    NextSettles(src, g, s0, top);
    BalancedOutcomes(src, g, s0, s1);
    DeriveMeans(src, s0);
    DeriveMeans(src, s1);
  }

  /** The i-th of these is the identity at one of the i-th two salts after s. */
  ghost predicate AllFromPairs(src: Source, s: nat, ids: seq<Option<PrivKey>>) {
    forall i | 0 <= i < |ids| :: FromPair(src, s + 2 * i, ids[i])
  }

  lemma PairInFront(src: Source, s: nat, r: Option<PrivKey>, rest: seq<Option<PrivKey>>)
    requires FromPair(src, s, r) && AllFromPairs(src, s + 2, rest)
    ensures AllFromPairs(src, s, [r] + rest)
  {
    forall i | 0 < i < |[r] + rest|
      ensures FromPair(src, s + 2 * i, ([r] + rest)[i])
    {
      assert FromPair(src, s + 2 + 2 * (i - 1), rest[i - 1]);
    }
  }

  /** One step, and n - 1 more that keep to the order. */
  lemma PairFirst(src: Source, top: Salt, step: Gen -> Option<(Gen, Option<PrivKey>)>, g: Gen, n: nat)
    requires TakesPairs(src, top, step) && Behind(src, g) && n > 0 && g.salt + 2 <= top
    ensures step(g).Some?
    ensures var (g', r) := step(g).value;
            && Behind(src, g') && g'.salt == g.salt + 2 && FromPair(src, g.salt, r)
            && Iterate(step, g, n) == Prepend(r, Iterate(step, g', n - 1))
  {
  }

  lemma {:induction false} PairsInOrder(src: Source, top: Salt, step: Gen -> Option<(Gen, Option<PrivKey>)>, g: Gen, n: nat)
    requires TakesPairs(src, top, step) && Behind(src, g) && g.salt + 2 * n <= top
    ensures Iterate(step, g, n).Some? && AllFromPairs(src, g.salt, Iterate(step, g, n).value.1)
    decreases n
  {
    if n > 0 {
      PairFirst(src, top, step, g, n);
      var (g', r) := step(g).value;
      PairsInOrder(src, top, step, g', n - 1);
      PairInFront(src, g.salt, r, Iterate(step, g', n - 1).value.1);
    }
  }

  /** With distinct keys and no errors, emission i of a seed is the identity of salt 2i + 1 or 2i + 2. */
  lemma EmissionSalts(src: Source, n: nat, top: Salt)
    requires Distinct(src, top) && NoErrors(src, top) && 2 * n <= top
    ensures CanAdd(src, START, n) && AllFromPairs(src, 0, Emissions(src, START, n))
  {
    AdderTakesPairs(src, top);
    PairsInOrder(src, top, Adder(src), START, n);
  }

  function Sum(sizes: seq<nat>): nat {
    if sizes == [] then 0 else Sum(sizes[..|sizes| - 1]) + sizes[|sizes| - 1]
  }

  /** What a fleet of hydras emits, each starting at the offset where the one before it stops. */
  ghost function Fleet(src: Source, sizes: seq<nat>): seq<Option<PrivKey>>
    decreases |sizes|
  {
    if sizes == [] then []
    else
      var before := sizes[..|sizes| - 1];
      Fleet(src, before) + Emissions(src, AddMany(src, START, Sum(before)), sizes[|sizes| - 1])
  }

  ghost predicate OneRun(src: Source, sizes: seq<nat>) {
    Fleet(src, sizes) == Emissions(src, START, Sum(sizes))
  }

  lemma NoFleet(src: Source)
    ensures OneRun(src, [])
  {
  }

  lemma LastOfFleet(src: Source, sizes: seq<nat>, before: seq<nat>, n: nat)
    requires sizes != [] && before == sizes[..|sizes| - 1] && n == sizes[|sizes| - 1] && CanAdd(src, START, Sum(sizes))
    ensures CanAdd(src, START, Sum(before)) && (OneRun(src, before) ==> OneRun(src, sizes))
  {
    assert Sum(sizes) == Sum(before) + n;
    AddManySplit(src, START, Sum(before), n);
  }

  lemma {:induction false} FleetsAreOneRun(src: Source, sizes: seq<nat>)
    requires CanAdd(src, START, Sum(sizes))
    ensures OneRun(src, sizes)
    decreases |sizes|
  {
    if sizes == [] {
      NoFleet(src);
    } else {
      var before := sizes[..|sizes| - 1];
      LastOfFleet(src, sizes, before, sizes[|sizes| - 1]);
      FleetsAreOneRun(src, before);
    }
  }

  /** Together the fleet emits exactly what one generator at offset 0 emits. */
  lemma FleetIsOneRun(src: Source, sizes: seq<nat>)
    requires CanAdd(src, START, Sum(sizes))
    ensures Fleet(src, sizes) == Emissions(src, START, Sum(sizes))
  {
    FleetsAreOneRun(src, sizes);
  }

  ghost predicate NewKey(src: Source, r: Option<PrivKey>, S: set<TrieKey>) {
    r.Some? ==> ToTrieKey(src, r.value).Some? && ToTrieKey(src, r.value).value !in S
  }

  /** None of these identities has a key in S, and no two have the same key. */
  ghost predicate AllNew(src: Source, ids: seq<Option<PrivKey>>, S: set<TrieKey>) {
    && (forall i | 0 <= i < |ids| :: NewKey(src, ids[i], S))
    && (forall i, j | 0 <= i < j < |ids| && ids[i].Some? && ids[j].Some? ::
          ToTrieKey(src, ids[i].value) != ToTrieKey(src, ids[j].value))
  }

  /** Each step keeps the generator consistent, and stores the key of what it returns or nothing. */
  ghost predicate Growing(src: Source, step: Gen -> Option<(Gen, Option<PrivKey>)>) {
    forall g | Consistent(src, g) && step(g).Some? ::
      Consistent(src, step(g).value.0) && Grows(g, step(g).value, src)
  }

  lemma AdderGrows(src: Source)
    requires Sane(src)
    ensures Growing(src, Adder(src))
  {
    forall g | Consistent(src, g) && Adder(src)(g).Some?
      ensures Consistent(src, Adder(src)(g).value.0) && Grows(g, Adder(src)(g).value, src)
    {
      AddBalancedConsistent(src, g);
    }
  }

  lemma {:induction false} GrowingDistinct(src: Source, step: Gen -> Option<(Gen, Option<PrivKey>)>, g: Gen, n: nat)
    requires Growing(src, step) && Consistent(src, g) && Iterate(step, g, n).Some?
    ensures AllNew(src, Iterate(step, g, n).value.1, g.keys)
    decreases n
  {
    if n > 0 {
      var (g', r) := step(g).value;
      GrowingDistinct(src, step, g', n - 1);
      EmissionsPrepend(src, g, g', r, Iterate(step, g', n - 1).value.1, Iterate(step, g, n).value.1);
    }
  }

  /** Without removals no identity is emitted twice, nor one already stored. */
  lemma EmissionsDistinct(src: Source, g: Gen, n: nat)
    requires Sane(src) && Consistent(src, g) && CanAdd(src, g, n)
    ensures AllNew(src, Emissions(src, g, n), g.keys)
  {
    AdderGrows(src);
    GrowingDistinct(src, Adder(src), g, n);
  }

  /** A fresh identity in front of identities that are new once it is stored. */
  lemma EmissionsPrepend(src: Source, g: Gen, g': Gen, r: Option<PrivKey>, rest: seq<Option<PrivKey>>, all: seq<Option<PrivKey>>)
    requires Grows(g, (g', r), src) && AllNew(src, rest, g'.keys) && all == [r] + rest
    ensures AllNew(src, all, g.keys)
  {
  }

  /** So the identities of a fleet have pairwise different trie keys. */
  lemma FleetDistinct(src: Source, sizes: seq<nat>, i: nat, j: nat)
    requires Sane(src) && CanAdd(src, START, Sum(sizes))
    requires i < j < |Fleet(src, sizes)|
    requires Fleet(src, sizes)[i].Some? && Fleet(src, sizes)[j].Some?
    ensures var p, q := Fleet(src, sizes)[i].value, Fleet(src, sizes)[j].value;
            ToTrieKey(src, p).Some? && ToTrieKey(src, q).Some? && ToTrieKey(src, p) != ToTrieKey(src, q)
  {
    FleetIsOneRun(src, sizes);
    StartConsistent(src);
    EmissionsDistinct(src, START, Sum(sizes));
  }
}
