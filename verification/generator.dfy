/**
 The shared identity generator. Its mutex is held for the whole of each call, so a
 call is modelled as one step on the object.
 */
module Generators {
  import opened Wrappers
  import opened TrieKeys
  import opened Tries
  import opened TrieFacts
  import opened GeneratorSpec
  import opened GeneratorRuns
  import opened XorTries

  class BalancedIdentityGenerator {
    const src: Source
    const xorTrie: XorTrie
    var count: int
    var idgenCount: Salt

    ghost predicate Valid()
      reads this, xorTrie, xorTrie.Repr
    {
      && Ready()
      && Sane(src)
      && Consistent(src, State())
    }

    /** The heap part of validity. */
    ghost predicate Ready()
      reads this, xorTrie, xorTrie.Repr
    {
      this !in xorTrie.Repr && xorTrie.Sound(KEY_BITS)
    }

    ghost function State(): Gen
      reads this, xorTrie
    {
      Gen(xorTrie.KeySet(), idgenCount, count)
    }

    /** Starts idOffset balanced adds into the sequence of the seed; a negative offset adds nothing. */
    constructor FromSeed(src: Source, idOffset: int)
      requires Sane(src) && (idOffset > 0 ==> CanAdd(src, START, idOffset))
      ensures Valid() && fresh(xorTrie.Repr) && this.src == src
      ensures State() == AddMany(src, START, if idOffset > 0 then idOffset else 0)
    {
      this.src := src;
      xorTrie := new XorTrie();
      count, idgenCount := 0, 0;
      new;
      ghost var goal := AddMany(src, START, if idOffset > 0 then idOffset else 0);
      var i := 0;
      while i < idOffset
        invariant 0 <= i
        invariant Valid() && fresh(xorTrie.Repr)
        invariant AddsReach(src, State(), if i < idOffset then idOffset - i else 0, goal)
      {
        AddsReachFirst(src, State(), idOffset - i, goal);
        var _ := AddBalanced();
        i := i + 1;
      }
      AddsReachNone(src, State(), goal);
    }

    method AddUnbalanced() returns (pk: Option<PrivKey>)
      requires Valid() && Live(src, State().keys)
      modifies this, xorTrie.Repr
      ensures Valid() && fresh(xorTrie.Repr - old(xorTrie.Repr))
      ensures (State(), pk) == GeneratorSpec.AddUnbalanced(src, old(State()))
    {
      ghost var g := State();
      assert Consistent(src, GeneratorSpec.AddUnbalanced(src, g).0) by {
        AddUnbalancedConsistent(src, g);
      }
      var c := GenUniqueID();
      match c
      case Failed =>
        return None;
      case Ok((p0, t0, d0)) =>
        StoreFits(idgenCount);
        Keep(t0);
        return Some(p0);
    }

    method AddBalanced() returns (pk: Option<PrivKey>)
      requires Valid() && Live(src, State().keys)
      modifies this, xorTrie.Repr
      ensures Valid() && fresh(xorTrie.Repr - old(xorTrie.Repr))
      ensures (State(), pk) == GeneratorSpec.AddBalanced(src, old(State()))
    {
      ghost var g := State();
      assert Consistent(src, GeneratorSpec.AddBalanced(src, g).0) by {
        AddBalancedConsistent(src, g);
      }
      var c0 := GenUniqueID();
      if c0.Failed? {
        return None;
      }
      StoreFits(idgenCount);
      var c1 := GenUniqueID();
      assert fresh(xorTrie.Repr - old(xorTrie.Repr));
      if c1.Failed? {
        return None;
      }
      StoreFits(idgenCount);
      var (p0, t0, d0) := c0.value;
      var (p1, t1, d1) := c1.value;
      if d0 < d1 {
        Keep(t0);
        assert fresh(xorTrie.Repr - old(xorTrie.Repr));
        return Some(p0);
      } else {
        Keep(t1);
        assert fresh(xorTrie.Repr - old(xorTrie.Repr));
        return Some(p1);
      }
    }

    lemma StoreFits(s: Salt)
      requires Valid() && Settles(src, State().keys, s) && Derive(src, s).Ok?
      ensures var t := Derive(src, s).value.1;
              BitLen(t) == KEY_BITS && t !in State().keys && !HasTwin(State().keys, t)
    {
    }

    /** Inserts an accepted candidate and counts it, without looking at the result of Insert. */
    method Keep(t: TrieKey)
      requires Ready() && BitLen(t) == KEY_BITS && !HasTwin(State().keys, t)
      modifies this, xorTrie.Repr
      ensures Ready() && fresh(xorTrie.Repr - old(xorTrie.Repr))
      ensures State() == Store(old(State()), old(idgenCount), t)
    {
      var _, _ := TryInsert(t);
      AdjustCount(1);
    }

    method AdjustCount(delta: int)
      requires Ready()
      modifies this`count
      ensures count == old(count) + delta
      ensures Ready() && xorTrie.KeySet() == old(xorTrie.KeySet())
    {
      count := count + delta;
    }

    /** Draws candidates until one is not stored, probing the trie with each. */
    method GenUniqueID() returns (r: Result<(PrivKey, TrieKey, nat)>)
      requires Valid() && Live(src, State().keys)
      modifies this, xorTrie.Repr
      ensures Valid() && fresh(xorTrie.Repr - old(xorTrie.Repr))
      ensures State() == old(State()).(salt := Drawn(src, old(State()).keys, old(idgenCount)))
      ensures xorTrie.shape == old(xorTrie.shape)
      ensures match Derive(src, idgenCount)
              case Failed => r == Failed
              case Ok((p, t)) => r == Ok((p, t, Landing(State().keys, t)))
    {
      ghost var S := State().keys;
      while true
        invariant Valid() && fresh(xorTrie.Repr - old(xorTrie.Repr)) && count == old(count) && State().keys == S
        invariant xorTrie.shape == old(xorTrie.shape)
        invariant Drawn(src, S, idgenCount) == Drawn(src, S, old(idgenCount))
        decreases Gap(idgenCount, Goal(src, S))
      {
        DrawnStep(src, S, idgenCount);
        var d := GenID();
        if d.Failed? {
          return Failed;
        }
        var (privKey, trieKey) := d.value;
        DerivedFits(src, S, idgenCount);
        var depth, ok := Probe(trieKey);
        if ok {
          return Ok((privKey, trieKey, depth));
        }
      }
    }

    /** Inserts a key and takes it out again if that worked. */
    method Probe(q: TrieKey) returns (depth: nat, ok: bool)
      requires Ready() && BitLen(q) == KEY_BITS && !HasTwin(State().keys, q)
      modifies xorTrie.Repr
      ensures Ready() && fresh(xorTrie.Repr - old(xorTrie.Repr)) && State() == old(State())
      ensures xorTrie.shape == old(xorTrie.shape)
      ensures ok <==> q !in State().keys
      ensures depth == Landing(State().keys, q)
    {
      ghost var S := xorTrie.KeySet();
      depth, ok := TryInsert(q);
      if ok {
        assert S + {q} - {q} == S;
        var _ := TakeBack(q);
      } else {
        assert S + {q} == S;
      }
    }

    method TryInsert(q: TrieKey) returns (depth: nat, ok: bool)
      requires Ready() && BitLen(q) == KEY_BITS && !HasTwin(State().keys, q)
      modifies xorTrie.Repr
      ensures Ready() && fresh(xorTrie.Repr - old(xorTrie.Repr))
      ensures State() == old(State()).(keys := old(State()).keys + {q})
      ensures ok <==> q !in old(State()).keys
      ensures depth == Landing(old(State()).keys, q)
    {
      ghost var S := xorTrie.KeySet();
      depth, ok := xorTrie.Insert(q);
      LandingIs(S, q, depth);
    }

    method TakeBack(q: TrieKey) returns (removed: bool)
      requires Ready() && BitLen(q) == KEY_BITS
      modifies xorTrie.Repr
      ensures Ready() && fresh(xorTrie.Repr - old(xorTrie.Repr))
      ensures State() == old(State()).(keys := old(State()).keys - {q})
      ensures removed <==> q in old(State()).keys
    {
      var _, ok := xorTrie.Remove(q);
      removed := ok;
    }

    method GenID() returns (r: Result<(PrivKey, TrieKey)>)
      requires Ready()
      modifies this`idgenCount
      ensures Ready() && xorTrie.KeySet() == old(xorTrie.KeySet()) && xorTrie.shape == old(xorTrie.shape)
      ensures idgenCount == Next(old(idgenCount)) && r == Derive(src, idgenCount)
      ensures idgenCount == if old(idgenCount) == 0xFFFF_FFFF then 0 else old(idgenCount) + 1
    {
      idgenCount := Next(idgenCount);
      var pk := src.generate(src.seed, idgenCount);
      if pk == None {
        return Failed;
      }
      var k := PrivKeyToTrieKey(pk.value);
      if k == None {
        return Failed;
      }
      return Ok((pk.value, k.value));
    }

    method PrivKeyToTrieKey(pk: PrivKey) returns (k: Option<TrieKey>)
      ensures k == ToTrieKey(src, pk)
      ensures k.Some? <==> src.kadID(pk).Some?
      ensures k.Some? ==> HasBitsOf(k.value, src.kadID(pk).value)
    {
      var id := src.kadID(pk);
      if id == None {
        return None;
      }
      var blob := new bv8[|id.value|](i requires 0 <= i < |id.value| => id.value[i]);
      assert blob[..] == id.value;
      ReversePerByteBits(blob);
      ReversedHasBits(id.value);
      return Some(blob[..]);
    }

    method Remove(pk: PrivKey) returns (ok: bool)
      requires Valid()
      modifies this, xorTrie.Repr
      ensures Valid() && fresh(xorTrie.Repr - old(xorTrie.Repr))
      ensures (State(), ok) == RemoveKey(src, old(State()), pk)
    {
      ghost var g := State();
      assert Consistent(src, RemoveKey(src, g, pk).0) by {
        RemoveConsistent(src, g, pk);
      }
      var k := PrivKeyToTrieKey(pk);
      if k == None {
        return false;
      }
      Discard(k.value);
      return true;
    }

    /** Removes a key and uncounts it if it was there. */
    method Discard(k: TrieKey)
      requires Ready() && BitLen(k) == KEY_BITS
      modifies this, xorTrie.Repr
      ensures Ready() && fresh(xorTrie.Repr - old(xorTrie.Repr))
      ensures idgenCount == old(idgenCount) && State().keys == old(State()).keys - {k}
      ensures count == if k in old(State()).keys then old(count) - 1 else old(count)
    {
      var removed := TakeBack(k);
      if removed {
        AdjustCount(-1);
      }
    }

    method Count() returns (n: int)
      requires Valid()
      ensures n == |State().keys|
    {
      n := count;
    }

    method Depth() returns (d: nat)
      requires Valid()
      ensures DepthOf(State().keys, 0, d) && d < KEY_BITS && |State().keys| <= Pow2(d)
    {
      DepthAtRoot(State().keys, KEY_BITS);
      KeysFitDepth(State().keys, KEY_BITS);
      d := xorTrie.Depth();
    }
  }
}
