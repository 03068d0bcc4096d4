/** A generator that remembers the identities it handed out, so that all can be given back at once. */
module Cleaning {
  import opened Wrappers
  import opened TrieKeys
  import opened GeneratorSpec
  import opened Generators

  /** The memory without one identity; the order of the others is kept. */
  function Without(keys: seq<PrivKey>, pk: PrivKey): seq<PrivKey> {
    if keys == [] then []
    else (if keys[0] == pk then [] else [keys[0]]) + Without(keys[1..], pk)
  }

  lemma {:induction false} WithoutAppend(keys: seq<PrivKey>, x: PrivKey, pk: PrivKey)
    ensures Without(keys + [x], pk) == Without(keys, pk) + (if x == pk then [] else [x])
    decreases |keys|
  {
    if keys != [] {
      assert (keys + [x])[1..] == keys[1..] + [x];
      WithoutAppend(keys[1..], x, pk);
    }
  }

  /** Every occurrence of the identity goes, and nothing else. */
  lemma {:induction false} WithoutCounts(keys: seq<PrivKey>, pk: PrivKey)
    ensures multiset(Without(keys, pk)) == multiset(keys)[pk := 0]
    decreases |keys|
  {
    if keys != [] {
      WithoutCounts(keys[1..], pk);
      assert keys == [keys[0]] + keys[1..];
    }
  }

  lemma WithoutMembers(keys: seq<PrivKey>, pk: PrivKey)
    ensures forall x :: x in Without(keys, pk) <==> x in keys && x != pk
  {
  }

  /** The generator after each key has been removed, and whether every removal succeeded. */
  ghost function RemoveAll(src: Source, g: Gen, keys: seq<PrivKey>): (Gen, bool)
    decreases |keys|
  {
    if keys == [] then (g, true)
    else
      var (g', ok) := RemoveAll(src, g, keys[..|keys| - 1]);
      var (g'', last) := RemoveKey(src, g', keys[|keys| - 1]);
      (g'', ok && last)
  }

  class CleaningIDGenerator {
    const idgen: BalancedIdentityGenerator
    var keys: seq<PrivKey>

    ghost predicate Valid()
      reads this, idgen, idgen.xorTrie, idgen.xorTrie.Repr
    {
      this !in idgen.xorTrie.Repr && idgen.Valid()
    }

    constructor (idgen: BalancedIdentityGenerator)
      requires idgen.Valid()
      ensures Valid() && this.idgen == idgen && keys == []
    {
      this.idgen := idgen;
      keys := [];
    }

    method AddBalanced() returns (pk: Option<PrivKey>)
      requires Valid() && Live(idgen.src, idgen.State().keys)
      modifies this, idgen, idgen.xorTrie.Repr
      ensures Valid() && fresh(idgen.xorTrie.Repr - old(idgen.xorTrie.Repr))
      ensures (idgen.State(), pk) == GeneratorSpec.AddBalanced(idgen.src, old(idgen.State()))
      ensures keys == if pk.Some? then old(keys) + [pk.value] else old(keys)
    {
      pk := idgen.AddBalanced();
      if pk.Some? {
        Remember(keys + [pk.value]);
      }
    }

    /** Replaces the memory, which is no part of the wrapped generator. */
    method Remember(ks: seq<PrivKey>)
      requires Valid()
      modifies this
      ensures Valid() && keys == ks && idgen.State() == old(idgen.State())
    {
      keys := ks;
    }

    method Remove(privKey: PrivKey) returns (ok: bool)
      requires Valid()
      modifies this, idgen, idgen.xorTrie.Repr
      ensures Valid() && fresh(idgen.xorTrie.Repr - old(idgen.xorTrie.Repr))
      ensures (idgen.State(), ok) == RemoveKey(idgen.src, old(idgen.State()), privKey)
      ensures keys == if ok then Without(old(keys), privKey) else old(keys)
    {
      ok := idgen.Remove(privKey);
      if ok {
        var kept := Kept(keys, privKey);
        Remember(kept);
      }
    }

    static method Kept(keys: seq<PrivKey>, privKey: PrivKey) returns (kept: seq<PrivKey>)
      ensures kept == Without(keys, privKey)
    {
      kept := [];
      for i := 0 to |keys|
        invariant kept == Without(keys[..i], privKey)
      {
        WithoutAppend(keys[..i], keys[i], privKey);
        assert keys[..i + 1] == keys[..i] + [keys[i]];
        if keys[i] != privKey {
          kept := kept + [keys[i]];
        }
      }
      assert keys[..|keys|] == keys;
    }

    /** Removes every remembered identity, whatever fails, and forgets them all. */
    method Clean() returns (ok: bool)
      requires Valid()
      modifies this, idgen, idgen.xorTrie.Repr
      ensures Valid() && fresh(idgen.xorTrie.Repr - old(idgen.xorTrie.Repr))
      ensures (idgen.State(), ok) == RemoveAll(idgen.src, old(idgen.State()), old(keys))
      ensures keys == []
    {
      ok := true;
      for i := 0 to |keys|
        invariant Valid() && fresh(idgen.xorTrie.Repr - old(idgen.xorTrie.Repr)) && keys == old(keys)
        invariant (idgen.State(), ok) == RemoveAll(idgen.src, old(idgen.State()), keys[..i])
      {
        var removed := idgen.Remove(keys[i]);
        ok := ok && removed;
        assert keys[..i + 1][..i] == keys[..i];
      }
      assert keys[..|keys|] == keys;
      Remember([]);
    }
  }

  // ---- Cleaning leaves no trace ----------------------------------------------

  /** The trie keys of a memory. */
  ghost function KeysOf(src: Source, mem: seq<PrivKey>): set<TrieKey> {
    set pk | pk in mem && ToTrieKey(src, pk).Some? :: ToTrieKey(src, pk).value
  }

  /** The generator holds what it held before plus exactly the remembered keys. */
  ghost predicate Remembers(src: Source, before: set<TrieKey>, g: Gen, mem: seq<PrivKey>) {
    && (forall pk | pk in mem :: ToTrieKey(src, pk).Some?)
    && (forall pk, pk' | pk in mem && pk' in mem && ToTrieKey(src, pk) == ToTrieKey(src, pk') :: pk == pk')
    && KeysOf(src, mem) !! before
    && g.keys == before + KeysOf(src, mem)
  }

  datatype ClientCall = Add | Give(pk: PrivKey)

  /** Every call returns, and identities are given back only while remembered. */
  ghost predicate CanRun(src: Source, g: Gen, mem: seq<PrivKey>, calls: seq<ClientCall>)
    decreases |calls|
  {
    calls != [] ==>
      match calls[0]
      case Add =>
        && Live(src, g.keys)
        && var (g', r) := AddBalanced(src, g);
           CanRun(src, g', if r.Some? then mem + [r.value] else mem, calls[1..])
      case Give(pk) =>
        && pk in mem
        && var (g', ok) := RemoveKey(src, g, pk);
           CanRun(src, g', if ok then Without(mem, pk) else mem, calls[1..])
  }

  ghost function Run(src: Source, g: Gen, mem: seq<PrivKey>, calls: seq<ClientCall>): (Gen, seq<PrivKey>)
    requires CanRun(src, g, mem, calls)
    decreases |calls|
  {
    if calls == [] then (g, mem)
    else
      match calls[0]
      case Add =>
        var (g', r) := AddBalanced(src, g);
        Run(src, g', if r.Some? then mem + [r.value] else mem, calls[1..])
      case Give(pk) =>
        var (g', ok) := RemoveKey(src, g, pk);
        Run(src, g', if ok then Without(mem, pk) else mem, calls[1..])
  }

  lemma AddRemembers(src: Source, before: set<TrieKey>, g: Gen, mem: seq<PrivKey>)
    requires Sane(src) && Consistent(src, g) && Live(src, g.keys) && Remembers(src, before, g, mem)
    ensures var (g', r) := AddBalanced(src, g);
            Remembers(src, before, g', if r.Some? then mem + [r.value] else mem)
  {
    var (g', r) := AddBalanced(src, g);
    assert Grows(g, (g', r), src) by { AddBalancedConsistent(src, g); }
    if r.Some? {
      GrownRemembers(src, before, g, g', mem, r.value);
    }
  }

  lemma GrownRemembers(src: Source, before: set<TrieKey>, g: Gen, g': Gen, mem: seq<PrivKey>, pk: PrivKey)
    requires Remembers(src, before, g, mem) && Grows(g, (g', Some(pk)), src)
    ensures Remembers(src, before, g', mem + [pk])
  {
  }

  lemma GiveRemembers(src: Source, before: set<TrieKey>, g: Gen, mem: seq<PrivKey>, pk: PrivKey)
    requires Remembers(src, before, g, mem) && pk in mem
    ensures RemoveKey(src, g, pk).1 && Remembers(src, before, RemoveKey(src, g, pk).0, Without(mem, pk))
  {
    WithoutMembers(mem, pk);
    assert KeysOf(src, Without(mem, pk)) == KeysOf(src, mem) - {ToTrieKey(src, pk).value};
  }

  /** Removing keys takes exactly their trie keys away, and fails exactly if one of them has none; the others still go. */
  lemma {:induction false} RemoveAllTakes(src: Source, g: Gen, ks: seq<PrivKey>)
    ensures RemoveAll(src, g, ks).1 <==> forall pk | pk in ks :: src.kadID(pk).Some?
    ensures RemoveAll(src, g, ks).0.keys == g.keys - KeysOf(src, ks)
    decreases |ks|
  {
    if ks != [] {
      var rest, last := ks[..|ks| - 1], ks[|ks| - 1];
      assert ks == rest + [last];
      RemoveAllTakes(src, g, rest);
      assert KeysOf(src, ks) == KeysOf(src, rest) + KeysOf(src, [last]);
    }
  }

  lemma {:induction false} RunRemembers(src: Source, before: set<TrieKey>, g: Gen, mem: seq<PrivKey>, calls: seq<ClientCall>)
    requires Sane(src) && Consistent(src, g) && Remembers(src, before, g, mem) && CanRun(src, g, mem, calls)
    ensures var (g', mem') := Run(src, g, mem, calls);
            Remembers(src, before, g', mem')
    decreases |calls|
  {
    if calls != [] {
      match calls[0]
      case Add =>
        var (g', r) := AddBalanced(src, g);
        AddRemembers(src, before, g, mem);
        assert Consistent(src, g') by { AddBalancedConsistent(src, g); }
        RunRemembers(src, before, g', if r.Some? then mem + [r.value] else mem, calls[1..]);
      case Give(pk) =>
        GiveRemembers(src, before, g, mem, pk);
        assert Consistent(src, RemoveKey(src, g, pk).0) by { RemoveConsistent(src, g, pk); }
        RunRemembers(src, before, RemoveKey(src, g, pk).0, Without(mem, pk), calls[1..]);
    }
  }

  /** Whatever a client adds and gives back, cleaning restores the generator's keys, and so its trie. */
  lemma CleanLeavesNoTrace(src: Source, g: Gen, calls: seq<ClientCall>)
    requires Sane(src) && Consistent(src, g) && CanRun(src, g, [], calls)
    ensures var (g', mem) := Run(src, g, [], calls);
            var (g'', ok) := RemoveAll(src, g', mem);
            ok && g''.keys == g.keys
  {
    RunRemembers(src, g.keys, g, [], calls);
    var (g', mem) := Run(src, g, [], calls);
    RemoveAllTakes(src, g', mem);
  }
}
