/**
 Runs in which no message is lost and no call abandoned: there a client's memory is
 exact. Whatever it remembers is on the server, but for identities whose removal is
 just under way.
 */
module Lossless {
  import opened Wrappers
  import opened TrieKeys
  import opened GeneratorSpec
  import Cleaning
  import opened Ownership

  /** A removal of the identity by the client has been served and its reply is on the way. */
  predicate RemovalServed(s: State, c: nat, pk: PrivKey) {
    exists id | id in s.calls ::
      s.calls[id].client == c && s.calls[id].phase.Acked? && (s.calls[id].op == Remove(pk) || s.calls[id].op == CleanRemove(pk))
  }

  /** The client's clean has already dealt with the identity. */
  predicate Swept(cl: ClientState, pk: PrivKey) {
    cl.sweep.Some? && exists j | 0 <= j < |cl.mem| && j < cl.sweep.value.next :: cl.mem[j] == pk
  }

  predicate Present(s: State, on: set<PrivKey>, c: nat, pk: PrivKey)
    requires c < |s.clients|
  {
    pk in on || RemovalServed(s, c, pk) || Swept(s.clients[c], pk)
  }

  predicate MemoryHeld(s: State, on: set<PrivKey>) {
    s.lossless ==> forall c, pk | 0 <= c < |s.clients| && pk in s.clients[c].mem :: Present(s, on, c, pk)
  }

  lemma ServedStays(s: State, s': State, c: nat, pk: PrivKey)
    requires RemovalServed(s, c, pk)
    requires forall id | id in s.calls && s.calls[id].phase.Acked? && s.calls[id].client == c ::
               id in s'.calls && s'.calls[id] == s.calls[id]
    ensures RemovalServed(s', c, pk)
  {
  }

  // ---- Steps that do not reach the server ------------------------------------

  lemma AskKeepsHeld(s: State, on: set<PrivKey>, step: Step, c: nat, pk: PrivKey)
    requires !AtServer(step) && EnabledLocally(s, step) && !step.Deliver? && !step.Lose? && !step.Abandon?
    requires c < |s.clients| && Present(s, on, c, pk) && pk in ApplyLocally(s, step).clients[c].mem
    ensures Present(ApplyLocally(s, step), on, c, pk)
  {
    if RemovalServed(s, c, pk) {
      ServedStays(s, ApplyLocally(s, step), c, pk);
    }
  }

  /** A delivered reply: a new identity is on the server, a removed one is forgotten or dealt with. */
  lemma DeliveryKeepsHeld(s: State, on: set<PrivKey>, id: nat, c: nat, pk: PrivKey)
    requires Ledger(s, on) && EnabledLocally(s, Deliver(id)) && MemoryHeld(s, on) && s.lossless
    requires c < |s.clients| && pk in ApplyLocally(s, Deliver(id)).clients[c].mem
    ensures Present(ApplyLocally(s, Deliver(id)), on, c, pk)
  {
    var r, s' := s.calls[id], ApplyLocally(s, Deliver(id));
    assert RpcSane(s, on, r);
    if r.op.Remove? {
      Cleaning.WithoutMembers(s.clients[r.client].mem, r.op.pk);
    }
    if pk !in s.clients[c].mem {
      assert r.phase == Key(pk);
    } else if RemovalServed(s, c, pk) {
      var i :| i in s.calls && s.calls[i].client == c && s.calls[i].phase.Acked?
               && (s.calls[i].op == Remove(pk) || s.calls[i].op == CleanRemove(pk));
      if i != id {
        assert s'.calls[i] == s.calls[i];
      } else {
        assert r.op.CleanRemove? && Swept(s'.clients[c], pk);
      }
    } else {
      assert Present(s, on, c, pk);
      assert Swept(s.clients[c], pk) ==> Swept(s'.clients[c], pk);
    }
  }

  lemma LocalKeepsMemoryHeld(s: State, on: set<PrivKey>, step: Step)
    requires Ledger(s, on) && !AtServer(step) && EnabledLocally(s, step) && MemoryHeld(s, on)
    ensures MemoryHeld(ApplyLocally(s, step), on)
  {
    var s' := ApplyLocally(s, step);
    if s'.lossless {
      forall c, pk | 0 <= c < |s'.clients| && pk in s'.clients[c].mem
        ensures Present(s', on, c, pk)
      {
        if step.Deliver? {
          DeliveryKeepsHeld(s, on, step.id, c, pk);
        } else {
          AskKeepsHeld(s, on, step, c, pk);
        }
      }
    }
  }

  // ---- Steps at the server ---------------------------------------------------

  /** An identity remembered by a client leaves the server only by a removal of that client's. */
  predicate OnlyServed(s: State, s': State, on: set<PrivKey>, on': set<PrivKey>) {
    && s'.clients == s.clients && s'.lossless == s.lossless
    && (forall id | id in s.calls && s.calls[id].phase.Acked? :: id in s'.calls && s'.calls[id] == s.calls[id])
    && (forall c, pk | 0 <= c < |s.clients| && pk in s.clients[c].mem && pk in on :: pk in on' || RemovalServed(s', c, pk))
  }

  lemma ServerKeepsMemoryHeld(s: State, s': State, on: set<PrivKey>, on': set<PrivKey>)
    requires MemoryHeld(s, on) && OnlyServed(s, s', on, on')
    ensures MemoryHeld(s', on')
  {
    if s.lossless {
      forall c, pk | 0 <= c < |s'.clients| && pk in s'.clients[c].mem
        ensures Present(s', on', c, pk)
      {
        assert Present(s, on, c, pk);
        if RemovalServed(s, c, pk) {
          ServedStays(s, s', c, pk);
        }
      }
    }
  }

  lemma AckOnlyServed(s: State, s': State, on: set<PrivKey>, id: nat, pk: PrivKey)
    requires MemoryOwned(s) && id in s.calls && s.calls[id].phase.Asked? && RpcSane(s, on, s.calls[id])
    requires s.calls[id].op == Remove(pk) || s.calls[id].op == CleanRemove(pk)
    requires s' == s.(server := s'.server, calls := s.calls[id := s.calls[id].(phase := Acked)])
    ensures OnlyServed(s, s', on, on - {pk})
  {
    assert id in s'.calls && s'.calls[id].phase.Acked?;
    assert RemovalServed(s', s.calls[id].client, pk);
  }

  lemma RemovalOnlyServed(e: Env, s: State, id: nat, pk: PrivKey)
    requires Fit(e) && ServerSane(e, s) && MemoryOwned(s)
    requires id in s.calls && s.calls[id].phase.Asked? && RpcSane(s, Stored(e, s), s.calls[id])
    requires s.calls[id].op == Remove(pk) || s.calls[id].op == CleanRemove(pk)
    ensures var (s', phase) := Withdraw(e, s, pk);
            OnlyServed(s, Answered(s', id, phase), Stored(e, s), Stored(e, Answered(s', id, phase)))
  {
    WithdrawUnstores(e, s, pk);
    var (s', phase) := Withdraw(e, s, pk);
    var t := Answered(s', id, phase);
    assert Stored(e, t) == Stored(e, s) - {pk} by { StoredIgnoresCalls(e, s', t); }
    AckOnlyServed(s, t, Stored(e, s), id, pk);
  }

  /** A step that takes no identity off the server. */
  lemma NoneServed(s: State, s': State, on: set<PrivKey>, on': set<PrivKey>)
    requires s'.clients == s.clients && s'.lossless == s.lossless && on <= on'
    requires forall id | id in s.calls && s.calls[id].phase.Acked? :: id in s'.calls && s'.calls[id] == s.calls[id]
    ensures OnlyServed(s, s', on, on')
  {
  }

  /** An add stores what it hands out, and leaves clients and calls alone. */
  lemma IssueAddsOnly(e: Env, s: State, p: Party, t: State)
    requires Fit(e) && Room(e, s) && ServerSane(e, s) && Live(e.src, s.server.keys)
    requires t.server == Issue(e, s, p).0.server && t.owner == Issue(e, s, p).0.owner
    ensures Granted(s, Issue(e, s, p).0, Issue(e, s, p).1, p) && Stored(e, s) <= Stored(e, t)
  {
    IssueStores(e, s, p);
    StoredIgnoresCalls(e, Issue(e, s, p).0, t);
  }

  lemma AddOnlyServed(e: Env, s: State, id: nat)
    requires Fit(e) && ServerSane(e, s) && CanApply(e, s, Serve(id)) && s.calls[id].op.Add?
    ensures OnlyServed(s, Apply(e, s, Serve(id)), Stored(e, s), Stored(e, Apply(e, s, Serve(id))))
  {
    var t := Apply(e, s, Serve(id));
    IssueAddsOnly(e, s, Client(s.calls[id].client), t);
    NoneServed(s, t, Stored(e, s), Stored(e, t));
  }

  lemma OwnAddOnlyServed(e: Env, s: State)
    requires Fit(e) && ServerSane(e, s) && CanApply(e, s, OwnAdd)
    ensures OnlyServed(s, Apply(e, s, OwnAdd), Stored(e, s), Stored(e, Apply(e, s, OwnAdd)))
  {
    var t := Apply(e, s, OwnAdd);
    IssueAddsOnly(e, s, Server, t);
    NoneServed(s, t, Stored(e, s), Stored(e, t));
  }

  lemma OwnRemoveOnlyServed(e: Env, s: State, pk: PrivKey)
    requires Fit(e) && ServerSane(e, s) && MemoryOwned(s) && pk in s.owner && s.owner[pk] == Server
    ensures var s' := Withdraw(e, s, pk).0.(own := s.own - {pk});
            OnlyServed(s, s', Stored(e, s), Stored(e, s'))
  {
    WithdrawUnstores(e, s, pk);
    var s' := Withdraw(e, s, pk).0.(own := s.own - {pk});
    assert Stored(e, s') == Stored(e, s) - {pk} by { StoredIgnoresCalls(e, Withdraw(e, s, pk).0, s'); }
    UnrememberedOnlyServed(s, s', Stored(e, s), pk);
  }

  lemma UnrememberedOnlyServed(s: State, s': State, on: set<PrivKey>, pk: PrivKey)
    requires MemoryOwned(s) && pk in s.owner && s.owner[pk] == Server
    requires s' == s.(server := s'.server, own := s'.own)
    ensures OnlyServed(s, s', on, on - {pk})
  {
  }

  lemma StepOnlyServed(e: Env, s: State, step: Step)
    requires Fit(e) && Inv(e, s) && CanApply(e, s, step) && AtServer(step)
    ensures OnlyServed(s, Apply(e, s, step), Stored(e, s), Stored(e, Apply(e, s, step)))
  {
    match step
    case Serve(id) =>
      assert RpcSane(s, Stored(e, s), s.calls[id]);
      match s.calls[id].op {
        case Add => AddOnlyServed(e, s, id);
        case Remove(pk) => RemovalOnlyServed(e, s, id, pk);
        case CleanRemove(pk) => RemovalOnlyServed(e, s, id, pk);
      }
    case OwnAdd =>
      OwnAddOnlyServed(e, s);
    case OwnRemove(pk) =>
      assert OwnHeld(s, Stored(e, s));
      OwnRemoveOnlyServed(e, s, pk);
  }

  lemma StepKeepsMemoryHeld(e: Env, s: State, step: Step)
    requires Fit(e) && Inv(e, s) && CanApply(e, s, step) && MemoryHeld(s, Stored(e, s))
    ensures MemoryHeld(Apply(e, s, step), Stored(e, Apply(e, s, step)))
  {
    var s' := Apply(e, s, step);
    if AtServer(step) {
      StepOnlyServed(e, s, step);
      ServerKeepsMemoryHeld(s, s', Stored(e, s), Stored(e, s'));
    } else {
      LocalKeepsMemoryHeld(s, Stored(e, s), step);
      StoredIgnoresCalls(e, s, s');
    }
  }

  // ---- What holds of every run -----------------------------------------------

  lemma {:induction false} RunKeepsMemoryHeld(e: Env, s: State, steps: seq<Step>)
    requires Fit(e) && Inv(e, s) && CanRun(e, s, steps) && MemoryHeld(s, Stored(e, s))
    ensures MemoryHeld(Run(e, s, steps), Stored(e, Run(e, s, steps)))
    decreases |steps|
  {
    if steps != [] {
      StepKeepsInv(e, s, steps[0]);
      StepKeepsMemoryHeld(e, s, steps[0]);
      RunKeepsMemoryHeld(e, Apply(e, s, steps[0]), steps[1..]);
    }
  }

  ghost function Remembered(s: State): set<PrivKey> {
    set c, pk | 0 <= c < |s.clients| && pk in s.clients[c].mem :: pk
  }

  /** No call is under way and no clean in progress. */
  predicate Quiet(s: State) {
    s.calls == map[] && forall c | 0 <= c < |s.clients| :: s.clients[c].sweep.None?
  }

  /**
   When nothing was lost and everything has come to rest, the server holds exactly its
   own keys and those its clients remember.
   */
  lemma QuietServer(e: Env, clients: nat, steps: seq<Step>)
    requires Fit(e) && CanRun(e, Initial(clients), steps)
    ensures var s := Run(e, Initial(clients), steps);
            NoLoss(steps) && Quiet(s) ==> s.server.keys == KeysOfSet(e, s.own + Remembered(s))
  {
    InitialInv(e, clients);
    RunKeepsInv(e, Initial(clients), steps);
    RunKeepsMemoryHeld(e, Initial(clients), steps);
    LosslessIsNoLoss(e, Initial(clients), steps);
    var s := Run(e, Initial(clients), steps);
    if s.lossless && Quiet(s) {
      QuietKeys(e, s);
    }
  }

  lemma QuietKeys(e: Env, s: State)
    requires KeysOwned(e, s) && MemoryOwned(s) && OwnHeld(s, Stored(e, s)) && AllHeld(s, Stored(e, s))
    requires MemoryHeld(s, Stored(e, s)) && s.lossless && s.lost == {} && Quiet(s)
    ensures s.server.keys == KeysOfSet(e, s.own + Remembered(s))
  {
    var on := Stored(e, s);
    assert forall pk | pk in s.own + Remembered(s) :: pk in on;
    forall k | k in s.server.keys
      ensures k in KeysOfSet(e, s.own + Remembered(s))
    {
      var pk :| pk in on && ToTrieKey(e.src, pk) == Some(k);
      assert Held(s, pk) && !InReply(s, pk);
    }
  }
}
