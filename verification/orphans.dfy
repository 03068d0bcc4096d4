/**
 Orphaned identities: once an identity is lost it stays lost, no client remembers it or
 can still receive it, and so each key on the server is in exactly one place.
 */
module Orphans {
  import opened Wrappers
  import opened TrieKeys
  import opened GeneratorSpec
  import Cleaning
  import opened Ownership

  /** The keys whose removal failed in the running clean are still remembered. */
  predicate FailedRemembered(cl: ClientState) {
    cl.sweep.Some? ==> forall pk | pk in cl.sweep.value.failed :: pk in cl.mem
  }

  /** Orphans were generated for clients, and no client remembers one or waits for one. */
  predicate LostApart(s: State) {
    && (forall pk | pk in s.lost :: pk in s.owner && s.owner[pk] != Server)
    && (forall c, pk | 0 <= c < |s.clients| && pk in s.clients[c].mem :: pk !in s.lost)
    && (forall id | id in s.calls && s.calls[id].phase.Key? && s.calls[id].waiting :: s.calls[id].phase.pk !in s.lost)
    && (forall c | 0 <= c < |s.clients| :: FailedRemembered(s.clients[c]))
  }

  // ---- Steps that do not reach the server ------------------------------------

  lemma DeliveryKeepsLostApart(s: State, on: set<PrivKey>, id: nat)
    requires Ledger(s, on) && LostApart(s) && EnabledLocally(s, Deliver(id))
    ensures LostApart(ApplyLocally(s, Deliver(id)))
  {
    var r := s.calls[id];
    assert RpcSane(s, on, r);
    if r.op.Remove? {
      Cleaning.WithoutMembers(s.clients[r.client].mem, r.op.pk);
    }
  }

  lemma ErredKeepsMemory(cl: ClientState, r: Rpc)
    ensures Erred(cl, r).mem == cl.mem
    ensures FailedRemembered(cl) ==> FailedRemembered(Erred(cl, r))
  {
  }

  /** An identity in a reply is no client's yet, and in no other reply. */
  lemma ReplyIsNobodys(s: State, on: set<PrivKey>, id: nat)
    requires Ledger(s, on) && id in s.calls && s.calls[id].phase.Key?
    ensures var pk := s.calls[id].phase.pk;
            && pk in s.owner && s.owner[pk] != Server
            && (forall c | 0 <= c < |s.clients| :: pk !in s.clients[c].mem)
            && (forall i | i in s.calls && i != id && s.calls[i].phase.Key? :: s.calls[i].phase.pk != pk)
  {
    assert RpcSane(s, on, s.calls[id]);
  }

  /** An answer that is lost or given up on was for an identity no client has. */
  lemma LossKeepsLostApart(s: State, on: set<PrivKey>, id: nat)
    requires Ledger(s, on) && LostApart(s) && EnabledLocally(s, Lose(id))
    ensures LostApart(ApplyLocally(s, Lose(id)))
  {
    ErredKeepsMemory(s.clients[s.calls[id].client], s.calls[id]);
    if s.calls[id].phase.Key? {
      ReplyIsNobodys(s, on, id);
    }
  }

  lemma AbandonKeepsLostApart(s: State, on: set<PrivKey>, id: nat)
    requires Ledger(s, on) && LostApart(s) && EnabledLocally(s, Abandon(id))
    ensures LostApart(ApplyLocally(s, Abandon(id)))
  {
    ErredKeepsMemory(s.clients[s.calls[id].client], s.calls[id]);
    if s.calls[id].phase.Key? {
      ReplyIsNobodys(s, on, id);
    }
  }

  lemma CleanKeepsLostApart(s: State, on: set<PrivKey>, c: nat)
    requires Ledger(s, on) && LostApart(s) && EnabledLocally(s, FinishClean(c))
    ensures LostApart(ApplyLocally(s, FinishClean(c)))
  {
    var failed := s.clients[c].sweep.value.failed;
    forall pk | pk in failed
      ensures pk in s.given && pk in s.owner && s.owner[pk] == Client(c)
    {
      assert pk in s.clients[c].mem;
    }
    forall id | id in s.calls && s.calls[id].phase.Key?
      ensures s.calls[id].phase.pk !in failed
    {
      assert RpcSane(s, on, s.calls[id]);
    }
  }

  lemma LocalKeepsLostApart(s: State, on: set<PrivKey>, step: Step)
    requires Ledger(s, on) && LostApart(s) && !AtServer(step) && EnabledLocally(s, step)
    ensures LostApart(ApplyLocally(s, step)) && s.lost <= ApplyLocally(s, step).lost
  {
    match step
    case Deliver(id) => DeliveryKeepsLostApart(s, on, id);
    case Lose(id) => LossKeepsLostApart(s, on, id);
    case Abandon(id) => AbandonKeepsLostApart(s, on, id);
    case FinishClean(c) => CleanKeepsLostApart(s, on, c);
    case _ =>
  }

  // ---- Steps at the server ---------------------------------------------------

  /** A new identity, for the server or on its way to a client, is no orphan but for want of a waiting client. */
  lemma GrantKeepsLostApart(s: State, s': State, on: set<PrivKey>, id: nat, pk: PrivKey)
    requires Ledger(s, on) && LostApart(s) && id in s.calls && s.calls[id].phase.Asked? && pk !in s.owner
    requires s' == s.(server := s'.server, owner := s.owner[pk := Client(s.calls[id].client)])
    ensures LostApart(Answered(s', id, Key(pk)))
  {
    forall i | i in s.calls && s.calls[i].phase.Key?
      ensures s.calls[i].phase.pk != pk
    {
      assert RpcSane(s, on, s.calls[i]);
    }
  }

  /** Nothing that concerns orphans changes. */
  predicate SameOrphans(s: State, s': State) {
    && s'.clients == s.clients && s'.lost == s.lost
    && (forall pk | pk in s.owner :: pk in s'.owner && s'.owner[pk] == s.owner[pk])
    && (forall id | id in s'.calls && s'.calls[id].phase.Key? :: id in s.calls && s'.calls[id] == s.calls[id])
  }

  lemma SameKeepsLostApart(s: State, s': State)
    requires LostApart(s) && SameOrphans(s, s')
    ensures LostApart(s')
  {
  }

  lemma AnswerKeepsLostApart(s: State, s': State, on: set<PrivKey>, phase: Phase, id: nat)
    requires Ledger(s, on) && LostApart(s) && id in s.calls && s.calls[id].phase.Asked?
    requires Granted(s, s', phase, Client(s.calls[id].client))
    ensures LostApart(Answered(s', id, phase)) && s.lost <= Answered(s', id, phase).lost
  {
    if phase.Key? {
      GrantKeepsLostApart(s, s', on, id, phase.pk);
    } else {
      SameKeepsLostApart(s, Answered(s', id, phase));
    }
  }

  lemma RemovalKeepsLostApart(e: Env, s: State, id: nat, pk: PrivKey)
    requires LostApart(s) && id in s.calls
    ensures var (s', phase) := Withdraw(e, s, pk);
            LostApart(Answered(s', id, phase)) && Answered(s', id, phase).lost == s.lost
  {
    var (s', phase) := Withdraw(e, s, pk);
    SameKeepsLostApart(s, Answered(s', id, phase));
  }

  lemma ServeKeepsLostApart(e: Env, s: State, id: nat)
    requires Fit(e) && Inv(e, s) && LostApart(s) && CanApply(e, s, Serve(id))
    ensures LostApart(Apply(e, s, Serve(id))) && s.lost <= Apply(e, s, Serve(id)).lost
  {
    match s.calls[id].op
    case Add =>
      var p := Client(s.calls[id].client);
      var (s', phase) := Issue(e, s, p);
      assert Granted(s, s', phase, p) by { IssueStores(e, s, p); }
      AnswerKeepsLostApart(s, s', Stored(e, s), phase, id);
    case Remove(pk) => RemovalKeepsLostApart(e, s, id, pk);
    case CleanRemove(pk) => RemovalKeepsLostApart(e, s, id, pk);
  }

  lemma OwnAddKeepsLostApart(s: State, s': State, phase: Phase)
    requires LostApart(s) && Granted(s, s', phase, Server)
    ensures LostApart(s') && (phase.Key? ==> LostApart(s'.(own := s.own + {phase.pk})))
  {
    SameKeepsLostApart(s, s');
  }

  lemma OwnKeepsLostApart(e: Env, s: State, step: Step)
    requires Fit(e) && ServerSane(e, s) && LostApart(s) && CanApply(e, s, step) && (step.OwnAdd? || step.OwnRemove?)
    ensures LostApart(Apply(e, s, step)) && s.lost <= Apply(e, s, step).lost
  {
    if step.OwnAdd? {
      var (s', phase) := Issue(e, s, Server);
      assert Granted(s, s', phase, Server) by { IssueStores(e, s, Server); }
      OwnAddKeepsLostApart(s, s', phase);
    }
  }

  lemma StepKeepsLostApart(e: Env, s: State, step: Step)
    requires Fit(e) && Inv(e, s) && LostApart(s) && CanApply(e, s, step)
    ensures LostApart(Apply(e, s, step)) && s.lost <= Apply(e, s, step).lost
  {
    if step.Serve? {
      ServeKeepsLostApart(e, s, step.id);
    } else if AtServer(step) {
      OwnKeepsLostApart(e, s, step);
    } else {
      LocalKeepsLostApart(s, Stored(e, s), step);
    }
  }

  // ---- What holds of every run -----------------------------------------------

  /** An orphan is never remembered or received again. */
  lemma {:induction false} LostForGood(e: Env, s: State, steps: seq<Step>)
    requires Fit(e) && Inv(e, s) && LostApart(s) && CanRun(e, s, steps)
    ensures var s' := Run(e, s, steps);
            && LostApart(s') && s.lost <= s'.lost
            && forall pk | pk in s.lost :: !InMemory(s', pk) && !InReply(s', pk)
    decreases |steps|
  {
    if steps != [] {
      StepKeepsInv(e, s, steps[0]);
      StepKeepsLostApart(e, s, steps[0]);
      LostForGood(e, Apply(e, s, steps[0]), steps[1..]);
    }
  }

  /** How many of the places an identity can be in hold it. */
  function Places(s: State, pk: PrivKey): nat {
    (if pk in s.own then 1 else 0) + (if InMemory(s, pk) then 1 else 0)
    + (if InReply(s, pk) then 1 else 0) + (if pk in s.lost then 1 else 0)
  }

  lemma OnePlace(s: State, on: set<PrivKey>, pk: PrivKey)
    requires Ledger(s, on) && LostApart(s) && pk in on
    ensures Places(s, pk) == 1
  {
    assert Held(s, pk);
    if InReply(s, pk) {
      var id :| id in s.calls && s.calls[id].phase == Key(pk) && s.calls[id].waiting;
      assert RpcSane(s, on, s.calls[id]);
    }
  }

  /** A reply with the identity can be delivered, at once or when the client's running clean is over. */
  ghost predicate Deliverable(s: State, pk: PrivKey) {
    exists id | id in s.calls && s.calls[id].phase == Key(pk) ::
      s.calls[id].client < |s.clients| && (Unlocked(s, s.calls[id].client) ==> EnabledLocally(s, Deliver(id)))
  }

  lemma ReplyDeliverable(s: State, on: set<PrivKey>, pk: PrivKey)
    requires Ledger(s, on) && InReply(s, pk)
    ensures Deliverable(s, pk)
  {
    var id :| id in s.calls && s.calls[id].phase == Key(pk) && s.calls[id].waiting;
    assert RpcSane(s, on, s.calls[id]);
  }

  /**
   In every run each key on the server belongs to one identity, and that identity is in
   exactly one place: the server's own, remembered by a client, in a reply that can
   still be delivered, or orphaned for good.
   */
  lemma EachKeyInOnePlace(e: Env, clients: nat, steps: seq<Step>)
    requires Fit(e) && CanRun(e, Initial(clients), steps)
    ensures var s := Run(e, Initial(clients), steps);
            && (forall k | k in s.server.keys :: exists pk | pk in Stored(e, s) :: ToTrieKey(e.src, pk) == Some(k))
            && (forall pk, pk' | pk in Stored(e, s) && pk' in Stored(e, s) && pk != pk' ::
                  ToTrieKey(e.src, pk) != ToTrieKey(e.src, pk'))
            && (forall pk | pk in Stored(e, s) :: Places(s, pk) == 1)
            && (forall pk | InReply(s, pk) :: Deliverable(s, pk))
            && (forall pk | pk in s.lost :: !InMemory(s, pk) && !InReply(s, pk))
  {
    InitialInv(e, clients);
    RunKeepsInv(e, Initial(clients), steps);
    LostForGood(e, Initial(clients), steps);
    PlacesFollow(e, Run(e, Initial(clients), steps));
  }

  lemma PlacesFollow(e: Env, s: State)
    requires Fit(e) && Inv(e, s) && LostApart(s)
    ensures forall pk, pk' | pk in Stored(e, s) && pk' in Stored(e, s) && pk != pk' ::
              ToTrieKey(e.src, pk) != ToTrieKey(e.src, pk')
    ensures forall pk | pk in Stored(e, s) :: Places(s, pk) == 1
    ensures forall pk | InReply(s, pk) :: Deliverable(s, pk)
    ensures forall pk | pk in s.lost :: !InMemory(s, pk) && !InReply(s, pk)
  {
    var on := Stored(e, s);
    forall pk, pk' | pk in on && pk' in on && pk != pk'
      ensures ToTrieKey(e.src, pk) != ToTrieKey(e.src, pk')
    {
      OwnersInjective(e, s, pk, pk');
    }
    forall pk | pk in on
      ensures Places(s, pk) == 1
    {
      OnePlace(s, on, pk);
    }
    forall pk | InReply(s, pk)
      ensures Deliverable(s, pk)
    {
      ReplyDeliverable(s, on, pk);
    }
  }

  // ---- What orphans an identity ----------------------------------------------

  /**
   The step orphans the identity: a reply with it is lost or given up, the answer to an
   abandoned add, or the removal of it that a clean waits for is lost or given up.
   */
  ghost predicate Orphaning(e: Env, s: State, step: Step, pk: PrivKey)
    requires CanApply(e, s, step)
  {
    match step
    case Lose(id) => Carries(s.calls[id], pk)
    case Abandon(id) => Carries(s.calls[id], pk)
    case Serve(id) => !s.calls[id].waiting && Apply(e, s, step).calls[id].phase == Key(pk)
    case _ => false
  }

  /** The call carries the identity to a client, or is a clean's removal of it that is waited for. */
  predicate Carries(r: Rpc, pk: PrivKey) {
    r.phase == Key(pk) || (r.op == CleanRemove(pk) && r.waiting)
  }

  /** One of these steps orphans the identity. */
  ghost predicate Orphaned(e: Env, s: State, steps: seq<Step>, pk: PrivKey)
    requires CanRun(e, s, steps)
    decreases |steps|
  {
    steps != [] && (Orphaning(e, s, steps[0], pk) || Orphaned(e, Apply(e, s, steps[0]), steps[1..], pk))
  }

  /** A running clean has seen an error for the identity. */
  predicate Failing(s: State, pk: PrivKey) {
    exists c | 0 <= c < |s.clients| :: FailedIn(s.clients[c], pk)
  }

  predicate FailedIn(cl: ClientState, pk: PrivKey) {
    cl.sweep.Some? && pk in cl.sweep.value.failed
  }

  /** Orphaned, or about to be once a running clean is over. */
  predicate Troubled(s: State, pk: PrivKey) {
    pk in s.lost || Failing(s, pk)
  }

  /** Only one client's part of the clients changes. */
  lemma FailingUpdate(s: State, s': State, c: nat, pk: PrivKey)
    requires c < |s.clients| && |s'.clients| == |s.clients| && s'.clients == s.clients[c := s'.clients[c]]
    ensures Failing(s', pk) || FailedIn(s.clients[c], pk) <==> FailedIn(s'.clients[c], pk) || Failing(s, pk)
  {
    if d :| 0 <= d < |s.clients| && FailedIn(s.clients[d], pk) && d != c {
      assert FailedIn(s'.clients[d], pk);
    }
    if d :| 0 <= d < |s'.clients| && FailedIn(s'.clients[d], pk) && d != c {
      assert FailedIn(s.clients[d], pk);
    }
  }

  lemma ErredFails(s: State, on: set<PrivKey>, id: nat, pk: PrivKey)
    requires Ledger(s, on) && id in s.calls
    ensures s.calls[id].client < |s.clients|
    ensures var cl := s.clients[s.calls[id].client];
            FailedIn(Erred(cl, s.calls[id]), pk) <==> FailedIn(cl, pk) || (s.calls[id].op == CleanRemove(pk) && s.calls[id].waiting)
  {
    assert RpcSane(s, on, s.calls[id]);
  }

  lemma ErrorTroubles(s: State, on: set<PrivKey>, step: Step, pk: PrivKey)
    requires Ledger(s, on) && (step.Lose? || step.Abandon?) && EnabledLocally(s, step)
    ensures Troubled(ApplyLocally(s, step), pk) <==> Troubled(s, pk) || Carries(s.calls[step.id], pk)
  {
    ErredFails(s, on, step.id, pk);
    FailingUpdate(s, ApplyLocally(s, step), s.calls[step.id].client, pk);
  }

  lemma DeliveryTroubles(s: State, on: set<PrivKey>, id: nat, pk: PrivKey)
    requires Ledger(s, on) && EnabledLocally(s, Deliver(id))
    ensures Troubled(ApplyLocally(s, Deliver(id)), pk) <==> Troubled(s, pk)
  {
    assert RpcSane(s, on, s.calls[id]);
    FailingUpdate(s, ApplyLocally(s, Deliver(id)), s.calls[id].client, pk);
  }

  lemma CleanTroubles(s: State, step: Step, pk: PrivKey)
    requires (step.StartClean? || step.SendClean? || step.FinishClean?) && EnabledLocally(s, step)
    ensures Troubled(ApplyLocally(s, step), pk) <==> Troubled(s, pk)
  {
    FailingUpdate(s, ApplyLocally(s, step), step.c, pk);
  }

  lemma ServerTroubles(e: Env, s: State, step: Step, pk: PrivKey)
    requires CanApply(e, s, step) && AtServer(step)
    ensures Troubled(Apply(e, s, step), pk) <==> Troubled(s, pk) || Orphaning(e, s, step, pk)
  {
    var s' := Apply(e, s, step);
    assert s'.clients == s.clients;
    assert Failing(s', pk) <==> Failing(s, pk);
  }

  lemma StepTroubles(e: Env, s: State, step: Step, pk: PrivKey)
    requires Inv(e, s) && CanApply(e, s, step)
    ensures Troubled(Apply(e, s, step), pk) <==> Troubled(s, pk) || Orphaning(e, s, step, pk)
  {
    if AtServer(step) {
      ServerTroubles(e, s, step, pk);
    } else if step.Lose? || step.Abandon? {
      ErrorTroubles(s, Stored(e, s), step, pk);
    } else if step.Deliver? {
      DeliveryTroubles(s, Stored(e, s), step.id, pk);
    } else if step.StartClean? || step.SendClean? || step.FinishClean? {
      CleanTroubles(s, step, pk);
    } else {
      assert ApplyLocally(s, step).clients == s.clients;
    }
  }

  lemma {:induction false} RunTroubles(e: Env, s: State, steps: seq<Step>, pk: PrivKey)
    requires Fit(e) && Inv(e, s) && CanRun(e, s, steps)
    ensures Troubled(Run(e, s, steps), pk) <==> Troubled(s, pk) || Orphaned(e, s, steps, pk)
    decreases |steps|
  {
    if steps != [] {
      StepKeepsInv(e, s, steps[0]);
      StepTroubles(e, s, steps[0], pk);
      RunTroubles(e, Apply(e, s, steps[0]), steps[1..], pk);
    }
  }

  predicate NoCleans(s: State) {
    forall c | 0 <= c < |s.clients| :: s.clients[c].sweep.None?
  }

  /** An identity is lost only if a step of the run orphaned it; with no clean running, exactly then. */
  lemma LostExactly(e: Env, clients: nat, steps: seq<Step>, pk: PrivKey)
    requires Fit(e) && CanRun(e, Initial(clients), steps)
    ensures var s := Run(e, Initial(clients), steps);
            && (pk in s.lost ==> Orphaned(e, Initial(clients), steps, pk))
            && (NoCleans(s) && Orphaned(e, Initial(clients), steps, pk) ==> pk in s.lost)
  {
    InitialInv(e, clients);
    RunTroubles(e, Initial(clients), steps, pk);
  }

  /**
   For any run of clients over one server, whatever is lost: no two clients remember
   the same identity, every key on the server is the server's own, remembered by a
   client, on its way to one, or lost, and then a step of the run orphaned it; and no
   client ever takes away a key of the server's own.
   */
  lemma OwnershipAlways(e: Env, clients: nat, steps: seq<Step>)
    requires Fit(e) && CanRun(e, Initial(clients), steps)
    ensures var s := Run(e, Initial(clients), steps);
            && MemoriesDisjoint(s)
            && (forall k | k in s.server.keys :: Accounted(e, s, k))
            && (forall pk | pk in s.lost :: Orphaned(e, Initial(clients), steps, pk))
            && KeysOfSet(e, s.own) <= s.server.keys
            && (forall pk | pk in s.own :: ToTrieKey(e.src, pk).Some?)
  {
    InitialInv(e, clients);
    RunKeepsInv(e, Initial(clients), steps);
    var s := Run(e, Initial(clients), steps);
    KeysAccounted(e, s);
    MemoriesAreDisjoint(s);
    forall pk | pk in s.lost
      ensures Orphaned(e, Initial(clients), steps, pk)
    {
      LostExactly(e, clients, steps, pk);
    }
  }

  // ---- What a clean asks for -------------------------------------------------

  /** The removals that client c has asked for, in order, since its last clean began. */
  ghost function AskedSince(e: Env, s: State, step: Step, c: nat, asked: seq<PrivKey>): seq<PrivKey>
    requires CanApply(e, s, step)
  {
    match step
    case StartClean(d) => if d == c then [] else asked
    case SendClean(d, id) =>
      if d == c then asked + [Apply(e, s, step).calls[id].op.pk] else asked
    case _ => asked
  }

  ghost function Asked(e: Env, s: State, steps: seq<Step>, c: nat, asked: seq<PrivKey>): seq<PrivKey>
    requires CanRun(e, s, steps)
    decreases |steps|
  {
    if steps == [] then asked
    else Asked(e, Apply(e, s, steps[0]), steps[1..], c, AskedSince(e, s, steps[0], c, asked))
  }

  /** A running clean has asked for the keys it has passed, and the one it waits for. */
  predicate AskedSoFar(s: State, c: nat, asked: seq<PrivKey>) {
    c < |s.clients| && s.clients[c].sweep.Some? ==>
      var w := s.clients[c].sweep.value;
      var n := if w.waiting then w.next + 1 else w.next;
      n <= |s.clients[c].mem| && asked == s.clients[c].mem[..n]
  }

  lemma LocalKeepsAsked(s: State, on: set<PrivKey>, step: Step, c: nat, asked: seq<PrivKey>)
    requires Ledger(s, on) && AskedSoFar(s, c, asked) && !AtServer(step) && EnabledLocally(s, step)
    requires !step.StartClean? && !step.SendClean?
    ensures AskedSoFar(ApplyLocally(s, step), c, asked)
  {
    if step.Deliver? || step.Lose? || step.Abandon? {
      assert RpcSane(s, on, s.calls[step.id]);
    }
  }

  lemma ServerKeepsAsked(e: Env, s: State, step: Step, c: nat, asked: seq<PrivKey>)
    requires AskedSoFar(s, c, asked) && CanApply(e, s, step) && AtServer(step)
    ensures AskedSoFar(Apply(e, s, step), c, AskedSince(e, s, step, c, asked))
  {
    assert Apply(e, s, step).clients == s.clients;
  }

  lemma CleanKeepsAsked(e: Env, s: State, step: Step, c: nat, asked: seq<PrivKey>)
    requires AskedSoFar(s, c, asked) && CanApply(e, s, step) && (step.StartClean? || step.SendClean?)
    ensures AskedSoFar(Apply(e, s, step), c, AskedSince(e, s, step, c, asked))
  {
  }

  lemma {:induction false} RunKeepsAsked(e: Env, s: State, steps: seq<Step>, c: nat, asked: seq<PrivKey>)
    requires Fit(e) && Inv(e, s) && CanRun(e, s, steps) && AskedSoFar(s, c, asked)
    ensures AskedSoFar(Run(e, s, steps), c, Asked(e, s, steps, c, asked))
    decreases |steps|
  {
    if steps != [] {
      StepKeepsInv(e, s, steps[0]);
      StepKeepsAsked(e, s, steps[0], c, asked);
      RunKeepsAsked(e, Apply(e, s, steps[0]), steps[1..], c, AskedSince(e, s, steps[0], c, asked));
    }
  }

  lemma StepKeepsAsked(e: Env, s: State, step: Step, c: nat, asked: seq<PrivKey>)
    requires Inv(e, s) && CanApply(e, s, step) && AskedSoFar(s, c, asked)
    ensures AskedSoFar(Apply(e, s, step), c, AskedSince(e, s, step, c, asked))
  {
    if AtServer(step) {
      ServerKeepsAsked(e, s, step, c, asked);
    } else if step.StartClean? || step.SendClean? {
      CleanKeepsAsked(e, s, step, c, asked);
    } else {
      LocalKeepsAsked(s, Stored(e, s), step, c, asked);
    }
  }

  /** A clean forgets its keys only once it has asked for the removal of each of them, in order, whatever went wrong. */
  lemma CleanAsksForAll(e: Env, clients: nat, steps: seq<Step>, c: nat)
    requires Fit(e) && CanRun(e, Initial(clients), steps)
    requires Enabled(e, Run(e, Initial(clients), steps), FinishClean(c))
    ensures Asked(e, Initial(clients), steps, c, []) == Run(e, Initial(clients), steps).clients[c].mem
  {
    InitialInv(e, clients);
    RunKeepsAsked(e, Initial(clients), steps, c, []);
  }

  // ---- Whose requests are answered -------------------------------------------

  /** These steps have client c ask for an identity and deliver an answer to that request. */
  predicate AskedAndDelivered(past: seq<Step>, c: nat, id: nat) {
    AskAdd(c, id) in past && Deliver(id) in past
  }

  /** Every add under way was asked for by its client, and every identity remembered was delivered on such a request. */
  ghost predicate FromRequests(s: State, past: seq<Step>) {
    && (forall id | id in s.calls && s.calls[id].op.Add? :: AskAdd(s.calls[id].client, id) in past)
    && (forall c, pk | 0 <= c < |s.clients| && pk in s.clients[c].mem :: exists id: nat :: AskedAndDelivered(past, c, id))
  }

  lemma DeliveryFromRequests(s: State, on: set<PrivKey>, past: seq<Step>, id: nat, c: nat, pk: PrivKey)
    requires FromRequests(s, past) && EnabledLocally(s, Deliver(id)) && RpcSane(s, on, s.calls[id])
    requires c < |s.clients| && pk in ApplyLocally(s, Deliver(id)).clients[c].mem
    ensures exists i: nat :: AskedAndDelivered(past + [Deliver(id)], c, i)
  {
    var r := s.calls[id];
    if pk in s.clients[c].mem {
      var i: nat :| AskedAndDelivered(past, c, i);
      assert AskedAndDelivered(past + [Deliver(id)], c, i);
    } else {
      ReceivedMembers(s.clients[c], r, pk);
      assert AskedAndDelivered(past + [Deliver(id)], c, id);
    }
  }

  /** Later steps, and calls that no step has added, change nothing. */
  lemma FromRequestsLater(s: State, s': State, past: seq<Step>, step: Step)
    requires FromRequests(s, past) && s'.clients == s.clients
    requires forall id | id in s'.calls :: id in s.calls && s'.calls[id].client == s.calls[id].client && s'.calls[id].op == s.calls[id].op
    ensures FromRequests(s', past + [step])
  {
    forall c, pk | 0 <= c < |s.clients| && pk in s.clients[c].mem
      ensures exists i: nat :: AskedAndDelivered(past + [step], c, i)
    {
      var i: nat :| AskedAndDelivered(past, c, i);
      assert AskedAndDelivered(past + [step], c, i);
    }
  }

  lemma ServerFromRequests(e: Env, s: State, past: seq<Step>, step: Step)
    requires CanApply(e, s, step) && FromRequests(s, past) && AtServer(step)
    ensures FromRequests(Apply(e, s, step), past + [step])
  {
    FromRequestsLater(s, Apply(e, s, step), past, step);
  }

  lemma LocalFromRequests(s: State, on: set<PrivKey>, past: seq<Step>, step: Step)
    requires Ledger(s, on) && !AtServer(step) && EnabledLocally(s, step) && FromRequests(s, past)
    ensures FromRequests(ApplyLocally(s, step), past + [step])
  {
    var s' := ApplyLocally(s, step);
    forall c, pk | 0 <= c < |s'.clients| && pk in s'.clients[c].mem
      ensures exists i: nat :: AskedAndDelivered(past + [step], c, i)
    {
      if step.Deliver? {
        assert RpcSane(s, on, s.calls[step.id]);
        DeliveryFromRequests(s, on, past, step.id, c, pk);
      } else {
        assert pk in s.clients[c].mem;
        var i: nat :| AskedAndDelivered(past, c, i);
        assert AskedAndDelivered(past + [step], c, i);
      }
    }
  }

  lemma StepFromRequests(e: Env, s: State, past: seq<Step>, step: Step)
    requires Inv(e, s) && CanApply(e, s, step) && FromRequests(s, past)
    ensures FromRequests(Apply(e, s, step), past + [step])
  {
    if AtServer(step) {
      ServerFromRequests(e, s, past, step);
    } else {
      LocalFromRequests(s, Stored(e, s), past, step);
    }
  }

  lemma {:induction false} RunFromRequests(e: Env, s: State, past: seq<Step>, steps: seq<Step>)
    requires Fit(e) && Inv(e, s) && CanRun(e, s, steps) && FromRequests(s, past)
    ensures FromRequests(Run(e, s, steps), past + steps)
    decreases |steps|
  {
    if steps == [] {
      assert past + steps == past;
    } else {
      StepKeepsInv(e, s, steps[0]);
      StepFromRequests(e, s, past, steps[0]);
      RunFromRequests(e, Apply(e, s, steps[0]), past + [steps[0]], steps[1..]);
      assert past + [steps[0]] + steps[1..] == past + steps;
    }
  }

  /** A client remembers an identity only if it asked for one and an answer to that request was delivered. */
  lemma RememberedWasAsked(e: Env, clients: nat, steps: seq<Step>, c: nat, pk: PrivKey)
    requires Fit(e) && CanRun(e, Initial(clients), steps)
    requires c < |Run(e, Initial(clients), steps).clients| && pk in Run(e, Initial(clients), steps).clients[c].mem
    ensures exists id: nat :: AskedAndDelivered(steps, c, id)
  {
    InitialInv(e, clients);
    RunFromRequests(e, Initial(clients), [], steps);
    assert [] + steps == steps;
  }
}
