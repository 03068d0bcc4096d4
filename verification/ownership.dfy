/**
 Many cleaning clients over one generator served by HTTP. A call is a request and a
 reply; either can be lost, and a client can give up waiting while its call goes on.
 The server handles a request in one step, under its mutex; each client's mutex is
 held for the whole of a clean.
 */
module Ownership {
  import opened Wrappers
  import opened TrieKeys
  import opened GeneratorSpec
  import opened GeneratorRuns
  import opened Cleaning

  datatype Party = Server | Client(c: nat)

  /** CleanRemove is the removal the client's running clean is waiting for. */
  datatype Op = Add | Remove(pk: PrivKey) | CleanRemove(pk: PrivKey)

  datatype Phase = Asked | Key(pk: PrivKey) | Acked | Refused

  datatype Rpc = Rpc(client: nat, op: Op, phase: Phase, waiting: bool)

  /** A clean in progress: keys before `next` are dealt with, and those in `failed` got an error. */
  datatype Sweep = Sweep(next: nat, waiting: bool, failed: set<PrivKey>)

  datatype ClientState = ClientState(mem: seq<PrivKey>, sweep: Option<Sweep>)

  /**
   `owner` records for whom every identity was generated and `given` those that reached
   their client; `own` are the server's own; `lost` are the orphans: those whose reply
   was lost or found nobody waiting, or whose removal failed during a clean.
   */
  datatype State = State(
    server: Gen,
    clients: seq<ClientState>,
    calls: map<nat, Rpc>,
    owner: map<PrivKey, Party>,
    given: set<PrivKey>,
    own: set<PrivKey>,
    lost: set<PrivKey>,
    lossless: bool)

  datatype Env = Env(src: Source, top: Salt)

  datatype Step =
    | AskAdd(c: nat, id: nat)
    | AskRemove(c: nat, id: nat, pk: PrivKey)
    | Serve(id: nat)
    | Deliver(id: nat)
    | Lose(id: nat)
    | Abandon(id: nat)
    | StartClean(c: nat)
    | SendClean(c: nat, id: nat)
    | FinishClean(c: nat)
    | OwnAdd
    | OwnRemove(pk: PrivKey)

  ghost function Initial(clients: nat): State {
    State(START, seq(clients, _ => ClientState([], None)), map[], map[], {}, {}, {}, true)
  }

  // ---- Steps -----------------------------------------------------------------

  /** The counter has room for two more draws. */
  predicate Room(e: Env, s: State) {
    s.server.salt + 2 <= e.top
  }

  predicate Unlocked(s: State, c: nat) {
    c < |s.clients| && s.clients[c].sweep.None?
  }

  predicate SweepIs(s: State, c: nat, waiting: bool) {
    c < |s.clients| && s.clients[c].sweep.Some? && s.clients[c].sweep.value.waiting == waiting
  }

  /** The server takes part: it handles a request or acts for itself. */
  predicate AtServer(step: Step) {
    step.Serve? || step.OwnAdd? || step.OwnRemove?
  }

  predicate Enabled(e: Env, s: State, step: Step) {
    match step
    case Serve(id) => id in s.calls && s.calls[id].phase.Asked? && (s.calls[id].op.Add? ==> Room(e, s))
    case OwnAdd => Room(e, s)
    case OwnRemove(pk) => pk in s.own
    case _ => EnabledLocally(s, step)
  }

  predicate EnabledLocally(s: State, step: Step)
    requires !AtServer(step)
  {
    match step
    case AskAdd(c, id) => c < |s.clients| && id !in s.calls
    case AskRemove(c, id, pk) =>
      c < |s.clients| && id !in s.calls && pk in s.given && pk in s.owner && s.owner[pk] == Client(c)
    case Deliver(id) =>
      && id in s.calls && !s.calls[id].phase.Asked? && s.calls[id].waiting
      && s.calls[id].client < |s.clients|
      && (s.calls[id].op.CleanRemove? ==> SweepIs(s, s.calls[id].client, true))
      // remembering or forgetting an identity takes the client's mutex
      && (s.calls[id].op.Add? && s.calls[id].phase.Key? ==> Unlocked(s, s.calls[id].client))
      && (s.calls[id].op.Remove? && s.calls[id].phase.Acked? ==> Unlocked(s, s.calls[id].client))
    case Lose(id) => id in s.calls && s.calls[id].client < |s.clients|
    case Abandon(id) => id in s.calls && s.calls[id].client < |s.clients| && s.calls[id].waiting
    case StartClean(c) => Unlocked(s, c)
    case SendClean(c, id) =>
      SweepIs(s, c, false) && s.clients[c].sweep.value.next < |s.clients[c].mem| && id !in s.calls
    case FinishClean(c) => SweepIs(s, c, false) && s.clients[c].sweep.value.next >= |s.clients[c].mem|
  }

  /** The server adds an identity for a party; the reply is the second half. */
  ghost function Issue(e: Env, s: State, p: Party): (State, Phase)
    requires Live(e.src, s.server.keys)
  {
    match AddBalanced(e.src, s.server)
    case (g, None) => (s.(server := g), Refused)
    case (g, Some(pk)) => (s.(server := g, owner := s.owner[pk := p]), Key(pk))
  }

  ghost function Withdraw(e: Env, s: State, pk: PrivKey): (State, Phase) {
    var (g, ok) := RemoveKey(e.src, s.server, pk);
    (s.(server := g), if ok then Acked else Refused)
  }

  ghost function Handle(e: Env, s: State, r: Rpc): (State, Phase)
    requires r.op.Add? ==> Live(e.src, s.server.keys)
  {
    match r.op
    case Add => Issue(e, s, Client(r.client))
    case Remove(pk) => Withdraw(e, s, pk)
    case CleanRemove(pk) => Withdraw(e, s, pk)
  }

  /** The reply is on its way; a new identity for which nobody waits is orphaned. */
  function Answered(s: State, id: nat, phase: Phase): State
    requires id in s.calls
  {
    var orphaned := if phase.Key? && !s.calls[id].waiting then {phase.pk} else {};
    s.(calls := s.calls[id := s.calls[id].(phase := phase)], lost := s.lost + orphaned)
  }

  /** The clean moves on to the next key, noting an error. */
  function Advance(cl: ClientState, ok: bool): ClientState
    requires cl.sweep.Some?
  {
    var w := cl.sweep.value;
    var failed := if ok || w.next >= |cl.mem| then w.failed else w.failed + {cl.mem[w.next]};
    cl.(sweep := Some(Sweep(w.next + 1, false, failed)))
  }

  function Received(cl: ClientState, r: Rpc): ClientState
    requires r.op.CleanRemove? ==> cl.sweep.Some?
  {
    match (r.op, r.phase)
    case (Add, Key(pk)) => cl.(mem := cl.mem + [pk])
    case (Remove(pk), Acked) => cl.(mem := Without(cl.mem, pk))
    case (CleanRemove(_), phase) => Advance(cl, phase.Acked?)
    case _ => cl
  }

  /** The client sees an error instead of a reply. */
  function Erred(cl: ClientState, r: Rpc): ClientState {
    if r.op.CleanRemove? && r.waiting && cl.sweep.Some? then Advance(cl, false) else cl
  }

  ghost predicate CanApply(e: Env, s: State, step: Step) {
    && Enabled(e, s, step)
    && (step.OwnAdd? || (step.Serve? && s.calls[step.id].op.Add?) ==> Live(e.src, s.server.keys))
  }

  ghost function Apply(e: Env, s: State, step: Step): State
    requires CanApply(e, s, step)
  {
    match step
    case Serve(id) =>
      var (s', phase) := Handle(e, s, s.calls[id]);
      Answered(s', id, phase)
    case OwnAdd =>
      var (s', phase) := Issue(e, s, Server);
      if phase.Key? then s'.(own := s.own + {phase.pk}) else s'
    case OwnRemove(pk) =>
      Withdraw(e, s, pk).0.(own := s.own - {pk})
    case _ =>
      ApplyLocally(s, step)
  }

  function ApplyLocally(s: State, step: Step): State
    requires !AtServer(step) && EnabledLocally(s, step)
  {
    match step
    case AskAdd(c, id) =>
      s.(calls := s.calls[id := Rpc(c, Op.Add, Asked, true)])
    case AskRemove(c, id, pk) =>
      s.(calls := s.calls[id := Rpc(c, Remove(pk), Asked, true)])
    case Deliver(id) =>
      var r := s.calls[id];
      s.(calls := s.calls - {id},
         clients := s.clients[r.client := Received(s.clients[r.client], r)],
         given := if r.phase.Key? then s.given + {r.phase.pk} else s.given)
    case Lose(id) =>
      var r := s.calls[id];
      s.(calls := s.calls - {id},
         clients := s.clients[r.client := Erred(s.clients[r.client], r)],
         lost := if r.phase.Key? then s.lost + {r.phase.pk} else s.lost,
         lossless := false)
    case Abandon(id) =>
      var r := s.calls[id];
      s.(calls := s.calls[id := r.(waiting := false)],
         clients := s.clients[r.client := Erred(s.clients[r.client], r)],
         lost := if r.phase.Key? then s.lost + {r.phase.pk} else s.lost,
         lossless := false)
    case StartClean(c) =>
      s.(clients := s.clients[c := s.clients[c].(sweep := Some(Sweep(0, false, {})))])
    case SendClean(c, id) =>
      var cl := s.clients[c];
      var w := cl.sweep.value;
      s.(calls := s.calls[id := Rpc(c, CleanRemove(cl.mem[w.next]), Asked, true)],
         clients := s.clients[c := cl.(sweep := Some(w.(waiting := true)))])
    case FinishClean(c) =>
      s.(clients := s.clients[c := ClientState([], None)], lost := s.lost + s.clients[c].sweep.value.failed)
  }

  // ---- The invariant ---------------------------------------------------------

  /** Every identity ever generated comes from a salt already used. */
  ghost predicate OwnersIssued(e: Env, s: State) {
    forall pk | pk in s.owner :: Between(e.src, 0, s.server.salt, pk)
  }

  /** The identities whose trie keys the server holds. */
  ghost function Stored(e: Env, s: State): set<PrivKey> {
    set pk | pk in s.owner && ToTrieKey(e.src, pk).Some? && ToTrieKey(e.src, pk).value in s.server.keys
  }

  ghost predicate KeysOwned(e: Env, s: State) {
    forall k | k in s.server.keys :: exists pk | pk in Stored(e, s) :: ToTrieKey(e.src, pk) == Some(k)
  }

  ghost predicate ServerSane(e: Env, s: State) {
    && Consistent(e.src, s.server)
    && Behind(e.src, s.server)
    && s.server.salt <= e.top
    && OwnersIssued(e, s)
    && KeysOwned(e, s)
  }

  /** A client remembers only identities that were generated for it and reached it. */
  predicate MemoryOwned(s: State) {
    && (forall pk | pk in s.given :: pk in s.owner)
    && (forall c, pk | 0 <= c < |s.clients| && pk in s.clients[c].mem ::
          pk in s.given && pk in s.owner && s.owner[pk] == Client(c))
  }

  predicate RpcSane(s: State, on: set<PrivKey>, r: Rpc) {
    && r.client < |s.clients|
    && (match r.op
        case Add =>
          !r.phase.Acked? &&
          (r.phase.Key? ==>
             && r.phase.pk in s.owner && s.owner[r.phase.pk] == Client(r.client)
             && r.phase.pk !in s.given && r.phase.pk in on)
        case Remove(pk) => RemovalSane(s, on, r, pk)
        case CleanRemove(pk) => RemovalSane(s, on, r, pk) && (r.waiting ==> Awaited(s, r.client, pk)))
  }

  predicate RemovalSane(s: State, on: set<PrivKey>, r: Rpc, pk: PrivKey) {
    && pk in s.given && pk in s.owner && s.owner[pk] == Client(r.client)
    && !r.phase.Key? && !r.phase.Refused?
    && (r.phase.Acked? ==> pk !in on)
  }

  /** The client's clean is waiting for the removal of this key. */
  predicate Awaited(s: State, c: nat, pk: PrivKey) {
    SweepIs(s, c, true) && s.clients[c].sweep.value.next < |s.clients[c].mem|
    && s.clients[c].mem[s.clients[c].sweep.value.next] == pk
  }

  /** No two calls carry the same new identity, and a clean waits for one call at a time. */
  predicate CallsDistinct(s: State) {
    && (forall i, j | i in s.calls && j in s.calls && i != j && s.calls[i].phase.Key? && s.calls[j].phase.Key? ::
          s.calls[i].phase.pk != s.calls[j].phase.pk)
    && (forall i, j | i in s.calls && j in s.calls && i != j && s.calls[i].client == s.calls[j].client
                      && s.calls[i].op.CleanRemove? && s.calls[j].op.CleanRemove? ::
          !(s.calls[i].waiting && s.calls[j].waiting))
  }

  predicate OwnHeld(s: State, on: set<PrivKey>) {
    forall pk | pk in s.own :: pk in s.owner && s.owner[pk] == Server && pk in on
  }

  /** A reply with the identity is on its way to a client that waits for it. */
  predicate InReply(s: State, pk: PrivKey) {
    exists id | id in s.calls :: s.calls[id].phase == Key(pk) && s.calls[id].waiting
  }

  predicate InMemory(s: State, pk: PrivKey) {
    exists c | 0 <= c < |s.clients| :: pk in s.clients[c].mem
  }

  /** The server's own, a client's, on its way to one, or lost. */
  predicate Held(s: State, pk: PrivKey) {
    pk in s.own || InMemory(s, pk) || InReply(s, pk) || pk in s.lost
  }

  predicate AllHeld(s: State, on: set<PrivKey>) {
    && (forall pk | pk in on :: pk in s.owner)
    && (forall pk | pk in on :: Held(s, pk))
  }

  /** A clean has dealt with the keys before `next`: each is off the server or its removal failed. */
  predicate SweepSane(on: set<PrivKey>, cl: ClientState) {
    cl.sweep.Some? ==>
      && cl.sweep.value.next <= |cl.mem|
      && forall j | 0 <= j < cl.sweep.value.next :: cl.mem[j] in cl.sweep.value.failed || cl.mem[j] !in on
  }

  predicate SweepsSane(s: State, on: set<PrivKey>) {
    forall c | 0 <= c < |s.clients| :: SweepSane(on, s.clients[c])
  }

  predicate LosslessSane(s: State) {
    s.lossless ==>
      && s.lost == {}
      && (forall id | id in s.calls :: s.calls[id].waiting)
      && (forall c | 0 <= c < |s.clients| && s.clients[c].sweep.Some? :: s.clients[c].sweep.value.failed == {})
  }

  /** Who holds what, given the identities that are on the server. */
  predicate Ledger(s: State, on: set<PrivKey>) {
    && MemoryOwned(s)
    && (forall id | id in s.calls :: RpcSane(s, on, s.calls[id]))
    && CallsDistinct(s)
    && OwnHeld(s, on)
    && AllHeld(s, on)
    && SweepsSane(s, on)
    && LosslessSane(s)
  }

  ghost predicate Inv(e: Env, s: State) {
    ServerSane(e, s) && Ledger(s, Stored(e, s))
  }

  // ---- Every step keeps it ---------------------------------------------------

  ghost predicate Fit(e: Env) {
    Sane(e.src) && Distinct(e.src, e.top)
  }

  /** Identities from different salts have different trie keys. */
  lemma OwnersInjective(e: Env, s: State, pk: PrivKey, pk': PrivKey)
    requires Fit(e) && s.server.salt <= e.top
    requires Between(e.src, 0, s.server.salt, pk) && Between(e.src, 0, s.server.salt, pk') && pk != pk'
    ensures ToTrieKey(e.src, pk) != ToTrieKey(e.src, pk') && ToTrieKey(e.src, pk).Some?
  {
  }

  /** An identity from a salt not used before is new, and so is its trie key. */
  lemma LaterIsNew(e: Env, s: State, high: Salt, pk: PrivKey)
    requires Fit(e) && OwnersIssued(e, s) && s.server.salt <= high <= e.top
    requires Between(e.src, s.server.salt, high, pk)
    ensures pk !in s.owner && ToTrieKey(e.src, pk).Some? && Between(e.src, 0, high, pk)
    ensures forall x | x in s.owner :: ToTrieKey(e.src, x) != ToTrieKey(e.src, pk)
  {
  }

  /** What an add leaves of the server, and what it says about the identity handed out. */
  ghost predicate Issued(e: Env, s: State, g: Gen, r: Option<PrivKey>) {
    && Consistent(e.src, g) && Behind(e.src, g) && s.server.salt <= g.salt <= e.top
    && (match r
        case None => g.keys == s.server.keys
        case Some(pk) =>
          && pk !in s.owner && Between(e.src, 0, g.salt, pk) && ToTrieKey(e.src, pk).Some?
          && g.keys == s.server.keys + {ToTrieKey(e.src, pk).value}
          && forall x | x in s.owner :: ToTrieKey(e.src, x) != ToTrieKey(e.src, pk))
  }

  lemma IssueIsNew(e: Env, s: State)
    requires Fit(e) && Room(e, s) && Consistent(e.src, s.server) && Behind(e.src, s.server) && OwnersIssued(e, s)
    ensures Live(e.src, s.server.keys)
    ensures Issued(e, s, AddBalanced(e.src, s.server).0, AddBalanced(e.src, s.server).1)
  {
    BalancedUses(e.src, s.server, e.top);
    var (g, r) := AddBalanced(e.src, s.server);
    assert Consistent(e.src, g) && Grows(s.server, (g, r), e.src) by { AddBalancedConsistent(e.src, s.server); }
    if r.Some? {
      LaterIsNew(e, s, g.salt, r.value);
    }
  }

  // Steps that do not reach the server leave what is stored alone.

  /** What a delivered reply leaves in memory was there before, or is the identity it carries. */
  lemma ReceivedMembers(cl: ClientState, r: Rpc, pk: PrivKey)
    requires (r.op.CleanRemove? ==> cl.sweep.Some?) && pk in Received(cl, r).mem
    ensures pk in cl.mem || (r.op.Add? && r.phase == Key(pk))
  {
    if r.op.Remove? {
      WithoutMembers(cl.mem, r.op.pk);
    }
  }

  lemma DeliveryKeepsMemory(s: State, on: set<PrivKey>, id: nat)
    requires MemoryOwned(s) && EnabledLocally(s, Deliver(id)) && RpcSane(s, on, s.calls[id])
    ensures MemoryOwned(ApplyLocally(s, Deliver(id)))
  {
    var r := s.calls[id];
    forall pk | pk in Received(s.clients[r.client], r).mem
      ensures pk in s.clients[r.client].mem || r.phase == Key(pk)
    {
      ReceivedMembers(s.clients[r.client], r, pk);
    }
  }

  lemma LocalKeepsMemory(s: State, on: set<PrivKey>, step: Step)
    requires Ledger(s, on) && !AtServer(step) && EnabledLocally(s, step)
    ensures MemoryOwned(ApplyLocally(s, step))
  {
    if step.Deliver? {
      DeliveryKeepsMemory(s, on, step.id);
    }
  }

  lemma LocalKeepsLossless(s: State, on: set<PrivKey>, step: Step)
    requires Ledger(s, on) && !AtServer(step) && EnabledLocally(s, step)
    ensures OwnHeld(ApplyLocally(s, step), on) && LosslessSane(ApplyLocally(s, step))
  {
  }

  lemma LocalKeepsSweeps(s: State, on: set<PrivKey>, step: Step)
    requires Ledger(s, on) && !AtServer(step) && EnabledLocally(s, step)
    ensures SweepsSane(ApplyLocally(s, step), on)
  {
  }

  lemma LocalKeepsDistinct(s: State, on: set<PrivKey>, step: Step)
    requires Ledger(s, on) && !AtServer(step) && EnabledLocally(s, step)
    ensures CallsDistinct(ApplyLocally(s, step))
  {
  }

  lemma AskKeepsRpcs(s: State, on: set<PrivKey>, step: Step)
    requires Ledger(s, on) && !AtServer(step) && EnabledLocally(s, step) && (step.AskAdd? || step.AskRemove?)
    ensures var s' := ApplyLocally(s, step); forall id | id in s'.calls :: RpcSane(s', on, s'.calls[id])
  {
  }

  lemma CleanKeepsRpcs(s: State, on: set<PrivKey>, step: Step)
    requires Ledger(s, on) && !AtServer(step) && EnabledLocally(s, step)
    requires step.StartClean? || step.SendClean? || step.FinishClean?
    ensures var s' := ApplyLocally(s, step); forall id | id in s'.calls :: RpcSane(s', on, s'.calls[id])
  {
  }

  lemma DeliveryKeepsRpcs(s: State, on: set<PrivKey>, id: nat)
    requires Ledger(s, on) && EnabledLocally(s, Deliver(id))
    ensures var s' := ApplyLocally(s, Deliver(id)); forall i | i in s'.calls :: RpcSane(s', on, s'.calls[i])
  {
  }

  lemma ErrorKeepsRpcs(s: State, on: set<PrivKey>, step: Step)
    requires Ledger(s, on) && !AtServer(step) && EnabledLocally(s, step) && (step.Lose? || step.Abandon?)
    ensures var s' := ApplyLocally(s, step); forall id | id in s'.calls :: RpcSane(s', on, s'.calls[id])
  {
  }

  lemma MemoryStays(s: State, on: set<PrivKey>, step: Step, pk: PrivKey, c: nat)
    requires Ledger(s, on) && !AtServer(step) && EnabledLocally(s, step)
    requires pk in on && c < |s.clients| && pk in s.clients[c].mem
    ensures Held(ApplyLocally(s, step), pk)
  {
    var s' := ApplyLocally(s, step);
    if step.Deliver? && s.calls[step.id].op.Remove? {
      WithoutMembers(s.clients[s.calls[step.id].client].mem, s.calls[step.id].op.pk);
    }
    assert pk in s'.clients[c].mem || pk in s'.lost;
  }

  lemma ReplyStays(s: State, on: set<PrivKey>, step: Step, pk: PrivKey, id: nat)
    requires Ledger(s, on) && !AtServer(step) && EnabledLocally(s, step)
    requires id in s.calls && s.calls[id].phase == Key(pk) && s.calls[id].waiting
    ensures Held(ApplyLocally(s, step), pk)
  {
    var s' := ApplyLocally(s, step);
    var c := s.calls[id].client;
    assert RpcSane(s, on, s.calls[id]);
    if step == Deliver(id) {
      assert pk in s'.clients[c].mem;
    } else if step != Lose(id) && step != Abandon(id) {
      assert id in s'.calls && s'.calls[id] == s.calls[id];
    }
  }

  lemma LocalKeepsHeld(s: State, on: set<PrivKey>, step: Step)
    requires Ledger(s, on) && !AtServer(step) && EnabledLocally(s, step)
    ensures AllHeld(ApplyLocally(s, step), on)
  {
    forall pk | pk in on
      ensures Held(ApplyLocally(s, step), pk)
    {
      if InMemory(s, pk) {
        var c :| 0 <= c < |s.clients| && pk in s.clients[c].mem;
        MemoryStays(s, on, step, pk, c);
      } else if InReply(s, pk) {
        var id :| id in s.calls && s.calls[id].phase == Key(pk) && s.calls[id].waiting;
        ReplyStays(s, on, step, pk, id);
      }
    }
  }

  lemma LocalKeepsLedger(s: State, on: set<PrivKey>, step: Step)
    requires Ledger(s, on) && !AtServer(step) && EnabledLocally(s, step)
    ensures Ledger(ApplyLocally(s, step), on)
  {
    LocalKeepsMemory(s, on, step);
    LocalKeepsLossless(s, on, step);
    LocalKeepsSweeps(s, on, step);
    LocalKeepsDistinct(s, on, step);
    if step.Deliver? {
      DeliveryKeepsRpcs(s, on, step.id);
    } else if step.Lose? || step.Abandon? {
      ErrorKeepsRpcs(s, on, step);
    } else if step.AskAdd? || step.AskRemove? {
      AskKeepsRpcs(s, on, step);
    } else {
      CleanKeepsRpcs(s, on, step);
    }
    LocalKeepsHeld(s, on, step);
  }

  // Steps at the server: an identity is granted to a party, or withdrawn, or nothing happens.

  lemma HeldMono(s: State, s': State, pk: PrivKey)
    requires Held(s, pk)
    requires s.clients == s'.clients && s.lost <= s'.lost && (pk in s.own ==> pk in s'.own)
    requires forall id | id in s.calls && s.calls[id].phase.Key? :: id in s'.calls && s'.calls[id] == s.calls[id]
    ensures Held(s', pk)
  {
  }

  lemma NewOwnerKeepsRpcs(s: State, on: set<PrivKey>, pk: PrivKey, p: Party)
    requires Ledger(s, on) && pk !in s.owner
    ensures var s' := s.(owner := s.owner[pk := p]);
            && MemoryOwned(s') && forall i | i in s'.calls :: RpcSane(s', on, s'.calls[i])
  {
  }

  lemma NewOwnerKeepsLedger(s: State, on: set<PrivKey>, pk: PrivKey, p: Party)
    requires Ledger(s, on) && pk !in s.owner
    ensures Ledger(s.(owner := s.owner[pk := p]), on)
  {
    var s' := s.(owner := s.owner[pk := p]);
    NewOwnerKeepsRpcs(s, on, pk, p);
    forall x | x in on
      ensures Held(s', x)
    {
      HeldMono(s, s', x);
    }
  }

  lemma GrantKeepsRpcs(s: State, on: set<PrivKey>, id: nat, pk: PrivKey)
    requires Ledger(s, on) && id in s.calls && s.calls[id].phase.Asked? && s.calls[id].op.Add?
    requires pk in s.owner && s.owner[pk] == Client(s.calls[id].client) && pk !in s.given && pk !in on
    ensures var s' := Answered(s, id, Key(pk));
            && (forall i | i in s'.calls :: RpcSane(s', on + {pk}, s'.calls[i]))
            && CallsDistinct(s')
  {
    forall i | i in s.calls && s.calls[i].phase.Key?
      ensures s.calls[i].phase.pk != pk
    {
      assert RpcSane(s, on, s.calls[i]);
    }
  }

  lemma GrantKeepsHeld(s: State, on: set<PrivKey>, id: nat, pk: PrivKey)
    requires AllHeld(s, on) && id in s.calls && s.calls[id].phase.Asked? && pk in s.owner
    ensures AllHeld(Answered(s, id, Key(pk)), on + {pk})
  {
    var s' := Answered(s, id, Key(pk));
    assert Held(s', pk) by {
      assert id in s'.calls && s'.calls[id].phase == Key(pk);
    }
    forall x | x in on
      ensures Held(s', x)
    {
      HeldMono(s, s', x);
    }
  }

  lemma GrantKeepsLedger(s: State, on: set<PrivKey>, id: nat, pk: PrivKey)
    requires Ledger(s, on) && id in s.calls && s.calls[id].phase.Asked? && s.calls[id].op.Add?
    requires pk in s.owner && s.owner[pk] == Client(s.calls[id].client) && pk !in s.given && pk !in on
    ensures Ledger(Answered(s, id, Key(pk)), on + {pk})
  {
    GrantKeepsRpcs(s, on, id, pk);
    GrantKeepsHeld(s, on, id, pk);
  }

  lemma DenyKeepsLedger(s: State, on: set<PrivKey>, id: nat)
    requires Ledger(s, on) && id in s.calls && s.calls[id].phase.Asked? && s.calls[id].op.Add?
    ensures Ledger(Answered(s, id, Refused), on)
  {
    forall x | x in on
      ensures Held(Answered(s, id, Refused), x)
    {
      HeldMono(s, Answered(s, id, Refused), x);
    }
  }

  lemma GoneKeepsLedger(s: State, on: set<PrivKey>, pk: PrivKey)
    requires Ledger(s, on) && pk in s.given && pk !in s.own
    ensures Ledger(s, on - {pk})
  {
  }

  lemma AckKeepsRpcs(s: State, on: set<PrivKey>, id: nat, pk: PrivKey)
    requires Ledger(s, on) && id in s.calls && s.calls[id].phase.Asked? && pk !in on
    requires s.calls[id].op == Remove(pk) || s.calls[id].op == CleanRemove(pk)
    ensures var s' := Answered(s, id, Acked);
            && (forall i | i in s'.calls :: RpcSane(s', on, s'.calls[i]))
            && CallsDistinct(s')
  {
    assert RpcSane(s, on, s.calls[id]);
  }

  lemma AckKeepsLedger(s: State, on: set<PrivKey>, id: nat, pk: PrivKey)
    requires Ledger(s, on) && id in s.calls && s.calls[id].phase.Asked? && pk !in on
    requires s.calls[id].op == Remove(pk) || s.calls[id].op == CleanRemove(pk)
    ensures Ledger(Answered(s, id, Acked), on)
  {
    var s' := Answered(s, id, Acked);
    AckKeepsRpcs(s, on, id, pk);
    forall x | x in on
      ensures Held(s', x)
    {
      HeldMono(s, s', x);
    }
  }

  lemma OwnGrantKeepsLedger(s: State, on: set<PrivKey>, pk: PrivKey)
    requires Ledger(s, on) && pk in s.owner && s.owner[pk] == Server && pk !in on && pk !in s.given
    ensures Ledger(s.(own := s.own + {pk}), on + {pk})
  {
    var s' := s.(own := s.own + {pk});
    forall x | x in on
      ensures Held(s', x)
    {
      HeldMono(s, s', x);
    }
  }

  lemma OwnWithdrawKeepsLedger(s: State, on: set<PrivKey>, pk: PrivKey)
    requires Ledger(s, on) && pk in s.own
    ensures Ledger(s.(own := s.own - {pk}), on - {pk})
  {
    var s' := s.(own := s.own - {pk});
    forall x | x in on && x != pk
      ensures Held(s', x)
    {
      HeldMono(s, s', x);
    }
  }

  lemma LedgerIgnoresServer(s: State, on: set<PrivKey>, g: Gen)
    requires Ledger(s, on)
    ensures Ledger(s.(server := g), on)
  {
    var s' := s.(server := g);
    forall x | x in on
      ensures Held(s', x)
    {
      HeldMono(s, s', x);
    }
  }

  // ---- The server and the ledger together ------------------------------------

  /** What an add does to the ledger: nothing, or a new identity gets an owner. */
  predicate Granted(s: State, s': State, phase: Phase, p: Party) {
    || (phase == Refused && s' == s.(server := s'.server))
    || (phase.Key? && phase.pk !in s.owner && s' == s.(server := s'.server, owner := s.owner[phase.pk := p]))
  }

  /** An identity handed out is stored, and nothing else changes there. */
  lemma IssueStores(e: Env, s: State, p: Party)
    requires Fit(e) && Room(e, s) && ServerSane(e, s)
    ensures Live(e.src, s.server.keys)
    ensures var (s', phase) := Issue(e, s, p);
            && ServerSane(e, s')
            && Granted(s, s', phase, p)
            && Stored(e, s') == if phase.Key? then Stored(e, s) + {phase.pk} else Stored(e, s)
  {
    IssueIsNew(e, s);
    var (g, r) := AddBalanced(e.src, s.server);
    IssuedStores(e, s, g, r, p);
  }

  lemma IssuedStores(e: Env, s: State, g: Gen, r: Option<PrivKey>, p: Party)
    requires ServerSane(e, s) && Issued(e, s, g, r)
    ensures r.None? ==> ServerSane(e, s.(server := g)) && Stored(e, s.(server := g)) == Stored(e, s)
    ensures r.Some? ==>
              var s' := s.(server := g, owner := s.owner[r.value := p]);
              ServerSane(e, s') && Stored(e, s') == Stored(e, s) + {r.value}
  {
    OwnersStayIssued(e, s, g.salt);
    if r.None? {
      SameKeysStored(e, s, s.(server := g));
    } else {
      NewKeyStored(e, s, g, r.value, p);
    }
  }

  lemma OwnersStayIssued(e: Env, s: State, high: Salt)
    requires OwnersIssued(e, s) && s.server.salt <= high
    ensures forall pk | pk in s.owner :: Between(e.src, 0, high, pk)
  {
  }

  lemma SameKeysStored(e: Env, s: State, s': State)
    requires KeysOwned(e, s) && s'.owner == s.owner && s'.server.keys == s.server.keys
    ensures Stored(e, s') == Stored(e, s) && KeysOwned(e, s')
  {
  }

  lemma NewKeyStored(e: Env, s: State, g: Gen, pk: PrivKey, p: Party)
    requires KeysOwned(e, s) && ToTrieKey(e.src, pk).Some? && pk !in s.owner
    requires g.keys == s.server.keys + {ToTrieKey(e.src, pk).value}
    requires forall x | x in s.owner :: ToTrieKey(e.src, x) != ToTrieKey(e.src, pk)
    ensures var s' := s.(server := g, owner := s.owner[pk := p]);
            Stored(e, s') == Stored(e, s) + {pk} && KeysOwned(e, s')
  {
  }

  lemma OldKeyUnstored(e: Env, s: State, s': State, pk: PrivKey)
    requires KeysOwned(e, s) && ToTrieKey(e.src, pk).Some? && s'.owner == s.owner
    requires s'.server.keys == s.server.keys - {ToTrieKey(e.src, pk).value}
    requires forall x | x in s.owner && x != pk :: ToTrieKey(e.src, x) != ToTrieKey(e.src, pk)
    ensures Stored(e, s') == Stored(e, s) - {pk} && KeysOwned(e, s')
  {
  }

  lemma OthersKeysDiffer(e: Env, s: State, pk: PrivKey)
    requires Fit(e) && OwnersIssued(e, s) && s.server.salt <= e.top && pk in s.owner
    ensures ToTrieKey(e.src, pk).Some?
    ensures forall x | x in s.owner && x != pk :: ToTrieKey(e.src, x) != ToTrieKey(e.src, pk)
  {
    forall x | x in s.owner && x != pk
      ensures ToTrieKey(e.src, x) != ToTrieKey(e.src, pk)
    {
      OwnersInjective(e, s, x, pk);
    }
  }

  lemma WithdrawUnstores(e: Env, s: State, pk: PrivKey)
    requires Fit(e) && ServerSane(e, s) && pk in s.owner
    ensures var (s', phase) := Withdraw(e, s, pk);
            && ServerSane(e, s') && phase == Acked
            && s' == s.(server := s'.server) && Stored(e, s') == Stored(e, s) - {pk}
  {
    OthersKeysDiffer(e, s, pk);
    var s' := Withdraw(e, s, pk).0;
    assert Consistent(e.src, s'.server) by { RemoveConsistent(e.src, s.server, pk); }
    OldKeyUnstored(e, s, s', pk);
  }

  lemma ServeKeepsInv(e: Env, s: State, id: nat)
    requires Fit(e) && Inv(e, s) && Enabled(e, s, Serve(id))
    ensures CanApply(e, s, Serve(id)) && Inv(e, Apply(e, s, Serve(id)))
  {
    var r := s.calls[id];
    var on := Stored(e, s);
    assert RpcSane(s, on, r);
    match r.op
    case Add =>
      IssueStores(e, s, Client(r.client));
      var (s', phase) := Issue(e, s, Client(r.client));
      IssueKeepsLedger(s, on, s', phase, id);
      StoredIgnoresCalls(e, s', Answered(s', id, phase));
    case Remove(pk) =>
      RemovalKeepsInv(e, s, id, pk);
    case CleanRemove(pk) =>
      RemovalKeepsInv(e, s, id, pk);
  }

  lemma StoredIgnoresCalls(e: Env, s: State, s': State)
    requires ServerSane(e, s) && s'.server == s.server && s'.owner == s.owner
    ensures ServerSane(e, s') && Stored(e, s') == Stored(e, s)
  {
  }

  lemma IssueKeepsLedger(s: State, on: set<PrivKey>, s': State, phase: Phase, id: nat)
    requires Ledger(s, on) && id in s.calls && s.calls[id].phase.Asked? && s.calls[id].op.Add?
    requires Granted(s, s', phase, Client(s.calls[id].client))
    ensures Ledger(Answered(s', id, phase), if phase.Key? then on + {phase.pk} else on)
  {
    LedgerIgnoresServer(s, on, s'.server);
    var t := s.(server := s'.server);
    if phase.Key? {
      NewOwnerKeepsLedger(t, on, phase.pk, Client(s.calls[id].client));
      GrantKeepsLedger(s', on, id, phase.pk);
    } else {
      DenyKeepsLedger(t, on, id);
    }
  }

  lemma RemovalKeepsInv(e: Env, s: State, id: nat, pk: PrivKey)
    requires Fit(e) && Inv(e, s) && id in s.calls && s.calls[id].phase.Asked?
    requires s.calls[id].op == Remove(pk) || s.calls[id].op == CleanRemove(pk)
    ensures var (s', phase) := Withdraw(e, s, pk); Inv(e, Answered(s', id, phase))
  {
    var on := Stored(e, s);
    assert RpcSane(s, on, s.calls[id]);
    WithdrawUnstores(e, s, pk);
    var (s', phase) := Withdraw(e, s, pk);
    GoneKeepsLedger(s, on, pk);
    LedgerIgnoresServer(s, on - {pk}, s'.server);
    AckKeepsLedger(s', on - {pk}, id, pk);
    StoredIgnoresCalls(e, s', Answered(s', id, phase));
  }

  lemma OwnKeepsInv(e: Env, s: State, step: Step)
    requires Fit(e) && Inv(e, s) && Enabled(e, s, step) && (step.OwnAdd? || step.OwnRemove?)
    ensures CanApply(e, s, step) && Inv(e, Apply(e, s, step))
  {
    var on := Stored(e, s);
    if step.OwnAdd? {
      IssueStores(e, s, Server);
      var (s', phase) := Issue(e, s, Server);
      LedgerIgnoresServer(s, on, s'.server);
      if phase.Key? {
        NewOwnerKeepsLedger(s.(server := s'.server), on, phase.pk, Server);
        OwnGrantKeepsLedger(s', on, phase.pk);
        StoredIgnoresCalls(e, s', s'.(own := s.own + {phase.pk}));
      }
    } else {
      WithdrawUnstores(e, s, step.pk);
      var s' := Withdraw(e, s, step.pk).0;
      LedgerIgnoresServer(s, on, s'.server);
      OwnWithdrawKeepsLedger(s', on, step.pk);
      StoredIgnoresCalls(e, s', s'.(own := s.own - {step.pk}));
    }
  }

  lemma LocalKeepsInv(e: Env, s: State, step: Step)
    requires Inv(e, s) && !AtServer(step) && EnabledLocally(s, step)
    ensures Inv(e, ApplyLocally(s, step))
  {
    LocalKeepsLedger(s, Stored(e, s), step);
    StoredIgnoresCalls(e, s, ApplyLocally(s, step));
  }

  lemma StepKeepsInv(e: Env, s: State, step: Step)
    requires Fit(e) && Inv(e, s) && Enabled(e, s, step)
    ensures CanApply(e, s, step) && Inv(e, Apply(e, s, step))
  {
    if step.Serve? {
      ServeKeepsInv(e, s, step.id);
    } else if AtServer(step) {
      OwnKeepsInv(e, s, step);
    } else {
      LocalKeepsInv(e, s, step);
    }
  }

  // ---- What holds of every run -----------------------------------------------

  ghost predicate CanRun(e: Env, s: State, steps: seq<Step>)
    decreases |steps|
  {
    steps != [] ==> CanApply(e, s, steps[0]) && CanRun(e, Apply(e, s, steps[0]), steps[1..])
  }

  ghost function Run(e: Env, s: State, steps: seq<Step>): State
    requires CanRun(e, s, steps)
    decreases |steps|
  {
    if steps == [] then s else Run(e, Apply(e, s, steps[0]), steps[1..])
  }

  lemma InitialInv(e: Env, clients: nat)
    ensures Inv(e, Initial(clients))
  {
    StartConsistent(e.src);
    assert Stored(e, Initial(clients)) == {};
  }

  lemma {:induction false} RunKeepsInv(e: Env, s: State, steps: seq<Step>)
    requires Fit(e) && Inv(e, s) && CanRun(e, s, steps)
    ensures Inv(e, Run(e, s, steps))
    decreases |steps|
  {
    if steps != [] {
      StepKeepsInv(e, s, steps[0]);
      RunKeepsInv(e, Apply(e, s, steps[0]), steps[1..]);
    }
  }

  /** The identity whose trie key is k is accounted for. */
  ghost predicate Accounted(e: Env, s: State, k: TrieKey) {
    exists pk :: ToTrieKey(e.src, pk) == Some(k) && Held(s, pk)
  }

  /** No two clients remember the same identity. */
  predicate MemoriesDisjoint(s: State) {
    forall c, d, pk | 0 <= c < d < |s.clients| && pk in s.clients[c].mem :: pk !in s.clients[d].mem
  }

  ghost function KeysOfSet(e: Env, pks: set<PrivKey>): set<TrieKey> {
    set pk | pk in pks && ToTrieKey(e.src, pk).Some? :: ToTrieKey(e.src, pk).value
  }

  lemma MemoriesAreDisjoint(s: State)
    requires MemoryOwned(s)
    ensures MemoriesDisjoint(s)
  {
    forall c, d, pk | 0 <= c < d < |s.clients| && pk in s.clients[c].mem
      ensures pk !in s.clients[d].mem
    {
      assert s.owner[pk] == Client(c) && Client(c) != Client(d);
    }
  }

  lemma KeysAccounted(e: Env, s: State)
    requires KeysOwned(e, s) && AllHeld(s, Stored(e, s)) && OwnHeld(s, Stored(e, s))
    ensures forall k | k in s.server.keys :: Accounted(e, s, k)
    ensures KeysOfSet(e, s.own) <= s.server.keys
    ensures forall pk | pk in s.own :: ToTrieKey(e.src, pk).Some?
  {
  }

  /** No message is lost in these steps, and no call is given up. */
  predicate NoLoss(steps: seq<Step>) {
    forall x | x in steps :: !x.Lose? && !x.Abandon?
  }

  lemma {:induction false} LosslessIsNoLoss(e: Env, s: State, steps: seq<Step>)
    requires CanRun(e, s, steps)
    ensures Run(e, s, steps).lossless <==> s.lossless && NoLoss(steps)
    decreases |steps|
  {
    if steps != [] {
      LosslessStep(e, s, steps[0]);
      LosslessIsNoLoss(e, Apply(e, s, steps[0]), steps[1..]);
      assert steps[0] in steps && forall x | x in steps :: x == steps[0] || x in steps[1..];
    }
  }

  lemma LosslessStep(e: Env, s: State, step: Step)
    requires CanApply(e, s, step)
    ensures Apply(e, s, step).lossless <==> s.lossless && !step.Lose? && !step.Abandon?
  {
  }

  predicate AllCleaned(s: State) {
    s.calls == map[] && forall c | 0 <= c < |s.clients| :: s.clients[c].mem == []
  }

  lemma CleanedKeys(e: Env, s: State)
    requires AllCleaned(s) && forall k | k in s.server.keys :: Accounted(e, s, k)
    ensures s.server.keys <= KeysOfSet(e, s.own + s.lost)
  {
  }

  /**
   Once every client is clean and no call is under way, the server holds at most its
   own keys and the lost ones; when nothing was lost it holds exactly its own.
   */
  lemma CleanedServer(e: Env, clients: nat, steps: seq<Step>)
    requires Fit(e) && CanRun(e, Initial(clients), steps) && AllCleaned(Run(e, Initial(clients), steps))
    ensures var s := Run(e, Initial(clients), steps);
            && KeysOfSet(e, s.own) <= s.server.keys <= KeysOfSet(e, s.own + s.lost)
            && (NoLoss(steps) ==> s.server.keys == KeysOfSet(e, s.own))
  {
    InitialInv(e, clients);
    RunKeepsInv(e, Initial(clients), steps);
    LosslessIsNoLoss(e, Initial(clients), steps);
    var s := Run(e, Initial(clients), steps);
    KeysAccounted(e, s);
    assert s.lossless ==> s.lost == {};
    CleanedKeys(e, s);
    NothingLost(e, s);
  }

  lemma NothingLost(e: Env, s: State)
    ensures s.lost == {} ==> KeysOfSet(e, s.own + s.lost) == KeysOfSet(e, s.own)
  {
  }
}
