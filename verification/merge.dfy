/** Merging what several provider stores answer, in whatever order the answers arrive. */
module Merge {
  import opened Wrappers
  import opened Peers

  ghost function Texts(addrs: seq<Multiaddr>): set<string> {
    set a | a in addrs :: a.text
  }

  /** Each address text once. */
  ghost predicate TextsOnce(addrs: seq<Multiaddr>) {
    forall i, j | 0 <= i < j < |addrs| :: addrs[i].text != addrs[j].text
  }

  /** All address texts reported for an ID. */
  ghost function Reported(infos: seq<AddrInfo>, id: PeerID): set<string> {
    set i, a | 0 <= i < |infos| && infos[i].id == id && a in infos[i].addrs :: a.text
  }

  ghost predicate Mentioned(infos: seq<AddrInfo>, id: PeerID) {
    exists i | 0 <= i < |infos| :: infos[i].id == id
  }

  /** Each valid ID once, with each address text reported for it once, and no other. */
  ghost predicate Merged(r: seq<AddrInfo>, infos: seq<AddrInfo>, valid: PeerID -> bool) {
    && (forall i, j | 0 <= i < j < |r| :: r[i].id != r[j].id)
    && (forall id :: Mentioned(r, id) <==> Mentioned(infos, id) && valid(id))
    && (forall i | 0 <= i < |r| :: TextsOnce(r[i].addrs) && Texts(r[i].addrs) == Reported(infos, r[i].id))
  }

  method MergeMultiaddrs(addrs: seq<Multiaddr>) returns (r: seq<Multiaddr>)
    ensures TextsOnce(r) && Texts(r) == Texts(addrs)
    ensures forall a | a in r :: a in addrs
  {
    var m: map<string, Multiaddr> := map[];
    for i := 0 to |addrs|
      invariant forall t :: t in m <==> exists j | 0 <= j < i :: addrs[j].text == t
      invariant forall t | t in m :: m[t].text == t && m[t] in addrs
    {
      m := m[addrs[i].text := addrs[i]];
    }
    r := [];
    var left := m.Keys;
    while left != {}
      invariant left <= m.Keys
      invariant forall a | a in r :: a.text in m && a == m[a.text] && a.text !in left
      invariant forall t | t in m && t !in left :: m[t] in r
      invariant TextsOnce(r)
      decreases left
    {
      var t :| t in left;
      r := r + [m[t]];
      left := left - {t};
    }
    forall t
      ensures t in Texts(r) <==> t in Texts(addrs)
    {
      if t in m {
        assert m[t] in r && m[t].text == t;
      }
    }
  }

  /** One entry for each ID mentioned, holding the texts reported for it once each. */
  ghost predicate Grouped(m: map<PeerID, seq<Multiaddr>>, infos: seq<AddrInfo>) {
    && (forall id :: id in m <==> Mentioned(infos, id))
    && (forall id | id in m :: TextsOnce(m[id]) && Texts(m[id]) == Reported(infos, id))
  }

  method MergeAddrInfos(infos: seq<AddrInfo>, valid: PeerID -> bool) returns (r: seq<AddrInfo>)
    ensures Merged(r, infos, valid)
  {
    var m := Group(infos);
    r := ListValid(m, infos, valid);
  }

  /** The first loop of the merge. */
  method Group(infos: seq<AddrInfo>) returns (m: map<PeerID, seq<Multiaddr>>)
    ensures Grouped(m, infos)
  {
    m := map[];
    for i := 0 to |infos|
      invariant Grouped(m, infos[..i])
    {
      var id := infos[i].id;
      var known := if id in m then m[id] else [];
      var merged := MergeMultiaddrs(known + infos[i].addrs);
      assert infos[..i + 1] == infos[..i] + [infos[i]];
      GroupedAppend(m, infos[..i], infos[i], known, merged);
      m := m[id := merged];
    }
    assert infos[..|infos|] == infos;
  }

  lemma GroupedAppend(m: map<PeerID, seq<Multiaddr>>, infos: seq<AddrInfo>, info: AddrInfo, known: seq<Multiaddr>, merged: seq<Multiaddr>)
    requires Grouped(m, infos) && known == (if info.id in m then m[info.id] else [])
    requires TextsOnce(merged) && Texts(merged) == Texts(known + info.addrs)
    ensures Grouped(m[info.id := merged], infos + [info])
  {
    MentionedAppend(infos, info);
    ReportedAppend(infos, info);
    assert Texts(known + info.addrs) == Texts(known) + Texts(info.addrs);
    if info.id !in m {
      assert Reported(infos, info.id) == {};
    }
  }

  /** The second loop of the merge, over the entries in any order. */
  method ListValid(m: map<PeerID, seq<Multiaddr>>, ghost infos: seq<AddrInfo>, valid: PeerID -> bool) returns (r: seq<AddrInfo>)
    requires Grouped(m, infos)
    ensures Merged(r, infos, valid)
  {
    r := [];
    var left := m.Keys;
    while left != {}
      invariant left <= m.Keys
      invariant forall i | 0 <= i < |r| :: r[i].id in m && valid(r[i].id) && r[i].addrs == m[r[i].id] && r[i].id !in left
      invariant forall id | id in m && id !in left && valid(id) :: Mentioned(r, id)
      invariant forall i, j | 0 <= i < j < |r| :: r[i].id != r[j].id
      decreases left
    {
      var k :| k in left;
      if valid(k) {
        MentionedAppend(r, AddrInfo(k, m[k]));
        r := r + [AddrInfo(k, m[k])];
      }
      left := left - {k};
    }
  }

  lemma MentionedAppend(infos: seq<AddrInfo>, info: AddrInfo)
    ensures forall id :: Mentioned(infos + [info], id) <==> Mentioned(infos, id) || id == info.id
  {
    var all := infos + [info];
    assert all[|infos|] == info;
    forall id | Mentioned(infos, id)
      ensures Mentioned(all, id)
    {
      var i :| 0 <= i < |infos| && infos[i].id == id;
      assert all[i].id == id;
    }
  }

  lemma ReportedAppend(infos: seq<AddrInfo>, info: AddrInfo)
    ensures forall id :: Reported(infos + [info], id) ==
              if id == info.id then Reported(infos, id) + Texts(info.addrs) else Reported(infos, id)
  {
    var all := infos + [info];
    assert all[|infos|] == info;
    assert forall i | 0 <= i < |infos| :: all[i] == infos[i];
  }

  // ---- Arrival order ---------------------------------------------------------

  /** The addresses of all replies without an error, in the order of arrival. */
  function Flatten(replies: seq<Result<seq<AddrInfo>>>): seq<AddrInfo> {
    if replies == [] then []
    else
      var last := replies[|replies| - 1];
      Flatten(replies[..|replies| - 1]) + (if last.Ok? then last.value else [])
  }

  /** `replies` are the backends' answers in the order in which they reach the channel. */
  method GetProviders(replies: seq<Result<seq<AddrInfo>>>, valid: PeerID -> bool) returns (r: seq<AddrInfo>)
    ensures Merged(r, Flatten(replies), valid)
  {
    var infos: seq<AddrInfo> := [];
    for i := 0 to |replies|
      invariant infos == Flatten(replies[..i])
    {
      assert replies[..i + 1][..i] == replies[..i];
      if replies[i].Ok? {
        infos := infos + replies[i].value;
      }
    }
    assert replies[..|replies|] == replies;
    r := MergeAddrInfos(infos, valid);
  }

  ghost predicate Contributes(replies: seq<Result<seq<AddrInfo>>>, info: AddrInfo) {
    exists reply | reply in replies :: reply.Ok? && info in reply.value
  }

  lemma {:induction false} FlattenMembers(replies: seq<Result<seq<AddrInfo>>>, info: AddrInfo)
    ensures info in Flatten(replies) <==> Contributes(replies, info)
    decreases |replies|
  {
    if replies != [] {
      var rest, last := replies[..|replies| - 1], replies[|replies| - 1];
      assert replies == rest + [last];
      FlattenMembers(rest, info);
      if Contributes(rest, info) {
        var reply :| reply in rest && reply.Ok? && info in reply.value;
        assert reply in replies;
      }
      if last.Ok? && info in last.value {
        assert last in replies;
      }
    }
  }

  lemma FlattenMentions(a: seq<Result<seq<AddrInfo>>>, b: seq<Result<seq<AddrInfo>>>, id: PeerID)
    requires forall x | x in a :: x in b
    ensures Mentioned(Flatten(a), id) ==> Mentioned(Flatten(b), id)
    ensures Reported(Flatten(a), id) <= Reported(Flatten(b), id)
  {
    var fa, fb := Flatten(a), Flatten(b);
    forall i | 0 <= i < |fa|
      ensures fa[i] in fb
    {
      FlattenMembers(a, fa[i]);
      FlattenMembers(b, fa[i]);
    }
  }

  /** A merged answer reports for each valid ID what the infos report. */
  lemma MergedReports(r: seq<AddrInfo>, infos: seq<AddrInfo>, valid: PeerID -> bool, id: PeerID)
    requires Merged(r, infos, valid)
    ensures Reported(r, id) == if valid(id) then Reported(infos, id) else {}
  {
  }

  /**
   In whatever orders the same replies arrive, the merged answers give the same IDs,
   each with the same address texts.
   */
  lemma ArrivalOrderIrrelevant(a: seq<Result<seq<AddrInfo>>>, b: seq<Result<seq<AddrInfo>>>,
                               r: seq<AddrInfo>, r': seq<AddrInfo>, valid: PeerID -> bool, id: PeerID)
    requires multiset(a) == multiset(b)
    requires Merged(r, Flatten(a), valid) && Merged(r', Flatten(b), valid)
    ensures Mentioned(r, id) <==> Mentioned(r', id)
    ensures Reported(r, id) == Reported(r', id)
  {
    forall x
      ensures x in a <==> x in b
    {
      assert x in a <==> x in multiset(a);
      assert x in b <==> x in multiset(b);
    }
    FlattenMentions(a, b, id);
    FlattenMentions(b, a, id);
    MergedReports(r, Flatten(a), valid, id);
    MergedReports(r', Flatten(b), valid, id);
  }
}
