/** The provider store kept in a DynamoDB table: conditional writes, and reads page by page. */
module ProviderTable {
  import opened Wrappers
  import opened Peers

  /** One row of a page: its provider attribute, if it has one of the right type. */
  datatype Item = Prov(id: PeerID) | Malformed

  /** The answer to one query; `more` says that it came with a key to continue from. */
  datatype Response = Error | Page(items: seq<Item>, more: bool)

  /** The answer to the i-th query of a read, as a function of the limit it asks for. */
  type Queries = (nat, int) -> Response

  // ---- Keeping first occurrences ---------------------------------------------

  function Dedupe<T(==)>(s: seq<T>): seq<T> {
    if s == [] then []
    else
      var rest, last := s[..|s| - 1], s[|s| - 1];
      if last in rest then Dedupe(rest) else Dedupe(rest) + [last]
  }

  /** Position of the first occurrence. */
  function FirstAt<T(==)>(s: seq<T>, x: T): (i: nat)
    requires x in s
    ensures i < |s| && s[i] == x && x !in s[..i]
  {
    if s[0] == x then 0 else 1 + FirstAt(s[1..], x)
  }

  lemma {:induction false} FirstAtAppend<T>(s: seq<T>, y: T, x: T)
    requires x in s
    ensures FirstAt(s + [y], x) == FirstAt(s, x)
    decreases |s|
  {
    if s[0] != x {
      assert (s + [y])[1..] == s[1..] + [y];
      FirstAtAppend(s[1..], y, x);
    }
  }

  ghost predicate InFirstOrder<T(!new)>(d: seq<T>, s: seq<T>) {
    && (forall i | 0 <= i < |d| :: d[i] in s)
    && (forall i, j | 0 <= i < j < |d| && d[i] in s && d[j] in s :: FirstAt(s, d[i]) < FirstAt(s, d[j]))
  }

  lemma InFirstOrderAppend<T(!new)>(d: seq<T>, s: seq<T>, y: T)
    requires InFirstOrder(d, s)
    ensures InFirstOrder(d, s + [y])
    ensures y !in s ==> InFirstOrder(d + [y], s + [y])
  {
    forall x | x in s
      ensures FirstAt(s + [y], x) == FirstAt(s, x)
    {
      FirstAtAppend(s, y, x);
    }
    assert y in s + [y];
    if y !in s {
      var f := FirstAt(s + [y], y);
      assert (s + [y])[f] == y && f >= |s|;
      forall i | 0 <= i < |d|
        ensures FirstAt(s + [y], d[i]) < f
      {
        assert d[i] in s;
      }
    }
  }

  /** Deduplication keeps each element once, in the order of first occurrences. */
  lemma {:induction false} DedupeFirsts<T(!new)>(s: seq<T>)
    ensures forall x :: x in Dedupe(s) <==> x in s
    ensures InFirstOrder(Dedupe(s), s)
    decreases |s|
  {
    if s != [] {
      var rest, last := s[..|s| - 1], s[|s| - 1];
      assert s == rest + [last];
      DedupeFirsts(rest);
      InFirstOrderAppend(Dedupe(rest), rest, last);
    }
  }

  /** Appending elements already seen changes nothing. */
  lemma {:induction false} DedupeSeen<T(!new)>(a: seq<T>, b: seq<T>)
    requires forall x | x in b :: x in a
    ensures Dedupe(a + b) == Dedupe(a)
    decreases |b|
  {
    if b == [] {
      assert a + b == a;
    } else {
      var rest, last := b[..|b| - 1], b[|b| - 1];
      assert (a + b)[..|a + b| - 1] == a + rest;
      assert last in a && last in a + rest;
      DedupeSeen(a, rest);
    }
  }

  lemma DedupeGrows<T(!new)>(a: seq<T>, b: seq<T>)
    ensures Dedupe(a + b) == Dedupe(a) <==> forall x | x in b :: x in a
  {
    if forall x | x in b :: x in a {
      DedupeSeen(a, b);
    } else {
      var x :| x in b && x !in a;
      DedupeFirsts(a);
      DedupeFirsts(a + b);
      assert x in a + b;
    }
  }

  // ---- Reading ---------------------------------------------------------------

  predicate WellFormed(items: seq<Item>) {
    forall i | 0 <= i < |items| :: items[i].Prov?
  }

  function Ids(items: seq<Item>): (r: seq<PeerID>)
    requires WellFormed(items)
    ensures |r| == |items|
  {
    seq(|items|, i requires 0 <= i < |items| => items[i].id)
  }

  /** A page that is not the last holds at least one row. */
  ghost predicate PagesAdvance(query: Queries) {
    forall i: nat, limit: int :: query(i, limit).Page? && query(i, limit).more ==> query(i, limit).items != []
  }

  /** No page holds more rows than were asked for. */
  ghost predicate PagesBounded(query: Queries) {
    forall i: nat, limit: int | limit > 0 :: query(i, limit).Page? ==> |query(i, limit).items| <= limit
  }

  /** The rows that the page loop reads from the i-th query on, with `left` still wanted. */
  ghost function RowsRead(query: Queries, i: nat, left: int): Result<seq<PeerID>>
    requires PagesAdvance(query)
    decreases if left < 0 then 0 else left
  {
    match query(i, left)
    case Error => Failed
    case Page(items, more) =>
      if !WellFormed(items) then Failed
      else if |items| >= left || !more then Ok(Ids(items))
      else After(Ids(items), RowsRead(query, i + 1, left - |items|))
  }

  /** Rows already read, followed by the outcome of reading on. */
  function After(rows: seq<PeerID>, r: Result<seq<PeerID>>): Result<seq<PeerID>> {
    match r
    case Failed => Failed
    case Ok(rest) => Ok(rows + rest)
  }

  lemma AfterLaws(a: seq<PeerID>, b: seq<PeerID>, r: Result<seq<PeerID>>)
    ensures After([], r) == r
    ensures After(a, After(b, r)) == After(a + b, r)
  {
    if r.Ok? {
      assert [] + r.value == r.value;
      assert a + (b + r.value) == (a + b) + r.value;
    }
  }

  lemma {:induction false} RowsReadFew(query: Queries, i: nat, left: int)
    requires PagesAdvance(query) && PagesBounded(query) && left > 0 && RowsRead(query, i, left).Ok?
    ensures |RowsRead(query, i, left).value| <= left
    decreases left
  {
    var p := query(i, left);
    if |p.items| < left && p.more {
      RowsReadFew(query, i + 1, left - |p.items|);
    }
  }

  /** Pages one after the other. */
  function Concat(pages: seq<seq<Item>>): seq<Item> {
    if pages == [] then [] else pages[0] + Concat(pages[1..])
  }

  /** How many rows of the limit are still wanted before the k-th of these pages. */
  function Wanted(pages: seq<seq<Item>>, k: nat, limit: int): int
    requires k <= |pages|
  {
    limit - |Concat(pages[..k])|
  }

  ghost predicate IsPage(query: Queries, i: nat, limit: int, items: seq<Item>) {
    query(i, limit).Page? && query(i, limit).items == items
  }

  /**
   These are pages that the queries from the i-th on answer, each asked for the rows
   still wanted and each but perhaps the last with more to come and short of the limit.
   */
  ghost predicate Served(query: Queries, i: nat, limit: int, pages: seq<seq<Item>>) {
    forall k: nat | k < |pages| ::
      && IsPage(query, i + k, Wanted(pages, k, limit), pages[k])
      && (k + 1 < |pages| ==> query(i + k, Wanted(pages, k, limit)).more && |Concat(pages[..k + 1])| < limit)
  }

  /** The last of these pages ends the read: there is no more, or the limit is reached. */
  ghost predicate Final(query: Queries, i: nat, limit: int, pages: seq<seq<Item>>)
    requires pages != []
  {
    var last := |pages| - 1;
    |Concat(pages)| >= limit || (query(i + last, Wanted(pages, last, limit)).Page? && !query(i + last, Wanted(pages, last, limit)).more)
  }

  lemma ServedTail(query: Queries, i: nat, limit: int, pages: seq<seq<Item>>)
    requires pages != [] && Served(query, i, limit, pages)
    ensures Served(query, i + 1, limit - |pages[0]|, pages[1..])
    ensures IsPage(query, i, limit, pages[0])
    ensures |pages| > 1 ==> query(i, limit).more && |pages[0]| < limit
    ensures |pages| > 1 && Final(query, i, limit, pages) ==> Final(query, i + 1, limit - |pages[0]|, pages[1..])
  {
    var rest := pages[1..];
    forall k: nat | k <= |rest|
      ensures Concat(pages[..k + 1]) == pages[0] + Concat(rest[..k])
    {
      assert pages[..k + 1][1..] == rest[..k];
    }
    forall k: nat | k < |rest|
      ensures Wanted(rest, k, limit - |pages[0]|) == Wanted(pages, k + 1, limit)
      ensures rest[k] == pages[k + 1]
    {
    }
    assert IsPage(query, i + 0, Wanted(pages, 0, limit), pages[0]);
    assert pages[..0] == [];
    if |pages| > 1 {
      assert rest[..0] == [];
      assert pages[..0 + 1] == [pages[0]];
    }
    forall k: nat | k < |rest|
      ensures IsPage(query, i + 1 + k, Wanted(rest, k, limit - |pages[0]|), rest[k])
      ensures k + 1 < |rest| ==> query(i + 1 + k, Wanted(rest, k, limit - |pages[0]|)).more && |Concat(rest[..k + 1])| < limit - |pages[0]|
    {
      assert IsPage(query, i + (k + 1), Wanted(pages, k + 1, limit), pages[k + 1]);
    }
  }

  lemma LastPageRead(query: Queries, i: nat, limit: int, items: seq<Item>)
    requires PagesAdvance(query) && IsPage(query, i, limit, items) && WellFormed(items)
    requires |items| >= limit || !query(i, limit).more
    ensures RowsRead(query, i, limit) == Ok(Ids(items))
  {
  }

  lemma PageRead(query: Queries, i: nat, limit: int, items: seq<Item>, later: seq<Item>)
    requires PagesAdvance(query) && IsPage(query, i, limit, items) && HasMore(query, i, limit) && |items| < limit
    requires WellFormed(items) && WellFormed(later) && RowsRead(query, i + 1, limit - |items|) == Ok(Ids(later))
    ensures WellFormed(items + later) && RowsRead(query, i, limit) == Ok(Ids(items + later))
  {
    assert Ids(items + later) == Ids(items) + Ids(later);
  }

  lemma WellFormedParts(a: seq<Item>, b: seq<Item>)
    requires WellFormed(a + b)
    ensures WellFormed(a) && WellFormed(b)
  {
    assert forall j | 0 <= j < |a| :: a[j] == (a + b)[j];
    assert forall j | 0 <= j < |b| :: b[j] == (a + b)[|a| + j];
  }

  /** A read of well-formed pages yields their concatenation, whatever the pages are. */
  lemma {:induction false} ReadConcatenates(query: Queries, i: nat, limit: int, pages: seq<seq<Item>>)
    requires PagesAdvance(query) && pages != [] && Served(query, i, limit, pages) && Final(query, i, limit, pages)
    requires WellFormed(Concat(pages))
    ensures RowsRead(query, i, limit) == Ok(Ids(Concat(pages)))
    decreases |pages|
  {
    var items, rest := pages[0], pages[1..];
    ServedTail(query, i, limit, pages);
    WellFormedParts(items, Concat(rest));
    if rest == [] {
      assert pages[..0] == [] && Concat(pages) == items;
      LastPageRead(query, i, limit, items);
    } else {
      ReadConcatenates(query, i + 1, limit - |items|, rest);
      PageRead(query, i, limit, items, Concat(rest));
    }
  }

  /** After these pages the read goes on. */
  ghost predicate GoesOn(query: Queries, i: nat, limit: int, pages: seq<seq<Item>>) {
    && Served(query, i, limit, pages)
    && (pages != [] ==> |Concat(pages)| < limit && HasMore(query, i + |pages| - 1, Wanted(pages, |pages| - 1, limit)))
  }

  ghost predicate HasMore(query: Queries, i: nat, limit: int) {
    query(i, limit).Page? && query(i, limit).more
  }

  lemma WantedTail(pages: seq<seq<Item>>, k: nat, limit: int)
    requires k < |pages|
    ensures Wanted(pages[1..], k, limit - |pages[0]|) == Wanted(pages, k + 1, limit)
  {
    assert pages[..k + 1][1..] == pages[1..][..k];
  }

  lemma GoesOnTail(query: Queries, i: nat, limit: int, pages: seq<seq<Item>>)
    requires pages != [] && GoesOn(query, i, limit, pages)
    ensures GoesOn(query, i + 1, limit - |pages[0]|, pages[1..])
    ensures IsPage(query, i, limit, pages[0]) && HasMore(query, i, limit) && |pages[0]| < limit
  {
    ServedTail(query, i, limit, pages);
    if |pages| > 1 {
      WantedTail(pages, |pages| - 2, limit);
    } else {
      assert pages[..0] == [];
    }
  }

  /** A failed query, or a page with a malformed row. */
  ghost predicate Breaks(query: Queries, i: nat, limit: int) {
    query(i, limit).Error? || !WellFormed(query(i, limit).items)
  }

  lemma GoesOnShorter(query: Queries, i: nat, limit: int, pages: seq<seq<Item>>, left: int)
    requires pages != [] && GoesOn(query, i, limit, pages) && left == Wanted(pages, |pages|, limit)
    ensures GoesOn(query, i + 1, limit - |pages[0]|, pages[1..])
    ensures left == Wanted(pages[1..], |pages[1..]|, limit - |pages[0]|)
  {
    GoesOnTail(query, i, limit, pages);
    WantedTail(pages, |pages| - 1, limit);
  }

  lemma PageReadFails(query: Queries, i: nat, limit: int, pages: seq<seq<Item>>)
    requires PagesAdvance(query) && pages != [] && GoesOn(query, i, limit, pages)
    requires RowsRead(query, i + 1, limit - |pages[0]|) == Failed
    ensures RowsRead(query, i, limit) == Failed
  {
    GoesOnTail(query, i, limit, pages);
  }

  lemma FirstReadFails(query: Queries, i: nat, limit: int)
    requires PagesAdvance(query) && Breaks(query, i, limit)
    ensures RowsRead(query, i, limit) == Failed
  {
  }

  /** A failed query or a malformed row after any pages fails the read. */
  lemma {:induction false} ReadFails(query: Queries, i: nat, limit: int, pages: seq<seq<Item>>, at: nat, left: int)
    requires PagesAdvance(query) && GoesOn(query, i, limit, pages)
    requires at == i + |pages| && left == Wanted(pages, |pages|, limit) && Breaks(query, at, left)
    ensures RowsRead(query, i, limit) == Failed
    decreases |pages|
  {
    if pages == [] {
      assert left == limit by { assert Concat(pages[..0]) == []; }
      FirstReadFails(query, i, limit);
    } else {
      GoesOnShorter(query, i, limit, pages, left);
      ReadFails(query, i + 1, limit - |pages[0]|, pages[1..], at, left);
      PageReadFails(query, i, limit, pages);
    }
  }

  /** An answer to a read: each distinct provider of the rows, in their order, with the addresses known for it. */
  ghost predicate Answers(peers: map<PeerID, seq<Multiaddr>>, rows: seq<PeerID>, answer: seq<AddrInfo>) {
    && |answer| == |Dedupe(rows)|
    && forall i | 0 <= i < |answer| ::
         answer[i].id == Dedupe(rows)[i] && answer[i].addrs == if answer[i].id in peers then peers[answer[i].id] else []
  }

  function Infos(peers: map<PeerID, seq<Multiaddr>>, ids: seq<PeerID>): (r: seq<AddrInfo>)
    ensures |r| == |ids|
  {
    seq(|ids|, i requires 0 <= i < |ids| => PeerInfo(peers, ids[i]))
  }

  function PeerInfo(peers: map<PeerID, seq<Multiaddr>>, id: PeerID): AddrInfo {
    AddrInfo(id, if id in peers then peers[id] else [])
  }

  // ---- Writing ---------------------------------------------------------------

  /** A put conditioned on the row not being there. */
  function Put(table: map<(Key, int), PeerID>, key: Key, ttl: int, prov: PeerID): map<(Key, int), PeerID> {
    if (key, ttl) in table then table else table[(key, ttl) := prov]
  }

  datatype Write = Write(key: Key, ttl: int, prov: PeerID)

  function Puts(writes: seq<Write>): map<(Key, int), PeerID> {
    if writes == [] then map[]
    else
      var last := writes[|writes| - 1];
      Put(Puts(writes[..|writes| - 1]), last.key, last.ttl, last.prov)
  }

  /** Of several writes for one key and second, the first one is kept. */
  lemma {:induction false} FirstWriteWins(writes: seq<Write>, i: nat)
    requires i < |writes|
    requires forall j | 0 <= j < i :: (writes[j].key, writes[j].ttl) != (writes[i].key, writes[i].ttl)
    ensures (writes[i].key, writes[i].ttl) in Puts(writes)
    ensures Puts(writes)[(writes[i].key, writes[i].ttl)] == writes[i].prov
    decreases |writes|
  {
    var rest := writes[..|writes| - 1];
    if i < |rest| {
      FirstWriteWins(rest, i);
    } else if (writes[i].key, writes[i].ttl) in Puts(rest) {
      OnlyWritten(rest, writes[i].key, writes[i].ttl);
    }
  }

  lemma {:induction false} OnlyWritten(writes: seq<Write>, key: Key, ttl: int)
    requires (key, ttl) in Puts(writes)
    ensures exists j | 0 <= j < |writes| :: (writes[j].key, writes[j].ttl) == (key, ttl)
    decreases |writes|
  {
    var rest, last := writes[..|writes| - 1], writes[|writes| - 1];
    if (key, ttl) in Puts(rest) {
      OnlyWritten(rest, key, ttl);
      var j :| 0 <= j < |rest| && (rest[j].key, rest[j].ttl) == (key, ttl);
      assert writes[j] == rest[j];
    } else {
      assert writes[|writes| - 1] == last;
    }
  }

  const NANOS := 1_000_000_000

  /** The second that keys a row, from times in nanoseconds. */
  function Second(now: nat, ttl: nat): nat {
    (now + ttl) / NANOS
  }

  /** An add of a provider, at a time in nanoseconds. */
  datatype Addition = Addition(key: Key, now: nat, prov: PeerID)

  /** The writes that a list of adds attempts. */
  function Attempts(adds: seq<Addition>, ttl: nat): (r: seq<Write>)
    ensures |r| == |adds|
  {
    seq(|adds|, i requires 0 <= i < |adds| => Write(adds[i].key, Second(adds[i].now, ttl), adds[i].prov))
  }

  /** The first write for the row of the i-th one. */
  lemma FirstForRow(writes: seq<Write>, i: nat) returns (f: nat)
    requires i < |writes|
    ensures f <= i && (writes[f].key, writes[f].ttl) == (writes[i].key, writes[i].ttl)
    ensures forall j | 0 <= j < f :: (writes[j].key, writes[j].ttl) != (writes[i].key, writes[i].ttl)
  {
    f := 0;
    while (writes[f].key, writes[f].ttl) != (writes[i].key, writes[i].ttl)
      invariant f <= i
      invariant forall j | 0 <= j < f :: (writes[j].key, writes[j].ttl) != (writes[i].key, writes[i].ttl)
      decreases i - f
    {
      f := f + 1;
    }
  }

  /**
   Whatever is added when, the provider on record for the second of an add is that of
   the first add for the key in that second; so a provider that is new to the key is
   recorded if and only if no add for the key came before it in its second.
   */
  lemma RecordedIffFirstOfSecond(adds: seq<Addition>, ttl: nat, i: nat) returns (f: nat)
    requires i < |adds|
    ensures f <= i && adds[f].key == adds[i].key && Second(adds[f].now, ttl) == Second(adds[i].now, ttl)
    ensures forall j | 0 <= j < f && adds[j].key == adds[i].key :: Second(adds[j].now, ttl) != Second(adds[i].now, ttl)
    ensures var row := (adds[i].key, Second(adds[i].now, ttl));
            && row in Puts(Attempts(adds, ttl))
            && Puts(Attempts(adds, ttl))[row] == adds[f].prov
            && ((forall j | 0 <= j < i && adds[j].key == adds[i].key :: adds[j].prov != adds[i].prov) ==>
                  (Puts(Attempts(adds, ttl))[row] == adds[i].prov <==> f == i))
  {
    var writes := Attempts(adds, ttl);
    f := FirstForRow(writes, i);
    FirstWriteWins(writes, f);
    assert writes[f] == Write(adds[f].key, Second(adds[f].now, ttl), adds[f].prov);
    assert forall j | 0 <= j < f && adds[j].key == adds[i].key :: writes[j].ttl != writes[i].ttl;
  }

  /** Of two different providers put for one key into free rows, the second is kept exactly if the seconds differ. */
  lemma SecondPutKept(table: map<(Key, int), PeerID>, key: Key, p1: PeerID, p2: PeerID, n1: nat, n2: nat, ttl: nat)
    requires p1 != p2 && (key, Second(n1, ttl)) !in table && (key, Second(n2, ttl)) !in table
    ensures var after := Put(Put(table, key, Second(n1, ttl), p1), key, Second(n2, ttl), p2);
            after[(key, Second(n2, ttl))] == p2 <==> (n1 + ttl) / NANOS != (n2 + ttl) / NANOS
  {
  }

  /** Two adds 999 milliseconds apart: only the first provider is recorded. */
  lemma MillisecondsApart(key: Key)
    ensures Puts(Attempts([Addition(key, 0, "a"), Addition(key, 999_000_000, "b")], 0)) == map[(key, 0) := "a"]
    ensures 0 / 1_000_000 != 999_000_000 / 1_000_000
  {
    var writes := Attempts([Addition(key, 0, "a"), Addition(key, 999_000_000, "b")], 0);
    assert writes == [Write(key, 0, "a"), Write(key, 0, "b")];
    assert writes[..1] == [Write(key, 0, "a")] && writes[..1][..0] == [];
    assert Puts(writes[..1]) == map[(key, 0) := "a"];
  }

  /** Two adds a second apart are both recorded. */
  lemma SecondsApart(key: Key)
    ensures Puts(Attempts([Addition(key, 0, "a"), Addition(key, 1_000_000_000, "b")], 0)) == map[(key, 0) := "a", (key, 1) := "b"]
  {
    var writes := Attempts([Addition(key, 0, "a"), Addition(key, 1_000_000_000, "b")], 0);
    assert writes == [Write(key, 0, "a"), Write(key, 1, "b")];
    assert writes[..1] == [Write(key, 0, "a")] && writes[..1][..0] == [];
    assert Puts(writes[..1]) == map[(key, 0) := "a"];
  }

  /** The addresses known after a provider is added; the store's own are meant to stay out. */
  function Learned(self: PeerID, peers: map<PeerID, seq<Multiaddr>>, prov: AddrInfo): map<PeerID, seq<Multiaddr>> {
    if prov.id == self then peers
    else peers[prov.id := PeerInfo(peers, prov.id).addrs + prov.addrs]
  }

  /** What is known of every other peer stays as it was. */
  lemma LearnedOthers(self: PeerID, peers: map<PeerID, seq<Multiaddr>>, prov: AddrInfo, id: PeerID)
    requires id != prov.id
    ensures var after := Learned(self, peers, prov);
            (id in after <==> id in peers) && (id in peers ==> after[id] == peers[id])
  {
  }

  const PLACEHOLDER: PeerID := "peer"

  ghost function Known(peers: map<PeerID, seq<Multiaddr>>, id: PeerID): set<Multiaddr> {
    set a | a in PeerInfo(peers, id).addrs
  }

  /** Adding a host as a provider teaches its store none of its own addresses exactly if the host is named like the placeholder, or all are known. */
  lemma OwnAddresses(host: PeerID, peers: map<PeerID, seq<Multiaddr>>, addrs: seq<Multiaddr>)
    ensures Known(Learned(PLACEHOLDER, peers, AddrInfo(host, addrs)), host) == Known(peers, host) <==>
            host == PLACEHOLDER || forall a | a in addrs :: a in PeerInfo(peers, host).addrs
  {
    if host != PLACEHOLDER {
      assert Known(Learned(PLACEHOLDER, peers, AddrInfo(host, addrs)), host) == Known(peers, host) + set a | a in addrs;
      forall a | a in addrs
        ensures a in PeerInfo(peers, host).addrs <==> a in Known(peers, host)
      {
      }
    }
  }

  /** A host with another name: its own address gets in. */
  lemma OwnAddressGetsIn(a: Multiaddr)
    ensures Known(map[], "host") == {}
    ensures Known(Learned(PLACEHOLDER, map[], AddrInfo("host", [a])), "host") == {a}
  {
    assert [] + [a] == [a];
  }

  class DynamoDBProviderStore {
    const self: PeerID
    const ttl: nat
    const queryLimit: int
    var peers: map<PeerID, seq<Multiaddr>>
    var table: map<(Key, int), PeerID>

    /** The peer ID given is not used: every store takes the placeholder for its own. */
    constructor (self: PeerID, ttl: nat, queryLimit: int)
      ensures this.self == PLACEHOLDER && this.ttl == ttl && this.queryLimit == queryLimit
      ensures peers == map[] && table == map[]
    {
      this.self, this.ttl, this.queryLimit := PLACEHOLDER, ttl, queryLimit;
      peers, table := map[], map[];
    }

    /** Times are in nanoseconds; rows are keyed by whole seconds. `outage` is any error but a failed condition. */
    method AddProvider(key: Key, prov: AddrInfo, now: nat, outage: bool) returns (ok: bool)
      modifies this
      ensures ok <==> !outage
      ensures table == if outage then old(table) else Put(old(table), key, Second(now, ttl), prov.id)
      ensures peers == Learned(self, old(peers), prov)
    {
      if prov.id != self {
        peers := peers[prov.id := PeerInfo(peers, prov.id).addrs + prov.addrs];
      }
      var ttlEpoch := Second(now, ttl);
      if outage {
        return false;
      }
      if (key, ttlEpoch) !in table {
        table := table[(key, ttlEpoch) := prov.id];
      }
      return true;
    }

    /** Follows pages until the limit is reached or there are no more, keeping each provider once. */
    method GetProviders(query: Queries) returns (r: Result<seq<AddrInfo>>)
      requires PagesAdvance(query)
      ensures match RowsRead(query, 0, queryLimit)
              case Failed => r == Failed
              case Ok(rows) => r.Ok? && Answers(peers, rows, r.value)
    {
      var providersLeft := queryLimit;
      var providersSet: set<PeerID> := {};
      var providers: seq<AddrInfo> := [];
      var i := 0;
      ghost var rows: seq<PeerID> := [];
      AfterLaws([], [], RowsRead(query, 0, queryLimit));
      while true
        invariant Collected(rows, providersSet, providers)
        invariant RowsRead(query, 0, queryLimit) == After(rows, RowsRead(query, i, providersLeft))
        decreases if providersLeft < 0 then 0 else providersLeft
      {
        var res := query(i, providersLeft);
        if res.Error? {
          return Failed;
        }
        var ok;
        providersSet, providers, ok := Collect(res.items, providersSet, providers, rows);
        if !ok {
          return Failed;
        }
        AfterLaws(rows, Ids(res.items), RowsRead(query, i + 1, providersLeft - |res.items|));
        rows := rows + Ids(res.items);
        if |res.items| >= providersLeft || !res.more {
          break;
        }
        providersLeft := providersLeft - |res.items|;
        i := i + 1;
      }
      return Ok(providers);
    }

    ghost predicate Collected(rows: seq<PeerID>, providersSet: set<PeerID>, providers: seq<AddrInfo>)
      reads this
    {
      && (forall p :: p in providersSet <==> p in rows)
      && providers == Infos(peers, Dedupe(rows))
    }

    /** The loop over the rows of one page; a malformed row ends the read. */
    method Collect(items: seq<Item>, seen: set<PeerID>, found: seq<AddrInfo>, ghost rows: seq<PeerID>)
      returns (providersSet: set<PeerID>, providers: seq<AddrInfo>, ok: bool)
      requires Collected(rows, seen, found)
      ensures ok <==> WellFormed(items)
      ensures ok ==> Collected(rows + Ids(items), providersSet, providers)
    {
      providersSet, providers := seen, found;
      ghost var read := rows;
      for n := 0 to |items|
        invariant WellFormed(items[..n]) && read == rows + Ids(items[..n])
        invariant Collected(read, providersSet, providers)
      {
        match items[n]
        case Malformed =>
          return providersSet, providers, false;
        case Prov(id) =>
          assert items[..n + 1] == items[..n] + [items[n]];
          assert (read + [id])[..|read|] == read;
          read := read + [id];
          if id !in providersSet {
            providersSet := providersSet + {id};
            providers := providers + [PeerInfo(peers, id)];
          }
      }
      assert items[..|items|] == items;
      return providersSet, providers, true;
    }
  }

  // ---- What a read returns, given the table ----------------------------------

  /** The rows of a key, newest first. */
  ghost predicate Lists(table: map<(Key, int), PeerID>, key: Key, rows: seq<(int, PeerID)>) {
    && (forall i, j | 0 <= i < j < |rows| :: rows[i].0 > rows[j].0)
    && (forall i | 0 <= i < |rows| :: (key, rows[i].0) in table && table[(key, rows[i].0)] == rows[i].1)
    && (forall t | (key, t) in table :: exists i | 0 <= i < |rows| :: rows[i].0 == t)
  }

  function Min(a: int, b: int): int {
    if a < b then a else b
  }

  /**
   Queries against a fixed listing, a page holding at most `cap` rows. No query carries
   a key to continue from, so every page starts at the newest row.
   */
  function FromTop(provs: seq<PeerID>, cap: nat): Queries
    requires cap > 0
  {
    (i: nat, limit: int) =>
      if limit < 1 then Error
      else
        var n := Min(Min(limit, cap), |provs|);
        Page(seq(n, k requires 0 <= k < n => Prov(provs[k])), n < |provs|)
  }

  lemma FromTopPages(provs: seq<PeerID>, cap: nat)
    requires cap > 0
    ensures PagesAdvance(FromTop(provs, cap)) && PagesBounded(FromTop(provs, cap))
  {
  }

  /** Rows that start with the first page and go on with rows of that page again. */
  ghost predicate RepeatsFirst(rows: seq<PeerID>, provs: seq<PeerID>, first: nat) {
    first <= |rows| && first <= |provs| && rows[..first] == provs[..first]
    && forall x | x in rows :: x in provs[..first]
  }

  lemma {:induction false} FromTopRows(provs: seq<PeerID>, cap: nat, i: nat, left: int)
    requires cap > 0 && left > 0
    ensures PagesAdvance(FromTop(provs, cap))
    ensures var r := RowsRead(FromTop(provs, cap), i, left);
            r.Ok? && RepeatsFirst(r.value, provs, Min(Min(left, cap), |provs|))
    decreases left
  {
    FromTopPages(provs, cap);
    var n := Min(Min(left, cap), |provs|);
    var page := FromTop(provs, cap)(i, left);
    assert Ids(page.items) == provs[..n];
    if n < left && n < |provs| {
      FromTopRows(provs, cap, i + 1, left - n);
      var rest := RowsRead(FromTop(provs, cap), i + 1, left - n).value;
      RepeatsMore(rest, provs, Min(Min(left - n, cap), |provs|), n);
    }
  }

  lemma RepeatsMore(rest: seq<PeerID>, provs: seq<PeerID>, m: nat, n: nat)
    requires m <= n <= |provs| && RepeatsFirst(rest, provs, m)
    ensures RepeatsFirst(provs[..n] + rest, provs, n)
  {
  }

  /** What a read returns are the distinct providers of the first page. */
  lemma ReadReturnsFirstPage(provs: seq<PeerID>, cap: nat, limit: int)
    requires cap > 0 && limit > 0
    requires PagesAdvance(FromTop(provs, cap))
    ensures var r := RowsRead(FromTop(provs, cap), 0, limit);
            r.Ok? && Dedupe(r.value) == Dedupe(provs[..Min(Min(limit, cap), |provs|)])
  {
    FromTopRows(provs, cap, 0, limit);
    var first := Min(Min(limit, cap), |provs|);
    var rows := RowsRead(FromTop(provs, cap), 0, limit).value;
    assert rows == provs[..first] + rows[first..];
    DedupeSeen(provs[..first], rows[first..]);
  }

  /**
   A read promises the distinct providers of the newest `limit` rows. It keeps that
   promise exactly when the rows that the first page leaves out name no provider beyond
   it.
   */
  lemma ReadMeetsPromise(provs: seq<PeerID>, cap: nat, limit: int)
    requires cap > 0 && limit > 0
    requires PagesAdvance(FromTop(provs, cap))
    ensures var wanted := Min(limit, |provs|);
            var first := Min(wanted, cap);
            var r := RowsRead(FromTop(provs, cap), 0, limit);
            && r.Ok?
            && (Dedupe(r.value) == Dedupe(provs[..wanted]) <==>
                  forall x | x in provs[first..wanted] :: x in provs[..first])
  {
    var wanted := Min(limit, |provs|);
    var first := Min(wanted, cap);
    assert RowsRead(FromTop(provs, cap), 0, limit).Ok? &&
           Dedupe(RowsRead(FromTop(provs, cap), 0, limit).value) == Dedupe(provs[..first]) by {
      ReadReturnsFirstPage(provs, cap, limit);
    }
    assert provs[..wanted] == provs[..first] + provs[first..wanted];
    DedupeGrows(provs[..first], provs[first..wanted]);
  }

  /** A page of one row, a limit of two and two providers: the second is never returned. */
  lemma SecondPageRepeatsFirst()
    ensures PagesAdvance(FromTop(["a", "b"], 1))
    ensures var r := RowsRead(FromTop(["a", "b"], 1), 0, 2);
            r.Ok? && Dedupe(r.value) == ["a"] && Dedupe(["a", "b"]) == ["a", "b"]
  {
    var provs := ["a", "b"];
    ReadReturnsFirstPage(provs, 1, 2);
    assert provs[..1] == ["a"];
    assert Dedupe(["a"]) == ["a"] by { assert ["a"][..0] == []; }
  }

  function Providers(rows: seq<(int, PeerID)>): (r: seq<PeerID>)
    ensures |r| == |rows|
  {
    seq(|rows|, i requires 0 <= i < |rows| => rows[i].1)
  }

  /** Each provider once, those last written for a newer second first. */
  ghost predicate NewestFirst(d: seq<PeerID>, rows: seq<(int, PeerID)>, m: nat)
    requires m <= |rows|
  {
    var newest := Providers(rows)[..m];
    && (forall x :: x in d <==> exists i | 0 <= i < m :: rows[i].1 == x)
    && (forall i | 0 <= i < |d| :: d[i] in newest)
    && forall i, j | 0 <= i < j < |d| && d[i] in newest && d[j] in newest ::
         rows[FirstAt(newest, d[i])].0 > rows[FirstAt(newest, d[j])].0
  }

  lemma DedupeNewestFirst(rows: seq<(int, PeerID)>, m: nat)
    requires m <= |rows| && forall i, j | 0 <= i < j < |rows| :: rows[i].0 > rows[j].0
    ensures NewestFirst(Dedupe(Providers(rows)[..m]), rows, m)
  {
    var newest := Providers(rows)[..m];
    DedupeFirsts(newest);
    assert forall i | 0 <= i < m :: newest[i] == rows[i].1;
  }

  /**
   When the first page reaches the limit or the end, a read of a table made by
   conditional writes returns each provider of the newest `limit` rows once, newest
   first, and each row carries the provider written first for its second.
   */
  lemma NewestProviders(writes: seq<Write>, key: Key, rows: seq<(int, PeerID)>, cap: nat, limit: int, w: nat)
    requires Lists(Puts(writes), key, rows) && limit > 0 && cap > 0 && Min(limit, |rows|) <= cap
    requires w < |writes| && writes[w].key == key
    requires forall j | 0 <= j < w :: (writes[j].key, writes[j].ttl) != (key, writes[w].ttl)
    ensures PagesAdvance(FromTop(Providers(rows), cap))
    ensures var r := RowsRead(FromTop(Providers(rows), cap), 0, limit);
            r.Ok? && NewestFirst(Dedupe(r.value), rows, Min(limit, |rows|))
    ensures exists i | 0 <= i < |rows| :: rows[i] == (writes[w].ttl, writes[w].prov)
  {
    ReadReturnsFirstPage(Providers(rows), cap, limit);
    DedupeNewestFirst(rows, Min(limit, |rows|));
    FirstWriteWins(writes, w);
    var i :| 0 <= i < |rows| && rows[i].0 == writes[w].ttl;
    assert rows[i] == (writes[w].ttl, writes[w].prov);
  }

  lemma {:induction false} DedupeHead<T(!new)>(s: seq<T>)
    requires s != []
    ensures Dedupe(s) != [] && Dedupe(s)[0] == s[0]
    decreases |s|
  {
    if |s| > 1 {
      DedupeHead(s[..|s| - 1]);
    }
  }

  /**
   A provider added in a second newer than all on record for its key is the first one
   read back, and unless it has the store's own ID the addresses it was added with come
   with it.
   */
  lemma AddedIsReadFirst(self: PeerID, peers: map<PeerID, seq<Multiaddr>>, table: map<(Key, int), PeerID>,
                         key: Key, prov: AddrInfo, t: int, rows: seq<(int, PeerID)>, cap: nat, limit: int, answer: seq<AddrInfo>)
    requires forall u | (key, u) in table :: u < t
    requires Lists(Put(table, key, t, prov.id), key, rows) && cap > 0 && limit > 0
    requires PagesAdvance(FromTop(Providers(rows), cap)) && RowsRead(FromTop(Providers(rows), cap), 0, limit).Ok?
    requires Answers(Learned(self, peers, prov), RowsRead(FromTop(Providers(rows), cap), 0, limit).value, answer)
    ensures answer != [] && answer[0].id == prov.id
    ensures prov.id != self ==> forall a | a in prov.addrs :: a in answer[0].addrs
  {
    assert (key, t) in Put(table, key, t, prov.id);
    var i :| 0 <= i < |rows| && rows[i].0 == t;
    assert (key, rows[0].0) in Put(table, key, t, prov.id) && i == 0;
    var provs := Providers(rows);
    FromTopRows(provs, cap, 0, limit);
    var read := RowsRead(FromTop(provs, cap), 0, limit).value;
    var first := Min(Min(limit, cap), |provs|);
    assert read[..first][0] == provs[..first][0];
    DedupeHead(read);
  }
}
