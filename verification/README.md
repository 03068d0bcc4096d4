# Verification of Hydra Booster's identity, prefetch, bootstrap and provider logic

A Dafny model of the parts of Hydra Booster whose correctness does not show in any
single function: the XOR trie and the balanced identity generator built on it, the
ownership of identities across hydras that share one generator, the asynchronous
provider finder, the bootstrap of the heads, and the reading and merging of provider
records. Check it with `dafny verify dfyconfig.toml`.

## What is modelled

**The XOR trie** (`trie_keys.dfy`, `tries.dfy`, `trie_facts.dfy`, `xor_trie.dfy`).
`XorTrie` is a class whose nodes are overwritten in place. Each node carries the value
of the tree below it, and every method is tied to an operation on values, which panics
exactly where the code reads past the end of a key. `Canonical` is the reference: the
one trie of a set of keys, defined from the set alone, and every operation is proved to
lead from the canonical trie of one set to the canonical trie of the next. History
independence, the invisible probe, the depth formulas and the capacity bound all follow
from that.

The trie works for non-empty keys of one length. Two keys that agree on everything but
the very last bit are *twins*: inserting the second one makes the code read one bit past
the end. `Tries.InsertCanonical` proves that an insert panics if and only if the trie
holds a twin of the key, and `TrieFacts.TwinsPanic` gives two such keys.

**The generator** (`generator_spec.dfy`, `iteration.dfy`, `generator_runs.dfy`,
`generator.dfy`). Key derivation is a deterministic function of seed and 32-bit salt
(`Source`); the salt counter wraps. `Sane` says that identifiers are 32 bytes and that
the seed derives no twins; `Live` says that some salt ends the candidate search, and
`SearchEndsIffLive` that the search ends exactly then, wherever it starts;
`DrawsSuffice` and `NeverRetries` prove it from distinct keys. The class is proved
against functions on the abstract state, and their properties are proved over whole runs.

**Ownership** (`cleaning.dfy`, `ownership.dfy`, `orphans.dfy`, `lossless.dfy`). The
cleaning client is a class over the generator. Many clients of one server are a state
machine: a call is a request, a step at the server and a reply; requests and replies can
be lost, and a client can give up while its call goes on.

**The finder** (`time_cache.dfy`, `finder.dfy`) and **the bootstrap** (`bootstrap.dfy`)
are state machines whose steps are the source's atomic actions. In the finder the lock
holder and its progress are part of the state, so a worker can take a request, fail it
and wait for the lock between a caller's send and its update of `pending`.

**Providers** (`peers.dfy`, `provider_table.dfy`, `merge.dfy`). The page loop over a
table, and the fan-in of several stores' answers in any order of arrival.

## Where the code and its documentation differ

The model follows the code.

- `idgen/xortrie.go:5` says big-endian bit order; `BitAt` reads the least significant
  bit of a byte first. `reversePerByteBits` makes up for it, as `BitAtReversed` and
  `CplIsXorDistance` prove.
- `README.md:195` says that a read follows the pagination. `startKey`
  (`providers/ddb.go:92`) is never assigned, so every page starts at the newest row.
  `ReadMeetsPromise` proves exactly when the answer is the promised one all the same,
  and `SecondPageRepeatsFirst` gives a table for which it is not.
- `README.md:202` and `providers/ddb.go:77` say that a put is turned away only for
  another one in the same millisecond; rows are keyed by whole seconds
  (`providers/ddb.go:60`). `RecordedIffFirstOfSecond` and `SecondPutKept` prove exactly
  which adds are recorded, and `MillisecondsApart` gives two adds 999 milliseconds apart
  of which the second is not.
- `providers/ddb.go:56` means to keep a host's own addresses out of the peerstore. The
  constructor ignores the peer ID it is given and sets a fixed placeholder
  (`providers/ddb.go:45`). `OwnAddresses` proves exactly when none gets in, and
  `OwnAddressGetsIn` gives a host whose own address does.

## Model

| member | source | states |
|---|---|---|
| TrieKeys.ReversePerByteBits | idgen/idgen.go:176-182 | The slice is overwritten, byte by byte, with its bits in the opposite order. |
| TrieKeys.ReversedInvolution | idgen/idgen.go:176-182 | The reversal undoes itself on every byte string. |
| TrieKeys.BitAtReversed | idgen/xortrie.go:8-14 | Bit i of a reversed identifier, read the trie's way, is the identifier's i-th most significant bit. |
| TrieKeys.CplIsXorDistance | idgen/idgen.go:165-182 | Kademlia agreement: two trie keys share as many leading bits as the XOR of the original identifiers has leading zeros. |
| TrieKeys.BitsGiveXorDistance | idgen/idgen.go:165-182 | The same for any two keys whose bits are those of two identifiers, however they were made. |
| TrieKeys.FirstDifference | idgen/xortrie.go:8-22 | The keys agree on every bit before the returned offset and differ at it, unless it is the end. |
| TrieKeys.KeyExtensional | idgen/xortrie.go:20-22 | Keys of one length that agree on every bit are equal. |
| Tries.InsertCanonical | idgen/xortrie.go:57-77 | Into the trie of a set S, inserting q reads past the end if and only if S holds q's twin; otherwise it gives the trie of S + {q}, succeeds iff q was absent, and reports the starting depth if there is no other key and else one more than the longest prefix shared with another key. |
| Tries.InsertAtLeaf | idgen/xortrie.go:65-74 | The same for a split: the resident key and q are pushed down together to where they part, however many levels that takes. |
| Tries.InsertThroughBranch | idgen/xortrie.go:58-59 | What an insert meets below a branch it meets for the whole set above it. |
| Tries.RemoveCanonical | idgen/xortrie.go:83-99 | From the trie of S, removing q never reads past the end, gives the trie of S - {q}, succeeds iff q was present, and reports the first level whose prefix of q is shared by at most one key. |
| Tries.RemoveThroughBranch | idgen/xortrie.go:84-90 | Shrinking on the way back repairs the path to the canonical shape. |
| Tries.ShrinkCanonical | idgen/xortrie.go:109-121 | A branch between the canonical halves of any set, shrunk, is the canonical trie of the set; two leaves with keys are not collapsed and none is lost. |
| Tries.ReachesIsRests | idgen/xortrie.go:83-99 | For a stored key the depth a removal reports is the depth an insertion of it reports. |
| TrieFacts.WellShapedIsCanonical | idgen/xortrie.go:24-28 | A trie with keys only in leaves, each on the side of its bits, and two keys below every branch is the canonical trie of its keys: there is one shape per set. |
| TrieFacts.CanonicalIsWellShaped | idgen/xortrie.go:24-28 | The canonical trie of a set has that shape and holds exactly the set. |
| TrieFacts.InsertAtRoot | idgen/xortrie.go:53-55 | From the root: success iff absent, the depth by the formula, and a set that may be stored again. |
| TrieFacts.RemoveAtRoot | idgen/xortrie.go:79-81 | From the root: success iff present, and a successful removal reports 0 for the only key and else one more than the longest prefix shared with another key. |
| TrieFacts.TrieRefinesSet | idgen/xortrie.go:53-99 | Every run of inserts and removes from any reachable trie gives the same flags and keys as a plain set, in the canonical shape, and panics exactly when an insert meets a twin. |
| TrieFacts.HistoryIndependence | idgen/xortrie.go:53-121 | Two runs from the empty trie end in equal tries if and only if they end with the same keys. |
| TrieFacts.ProbeIsInvisible | idgen/idgen.go:109-119 | Inserting an absent key and removing it gives back the very same trie, and both report the same depth. |
| TrieFacts.TwinsPanic | idgen/xortrie.go:57-77 | Inserting the one-byte keys 0x00 and 0x80, which differ in the last bit only, reads past the end. |
| TrieFacts.DepthCanonical | idgen/xortrie.go:38-44 | Below a node at depth d the depth is d for at most one key and else one more than the longest prefix two keys share; it stays below the bit length. |
| TrieFacts.DepthAtRoot | idgen/xortrie.go:34-51 | Depth of a trie from its key set alone: 0, or one more than the longest common prefix over all pairs, below the bit length. |
| TrieFacts.DepthAfterInsert | idgen/xortrie.go:34-77 | Adding a key deepens the trie exactly to where the key comes to rest, if that is deeper. |
| TrieFacts.LeavesFillTheTrie | idgen/xortrie.go:34-44 | Leaf weights 2^(D - depth), empty leaves included, add up to 2^D, and there are no more keys than that. |
| TrieFacts.KeysFitDepth | idgen/xortrie.go:34-44 | A trie of depth D holds at most 2^D keys. |
| XorTries.XorTrie.constructor | idgen/xortrie.go:30-32 | A new node is an empty leaf. |
| XorTries.XorTrie.DepthFrom | idgen/xortrie.go:38-44 | The object's depth is the depth of its value. |
| XorTries.XorTrie.InsertFrom | idgen/xortrie.go:57-77 | Whenever the insert on values does not panic, the one in place terminates and leaves that value, depth and flag. |
| XorTries.XorTrie.Grow | idgen/xortrie.go:68-71 | A leaf becomes a branching node over two new empty leaves. |
| XorTries.XorTrie.RemoveFrom | idgen/xortrie.go:83-99 | The remove in place terminates, leaving the value, depth and flag of the remove on values. |
| XorTries.XorTrie.Shrink | idgen/xortrie.go:109-121 | The node in place takes the value of the shrunk node. |
| XorTries.XorTrie.Depth | idgen/xortrie.go:34-36 | The depth counted from the root. |
| XorTries.XorTrie.Insert | idgen/xortrie.go:53-55 | For a key without a twin: the trie stays sound, holds exactly one key set more, succeeds iff the key was absent and reports where it rests beside the others. |
| XorTries.XorTrie.Remove | idgen/xortrie.go:79-81 | The trie stays sound, loses exactly that key, reports success iff it was present, and the depth is that of the removal on values (see TrieFacts.RemoveAtRoot). |
| GeneratorSpec.SearchEndsIffLive | idgen/idgen.go:109-119 | From any starting salt the candidate search ends if and only if some salt derives an absent key or fails to derive. |
| GeneratorSpec.DrawnIsFirst | idgen/idgen.go:109-119 | The salt at which the search ends is the first after the current one whose key is not stored or whose derivation fails. |
| GeneratorSpec.DrawsSuffice | idgen/idgen.go:109-119 | Pigeonhole: if the next \|S\| + 1 salts derive distinct keys the search ends within \|S\| + 1 draws. |
| GeneratorSpec.DeriveMeans | idgen/idgen.go:147-174 | A salt derives the private key of seed and salt and a key whose i-th bit is the i-th most significant bit of its Kademlia identifier; it fails exactly if there is no private key or no identifier. |
| GeneratorSpec.CandidatesFollowKademlia | idgen/idgen.go:147-174 | Two candidates of the generator share as many leading bits as the XOR of their Kademlia identifiers has leading zeros. |
| GeneratorSpec.AddUnbalancedReturns | idgen/idgen.go:72-82 | An unbalanced add returns the identity of the first settling salt, and an error exactly if that salt derives none; the counter stops there. |
| GeneratorSpec.AddBalancedReturns | idgen/idgen.go:87-107 | A balanced add returns one of the identities of the first two settling salts, and an error exactly if one of them derives none; the counter stops at the first that fails, else at the second. |
| GeneratorSpec.RemoveMeans | idgen/idgen.go:122-133 | A removal takes the key with the bits of the identity's Kademlia identifier; without an identifier it is an error that changes nothing. |
| GeneratorSpec.StoreConsistent | idgen/idgen.go:79-80 | A settled candidate is absent and has no twin, so storing it and counting one, without looking at the result of Insert, keeps the count exact. |
| GeneratorSpec.AddUnbalancedConsistent | idgen/idgen.go:72-82 | An unbalanced add either stores nothing or exactly the new key of the identity it returns; the count stays the number of keys. |
| GeneratorSpec.AddBalancedConsistent | idgen/idgen.go:87-107 | The same for a balanced add, with either draw failing or not. |
| GeneratorSpec.RemoveConsistent | idgen/idgen.go:122-133 | Removing a present, absent or unusable key keeps the count exact. |
| GeneratorSpec.BalancedIsGreedy | idgen/idgen.go:87-107 | The candidate kept is the one that rests higher, the second on a tie; it rests at the smaller of the two depths, and the new trie depth is the larger of that and the old one. |
| GeneratorRuns.RunConsistent | idgen/idgen.go:72-133 | After any mix of balanced adds, unbalanced adds, removals and failed draws the count equals the number of stored keys. |
| GeneratorRuns.BalancedUses | idgen/idgen.go:87-119 | With distinct keys a balanced add uses two salts, fewer only on an error, and returns an identity of one of them. |
| GeneratorRuns.UnbalancedUses | idgen/idgen.go:72-82 | With distinct keys an unbalanced add uses one salt. |
| GeneratorRuns.NeverRetries | idgen/idgen_test.go:49-55 | With distinct keys and no wrap every call of a run returns, and without errors the salt counter moves by twice the balanced adds plus the unbalanced adds, whatever removals come between. |
| GeneratorRuns.EmissionSalts | idgen/idgen_test.go:31-56 | With distinct keys and no errors, emission i of a seed is the identity of salt 2i + 1 or 2i + 2. |
| Iteration.IterateSplit | idgen/idgen.go:58-67 | Repeating a step a + n times is repeating it a times and then n times, for any step, including when one of them does not return. |
| GeneratorRuns.AddManySplit | idgen/idgen_test.go:58-81 | Adding a and then n identities is adding a + n: from offset a the emissions are positions a, a + 1, ... of the sequence from offset 0. |
| GeneratorRuns.FleetIsOneRun | idgen/idgen.go:58-67 | Hydras with consecutive offset ranges together emit exactly one generator's run. |
| GeneratorRuns.EmissionsDistinct | idgen/idgen.go:87-119 | Without removals a generator never returns an identity whose key it holds or has returned before. |
| GeneratorRuns.FleetDistinct | idgen/idgen.go:58-67 | The identities of such a fleet have pairwise different trie keys. |
| Generators.BalancedIdentityGenerator.FromSeed | idgen/idgen.go:58-67 | The generator starts in the state after idOffset balanced adds from empty; a negative offset adds nothing. |
| Generators.BalancedIdentityGenerator.AddUnbalanced | idgen/idgen.go:72-82 | State and result are those of the abstract unbalanced add; the trie stays sound and the count exact. |
| Generators.BalancedIdentityGenerator.AddBalanced | idgen/idgen.go:87-107 | State and result are those of the abstract balanced add, failed draws included. |
| Generators.BalancedIdentityGenerator.GenUniqueID | idgen/idgen.go:109-119 | The loop ends at the first settling salt, leaves the trie structurally as it was after any number of rejected candidates, and reports where the accepted one would rest. |
| Generators.BalancedIdentityGenerator.Probe | idgen/idgen.go:114-117 | Insert and remove leave the trie structurally as it was; accepted iff absent. |
| Generators.BalancedIdentityGenerator.GenID | idgen/idgen.go:147-163 | The counter advances by one, from 0xFFFFFFFF to 0, also when derivation fails. |
| Generators.BalancedIdentityGenerator.PrivKeyToTrieKey | idgen/idgen.go:165-174 | A key results exactly if there is an identifier; it is as long, and its i-th bit is the identifier's i-th most significant bit. |
| Generators.BalancedIdentityGenerator.Remove | idgen/idgen.go:121-133 | Exactly the key of the identity is gone, uncounted iff it was stored; an error changes nothing. |
| Generators.BalancedIdentityGenerator.Count | idgen/idgen.go:135-139 | The number of stored keys. |
| Generators.BalancedIdentityGenerator.Depth | idgen/idgen.go:141-145 | One more than the longest common prefix of two stored keys (0 for at most one), below 256, with at most 2^depth keys stored. |
| Cleaning.WithoutCounts | idgen/cleaning.go:47-53 | The filter drops every occurrence of the identity and nothing else. |
| Cleaning.CleaningIDGenerator.AddBalanced | idgen/cleaning.go:27-36 | The identity is remembered iff the add succeeded. |
| Cleaning.CleaningIDGenerator.Remove | idgen/cleaning.go:40-55 | The identity is forgotten only if its removal succeeded; the others keep their order. |
| Cleaning.CleaningIDGenerator.Kept | idgen/cleaning.go:47-52 | The loop computes the memory without the identity. |
| Cleaning.CleaningIDGenerator.Clean | idgen/cleaning.go:59-71 | Every remembered identity is removed in order, whatever fails, and the memory is empty afterwards. |
| Cleaning.RemoveAllTakes | idgen/cleaning.go:59-71 | Removing a list of identities takes exactly their trie keys away, and fails exactly if one of them has no identifier; the others still go. |
| Cleaning.RunRemembers | idgen/cleaning.go:27-55 | After any adds and removals through the client the generator holds what it held before plus exactly the remembered keys. |
| Cleaning.CleanLeavesNoTrace | idgen/cleaning.go:57-71 | Whatever a client adds and gives back, cleaning succeeds and restores the generator's set of keys, hence its trie. |
| Ownership.OwnersInjective | idgen/idgen.go:147-163 | Different identities handed out by one server have different trie keys while the salts do not wrap. |
| Ownership.LocalKeepsLedger | idgen/delegated.go:31-85 | Requests, deliveries, losses, abandoned calls and the steps of a clean keep the ledger of who holds which identity. |
| Ownership.IssueStores | httpapi/httpapi.go:179-198 | Serving an add stores exactly one identity never handed out before, or nothing. |
| Ownership.WithdrawUnstores | httpapi/httpapi.go:200-230 | Serving a removal takes exactly that identity off the server. |
| Ownership.StepKeepsInv | idgen/delegated.go:31-85 | Every enabled step of clients, network and server can be taken (no candidate search runs forever) and keeps the whole invariant. |
| Ownership.RunKeepsInv | idgen/cleaning.go:27-71 | So does every run. |
| Ownership.CleanedServer | idgen/cleaning.go:57-71 | With all clients clean and no call under way the server holds its own keys and at most the orphaned ones besides; if no step of the run lost or abandoned anything, exactly its own. |
| Orphans.LostForGood | idgen/delegated.go:31-85 | In every run an orphan stays one: no client remembers it or can still receive it. |
| Orphans.ReplyDeliverable | idgen/cleaning.go:27-36 | A key counted as on its way is in a reply that can be delivered at once, or when the client's running clean is over. |
| Orphans.EachKeyInOnePlace | idgen/cleaning.go:27-71 | In every run each key on the server belongs to exactly one identity, which is in exactly one place: the server's own, in a client's memory, in a deliverable reply, or orphaned for good. |
| Orphans.OwnershipAlways | idgen/cleaning.go:27-71 | In every run, whatever is lost: client memories are pairwise disjoint; each key on the server is its own, remembered by a client, on its way to one that waits for it, or orphaned, and a key is orphaned only if a step of the run lost or abandoned the reply with it or a clean's removal of it, or answered an abandoned add with it; no client takes away one of the server's own. |
| Orphans.LostExactly | idgen/delegated.go:31-85 | An identity is orphaned only by such a step, and once no clean is running, by every such step. |
| Orphans.CleanAsksForAll | idgen/cleaning.go:59-71 | A clean forgets its keys only after it has asked for the removal of each of them, in order, whatever was lost on the way. |
| Orphans.RememberedWasAsked | idgen/delegated.go:31-59 | A client remembers an identity only if it sent a request for one and an answer to that request was delivered. |
| Lossless.DeliveryKeepsHeld | idgen/cleaning.go:27-55 | A reply delivered in time: a new identity remembered is on the server, a removed one is forgotten, other removals under way stay known. |
| Lossless.RunKeepsMemoryHeld | idgen/cleaning.go:27-71 | While nothing is lost, whatever a client remembers is on the server unless its removal has been served and the reply is on the way, or the running clean has passed it. |
| Lossless.QuietServer | idgen/cleaning.go:27-71 | When no step lost or abandoned anything and all is at rest, the server's keys are exactly its own and those its clients remember. |
| TimeCaches.IdempotentTimeCache.Add | providers/finder.go:192-200 | A present key keeps its time; an absent one gets the current time; entries younger than the span survive. |
| Finder.StepKeepsInv | providers/finder.go:82-176 | Every step of callers, workers and the metrics loop keeps single flight, the exactness of pending up to the lock holder's window, the clear cache, back-off and conservation. |
| Finder.SingleFlightAlways | providers/finder.go:82-119 | In every interleaving no key is queued or running twice; whenever the lock is free pending is exactly those keys; pending, and every value published of it, is at most queue size plus workers. |
| Finder.BackOffAlways | providers/finder.go:90-93 | In every interleaving each lookup recorded as failed was entered in the cache first, after its request; no request for its key enters the queue within the ttl of that failure; and a failure always finds the key absent from the cache, so the stored time is the failure's. |
| Finder.OutcomeFollowsEmits | providers/finder.go:161-175 | A lookup is recorded as a success exactly if its worker has emitted a provider since it took the request, and with how many it has. |
| Finder.FirstInFirstOut | providers/finder.go:95-115 | Workers begin requests in the order in which Find made them, and those not begun are the queue. |
| Finder.PublishedIsInFlight | providers/finder.go:128-132 | The value published as pending is the number of keys queued or with workers. |
| Finder.ConservedAlways | providers/finder.go:82-176 | Find calls are skips plus failed-cached plus discarded plus enqueued; enqueued are queued plus running-unrecorded plus succeeded plus failed; failed is recorded exactly when no provider was emitted. |
| Finder.FindOutcomes | providers/finder.go:82-102 | In every reachable state: skipped only if the key is in flight, failed-cached only after a failure of the key, discarded only if the key is neither in flight nor cached and at least as many keys are pending as the queue holds, enqueued only if neither in flight nor cached. |
| Finder.PendingBounded | providers/finder.go:128-135 | The exact pending set fits in the queue and the workers' hands. |
| Bootstrap.StepKeepsInv | head/head.go:223-276 | Every step of heads and bootstrap goroutines keeps the token count and every channel's history. |
| Bootstrap.LimiterAlways | head/head.go:225-273 | For any heads and peers: at most the limiter's capacity of heads are between acquire and release; tokens are those heads plus the ones cancelled there; a release never blocks. |
| Bootstrap.ChannelAlways | head/head.go:234-275 | Each status channel carries at most M errors, then at most one Done and none if M is 0, then at most one close and nothing after it. A peer counts as connected only if a step connected it, as reported only if it failed and its error was sent; with Done on the channel the errors on it are as many as the failed connections of the run, and all other peers were connected. |
| Bootstrap.CancelledStops | head/head.go:258-269 | A head whose peers are over only after the cancellation neither announces Done nor closes its channel. |
| ProviderTable.DynamoDBProviderStore.constructor | providers/ddb.go:43-53 | The store takes a fixed placeholder for its own peer ID, whatever it is given. |
| ProviderTable.DynamoDBProviderStore.AddProvider | providers/ddb.go:55-83 | A row is written only if key and second are free, a collision is no error, addresses are learned unless the provider is the store itself. |
| ProviderTable.OwnAddresses | providers/ddb.go:43-58 | Adding a host teaches its store none of the host's own addresses if and only if its ID is the placeholder or all of them are known already. |
| ProviderTable.OwnAddressGetsIn | providers/ddb.go:43-58 | A host with any other name and one address unknown to the store: the address gets in. |
| ProviderTable.RecordedIffFirstOfSecond | providers/ddb.go:60-81 | Over any adds at any times, the provider on record for an add's second is that of the first add for the key in that second; a provider new to the key is recorded if and only if no add for the key came earlier in its second. |
| ProviderTable.SecondPutKept | providers/ddb.go:60-81 | Of two different providers put into free rows of one key, the second is kept if and only if the whole seconds of their times differ. |
| ProviderTable.MillisecondsApart | README.md:202 | Two adds 999 milliseconds apart leave only the first provider, so a put is not turned away for the same millisecond alone. |
| ProviderTable.SecondsApart | providers/ddb.go:60-81 | Two adds one second apart are both recorded. |
| ProviderTable.LearnedOthers | providers/ddb.go:56-58 | Learning a provider's addresses leaves those of every other peer alone. |
| ProviderTable.FirstWriteWins | providers/ddb.go:60-81 | Of any writes, the first for a key and second is the one kept. |
| ProviderTable.OnlyWritten | providers/ddb.go:60-81 | The table holds no row that was not written. |
| ProviderTable.DedupeFirsts | providers/ddb.go:88-90 | Deduplication keeps each element once, in the order of first occurrences. |
| ProviderTable.RowsReadFew | providers/ddb.go:86-136 | With pages within their limits a read consumes at most QueryLimit rows. |
| ProviderTable.ReadConcatenates | providers/ddb.go:93-136 | For any pages, each asked for with the rows still wanted, the read stops at the first that is final or reaches the limit, and its rows are the concatenation of the pages. |
| ProviderTable.ReadFails | providers/ddb.go:107-119 | A failed query or a malformed row after any pages fails the whole read. |
| ProviderTable.DynamoDBProviderStore.GetProviders | providers/ddb.go:85-145 | The page loop terminates; an error or a malformed row fails the read; otherwise the result is the first-occurrence dedupe of the rows read, in order, each provider with exactly the addresses the peerstore has for it. |
| ProviderTable.AddedIsReadFirst | providers/ddb.go:55-145 | A provider added in a second newer than all on record is the first one read back, and unless it has the store's own ID the addresses it was added with come with it. |
| ProviderTable.DynamoDBProviderStore.Collect | providers/ddb.go:110-128 | One page: fails iff a row is malformed, else continues the dedupe. |
| ProviderTable.ReadReturnsFirstPage | providers/ddb.go:92-136 | A read of any table returns the distinct providers of its first page, since every page starts at the top. |
| ProviderTable.ReadMeetsPromise | README.md:195 | The read returns the distinct providers of the newest QueryLimit rows if and only if the rows the first page leaves out name no provider beyond it. |
| ProviderTable.SecondPageRepeatsFirst | providers/ddb.go:92-136 | Two rows, a page of one and a limit of two: the second provider is never returned. |
| ProviderTable.NewestProviders | providers/ddb.go:85-145 | If the first page reaches the limit or the end, a table made by conditional writes is read as the distinct providers of the newest QueryLimit rows, newest first, each row with the provider written first for its second. |
| Merge.MergeMultiaddrs | providers/combined.go:94-104 | Each address string once, no other strings, and only addresses that were given. |
| Merge.Group | providers/combined.go:80-84 | One entry per ID mentioned, with each address string reported for it once. |
| Merge.MergeAddrInfos | providers/combined.go:80-92 | Each valid ID once, with exactly the union of the address strings reported for it. |
| Merge.GetProviders | providers/combined.go:51-78 | The same for the replies without an error, in the order in which they arrive. |
| Merge.FlattenMembers | providers/combined.go:59-68 | What is merged is what some backend answered without an error. |
| Merge.ArrivalOrderIrrelevant | providers/combined.go:51-69 | Any two orders of arrival of the same replies give the same IDs with the same address strings. |

## Left out

- Generators.BalancedIdentityGenerator.AddBalanced: requires `Live`, without which the call never returns (`SearchEndsIffLive`); `DrawsSuffice` and `NeverRetries` prove `Live` from distinct keys.
- Generators.BalancedIdentityGenerator.FromSeed: requires `Sane`; for a seed that derives twins the code can panic, as `Tries.InsertCanonical` shows.
- ProviderTable.DynamoDBProviderStore.GetProviders: the 32-bit conversion of the page length and of the limit is not modelled; pages are far shorter.
- XorTries.XorTrie.Insert: a key is a value here; that the trie keeps the caller's slice is not modelled. The array `branch [2]` is a pair of fields.
- Key derivation (HKDF, Ed25519, SHA-256, peer IDs, kbucket): one deterministic function; distinctness of derived keys is a hypothesis where it is needed.
- The generator's mutex: each call is one step.
- "Almost-perfectly balanced" (idgen/idgen.go:36-37): a probabilistic claim; the greedy facts are proved instead.
- Finder, bootstrap and ownership are state machines on values, so update in place and aliasing are not captured there; the time cache, generator and cleaning client are classes.
- HTTP, JSON and base64 in `idgen/delegated.go` and `httpapi/httpapi.go`: only request, reply, refusal and loss remain. Every request reaches the server at most once.
- Seeds of different servers, and a restart of the server: one server from an empty generator.
- Merge.GetProviders: the error half of the result, since the result of `multierror.Append` is discarded in the source and what an empty collection of errors means is up to that package; the fan-out of AddProvider for the same reason.
- Continuation across pages in the table: the code does not do it.
- The DHT, datastores, peerstore (address expiry and duplicates), AWS SDK and time cache internals: stated contracts only (unique key and second, descending order, bounded pages, entries kept for the ttl).
- The validity of peer IDs: a predicate given to the merge.
- Metrics other than the finder's counts and the pending gauge; CountProviderRecords; the caching and delegated provider stores.
- User interface, flags, Kubernetes files, `utils/`, `periodictasks/`: plumbing.
- Liveness, fairness, timeouts and panics inside callbacks.
