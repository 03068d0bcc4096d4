/**
 The asynchronous provider finder as interleaved steps. One mutex guards `pending`;
 the state names its holder and how far the holder has come, so a worker can take a
 request, fail it and wait for the lock while a caller is still between its send and
 its update of `pending`.
 */
module Finder {
  import opened Wrappers
  import opened Peers
  import opened TimeCaches

  /** How far a Find call that holds the lock has come. */
  datatype FindStage = Entered | NotPending | NotCached | Sent | Finished

  datatype Lock =
    | Free
    | Finding(key: Key, stage: FindStage)
    | Deleting(worker: nat, deleted: bool)
    | Publishing

  /** A worker and the request it has taken off the queue. */
  datatype Worker =
    | Idle
    | Looking(key: Key, emitted: nat)
    | Cached(key: Key, emitted: nat)
    | Returning(key: Key)
    | Stopped
  {
    predicate Busy() {
      Looking? || Cached? || Returning?
    }

    predicate Unrecorded() {
      Looking? || Cached?
    }
  }

  datatype Event =
    | Enqueued(key: Key, at: Time)
    | Failed(key: Key, at: Time)
    | Recorded(key: Key, success: bool, emitted: nat)
    | Gauge(pending: nat)

  datatype Counts = Counts(finds: nat, skipped: nat, failedCached: nat, discarded: nat,
                           enqueued: nat, succeeded: nat, failed: nat)

  datatype Config = Config(queueSize: nat, ttl: nat)

  datatype State = State(
    lock: Lock,
    queue: seq<Key>,
    pending: set<Key>,
    cache: map<Key, Time>,
    workers: seq<Worker>,
    now: Time,
    counts: Counts,
    log: seq<Event>)

  datatype Step =
    | Acquire(key: Key)
    | CheckPending
    | CheckCache
    | Send
    | HandOver(w: nat)
    | Discard
    | MarkPending
    | Release
    | Take(w: nat)
    | Emit(w: nat)
    | CacheFailure(w: nat)
    | RecordFailed(w: nat)
    | RecordSucceeded(w: nat)
    | AcquireToDelete(w: nat)
    | Delete
    | ReleaseDeleter
    | Stop(w: nat)
    | Publish
    | ReleasePublisher
    | Expire(key: Key)
    | Tick

  function Initial(workers: nat): State {
    State(Free, [], {}, map[], seq(workers, _ => Idle), 0, Counts(0, 0, 0, 0, 0, 0, 0), [])
  }

  predicate At(s: State, stage: FindStage) {
    s.lock.Finding? && s.lock.stage == stage
  }

  predicate Enabled(c: Config, s: State, step: Step) {
    match step
    case Acquire(_) => s.lock.Free?
    case CheckPending => At(s, Entered)
    case CheckCache => At(s, NotPending)
    case Send => At(s, NotCached) && |s.queue| < c.queueSize
    // a send to a channel with a waiting receiver goes straight to the receiver
    case HandOver(w) => At(s, NotCached) && s.queue == [] && w < |s.workers| && s.workers[w].Idle?
    case Discard => At(s, NotCached) && |s.queue| == c.queueSize
    case MarkPending => At(s, Sent)
    case Release => At(s, Finished)
    case Take(w) => s.queue != [] && w < |s.workers| && s.workers[w].Idle?
    case Emit(w) => w < |s.workers| && s.workers[w].Looking?
    case CacheFailure(w) => w < |s.workers| && s.workers[w].Looking? && s.workers[w].emitted == 0
    case RecordFailed(w) => w < |s.workers| && s.workers[w].Cached?
    case RecordSucceeded(w) => w < |s.workers| && s.workers[w].Looking? && s.workers[w].emitted > 0
    case AcquireToDelete(w) => s.lock.Free? && w < |s.workers| && s.workers[w].Returning?
    case Delete => s.lock.Deleting? && !s.lock.deleted && s.lock.worker < |s.workers| && s.workers[s.lock.worker].Returning?
    case ReleaseDeleter => s.lock.Deleting? && s.lock.deleted && s.lock.worker < |s.workers|
    case Stop(w) => w < |s.workers| && s.workers[w].Idle?
    case Publish => s.lock.Free?
    case ReleasePublisher => s.lock.Publishing?
    case Expire(k) => k in s.cache && s.cache[k] + c.ttl <= s.now
    case Tick => true
  }

  function Apply(c: Config, s: State, step: Step): State
    requires Enabled(c, s, step)
  {
    var n := s.counts;
    match step
    case Acquire(k) =>
      s.(lock := Finding(k, Entered), counts := n.(finds := n.finds + 1))
    case CheckPending =>
      if s.lock.key in s.pending
      then s.(lock := Finding(s.lock.key, Finished), counts := n.(skipped := n.skipped + 1))
      else s.(lock := Finding(s.lock.key, NotPending))
    case CheckCache =>
      if s.lock.key in s.cache
      then s.(lock := Finding(s.lock.key, Finished), counts := n.(failedCached := n.failedCached + 1))
      else s.(lock := Finding(s.lock.key, NotCached))
    case Send =>
      s.(queue := s.queue + [s.lock.key], lock := Finding(s.lock.key, Sent),
         counts := n.(enqueued := n.enqueued + 1), log := s.log + [Enqueued(s.lock.key, s.now)])
    case HandOver(w) =>
      s.(workers := s.workers[w := Looking(s.lock.key, 0)], lock := Finding(s.lock.key, Sent),
         counts := n.(enqueued := n.enqueued + 1), log := s.log + [Enqueued(s.lock.key, s.now)])
    case Discard =>
      s.(lock := Finding(s.lock.key, Finished), counts := n.(discarded := n.discarded + 1))
    case MarkPending =>
      s.(pending := s.pending + {s.lock.key}, lock := Finding(s.lock.key, Finished))
    case Release =>
      s.(lock := Free)
    case Take(w) =>
      s.(queue := s.queue[1..], workers := s.workers[w := Looking(s.queue[0], 0)])
    case Emit(w) =>
      s.(workers := s.workers[w := Looking(s.workers[w].key, s.workers[w].emitted + 1)])
    case CacheFailure(w) =>
      var k := s.workers[w].key;
      s.(cache := Added(s.cache, k, s.now), workers := s.workers[w := Cached(k, s.workers[w].emitted)],
         log := s.log + [Event.Failed(k, s.now)])
    case RecordFailed(w) =>
      var k := s.workers[w].key;
      s.(workers := s.workers[w := Returning(k)], counts := n.(failed := n.failed + 1),
         log := s.log + [Recorded(k, false, s.workers[w].emitted)])
    case RecordSucceeded(w) =>
      var k := s.workers[w].key;
      s.(workers := s.workers[w := Returning(k)], counts := n.(succeeded := n.succeeded + 1),
         log := s.log + [Recorded(k, true, s.workers[w].emitted)])
    case AcquireToDelete(w) =>
      s.(lock := Deleting(w, false))
    case Delete =>
      s.(pending := s.pending - {s.workers[s.lock.worker].key}, lock := Deleting(s.lock.worker, true))
    case ReleaseDeleter =>
      s.(workers := s.workers[s.lock.worker := Idle], lock := Free)
    case Stop(w) =>
      s.(workers := s.workers[w := Stopped])
    case Publish =>
      s.(lock := Publishing, log := s.log + [Gauge(|s.pending|)])
    case ReleasePublisher =>
      s.(lock := Free)
    case Expire(k) =>
      s.(cache := s.cache - {k})
    case Tick =>
      s.(now := s.now + 1)
  }

  // ---- Runs ------------------------------------------------------------------

  predicate CanRun(c: Config, s: State, steps: seq<Step>)
    decreases |steps|
  {
    steps != [] ==> Enabled(c, s, steps[0]) && CanRun(c, Apply(c, s, steps[0]), steps[1..])
  }

  function Run(c: Config, s: State, steps: seq<Step>): State
    requires CanRun(c, s, steps)
    decreases |steps|
  {
    if steps == [] then s else Run(c, Apply(c, s, steps[0]), steps[1..])
  }

  // ---- The invariant ---------------------------------------------------------

  /** The request for k is queued or with a worker that has not finished with it. */
  predicate InFlight(s: State, k: Key) {
    k in s.queue || exists w | 0 <= w < |s.workers| :: s.workers[w].Busy() && s.workers[w].key == k
  }

  predicate QueueDistinct(s: State) {
    forall i, j | 0 <= i < j < |s.queue| :: s.queue[i] != s.queue[j]
  }

  predicate WorkersDistinct(s: State) {
    forall v, w | 0 <= v < w < |s.workers| && s.workers[v].Busy() && s.workers[w].Busy() ::
      s.workers[v].key != s.workers[w].key
  }

  predicate QueueApart(s: State) {
    forall w | 0 <= w < |s.workers| && s.workers[w].Busy() :: s.workers[w].key !in s.queue
  }

  /** No key is in flight twice. */
  predicate SingleFlight(s: State) {
    QueueDistinct(s) && WorkersDistinct(s) && QueueApart(s)
  }

  /** What the lock holder has yet to bring in line: sent but not marked, or deleted but still running. */
  function Window(s: State): set<Key> {
    match s.lock
    case Finding(k, Sent) => {k}
    case Deleting(w, true) => if w < |s.workers| && s.workers[w].Returning? then {s.workers[w].key} else {}
    case _ => {}
  }

  /** `pending` is the keys in flight, up to the holder's window. */
  ghost predicate PendingExact(s: State) {
    && (forall k :: k in s.pending || k in Window(s) <==> InFlight(s, k))
    && s.pending !! Window(s)
  }

  predicate LockSane(s: State) {
    match s.lock
    case Finding(k, NotPending) => k !in s.pending
    case Finding(k, NotCached) => k !in s.pending && k !in s.cache
    case Deleting(w, _) => w < |s.workers| && s.workers[w].Returning?
    case _ => true
  }

  /** A key that is queued or being looked up is not in the negative cache. */
  predicate CacheClear(s: State) {
    && (forall k | k in s.queue :: k !in s.cache)
    && (forall w | 0 <= w < |s.workers| && s.workers[w].Looking? :: s.workers[w].key !in s.cache)
  }

  /** A failure less than ttl ago is in the cache with the time it happened. */
  predicate FailuresCached(c: Config, s: State) {
    forall i | 0 <= i < |s.log| && s.log[i].Failed? ::
      var (k, t) := (s.log[i].key, s.log[i].at);
      t <= s.now && (t + c.ttl <= s.now || (k in s.cache && s.cache[k] == t))
  }

  /** The cache holds nothing but failures. */
  predicate CacheFromFailures(s: State) {
    forall k | k in s.cache :: Event.Failed(k, s.cache[k]) in s.log
  }

  /** No request for a key enters the queue within ttl of a failure of that key. */
  predicate BackOff(c: Config, log: seq<Event>) {
    forall i, j | 0 <= i < j < |log| && log[i].Failed? && log[j].Enqueued? && log[i].key == log[j].key ::
      log[i].at + c.ttl <= log[j].at
  }

  predicate RecordsHonest(s: State) {
    && (forall i | 0 <= i < |s.log| && s.log[i].Recorded? :: s.log[i].success <==> s.log[i].emitted > 0)
    && (forall w | 0 <= w < |s.workers| && s.workers[w].Cached? :: s.workers[w].emitted == 0)
  }

  function Unrecorded(workers: seq<Worker>): nat {
    if workers == [] then 0
    else (if workers[0].Unrecorded() then 1 else 0) + Unrecorded(workers[1..])
  }

  /** Every Find and every request is accounted for. */
  predicate Conserved(s: State) {
    var n := s.counts;
    && n.finds == n.skipped + n.failedCached + n.discarded + n.enqueued
                  + (if At(s, Entered) || At(s, NotPending) || At(s, NotCached) then 1 else 0)
    && n.enqueued == |s.queue| + Unrecorded(s.workers) + n.succeeded + n.failed
  }

  predicate GaugeBounded(c: Config, s: State) {
    forall i | 0 <= i < |s.log| && s.log[i].Gauge? :: s.log[i].pending <= c.queueSize + |s.workers|
  }

  ghost predicate Inv(c: Config, s: State) {
    && |s.queue| <= c.queueSize
    && LockSane(s)
    && SingleFlight(s)
    && PendingExact(s)
    && CacheClear(s)
    && FailuresCached(c, s)
    && CacheFromFailures(s)
    && BackOff(c, s.log)
    && RecordsHonest(s)
    && Conserved(s)
    && GaugeBounded(c, s)
  }

  // ---- Every step keeps it ---------------------------------------------------

  lemma KeepsQueueDistinct(c: Config, s: State, step: Step)
    requires Inv(c, s) && Enabled(c, s, step)
    ensures QueueDistinct(Apply(c, s, step)) && QueueApart(Apply(c, s, step))
  {
  }

  lemma KeepsWorkersDistinct(c: Config, s: State, step: Step)
    requires Inv(c, s) && Enabled(c, s, step)
    ensures WorkersDistinct(Apply(c, s, step))
  {
  }

  lemma KeepsLockSane(c: Config, s: State, step: Step)
    requires Inv(c, s) && Enabled(c, s, step)
    ensures LockSane(Apply(c, s, step)) && |Apply(c, s, step).queue| <= c.queueSize
  {
  }

  /** The worker whose state a step changes. */
  function Moved(s: State, step: Step): Option<nat> {
    match step
    case HandOver(w) => Some(w)
    case Take(w) => Some(w)
    case Emit(w) => Some(w)
    case CacheFailure(w) => Some(w)
    case RecordFailed(w) => Some(w)
    case RecordSucceeded(w) => Some(w)
    case ReleaseDeleter => if s.lock.Deleting? then Some(s.lock.worker) else None
    case Stop(w) => Some(w)
    case _ => None
  }

  lemma OthersStay(c: Config, s: State, step: Step)
    requires Enabled(c, s, step)
    ensures |Apply(c, s, step).workers| == |s.workers|
    ensures forall v | 0 <= v < |s.workers| && Some(v) != Moved(s, step) ::
              Apply(c, s, step).workers[v] == s.workers[v]
  {
  }

  lemma WorkerKeepsPending(c: Config, s: State, step: Step)
    requires Inv(c, s) && Enabled(c, s, step) && Moved(s, step).Some?
    ensures PendingExact(Apply(c, s, step))
  {
    var s' := Apply(c, s, step);
    var w := Moved(s, step).value;
    OthersStay(c, s, step);
    forall k
      ensures k in s'.pending || k in Window(s') <==> InFlight(s', k)
    {
      assert s'.workers[w].Busy() || !s'.workers[w].Busy();
    }
  }

  lemma HolderKeepsPending(c: Config, s: State, step: Step)
    requires Inv(c, s) && Enabled(c, s, step) && Moved(s, step).None?
    ensures PendingExact(Apply(c, s, step))
  {
    var s' := Apply(c, s, step);
    assert s'.workers == s.workers;
    forall k
      ensures k in s'.pending || k in Window(s') <==> InFlight(s', k)
    {
      assert InFlight(s', k) <==> InFlight(s, k) || (step.Send? && k == s.lock.key);
    }
  }

  lemma KeepsCacheClear(c: Config, s: State, step: Step)
    requires Inv(c, s) && Enabled(c, s, step)
    ensures CacheClear(Apply(c, s, step))
  {
  }

  lemma KeepsCacheFromFailures(c: Config, s: State, step: Step)
    requires Inv(c, s) && Enabled(c, s, step)
    ensures CacheFromFailures(Apply(c, s, step))
  {
    var s' := Apply(c, s, step);
    assert s.log <= s'.log;
    assert step.CacheFailure? ==> s'.log[|s.log|] in s'.log;
    forall k | k in s'.cache && k in s.cache && s'.cache[k] == s.cache[k]
      ensures Event.Failed(k, s.cache[k]) in s'.log
    {
    }
  }

  lemma KeepsBackOff(c: Config, s: State, step: Step)
    requires Inv(c, s) && Enabled(c, s, step)
    ensures BackOff(c, Apply(c, s, step).log)
  {
  }

  lemma KeepsFailuresCached(c: Config, s: State, step: Step)
    requires Inv(c, s) && Enabled(c, s, step)
    ensures FailuresCached(c, Apply(c, s, step))
  {
  }

  lemma {:induction false} UnrecordedUpdate(ws: seq<Worker>, w: nat, x: Worker)
    requires w < |ws|
    ensures Unrecorded(ws[w := x]) + (if ws[w].Unrecorded() then 1 else 0) ==
            Unrecorded(ws) + (if x.Unrecorded() then 1 else 0)
    decreases |ws|
  {
    if w > 0 {
      assert ws[w := x][1..] == ws[1..][w - 1 := x];
      UnrecordedUpdate(ws[1..], w - 1, x);
    } else {
      assert ws[w := x][1..] == ws[1..];
    }
  }

  lemma KeepsConserved(c: Config, s: State, step: Step)
    requires Inv(c, s) && Enabled(c, s, step)
    ensures Conserved(Apply(c, s, step))
  {
    if Moved(s, step).Some? {
      var w := Moved(s, step).value;
      var x := Apply(c, s, step).workers[w];
      assert Apply(c, s, step).workers == s.workers[w := x];
      UnrecordedUpdate(s.workers, w, x);
    }
  }

  lemma KeepsRecords(c: Config, s: State, step: Step)
    requires Inv(c, s) && Enabled(c, s, step)
    ensures RecordsHonest(Apply(c, s, step))
  {
  }

  // ---- How much can be pending -----------------------------------------------

  function QueuedKeys(queue: seq<Key>): set<Key> {
    set k | k in queue
  }

  function BusyKeys(workers: seq<Worker>): set<Key> {
    if workers == [] then {}
    else (if workers[0].Busy() then {workers[0].key} else {}) + BusyKeys(workers[1..])
  }

  lemma {:induction false} QueuedKeysFew(queue: seq<Key>)
    ensures |QueuedKeys(queue)| <= |queue|
    decreases |queue|
  {
    if queue != [] {
      QueuedKeysFew(queue[1..]);
      assert QueuedKeys(queue) == {queue[0]} + QueuedKeys(queue[1..]);
    }
  }

  lemma {:induction false} BusyKeysFew(workers: seq<Worker>)
    ensures |BusyKeys(workers)| <= |workers|
    ensures forall w | 0 <= w < |workers| && workers[w].Busy() :: workers[w].key in BusyKeys(workers)
    decreases |workers|
  {
    if workers != [] {
      BusyKeysFew(workers[1..]);
      forall w | 0 <= w < |workers| && workers[w].Busy()
        ensures workers[w].key in BusyKeys(workers)
      {
        if w > 0 {
          assert workers[1..][w - 1] == workers[w];
        }
      }
    }
  }

  /** At most the queue and the workers' hands full. */
  lemma PendingBounded(c: Config, s: State)
    requires |s.queue| <= c.queueSize && PendingExact(s)
    ensures |s.pending| <= c.queueSize + |s.workers|
  {
    var Q, B := QueuedKeys(s.queue), BusyKeys(s.workers);
    QueuedKeysFew(s.queue);
    BusyKeysFew(s.workers);
    forall k | k in s.pending
      ensures k in Q + B
    {
      assert InFlight(s, k);
    }
    assert Q + B == s.pending + (Q + B - s.pending);
    assert |Q + B| == |Q| + |B| - |Q * B|;
  }

  lemma KeepsGauge(c: Config, s: State, step: Step)
    requires Inv(c, s) && Enabled(c, s, step)
    ensures GaugeBounded(c, Apply(c, s, step))
  {
    PendingBounded(c, s);
    OthersStay(c, s, step);
  }

  lemma StepKeepsInv(c: Config, s: State, step: Step)
    requires Inv(c, s) && Enabled(c, s, step)
    ensures Inv(c, Apply(c, s, step)) && |Apply(c, s, step).workers| == |s.workers|
  {
    KeepsQueueDistinct(c, s, step);
    KeepsWorkersDistinct(c, s, step);
    if Moved(s, step).Some? {
      WorkerKeepsPending(c, s, step);
    } else {
      HolderKeepsPending(c, s, step);
    }
    KeepsLockSane(c, s, step);
    KeepsCacheClear(c, s, step);
    KeepsCacheFromFailures(c, s, step);
    KeepsBackOff(c, s, step);
    KeepsFailuresCached(c, s, step);
    KeepsRecords(c, s, step);
    KeepsConserved(c, s, step);
    KeepsGauge(c, s, step);
    OthersStay(c, s, step);
  }

  // ---- What holds of every run -----------------------------------------------

  lemma {:induction false} RunKeepsInv(c: Config, s: State, steps: seq<Step>)
    requires Inv(c, s) && CanRun(c, s, steps)
    ensures Inv(c, Run(c, s, steps)) && |Run(c, s, steps).workers| == |s.workers|
    decreases |steps|
  {
    if steps != [] {
      StepKeepsInv(c, s, steps[0]);
      RunKeepsInv(c, Apply(c, s, steps[0]), steps[1..]);
    }
  }

  lemma {:induction false} NoneUnrecorded(ws: seq<Worker>)
    requires forall w | 0 <= w < |ws| :: ws[w].Idle?
    ensures Unrecorded(ws) == 0
    decreases |ws|
  {
    if ws != [] {
      NoneUnrecorded(ws[1..]);
    }
  }

  lemma RunInv(c: Config, workers: nat, steps: seq<Step>)
    requires CanRun(c, Initial(workers), steps)
    ensures Inv(c, Run(c, Initial(workers), steps)) && |Run(c, Initial(workers), steps).workers| == workers
  {
    NoneUnrecorded(Initial(workers).workers);
    RunKeepsInv(c, Initial(workers), steps);
  }

  /**
   Single flight over every interleaving: no key is queued or running twice, `pending`
   is exactly the keys in flight whenever the lock is free, and it never outgrows the
   queue and the workers.
   */
  lemma SingleFlightAlways(c: Config, workers: nat, steps: seq<Step>)
    requires CanRun(c, Initial(workers), steps)
    ensures var s := Run(c, Initial(workers), steps);
            && SingleFlight(s)
            && (s.lock.Free? ==> forall k :: k in s.pending <==> InFlight(s, k))
            && |s.pending| <= c.queueSize + workers
            && forall i | 0 <= i < |s.log| && s.log[i].Gauge? :: s.log[i].pending <= c.queueSize + workers
  {
    RunInv(c, workers, steps);
    PendingBounded(c, Run(c, Initial(workers), steps));
  }

  // ---- Recorded failures -----------------------------------------------------

  /** Event f of the log is a failure of the key, and no request for the key was queued from there to event n. */
  predicate FailedAt(log: seq<Event>, f: nat, n: nat, k: Key) {
    && f < n <= |log| && log[f].Failed? && log[f].key == k
    && forall m | f < m < n :: !(log[m].Enqueued? && log[m].key == k)
  }

  /** A failure of the key was cached after its last request before event n. */
  ghost predicate FailedSince(log: seq<Event>, n: nat, k: Key) {
    exists f: nat :: FailedAt(log, f, n, k)
  }

  /** Each lookup recorded as failed, or about to be, has its failure cached first. */
  ghost predicate FailuresFirst(s: State) {
    && (forall w | 0 <= w < |s.workers| && s.workers[w].Cached? :: FailedSince(s.log, |s.log|, s.workers[w].key))
    && (forall j | 0 <= j < |s.log| && s.log[j].Recorded? && !s.log[j].success :: FailedSince(s.log, j, s.log[j].key))
  }

  lemma FailedSinceGrows(log: seq<Event>, x: Event, n: nat, k: Key)
    requires FailedSince(log, n, k)
    ensures FailedSince(log + [x], n, k)
    ensures n == |log| && !(x.Enqueued? && x.key == k) ==> FailedSince(log + [x], n + 1, k)
  {
    var f: nat :| FailedAt(log, f, n, k);
    assert FailedAt(log + [x], f, n, k);
    assert n == |log| && !(x.Enqueued? && x.key == k) ==> FailedAt(log + [x], f, n + 1, k);
  }

  /** What a step logs, if anything. */
  lemma LogGrows(c: Config, s: State, step: Step)
    requires Inv(c, s) && Enabled(c, s, step)
    ensures var s' := Apply(c, s, step);
            s'.log == s.log || (|s'.log| == |s.log| + 1 && s'.log == s.log + [s'.log[|s.log|]])
    ensures var s' := Apply(c, s, step);
            s'.log != s.log && s'.log[|s.log|].Enqueued? ==> !InFlight(s, s'.log[|s.log|].key)
  {
  }

  /** A worker about to record a failure has cached it since the request. */
  lemma CachedKeepsFailure(c: Config, s: State, step: Step, w: nat)
    requires Inv(c, s) && FailuresFirst(s) && Enabled(c, s, step)
    requires w < |s.workers| && Apply(c, s, step).workers[w].Cached?
    ensures FailedSince(Apply(c, s, step).log, |Apply(c, s, step).log|, Apply(c, s, step).workers[w].key)
  {
    var s' := Apply(c, s, step);
    LogGrows(c, s, step);
    if step == CacheFailure(w) {
      assert FailedAt(s'.log, |s.log|, |s'.log|, s'.workers[w].key);
    } else {
      OthersStay(c, s, step);
      assert s'.workers[w] == s.workers[w] && InFlight(s, s.workers[w].key);
      if s'.log != s.log {
        FailedSinceGrows(s.log, s'.log[|s.log|], |s.log|, s.workers[w].key);
      }
    }
  }

  lemma RecordedKeepsFailure(c: Config, s: State, step: Step, j: nat)
    requires Inv(c, s) && FailuresFirst(s) && Enabled(c, s, step)
    requires j < |Apply(c, s, step).log| && Apply(c, s, step).log[j].Recorded? && !Apply(c, s, step).log[j].success
    ensures FailedSince(Apply(c, s, step).log, j, Apply(c, s, step).log[j].key)
  {
    var s' := Apply(c, s, step);
    LogGrows(c, s, step);
    if s'.log != s.log {
      if j == |s.log| {
        assert step.RecordFailed? && s.workers[step.w].Cached?;
      }
      FailedSinceGrows(s.log, s'.log[|s.log|], j, s'.log[j].key);
    }
  }

  lemma StepKeepsFailures(c: Config, s: State, step: Step)
    requires Inv(c, s) && FailuresFirst(s) && Enabled(c, s, step)
    ensures FailuresFirst(Apply(c, s, step))
  {
    var s' := Apply(c, s, step);
    OthersStay(c, s, step);
    forall w | 0 <= w < |s'.workers| && s'.workers[w].Cached?
      ensures FailedSince(s'.log, |s'.log|, s'.workers[w].key)
    {
      CachedKeepsFailure(c, s, step, w);
    }
    forall j | 0 <= j < |s'.log| && s'.log[j].Recorded? && !s'.log[j].success
      ensures FailedSince(s'.log, j, s'.log[j].key)
    {
      RecordedKeepsFailure(c, s, step, j);
    }
  }

  lemma {:induction false} RunKeepsFailures(c: Config, s: State, steps: seq<Step>)
    requires Inv(c, s) && FailuresFirst(s) && CanRun(c, s, steps)
    ensures FailuresFirst(Run(c, s, steps))
    decreases |steps|
  {
    if steps != [] {
      StepKeepsInv(c, s, steps[0]);
      StepKeepsFailures(c, s, steps[0]);
      RunKeepsFailures(c, Apply(c, s, steps[0]), steps[1..]);
    }
  }

  /** A request queued after a lookup was recorded as failed is at least ttl later than the failure cached for that lookup. */
  ghost predicate RecordedBackOff(c: Config, log: seq<Event>, r: nat, e: nat) {
    r < e < |log| && log[r].Recorded? && !log[r].success && log[e].Enqueued? && log[e].key == log[r].key ==>
      exists f: nat :: FailedAt(log, f, r, log[r].key) && log[f].at + c.ttl <= log[e].at
  }

  lemma RecordedBacksOff(c: Config, s: State, r: nat, e: nat)
    requires FailuresFirst(s) && BackOff(c, s.log)
    ensures RecordedBackOff(c, s.log, r, e)
  {
    if r < e < |s.log| && s.log[r].Recorded? && !s.log[r].success && s.log[e].Enqueued? && s.log[e].key == s.log[r].key {
      var f: nat :| FailedAt(s.log, f, r, s.log[r].key);
      assert s.log[f].at + c.ttl <= s.log[e].at;
    }
  }

  /**
   Back-off over every interleaving: every lookup recorded as failed was entered in the
   cache first, after its request; after that failure the key is not queued again
   before the ttl has passed; and a failure always finds its key absent from the cache,
   so the time stored is the time of the failure.
   */
  lemma BackOffAlways(c: Config, workers: nat, steps: seq<Step>, w: nat)
    requires CanRun(c, Initial(workers), steps)
    ensures var s := Run(c, Initial(workers), steps);
            && BackOff(c, s.log)
            && (forall j | 0 <= j < |s.log| && s.log[j].Recorded? && !s.log[j].success :: FailedSince(s.log, j, s.log[j].key))
            && (forall r: nat, e: nat :: RecordedBackOff(c, s.log, r, e))
            && (Enabled(c, s, CacheFailure(w)) ==>
                  var k := s.workers[w].key;
                  k !in s.cache && Apply(c, s, CacheFailure(w)).cache[k] == s.now)
  {
    RunInv(c, workers, steps);
    RunInv(c, workers, []);
    RunKeepsFailures(c, Initial(workers), steps);
    var s := Run(c, Initial(workers), steps);
    forall r: nat, e: nat
      ensures RecordedBackOff(c, s.log, r, e)
    {
      RecordedBacksOff(c, s, r, e);
    }
  }

  // ---- Lookups and their outcomes --------------------------------------------

  /** How many providers worker w has emitted since it last took a request, acc of them before these steps. */
  function Emits(steps: seq<Step>, w: nat, acc: nat): nat {
    if steps == [] then acc
    else Emits(steps[1..], w,
               if steps[0] == Take(w) || steps[0] == HandOver(w) then 0
               else if steps[0] == Emit(w) then acc + 1
               else acc)
  }

  predicate HasEmitted(s: State, w: nat, n: nat) {
    w < |s.workers| && s.workers[w].Unrecorded() ==> s.workers[w].emitted == n
  }

  lemma {:induction false} EmitsCounted(c: Config, s: State, steps: seq<Step>, w: nat, acc: nat)
    requires CanRun(c, s, steps) && HasEmitted(s, w, acc)
    ensures HasEmitted(Run(c, s, steps), w, Emits(steps, w, acc))
    decreases |steps|
  {
    if steps != [] {
      var step := steps[0];
      OthersStay(c, s, step);
      EmitsCounted(c, Apply(c, s, step), steps[1..], w,
                   if step == Take(w) || step == HandOver(w) then 0 else if step == Emit(w) then acc + 1 else acc);
    }
  }

  /** What is about to be recorded of a lookup: a success exactly if it has emitted a provider, and how many it has. */
  lemma OutcomeFollowsEmits(c: Config, workers: nat, steps: seq<Step>, w: nat)
    requires CanRun(c, Initial(workers), steps)
    ensures var s := Run(c, Initial(workers), steps);
            var n := Emits(steps, w, 0);
            && (w < |s.workers| && s.workers[w].Looking? ==>
                  (Enabled(c, s, CacheFailure(w)) <==> n == 0) && (Enabled(c, s, RecordSucceeded(w)) <==> n > 0))
            && (Enabled(c, s, RecordSucceeded(w)) ==>
                  Apply(c, s, RecordSucceeded(w)).log == s.log + [Recorded(s.workers[w].key, true, n)])
            && (Enabled(c, s, RecordFailed(w)) ==>
                  n == 0 && Apply(c, s, RecordFailed(w)).log == s.log + [Recorded(s.workers[w].key, false, n)])
  {
    RunInv(c, workers, steps);
    EmitsCounted(c, Initial(workers), steps, w, 0);
  }

  // ---- The queue's order -----------------------------------------------------

  /** The keys of the requests in the order in which they were queued or handed over. */
  function Requested(log: seq<Event>): seq<Key> {
    if log == [] then []
    else
      var last := log[|log| - 1];
      Requested(log[..|log| - 1]) + if last.Enqueued? then [last.key] else []
  }

  /** The keys that the workers begin to look up, in order. */
  function Begun(c: Config, s: State, steps: seq<Step>): seq<Key>
    requires CanRun(c, s, steps)
    decreases |steps|
  {
    if steps == [] then []
    else
      BegunBy(c, s, steps[0]) + Begun(c, Apply(c, s, steps[0]), steps[1..])
  }

  function BegunBy(c: Config, s: State, step: Step): seq<Key>
    requires Enabled(c, s, step)
  {
    if step.Take? || step.HandOver? then [Apply(c, s, step).workers[step.w].key] else []
  }

  lemma RequestedSnoc(log: seq<Event>, x: Event)
    ensures Requested(log + [x]) == Requested(log) + if x.Enqueued? then [x.key] else []
  {
    assert (log + [x])[..|log|] == log;
  }

  /** A step moves a key from the callers to the queue, from the queue's front to a worker, or straight to a worker. */
  lemma QueueStep(c: Config, s: State, step: Step)
    requires Enabled(c, s, step)
    ensures var s' := Apply(c, s, step);
            Requested(s'.log) == Requested(s.log) + (if step.Send? || step.HandOver? then [s.lock.key] else [])
    ensures var s' := Apply(c, s, step);
            s.queue + (if step.Send? || step.HandOver? then [s.lock.key] else []) == BegunBy(c, s, step) + s'.queue
  {
    var s' := Apply(c, s, step);
    if s'.log != s.log {
      RequestedSnoc(s.log, s'.log[|s.log|]);
    }
  }

  lemma RequestedStep(c: Config, s: State, step: Step, begun: seq<Key>)
    requires Enabled(c, s, step) && Requested(s.log) == begun + s.queue
    ensures Requested(Apply(c, s, step).log) == begun + BegunBy(c, s, step) + Apply(c, s, step).queue
  {
    QueueStep(c, s, step);
    var sent := if step.Send? || step.HandOver? then [s.lock.key] else [];
    assert begun + s.queue + sent == begun + (s.queue + sent);
    assert begun + (BegunBy(c, s, step) + Apply(c, s, step).queue) == begun + BegunBy(c, s, step) + Apply(c, s, step).queue;
  }

  lemma Assoc(a: seq<Key>, b: seq<Key>, d: seq<Key>)
    ensures a + b + d == a + (b + d)
  {
  }

  /** Requests are begun in the order in which they were made, and those not begun are the queue. */
  lemma {:induction false} FirstInFirstOut(c: Config, s: State, steps: seq<Step>, begun: seq<Key>)
    requires CanRun(c, s, steps) && Requested(s.log) == begun + s.queue
    ensures Requested(Run(c, s, steps).log) == begun + Begun(c, s, steps) + Run(c, s, steps).queue
    decreases |steps|
  {
    if steps == [] {
      assert begun + [] == begun;
    } else {
      var s' := Apply(c, s, steps[0]);
      var next := BegunBy(c, s, steps[0]);
      RequestedStep(c, s, steps[0], begun);
      FirstInFirstOut(c, s', steps[1..], begun + next);
      Assoc(begun, next, Begun(c, s', steps[1..]));
    }
  }

  /** The value published for the pending requests is the number of keys queued or with workers. */
  lemma PublishedIsInFlight(c: Config, workers: nat, steps: seq<Step>)
    requires CanRun(c, Initial(workers), steps) && Enabled(c, Run(c, Initial(workers), steps), Publish)
    ensures var s := Run(c, Initial(workers), steps);
            Apply(c, s, Publish).log == s.log + [Gauge(|QueuedKeys(s.queue) + BusyKeys(s.workers)|)]
  {
    RunInv(c, workers, steps);
    var s := Run(c, Initial(workers), steps);
    forall k
      ensures k in s.pending <==> k in QueuedKeys(s.queue) + BusyKeys(s.workers)
    {
      assert k in s.pending <==> InFlight(s, k);
      BusyKeysExact(s.workers, k);
    }
    assert s.pending == QueuedKeys(s.queue) + BusyKeys(s.workers);
  }

  lemma {:induction false} BusyKeysExact(workers: seq<Worker>, k: Key)
    ensures k in BusyKeys(workers) <==> exists w | 0 <= w < |workers| :: workers[w].Busy() && workers[w].key == k
    decreases |workers|
  {
    if workers != [] {
      BusyKeysExact(workers[1..], k);
      if w :| 0 <= w < |workers[1..]| && workers[1..][w].Busy() && workers[1..][w].key == k {
        assert workers[w + 1].Busy() && workers[w + 1].key == k;
      }
      if w :| 0 <= w < |workers| && workers[w].Busy() && workers[w].key == k {
        assert w > 0 ==> workers[1..][w - 1] == workers[w];
      }
    }
  }

  /**
   Conservation over every interleaving: once no call holds the lock, each Find was
   skipped, answered from the cache, discarded or enqueued; each enqueued request is
   queued, running, succeeded or failed; and it failed exactly if no provider came.
   */
  lemma ConservedAlways(c: Config, workers: nat, steps: seq<Step>)
    requires CanRun(c, Initial(workers), steps)
    ensures var s := Run(c, Initial(workers), steps);
            var n := s.counts;
            && (s.lock.Free? ==> n.finds == n.skipped + n.failedCached + n.discarded + n.enqueued)
            && n.enqueued == |s.queue| + Unrecorded(s.workers) + n.succeeded + n.failed
            && forall i | 0 <= i < |s.log| && s.log[i].Recorded? :: s.log[i].success <==> s.log[i].emitted > 0
  {
    RunInv(c, workers, steps);
  }

  lemma {:induction false} QueuedKeysAll(queue: seq<Key>)
    requires forall i, j | 0 <= i < j < |queue| :: queue[i] != queue[j]
    ensures |QueuedKeys(queue)| == |queue|
    decreases |queue|
  {
    if queue != [] {
      QueuedKeysAll(queue[1..]);
      assert QueuedKeys(queue) == {queue[0]} + QueuedKeys(queue[1..]);
      assert queue[0] !in queue[1..];
    }
  }

  /** A request is discarded with all the queue pending. */
  lemma DiscardOutcome(c: Config, s: State)
    requires LockSane(s) && QueueDistinct(s) && PendingExact(s) && Enabled(c, s, Discard)
    ensures !InFlight(s, s.lock.key) && s.lock.key !in s.cache && c.queueSize <= |s.pending|
  {
    QueuedKeysAll(s.queue);
    forall k | k in QueuedKeys(s.queue)
      ensures k in s.pending
    {
      assert InFlight(s, k);
    }
    assert s.pending == QueuedKeys(s.queue) + (s.pending - QueuedKeys(s.queue));
  }

  /**
   What each outcome of a Find means, in every reachable state: skipped only while the
   key is in flight, failed-cached only after a failed lookup of the key, discarded only
   if the key is neither in flight nor cached and as many others are pending as the queue
   holds, enqueued only if the key is neither in flight nor cached.
   */
  lemma FindOutcomes(c: Config, workers: nat, steps: seq<Step>, step: Step)
    requires CanRun(c, Initial(workers), steps)
    requires Enabled(c, Run(c, Initial(workers), steps), step)
    ensures var s := Run(c, Initial(workers), steps);
            var n, n' := s.counts, Apply(c, s, step).counts;
            && (n'.skipped != n.skipped ==> s.lock.Finding? && InFlight(s, s.lock.key))
            && (n'.failedCached != n.failedCached ==>
                  s.lock.Finding? && exists t :: Event.Failed(s.lock.key, t) in s.log)
            && (n'.discarded != n.discarded ==>
                  s.lock.Finding? && !InFlight(s, s.lock.key) && s.lock.key !in s.cache && c.queueSize <= |s.pending|)
            && (n'.enqueued != n.enqueued ==>
                  s.lock.Finding? && !InFlight(s, s.lock.key) && s.lock.key !in s.cache
                  && InFlight(Apply(c, s, step), s.lock.key))
  {
    RunInv(c, workers, steps);
    var s := Run(c, Initial(workers), steps);
    var s' := Apply(c, s, step);
    if step.Discard? {
      DiscardOutcome(c, s);
    }
    assert step.Send? ==> s'.queue[|s.queue|] in s'.queue;
    assert step.HandOver? ==> s'.workers[step.w].Busy();
    assert s.lock.Finding? && s.lock.key in s.cache ==> Event.Failed(s.lock.key, s.cache[s.lock.key]) in s.log;
  }
}
