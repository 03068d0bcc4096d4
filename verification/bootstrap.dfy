/**
 The bootstrap of the heads as interleaved steps: a limiter channel that counts the
 heads inside the connecting section, one goroutine per bootstrap peer, and a status
 channel per head, written by its goroutines and closed once.
 */
module Bootstrap {
  import opened Wrappers

  datatype Status = Err | Done | Close

  /** One bootstrap peer: being connected, with an error to report, or over. */
  datatype Task = Trying | Failing | Connected | Reported | Dropped
  {
    predicate Over() {
      Connected? || Reported? || Dropped?
    }
  }

  datatype Stage = Waiting | Connecting | Announcing | Leaving | Closing | Closed | Cancelled(inside: bool)

  /** `log` is what the head's status channel has carried. */
  datatype Head = Head(stage: Stage, tasks: seq<Task>, log: seq<Status>)

  /** Without a limiter the heads neither take nor give back tokens. */
  datatype Config = Config(limiter: Option<nat>)

  datatype State = State(tokens: nat, cancelled: bool, heads: seq<Head>)

  datatype Step =
    | Cancel
    | Acquire(h: nat)
    | GiveUp(h: nat)
    | Connect(h: nat, p: nat)
    | Fail(h: nat, p: nat)
    | SendError(h: nat, p: nat)
    | DropError(h: nat, p: nat)
    | WaitDone(h: nat)
    | SendDone(h: nat)
    | DropDone(h: nat)
    | Leave(h: nat)
    | CloseChannel(h: nat)

  /** One head for each entry, with that many bootstrap peers. */
  function Initial(peers: seq<nat>): State {
    State(0, false, seq(|peers|, i requires 0 <= i < |peers| => Head(Waiting, seq(peers[i], _ => Trying), [])))
  }

  predicate HeadAt(s: State, h: nat, stage: Stage) {
    h < |s.heads| && s.heads[h].stage == stage
  }

  predicate TaskAt(s: State, h: nat, p: nat, t: Task) {
    HeadAt(s, h, Connecting) && p < |s.heads[h].tasks| && s.heads[h].tasks[p] == t
  }

  predicate Enabled(c: Config, s: State, step: Step) {
    match step
    case Cancel => true
    case Acquire(h) => HeadAt(s, h, Waiting) && (c.limiter.Some? ==> s.tokens < c.limiter.value)
    case GiveUp(h) => HeadAt(s, h, Waiting) && c.limiter.Some? && s.cancelled
    case Connect(h, p) => TaskAt(s, h, p, Trying)
    case Fail(h, p) => TaskAt(s, h, p, Trying)
    case SendError(h, p) => TaskAt(s, h, p, Failing)
    case DropError(h, p) => TaskAt(s, h, p, Failing) && s.cancelled
    case WaitDone(h) => HeadAt(s, h, Connecting) && forall t | t in s.heads[h].tasks :: t.Over()
    case SendDone(h) => HeadAt(s, h, Announcing)
    case DropDone(h) => HeadAt(s, h, Announcing) && s.cancelled
    case Leave(h) => HeadAt(s, h, Leaving) && (c.limiter.Some? ==> s.tokens > 0)
    case CloseChannel(h) => HeadAt(s, h, Closing)
  }

  /** The head of a step, as the step leaves it. */
  function Moved(c: Config, s: State, step: Step): Head
    requires Enabled(c, s, step) && !step.Cancel?
  {
    var hd := s.heads[step.h];
    match step
    case Acquire(_) => hd.(stage := if hd.tasks != [] then Connecting else Leaving)
    case GiveUp(_) => hd.(stage := Cancelled(false))
    case Connect(_, p) => hd.(tasks := hd.tasks[p := Connected])
    case Fail(_, p) => hd.(tasks := hd.tasks[p := Failing])
    case SendError(_, p) => hd.(tasks := hd.tasks[p := Reported], log := hd.log + [Err])
    case DropError(_, p) => hd.(tasks := hd.tasks[p := Dropped])
    case WaitDone(_) => hd.(stage := if s.cancelled then Cancelled(true) else Announcing)
    case SendDone(_) => hd.(stage := Leaving, log := hd.log + [Done])
    case DropDone(_) => hd.(stage := Cancelled(true))
    case Leave(_) => hd.(stage := Closing)
    case CloseChannel(_) => hd.(stage := Closed, log := hd.log + [Close])
  }

  function Apply(c: Config, s: State, step: Step): State
    requires Enabled(c, s, step)
  {
    if step.Cancel? then s.(cancelled := true)
    else
      var heads := s.heads[step.h := Moved(c, s, step)];
      if c.limiter.Some? && step.Acquire? then s.(heads := heads, tokens := s.tokens + 1)
      else if c.limiter.Some? && step.Leave? then s.(heads := heads, tokens := s.tokens - 1)
      else s.(heads := heads)
  }

  predicate CanRun(c: Config, s: State, steps: seq<Step>)
    decreases |steps|
  {
    steps != [] ==> Enabled(c, s, steps[0]) && CanRun(c, Apply(c, s, steps[0]), steps[1..])
  }

  function Run(c: Config, s: State, steps: seq<Step>): State
    requires CanRun(c, s, steps)
    decreases |steps|
  {
    if steps == [] then s else Run(c, Apply(c, s, steps[0]), steps[1..])
  }

  // ---- The invariant ---------------------------------------------------------

  /** Between taking a token and giving it back. */
  predicate Inside(hd: Head) {
    hd.stage.Connecting? || hd.stage.Announcing? || hd.stage.Leaving?
  }

  predicate CancelledInside(hd: Head) {
    hd.stage == Cancelled(true)
  }

  function CountHeads(heads: seq<Head>, p: Head -> bool): nat {
    if heads == [] then 0 else (if p(heads[0]) then 1 else 0) + CountHeads(heads[1..], p)
  }

  function CountTasks(tasks: seq<Task>, t: Task): nat {
    if tasks == [] then 0 else (if tasks[0] == t then 1 else 0) + CountTasks(tasks[1..], t)
  }

  function Errors(n: nat): seq<Status> {
    seq(n, _ => Err)
  }

  /** What follows the errors on the channel of a head that has come this far. */
  function Ending(hd: Head): seq<Status> {
    var done := if hd.tasks != [] then [Done] else [];
    match hd.stage
    case Leaving => done
    case Closing => done
    case Closed => done + [Close]
    case _ => []
  }

  /** The channel carries one error per reported peer, then the ending; a lost error means cancellation. */
  predicate HeadSane(cancelled: bool, hd: Head) {
    && hd.log == Errors(CountTasks(hd.tasks, Reported)) + Ending(hd)
    && (Dropped in hd.tasks ==> cancelled)
    && (hd.stage.Connecting? || hd.stage.Announcing? ==> hd.tasks != [])
    && (hd.stage.Waiting? ==> forall t | t in hd.tasks :: t == Trying)
    && (hd.stage.Announcing? || hd.stage.Leaving? || hd.stage.Closing? || hd.stage.Closed? ==>
          forall t | t in hd.tasks :: t == Connected || t == Reported)
  }

  predicate Inv(c: Config, s: State) {
    && (forall h | 0 <= h < |s.heads| :: HeadSane(s.cancelled, s.heads[h]))
    && (match c.limiter
        case None => s.tokens == 0
        case Some(n) =>
          && s.tokens == CountHeads(s.heads, Inside) + CountHeads(s.heads, CancelledInside)
          && s.tokens <= n)
  }

  lemma {:induction false} CountHeadsUpdate(heads: seq<Head>, h: nat, x: Head, p: Head -> bool)
    requires h < |heads|
    ensures CountHeads(heads[h := x], p) + (if p(heads[h]) then 1 else 0) ==
            CountHeads(heads, p) + (if p(x) then 1 else 0)
    decreases |heads|
  {
    if h > 0 {
      assert heads[h := x][1..] == heads[1..][h - 1 := x];
      CountHeadsUpdate(heads[1..], h - 1, x, p);
    } else {
      assert heads[h := x][1..] == heads[1..];
    }
  }

  lemma {:induction false} CountTasksUpdate(tasks: seq<Task>, i: nat, x: Task, t: Task)
    requires i < |tasks|
    ensures CountTasks(tasks[i := x], t) + (if tasks[i] == t then 1 else 0) ==
            CountTasks(tasks, t) + (if x == t then 1 else 0)
    decreases |tasks|
  {
    if i > 0 {
      assert tasks[i := x][1..] == tasks[1..][i - 1 := x];
      CountTasksUpdate(tasks[1..], i - 1, x, t);
    } else {
      assert tasks[i := x][1..] == tasks[1..];
    }
  }

  lemma TaskStepSane(c: Config, s: State, step: Step)
    requires Enabled(c, s, step) && (step.Connect? || step.Fail? || step.SendError? || step.DropError?)
    requires HeadSane(s.cancelled, s.heads[step.h])
    ensures HeadSane(s.cancelled, Moved(c, s, step))
  {
    var hd, hd' := s.heads[step.h], Moved(c, s, step);
    CountTasksUpdate(hd.tasks, step.p, hd'.tasks[step.p], Reported);
    var n := CountTasks(hd.tasks, Reported);
    if step.SendError? {
      assert Errors(n) + [] + [Err] == Errors(n + 1) + [];
    }
    assert Dropped in hd'.tasks ==> Dropped in hd.tasks || step.DropError?;
  }

  lemma StageStepSane(c: Config, s: State, step: Step)
    requires Enabled(c, s, step) && !step.Cancel?
    requires !(step.Connect? || step.Fail? || step.SendError? || step.DropError?)
    requires HeadSane(s.cancelled, s.heads[step.h])
    ensures HeadSane(s.cancelled, Moved(c, s, step))
  {
    var hd := s.heads[step.h];
    var errors := Errors(CountTasks(hd.tasks, Reported));
    assert errors + [] + [Done] == errors + [Done];
    assert errors + Ending(hd) + [Close] == errors + (Ending(hd) + [Close]);
  }

  lemma KeepsHeads(c: Config, s: State, step: Step)
    requires Inv(c, s) && Enabled(c, s, step)
    ensures var s' := Apply(c, s, step);
            |s'.heads| == |s.heads| && forall h | 0 <= h < |s.heads| :: HeadSane(s'.cancelled, s'.heads[h])
  {
    if step.Connect? || step.Fail? || step.SendError? || step.DropError? {
      TaskStepSane(c, s, step);
    } else if !step.Cancel? {
      StageStepSane(c, s, step);
    }
  }

  lemma KeepsTokens(c: Config, s: State, step: Step)
    requires Inv(c, s) && Enabled(c, s, step)
    ensures match c.limiter
            case None => Apply(c, s, step).tokens == 0
            case Some(n) =>
              && Apply(c, s, step).tokens ==
                   CountHeads(Apply(c, s, step).heads, Inside) + CountHeads(Apply(c, s, step).heads, CancelledInside)
              && Apply(c, s, step).tokens <= n
  {
    if !step.Cancel? {
      CountHeadsUpdate(s.heads, step.h, Moved(c, s, step), Inside);
      CountHeadsUpdate(s.heads, step.h, Moved(c, s, step), CancelledInside);
    }
  }

  lemma StepKeepsPeers(c: Config, s: State, step: Step)
    requires Enabled(c, s, step)
    ensures |Apply(c, s, step).heads| == |s.heads|
    ensures forall h | 0 <= h < |s.heads| :: |Apply(c, s, step).heads[h].tasks| == |s.heads[h].tasks|
  {
  }

  lemma StepKeepsInv(c: Config, s: State, step: Step)
    requires Inv(c, s) && Enabled(c, s, step)
    ensures Inv(c, Apply(c, s, step)) && |Apply(c, s, step).heads| == |s.heads|
    ensures forall h | 0 <= h < |s.heads| :: |Apply(c, s, step).heads[h].tasks| == |s.heads[h].tasks|
  {
    KeepsHeads(c, s, step);
    KeepsTokens(c, s, step);
    StepKeepsPeers(c, s, step);
  }

  lemma {:induction false} NobodyInside(heads: seq<Head>)
    requires forall h | 0 <= h < |heads| :: heads[h].stage.Waiting?
    ensures CountHeads(heads, Inside) == 0 && CountHeads(heads, CancelledInside) == 0
    decreases |heads|
  {
    if heads != [] {
      NobodyInside(heads[1..]);
    }
  }

  lemma {:induction false} NoneReported(tasks: seq<Task>)
    requires forall t | t in tasks :: t == Trying
    ensures CountTasks(tasks, Reported) == 0
    decreases |tasks|
  {
    if tasks != [] {
      assert tasks[0] in tasks && forall t | t in tasks[1..] :: t in tasks;
      NoneReported(tasks[1..]);
    }
  }

  lemma InitialInv(c: Config, peers: seq<nat>)
    ensures Inv(c, Initial(peers))
  {
    var s := Initial(peers);
    NobodyInside(s.heads);
    forall h | 0 <= h < |s.heads|
      ensures HeadSane(s.cancelled, s.heads[h])
    {
      NoneReported(s.heads[h].tasks);
    }
  }

  lemma {:induction false} RunKeepsInv(c: Config, s: State, steps: seq<Step>)
    requires Inv(c, s) && CanRun(c, s, steps)
    ensures Inv(c, Run(c, s, steps)) && |Run(c, s, steps).heads| == |s.heads|
    ensures forall h | 0 <= h < |s.heads| :: |Run(c, s, steps).heads[h].tasks| == |s.heads[h].tasks|
    decreases |steps|
  {
    if steps != [] {
      StepKeepsInv(c, s, steps[0]);
      RunKeepsInv(c, Apply(c, s, steps[0]), steps[1..]);
    }
  }

  // ---- What holds of every run -----------------------------------------------

  lemma {:induction false} CountedHead(heads: seq<Head>, h: nat, p: Head -> bool)
    requires h < |heads| && p(heads[h])
    ensures CountHeads(heads, p) > 0
    decreases |heads|
  {
    if h > 0 {
      CountedHead(heads[1..], h - 1, p);
    }
  }

  /**
   At most as many heads as the limiter holds are between taking and giving back a
   token; the tokens are those heads and the heads cancelled there; and a head that
   leaves always finds a token to take back.
   */
  lemma LimiterAlways(n: nat, peers: seq<nat>, steps: seq<Step>, h: nat)
    requires CanRun(Config(Some(n)), Initial(peers), steps)
    ensures var s := Run(Config(Some(n)), Initial(peers), steps);
            && CountHeads(s.heads, Inside) <= n
            && s.tokens == CountHeads(s.heads, Inside) + CountHeads(s.heads, CancelledInside)
            && s.tokens <= n
            && (HeadAt(s, h, Leaving) ==> Enabled(Config(Some(n)), s, Leave(h)))
  {
    var c := Config(Some(n));
    InitialInv(c, peers);
    RunKeepsInv(c, Initial(peers), steps);
    var s := Run(c, Initial(peers), steps);
    if HeadAt(s, h, Leaving) {
      CountedHead(s.heads, h, Inside);
    }
  }

  /** e errors, at most m; then at most one Done, if there are peers; then at most one Close; and nothing else. */
  ghost predicate ChannelProtocol(log: seq<Status>, m: nat) {
    exists e: nat | e <= m ::
      || log == Errors(e)
      || (m > 0 && log == Errors(e) + [Done])
      || (m > 0 && log == Errors(e) + [Done, Close])
      || (m == 0 && log == [Close])
  }

  lemma {:induction false} CountsFit(tasks: seq<Task>)
    ensures CountTasks(tasks, Reported) + CountTasks(tasks, Connected) <= |tasks|
    ensures (forall t | t in tasks :: t == Connected || t == Reported) ==>
              CountTasks(tasks, Reported) + CountTasks(tasks, Connected) == |tasks|
    decreases |tasks|
  {
    if tasks != [] {
      CountsFit(tasks[1..]);
      assert tasks[0] in tasks && forall t | t in tasks[1..] :: t in tasks;
    }
  }

  // ---- What the tasks and channels say of the run ----------------------------

  /** Tasks for which a connection has failed. */
  function CountFailed(tasks: seq<Task>): nat {
    CountTasks(tasks, Failing) + CountTasks(tasks, Reported) + CountTasks(tasks, Dropped)
  }

  /** How many peers of head h these steps fail to connect. */
  function Fails(steps: seq<Step>, h: nat): nat {
    if steps == [] then 0 else (if steps[0].Fail? && steps[0].h == h then 1 else 0) + Fails(steps[1..], h)
  }

  function Connects(steps: seq<Step>, h: nat): nat {
    if steps == [] then 0 else (if steps[0].Connect? && steps[0].h == h then 1 else 0) + Connects(steps[1..], h)
  }

  lemma StepCounts(c: Config, s: State, step: Step, h: nat)
    requires Enabled(c, s, step) && h < |s.heads|
    ensures CountFailed(Apply(c, s, step).heads[h].tasks) == CountFailed(s.heads[h].tasks) + Fails([step], h)
    ensures CountTasks(Apply(c, s, step).heads[h].tasks, Connected) == CountTasks(s.heads[h].tasks, Connected) + Connects([step], h)
  {
    assert [step][1..] == [];
    if (step.Connect? || step.Fail? || step.SendError? || step.DropError?) && step.h == h {
      var x := Moved(c, s, step).tasks[step.p];
      CountTasksUpdate(s.heads[h].tasks, step.p, x, Failing);
      CountTasksUpdate(s.heads[h].tasks, step.p, x, Reported);
      CountTasksUpdate(s.heads[h].tasks, step.p, x, Dropped);
      CountTasksUpdate(s.heads[h].tasks, step.p, x, Connected);
    }
  }

  lemma {:induction false} RunCounts(c: Config, s: State, steps: seq<Step>, h: nat)
    requires CanRun(c, s, steps) && h < |s.heads|
    ensures h < |Run(c, s, steps).heads|
    ensures CountFailed(Run(c, s, steps).heads[h].tasks) == CountFailed(s.heads[h].tasks) + Fails(steps, h)
    ensures CountTasks(Run(c, s, steps).heads[h].tasks, Connected) == CountTasks(s.heads[h].tasks, Connected) + Connects(steps, h)
    decreases |steps|
  {
    if steps != [] {
      StepCounts(c, s, steps[0], h);
      assert [steps[0]][1..] == [];
      RunCounts(c, Apply(c, s, steps[0]), steps[1..], h);
    }
  }

  predicate TaskIs(s: State, h: nat, p: nat, t: Task) {
    h < |s.heads| && p < |s.heads[h].tasks| && s.heads[h].tasks[p] == t
  }

  /** A task is what the steps have made of its peer. */
  lemma {:induction false} TaskHistory(c: Config, s: State, steps: seq<Step>, h: nat, p: nat)
    requires CanRun(c, s, steps)
    ensures var s' := Run(c, s, steps);
            && (TaskIs(s', h, p, Connected) ==> TaskIs(s, h, p, Connected) || Connect(h, p) in steps)
            && (TaskIs(s', h, p, Failing) ==> TaskIs(s, h, p, Failing) || Fail(h, p) in steps)
            && (TaskIs(s', h, p, Reported) ==>
                  TaskIs(s, h, p, Reported) || (SendError(h, p) in steps && (TaskIs(s, h, p, Failing) || Fail(h, p) in steps)))
    decreases |steps|
  {
    if steps != [] {
      TaskHistory(c, Apply(c, s, steps[0]), steps[1..], h, p);
      TaskStep(c, s, steps[0], h, p);
      assert steps[0] in steps && forall x | x in steps[1..] :: x in steps;
    }
  }

  lemma TaskStep(c: Config, s: State, step: Step, h: nat, p: nat)
    requires Enabled(c, s, step)
    ensures var s' := Apply(c, s, step);
            && (TaskIs(s', h, p, Connected) ==> TaskIs(s, h, p, Connected) || step == Connect(h, p))
            && (TaskIs(s', h, p, Failing) ==> TaskIs(s, h, p, Failing) || step == Fail(h, p))
            && (TaskIs(s', h, p, Reported) ==> TaskIs(s, h, p, Reported) || (step == SendError(h, p) && TaskIs(s, h, p, Failing)))
  {
  }

  /** The errors that a channel has carried. */
  function ErrorsOn(log: seq<Status>): nat {
    if log == [] then 0 else ErrorsOn(log[..|log| - 1]) + if log[|log| - 1] == Err then 1 else 0
  }

  lemma {:induction false} ErrorsOnlyErrors(n: nat)
    ensures ErrorsOn(Errors(n)) == n
    decreases n
  {
    if n > 0 {
      assert Errors(n)[..n - 1] == Errors(n - 1);
      ErrorsOnlyErrors(n - 1);
    }
  }

  lemma ErrorsBeforeEnding(n: nat, hd: Head)
    ensures ErrorsOn(Errors(n) + Ending(hd)) == n
  {
    var e := Errors(n);
    ErrorsOnlyErrors(n);
    assert e + [] == e;
    assert (e + [Done])[..|e + [Done]| - 1] == e;
    assert (e + [Close])[..|e + [Close]| - 1] == e;
    assert (e + [Done, Close])[..|e + [Done, Close]| - 1] == e + [Done];
    assert [Done] + [Close] == [Done, Close] && [] + [Close] == [Close];
  }

  /** The number of errors on a channel is that of the peers whose task has reported. */
  lemma ChannelErrors(c: Config, peers: seq<nat>, steps: seq<Step>, h: nat)
    requires CanRun(c, Initial(peers), steps) && h < |peers|
    ensures var s := Run(c, Initial(peers), steps);
            && |s.heads| == |peers|
            && ErrorsOn(s.heads[h].log) <= Fails(steps, h)
            && (Done in s.heads[h].log ==>
                  && ErrorsOn(s.heads[h].log) == Fails(steps, h)
                  && Fails(steps, h) + Connects(steps, h) == peers[h])
  {
    InitialInv(c, peers);
    RunKeepsInv(c, Initial(peers), steps);
    RunCounts(c, Initial(peers), steps, h);
    NoneMoved(seq(peers[h], _ => Trying));
    var hd := Run(c, Initial(peers), steps).heads[h];
    ErrorsBeforeEnding(CountTasks(hd.tasks, Reported), hd);
    assert Done in hd.log ==> Ending(hd) != [] && hd.tasks != [];
    if Done in hd.log {
      AllOver(hd.tasks);
    }
  }

  lemma {:induction false} NoneMoved(tasks: seq<Task>)
    requires forall t | t in tasks :: t == Trying
    ensures CountFailed(tasks) == 0 && CountTasks(tasks, Connected) == 0
    decreases |tasks|
  {
    if tasks != [] {
      assert tasks[0] in tasks && forall t | t in tasks[1..] :: t in tasks;
      NoneMoved(tasks[1..]);
    }
  }

  lemma {:induction false} AllOver(tasks: seq<Task>)
    requires forall t | t in tasks :: t == Connected || t == Reported
    ensures CountFailed(tasks) == CountTasks(tasks, Reported)
    ensures CountTasks(tasks, Reported) + CountTasks(tasks, Connected) == |tasks|
    decreases |tasks|
  {
    if tasks != [] {
      assert tasks[0] in tasks && forall t | t in tasks[1..] :: t in tasks;
      AllOver(tasks[1..]);
    }
  }

  /**
   Every status channel follows its protocol. A task counts as connected only if its
   peer was connected, and as reported only if it failed and its error was sent; once
   Done is announced the errors on the channel are as many as the failures, and every
   other peer was connected.
   */
  lemma ChannelAlways(c: Config, peers: seq<nat>, steps: seq<Step>, h: nat)
    requires CanRun(c, Initial(peers), steps) && h < |peers|
    ensures var s := Run(c, Initial(peers), steps);
            && |s.heads| == |peers|
            && var hd := s.heads[h];
               && ChannelProtocol(hd.log, peers[h])
               && (forall p: nat | p < |hd.tasks| && hd.tasks[p] == Connected :: Connect(h, p) in steps)
               && (forall p: nat | p < |hd.tasks| && hd.tasks[p] == Reported :: Fail(h, p) in steps && SendError(h, p) in steps)
               && (Done in hd.log ==>
                     && CountTasks(hd.tasks, Reported) + CountTasks(hd.tasks, Connected) == peers[h]
                     && ErrorsOn(hd.log) == Fails(steps, h)
                     && Fails(steps, h) + Connects(steps, h) == peers[h])
  {
    ChannelErrors(c, peers, steps, h);
    forall p: nat
      ensures TaskIs(Run(c, Initial(peers), steps), h, p, Connected) ==> Connect(h, p) in steps
      ensures TaskIs(Run(c, Initial(peers), steps), h, p, Reported) ==> Fail(h, p) in steps && SendError(h, p) in steps
    {
      TaskHistory(c, Initial(peers), steps, h, p);
    }
    ChannelFollows(c, peers, steps, h);
  }

  lemma ChannelFollows(c: Config, peers: seq<nat>, steps: seq<Step>, h: nat)
    requires CanRun(c, Initial(peers), steps) && h < |peers|
    ensures var s := Run(c, Initial(peers), steps);
            && |s.heads| == |peers|
            && var hd := s.heads[h];
               && ChannelProtocol(hd.log, peers[h])
               && (Done in hd.log ==> CountTasks(hd.tasks, Reported) + CountTasks(hd.tasks, Connected) == peers[h])
  {
    InitialInv(c, peers);
    RunKeepsInv(c, Initial(peers), steps);
    var hd := Run(c, Initial(peers), steps).heads[h];
    CountsFit(hd.tasks);
    var e := CountTasks(hd.tasks, Reported);
    assert hd.log == Errors(e) + Ending(hd);
    assert Errors(e) + [] == Errors(e);
    assert Done in hd.log ==> Ending(hd) != [] && hd.tasks != [];
  }

  // ---- Cancellation ----------------------------------------------------------

  lemma {:induction false} RunSplit(c: Config, s: State, a: seq<Step>, b: seq<Step>)
    requires CanRun(c, s, a + b)
    ensures CanRun(c, s, a) && CanRun(c, Run(c, s, a), b) && Run(c, s, a + b) == Run(c, Run(c, s, a), b)
    decreases |a|
  {
    if a == [] {
      assert a + b == b;
    } else {
      assert (a + b)[1..] == a[1..] + b;
      RunSplit(c, Apply(c, s, a[0]), a[1..], b);
    }
  }

  lemma {:induction false} CancelStays(c: Config, s: State, steps: seq<Step>)
    requires CanRun(c, s, steps) && (s.cancelled || Cancel in steps)
    ensures Run(c, s, steps).cancelled
    decreases |steps|
  {
    if steps != [] {
      CancelStays(c, Apply(c, s, steps[0]), steps[1..]);
    }
  }

  /** A head that has returned does nothing more. */
  lemma {:induction false} CancelledHeadStays(c: Config, s: State, steps: seq<Step>, h: nat)
    requires CanRun(c, s, steps) && h < |s.heads| && s.heads[h].stage.Cancelled?
    ensures h < |Run(c, s, steps).heads| && Run(c, s, steps).heads[h] == s.heads[h]
    decreases |steps|
  {
    if steps != [] {
      CancelledHeadStays(c, Apply(c, s, steps[0]), steps[1..], h);
    }
  }

  /** A head whose peers are over only after the cancellation neither announces Done nor closes its channel. */
  lemma CancelledStops(c: Config, peers: seq<nat>, a: seq<Step>, b: seq<Step>, h: nat)
    requires CanRun(c, Initial(peers), a + ([WaitDone(h)] + b)) && Cancel in a
    ensures var s := Run(c, Initial(peers), a + ([WaitDone(h)] + b));
            && h < |s.heads| && s.heads[h].stage == Cancelled(true)
            && Done !in s.heads[h].log && Close !in s.heads[h].log
  {
    RunSplit(c, Initial(peers), a, [WaitDone(h)] + b);
    CancelStays(c, Initial(peers), a);
    InitialInv(c, peers);
    RunKeepsInv(c, Initial(peers), a);
    var s := Run(c, Initial(peers), a);
    assert ([WaitDone(h)] + b)[1..] == b;
    CancelledHeadStays(c, Apply(c, s, WaitDone(h)), b, h);
    assert HeadSane(s.cancelled, s.heads[h]);
  }
}
