/** Which way the main loop ends: a forecast read off the experiments and the record files, and why it holds. */
module SchedulerEndings {
  import opened Scheduler
  import opened SchedulerPoll
  import opened SchedulerProgress
  import opened SchedulerStory

  /** How the main loop ends; the last two are the ways it can fail to return. */
  datatype Ending = Finished | PollsForever | RetriesForever

  /** Every experiment has its record, with its evaluation where there is an evaluation set. */
  ghost predicate AllDone(xs: seq<Exp>, files: map<string, Saved>) {
    forall i | 0 <= i < |xs| :: xs[i].name in files && (xs[i].hasEvalSet ==> files[xs[i].name].evaluated)
  }

  /** Some experiment is to be trained for the first time, and asks for more than there is. */
  ghost predicate SomeTooLarge(n: nat, xs: seq<Exp>, files: map<string, Saved>) {
    exists i :: 0 <= i < |xs| && Untrained(files, xs[i]) && xs[i].gpu > n
  }

  /** Some experiment that could get its GPUs has a training command whose assembly fails an assertion. */
  ghost predicate SomeAsserts(n: nat, xs: seq<Exp>, files: map<string, Saved>) {
    exists i :: 0 <= i < |xs| && Untrained(files, xs[i]) && xs[i].gpu <= n && TrainBuild(xs[i]) == Asserts
  }

  /** How a run on this machine ends, read off the experiments and the record files before it starts. */
  ghost function Forecast(n: nat, xs: seq<Exp>, files: map<string, Saved>): Ending {
    if SomeAsserts(n, xs, files) then RetriesForever
    else if SomeTooLarge(n, xs, files) || (xs != [] && AllDone(xs, files)) then PollsForever
    else Finished
  }

  /** Distinct experiments with at most one export among them, each already done or with evaluations the machine
      can run and no training command that raises; record files, complete or not, are the experiments' own. */
  ghost predicate Workload(n: nat, xs: seq<Exp>, files: map<string, Saved>) {
    && NamesDistinct(xs) && OneExport(xs)
    && forall i | 0 <= i < |xs| :: Recorded(files, xs[i]) && (AlreadyDone(files, xs[i]) || Fits(n, files, xs[i]))
  }

  /** Experiment `e`, to be trained for the first time, cannot be launched on this machine. */
  ghost predicate CannotStart(n: nat, xs: seq<Exp>, files: map<string, Saved>, e: nat) {
    && NamesDistinct(xs) && (forall i | 0 <= i < |xs| :: Named(files, xs[i]))
    && e < |xs| && Untrained(files, xs[e]) && Unstartable(n, xs[e])
  }

  function DoneIn(xs: seq<Exp>, files: map<string, Saved>): set<nat> {
    set i: nat | i < |xs| && AlreadyDone(files, xs[i])
  }

  /** What the main loop keeps of its first state `s0`. */
  ghost predicate Reached(n: nat, s0: State, s: State, done: set<nat>) {
    && Inv(n, s) && Forward(s0, s)
    && (Orderly(n, s0, done) ==> Orderly(n, s, done))
    && (forall e | NeverStarts(n, s0, e) :: NeverStarts(n, s, e))
    && (Registered(s0.pool, s0.files) ==> Story(s0.pool, s0.files, s))
    && (Registered(s0.pool, s0.files) && Orderly(n, s0, done) ==> Due(s0.pool, s0.files, s))
  }

  /** Unless everything was done from the start, the loop has work to do or ends. */
  ghost predicate Exhausted(n: nat, s0: State, s: State, done: set<nat>) {
    Orderly(n, s0, done) && Live(s0, done) ==> Live(s, done) || s.exps == s.queue == []
  }

  lemma ReachedInv(n: nat, s0: State, s: State, done: set<nat>)
    requires Reached(n, s0, s, done)
    ensures Inv(n, s) && WellIndexed(s) && |s.pool| == |s0.pool|
    ensures s.exps != [] || s.queue != [] ==> s0.pool != []
    ensures Orderly(n, s0, done) ==> Orderly(n, s, done)
    ensures Registered(s0.pool, s0.files) ==> Story(s0.pool, s0.files, s)
    ensures Registered(s0.pool, s0.files) && Orderly(n, s0, done) ==> Due(s0.pool, s0.files, s)
  {
    hide Story, Due, Registered;
    assert WellIndexed(s);
    assert s.exps != [] ==> s.exps[0] < |s.pool|;
    assert s.queue != [] ==> s.queue[0] < |s.pool|;
  }

  lemma ForwardSame(s: State)
    ensures Forward(s, s)
  {
  }

  lemma ForwardChain(a: State, b: State, c: State)
    requires Forward(a, b) && Forward(b, c)
    ensures Forward(a, c)
  {
    hide PhaseWeight;
    assert forall e | 0 <= e < |a.pool| :: Untouched(b.pool[e], c.pool[e]);
  }

  lemma ForwardWeight(s: State, s': State)
    requires Forward(s, s')
    ensures |s.pool| == |s'.pool| && Weight(s', |s.pool|) <= Weight(s, |s.pool|)
  {
    WeightAtMost(s, s', |s.pool|);
  }

  /** A call of `run` that fails an assertion leaves a blocked head, or one that fails the same way at once. */
  lemma RunEnding(n: nat, s: State, s': State, outcome: Outcome, gpus: set<nat>, p: Spawned)
    requires Inv(n, s) && s.queue != [] && RunOccurs(n, s, s', outcome, gpus, p)
    ensures s'.queue == s.queue
    ensures outcome == AssertionFailed(true) ==> WellIndexed(s') && Blocked(n, s', s'.pool[s.queue[0]])
    ensures outcome == AssertionFailed(false) ==> s' == s && Decide(n, s, s.queue[0]) == Retry
  {
    hide Decide, Prepared, Blocked, History, LiveListed, Handled, RunningDisjoint, LaunchBound;
    if outcome == AssertionFailed(true) { LeftBlocked(n, s); }
  }

  lemma IdleEnds(s: State)
    requires WellIndexed(s)
    ensures Idle(s) ==> s.exps == []
  {
  }

  predicate Before(xs: seq<Exp>, a: nat, b: nat)
    requires a < |xs| && b < |xs|
  {
    xs[a].gpu < xs[b].gpu || (xs[a].gpu == xs[b].gpu && a < b)
  }

  ghost predicate Ordered(xs: seq<Exp>, order: seq<nat>) {
    Below(order, |xs|) && forall i, j | 0 <= i < j < |order| :: Before(xs, order[i], order[j])
  }

  /** The state with which the main loop starts. */
  ghost predicate Begun(s: State, done: set<nat>) {
    && s.exps == [] && s.procs == [] && done == DoneIn(s.pool, s.files)
    && Ordered(s.pool, s.queue) && Distinct(s.queue)
    && forall e | 0 <= e < |s.pool| :: e in s.queue
  }

  lemma StartsBegun(s: State, done: set<nat>)
    requires s.exps == [] && s.procs == [] && done == DoneIn(s.pool, s.files)
    requires Ordered(s.pool, s.queue) && Distinct(s.queue) && forall e | 0 <= e < |s.pool| :: e in s.queue
    ensures Begun(s, done)
  {
  }

  lemma BegunReached(n: nat, s: State, done: set<nat>)
    requires Begun(s, done)
    ensures Reached(n, s, s, done) && Exhausted(n, s, s, done) && WellIndexed(s)
  {
    ForwardSame(s);
    if Registered(s.pool, s.files) { StoryBegins(s.pool, s); }
    hide Orderly, Forward, NeverStarts, Story, Due, Registered;
  }

  lemma BegunIdle(s: State, done: set<nat>)
    requires Begun(s, done) && AllDone(s.pool, s.files)
    ensures WellIndexed(s) && Idle(s) && (s.pool != [] ==> s.queue != [])
  {
    assert s.pool != [] ==> 0 in s.queue;
  }

  lemma BegunOrderly(n: nat, s: State, done: set<nat>)
    requires Begun(s, done) && Workload(n, s.pool, s.files)
    ensures Orderly(n, s, done)
  {
    hide Fits, AlreadyDone, Recorded;
    forall i, j | 0 <= i < j < |s.queue| ensures s.pool[s.queue[i]].gpu <= s.pool[s.queue[j]].gpu {
      assert Before(s.pool, s.queue[i], s.queue[j]);
    }
  }

  lemma BegunNeverStarts(n: nat, s: State, done: set<nat>, e: nat)
    requires Begun(s, done) && CannotStart(n, s.pool, s.files, e)
    ensures NeverStarts(n, s, e)
  {
  }

  lemma BegunLive(s: State, done: set<nat>)
    requires Begun(s, done) && !AllDone(s.pool, s.files)
    ensures Live(s, done)
  {
    var e: nat :| e < |s.pool| && !AlreadyDone(s.files, s.pool[e]);
    assert e in s.queue;
    var k :| 0 <= k < |s.queue| && s.queue[k] == e;
    hide AlreadyDone;
    assert s.queue[k] !in done;
  }

  lemma ReachedMore(n: nat, s0: State, s: State, s': State, done: set<nat>)
    requires Reached(n, s0, s, done) && Inv(n, s') && Forward(s, s')
    requires Orderly(n, s, done) ==> Orderly(n, s', done)
    requires forall e | NeverStarts(n, s, e) :: NeverStarts(n, s', e)
    requires Story(s0.pool, s0.files, s) ==> Story(s0.pool, s0.files, s')
    requires Orderly(n, s, done) && Story(s0.pool, s0.files, s) && Due(s0.pool, s0.files, s) ==>
      Due(s0.pool, s0.files, s')
    ensures Reached(n, s0, s', done)
  {
    hide Inv, Orderly, NeverStarts, Forward, Story, Due, Registered;
    ForwardChain(s0, s, s');
  }

  lemma StillLive(n: nat, s0: State, s: State, s': State, done: set<nat>)
    requires Reached(n, s0, s, done) && Exhausted(n, s0, s, done) && (s.exps != [] || s.queue != [])
    requires Orderly(n, s, done) && Live(s, done) ==> Live(s', done)
    ensures Orderly(n, s0, done) && Live(s0, done) ==> Live(s', done)
  {
    hide Inv, Orderly, NeverStarts, Forward, Live, Story, Due, Registered;
  }

  lemma PollReaches(n: nat, s0: State, s: State, done: set<nat>, from: nat, scan: seq<nat>, sweep: seq<nat>)
    requires Reached(n, s0, s, done) && PollOccurs(s, from, scan, sweep)
    requires Orderly(n, s0, done) ==> s.queue == [] || Decide(n, s, s.queue[0]) == NoFreeGpu
    ensures Reached(n, s0, Polled(s, from, scan, sweep), done)
    ensures Exhausted(n, s0, Polled(s, from, scan, sweep), done)
  {
    hide Inv, Orderly, NeverStarts, Forward, Live, PollOccurs, Polled, Decide, Story, Due, Registered;
    if Story(s0.pool, s0.files, s) {
      PollKeepsStory(n, s0.pool, s0.files, s, from, scan, sweep);
      if Due(s0.pool, s0.files, s) { PollKeepsDue(n, s0.pool, s0.files, s, from, scan, sweep); }
    }
    var s' := Polled(s, from, scan, sweep);
    PollKeepsInv(n, s, from, scan, sweep);
    PollMovesForward(n, s, from, scan, sweep);
    if Orderly(n, s, done) {
      PollKeepsOrderly(n, s, done, from, scan, sweep);
      if Orderly(n, s0, done) && s.queue != [] { OrderlyHead(n, s, done); }
    }
    forall e | NeverStarts(n, s, e) ensures NeverStarts(n, s', e) {
      PollKeepsNeverStarts(n, s, from, scan, sweep, e);
    }
    ReachedMore(n, s0, s, s', done);
  }

  /** An experiment still to be trained is the one the run began with. */
  lemma WasUntrained(s0: State, s: State, e: nat)
    requires Forward(s0, s) && e < |s.pool| && Untrained(s.files, s.pool[e])
    ensures Untrained(s0.files, s0.pool[e]) && s0.pool[e].gpu == s.pool[e].gpu
    ensures TrainBuild(s0.pool[e]) == TrainBuild(s.pool[e])
  {
    hide PhaseWeight;
    assert Untouched(s0.pool[e], s.pool[e]);
  }

  lemma RetriesMeans(n: nat, s0: State, s: State, done: set<nat>)
    requires Reached(n, s0, s, done) && WellIndexed(s) && Orderly(n, s0, done)
    requires s.queue != [] && Decide(n, s, s.queue[0]) == Retry
    ensures SomeAsserts(n, s0.pool, s0.files)
  {
    hide Inv, Orderly, NeverStarts, Forward, Untrained, TrainBuild, Decide, Story, Due, Registered;
    OrderlyHead(n, s, done);
    ReachedInv(n, s0, s, done);
    WasUntrained(s0, s, s.queue[0]);
  }

  /** With nothing running, an orderly head short of GPUs asks for more than there are, and so does everything
      still to be trained behind it. */
  lemma PollsMeans(n: nat, s0: State, s: State, done: set<nat>)
    requires Begun(s0, done) && Reached(n, s0, s, done) && WellIndexed(s) && Workload(n, s0.pool, s0.files)
    requires s.exps == [] && s.queue != [] && Decide(n, s, s.queue[0]) == NoFreeGpu
    ensures SomeTooLarge(n, s0.pool, s0.files) && !SomeAsserts(n, s0.pool, s0.files)
  {
    hide Inv, Orderly, NeverStarts, Forward, Untrained, TrainBuild, Decide, Begun, Story, Due, Registered;
    BegunOrderly(n, s0, done);
    OrderlyHead(n, s, done);
    ReachedInv(n, s0, s, done);
    WasUntrained(s0, s, s.queue[0]);
    forall e | 0 <= e < |s0.pool| && Untrained(s0.files, s0.pool[e]) ensures
      !(s0.pool[e].gpu <= n && TrainBuild(s0.pool[e]) == Asserts)
    {
      if s0.pool[e].gpu <= n && TrainBuild(s0.pool[e]) == Asserts {
        StillWaits(n, s0, s, done, e);
        OrderlyNext(n, s, done, e);
        WasUntrained(s0, s, e);
      }
    }
  }

  lemma StillWaits(n: nat, s0: State, s: State, done: set<nat>, e: nat)
    requires Begun(s0, done) && Reached(n, s0, s, done) && Workload(n, s0.pool, s0.files)
    requires e < |s0.pool| && Untrained(s0.files, s0.pool[e]) && Unstartable(n, s0.pool[e])
    ensures e in s.queue && e < |s.pool| && Untrained(s.files, s.pool[e])
  {
    hide Inv, Orderly, Forward, Begun, Unstartable, Untrained, Fits, AlreadyDone, OneExport, Story, Due, Registered;
    BegunNeverStarts(n, s0, done, e);
    assert NeverStarts(n, s, e);
  }

  lemma OrderlyNext(n: nat, s: State, done: set<nat>, e: nat)
    requires WellIndexed(s) && Orderly(n, s, done) && s.queue != [] && e in s.queue
    requires Untrained(s.files, s.pool[s.queue[0]]) && Untrained(s.files, s.pool[e])
    ensures s.pool[s.queue[0]].gpu <= s.pool[e].gpu
  {
    var k :| 0 <= k < |s.queue| && s.queue[k] == e;
  }

  lemma FinishedMeans(n: nat, s0: State, s: State, done: set<nat>)
    requires Begun(s0, done) && Reached(n, s0, s, done) && Workload(n, s0.pool, s0.files)
    requires s.exps == [] && s.queue == []
    ensures !SomeAsserts(n, s0.pool, s0.files) && !SomeTooLarge(n, s0.pool, s0.files)
    ensures |s0.pool| == |s.pool| && forall e | 0 <= e < |s.pool| ::
      if e in done then Launches(s.procs, e) == 0 else 1 <= Launches(s.procs, e) <= 2
  {
    BegunOrderly(n, s0, done);
    forall e | 0 <= e < |s0.pool| && Untrained(s0.files, s0.pool[e]) ensures !Unstartable(n, s0.pool[e]) {
      if Unstartable(n, s0.pool[e]) { StillWaits(n, s0, s, done, e); }
    }
    FinishedCounts(n, s, done);
    hide Orderly, NeverStarts, Workload, Untrained, Inv, Begun, Story, Due, Registered;
  }

  lemma FinishedCounts(n: nat, s: State, done: set<nat>)
    requires Inv(n, s) && Orderly(n, s, done) && s.queue == []
    ensures forall e | 0 <= e < |s.pool| ::
      if e in done then Launches(s.procs, e) == 0 else 1 <= Launches(s.procs, e) <= 2
  {
    hide NamesDistinct, OneExport, Sorted, Launches;
  }

  lemma StoryTold(n: nat, s0: State, s: State, done: set<nat>)
    requires Reached(n, s0, s, done)
    ensures Registered(s0.pool, s0.files) ==>
      && (forall p | 0 <= p < |s.procs| :: ProcStory(s0.pool, s0.files, s.procs, p))
      && ExportsApart(s0.pool, s.procs)
  {
    hide Inv, Orderly, NeverStarts, Forward, Due, Registered, ProcStory, ExportsApart;
  }

  // ---- The three endings ----

  lemma CannotStartWaits(n: nat, s0: State, s: State, done: set<nat>)
    requires Begun(s0, done) && Reached(n, s0, s, done)
    ensures forall e | CannotStart(n, s0.pool, s0.files, e) :: e in s.queue
  {
    hide Begun, CannotStart, Inv, Orderly, Forward, Story, Due, Registered;
    forall e | CannotStart(n, s0.pool, s0.files, e) ensures e in s.queue {
      BegunNeverStarts(n, s0, done, e);
      assert NeverStarts(n, s, e);
    }
  }

  lemma EndRetries(n: nat, s0: State, s: State, done: set<nat>)
    requires Begun(s0, done) && Reached(n, s0, s, done) && WellIndexed(s)
    requires s.queue != [] && Decide(n, s, s.queue[0]) == Retry
    ensures Workload(n, s0.pool, s0.files) ==> Forecast(n, s0.pool, s0.files) == RetriesForever
  {
    hide Begun, Inv, Orderly, NeverStarts, Forward, Workload, Decide, Story, Due, Registered;
    if Workload(n, s0.pool, s0.files) {
      BegunOrderly(n, s0, done);
      RetriesMeans(n, s0, s, done);
    }
  }

  lemma EndPolls(n: nat, s0: State, s: State, done: set<nat>)
    requires Begun(s0, done) && Reached(n, s0, s, done) && WellIndexed(s) && s.exps == [] && s0.pool != []
    requires Orderly(n, s0, done) && Live(s0, done) ==> Live(s, done)
    requires Orderly(n, s0, done) ==> s.queue == [] || Decide(n, s, s.queue[0]) == NoFreeGpu
    ensures Workload(n, s0.pool, s0.files) ==> Forecast(n, s0.pool, s0.files) == PollsForever
  {
    hide Begun, Workload, Decide, Inv, Orderly, NeverStarts, Forward, AllDone, Story, Due, Registered;
    if Workload(n, s0.pool, s0.files) {
      BegunOrderly(n, s0, done);
      if AllDone(s0.pool, s0.files) {
        NoneAsserts(n, s0.pool, s0.files);
      } else {
        BegunLive(s0, done);
        PollsMeans(n, s0, s, done);
      }
    }
  }

  lemma NoneAsserts(n: nat, xs: seq<Exp>, files: map<string, Saved>)
    requires AllDone(xs, files)
    ensures !SomeAsserts(n, xs, files)
  {
  }

  lemma EndFinished(n: nat, s0: State, s: State, done: set<nat>)
    requires Begun(s0, done) && Reached(n, s0, s, done) && WellIndexed(s0) && s.exps == [] && s.queue == []
    requires Idle(s0) ==> s == s0
    ensures Workload(n, s0.pool, s0.files) ==>
      && Forecast(n, s0.pool, s0.files) == Finished
      && |s0.pool| == |s.pool| && forall e | 0 <= e < |s0.pool| ::
           if AlreadyDone(s0.files, s0.pool[e]) then Launches(s.procs, e) == 0 else 1 <= Launches(s.procs, e) <= 2
    ensures Workload(n, s0.pool, s0.files) && Registered(s0.pool, s0.files) ==>
      forall e | 0 <= e < |s0.pool| :: Served(s0.pool[e], s0.files, s.files, s.procs, e)
    ensures s0.pool != [] ==> !AllDone(s0.pool, s0.files)
  {
    hide Workload, Inv, Orderly, NeverStarts, Forward, AllDone, AlreadyDone, Launches, Idle, SomeAsserts, SomeTooLarge;
    hide Story, Due, Registered, Served;
    if AllDone(s0.pool, s0.files) { BegunIdle(s0, done); }
    if Workload(n, s0.pool, s0.files) {
      FinishedMeans(n, s0, s, done);
      if Registered(s0.pool, s0.files) {
        BegunOrderly(n, s0, done);
        forall e | 0 <= e < |s0.pool| ensures Served(s0.pool[e], s0.files, s.files, s.procs, e) {
          StoryEnds(s0.pool, s0.files, s, e);
        }
      }
    }
  }

  // ---- One workload for each ending, on a machine with one GPU ----

  function Job(name: string, gpu: nat, build: Build): Exp {
    Exp(name, Sft, gpu, 0, true, build, true, false, false, {}, 0)
  }

  /** A first training run, and one resumed for its evaluation. */
  const Resumed: seq<Exp> := [Job("a", 1, Builds), Job("b", 8, Asserts)]
  const ResumedFiles: map<string, Saved> := map["b" := Saved("b", Sft, 8, false)]

  const Large: seq<Exp> := [Job("a", 1, Builds), Job("b", 2, Builds)]

  const Complete: seq<Exp> := [Job("a", 1, Builds)]
  const CompleteFiles: map<string, Saved> := map["a" := Saved("a", Sft, 1, true)]

  /** The oversized run stays behind the one that retries. */
  const Failing: seq<Exp> := [Job("b", 2, Builds), Job("a", 1, Asserts)]

  lemma ResumedExample()
    ensures Workload(1, Resumed, ResumedFiles) && Forecast(1, Resumed, ResumedFiles) == Finished
  {
    assert Resumed[0].name == "a" && Resumed[1].name == "b" && "a"[0] != "b"[0];
    assert !AlreadyDone(ResumedFiles, Resumed[0]);
  }

  lemma LargeExample()
    ensures Workload(1, Large, map[]) && Forecast(1, Large, map[]) == PollsForever
  {
    assert Large[0].name == "a" && Large[1].name == "b" && "a"[0] != "b"[0];
    assert Large[1].gpu == 2 && Untrained(map[], Large[1]);
  }

  lemma CompleteExample()
    ensures Workload(1, Complete, CompleteFiles) && Forecast(1, Complete, CompleteFiles) == PollsForever
  {
    assert AlreadyDone(CompleteFiles, Complete[0]);
  }

  lemma FailingExample()
    ensures Workload(1, Failing, map[]) && Forecast(1, Failing, map[]) == RetriesForever
  {
    assert Failing[0].name == "b" && Failing[1].name == "a" && "a"[0] != "b"[0];
    assert Failing[1].gpu == 1 && Untrained(map[], Failing[1]);
  }
}
