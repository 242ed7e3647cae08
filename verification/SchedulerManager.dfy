/** The experiment manager: the scheduler's methods over their mutable state. */
module SchedulerManager {
  import opened Wrappers
  import opened Scheduler
  import opened SchedulerPoll
  import opened SchedulerProgress
  import opened SchedulerStory
  import opened SchedulerEndings

  datatype Check = Passes | KeyMissing | Overlap

  class ExpManager {
    const devices: nat
    var pool: seq<Exp>
    var exps: seq<nat>
    var queue: seq<nat>
    var files: map<string, Saved>
    var clock: nat
    var procs: seq<Proc>

    function View(): State
      reads this
    {
      State(pool, exps, queue, files, clock, procs)
    }

    constructor (devices: nat, files: map<string, Saved>)
      ensures this.devices == devices && this.files == files && exps == [] && procs == []
    {
      this.devices, this.files := devices, files;
      pool, exps, queue, clock, procs := [], [], [], 0, [];
    }

    /** `handler.poll()`: some time passes, and the process has exited by then or not. */
    method PollProcess(h: nat) returns (exited: bool)
      requires h < |procs|
      modifies this`clock
      ensures clock >= old(clock) && exited == (procs[h].exit <= clock)
    {
      var elapsed: nat :| 0 <= elapsed;
      clock := clock + elapsed;
      exited := procs[h].exit <= clock;
    }

    method FindFreeGpu(k: nat) returns (r: Option<set<nat>>)
      requires WellIndexed(View())
      ensures r.None? <==> |FreeGpus(devices, View())| < k
      ensures r.Some? ==> r.value <= FreeGpus(devices, View()) && |r.value| == k
    {
      var used := {};
      for i := 0 to |exps|
        invariant used + UsedBy(pool, exps[i..]) == UsedBy(pool, exps)
      {
        assert exps[i..][1..] == exps[i + 1..];
        used := used + pool[exps[i]].runtime;
      }
      assert exps[|exps|..] == [];
      var free := Devices(devices) - used;
      if |free| < k {
        return None;
      }
      var picked := {};
      while |picked| < k
        invariant picked <= free && |picked| <= k
        decreases k - |picked|
      {
        assert free * picked == picked && |free - picked| == |free| - |picked|;
        var g :| g in free - picked;
        picked := picked + {g};
      }
      r := Some(picked);
    }

    method AssertGpuNotOverlap() returns (c: Check)
      requires WellIndexed(View())
      ensures c == KeyMissing ==> exists i :: 0 <= i < |exps| && pool[exps[i]].runtime == {}
      ensures c == Passes <==>
        RunningDisjoint(View()) && forall i | 0 <= i < |exps| :: pool[exps[i]].runtime != {}
      ensures RunningDisjoint(View()) ==> c != Overlap
    {
      var all := {};
      for i := 0 to |exps|
        invariant all == UsedBy(pool, exps[..i])
        invariant forall j | 0 <= j < i :: pool[exps[j]].runtime != {} && pool[exps[j]].runtime <= all
        invariant forall j, k | 0 <= j < k < i :: pool[exps[j]].runtime !! pool[exps[k]].runtime
      {
        var gpus := pool[exps[i]].runtime;
        if gpus == {} {
          return KeyMissing;
        }
        if all * gpus != {} {
          UsedFrom(pool, exps[..i], all * gpus);
          return Overlap;
        }
        forall g | g in gpus ensures g !in all {
          assert g !in all * gpus;
        }
        UsedAppend(pool, exps[..i], exps[i]);
        assert exps[..i] + [exps[i]] == exps[..i + 1];
        all := all + gpus;
      }
      c := Passes;
    }

    /** Spawns the process of the prepared experiment `e` and lists it as running. */
    method Popen(e: nat, gpus: set<nat>, x: Exp) returns (ghost spawned: Spawned)
      requires e < |pool|
      modifies this`pool, this`exps, this`procs
      ensures View() == Launched(old(View()), e, x, gpus, spawned)
    {
      var life: nat :| 0 <= life;
      var rc: int :| true;
      var metric: bool :| true;
      spawned := Spawned(life, rc, metric);
      pool := pool[e := x.(runtime := gpus, handler := |procs|)];
      exps := exps + [e];
      procs := procs + [Proc(e, x.doEval, gpus, clock, clock + life, rc, metric)];
    }

    method Allocate(request: nat) returns (r: Option<set<nat>>)
      requires WellIndexed(View())
      ensures r.None? <==> request > 0 && |FreeGpus(devices, View())| < request
      ensures r.Some? ==> r.value <= FreeGpus(devices, View()) && |r.value| == request
    {
      if request > 0 {
        r := FindFreeGpu(request);
      } else {
        r := Some({});
      }
    }

    method BuildEvalCmd(x: Exp) returns (b: Built)
      requires WellIndexed(View()) && x.doEval
      ensures b == NoneFree <==> Blocked(devices, View(), x)
      ensures b == Broken <==> !Blocked(devices, View(), x) && !x.evalBuilds
      ensures b.Command? ==> b.gpus <= FreeGpus(devices, View()) && |b.gpus| == Request(x)
      ensures b != AssertFails
    {
      var granted := Allocate(x.evalGpu);
      if granted.None? {
        return NoneFree;
      }
      b := if x.evalBuilds then Command(granted.value) else Broken;
    }

    method BuildCmd(x: Exp) returns (b: Built)
      requires WellIndexed(View()) && !x.doEval
      ensures b == NoneFree <==> Blocked(devices, View(), x)
      ensures b == Broken <==> !Blocked(devices, View(), x) && TrainBuild(x) == Raises
      ensures b == AssertFails <==> !Blocked(devices, View(), x) && TrainBuild(x) == Asserts
      ensures b.Command? ==> b.gpus <= FreeGpus(devices, View()) && |b.gpus| == Request(x)
    {
      var granted := Allocate(x.gpu);
      if granted.None? {
        return NoneFree;
      }
      match x.cmd
      case Sft | Rlhf | Export =>
        match x.trainBuild {
          case Builds => b := Command(granted.value);
          case Raises => b := Broken;
          case Asserts => b := AssertFails;
        }
      case Eval | Unsupported =>
        b := Broken;
    }

    /** Spawns the prepared head experiment, then runs the overlap check over all running ones. */
    method Start(e: nat, gpus: set<nat>, x: Exp, ghost s: State) returns (outcome: Outcome, ghost spawned: Spawned)
      requires Inv(devices, s) && s.queue != [] && e == s.queue[0] && x == Prepared(s, s.pool[e])
      requires View() == s.(pool := s.pool[e := x]) && gpus <= FreeGpus(devices, s)
      modifies this`pool, this`exps, this`procs
      ensures View() == Spawn(s, e, gpus, spawned.life, spawned.rc, spawned.metric)
      ensures outcome == if forall i | 0 <= i < |exps| :: pool[exps[i]].runtime != {} then Returned else Raised
    {
      hide History, LiveListed, Handled, LaunchBound, Distinct, UsedBy;
      spawned := Popen(e, gpus, x);
      SpawnKeepsInv(devices, s, gpus, spawned.life, spawned.rc, spawned.metric);
      var check := AssertGpuNotOverlap();
      outcome := if check == Passes then Returned else Raised;
    }

    /** Consults the record file of the head experiment, loading it when only the evaluation is missing. */
    method LoadRecord() returns (skip: bool)
      requires WellIndexed(View()) && queue != []
      modifies this`pool
      ensures skip <==> AlreadyDone(old(files), old(pool)[queue[0]])
      ensures View() == old(View()).(pool := old(pool)[queue[0] := Prepared(old(View()), old(pool)[queue[0]])])
    {
      var x := pool[queue[0]];
      skip := false;
      if x.name in files {
        if x.hasEvalSet && !files[x.name].evaluated {
          if !x.doEval {
            var f := files[x.name];
            x := x.(name := f.name, cmd := f.cmd, gpu := f.gpu, evaluated := f.evaluated, doEval := true);
            pool := pool[queue[0] := x];
          }
        } else {
          skip := true;
        }
      }
    }

    /** Assembles the command of the prepared head experiment, unless its name or a running export forbids it. */
    method Build(x: Exp, ghost s: State) returns (b: Built)
      requires Inv(devices, s) && s.queue != [] && !AlreadyDone(s.files, s.pool[s.queue[0]])
      requires x == Prepared(s, s.pool[s.queue[0]]) && View() == PreparedHead(s)
      ensures Decide(devices, s, s.queue[0]) == VerdictOf(b)
      ensures b.Command? ==> b.gpus <= FreeGpus(devices, s) && |b.gpus| == Request(x)
    {
      hide History, LiveListed, Handled, LaunchBound, RunningDisjoint, Distinct, UsedBy, Prepared, TrainBuild;
      PreparedFree(devices, s);
      assert Blocked(devices, View(), x) == Blocked(devices, s, x);
      if x.doEval {
        b := BuildEvalCmd(x);
      } else {
        UnloadedSame(s);
        if exists i | 0 <= i < |exps| :: pool[exps[i]].name == x.name {
          b := Broken;
        } else if x.cmd == Export && exists i | 0 <= i < |exps| :: pool[exps[i]].cmd == Export {
          b := AssertFails;
        } else {
          b := BuildCmd(x);
        }
      }
    }

    /** Tries to start the experiment at the head of the queue. */
    method Run() returns (outcome: Outcome, ghost gpus: set<nat>, ghost spawned: Spawned)
      requires Inv(devices, View()) && queue != []
      modifies this`pool, this`exps, this`procs
      ensures RunOccurs(devices, old(View()), View(), outcome, gpus, spawned)
    {
      hide History, LiveListed, Handled, LaunchBound, RunningDisjoint, Distinct, UsedBy, Prepared, TrainBuild;
      hide Decide, Blocked, FreeGpus, AlreadyDone;
      gpus, spawned := {}, Spawned(0, 0, false);
      ghost var s := View();
      DoneSkips(devices, s);
      var skip := LoadRecord();
      if skip {
        SkipUnprepared(s);
        outcome := Returned;
        return;
      }
      var e, x := queue[0], pool[queue[0]];
      var built := Build(x, s);
      RetryUnloaded(devices, s);
      match built
      case NoneFree => outcome := AssertionFailed(true);
      case Broken => outcome := Raised;
      case AssertFails => outcome := AssertionFailed(false);
      case Command(granted) =>
        gpus := granted;
        outcome, spawned := Start(e, granted, x, s);
    }

    /** Books a process seen to have exited: records, and the return to the queue for evaluation. */
    method Book(e: nat)
      requires WellIndexed(View()) && e < |pool| && pool[e].handler < |procs|
      modifies this`pool, this`queue, this`files
      ensures View() == Finish(old(View()), e)
    {
      var x, p := pool[e], procs[pool[e].handler];
      if p.rc == 0 {
        if !x.doEval {
          if p.metric {
            if x.hasEvalSet {
              x := x.(doEval := true);
              queue := [e] + queue;
            }
            pool := pool[e := x];
            files := files[x.name := RecordOf(x)];
          }
        } else {
          x := x.(evaluated := true);
          pool := pool[e := x];
          if p.metric {
            files := files[x.name := RecordOf(x)];
          }
        }
      }
    }

    /** Polls one running experiment and books it if it has exited. */
    method PollRunning(e: nat) returns (exited: bool)
      requires Ready(View()) && e in exps
      modifies this`clock, this`pool, this`queue, this`files
      ensures clock >= old(clock) && exited == (ExitOf(old(View()), e) <= clock)
      ensures View() == PollOne(old(View()), e, clock)
    {
      exited := PollProcess(pool[e].handler);
      if exited {
        Book(e);
      }
    }

    /** One pass over the running list. */
    method Scan() returns (hasFinished: bool, ghost times: seq<nat>)
      requires Ready(View()) && Distinct(exps)
      modifies this`clock, this`pool, this`queue, this`files
      ensures exps == old(exps) && |times| == |exps| && Ascending(old(clock), times)
      ensures clock == LastOf(old(clock), times)
      ensures View() == ScanTo(old(View()), times, |exps|)
      ensures hasFinished == Saw(old(View()), times, |exps|)
    {
      hide PollOne, Ascending;
      ghost var s := View();
      hasFinished, times := false, [];
      AscendNone(s.clock);
      for i := 0 to |exps|
        invariant exps == s.exps && |times| == i
        invariant Ascending(s.clock, times) && clock == LastOf(s.clock, times)
        invariant View() == ScanTo(s, times, i)
        invariant hasFinished == Saw(s, times, i)
      {
        ScanPool(s, times, i, exps[i]);
        NotYetDone(s, times, i);
        var exited := PollRunning(exps[i]);
        ScanMore(s, times, clock, i);
        AscendMore(s.clock, times, clock);
        times := times + [clock];
        if exited {
          hasFinished := true;
        }
      }
    }

    /** Keeps the running experiments whose second poll still finds them alive. */
    method SweepExited() returns (ghost times: seq<nat>)
      requires Ready(View()) && exps != []
      modifies this`clock, this`exps
      ensures |times| == |old(exps)| && Ascending(old(clock), times)
      ensures View() == Sweep(old(View()), times)
    {
      hide Ascending;
      ghost var s := View();
      var kept := [];
      times := [];
      AscendNone(s.clock);
      for i := 0 to |exps|
        invariant |times| == i && Ascending(s.clock, times) && clock == LastOf(s.clock, times)
        invariant View() == s.(clock := clock)
        invariant kept == Survivors(s, exps[..i], times)
      {
        var exited := PollProcess(pool[exps[i]].handler);
        AscendMore(s.clock, times, clock);
        assert exps[..i + 1][..i] == exps[..i] && (times + [clock])[..i] == times;
        times := times + [clock];
        if !exited {
          kept := kept + [exps[i]];
        }
      }
      assert exps[..|exps|] == exps;
      exps := kept;
    }

    /** Sleeps and scans until some process has finished, then sweeps. With nothing running the loop
        of the source never ends, so a running experiment is required. */
    method Poll() returns (ghost from: nat, ghost scan: seq<nat>, ghost sweep: seq<nat>)
      requires Inv(devices, View()) && exps != []
      modifies this`clock, this`pool, this`queue, this`files, this`exps
      ensures PollOccurs(old(View()), from, scan, sweep)
      ensures View() == Polled(old(View()), from, scan, sweep)
      ensures from >= old(clock) + 5
    {
      hide History, LiveListed, RunningDisjoint, LaunchBound, Distinct, Ascending;
      ghost var s := View();
      from, scan, sweep := clock, [], [];
      while true
        invariant View() == s.(clock := clock) && s.clock <= clock
        decreases ExitOf(s, s.exps[0]) - clock
      {
        var extra: nat :| 0 <= extra;
        clock := clock + 5 + extra;
        from := clock;
        ghost var b := View();
        var hasFinished;
        hasFinished, scan := Scan();
        SawIff(b, scan, |exps|);
        if hasFinished {
          ghost var r := View();
          sweep := SweepExited();
          AscendJoin(from, scan, sweep);
          ghost var i :| 0 <= i < |s.exps| && Seen(b, scan, i);
          assert Seen(s, scan, i);
          break;
        }
        NothingSeen(b, scan, |exps|);
        AscendLast(from, scan);
        assert !Seen(b, scan, 0);
      }
    }

    /** The inner loop of the source: starts experiments from the head of the queue until one is blocked. */
    method LaunchWaiting(ghost done: set<nat>, ghost xs: seq<Exp>, ghost files0: map<string, Saved>)
      returns (stuck: bool)
      requires Inv(devices, View())
      modifies this`pool, this`exps, this`procs, this`queue
      ensures Inv(devices, View()) && Forward(old(View()), View())
      ensures files == old(files) && clock == old(clock)
      ensures stuck ==> queue != [] && Decide(devices, View(), queue[0]) == Retry
      ensures !stuck ==> queue == [] || Blocked(devices, View(), pool[queue[0]])
      ensures Orderly(devices, old(View()), done) ==>
        && Orderly(devices, View(), done) && (Live(old(View()), done) ==> Live(View(), done))
        && (!stuck && queue != [] ==> Decide(devices, View(), queue[0]) == NoFreeGpu)
      ensures forall e | NeverStarts(devices, old(View()), e) :: NeverStarts(devices, View(), e)
      ensures Story(xs, files0, old(View())) ==>
        && Story(xs, files0, View())
        && (Orderly(devices, old(View()), done) && Due(xs, files0, old(View())) ==> Due(xs, files0, View()))
      ensures Idle(old(View())) ==> !stuck && exps == [] && queue == []
    {
      hide Inv, Orderly, Live, NeverStarts, Idle, Forward, RunOccurs, Decide, Blocked, WellIndexed, Story, Due;
      ghost var s0 := View();
      stuck := false;
      ForwardSame(s0);
      InvIndexed(devices, s0);
      while |queue| > 0
        invariant Inv(devices, View()) && WellIndexed(View()) && Forward(s0, View())
        invariant files == s0.files && clock == s0.clock
        invariant Orderly(devices, s0, done) ==>
          Orderly(devices, View(), done) && (Live(s0, done) ==> Live(View(), done))
        invariant forall e | NeverStarts(devices, s0, e) :: NeverStarts(devices, View(), e)
        invariant Story(xs, files0, s0) ==> Story(xs, files0, View())
        invariant Story(xs, files0, s0) && Orderly(devices, s0, done) && Due(xs, files0, s0) ==> Due(xs, files0, View())
        invariant Idle(s0) ==> Idle(View())
        decreases |queue|
      {
        ghost var s := View();
        var outcome, gpus, spawned := Run();
        ghost var s' := View();
        RunKeepsInv(devices, s, s', outcome, gpus, spawned);
        InvIndexed(devices, AfterRun(s', outcome));
        RunMovesForward(devices, s, s', outcome, gpus, spawned);
        ForwardChain(s0, s, AfterRun(s', outcome));
        RunEnding(devices, s, s', outcome, gpus, spawned);
        if Orderly(devices, s0, done) {
          RunKeepsOrderly(devices, s, s', outcome, gpus, spawned, done);
        }
        forall e | NeverStarts(devices, s0, e) ensures NeverStarts(devices, AfterRun(s', outcome), e) {
          RunKeepsNeverStarts(devices, s, s', outcome, gpus, spawned, e);
        }
        if Story(xs, files0, s0) {
          RunKeepsStory(devices, xs, files0, s, s', outcome, gpus, spawned);
          if Orderly(devices, s0, done) && Due(xs, files0, s0) {
            OrderlyHead(devices, s, done);
            RunKeepsDue(devices, xs, files0, s, s', outcome, gpus, spawned);
          }
        }
        if Idle(s0) {
          RunKeepsIdle(devices, s, s', outcome, gpus, spawned);
        }
        match outcome
        case AssertionFailed(noFreeGpu) =>
          // A blocked head waits for a poll; any other assertion error retries it at once, for ever.
          stuck := !noFreeGpu;
          return;
        case Returned =>
          queue := queue[1..];
        case Raised =>
          queue := queue[1..];
      }
      IdleEnds(View());
    }

    /** The main loop. */
    method Begin(experiments: seq<Exp>) returns (ending: Ending)
      requires exps == [] && procs == []
      modifies this
      ensures Inv(devices, View()) && |pool| == |experiments|
      ensures match ending
        case Finished => queue == [] && exps == []
        case PollsForever => exps == [] && (queue == [] || Blocked(devices, View(), pool[queue[0]]))
        case RetriesForever => queue != [] && Decide(devices, View(), queue[0]) == Retry
      ensures Workload(devices, experiments, old(files)) ==>
        && ending == Forecast(devices, experiments, old(files))
        && (ending == Finished ==> forall e | 0 <= e < |experiments| ::
              if AlreadyDone(old(files), experiments[e]) then Launches(procs, e) == 0 else 1 <= Launches(procs, e) <= 2)
      ensures Registered(experiments, old(files)) ==>
        && (forall p | 0 <= p < |procs| :: ProcStory(experiments, old(files), procs, p))
        && ExportsApart(experiments, procs)
      ensures (Workload(devices, experiments, old(files)) && Registered(experiments, old(files))
               && ending == Finished) ==>
        forall e | 0 <= e < |experiments| :: Served(experiments[e], old(files), files, procs, e)
      ensures forall e | CannotStart(devices, experiments, old(files), e) :: e in queue && ending != Finished
      ensures experiments != [] && AllDone(experiments, old(files)) ==> ending == PollsForever
    {
      hide Inv, Orderly, Live, NeverStarts, Idle, Forward, PollOccurs, Polled, Launches, Decide, Blocked, WellIndexed;
      hide Workload, AllDone, AlreadyDone, CannotStart, Weight, Forecast, Reached, Exhausted, Begun, Ordered;
      hide Story, Due, Registered, Served, ProcStory, ExportsApart;
      pool := experiments;
      queue := ByPriority(experiments);
      ghost var s0, done := View(), DoneIn(experiments, files);
      StartsBegun(s0, done);
      BegunReached(devices, s0, done);
      if AllDone(experiments, s0.files) { BegunIdle(s0, done); }
      while |queue| > 0 || |exps| > 0
        invariant WellIndexed(s0) && Reached(devices, s0, View(), done)
        invariant Idle(s0) ==> View() == s0
        invariant Exhausted(devices, s0, View(), done)
        decreases Weight(View(), |pool|)
      {
        ghost var s := View();
        ReachedInv(devices, s0, s, done);
        var stuck := LaunchWaiting(done, experiments, s0.files);
        ghost var s1 := View();
        ReachedMore(devices, s0, s, s1, done);
        ReachedInv(devices, s0, s1, done);
        StillLive(devices, s0, s, s1, done);
        ForwardWeight(s, s1);
        if stuck {
          EndRetries(devices, s0, s1, done);
          StoryTold(devices, s0, s1, done);
          CannotStartWaits(devices, s0, s1, done);
          return RetriesForever;
        }
        if |exps| == 0 {
          EndPolls(devices, s0, s1, done);
          StoryTold(devices, s0, s1, done);
          CannotStartWaits(devices, s0, s1, done);
          return PollsForever;
        }
        ghost var from, scan, sweep;
        from, scan, sweep := Poll();
        PollKeepsInv(devices, s1, from, scan, sweep);
        PollMakesProgress(devices, s1, from, scan, sweep);
        PollReaches(devices, s0, s1, done, from, scan, sweep);
      }
      ending := Finished;
      ReachedInv(devices, s0, View(), done);
      EndFinished(devices, s0, View(), done);
      StoryTold(devices, s0, View(), done);
      CannotStartWaits(devices, s0, View(), done);
    }
  }

  /** The three endings all occur on a machine with one GPU. */
  method EachEnding() returns (resumed: Ending, large: Ending, complete: Ending, failing: Ending)
    ensures resumed == Finished && large == complete == PollsForever && failing == RetriesForever
  {
    ResumedExample();
    LargeExample();
    CompleteExample();
    FailingExample();
    hide *;
    var m := new ExpManager(1, ResumedFiles);
    resumed := m.Begin(Resumed);
    m := new ExpManager(1, map[]);
    large := m.Begin(Large);
    m := new ExpManager(1, CompleteFiles);
    complete := m.Begin(Complete);
    m := new ExpManager(1, map[]);
    failing := m.Begin(Failing);
  }

  /** Indices by increasing GPU request, ties in their original order. */
  method ByPriority(xs: seq<Exp>) returns (order: seq<nat>)
    ensures Ordered(xs, order) && Distinct(order) && forall e | 0 <= e < |xs| :: e in order
  {
    order := [];
    for k := 0 to |xs|
      invariant Ordered(xs, order) && Below(order, k) && forall e | 0 <= e < k :: e in order
    {
      var at := |order|;
      while at > 0 && xs[order[at - 1]].gpu > xs[k].gpu
        invariant 0 <= at <= |order|
        invariant forall j | at <= j < |order| :: xs[order[j]].gpu > xs[k].gpu
      {
        at := at - 1;
      }
      InsertOrdered(xs, order, at, k);
      order := order[..at] + [k] + order[at..];
    }
  }

  lemma InsertOrdered(xs: seq<Exp>, order: seq<nat>, at: nat, k: nat)
    requires Ordered(xs, order) && Below(order, k) && k < |xs| && at <= |order|
    requires forall j | at <= j < |order| :: xs[order[j]].gpu > xs[k].gpu
    requires at > 0 ==> xs[order[at - 1]].gpu <= xs[k].gpu
    ensures var r := order[..at] + [k] + order[at..];
      Ordered(xs, r) && Below(r, k + 1) && k in r && forall e | e in order :: e in r
  {
    var r := order[..at] + [k] + order[at..];
    InsertMembers(order, at, k);
    forall i | 0 <= i < at ensures Before(xs, order[i], k) {
      assert i < at - 1 ==> Before(xs, order[i], order[at - 1]);
    }
    hide Before;
    forall i, j | 0 <= i < j < |r| ensures Before(xs, r[i], r[j]) {
      if j < at {
      } else if i < at && j > at {
        assert r[j] == order[j - 1];
      } else if i > at {
        assert r[i] == order[i - 1] && r[j] == order[j - 1];
      } else if i == at {
        assert r[j] == order[j - 1] && Before(xs, k, order[j - 1]) by { AfterInserted(xs, k, order[j - 1]); }
      }
    }
  }

  lemma AfterInserted(xs: seq<Exp>, k: nat, e: nat)
    requires k < |xs| && e < |xs| && xs[e].gpu > xs[k].gpu
    ensures Before(xs, k, e)
  {
  }

  lemma InsertMembers(order: seq<nat>, at: nat, k: nat)
    requires Below(order, k) && at <= |order|
    ensures var r := order[..at] + [k] + order[at..];
      Below(r, k + 1) && k in r && forall e | e in order :: e in r
  {
    var r := order[..at] + [k] + order[at..];
    assert r[at] == k;
    forall e | e in order ensures e in r {
      var i :| 0 <= i < |order| && order[i] == e;
      assert r[if i < at then i else i + 1] == e;
    }
  }

  lemma AscendJoin(from: nat, a: seq<nat>, b: seq<nat>)
    requires Ascending(from, a) && Ascending(LastOf(from, a), b)
    ensures Ascending(from, a + b)
  {
  }

  lemma AscendLast(from: nat, times: seq<nat>)
    requires Ascending(from, times)
    ensures from <= LastOf(from, times)
    ensures times != [] ==> from <= times[0]
  {
  }

  /** A scan that sees nothing finished only spends time. */
  lemma {:induction false} NothingSeen(s: State, times: seq<nat>, i: nat)
    requires Ready(s) && i <= |s.exps| && i <= |times| && !Saw(s, times, i)
    ensures ScanTo(s, times, i) == s.(clock := if i == 0 then s.clock else times[i - 1])
  {
    if i > 0 { NothingSeen(s, times, i - 1); }
  }

  /** Some process among the first `i` was seen finished. */
  predicate Saw(s: State, times: seq<nat>, i: nat)
    requires Ready(s) && i <= |s.exps| && i <= |times|
  {
    i > 0 && (Saw(s, times, i - 1) || Seen(s, times, i - 1))
  }

  lemma {:induction false} SawIff(s: State, times: seq<nat>, i: nat)
    requires Ready(s) && i <= |s.exps| && i <= |times|
    ensures Saw(s, times, i) <==> exists j :: 0 <= j < i && Seen(s, times, j)
  {
    if i > 0 { SawIff(s, times, i - 1); }
  }

  lemma AscendNone(from: nat)
    ensures Ascending(from, [])
  {
  }

  function LastOf(from: nat, times: seq<nat>): nat {
    if times == [] then from else times[|times| - 1]
  }

  lemma AscendMore(from: nat, times: seq<nat>, t: nat)
    requires Ascending(from, times) && LastOf(from, times) <= t
    ensures Ascending(from, times + [t])
  {
  }

  /** The scan so far does not depend on the polls still to come. */
  lemma {:induction false} ScanMore(s: State, times: seq<nat>, t: nat, i: nat)
    requires Ready(s) && i <= |s.exps| && i <= |times|
    ensures ScanTo(s, times + [t], i) == ScanTo(s, times, i)
    ensures Saw(s, times + [t], i) == Saw(s, times, i)
  {
    hide PollOne;
    if i > 0 { ScanMore(s, times, t, i - 1); }
  }

  datatype Built = Command(gpus: set<nat>) | NoneFree | Broken | AssertFails

  function Launched(s: State, e: nat, x: Exp, gpus: set<nat>, p: Spawned): State
    requires e < |s.pool|
  {
    s.(pool := s.pool[e := x.(runtime := gpus, handler := |s.procs|)],
       exps := s.exps + [e],
       procs := s.procs + [Proc(e, x.doEval, gpus, s.clock, s.clock + p.life, p.rc, p.metric)])
  }

  lemma SkipUnprepared(s: State)
    requires WellIndexed(s) && s.queue != [] && AlreadyDone(s.files, s.pool[s.queue[0]])
    ensures PreparedHead(s) == s
  {
  }

  function VerdictOf(b: Built): Verdict {
    match b
    case NoneFree => NoFreeGpu
    case Broken => Error
    case AssertFails => Retry
    case Command(_) => Launch
  }

  lemma DoneSkips(n: nat, s: State)
    requires WellIndexed(s) && s.queue != []
    ensures AlreadyDone(s.files, s.pool[s.queue[0]]) ==> Decide(n, s, s.queue[0]) == Skip
  {
  }

  /** Only a training run that was not loaded can be retried. */
  lemma RetryUnloaded(n: nat, s: State)
    requires WellIndexed(s) && s.queue != []
    ensures Decide(n, s, s.queue[0]) == Retry ==> PreparedHead(s) == s
  {
    hide Prepared, TrainBuild;
    if !Prepared(s, s.pool[s.queue[0]]).doEval { UnloadedSame(s); }
  }

  lemma UnloadedSame(s: State)
    requires WellIndexed(s) && s.queue != [] && !Prepared(s, s.pool[s.queue[0]]).doEval
    ensures PreparedHead(s) == s
  {
  }

  lemma {:induction false} UsedAppend(pool: seq<Exp>, es: seq<nat>, e: nat)
    requires Below(es + [e], |pool|) && Below(es, |pool|) && e < |pool|
    ensures UsedBy(pool, es + [e]) == UsedBy(pool, es) + pool[e].runtime
  {
    if es != [] {
      assert (es + [e])[1..] == es[1..] + [e];
      UsedAppend(pool, es[1..], e);
    } else {
      assert (es + [e])[1..] == [];
    }
  }

  lemma {:induction false} UsedFrom(pool: seq<Exp>, es: seq<nat>, gs: set<nat>)
    requires Below(es, |pool|) && gs != {} && gs <= UsedBy(pool, es)
    ensures exists i :: 0 <= i < |es| && pool[es[i]].runtime * gs != {}
  {
    if es != [] && pool[es[0]].runtime * gs == {} {
      forall g | g in gs ensures g in UsedBy(pool, es[1..]) {
        assert g !in pool[es[0]].runtime * gs;
      }
      UsedFrom(pool, es[1..], gs);
    }
  }
}
