/** When the scheduler finishes, and when it cannot. */
module SchedulerProgress {
  import opened Wrappers
  import opened Scheduler
  import opened SchedulerPoll

  ghost predicate NamesDistinct(pool: seq<Exp>) {
    forall i, j | 0 <= i < j < |pool| :: pool[i].name != pool[j].name
  }

  predicate OneExport(pool: seq<Exp>) {
    forall i, j | 0 <= i < j < |pool| :: !(pool[i].cmd == Export && pool[j].cmd == Export)
  }

  predicate Named(files: map<string, Saved>, x: Exp) {
    x.name in files ==> files[x.name].name == x.name
  }

  /** The record file of an experiment, if any, was written for that experiment. */
  predicate Recorded(files: map<string, Saved>, x: Exp) {
    Named(files, x) && (x.name in files ==> files[x.name].cmd == x.cmd)
  }

  predicate Untrained(files: map<string, Saved>, x: Exp) {
    !x.doEval && x.name !in files
  }

  /** Any evaluation fits the machine, and a training command fails to build, if at all, by an assertion. */
  predicate Fits(n: nat, files: map<string, Saved>, x: Exp) {
    && !x.evaluated
    && (x.hasEvalSet || x.doEval ==> x.evalGpu <= n && x.evalBuilds)
    && (Untrained(files, x) ==> TrainBuild(x) != Raises)
  }

  /** What the next look at a waiting experiment finds: it is skipped exactly when it was done from the start. */
  predicate Expects(n: nat, files: map<string, Saved>, x: Exp, done: bool) {
    AlreadyDone(files, x) == done && (!done ==> Fits(n, files, x))
  }

  /** Waiting experiments not yet trained stand by increasing request. */
  predicate Sorted(s: State)
    requires WellIndexed(s)
  {
    forall i, j | 0 <= i < j < |s.queue| && !s.pool[s.queue[i]].doEval && !s.pool[s.queue[j]].doEval ::
      s.pool[s.queue[i]].gpu <= s.pool[s.queue[j]].gpu
  }

  /** Nobody can be lost: every experiment waits, was launched, or was done from the start. */
  ghost predicate Accounted(s: State, done: set<nat>) {
    forall e | 0 <= e < |s.pool| ::
      && (e in done ==> Launches(s.procs, e) == 0)
      && (e in s.queue || e in done || Launches(s.procs, e) >= 1)
  }

  /** A workload on which no call of `run` raises; `done` holds the experiments that were done from the start. */
  ghost predicate Orderly(n: nat, s: State, done: set<nat>) {
    && WellIndexed(s)
    && NamesDistinct(s.pool) && OneExport(s.pool) && Sorted(s) && Accounted(s, done)
    && (forall e | 0 <= e < |s.pool| :: Recorded(s.files, s.pool[e]))
    && (forall i | 0 <= i < |s.queue| :: Expects(n, s.files, s.pool[s.queue[i]], s.queue[i] in done))
    && (forall i | 0 <= i < |s.exps| :: s.exps[i] !in done)
    && (forall i | 0 <= i < |s.exps| :: !s.pool[s.exps[i]].doEval ==>
          Untrained(s.files, s.pool[s.exps[i]]) && Fits(n, s.files, s.pool[s.exps[i]]))
  }

  /** Something runs, or something waits that will not be skipped. */
  ghost predicate Live(s: State, done: set<nat>) {
    s.exps != [] || exists k :: 0 <= k < |s.queue| && s.queue[k] !in done
  }

  /** Nothing runs and everything that waits is done. */
  predicate Idle(s: State)
    requires WellIndexed(s)
  {
    s.exps == [] && forall i | 0 <= i < |s.queue| :: AlreadyDone(s.files, s.pool[s.queue[i]])
  }

  lemma AllFree(n: nat, s: State)
    requires WellIndexed(s) && s.exps == []
    ensures |FreeGpus(n, s)| == n
  {
    assert FreeGpus(n, s) == Devices(n);
  }

  /** A GPU-blocked head that asks for no more than the machine has means something is running. */
  lemma {:induction false} BlockedImpliesRunning(n: nat, s: State, x: Exp)
    requires WellIndexed(s) && Blocked(n, s, x) && Request(x) <= n
    ensures s.exps != []
  {
    if s.exps == [] { AllFree(n, s); }
  }

  /** The five verdicts on the head of an orderly workload; nothing raises. */
  lemma {:induction false} OrderlyHead(n: nat, s: State, done: set<nat>)
    requires Inv(n, s) && Orderly(n, s, done) && s.queue != []
    ensures var e := s.queue[0]; var x := s.pool[e];
      match Decide(n, s, e)
      case Skip => e in done
      case NoFreeGpu => e !in done && (s.exps == [] ==> Untrained(s.files, x) && x.gpu > n)
      case Retry => e !in done && Untrained(s.files, x) && x.gpu <= n && TrainBuild(x) == Asserts
      case Error => false
      case Launch => e !in done && (Untrained(s.files, x) ==> x.gpu <= n && TrainBuild(x) == Builds)
  {
    hide History, LiveListed, Handled, RunningDisjoint, LaunchBound, Accounted, Sorted;
    var e := s.queue[0];
    assert Expects(n, s.files, s.pool[e], e in done);
    OthersRun(s);
    FreeAtMost(Devices(n), FreeGpus(n, s));
    if s.exps == [] { AllFree(n, s); }
  }

  /** The running experiments are not the head, so none shares its name or is a second export. */
  lemma OthersRun(s: State)
    requires Lists(s) && NamesDistinct(s.pool) && OneExport(s.pool) && s.queue != []
    ensures forall i | 0 <= i < |s.exps| :: var e := s.queue[0];
      && s.exps[i] != e && s.pool[s.exps[i]].name != s.pool[e].name
      && !(s.pool[s.exps[i]].cmd == Export && s.pool[e].cmd == Export)
  {
    assert forall i | 0 <= i < |s.exps| :: s.exps[i] in s.exps;
  }

  // ---- Launching and skipping ----

  lemma {:induction false} UsedSame(pool: seq<Exp>, pool': seq<Exp>, es: seq<nat>)
    requires Below(es, |pool|) && |pool| == |pool'|
    requires forall i | 0 <= i < |es| :: pool'[es[i]] == pool[es[i]]
    ensures UsedBy(pool', es) == UsedBy(pool, es)
  {
    if es != [] { UsedSame(pool, pool', es[1..]); }
  }

  /** The state once the head's record file was looked at. */
  function PreparedHead(s: State): State
    requires s.queue != [] && s.queue[0] < |s.pool|
  {
    s.(pool := s.pool[s.queue[0] := Prepared(s, s.pool[s.queue[0]])])
  }

  lemma PreparedFree(n: nat, s: State)
    requires Inv(n, s) && s.queue != []
    ensures var s' := PreparedHead(s);
            && FreeGpus(n, s') == FreeGpus(n, s)
            && forall i | 0 <= i < |s.exps| :: s.exps[i] != s.queue[0] && s'.pool[s.exps[i]] == s.pool[s.exps[i]]
  {
    assert s.queue[0] !in s.exps;
    UsedSame(s.pool, PreparedHead(s).pool, s.exps);
  }

  /** Loading an orderly head changes only its request and its progress flag. */
  lemma PreparedFits(n: nat, s: State, done: set<nat>)
    requires Lists(s) && Orderly(n, s, done) && s.queue != []
    ensures var e := s.queue[0]; var x, y := s.pool[e], PreparedHead(s).pool[e];
      && y == x.(gpu := y.gpu, doEval := y.doEval, evaluated := y.evaluated)
      && (!y.doEval ==> y == x && (e !in done ==> Untrained(s.files, y))) && (x.doEval ==> y.doEval)
      && Recorded(s.files, y) && Expects(n, s.files, y, e in done)
  {
    var e := s.queue[0];
    assert Expects(n, s.files, s.pool[e], e in done) && Recorded(s.files, s.pool[e]);
  }

  lemma PrepareKeepsOrderly(n: nat, s: State, done: set<nat>)
    requires Lists(s) && Orderly(n, s, done) && s.queue != []
    ensures Orderly(n, PreparedHead(s), done)
  {
    PreparedFits(n, s, done);
    hide Expects, Fits, Recorded, Prepared, Launches;
    var e, s' := s.queue[0], PreparedHead(s);
    assert forall i | 0 <= i < |s.exps| :: s.exps[i] in s.exps && s.exps[i] != e;
  }

  /** Taking the prepared head off the queue, as done or launched on `gpus`, keeps the workload orderly. */
  lemma PopKeepsOrderly(n: nat, s: State, done: set<nat>)
    requires Lists(s) && Orderly(n, s, done) && s.queue != [] && s.queue[0] in done
    ensures Orderly(n, Pop(s), done)
  {
    hide Expects, Fits, Recorded, Launches, NamesDistinct, OneExport;
    assert s.queue == [s.queue[0]] + Pop(s).queue;
  }

  lemma SpawnKeepsOrderly(n: nat, s: State, done: set<nat>, gpus: set<nat>, p: Spawned)
    requires Lists(s) && Orderly(n, s, done) && s.queue != [] && s.queue[0] !in done
    ensures Orderly(n, Pop(Spawn(s, s.queue[0], gpus, p.life, p.rc, p.metric)), done)
  {
    PreparedFits(n, s, done);
    PrepareKeepsOrderly(n, s, done);
    SpawnAccounts(s, done, gpus, p);
    hide Prepared, Accounted, Orderly, Expects, Untrained, Fits, Recorded;
    ListHead(n, PreparedHead(s), Pop(Spawn(s, s.queue[0], gpus, p.life, p.rc, p.metric)), done);
  }

  /** The same experiment but for what a launch sets. */
  predicate SameJob(x: Exp, x': Exp) {
    x' == x.(runtime := x'.runtime, handler := x'.handler)
  }

  lemma SameJobLooks(n: nat, files: map<string, Saved>, x: Exp, x': Exp, done: bool)
    requires SameJob(x, x')
    ensures Expects(n, files, x', done) == Expects(n, files, x, done) && Recorded(files, x') == Recorded(files, x)
    ensures Untrained(files, x') == Untrained(files, x) && Fits(n, files, x') == Fits(n, files, x)
    ensures x'.name == x.name && x'.cmd == x.cmd && x'.gpu == x.gpu && x'.doEval == x.doEval
  {
  }

  /** The head, prepared and not done, moves to the running list. */
  lemma ListHead(n: nat, t: State, s': State, done: set<nat>)
    requires Lists(t) && Orderly(n, t, done) && t.queue != [] && t.queue[0] !in done && Accounted(s', done)
    requires !t.pool[t.queue[0]].doEval ==> Untrained(t.files, t.pool[t.queue[0]])
    requires |s'.pool| == |t.pool| && forall e | 0 <= e < |t.pool| :: SameJob(t.pool[e], s'.pool[e])
    requires s'.files == t.files && s'.queue == t.queue[1..] && s'.exps == t.exps + [t.queue[0]]
    ensures Orderly(n, s', done)
  {
    forall e | 0 <= e < |t.pool|
      ensures s'.pool[e].name == t.pool[e].name && s'.pool[e].cmd == t.pool[e].cmd
      ensures s'.pool[e].gpu == t.pool[e].gpu && s'.pool[e].doEval == t.pool[e].doEval
      ensures Recorded(s'.files, s'.pool[e])
      ensures Expects(n, t.files, t.pool[e], e in done) ==> Expects(n, s'.files, s'.pool[e], e in done)
      ensures Untrained(s'.files, s'.pool[e]) == Untrained(t.files, t.pool[e])
      ensures Fits(n, s'.files, s'.pool[e]) == Fits(n, t.files, t.pool[e])
    {
      assert SameJob(t.pool[e], s'.pool[e]);
      SameJobLooks(n, t.files, t.pool[e], s'.pool[e], e in done);
    }
    assert Expects(n, t.files, t.pool[t.queue[0]], false);
    hide Untrained, Fits, Recorded, Accounted, SameJob;
    assert forall i | 0 <= i < |s'.queue| :: s'.queue[i] == t.queue[i + 1];
  }

  lemma SpawnAccounts(s: State, done: set<nat>, gpus: set<nat>, p: Spawned)
    requires Accounted(s, done) && s.queue != [] && s.queue[0] < |s.pool| && s.queue[0] !in done
    ensures Accounted(Pop(Spawn(s, s.queue[0], gpus, p.life, p.rc, p.metric)), done)
  {
    var s' := Pop(Spawn(s, s.queue[0], gpus, p.life, p.rc, p.metric));
    forall e ensures Launches(s'.procs, e) == Launches(s.procs, e) + if e == s.queue[0] then 1 else 0 {
      LaunchesAppend(s.procs, s'.procs[|s.procs|], e);
    }
    assert s.queue == [s.queue[0]] + s'.queue;
  }

  // ---- What a poll does to the record files ----

  function Lookup(files: map<string, Saved>, name: string): Option<Saved> {
    if name in files then Some(files[name]) else None
  }

  /** The record file of `e` after its process was booked. */
  function Written(s: State, e: nat): Option<Saved>
    requires e < |s.pool| && s.pool[e].handler < |s.procs|
  {
    if ProcOf(s, e).rc == 0 && ProcOf(s, e).metric then Some(RecordOf(Booked(s, e)))
    else Lookup(s.files, s.pool[e].name)
  }

  lemma PollOneFiles(s: State, t: State, d: nat, time: nat, e: nat)
    requires Ready(s) && Ready(t) && d in s.exps && t.exps == s.exps && |s.pool| == |t.pool| && t.procs == s.procs
    requires t.pool[d] == s.pool[d] && e < |s.pool| && (e != d ==> s.pool[e].name != s.pool[d].name)
    requires e == d ==> Lookup(t.files, s.pool[e].name) == Lookup(s.files, s.pool[e].name)
    ensures Lookup(PollOne(t, d, time).files, s.pool[e].name) ==
      if ExitOf(s, d) <= time && e == d then Written(s, d) else Lookup(t.files, s.pool[e].name)
  {
  }

  lemma OtherName(s: State, d: nat, e: nat)
    requires NamesDistinct(s.pool) && d < |s.pool| && e < |s.pool|
    ensures e != d ==> s.pool[e].name != s.pool[d].name
  {
  }

  /** The scan, seen from the record file of one experiment. */
  lemma {:induction false} ScanFile(s: State, times: seq<nat>, i: nat, e: nat)
    requires Ready(s) && Distinct(s.exps) && NamesDistinct(s.pool) && i <= |s.exps| && i <= |times| && e < |s.pool|
    ensures Done(s, times, i, e) ==>
      s.pool[e].handler < |s.procs| && Lookup(ScanTo(s, times, i).files, s.pool[e].name) == Written(s, e)
    ensures !Done(s, times, i, e) ==>
      Lookup(ScanTo(s, times, i).files, s.pool[e].name) == Lookup(s.files, s.pool[e].name)
  {
    hide ScanTo, PollOne, Booked, Written, Lookup, NamesDistinct, Done, Distinct, Seen;
    ScanStep(s, times, i);
    DoneStep(s, times, i, e);
    if i > 0 {
      var d, t := s.exps[i - 1], ScanTo(s, times, i - 1);
      ScanFile(s, times, i - 1, e);
      OtherName(s, d, e);
      NotYetDone(s, times, i - 1);
      ScanPool(s, times, i - 1, d);
      PollOneFiles(s, t, d, times[i - 1], e);
    }
  }

  /** A poll, seen from an experiment that was waiting. */
  lemma PolledWaiting(s: State, from: nat, scan: seq<nat>, sweep: seq<nat>, e: nat)
    requires PollOccurs(s, from, scan, sweep) && Distinct(s.exps) && NamesDistinct(s.pool) &&
      e < |s.pool| && e !in s.exps
    ensures var s' := Polled(s, from, scan, sweep);
      && |s'.pool| == |s.pool| && s'.pool[e] == s.pool[e]
      && Lookup(s'.files, s.pool[e].name) == Lookup(s.files, s.pool[e].name)
  {
    var b := s.(clock := from);
    PolledElsewhere(s, from, scan, sweep, e);
    DoneIff(b, scan, |s.exps|, e);
    ScanFile(b, scan, |s.exps|, e);
  }

  lemma SameWritten(s: State, b: State, e: nat)
    requires b == s.(clock := b.clock) && e < |s.pool|
    ensures s.pool[e].handler < |s.procs| ==> Written(b, e) == Written(s, e)
  {
  }

  /** A poll, seen from an experiment that was running. */
  lemma PolledRunning(s: State, from: nat, scan: seq<nat>, sweep: seq<nat>, i: nat)
    requires PollOccurs(s, from, scan, sweep) && Distinct(s.exps) && NamesDistinct(s.pool) && i < |s.exps|
    ensures var e, s' := s.exps[i], Polled(s, from, scan, sweep);
      && |s'.pool| == |s.pool|
      && s'.pool[e] == (if Seen(s, scan, i) then Booked(s, e) else s.pool[e])
      && Lookup(s'.files, s.pool[e].name)
         == (if Seen(s, scan, i) then Written(s, e) else Lookup(s.files, s.pool[e].name))
      && (Seen(s, scan, i) ==> e !in s'.exps)
  {
    hide Booked, Written, Lookup, News, Distinct, ScanTo, Done;
    var b, e := s.(clock := from), s.exps[i];
    SameWritten(s, b, e);
    PolledAt(s, from, scan, sweep, i);
    PolledFrame(s, from, scan, sweep);
    OnlySeen(s, b, scan, i);
    ScanFile(b, scan, |s.exps|, e);
    assert scan[i] == (scan + sweep)[i] && sweep[i] == (scan + sweep)[|scan| + i];
  }

  /** A requeued experiment's record file is the one its evaluation expects. */
  lemma RequeuedFits(n: nat, s: State, files: map<string, Saved>, e: nat)
    requires e < |s.pool| && s.pool[e].handler < |s.procs| && Requeues(s, e) && Fits(n, s.files, s.pool[e])
    requires Lookup(files, s.pool[e].name) == Written(s, e)
    ensures Expects(n, files, Booked(s, e), false)
  {
  }

  lemma BookedRecord(s: State, files: map<string, Saved>, e: nat)
    requires e < |s.pool| && s.pool[e].handler < |s.procs| && Recorded(s.files, s.pool[e])
    requires Lookup(files, s.pool[e].name) == Written(s, e)
    ensures Recorded(files, Booked(s, e)) && Advanced(s.pool[e], Booked(s, e))
  {
  }

  lemma UntouchedFits(n: nat, files: map<string, Saved>, files': map<string, Saved>, x: Exp)
    requires Lookup(files', x.name) == Lookup(files, x.name)
    ensures Recorded(files', x) == Recorded(files, x) && Untrained(files', x) == Untrained(files, x)
    ensures AlreadyDone(files', x) == AlreadyDone(files, x) && Fits(n, files', x) == Fits(n, files, x)
  {
  }

  /** The same experiment after bookkeeping: only its progress flags may have moved forward. */
  predicate Advanced(x: Exp, x': Exp) {
    x' == x.(doEval := x'.doEval, evaluated := x'.evaluated) && (x.doEval ==> x'.doEval)
  }

  /** After a poll, `e` has only advanced, its record file is what its next look expects, and it still waits if
      it did. */
  ghost predicate StillFits(n: nat, s: State, s': State, done: set<nat>, e: nat)
    requires e < |s.pool| == |s'.pool|
  {
    var x' := s'.pool[e];
    && Advanced(s.pool[e], x') && Recorded(s'.files, x')
    && (e in s'.queue ==> Expects(n, s'.files, x', e in done))
    && (e in s'.exps ==> e !in done)
    && (e in s'.exps && !x'.doEval ==> Untrained(s'.files, x') && Fits(n, s'.files, x'))
    && (e in s.queue ==> e in s'.queue)
  }

  /** Where the entries of the new queue come from. */
  lemma QueueSources(n: nat, s: State, from: nat, scan: seq<nat>, sweep: seq<nat>, e: nat)
    requires Inv(n, s) && PollOccurs(s, from, scan, sweep) && e < |s.pool|
    ensures var s' := Polled(s, from, scan, sweep);
      && |s'.pool| == |s.pool| && (e in s'.exps ==> e in s.exps) && (e in s.queue ==> e in s'.queue && e !in s.exps)
      && (e in s'.queue && e !in s.queue ==> e in s.exps && s.pool[e].handler < |s.procs| && Requeues(s, e)
                                             && Done(s.(clock := from), scan, |s.exps|, e))
  {
    hide Polled, ScanTo, History, LiveListed, LaunchBound, Handled, RunningDisjoint, Requeues, Ascending;
    var b := s.(clock := from);
    var news := News(b, scan, |s.exps|);
    PolledFrame(s, from, scan, sweep);
    NewsFacts(b, scan, |s.exps|);
    DoneIff(b, scan, |s.exps|, e);
    SameRequeues(s, b, e);
    hide News, Done;
    var s' := Polled(s, from, scan, sweep);
    assert e in s'.queue <==> e in news || e in s.queue;
    if e in s.queue { var k :| 0 <= k < |s.queue| && s.queue[k] == e; }
  }

  lemma SameRequeues(s: State, b: State, e: nat)
    requires b == s.(clock := b.clock) && e < |s.pool|
    ensures s.pool[e].handler < |s.procs| ==> Requeues(b, e) == Requeues(s, e)
  {
  }

  lemma RunningFits(n: nat, s: State, done: set<nat>, from: nat, scan: seq<nat>, sweep: seq<nat>, i: nat)
    requires Inv(n, s) && Orderly(n, s, done) && PollOccurs(s, from, scan, sweep) && i < |s.exps|
    ensures |Polled(s, from, scan, sweep).pool| == |s.pool|
    ensures StillFits(n, s, Polled(s, from, scan, sweep), done, s.exps[i])
  {
    hide Polled, ScanTo, History, LiveListed, LaunchBound, Handled, RunningDisjoint;
    hide Fits, Recorded, AlreadyDone, Untrained, Expects, Written, News, Booked, Requeues;
    var s', e := Polled(s, from, scan, sweep), s.exps[i];
    QueueSources(n, s, from, scan, sweep, e);
    PolledRunning(s, from, scan, sweep, i);
    OnlySeen(s, s.(clock := from), scan, i);
    assert e in s.exps && Recorded(s.files, s.pool[e]);
    if Seen(s, scan, i) {
      BookedRecord(s, s'.files, e);
      if e in s'.queue { RequeuedTrained(n, s, s'.files, done, i); }
    } else {
      UntouchedFits(n, s.files, s'.files, s.pool[e]);
    }
  }

  lemma RequeuedTrained(n: nat, s: State, files: map<string, Saved>, done: set<nat>, i: nat)
    requires Orderly(n, s, done) && i < |s.exps| && s.pool[s.exps[i]].handler < |s.procs| && Requeues(s, s.exps[i])
    requires Lookup(files, s.pool[s.exps[i]].name) == Written(s, s.exps[i])
    ensures Expects(n, files, Booked(s, s.exps[i]), s.exps[i] in done)
  {
    RequeuedFits(n, s, files, s.exps[i]);
  }

  lemma WaitingFits(n: nat, s: State, done: set<nat>, from: nat, scan: seq<nat>, sweep: seq<nat>, e: nat)
    requires Inv(n, s) && Orderly(n, s, done) && PollOccurs(s, from, scan, sweep) && e < |s.pool| && e !in s.exps
    ensures |Polled(s, from, scan, sweep).pool| == |s.pool|
    ensures StillFits(n, s, Polled(s, from, scan, sweep), done, e)
  {
    hide Polled, ScanTo, History, LiveListed, LaunchBound, Handled, RunningDisjoint, Fits, Recorded, AlreadyDone;
    hide Untrained, News, Requeues;
    QueueSources(n, s, from, scan, sweep, e);
    PolledWaiting(s, from, scan, sweep, e);
    UntouchedFits(n, s.files, Polled(s, from, scan, sweep).files, s.pool[e]);
  }

  lemma AdvancedOrderly(n: nat, s: State, s': State, done: set<nat>)
    requires WellIndexed(s) && WellIndexed(s') && Orderly(n, s, done) && |s'.pool| == |s.pool| && s'.procs == s.procs
    requires Sorted(s') && forall e | 0 <= e < |s.pool| :: StillFits(n, s, s', done, e)
    ensures Orderly(n, s', done)
  {
    hide Expects, Fits, Recorded, Launches, Sorted;
    forall e | 0 <= e < |s.pool|
      ensures s'.pool[e].name == s.pool[e].name && s'.pool[e].cmd == s.pool[e].cmd && Recorded(s'.files, s'.pool[e])
      ensures (e in s'.queue ==> Expects(n, s'.files, s'.pool[e], e in done)) && (e in s.queue ==> e in s'.queue)
      ensures e in s'.exps ==> e !in done
      ensures e in s'.exps && !s'.pool[e].doEval ==> Untrained(s'.files, s'.pool[e]) && Fits(n, s'.files, s'.pool[e])
    {
      assert StillFits(n, s, s', done, e);
    }
  }

  /** Requeued experiments go in front but are trained, so the untrained ones stay sorted. */
  lemma StepKeepsSorted(n: nat, s: State, s': State, news: seq<nat>)
    requires Inv(n, s) && PollStep(s, s', news) && WellIndexed(s') && Sorted(s)
    ensures Sorted(s')
  {
    forall i | 0 <= i < |news| ensures s'.queue[i] == news[i] && s'.pool[news[i]].doEval {}
    forall i | |news| <= i < |s'.queue|
      ensures s'.queue[i] == s.queue[i - |news|] && s'.pool[s'.queue[i]] == s.pool[s'.queue[i]]
    {
      assert s.queue[i - |news|] !in s.exps;
    }
  }

  /** A poll keeps the workload orderly, and whatever waited that is not done still waits. */
  lemma PollKeepsOrderly(n: nat, s: State, done: set<nat>, from: nat, scan: seq<nat>, sweep: seq<nat>)
    requires Inv(n, s) && Orderly(n, s, done) && PollOccurs(s, from, scan, sweep)
    ensures var s' := Polled(s, from, scan, sweep);
      Orderly(n, s', done) && (s.queue == [] || s.queue[0] !in done ==> Live(s', done) || (s'.exps == s'.queue == []))
  {
    hide Polled, PollOccurs, History, LiveListed, LaunchBound, Handled, RunningDisjoint;
    hide Orderly, StillFits, News, Distinct;
    hide PollStep, Sorted;
    var s' := Polled(s, from, scan, sweep);
    PollKeepsInv(n, s, from, scan, sweep);
    var news := PollNews(s, from, scan, sweep);
    OrderlySorted(n, s, done);
    StepKeepsSorted(n, s, s', news);
    forall e | 0 <= e < |s.pool| ensures StillFits(n, s, s', done, e) {
      if e in s.exps {
        var i :| 0 <= i < |s.exps| && s.exps[i] == e;
        RunningFits(n, s, done, from, scan, sweep, i);
      } else {
        WaitingFits(n, s, done, from, scan, sweep, e);
      }
    }
    AdvancedOrderly(n, s, s', done);
    StepKeepsLive(n, s, s', news, done);
  }

  lemma PollNews(s: State, from: nat, scan: seq<nat>, sweep: seq<nat>) returns (news: seq<nat>)
    requires PollOccurs(s, from, scan, sweep) && Distinct(s.exps)
    ensures var s' := Polled(s, from, scan, sweep);
      PollStep(s, s', news) && |s'.pool| == |s.pool| && s'.procs == s.procs
  {
    news := News(s.(clock := from), scan, |s.exps|);
    PollIsStep(s, from, scan, sweep);
    hide Polled;
  }

  lemma OrderlySorted(n: nat, s: State, done: set<nat>)
    requires WellIndexed(s) && Orderly(n, s, done)
    ensures NamesDistinct(s.pool) && Sorted(s) && forall i | 0 <= i < |s.exps| :: s.exps[i] !in done
  {
  }

  lemma StepKeepsLive(n: nat, s: State, s': State, news: seq<nat>, done: set<nat>)
    requires Inv(n, s) && PollStep(s, s', news) && forall i | 0 <= i < |s.exps| :: s.exps[i] !in done
    ensures s.queue == [] || s.queue[0] !in done ==> Live(s', done) || (s'.exps == s'.queue == [])
  {
    if news != [] {
      assert s'.queue[0] == news[0] && news[0] in s.exps;
    } else {
      assert s'.queue == s.queue;
    }
  }

  // ---- An experiment that cannot start ----

  /** Too large for the machine, or without a command that can be assembled. */
  predicate Unstartable(n: nat, x: Exp) {
    x.gpu > n || TrainBuild(x) == Asserts
  }

  /** `e` waits for its first launch, which cannot happen. */
  ghost predicate NeverStarts(n: nat, s: State, e: nat) {
    && e < |s.pool| && e in s.queue && Untrained(s.files, s.pool[e]) && Unstartable(n, s.pool[e])
    && NamesDistinct(s.pool) && forall i | 0 <= i < |s.pool| :: Named(s.files, s.pool[i])
  }

  lemma NeverStartsHead(n: nat, s: State, e: nat)
    requires Inv(n, s) && NeverStarts(n, s, e) && s.queue[0] == e
    ensures Decide(n, s, e) == NoFreeGpu || Decide(n, s, e) == Retry
  {
    hide Inv, Named;
    assert !AlreadyDone(s.files, s.pool[e]) && Prepared(s, s.pool[e]) == s.pool[e];
    HeadName(n, s);
    FreeAtMost(Devices(n), FreeGpus(n, s));
    hide FreeGpus, Prepared;
    assert s.pool[e].gpu > n ==> Blocked(n, s, s.pool[e]);
  }

  lemma HeadName(n: nat, s: State)
    requires Inv(n, s) && NamesDistinct(s.pool) && s.queue != []
    ensures WellIndexed(s)
    ensures forall i | 0 <= i < |s.exps| :: s.pool[s.exps[i]].name != s.pool[s.queue[0]].name
  {
    assert forall i | 0 <= i < |s.exps| :: s.exps[i] in s.exps;
  }

  lemma FreeAtMost(all: set<nat>, some: set<nat>)
    requires some <= all
    ensures |some| <= |all|
  {
    assert all == some + (all - some);
  }

  lemma PrepareKeepsNeverStarts(n: nat, s: State, e: nat)
    requires Inv(n, s) && NeverStarts(n, s, e) && s.queue != []
    ensures NeverStarts(n, PreparedHead(s), e)
  {
    assert Named(s.files, s.pool[s.queue[0]]);
  }

  lemma MoveKeepsNeverStarts(n: nat, s: State, e: nat, s': State)
    requires Inv(n, s) && NeverStarts(n, s, e) && s.queue != [] && s.queue[0] != e
    requires |s'.pool| == |s.pool| && s'.queue == s.queue[1..] && s'.files == s.files && s'.pool[e] == s.pool[e]
    requires forall i | 0 <= i < |s.pool| :: s'.pool[i].name == s.pool[i].name
    ensures NeverStarts(n, s', e)
  {
    assert forall i | 0 <= i < |s.pool| :: Named(s.files, s.pool[i]);
    var k :| 0 <= k < |s.queue| && s.queue[k] == e;
    assert s'.queue[k - 1] == e;
  }

  lemma BookedName(s: State, files: map<string, Saved>, e: nat)
    requires e < |s.pool| && s.pool[e].handler < |s.procs| && Named(s.files, s.pool[e])
    requires Lookup(files, s.pool[e].name) == Written(s, e)
    ensures Booked(s, e).name == s.pool[e].name && Named(files, Booked(s, e))
  {
  }

  lemma SameName(files: map<string, Saved>, files': map<string, Saved>, x: Exp)
    requires Lookup(files', x.name) == Lookup(files, x.name)
    ensures Named(files', x) == Named(files, x) && Untrained(files', x) == Untrained(files, x)
  {
  }

  lemma PollKeepsNamed(s: State, from: nat, scan: seq<nat>, sweep: seq<nat>, e: nat)
    requires PollOccurs(s, from, scan, sweep) && Distinct(s.exps) && NamesDistinct(s.pool) && e < |s.pool|
    requires Named(s.files, s.pool[e])
    ensures var s' := Polled(s, from, scan, sweep);
      |s'.pool| == |s.pool| && s'.pool[e].name == s.pool[e].name && Named(s'.files, s'.pool[e])
  {
    hide Polled, ScanTo, Named, Lookup, Written, Booked, Distinct, NamesDistinct;
    var s' := Polled(s, from, scan, sweep);
    if e in s.exps {
      var i :| 0 <= i < |s.exps| && s.exps[i] == e;
      PolledRunning(s, from, scan, sweep, i);
      if Seen(s, scan, i) { BookedName(s, s'.files, e); } else { SameName(s.files, s'.files, s.pool[e]); }
    } else {
      PolledWaiting(s, from, scan, sweep, e);
      SameName(s.files, s'.files, s.pool[e]);
    }
  }

  lemma PollKeepsNeverStarts(n: nat, s: State, from: nat, scan: seq<nat>, sweep: seq<nat>, e: nat)
    requires Inv(n, s) && NeverStarts(n, s, e) && PollOccurs(s, from, scan, sweep)
    ensures NeverStarts(n, Polled(s, from, scan, sweep), e)
  {
    hide Polled, ScanTo, History, LiveListed, LaunchBound, Handled, RunningDisjoint, News, Requeues, PollOne, Done;
    hide Named, Unstartable, Untrained, PollOccurs;
    var s' := Polled(s, from, scan, sweep);
    QueueSources(n, s, from, scan, sweep, e);
    PolledWaiting(s, from, scan, sweep, e);
    SameName(s.files, s'.files, s.pool[e]);
    forall i | 0 <= i < |s.pool| ensures s'.pool[i].name == s.pool[i].name && Named(s'.files, s'.pool[i]) {
      PollKeepsNamed(s, from, scan, sweep, i);
    }
  }

  // ---- Weights ----

  lemma {:induction false} WeightAtMost(s: State, s': State, k: nat)
    requires |s'.pool| == |s.pool| && k <= |s.pool|
    requires forall i | 0 <= i < |s.pool| :: PhaseWeight(s', i) <= PhaseWeight(s, i)
    ensures Weight(s', k) <= Weight(s, k)
  {
    if k > 0 { WeightAtMost(s, s', k - 1); }
  }

  /** Taking the head off the queue, launched or not, moves no experiment to an earlier phase. */
  lemma PopWeight(s: State, s': State, x: Exp)
    requires Lists(s) && s.queue != [] && |s'.pool| == |s.pool|
    requires s.pool[s.queue[0]].doEval ==> x.doEval
    requires s'.queue == s.queue[1..] && (s'.exps == s.exps || s'.exps == s.exps + [s.queue[0]])
    requires s'.pool[s.queue[0]].doEval == x.doEval
    requires forall i | 0 <= i < |s.pool| && i != s.queue[0] :: s'.pool[i] == s.pool[i]
    ensures forall i | 0 <= i < |s.pool| :: PhaseWeight(s', i) <= PhaseWeight(s, i)
  {
    forall i | 0 <= i < |s.pool| ensures PhaseWeight(s', i) <= PhaseWeight(s, i) {
      assert s.queue == [s.queue[0]] + s'.queue;
      assert forall k | 0 <= k < |s'.queue| :: s'.queue[k] == s.queue[k + 1];
    }
  }

  /** The state the main loop goes on with after `run`: the head is popped unless an assertion failed. */
  function AfterRun(s: State, outcome: Outcome): State
    requires s.queue != []
  {
    if outcome.AssertionFailed? then s else Pop(s)
  }

  /** Until it is loaded or trained, an experiment is the one it was; only a launch has touched it. */
  predicate Untouched(x: Exp, x': Exp) {
    !x'.doEval ==> x' == x.(runtime := x'.runtime, handler := x'.handler)
  }

  /** No experiment falls back to an earlier phase; in particular a retired one stays retired. Record files
      are never removed. */
  ghost predicate Forward(s: State, s': State) {
    && |s'.pool| == |s.pool| && s.files.Keys <= s'.files.Keys
    && forall e | 0 <= e < |s.pool| :: PhaseWeight(s', e) <= PhaseWeight(s, e) && Untouched(s.pool[e], s'.pool[e])
  }

  lemma {:induction false} ScanKeepsFiles(s: State, times: seq<nat>, i: nat)
    requires Ready(s) && i <= |s.exps| && i <= |times|
    ensures s.files.Keys <= ScanTo(s, times, i).files.Keys
  {
    hide ScanTo;
    ScanStep(s, times, i);
    if i > 0 {
      ScanKeepsFiles(s, times, i - 1);
      FinishKeepsFiles(ScanTo(s, times, i - 1), s.exps[i - 1], times[i - 1]);
      hide PollOne;
    }
  }

  lemma FinishKeepsFiles(t: State, d: nat, time: nat)
    requires Ready(t) && d in t.exps
    ensures t.files.Keys <= PollOne(t, d, time).files.Keys
  {
  }

  lemma PollKeepsFiles(s: State, from: nat, scan: seq<nat>, sweep: seq<nat>)
    requires PollOccurs(s, from, scan, sweep)
    ensures s.files.Keys <= Polled(s, from, scan, sweep).files.Keys
  {
    ScanKeepsFiles(s.(clock := from), scan, |s.exps|);
  }

  lemma PollMovesForward(n: nat, s: State, from: nat, scan: seq<nat>, sweep: seq<nat>)
    requires Inv(n, s) && PollOccurs(s, from, scan, sweep)
    ensures Forward(s, Polled(s, from, scan, sweep))
  {
    PollMakesProgress(n, s, from, scan, sweep);
    PollKeepsFiles(s, from, scan, sweep);
    hide Polled, PollOccurs, ScanTo, History, LiveListed, LaunchBound, Handled, RunningDisjoint, PhaseWeight, Distinct;
    forall e | 0 <= e < |s.pool| ensures Untouched(s.pool[e], Polled(s, from, scan, sweep).pool[e]) {
      if e in s.exps {
        var i :| 0 <= i < |s.exps| && s.exps[i] == e;
        PolledAt(s, from, scan, sweep, i);
      } else {
        PolledElsewhere(s, from, scan, sweep, e);
      }
    }
  }

  /** Without a running process no poll ever returns. */
  lemma {:induction false} NoPollReturns(s: State, from: nat, scan: seq<nat>, sweep: seq<nat>)
    requires s.exps == []
    ensures !PollOccurs(s, from, scan, sweep)
  {
  }

  lemma {:induction false} RunKeepsInv(n: nat, s: State, s': State, outcome: Outcome, gpus: set<nat>, p: Spawned)
    requires Inv(n, s) && s.queue != [] && RunOccurs(n, s, s', outcome, gpus, p)
    ensures s'.queue == s.queue && Inv(n, AfterRun(s', outcome))
  {
    hide LiveListed, History, RunningDisjoint, LaunchBound, Handled, Distinct;
    match Decide(n, s, s.queue[0])
    case Skip => PopKeepsInv(n, s);
    case NoFreeGpu => PrepareKeepsInv(n, s);
    case Retry =>
    case Error =>
      PrepareKeepsInv(n, s);
      PopKeepsInv(n, s');
    case Launch => SpawnKeepsInv(n, s, gpus, p.life, p.rc, p.metric);
  }

  lemma {:induction false} RunMovesForward(n: nat, s: State, s': State, outcome: Outcome, gpus: set<nat>, p: Spawned)
    requires Inv(n, s) && s.queue != [] && RunOccurs(n, s, s', outcome, gpus, p)
    ensures s'.queue == s.queue && Forward(s, AfterRun(s', outcome))
  {
    hide LiveListed, History, RunningDisjoint, LaunchBound, Handled;
    if !outcome.AssertionFailed? {
      PopWeight(s, Pop(s'), s'.pool[s.queue[0]]);
    }
  }

  /** On an orderly workload a call of `run` and the pop keep it so, and never leave it without work to do. */
  lemma {:induction false} RunKeepsOrderly(
      n: nat, s: State, s': State, outcome: Outcome, gpus: set<nat>, p: Spawned, done: set<nat>)
    requires Inv(n, s) && Orderly(n, s, done) && s.queue != [] && RunOccurs(n, s, s', outcome, gpus, p)
    ensures s'.queue == s.queue && Orderly(n, AfterRun(s', outcome), done)
    ensures Live(s, done) ==> Live(AfterRun(s', outcome), done)
    ensures outcome == AssertionFailed(true) ==> WellIndexed(s') && Decide(n, s', s'.queue[0]) == NoFreeGpu
  {
    hide LiveListed, History, RunningDisjoint, LaunchBound, Handled, Prepared, Orderly, Decide;
    OrderlyHead(n, s, done);
    match Decide(n, s, s.queue[0])
    case Skip =>
      PopKeepsOrderly(n, s, done);
      assert s.queue == [s.queue[0]] + Pop(s').queue;
    case NoFreeGpu =>
      PrepareKeepsOrderly(n, s, done);
      StillBlocked(n, s, done);
    case Retry =>
    case Launch => SpawnKeepsOrderly(n, s, done, gpus, p);
  }

  /** A blocked orderly head is blocked again when `run` looks at it once more. */
  lemma StillBlocked(n: nat, s: State, done: set<nat>)
    requires Inv(n, s) && Orderly(n, s, done) && s.queue != [] && Decide(n, s, s.queue[0]) == NoFreeGpu
    ensures Decide(n, PreparedHead(s), s.queue[0]) == NoFreeGpu
  {
    PreparedFree(n, s);
    PreparedFits(n, s, done);
    hide FreeGpus;
  }

  /** Whatever the workload, a head without free GPUs is left blocked. */
  lemma {:induction false} LeftBlocked(n: nat, s: State)
    requires Inv(n, s) && s.queue != [] && Decide(n, s, s.queue[0]) == NoFreeGpu
    ensures Blocked(n, PreparedHead(s), PreparedHead(s).pool[s.queue[0]])
  {
    PreparedFree(n, s);
    hide FreeGpus;
  }

  /** With nothing running and everything done, `run` skips the head. */
  lemma {:induction false} RunKeepsIdle(n: nat, s: State, s': State, outcome: Outcome, gpus: set<nat>, p: Spawned)
    requires Inv(n, s) && Idle(s) && s.queue != [] && RunOccurs(n, s, s', outcome, gpus, p)
    ensures outcome == Returned && s' == s && Idle(AfterRun(s', outcome))
  {
    assert AlreadyDone(s.files, s.pool[s.queue[0]]);
  }

  lemma {:induction false} RunKeepsNeverStarts(
      n: nat, s: State, s': State, outcome: Outcome, gpus: set<nat>, p: Spawned, e: nat)
    requires Inv(n, s) && NeverStarts(n, s, e) && s.queue != [] && RunOccurs(n, s, s', outcome, gpus, p)
    ensures s'.queue == s.queue && NeverStarts(n, AfterRun(s', outcome), e)
  {
    hide LiveListed, History, RunningDisjoint, LaunchBound, Handled;
    if s.queue[0] == e {
      NeverStartsHead(n, s, e);
      PrepareKeepsNeverStarts(n, s, e);
    } else if outcome.AssertionFailed? {
      PrepareKeepsNeverStarts(n, s, e);
    } else {
      MoveKeepsNeverStarts(n, s, e, Pop(s'));
    }
  }
}
