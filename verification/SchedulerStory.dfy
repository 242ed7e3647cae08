/** What the process table tells about every experiment: which processes it had, with which GPUs, and why. */
module SchedulerStory {
  import opened Wrappers
  import opened Scheduler
  import opened SchedulerPoll
  import opened SchedulerProgress

  /** Experiment `e` had a process of this kind. */
  ghost predicate Ran(procs: seq<Proc>, e: nat, eval: bool) {
    exists q :: 0 <= q < |procs| && procs[q].exp == e && procs[q].eval == eval
  }

  /** One that succeeded and left its metric. */
  ghost predicate Succeeded(procs: seq<Proc>, e: nat, eval: bool) {
    exists q :: 0 <= q < |procs| && procs[q].exp == e && procs[q].eval == eval && procs[q].rc == 0 && procs[q].metric
  }

  /** Experiments with names of their own, records that are theirs, and nothing evaluated in memory yet. */
  ghost predicate Registered(xs: seq<Exp>, files: map<string, Saved>) {
    NamesDistinct(xs) && forall e | 0 <= e < |xs| :: Recorded(files, xs[e]) && !xs[e].evaluated
  }

  /** Process `p` has the GPUs its experiment asks for. A training is the experiment's first process and only for
      want of a record; an evaluation was asked for, or resumes a record, or follows a training that succeeded. */
  ghost predicate ProcStory(xs: seq<Exp>, files0: map<string, Saved>, procs: seq<Proc>, p: nat)
    requires p < |procs|
  {
    var e := procs[p].exp;
    && e < |xs|
    && |procs[p].gpus| == (if procs[p].eval then xs[e].evalGpu else xs[e].gpu)
    && (!procs[p].eval ==>
          && !xs[e].doEval && xs[e].name !in files0
          && forall q | 0 <= q < p :: procs[q].exp != e)
    && (procs[p].eval ==>
          xs[e].doEval || xs[e].name in files0 || (xs[e].hasEvalSet && Succeeded(procs[..p], e, false)))
  }

  /** No export is started while a process of another export lives. */
  ghost predicate ExportsApart(xs: seq<Exp>, procs: seq<Proc>) {
    forall p, q | 0 <= p < q < |procs| && procs[p].exp < |xs| && procs[q].exp < |xs| ::
      !procs[q].eval && xs[procs[p].exp].cmd == Export && xs[procs[q].exp].cmd == Export ==>
        procs[p].exit <= procs[q].start
  }

  /** Experiment `x0` of the start, as it is now: evaluations and records come from the start or from a success. */
  ghost predicate ExpStory(
    x0: Exp, files0: map<string, Saved>, files: map<string, Saved>, procs: seq<Proc>, x: Exp, e: nat)
  {
    && x.name == x0.name && x.cmd == x0.cmd && x.hasEvalSet == x0.hasEvalSet && x.evalGpu == x0.evalGpu
    && (!x.doEval ==> !x0.doEval && x.gpu == x0.gpu && !x.evaluated && !Ran(procs, e, true))
    && (x.doEval ==> x0.doEval || x0.name in files0 || (x0.hasEvalSet && Succeeded(procs, e, false)))
    && Recorded(files, x)
    && (x0.name in files0 ==> x0.name in files)
    && (x0.name in files && x0.name !in files0 ==> Succeeded(procs, e, false) || Succeeded(procs, e, true))
    && (x0.name in files && files[x0.name].evaluated ==>
          (x0.name in files0 && files0[x0.name].evaluated) || Succeeded(procs, e, true))
  }

  ghost predicate Story(xs: seq<Exp>, files0: map<string, Saved>, s: State) {
    && |s.pool| == |xs| && NamesDistinct(xs) && ExportsApart(xs, s.procs)
    && (forall e | 0 <= e < |xs| :: ExpStory(xs[e], files0, s.files, s.procs, s.pool[e], e))
    && forall p | 0 <= p < |s.procs| :: ProcStory(xs, files0, s.procs, p)
  }

  /** A record written by this run leads to an evaluation, or to its place in the queue. */
  ghost predicate Due(xs: seq<Exp>, files0: map<string, Saved>, s: State) {
    |s.pool| == |xs| && forall e | 0 <= e < |xs| :: DueAt(xs[e], files0, s, e)
  }

  ghost predicate DueAt(x0: Exp, files0: map<string, Saved>, s: State, e: nat)
    requires e < |s.pool|
  {
    x0.hasEvalSet && x0.name in s.files && x0.name !in files0 && !Ran(s.procs, e, true) ==>
      e in s.queue && s.pool[e].doEval
  }

  lemma StoryNames(xs: seq<Exp>, files0: map<string, Saved>, s: State)
    requires Story(xs, files0, s)
    ensures |s.pool| == |xs| && NamesDistinct(s.pool)
    ensures forall e | 0 <= e < |xs| :: s.pool[e].name == xs[e].name && s.pool[e].cmd == xs[e].cmd
  {
    hide Ran, Succeeded, Recorded, ProcStory, ExportsApart;
    assert forall e | 0 <= e < |xs| :: ExpStory(xs[e], files0, s.files, s.procs, s.pool[e], e);
  }

  lemma StoryBegins(xs: seq<Exp>, s: State)
    requires Registered(xs, s.files) && s.pool == xs && s.procs == []
    ensures Story(xs, s.files, s) && Due(xs, s.files, s)
  {
  }

  // ---- A call of `run` ----

  lemma PreparedStory(x0: Exp, files0: map<string, Saved>, s: State, e: nat)
    requires e < |s.pool| && ExpStory(x0, files0, s.files, s.procs, s.pool[e], e)
    ensures ExpStory(x0, files0, s.files, s.procs, Prepared(s, s.pool[e]), e)
  {
    assert Succeeded(s.procs, e, true) ==> Ran(s.procs, e, true);
  }

  lemma MoreProcs(procs: seq<Proc>, p: Proc, e: nat, eval: bool)
    ensures Succeeded(procs, e, eval) ==> Succeeded(procs + [p], e, eval)
    ensures Ran(procs + [p], e, eval) == (Ran(procs, e, eval) || (p.exp == e && p.eval == eval))
  {
    var more := procs + [p];
    if Succeeded(procs, e, eval) {
      var q :| 0 <= q < |procs| && procs[q].exp == e && procs[q].eval == eval && procs[q].rc == 0 && procs[q].metric;
      assert more[q] == procs[q];
    }
    if Ran(procs, e, eval) {
      var q :| 0 <= q < |procs| && procs[q].exp == e && procs[q].eval == eval;
      assert more[q] == procs[q];
    }
    if p.exp == e && p.eval == eval { assert more[|procs|] == p; }
    if Ran(more, e, eval) {
      var q :| 0 <= q < |more| && more[q].exp == e && more[q].eval == eval;
      assert q < |procs| ==> more[q] == procs[q];
    }
  }

  lemma SpawnedStory(
      x0: Exp, files0: map<string, Saved>, files: map<string, Saved>, procs: seq<Proc>,
      p: Proc, x: Exp, x': Exp, e: nat)
    requires ExpStory(x0, files0, files, procs, x, e) && x' == x.(runtime := x'.runtime, handler := x'.handler)
    requires p.exp == e ==> p.eval == x.doEval
    ensures ExpStory(x0, files0, files, procs + [p], x', e)
  {
    hide Ran, Succeeded;
    MoreProcs(procs, p, e, true);
    MoreProcs(procs, p, e, false);
  }

  lemma {:induction false} NoLaunch(procs: seq<Proc>, e: nat)
    requires Launches(procs, e) == 0
    ensures forall q | 0 <= q < |procs| :: procs[q].exp != e
  {
    if procs != [] { NoLaunch(procs[..|procs| - 1], e); }
  }

  lemma SameProc(xs: seq<Exp>, files0: map<string, Saved>, procs: seq<Proc>, more: Proc, p: nat)
    requires p < |procs| && ProcStory(xs, files0, procs, p)
    ensures ProcStory(xs, files0, procs + [more], p)
  {
    hide Succeeded;
    assert (procs + [more])[..p] == procs[..p];
  }

  /** A launched head, seen from its new process. */
  lemma NewProc(n: nat, xs: seq<Exp>, files0: map<string, Saved>, s: State, gpus: set<nat>, p: Spawned)
    requires Inv(n, s) && Story(xs, files0, s) && s.queue != [] && Decide(n, s, s.queue[0]) == Launch
    requires |gpus| == Request(Prepared(s, s.pool[s.queue[0]]))
    ensures ProcStory(xs, files0, Spawn(s, s.queue[0], gpus, p.life, p.rc, p.metric).procs, |s.procs|)
  {
    hide History, LiveListed, Handled, RunningDisjoint, Distinct, Ran, Succeeded, Blocked, TrainBuild, ExportsApart;
    var e := s.queue[0];
    var x, procs := Prepared(s, s.pool[e]), Spawn(s, e, gpus, p.life, p.rc, p.metric).procs;
    assert ExpStory(xs[e], files0, s.files, s.procs, s.pool[e], e);
    PreparedStory(xs[e], files0, s, e);
    assert procs[..|s.procs|] == s.procs;
    if !x.doEval {
      NoLaunch(s.procs, e);
      assert forall q | 0 <= q < |s.procs| :: procs[q] == s.procs[q];
    }
  }

  lemma NewExport(n: nat, xs: seq<Exp>, files0: map<string, Saved>, s: State, gpus: set<nat>, p: Spawned)
    requires Inv(n, s) && Story(xs, files0, s) && s.queue != [] && Decide(n, s, s.queue[0]) == Launch
    ensures ExportsApart(xs, Spawn(s, s.queue[0], gpus, p.life, p.rc, p.metric).procs)
  {
    hide Handled, RunningDisjoint, Distinct, LaunchBound, Story, ExpStory, ProcStory, Blocked, TrainBuild;
    var e := s.queue[0];
    StoryNames(xs, files0, s);
    StoryExports(xs, files0, s);
    PreparedName(xs, files0, s, e);
    forall q | 0 <= q < |s.procs| && s.procs[q].exit > s.clock && !Prepared(s, s.pool[e]).doEval
      ensures s.procs[q].exp < |xs| && !(xs[s.procs[q].exp].cmd == Export && xs[e].cmd == Export)
    {
      var i :| 0 <= i < |s.exps| && s.exps[i] == s.procs[q].exp;
    }
  }

  /** The verdict on the head, from its record and its own fields: a complete record is skipped; with an incomplete one,
      or when an evaluation was asked for, the evaluation's GPUs and command decide; otherwise running names come first,
      then running exports, then the training's GPUs and command. */
  lemma VerdictMeans(n: nat, s: State)
    requires Inv(n, s) && s.queue != []
    ensures var e := s.queue[0]; var x := s.pool[e];
      var recorded := x.name in s.files;
      var complete := recorded && (!x.hasEvalSet || s.files[x.name].evaluated);
      var evaluates := x.doEval || recorded;
      var needs := if evaluates then x.evalGpu else x.gpu;
      var short := needs > 0 && |FreeGpus(n, s)| < needs;
      var twin := exists i :: 0 <= i < |s.exps| && s.pool[s.exps[i]].name == x.name;
      var exporting := x.cmd == Export && exists i :: 0 <= i < |s.exps| && s.pool[s.exps[i]].cmd == Export;
      var trainable := x.cmd == Sft || x.cmd == Rlhf || x.cmd == Export;
      Decide(n, s, e) ==
        if complete then Skip
        else if evaluates then (if short then NoFreeGpu else if x.evalBuilds then Launch else Error)
        else if twin then Error
        else if exporting then Retry
        else if short then NoFreeGpu
        else if !trainable || x.trainBuild == Raises then Error
        else if x.trainBuild == Asserts then Retry
        else Launch
  {
    hide FreeGpus, History, LiveListed, Handled, RunningDisjoint, LaunchBound;
  }

  /** A training starts only beside experiments of other names, and an export beside no other export. */
  lemma LaunchAlone(n: nat, s: State, i: nat)
    requires Inv(n, s) && s.queue != [] && Decide(n, s, s.queue[0]) == Launch && i < |s.exps|
    requires !s.pool[s.queue[0]].doEval && s.pool[s.queue[0]].name !in s.files
    ensures var e, d := s.queue[0], s.exps[i];
      && s.pool[d].name != s.pool[e].name
      && !(s.pool[d].cmd == Export && s.pool[e].cmd == Export)
  {
    hide Blocked, TrainBuild, History, LiveListed, Handled, RunningDisjoint, LaunchBound;
  }

  lemma StoryExports(xs: seq<Exp>, files0: map<string, Saved>, s: State)
    requires Story(xs, files0, s)
    ensures ExportsApart(xs, s.procs)
  {
  }

  lemma PreparedName(xs: seq<Exp>, files0: map<string, Saved>, s: State, e: nat)
    requires Story(xs, files0, s) && e < |xs|
    ensures Prepared(s, s.pool[e]).name == xs[e].name && Prepared(s, s.pool[e]).cmd == xs[e].cmd
  {
    hide Ran, Succeeded;
    assert ExpStory(xs[e], files0, s.files, s.procs, s.pool[e], e);
    PreparedStory(xs[e], files0, s, e);
  }

  lemma SpawnKeepsStory(n: nat, xs: seq<Exp>, files0: map<string, Saved>, s: State, gpus: set<nat>, p: Spawned)
    requires Inv(n, s) && Story(xs, files0, s) && s.queue != [] && Decide(n, s, s.queue[0]) == Launch
    requires |gpus| == Request(Prepared(s, s.pool[s.queue[0]]))
    ensures Story(xs, files0, Pop(Spawn(s, s.queue[0], gpus, p.life, p.rc, p.metric)))
  {
    InvIndexed(n, s);
    hide Inv, ExpStory, ProcStory, Decide, Prepared, ExportsApart;
    var e := s.queue[0];
    var s' := Pop(Spawn(s, e, gpus, p.life, p.rc, p.metric));
    NewProc(n, xs, files0, s, gpus, p);
    NewExport(n, xs, files0, s, gpus, p);
    forall r | 0 <= r < |xs| ensures ExpStory(xs[r], files0, s'.files, s'.procs, s'.pool[r], r) {
      PreparedStory(xs[r], files0, s, r);
      var x := if r == e then Prepared(s, s.pool[e]) else s.pool[r];
      SpawnedStory(xs[r], files0, s.files, s.procs, s'.procs[|s.procs|], x, s'.pool[r], r);
    }
    forall q | 0 <= q < |s'.procs| ensures ProcStory(xs, files0, s'.procs, q) {
      if q < |s.procs| { SameProc(xs, files0, s.procs, s'.procs[|s.procs|], q); }
    }
  }

  lemma PrepareKeepsStory(xs: seq<Exp>, files0: map<string, Saved>, s: State)
    requires WellIndexed(s) && Story(xs, files0, s) && s.queue != []
    ensures Story(xs, files0, PreparedHead(s))
  {
    hide ExpStory, ProcStory, Prepared, ExportsApart;
    forall r | 0 <= r < |xs| ensures ExpStory(xs[r], files0, s.files, s.procs, PreparedHead(s).pool[r], r) {
      PreparedStory(xs[r], files0, s, r);
    }
  }

  lemma PopKeepsStory(xs: seq<Exp>, files0: map<string, Saved>, s: State)
    requires Story(xs, files0, s) && s.queue != []
    ensures Story(xs, files0, Pop(s))
  {
    hide ExpStory, ProcStory, ExportsApart;
  }

  lemma {:induction false} RunKeepsStory(
      n: nat, xs: seq<Exp>, files0: map<string, Saved>, s: State, s': State,
      outcome: Outcome, gpus: set<nat>, p: Spawned)
    requires Inv(n, s) && Story(xs, files0, s) && s.queue != [] && RunOccurs(n, s, s', outcome, gpus, p)
    ensures s'.queue == s.queue && Story(xs, files0, AfterRun(s', outcome))
  {
    InvIndexed(n, s);
    hide Inv, Story, Decide, Prepared;
    match Decide(n, s, s.queue[0])
    case Skip => PopKeepsStory(xs, files0, s);
    case NoFreeGpu => PrepareKeepsStory(xs, files0, s);
    case Retry =>
    case Error =>
      PrepareKeepsStory(xs, files0, s);
      PopKeepsStory(xs, files0, s');
    case Launch => SpawnKeepsStory(n, xs, files0, s, gpus, p);
  }

  lemma InvIndexed(n: nat, s: State)
    requires Inv(n, s)
    ensures WellIndexed(s)
  {
  }

  /** A head that is due is not dropped: it is launched, blocked, or its evaluation was done. */
  lemma DueHead(n: nat, xs: seq<Exp>, files0: map<string, Saved>, s: State, s': State, outcome: Outcome,
                gpus: set<nat>, p: Spawned)
    requires Inv(n, s) && Story(xs, files0, s) && s.queue != [] && RunOccurs(n, s, s', outcome, gpus, p)
    requires Decide(n, s, s.queue[0]) != Error && DueAt(xs[s.queue[0]], files0, s, s.queue[0])
    ensures s'.queue == s.queue && |s'.pool| == |xs|
    ensures DueAt(xs[s.queue[0]], files0, AfterRun(s', outcome), s.queue[0])
  {
    hide History, LiveListed, Handled, RunningDisjoint, LaunchBound, Distinct, Blocked;
    hide TrainBuild, ExportsApart, ProcStory;
    var e := s.queue[0];
    assert ExpStory(xs[e], files0, s.files, s.procs, s.pool[e], e);
    assert Succeeded(s.procs, e, true) ==> Ran(s.procs, e, true);
    if Decide(n, s, e) == Launch {
      assert s'.procs[|s.procs|].exp == e;
    }
  }

  lemma DueOther(s: State, s': State, x0: Exp, files0: map<string, Saved>, e: nat)
    requires e < |s.pool| == |s'.pool| && s.queue != [] && e != s.queue[0] && DueAt(x0, files0, s, e)
    requires s'.files == s.files && s'.pool[e] == s.pool[e] && (s'.queue == s.queue || s'.queue == s.queue[1..])
    requires |s.procs| <= |s'.procs| && s'.procs[..|s.procs|] == s.procs
    ensures DueAt(x0, files0, s', e)
  {
    if Ran(s.procs, e, true) {
      var q :| 0 <= q < |s.procs| && s.procs[q].exp == e && s.procs[q].eval;
      assert s'.procs[q] == s.procs[q];
    } else if e in s.queue {
      assert s.queue == [s.queue[0]] + s.queue[1..];
    }
  }

  lemma {:induction false} RunKeepsDue(
      n: nat, xs: seq<Exp>, files0: map<string, Saved>, s: State, s': State,
      outcome: Outcome, gpus: set<nat>, p: Spawned)
    requires Inv(n, s) && Story(xs, files0, s) && s.queue != [] && RunOccurs(n, s, s', outcome, gpus, p)
    requires Due(xs, files0, s) && Decide(n, s, s.queue[0]) != Error
    ensures s'.queue == s.queue && Due(xs, files0, AfterRun(s', outcome))
  {
    hide DueAt;
    DueHead(n, xs, files0, s, s', outcome, gpus, p);
    hide Inv, Story, Decide, Prepared, Ran;
    forall e | 0 <= e < |xs| ensures DueAt(xs[e], files0, AfterRun(s', outcome), e) {
      if e != s.queue[0] { DueOther(s, AfterRun(s', outcome), xs[e], files0, e); }
    }
  }

  // ---- A returning poll ----

  lemma BookedStory(x0: Exp, files0: map<string, Saved>, s: State, files: map<string, Saved>, e: nat)
    requires e < |s.pool| && s.pool[e].handler < |s.procs| && ExpStory(x0, files0, s.files, s.procs, s.pool[e], e)
    requires ProcOf(s, e).exp == e && ProcOf(s, e).eval == s.pool[e].doEval
    requires Lookup(files, s.pool[e].name) == Written(s, e)
    ensures ExpStory(x0, files0, files, s.procs, Booked(s, e), e)
  {
    hide Ran;
    var p := ProcOf(s, e);
    if p.rc == 0 && p.metric { assert Succeeded(s.procs, e, p.eval); }
  }

  lemma SameStory(x0: Exp, files0: map<string, Saved>, s: State, files: map<string, Saved>, e: nat)
    requires e < |s.pool| && ExpStory(x0, files0, s.files, s.procs, s.pool[e], e)
    requires Lookup(files, s.pool[e].name) == Lookup(s.files, s.pool[e].name)
    ensures ExpStory(x0, files0, files, s.procs, s.pool[e], e)
  {
    hide Ran, Succeeded;
  }

  lemma PollKeepsStory(
      n: nat, xs: seq<Exp>, files0: map<string, Saved>, s: State, from: nat, scan: seq<nat>, sweep: seq<nat>)
    requires Inv(n, s) && Story(xs, files0, s) && PollOccurs(s, from, scan, sweep)
    ensures Story(xs, files0, Polled(s, from, scan, sweep))
  {
    hide Polled, Ascending, History, LiveListed, LaunchBound, RunningDisjoint, ExpStory, ProcStory, ExportsApart;
    hide Written, Booked, Lookup, Seen, News;
    var s' := Polled(s, from, scan, sweep);
    StoryNames(xs, files0, s);
    PolledFrame(s, from, scan, sweep);
    forall e | 0 <= e < |xs| ensures ExpStory(xs[e], files0, s'.files, s.procs, s'.pool[e], e) {
      if e in s.exps {
        var i :| 0 <= i < |s.exps| && s.exps[i] == e;
        PolledRunning(s, from, scan, sweep, i);
        if Seen(s, scan, i) {
          BookedStory(xs[e], files0, s, s'.files, e);
        } else {
          SameStory(xs[e], files0, s, s'.files, e);
        }
      } else {
        PolledWaiting(s, from, scan, sweep, e);
        SameStory(xs[e], files0, s, s'.files, e);
      }
    }
  }

  lemma {:induction false} NewsHas(s: State, times: seq<nat>, i: nat, e: nat)
    requires Ready(s) && i <= |s.exps| && i <= |times| && e < |s.pool| && s.pool[e].handler < |s.procs|
    requires Done(s, times, i, e) && Requeues(s, e)
    ensures e in News(s, times, i)
  {
    if !(s.exps[i - 1] == e && Seen(s, times, i - 1)) { NewsHas(s, times, i - 1, e); }
  }

  lemma RequeuedWaits(s: State, from: nat, scan: seq<nat>, sweep: seq<nat>, i: nat)
    requires PollOccurs(s, from, scan, sweep) && Distinct(s.exps) && i < |s.exps|
    requires Seen(s, scan, i) && s.pool[s.exps[i]].handler < |s.procs| && Requeues(s, s.exps[i])
    ensures s.exps[i] in Polled(s, from, scan, sweep).queue
  {
    hide Polled, ScanTo, Done, News, Ascending, Requeues;
    var b := s.(clock := from);
    PolledFrame(s, from, scan, sweep);
    OnlySeen(s, b, scan, i);
    SameRequeues(s, b, s.exps[i]);
    NewsHas(b, scan, |s.exps|, s.exps[i]);
  }

  lemma DueRunning(
      n: nat, x0: Exp, files0: map<string, Saved>, s: State, from: nat, scan: seq<nat>, sweep: seq<nat>, i: nat)
    requires Inv(n, s) && NamesDistinct(s.pool) && PollOccurs(s, from, scan, sweep) && i < |s.exps|
    requires x0.name == s.pool[s.exps[i]].name && x0.hasEvalSet == s.pool[s.exps[i]].hasEvalSet
    requires DueAt(x0, files0, s, s.exps[i])
    ensures |Polled(s, from, scan, sweep).pool| == |s.pool| &&
      DueAt(x0, files0, Polled(s, from, scan, sweep), s.exps[i])
  {
    hide Polled, Ascending, History, LiveListed, LaunchBound, RunningDisjoint, News;
    var e := s.exps[i];
    assert e in s.exps;
    PolledFrame(s, from, scan, sweep);
    PolledRunning(s, from, scan, sweep, i);
    if Seen(s, scan, i) {
      if Requeues(s, e) { RequeuedWaits(s, from, scan, sweep, i); }
      if s.pool[e].doEval { assert Ran(s.procs, e, true); }
    }
  }

  lemma DueWaiting(
      n: nat, x0: Exp, files0: map<string, Saved>, s: State, from: nat, scan: seq<nat>, sweep: seq<nat>, e: nat)
    requires Inv(n, s) && NamesDistinct(s.pool) && PollOccurs(s, from, scan, sweep) && e < |s.pool| && e !in s.exps
    requires x0.name == s.pool[e].name && DueAt(x0, files0, s, e)
    ensures |Polled(s, from, scan, sweep).pool| == |s.pool| && DueAt(x0, files0, Polled(s, from, scan, sweep), e)
  {
    hide Polled, Ascending, History, LiveListed, LaunchBound, RunningDisjoint, News, Handled;
    PolledFrame(s, from, scan, sweep);
    PolledWaiting(s, from, scan, sweep, e);
    QueueSources(n, s, from, scan, sweep, e);
  }

  lemma PollKeepsDue(
      n: nat, xs: seq<Exp>, files0: map<string, Saved>, s: State, from: nat, scan: seq<nat>, sweep: seq<nat>)
    requires Inv(n, s) && Story(xs, files0, s) && Due(xs, files0, s) && PollOccurs(s, from, scan, sweep)
    ensures Due(xs, files0, Polled(s, from, scan, sweep))
  {
    hide Polled, PollOccurs, History, LiveListed, LaunchBound, RunningDisjoint, ExpStory, ProcStory;
    hide ExportsApart, DueAt;
    StoryNames(xs, files0, s);
    forall e | 0 <= e < |xs| ensures |Polled(s, from, scan, sweep).pool| == |xs|
      && DueAt(xs[e], files0, Polled(s, from, scan, sweep), e)
    {
      StoryEvalSet(xs, files0, s, e);
      if e in s.exps {
        var i :| 0 <= i < |s.exps| && s.exps[i] == e;
        DueRunning(n, xs[e], files0, s, from, scan, sweep, i);
      } else {
        DueWaiting(n, xs[e], files0, s, from, scan, sweep, e);
      }
    }
    PolledSize(s, from, scan, sweep);
  }

  lemma PolledSize(s: State, from: nat, scan: seq<nat>, sweep: seq<nat>)
    requires PollOccurs(s, from, scan, sweep)
    ensures |Polled(s, from, scan, sweep).pool| == |s.pool|
  {
  }

  lemma StoryEvalSet(xs: seq<Exp>, files0: map<string, Saved>, s: State, e: nat)
    requires Story(xs, files0, s) && e < |xs|
    ensures s.pool[e].hasEvalSet == xs[e].hasEvalSet
  {
    hide Ran, Succeeded;
    assert ExpStory(xs[e], files0, s.files, s.procs, s.pool[e], e);
  }

  /** What a poll makes of a process it sees exited. A training that succeeded leaves its record and, with an
      evaluation set, waits for its evaluation in front of the queue; an evaluation that succeeded completes the
      record; a failure changes nothing. */
  lemma PollBooks(n: nat, s: State, from: nat, scan: seq<nat>, sweep: seq<nat>, i: nat)
    requires Inv(n, s) && NamesDistinct(s.pool) && PollOccurs(s, from, scan, sweep) && i < |s.exps|
    requires s.procs[s.pool[s.exps[i]].handler].exit <= scan[i]
    ensures var e, s' := s.exps[i], Polled(s, from, scan, sweep);
      var x, p := s.pool[e], s.procs[s.pool[e].handler];
      && |s'.pool| == |s.pool| && e !in s'.exps && p.exp == e && p.eval == x.doEval
      && (p.rc == 0 && p.metric && !p.eval ==>
            && x.name in s'.files && s'.files[x.name] == Saved(x.name, x.cmd, x.gpu, x.evaluated)
            && s'.pool[e] == x.(doEval := x.hasEvalSet) && (x.hasEvalSet <==> e in s'.queue))
      && (p.rc == 0 && p.metric && p.eval ==>
            && x.name in s'.files && s'.files[x.name] == Saved(x.name, x.cmd, x.gpu, true)
            && s'.pool[e] == x.(evaluated := true) && e !in s'.queue)
      && (p.rc != 0 || !p.metric ==>
            && (x.name in s'.files <==> x.name in s.files)
            && (x.name in s.files ==> s'.files[x.name] == s.files[x.name])
            && s'.pool[e].doEval == x.doEval && e !in s'.queue)
  {
    hide Polled, PollOccurs, History, LiveListed, LaunchBound, RunningDisjoint, News;
    var e := s.exps[i];
    assert e in s.exps;
    PolledRunning(s, from, scan, sweep, i);
    QueueSources(n, s, from, scan, sweep, e);
    if Requeues(s, e) { RequeuedWaits(s, from, scan, sweep, i); }
  }

  // ---- The end ----

  /** What a finished workload has done with experiment `e`: nothing when its record was complete; its evaluation when
      the record lacked only that or it was asked for; otherwise a training first, and an evaluation whenever that
      training left a record and there is an evaluation set. */
  ghost predicate Served(x0: Exp, files0: map<string, Saved>, files: map<string, Saved>, procs: seq<Proc>, e: nat) {
    && (x0.name in files0 && (!x0.hasEvalSet || files0[x0.name].evaluated) ==>
          !Ran(procs, e, false) && !Ran(procs, e, true))
    && (x0.name in files0 && x0.hasEvalSet && !files0[x0.name].evaluated ==>
          !Ran(procs, e, false) && Ran(procs, e, true))
    && (x0.name !in files0 && x0.doEval ==> !Ran(procs, e, false) && Ran(procs, e, true))
    && (x0.name !in files0 && !x0.doEval ==> Ran(procs, e, false))
    && (x0.name !in files0 && x0.name in files && x0.hasEvalSet ==> Ran(procs, e, true))
  }

  lemma {:induction false} SomeProc(procs: seq<Proc>, e: nat) returns (first: nat)
    requires Launches(procs, e) >= 1
    ensures first < |procs| && procs[first].exp == e && forall q | 0 <= q < first :: procs[q].exp != e
  {
    var k := |procs| - 1;
    if Launches(procs[..k], e) >= 1 {
      first := SomeProc(procs[..k], e);
    } else {
      NoLaunch(procs[..k], e);
      first := k;
    }
  }

  lemma StoryEnds(xs: seq<Exp>, files0: map<string, Saved>, s: State, e: nat)
    requires Story(xs, files0, s) && Due(xs, files0, s) && s.queue == [] && e < |xs|
    requires if AlreadyDone(files0, xs[e]) then Launches(s.procs, e) == 0 else Launches(s.procs, e) >= 1
    ensures Served(xs[e], files0, s.files, s.procs, e)
  {
    var x0, procs := xs[e], s.procs;
    assert DueAt(x0, files0, s, e);
    if Launches(procs, e) == 0 {
      NoLaunch(procs, e);
    } else {
      var first := SomeProc(procs, e);
      assert ProcStory(xs, files0, procs, first);
      assert Ran(procs, e, procs[first].eval);
      forall q | 0 <= q < |procs| && procs[q].exp == e && !procs[q].eval ensures !x0.doEval && x0.name !in files0 {
        assert ProcStory(xs, files0, procs, q);
      }
    }
  }
}
