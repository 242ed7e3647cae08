/** One return of the polling loop: a scan that books finished processes, then a sweep that drops
    exited ones. Every single `poll()` happens at its own time. */
module SchedulerPoll {
  import opened Scheduler

  predicate Ascending(from: nat, times: seq<nat>) {
    && (forall i | 0 <= i < |times| :: from <= times[i])
    && (forall i, j | 0 <= i <= j < |times| :: times[i] <= times[j])
  }

  predicate Ready(s: State) {
    WellIndexed(s) && forall i | 0 <= i < |s.exps| :: s.pool[s.exps[i]].handler < |s.procs|
  }

  function ExitOf(s: State, e: nat): nat
    requires e < |s.pool| && s.pool[e].handler < |s.procs|
  {
    s.procs[s.pool[e].handler].exit
  }

  /** One `poll()` of a running experiment at time `time`, and the bookkeeping if it has exited. */
  function PollOne(s: State, e: nat, time: nat): State
    requires Ready(s) && e in s.exps
  {
    var t := s.(clock := time);
    if Exited(t, e) then Finish(t, e) else t
  }

  /** The state after the first `i` running experiments were polled at `times[..i]`. */
  function ScanTo(s: State, times: seq<nat>, i: nat): (r: State)
    requires Ready(s) && i <= |s.exps| && i <= |times|
    ensures Ready(r) && r.exps == s.exps && r.procs == s.procs && |r.pool| == |s.pool|
  {
    if i == 0 then s else PollOne(ScanTo(s, times, i - 1), s.exps[i - 1], times[i - 1])
  }

  /** The running experiments found alive when the sweep polls them a second time. */
  function Survivors(s: State, es: seq<nat>, times: seq<nat>): seq<nat>
    requires |es| == |times| && Below(es, |s.pool|)
    requires forall i | 0 <= i < |es| :: s.pool[es[i]].handler < |s.procs|
  {
    if es == [] then []
    else
      var k := |es| - 1;
      Survivors(s, es[..k], times[..k]) + if ExitOf(s, es[k]) > times[k] then [es[k]] else []
  }

  function Sweep(s: State, times: seq<nat>): State
    requires Ready(s) && |times| == |s.exps|
  {
    s.(exps := Survivors(s, s.exps, times), clock := if times == [] then s.clock else times[|times| - 1])
  }

  predicate Seen(s: State, times: seq<nat>, i: nat)
    requires Ready(s) && i < |s.exps| && i < |times|
  {
    ExitOf(s, s.exps[i]) <= times[i]
  }

  /** A poll that returns: the scan starts at time `from` and sees some process finished. */
  predicate PollOccurs(s: State, from: nat, scan: seq<nat>, sweep: seq<nat>) {
    && Ready(s) && s.clock <= from && |scan| == |sweep| == |s.exps|
    && Ascending(from, scan + sweep)
    && exists i :: 0 <= i < |s.exps| && Seen(s, scan, i)
  }

  function Polled(s: State, from: nat, scan: seq<nat>, sweep: seq<nat>): State
    requires PollOccurs(s, from, scan, sweep)
  {
    Sweep(ScanTo(s.(clock := from), scan, |s.exps|), sweep)
  }

  // ---- What a scan changes ----

  /** Experiment `e` was seen finished among the first `i`. */
  predicate Done(s: State, times: seq<nat>, i: nat, e: nat)
    requires Ready(s) && i <= |s.exps| && i <= |times|
  {
    i > 0 && ((s.exps[i - 1] == e && Seen(s, times, i - 1)) || Done(s, times, i - 1, e))
  }

  lemma {:induction false} DoneIff(s: State, times: seq<nat>, i: nat, e: nat)
    requires Ready(s) && i <= |s.exps| && i <= |times|
    ensures Done(s, times, i, e) <==> exists j :: 0 <= j < i && s.exps[j] == e && Seen(s, times, j)
  {
    if i > 0 { DoneIff(s, times, i - 1, e); }
  }

  function ProcOf(s: State, e: nat): Proc
    requires e < |s.pool| && s.pool[e].handler < |s.procs|
  {
    s.procs[s.pool[e].handler]
  }

  /** A training run that succeeded, left a metric and has an evaluation set goes back for evaluation. */
  predicate Requeues(s: State, e: nat)
    requires e < |s.pool| && s.pool[e].handler < |s.procs|
  {
    ProcOf(s, e).rc == 0 && ProcOf(s, e).metric && s.pool[e].hasEvalSet && !s.pool[e].doEval
  }

  function Booked(s: State, e: nat): Exp
    requires e < |s.pool| && s.pool[e].handler < |s.procs|
  {
    if Requeues(s, e) then s.pool[e].(doEval := true)
    else if ProcOf(s, e).rc == 0 && s.pool[e].doEval then s.pool[e].(evaluated := true)
    else s.pool[e]
  }

  /** The experiments the scan puts back, the one finished last in front. */
  function News(s: State, times: seq<nat>, i: nat): seq<nat>
    requires Ready(s) && i <= |s.exps| && i <= |times|
  {
    if i == 0 then []
    else (if Seen(s, times, i - 1) && Requeues(s, s.exps[i - 1]) then [s.exps[i - 1]] else []) + News(s, times, i - 1)
  }

  lemma NotYetDone(s: State, times: seq<nat>, i: nat)
    requires Ready(s) && Distinct(s.exps) && i < |s.exps| && i <= |times|
    ensures !Done(s, times, i, s.exps[i])
  {
    DoneIff(s, times, i, s.exps[i]);
  }

  lemma PollOneBooks(s: State, t: State, d: nat, time: nat)
    requires Ready(s) && Ready(t) && d in s.exps && t.exps == s.exps && |s.pool| == |t.pool| && t.procs == s.procs
    requires t.pool[d] == s.pool[d]
    ensures PollOne(t, d, time).pool == if ExitOf(s, d) <= time then t.pool[d := Booked(s, d)] else t.pool
    ensures PollOne(t, d, time).queue == (if ExitOf(s, d) <= time && Requeues(s, d) then [d] else []) + t.queue
  {
  }

  lemma PollOneQueue(s: State, t: State, d: nat, time: nat, x: seq<nat>, news: seq<nat>)
    requires Ready(s) && Ready(t) && d in s.exps && t.exps == s.exps && |s.pool| == |t.pool| && t.procs == s.procs
    requires t.pool[d] == s.pool[d] && t.queue == news + s.queue
    requires x == if ExitOf(s, d) <= time && Requeues(s, d) then [d] else []
    ensures PollOne(t, d, time).queue == (x + news) + s.queue
  {
    hide PollOne, Requeues;
    PollOneBooks(s, t, d, time);
    assert x + news + s.queue == x + (news + s.queue);
  }

  lemma ScanStep(s: State, times: seq<nat>, i: nat)
    requires Ready(s) && i <= |s.exps| && i <= |times|
    ensures ScanTo(s, times, i) == if i == 0 then s else PollOne(ScanTo(s, times, i - 1), s.exps[i - 1], times[i - 1])
  {
  }

  lemma DoneStep(s: State, times: seq<nat>, i: nat, e: nat)
    requires Ready(s) && i <= |s.exps| && i <= |times|
    ensures Done(s, times, i, e)
      <==> i > 0 && ((s.exps[i - 1] == e && ExitOf(s, e) <= times[i - 1]) || Done(s, times, i - 1, e))
  {
  }

  lemma NewsStep(s: State, times: seq<nat>, i: nat)
    requires Ready(s) && 0 < i <= |s.exps| && i <= |times|
    ensures News(s, times, i) == Back(s, times, i - 1) + News(s, times, i - 1)
  {
  }

  /** What the scan puts back on account of the `i`-th running experiment. */
  function Back(s: State, times: seq<nat>, i: nat): seq<nat>
    requires Ready(s) && i < |s.exps| && i < |times|
  {
    if ExitOf(s, s.exps[i]) <= times[i] && Requeues(s, s.exps[i]) then [s.exps[i]] else []
  }

  /** The scan, seen from one experiment and from the queue. */
  lemma {:induction false} ScanPool(s: State, times: seq<nat>, i: nat, e: nat)
    requires Ready(s) && Distinct(s.exps) && i <= |s.exps| && i <= |times| && e < |s.pool|
    ensures Done(s, times, i, e) ==> s.pool[e].handler < |s.procs| && ScanTo(s, times, i).pool[e] == Booked(s, e)
    ensures !Done(s, times, i, e) ==> ScanTo(s, times, i).pool[e] == s.pool[e]
  {
    hide ScanTo, PollOne, Booked, Done, Seen, Distinct;
    ScanStep(s, times, i);
    DoneStep(s, times, i, e);
    if i > 0 {
      var d, t := s.exps[i - 1], ScanTo(s, times, i - 1);
      ScanPool(s, times, i - 1, e);
      NotYetDone(s, times, i - 1);
      ScanPool(s, times, i - 1, d);
      PollOneBooks(s, t, d, times[i - 1]);
    }
  }

  lemma ScanQueueStep(s: State, times: seq<nat>, i: nat, news: seq<nat>)
    requires Ready(s) && Distinct(s.exps) && i < |s.exps| && i < |times|
    requires ScanTo(s, times, i).queue == news + s.queue
    ensures PollOne(ScanTo(s, times, i), s.exps[i], times[i]).queue == (Back(s, times, i) + news) + s.queue
  {
    hide ScanTo, PollOne, Booked, Requeues, Done, Seen, Distinct;
    NotYetDone(s, times, i);
    ScanPool(s, times, i, s.exps[i]);
    PollOneQueue(s, ScanTo(s, times, i), s.exps[i], times[i], Back(s, times, i), news);
  }

  lemma ScanQueueNone(s: State, times: seq<nat>)
    requires Ready(s)
    ensures ScanTo(s, times, 0).queue == News(s, times, 0) + s.queue
  {
  }

  lemma {:induction false} ScanQueue(s: State, times: seq<nat>, i: nat)
    requires Ready(s) && Distinct(s.exps) && i <= |s.exps| && i <= |times|
    ensures ScanTo(s, times, i).queue == News(s, times, i) + s.queue
  {
    hide ScanTo, PollOne, Booked, Requeues, News, Done, Seen, Distinct, Back;
    if i == 0 {
      ScanQueueNone(s, times);
    } else {
      ScanStep(s, times, i);
      NewsStep(s, times, i);
      ScanQueue(s, times, i - 1);
      ScanQueueStep(s, times, i - 1, News(s, times, i - 1));
    }
  }

  lemma {:induction false} NewsFacts(s: State, times: seq<nat>, i: nat)
    requires Ready(s) && Distinct(s.exps) && i <= |s.exps| && i <= |times|
    ensures Distinct(News(s, times, i)) && Below(News(s, times, i), |s.pool|)
    ensures forall k | 0 <= k < |News(s, times, i)| :: var e := News(s, times, i)[k];
              Done(s, times, i, e) && s.pool[e].handler < |s.procs| && Requeues(s, e)
  {
    if i > 0 {
      NotYetDone(s, times, i - 1);
      NewsFacts(s, times, i - 1);
    }
  }

  lemma {:induction false} SurvivorsIff(s: State, es: seq<nat>, times: seq<nat>, e: nat)
    requires |es| == |times| && Below(es, |s.pool|)
    requires forall i | 0 <= i < |es| :: s.pool[es[i]].handler < |s.procs|
    ensures e in Survivors(s, es, times) <==> exists i :: 0 <= i < |es| && es[i] == e && ExitOf(s, e) > times[i]
  {
    if es != [] {
      var k := |es| - 1;
      SurvivorsIff(s, es[..k], times[..k], e);
      assert es[..k] + [es[k]] == es && times[..k] + [times[k]] == times;
    }
  }

  lemma {:induction false} SurvivorsDistinct(s: State, es: seq<nat>, times: seq<nat>)
    requires |es| == |times| && Below(es, |s.pool|) && Distinct(es)
    requires forall i | 0 <= i < |es| :: s.pool[es[i]].handler < |s.procs|
    ensures Distinct(Survivors(s, es, times))
  {
    if es != [] {
      var k := |es| - 1;
      SurvivorsDistinct(s, es[..k], times[..k]);
      SurvivorsIff(s, es[..k], times[..k], es[k]);
      assert forall i | 0 <= i < k :: es[..k][i] == es[i];
      var rest := Survivors(s, es[..k], times[..k]);
      assert forall i | 0 <= i < |rest| :: rest[i] in rest;
    }
  }

  // ---- A poll that returns keeps the invariant ----

  /** A poll, seen from the running experiment at index `i`. */
  lemma PolledAt(s: State, from: nat, scan: seq<nat>, sweep: seq<nat>, i: nat)
    requires PollOccurs(s, from, scan, sweep) && Distinct(s.exps) && i < |s.exps|
    ensures var e, s' := s.exps[i], Polled(s, from, scan, sweep);
            && (e in s'.exps <==> ExitOf(s, e) > sweep[i])
            && (e in s'.exps ==> s'.pool[e] == s.pool[e])
            && (e !in s'.exps ==> ExitOf(s, e) <= s'.clock)
            && s'.pool[e] == if Seen(s, scan, i) then Booked(s, e) else s.pool[e]
  {
    hide ScanTo, Survivors, Done, News, Ascending;
    var b, e := s.(clock := from), s.exps[i];
    var r := ScanTo(b, scan, |s.exps|);
    SweepTimes(s, from, scan, sweep, i);
    OnlySeen(s, b, scan, i);
    ScanPool(b, scan, |s.exps|, e);
    SurvivorsIff(r, r.exps, sweep, e);
  }

  /** The sweep polls every process after the scan did, and ends last. */
  lemma SweepTimes(s: State, from: nat, scan: seq<nat>, sweep: seq<nat>, i: nat)
    requires PollOccurs(s, from, scan, sweep) && i < |s.exps|
    ensures scan[i] <= sweep[i] <= sweep[|sweep| - 1]
  {
    assert scan[i] == (scan + sweep)[i] && sweep[i] == (scan + sweep)[|scan| + i];
    assert sweep[|sweep| - 1] == (scan + sweep)[|scan| + |sweep| - 1];
  }

  lemma OnlySeen(s: State, b: State, scan: seq<nat>, i: nat)
    requires Ready(s) && b == s.(clock := b.clock) && Distinct(s.exps) && i < |s.exps| && |scan| == |s.exps|
    ensures Done(b, scan, |s.exps|, s.exps[i]) <==> Seen(s, scan, i)
  {
    hide Done;
    DoneIff(b, scan, |s.exps|, s.exps[i]);
  }

  lemma PolledFrame(s: State, from: nat, scan: seq<nat>, sweep: seq<nat>)
    requires PollOccurs(s, from, scan, sweep) && Distinct(s.exps)
    ensures var s' := Polled(s, from, scan, sweep);
            && s'.procs == s.procs && |s'.pool| == |s.pool| && s.clock <= s'.clock
            && Distinct(s'.exps)
            && (forall k | 0 <= k < |s'.exps| :: s'.exps[k] in s.exps)
            && s'.queue == News(s.(clock := from), scan, |s.exps|) + s.queue
  {
    var b := s.(clock := from);
    var r := ScanTo(b, scan, |s.exps|);
    ScanQueue(b, scan, |s.exps|);
    SurvivorsDistinct(r, r.exps, sweep);
    forall k | 0 <= k < |Survivors(r, r.exps, sweep)| ensures Survivors(r, r.exps, sweep)[k] in s.exps {
      SurvivorsIff(r, r.exps, sweep, Survivors(r, r.exps, sweep)[k]);
    }
    assert sweep[|sweep| - 1] == (scan + sweep)[|scan| + |sweep| - 1];
  }

  /** An experiment that was not running is left as it was. */
  lemma PolledElsewhere(s: State, from: nat, scan: seq<nat>, sweep: seq<nat>, e: nat)
    requires PollOccurs(s, from, scan, sweep) && Distinct(s.exps) && e < |s.pool| && e !in s.exps
    ensures |Polled(s, from, scan, sweep).pool| == |s.pool| && Polled(s, from, scan, sweep).pool[e] == s.pool[e]
  {
    var b := s.(clock := from);
    DoneIff(b, scan, |s.exps|, e);
    ScanPool(b, scan, |s.exps|, e);
  }

  /** What a returning poll amounts to: some experiments leave the running list, all of them exited,
      and those with an evaluation ahead go to the front of the queue. */
  ghost predicate PollStep(s: State, s': State, news: seq<nat>)
    requires Ready(s)
  {
    && s'.procs == s.procs && |s'.pool| == |s.pool| && s.clock <= s'.clock
    && Distinct(s'.exps) && (forall k | 0 <= k < |s'.exps| :: s'.exps[k] in s.exps)
    && s'.queue == news + s.queue && Distinct(news)
    && (forall k | 0 <= k < |news| :: news[k] in s.exps && news[k] !in s'.exps && news[k] < |s.pool|
          && !s.pool[news[k]].doEval && s'.pool[news[k]].doEval)
    && (forall i | 0 <= i < |s.exps| :: s.exps[i] in s'.exps ==> s'.pool[s.exps[i]] == s.pool[s.exps[i]])
    && (forall i | 0 <= i < |s.exps| :: s.exps[i] !in s'.exps ==> ExitOf(s, s.exps[i]) <= s'.clock)
    && (forall e | 0 <= e < |s.pool| && e !in s.exps :: s'.pool[e] == s.pool[e])
    && exists i :: 0 <= i < |s.exps| && s.exps[i] !in s'.exps
  }

  lemma NewsSeen(s: State, b: State, scan: seq<nat>, e: nat) returns (i: nat)
    requires Ready(s) && b == s.(clock := b.clock) && |scan| == |s.exps|
    requires Done(b, scan, |s.exps|, e)
    ensures i < |s.exps| && s.exps[i] == e && Seen(s, scan, i)
  {
    hide Done;
    DoneIff(b, scan, |s.exps|, e);
    var j :| 0 <= j < |s.exps| && s.exps[j] == e && Seen(b, scan, j);
    i := j;
  }

  lemma PollIsStep(s: State, from: nat, scan: seq<nat>, sweep: seq<nat>)
    requires PollOccurs(s, from, scan, sweep) && Distinct(s.exps)
    ensures PollStep(s, Polled(s, from, scan, sweep), News(s.(clock := from), scan, |s.exps|))
  {
    var b, s' := s.(clock := from), Polled(s, from, scan, sweep);
    var news := News(b, scan, |s.exps|);
    PolledFrame(s, from, scan, sweep);
    NewsFacts(b, scan, |s.exps|);
    forall i | 0 <= i < |s.exps|
      ensures s.exps[i] in s'.exps ==> s'.pool[s.exps[i]] == s.pool[s.exps[i]]
      ensures s.exps[i] !in s'.exps ==> ExitOf(s, s.exps[i]) <= s'.clock
      ensures Seen(s, scan, i) ==> s.exps[i] !in s'.exps && s'.pool[s.exps[i]] == Booked(s, s.exps[i])
    {
      PolledAt(s, from, scan, sweep, i);
      assert scan[i] == (scan + sweep)[i] && sweep[i] == (scan + sweep)[|scan| + i];
    }
    hide Polled;
    forall e | 0 <= e < |s.pool| && e !in s.exps ensures s'.pool[e] == s.pool[e] {
      PolledElsewhere(s, from, scan, sweep, e);
    }
    forall k | 0 <= k < |news|
      ensures news[k] in s.exps && news[k] !in s'.exps && news[k] < |s.pool|
        && !s.pool[news[k]].doEval && s'.pool[news[k]].doEval
    {
      var i := NewsSeen(s, b, scan, news[k]);
    }
    var i :| 0 <= i < |s.exps| && Seen(s, scan, i);
    assert s.exps[i] !in s'.exps;
  }

  lemma StepKeepsLists(n: nat, s: State, s': State, news: seq<nat>)
    requires Inv(n, s) && PollStep(s, s', news)
    ensures Lists(s') && Handled(s') && RunningDisjoint(s')
  {
    assert WellIndexed(s') by {
      forall k | 0 <= k < |s'.exps| ensures s'.exps[k] < |s'.pool| { assert s'.exps[k] in s.exps; }
    }
    assert forall k | 0 <= k < |s.queue| :: s.queue[k] !in s.exps;
    forall k | 0 <= k < |s'.queue| ensures s'.queue[k] !in s'.exps {
      var q := s'.queue[k];
      assert q in s'.exps ==> q in s.exps;
    }
    assert Distinct(s'.queue);
    forall k | 0 <= k < |s'.exps| ensures s'.exps[k] in s.exps && s'.pool[s'.exps[k]] == s.pool[s'.exps[k]] {
      assert s'.exps[k] in s'.exps;
    }
    assert Handled(s');
    forall i, j | 0 <= i < j < |s'.exps| ensures s'.pool[s'.exps[i]].runtime !! s'.pool[s'.exps[j]].runtime {
      var a :| 0 <= a < |s.exps| && s.exps[a] == s'.exps[i];
      var b :| 0 <= b < |s.exps| && s.exps[b] == s'.exps[j];
    }
  }

  lemma StepKeepsListed(n: nat, s: State, s': State, news: seq<nat>)
    requires Inv(n, s) && PollStep(s, s', news) && WellIndexed(s')
    ensures LiveListed(s') && History(n, s')
  {
    forall p | 0 <= p < |s'.procs| && s'.procs[p].exit > s'.clock
      ensures s'.procs[p].exp in s'.exps && s'.pool[s'.procs[p].exp].handler == p
    {
      var i :| 0 <= i < |s.exps| && s.exps[i] == s.procs[p].exp;
    }
  }

  lemma StepKeepsBound(n: nat, s: State, s': State, news: seq<nat>)
    requires Inv(n, s) && PollStep(s, s', news) && WellIndexed(s')
    ensures LaunchBound(s')
  {
    forall i | 0 <= i < |s'.queue|
      ensures Launches(s'.procs, s'.queue[i]) <= if s'.pool[s'.queue[i]].doEval then 1 else 0
    {
      if i < |news| {
        var k :| 0 <= k < |s.exps| && s.exps[k] == news[i];
      } else {
        assert s'.queue[i] == s.queue[i - |news|];
      }
    }
    forall i | 0 <= i < |s'.exps| && !s'.pool[s'.exps[i]].doEval ensures Launches(s'.procs, s'.exps[i]) <= 1 {
      var k :| 0 <= k < |s.exps| && s.exps[k] == s'.exps[i];
      assert s.exps[k] in s'.exps;
    }
  }

  /** Whatever the polling times and whichever processes finish, a returning poll keeps the invariant. */
  lemma PollKeepsInv(n: nat, s: State, from: nat, scan: seq<nat>, sweep: seq<nat>)
    requires Inv(n, s) && PollOccurs(s, from, scan, sweep)
    ensures Inv(n, Polled(s, from, scan, sweep))
  {
    var s', news := Polled(s, from, scan, sweep), News(s.(clock := from), scan, |s.exps|);
    PollIsStep(s, from, scan, sweep);
    hide PollStep, Polled, History, LiveListed, Handled, RunningDisjoint, LaunchBound, Distinct;
    StepKeepsLists(n, s, s', news);
    StepKeepsListed(n, s, s', news);
    StepKeepsBound(n, s, s', news);
  }

  // ---- Progress ----

  /** The phases an experiment still has ahead of it. */
  function PhaseWeight(s: State, e: nat): nat
    requires e < |s.pool|
  {
    if e in s.queue then (if s.pool[e].doEval then 2 else 4)
    else if e in s.exps then (if s.pool[e].doEval then 1 else 3)
    else 0
  }

  function Weight(s: State, k: nat): nat
    requires k <= |s.pool|
  {
    if k == 0 then 0 else Weight(s, k - 1) + PhaseWeight(s, k - 1)
  }

  lemma {:induction false} WeightLess(s: State, s': State, k: nat, e: nat)
    requires |s'.pool| == |s.pool| && k <= |s.pool|
    requires forall i | 0 <= i < |s.pool| :: PhaseWeight(s', i) <= PhaseWeight(s, i)
    requires e < |s.pool| && PhaseWeight(s', e) < PhaseWeight(s, e)
    ensures Weight(s', k) <= Weight(s, k) && (e < k ==> Weight(s', k) < Weight(s, k))
  {
    if k > 0 { WeightLess(s, s', k - 1, e); }
  }

  /** Every poll that returns moves some experiment to a later phase and none to an earlier one. */
  lemma PollMakesProgress(n: nat, s: State, from: nat, scan: seq<nat>, sweep: seq<nat>)
    requires Inv(n, s) && PollOccurs(s, from, scan, sweep)
    ensures var s' := Polled(s, from, scan, sweep);
            && |s'.pool| == |s.pool|
            && (forall e | 0 <= e < |s.pool| :: PhaseWeight(s', e) <= PhaseWeight(s, e))
            && Weight(s', |s.pool|) < Weight(s, |s.pool|)
  {
    var s', news := Polled(s, from, scan, sweep), News(s.(clock := from), scan, |s.exps|);
    PollIsStep(s, from, scan, sweep);
    hide Polled;
    forall e | 0 <= e < |s.pool|
      ensures PhaseWeight(s', e) <= PhaseWeight(s, e)
      ensures e in s.exps && e !in s'.exps ==> PhaseWeight(s', e) < PhaseWeight(s, e)
    {
      StepWeight(n, s, s', news, e);
    }
    var i :| 0 <= i < |s.exps| && s.exps[i] !in s'.exps;
    WeightLess(s, s', |s.pool|, s.exps[i]);
  }

  lemma StepWeight(n: nat, s: State, s': State, news: seq<nat>, e: nat)
    requires Inv(n, s) && PollStep(s, s', news) && e < |s.pool|
    ensures PhaseWeight(s', e) <= PhaseWeight(s, e)
    ensures e in s.exps && e !in s'.exps ==> PhaseWeight(s', e) < PhaseWeight(s, e)
  {
    assert forall k | 0 <= k < |s.queue| :: s.queue[k] !in s.exps;
    assert e in s'.queue <==> e in news || e in s.queue;
    assert e in s'.exps ==> e in s.exps;
  }
}
