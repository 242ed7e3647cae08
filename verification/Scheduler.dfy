/** The GPU experiment scheduler as a state and its steps.

    Experiments are identified by their index in `pool`, so the same experiment can sit in the queue
    and in the running list at once. Child processes are the environment: each has a start time,
    an exit time and a result fixed when it is spawned, and a clock that only moves forward says
    which of them have exited. The process table doubles as the launch history. */
module Scheduler {

  datatype Cmd = Sft | Rlhf | Export | Eval | Unsupported

  /** What building a training command does besides finding GPUs. */
  datatype Build = Builds | Raises | Asserts

  datatype Exp = Exp(
    name: string, cmd: Cmd, gpu: nat, evalGpu: nat, hasEvalSet: bool, trainBuild: Build, evalBuilds: bool,
    doEval: bool, evaluated: bool, runtime: set<nat>, handler: nat)

  /** A record file in the save directory. */
  datatype Saved = Saved(name: string, cmd: Cmd, gpu: nat, evaluated: bool)

  datatype Proc = Proc(exp: nat, eval: bool, gpus: set<nat>, start: nat, exit: nat, rc: int, metric: bool)

  datatype State = State(
    pool: seq<Exp>, exps: seq<nat>, queue: seq<nat>, files: map<string, Saved>, clock: nat, procs: seq<Proc>)

  // ---- Steps ----

  function Devices(n: nat): (r: set<nat>)
    ensures |r| == n && forall g: nat :: g in r <==> g < n
  {
    if n == 0 then {} else Devices(n - 1) + {n - 1}
  }

  predicate Below(es: seq<nat>, n: nat) {
    forall i | 0 <= i < |es| :: es[i] < n
  }

  function UsedBy(pool: seq<Exp>, es: seq<nat>): (r: set<nat>)
    requires Below(es, |pool|)
    ensures forall i | 0 <= i < |es| :: pool[es[i]].runtime <= r
    ensures es == [] ==> r == {}
  {
    if es == [] then {} else pool[es[0]].runtime + UsedBy(pool, es[1..])
  }

  function FreeGpus(n: nat, s: State): set<nat>
    requires WellIndexed(s)
  {
    Devices(n) - UsedBy(s.pool, s.exps)
  }

  datatype Verdict = Skip | NoFreeGpu | Retry | Error | Launch

  predicate AlreadyDone(files: map<string, Saved>, x: Exp) {
    x.name in files && !(x.hasEvalSet && !files[x.name].evaluated)
  }

  /** The head experiment after `run` has looked at its record file. */
  function Prepared(s: State, x: Exp): Exp {
    if x.name in s.files && !AlreadyDone(s.files, x) && !x.doEval then
      var f := s.files[x.name];
      x.(name := f.name, cmd := f.cmd, gpu := f.gpu, evaluated := f.evaluated, doEval := true)
    else x
  }

  function Request(x: Exp): nat {
    if x.doEval then x.evalGpu else x.gpu
  }

  /** What assembling the training command comes to; only three command kinds can be trained. */
  function TrainBuild(x: Exp): Build {
    if x.cmd == Eval || x.cmd == Unsupported then Raises else x.trainBuild
  }

  predicate Blocked(n: nat, s: State, x: Exp)
    requires WellIndexed(s)
  {
    Request(x) > 0 && |FreeGpus(n, s)| < Request(x)
  }

  /** What `run` does with an experiment, before any process is spawned. */
  function Decide(n: nat, s: State, e: nat): Verdict
    requires WellIndexed(s) && e < |s.pool|
  {
    var x := Prepared(s, s.pool[e]);
    if AlreadyDone(s.files, s.pool[e]) then Skip
    else if x.doEval then
      if Blocked(n, s, x) then NoFreeGpu
      else if x.evalBuilds then Launch
      else Error
    else if exists i | 0 <= i < |s.exps| :: s.pool[s.exps[i]].name == x.name then Error
    else if x.cmd == Export && exists i | 0 <= i < |s.exps| :: s.pool[s.exps[i]].cmd == Export then Retry
    else if Blocked(n, s, x) then NoFreeGpu
    else match TrainBuild(x)
      case Builds => Launch
      case Raises => Error
      case Asserts => Retry
  }

  /** Spawning a process for `e` on `gpus`; `life`, `rc` and `metric` are the environment's choice. */
  function Spawn(s: State, e: nat, gpus: set<nat>, life: nat, rc: int, metric: bool): State
    requires e < |s.pool|
  {
    var x := Prepared(s, s.pool[e]);
    s.(pool := s.pool[e := x.(runtime := gpus, handler := |s.procs|)],
       exps := s.exps + [e],
       procs := s.procs + [Proc(e, x.doEval, gpus, s.clock, s.clock + life, rc, metric)])
  }

  function Pop(s: State): State
    requires s.queue != []
  {
    s.(queue := s.queue[1..])
  }

  predicate Exited(s: State, e: nat)
    requires e < |s.pool| && s.pool[e].handler < |s.procs|
  {
    s.procs[s.pool[e].handler].exit <= s.clock
  }

  function RecordOf(x: Exp): Saved {
    Saved(x.name, x.cmd, x.gpu, x.evaluated)
  }

  /** Bookkeeping for an experiment whose process was seen to have exited. */
  function Finish(s: State, e: nat): State
    requires e < |s.pool| && s.pool[e].handler < |s.procs|
  {
    var x, p := s.pool[e], s.procs[s.pool[e].handler];
    if p.rc != 0 then s
    else if !x.doEval then
      if !p.metric then s
      else
        var x' := if x.hasEvalSet then x.(doEval := true) else x;
        s.(pool := s.pool[e := x'],
           queue := if x.hasEvalSet then [e] + s.queue else s.queue,
           files := s.files[x.name := RecordOf(x')])
    else
      var x' := x.(evaluated := true);
      s.(pool := s.pool[e := x'], files := if p.metric then s.files[x.name := RecordOf(x')] else s.files)
  }

  // ---- Safety ----

  predicate WellIndexed(s: State) {
    Below(s.exps, |s.pool|) && Below(s.queue, |s.pool|)
  }

  predicate Distinct(es: seq<nat>) {
    forall i, j | 0 <= i < j < |es| :: es[i] != es[j]
  }

  /** No experiment is queued twice, running twice, or both queued and running. */
  predicate Lists(s: State) {
    && WellIndexed(s)
    && Distinct(s.exps) && Distinct(s.queue)
    && forall i | 0 <= i < |s.queue| :: s.queue[i] !in s.exps
  }

  /** Every running entry's handler is its own process, in its phase, with the GPUs it was given. */
  predicate Handled(s: State)
    requires WellIndexed(s)
  {
    forall i | 0 <= i < |s.exps| ::
      var x := s.pool[s.exps[i]];
      && x.handler < |s.procs|
      && s.procs[x.handler].exp == s.exps[i]
      && s.procs[x.handler].gpus == x.runtime
      && s.procs[x.handler].eval == x.doEval
  }

  /** No process is alive outside the running list. */
  predicate LiveListed(s: State)
    requires WellIndexed(s)
  {
    forall p | 0 <= p < |s.procs| :: s.procs[p].exit > s.clock ==>
      s.procs[p].exp in s.exps && s.pool[s.procs[p].exp].handler == p
  }

  /** At every moment of the history, processes alive together held disjoint GPUs of the machine. */
  ghost predicate History(n: nat, s: State) {
    && (forall p | 0 <= p < |s.procs| :: s.procs[p].gpus <= Devices(n) && s.procs[p].start <= s.clock)
    && (forall p, q | 0 <= p < q < |s.procs| ::
          s.procs[p].start <= s.procs[q].start
          && (s.procs[p].exit > s.procs[q].start ==> s.procs[p].gpus !! s.procs[q].gpus))
  }

  predicate RunningDisjoint(s: State)
    requires WellIndexed(s)
  {
    forall i, j | 0 <= i < j < |s.exps| :: s.pool[s.exps[i]].runtime !! s.pool[s.exps[j]].runtime
  }

  function Launches(procs: seq<Proc>, e: nat): nat {
    if procs == [] then 0
    else Launches(procs[..|procs| - 1], e) + if procs[|procs| - 1].exp == e then 1 else 0
  }

  /** How often an experiment can have been launched, by where it stands. */
  ghost predicate LaunchBound(s: State)
    requires WellIndexed(s)
  {
    && (forall e :: Launches(s.procs, e) <= 2)
    && (forall i | 0 <= i < |s.queue| :: Launches(s.procs, s.queue[i]) <= if s.pool[s.queue[i]].doEval then 1 else 0)
    && (forall i | 0 <= i < |s.exps| :: !s.pool[s.exps[i]].doEval ==> Launches(s.procs, s.exps[i]) <= 1)
  }

  /** The invariant at the head of either scheduler loop. */
  ghost predicate Inv(n: nat, s: State) {
    && Lists(s)
    && Handled(s)
    && LiveListed(s)
    && History(n, s)
    && RunningDisjoint(s)
    && LaunchBound(s)
  }

  /** Two processes alive at the same moment never share a GPU, whatever the moment. */
  lemma {:induction false} LiveGpusDisjoint(n: nat, s: State, p: nat, q: nat, t: nat)
    requires Inv(n, s) && p < |s.procs| && q < |s.procs| && p != q
    requires s.procs[p].start <= t < s.procs[p].exit && s.procs[q].start <= t < s.procs[q].exit
    ensures s.procs[p].gpus !! s.procs[q].gpus && s.procs[p].gpus + s.procs[q].gpus <= Devices(n)
  {
    if p < q {
      assert s.procs[p].exit > s.procs[q].start;
    } else {
      assert s.procs[q].exit > s.procs[p].start;
    }
  }

  lemma {:induction false} TickKeepsInv(n: nat, s: State, t: nat)
    requires Inv(n, s) && s.clock <= t
    ensures Inv(n, s.(clock := t))
  {
  }

  lemma {:induction false} PopKeepsInv(n: nat, s: State)
    requires Inv(n, s) && s.queue != []
    ensures Inv(n, Pop(s))
  {
  }

  lemma LaunchesAppend(procs: seq<Proc>, p: Proc, e: nat)
    ensures Launches(procs + [p], e) == Launches(procs, e) + if p.exp == e then 1 else 0
  {
    assert (procs + [p])[..|procs|] == procs;
  }

  /** Reading a record file into the waiting head experiment disturbs nothing. */
  lemma {:induction false} PrepareKeepsInv(n: nat, s: State)
    requires Inv(n, s) && s.queue != []
    ensures Inv(n, s.(pool := s.pool[s.queue[0] := Prepared(s, s.pool[s.queue[0]])]))
  {
    var e := s.queue[0];
    var s' := s.(pool := s.pool[e := Prepared(s, s.pool[e])]);
    assert forall i | 0 <= i < |s.exps| :: s'.pool[s.exps[i]] == s.pool[s.exps[i]];
    assert LiveListed(s');
  }

  /** Launching the head on free GPUs and taking it off the queue keeps the invariant. */
  lemma {:induction false} SpawnKeepsInv(n: nat, s: State, gpus: set<nat>, life: nat, rc: int, metric: bool)
    requires Inv(n, s) && s.queue != [] && gpus <= FreeGpus(n, s)
    ensures Inv(n, Pop(Spawn(s, s.queue[0], gpus, life, rc, metric)))
  {
    hide History, LiveListed, Handled, RunningDisjoint, LaunchBound, Distinct;
    SpawnKeepsLists(n, s, gpus, life, rc, metric);
    SpawnKeepsHandled(n, s, gpus, life, rc, metric);
    SpawnKeepsHistory(n, s, gpus, life, rc, metric);
    SpawnKeepsListed(s, gpus, life, rc, metric);
    SpawnKeepsBound(n, s, gpus, life, rc, metric);
    var s1 := Spawn(s, s.queue[0], gpus, life, rc, metric);
    SameListed(s1, Pop(s1));
    SameHistory(n, s1, Pop(s1));
  }

  lemma SameListed(s: State, s': State)
    requires WellIndexed(s) && LiveListed(s) && WellIndexed(s')
    requires s' == s.(queue := s'.queue)
    ensures LiveListed(s')
  {
  }

  lemma SameHistory(n: nat, s: State, s': State)
    requires History(n, s) && s' == s.(queue := s'.queue)
    ensures History(n, s')
  {
  }

  lemma SpawnKeepsLists(n: nat, s: State, gpus: set<nat>, life: nat, rc: int, metric: bool)
    requires Lists(s) && s.queue != []
    ensures Lists(Pop(Spawn(s, s.queue[0], gpus, life, rc, metric)))
  {
    var s' := Pop(Spawn(s, s.queue[0], gpus, life, rc, metric));
    assert forall i | 0 <= i < |s'.queue| :: s'.queue[i] == s.queue[i + 1];
    assert forall i | 0 <= i < |s.exps| :: s.exps[i] in s.exps;
  }

  lemma SpawnKeepsHandled(n: nat, s: State, gpus: set<nat>, life: nat, rc: int, metric: bool)
    requires Lists(s) && Handled(s) && RunningDisjoint(s) && s.queue != [] && gpus <= FreeGpus(n, s)
    ensures Lists(Pop(Spawn(s, s.queue[0], gpus, life, rc, metric)))
    ensures Handled(Pop(Spawn(s, s.queue[0], gpus, life, rc, metric)))
    ensures RunningDisjoint(Pop(Spawn(s, s.queue[0], gpus, life, rc, metric)))
  {
    var e := s.queue[0];
    var s' := Pop(Spawn(s, e, gpus, life, rc, metric));
    SpawnKeepsLists(n, s, gpus, life, rc, metric);
    forall i | 0 <= i < |s.exps|
      ensures s'.exps[i] == s.exps[i] && s'.pool[s.exps[i]] == s.pool[s.exps[i]] && s.pool[s.exps[i]].runtime !! gpus
    {
      assert s.exps[i] in s.exps;
      assert s.pool[s.exps[i]].runtime <= UsedBy(s.pool, s.exps);
    }
  }

  lemma SpawnKeepsBound(n: nat, s: State, gpus: set<nat>, life: nat, rc: int, metric: bool)
    requires Lists(s) && LaunchBound(s) && s.queue != []
    ensures Lists(Pop(Spawn(s, s.queue[0], gpus, life, rc, metric)))
    ensures LaunchBound(Pop(Spawn(s, s.queue[0], gpus, life, rc, metric)))
  {
    var e := s.queue[0];
    var s' := Pop(Spawn(s, e, gpus, life, rc, metric));
    SpawnKeepsLists(n, s, gpus, life, rc, metric);
    assert forall i | 0 <= i < |s.exps| :: s.exps[i] in s.exps && s'.exps[i] == s.exps[i];
    assert forall i | 0 <= i < |s'.queue| :: s'.queue[i] == s.queue[i + 1];
    forall r ensures Launches(s'.procs, r) == Launches(s.procs, r) + if r == e then 1 else 0 {
      LaunchesAppend(s.procs, s'.procs[|s.procs|], r);
    }
  }

  lemma SpawnKeepsHistory(n: nat, s: State, gpus: set<nat>, life: nat, rc: int, metric: bool)
    requires Inv(n, s) && s.queue != [] && gpus <= FreeGpus(n, s)
    ensures History(n, Spawn(s, s.queue[0], gpus, life, rc, metric))
  {
    forall p | 0 <= p < |s.procs| && s.procs[p].exit > s.clock ensures s.procs[p].gpus !! gpus {
      var i :| 0 <= i < |s.exps| && s.exps[i] == s.procs[p].exp;
      assert s.pool[s.exps[i]].runtime <= UsedBy(s.pool, s.exps);
    }
  }

  lemma SpawnKeepsListed(s: State, gpus: set<nat>, life: nat, rc: int, metric: bool)
    requires WellIndexed(s) && s.queue != [] && s.queue[0] !in s.exps && LiveListed(s)
    ensures LiveListed(Spawn(s, s.queue[0], gpus, life, rc, metric))
  {
    var e := s.queue[0];
    var s' := Spawn(s, e, gpus, life, rc, metric);
    assert s'.exps[|s.exps|] == e;
    forall p | 0 <= p < |s'.procs| && s'.procs[p].exit > s'.clock
      ensures s'.procs[p].exp in s'.exps && s'.pool[s'.procs[p].exp].handler == p
    {
      if p < |s.procs| {
        assert s'.procs[p] == s.procs[p] && s.procs[p].exp in s.exps;
      }
    }
  }

  // ---- A call of `run` ----

  /** How a call of `run` ends: normally, with an assertion error, or with another exception. */
  datatype Outcome = Returned | AssertionFailed(noFreeGpu: bool) | Raised

  /** The environment's choices for a process. */
  datatype Spawned = Spawned(life: nat, rc: int, metric: bool)

  /** A call of `run` on the head of the queue takes the state from `s` to `s'`. */
  ghost predicate RunOccurs(n: nat, s: State, s': State, outcome: Outcome, gpus: set<nat>, p: Spawned)
    requires Inv(n, s) && s.queue != []
  {
    var e := s.queue[0];
    var x := Prepared(s, s.pool[e]);
    match Decide(n, s, e)
    case Skip => s' == s && outcome == Returned
    case NoFreeGpu => s' == s.(pool := s.pool[e := x]) && outcome == AssertionFailed(true)
    case Retry => s' == s && outcome == AssertionFailed(false)
    case Error => s' == s.(pool := s.pool[e := x]) && outcome == Raised
    case Launch =>
      && gpus <= FreeGpus(n, s) && |gpus| == Request(x)
      && s' == Spawn(s, e, gpus, p.life, p.rc, p.metric)
      && outcome == if forall i | 0 <= i < |s'.exps| :: s'.pool[s'.exps[i]].runtime != {} then Returned else Raised
  }
}
