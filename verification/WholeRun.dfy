/** Every accepted program, started at any time and ticked at any times. */
module WholeRun {
  import opened Clock
  import opened Instructions
  import opened Program
  import opened Scheduler
  import opened Invariant
  import opened Tick
  import opened Wakeup
  import opened History
  import opened Launching
  import opened Wrap

  /** Completed, with nothing running and nothing to wait for. */
  ghost predicate Clean(s: Ctl) {
    s.phase == Completed && s.executing == [] && s.timeout == 0 && forall g :: 0 <= g < |s.runtimes| ==> s.runtimes[g] == RESET
  }

  /** What holds between ticks. */
  ghost predicate Healthy(s: Ctl) {
    Inv(s) && Hist(s) && (s.phase == Active || Clean(s))
  }

  /** What holds right after a tick at `t`. */
  ghost predicate Settled(s: Ctl, t: uint32) {
    Healthy(s) && (s.phase == Active <==> s.timeout > 0) && (s.phase == Active ==> Earliest(s, t, s.timeout) && AllAhead(s, t))
  }

  lemma {:induction false} LaunchedIsHealthy(s: Ctl, p: Program, t: uint32, repeats: uint16)
    requires Runnable(p) && |s.mem| == |p.code|
    ensures Healthy(Launched(s, p, t, repeats))
  {
    hide Sound, HistOn;
    LaunchedIsSound(s, p, t, repeats);
    var r := Launched(s, p, t, repeats);
    if r.phase != Active { InactiveIsClean(r); }
  }

  lemma {:induction false} TickSettles(s: Ctl, t: uint32)
    requires Healthy(s)
    ensures Settled(Run(s, t).s, t)
  {
    hide Sound, HistOn, Settle, Earliest, AllAhead, Arm;
    if s.phase == Active {
      TickKeepsHistory(s, t);
      NoLostWakeup(s, t);
      if Run(s, t).s.phase != Active { CleanCompletion(s, t, t); }
    }
  }

  lemma {:induction false} RunsSettle(s: Ctl, ts: seq<uint32>, i: nat)
    requires Healthy(s) && i < |ts|
    ensures Settled(Runs(s, ts)[i].s, ts[i])
    decreases |ts|
  {
    hide Sound, HistOn, Run, Earliest, AllAhead, Clean, Hist;
    TickSettles(s, ts[0]);
    if i > 0 { RunsSettle(Run(s, ts[0]).s, ts[1..], i - 1); }
  }

  /** Safety over whole runs: after every tick of every run of an accepted program the counters
      are conserved, the log is in order, and either the program waits for exactly its earliest
      outstanding deadline or mark, or it has completed with nothing left behind. */
  lemma {:induction false} EveryRunIsSafe(s: Ctl, p: Program, t: uint32, repeats: uint16, ts: seq<uint32>, i: nat)
    requires Runnable(p) && |s.mem| == |p.code| && i < |ts|
    ensures Healthy(Launched(s, p, t, repeats)) && Settled(Runs(Launched(s, p, t, repeats), ts)[i].s, ts[i])
  {
    hide Launched, Settled;
    LaunchedIsHealthy(s, p, t, repeats);
    RunsSettle(Launched(s, p, t, repeats), ts, i);
  }

  /** Of the faults a tick can report, only two ever happen: a target that is still running,
      and a repeated group that met no boundary. */
  lemma {:induction false} DefensiveBranchesAreDead(s: Ctl, p: Program, t: uint32, repeats: uint16, ts: seq<uint32>, i: nat)
    requires Runnable(p) && |s.mem| == |p.code| && i < |ts|
    ensures Healthy(Launched(s, p, t, repeats))
    ensures forall f :: Failed(f) in Runs(Launched(s, p, t, repeats), ts)[i].s.log ==> f == NoBoundary || f == AlreadyRunning
  {
    hide Launched, Sound, GoodEvent;
    EveryRunIsSafe(s, p, t, repeats, ts, i);
    var r := Runs(Launched(s, p, t, repeats), ts)[i].s;
    forall f | Failed(f) in r.log ensures f == NoBoundary || f == AlreadyRunning {
      FaultIsGood(r, f);
    }
  }

  lemma {:induction false} FaultIsGood(s: Ctl, f: Fault)
    requires Shaped(s) && Hist(s) && Failed(f) in s.log
    ensures f == NoBoundary || f == AlreadyRunning
  {
    var j :| 0 <= j < |s.log| && s.log[j] == Failed(f);
    assert GoodEvent(s.prog, s.log[..j], s.log[j]);
  }

  // ----- Moving the clock of a whole run ---------------------------------------------------

  /** Starting later moves the launched state; left-over instruction states move along. */
  lemma {:induction false} LaunchedMoves(s: Ctl, p: Program, t: uint32, repeats: uint16, k: nat)
    requires InRange(p) && |s.mem| == |p.code| && 0 < |p.groups| <= MAX_GROUPS
    ensures Launched(s.(mem := MoveMems(s.mem, k)), p, Plus(t, k), repeats) == Moves(Launched(s, p, t, repeats), k)
  {
    hide Plus, ClearFrom, InRange;
    ClearMoves(s.mem, p, 0, 0, k);
    var a, b := Launched(s.(mem := MoveMems(s.mem, k)), p, Plus(t, k), repeats), Moves(Launched(s, p, t, repeats), k);
    assert a.executing == b.executing;
    assert a.runtimes == b.runtimes;
    assert a.mem == b.mem;
  }

  lemma {:induction false} IdleMoves(mem: seq<Mem>, k: nat)
    requires forall i :: 0 <= i < |mem| ==> mem[i] == Idle
    ensures MoveMems(mem, k) == mem
  {
  }

  /** Clock-wrap transparency from the start on: adding a constant modulo 2^32 to the start and
      to every tick changes nothing but stored timestamps. */
  lemma {:induction false} StartTransparent(s: Ctl, p: Program, t: uint32, repeats: uint16, ts: seq<uint32>, k: nat)
    requires Runnable(p) && |s.mem| == |p.code|
    requires forall i :: 0 <= i < |ts| ==> Aligned(s.(prog := p), ts[i], k)
    ensures var a, b := Launched(s, p, t, repeats), Launched(s.(mem := MoveMems(s.mem, k)), p, Plus(t, k), repeats);
      Inv(a) && Inv(b) && Runs(b, MoveTimes(ts, k)) == MoveRans(Runs(a, ts), k)
    ensures (forall i :: 0 <= i < |s.mem| ==> s.mem[i] == Idle) ==> s.(mem := MoveMems(s.mem, k)) == s
  {
    hide Plus, Sound, Aligned, Launched, Runs, Hist, Distinct, Ranked;
    var a := Launched(s, p, t, repeats);
    LaunchedIsSound(s, p, t, repeats);
    LaunchedIsSound(s.(mem := MoveMems(s.mem, k)), p, Plus(t, k), repeats);
    LaunchedMoves(s, p, t, repeats, k);
    LaunchedSetup(s, p, t, repeats);
    forall i | 0 <= i < |ts| ensures Aligned(a, ts[i], k) {
      SameProgram(s.(prog := p), a, ts[i], k);
    }
    WrapTransparent(a, ts, k);
    if forall i :: 0 <= i < |s.mem| ==> s.mem[i] == Idle { IdleMoves(s.mem, k); }
  }

  lemma {:induction false} LaunchedSetup(s: Ctl, p: Program, t: uint32, repeats: uint16)
    requires InRange(p) && |s.mem| == |p.code| && 0 < |p.groups| <= MAX_GROUPS
    ensures Launched(s, p, t, repeats).prog == p && Launched(s, p, t, repeats).period == s.period
  {
  }
}
