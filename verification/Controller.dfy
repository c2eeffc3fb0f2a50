/** The controller object: fixed tables updated in place by `Start` and `Run`. */
module ControllerModule {
  import opened Clock
  import opened Oklab
  import opened Instructions
  import opened Program
  import opened Scheduler
  import opened Invariant
  import opened Termination
  import opened Tick
  import opened Wakeup
  import opened History
  import opened Launching
  import opened IndexPool
  import Preflight

  class Controller {
    var code: seq<Code>
    var mem: seq<Mem>
    var groups: seq<GroupRecord>
    var pool: seq<nat>
    var runtimes: seq<Runtime>
    var executing: seq<Entry>
    var phase: Phase
    var strip: seq<Rgb>
    var period: Period
    var show: bool
    var timeout: uint32
    ghost var log: seq<Event>

    /** The whole state as one value. */
    ghost function View(): Ctl
      reads this
    {
      Ctl(Program(code, groups, pool), mem, runtimes, executing, phase, strip, period, show, timeout, log)
    }

    /** Capacity holds, and an active program satisfies the scheduler's invariants. */
    ghost predicate Valid()
      reads this
    {
      |code| <= MAX_INSTRUCTIONS && |mem| == |code| && (phase == Active ==> Inv(View()) && Hist(View()))
    }

    constructor (leds: seq<Rgb>)
      ensures Valid() && phase == Editable && code == [] && strip == leds && period == 20
    {
      code, mem, groups, pool, runtimes, executing := [], [], [], [], [], [];
      phase, strip, period, show, timeout, log := Editable, leds, 20, false, 0, [];
    }

    /** Store a copy of `c` while the program is editable and has room. */
    method AddInstruction(c: Code) returns (status: Status)
      requires Valid()
      modifies `code, `mem
      ensures Valid()
      ensures status == if phase != Editable then Busy
                        else if |old(code)| >= MAX_INSTRUCTIONS then CapacityExhausted else Success
      ensures code == if status == Success then old(code) + [c] else old(code)
      ensures mem == if status == Success then old(mem) + [Idle] else old(mem)
    {
      if phase != Editable {
        return Busy;
      }
      if |code| >= MAX_INSTRUCTIONS {
        return CapacityExhausted;
      }
      code, mem := code + [c], mem + [Idle];
      return Success;
    }

    /** Configure the shared update period while no program is active. */
    method SetRefreshPeriod(ms: uint32) returns (status: Status)
      requires Valid()
      modifies `period
      ensures Valid()
      ensures status == if ms == 0 || ms >= HALF_RANGE then InvalidArgument else if phase == Active then Busy else Success
      ensures status == Success ==> period == ms
      ensures status != Success ==> period == old(period)
    {
      if ms == 0 || ms >= HALF_RANGE {
        return InvalidArgument;
      }
      if phase == Active {
        return Busy;
      }
      period := ms;
      return Success;
    }

    /** Abort and clear the program; staged colours and the period are kept. */
    method ResetInstructions()
      requires Valid()
      modifies this
      ensures Valid() && phase == Editable && code == [] && mem == [] && executing == [] && runtimes == []
      ensures groups == [] && pool == [] && !show && timeout == 0
      ensures strip == old(strip) && period == old(period)
    {
      hide Inv, Hist;
      code, mem, groups, pool, runtimes, executing := [], [], [], [], [], [];
      phase, show, timeout, log := Editable, false, 0, [];
    }

    // ----- Start ---------------------------------------------------------------------------

    /** Start succeeds exactly on a valid program, leaves every field alone when it fails, and
        otherwise commits the compiled program with its root active at `t`. */
    method Start(rootRepeats: uint16, t: uint32) returns (status: Status)
      requires Valid()
      modifies this
      ensures Valid()
      ensures old(phase) == Active ==> status == Busy
      ensures old(phase) != Active ==> (status == Success <==> Preflight.Valid(old(code), rootRepeats))
      ensures status == Success || status == Busy || status == InvalidProgram
      ensures status != Success ==> View() == old(View())
      ensures status == Success ==>
        var p := Program(code, groups, pool);
        && code == old(code) && Compiled(p) && Runnable(p)
        && View() == Launched(old(View()), p, t, rootRepeats)
    {
      hide Sound, HistOn, Compiled, Preflight.Valid, StartRuntime, Distinct, Ranked;
      if phase == Active {
        return Busy;
      }
      var p;
      status, p := Preflight.BuildAndValidateGroups(code, rootRepeats);
      if status != Success {
        return;
      }
      LaunchedIsSound(View(), p, t, rootRepeats);
      Commit(p);
      Activate(rootRepeats, t);
    }

    /** Publish a completely validated model. */
    method Commit(p: Program)
      requires p.code == code
      modifies `groups, `pool, `runtimes, `executing, `show, `timeout, `log
      ensures View() == old(View()).(prog := p, runtimes := seq(|p.groups|, _ => RESET), executing := [],
                                     show := false, timeout := 0, log := [])
    {
      groups, pool := p.groups, p.pool;
      runtimes := seq(|groups|, _ => RESET);
      executing, show, timeout, log := [], false, 0, [];
    }

    method Activate(rootRepeats: uint16, t: uint32)
      requires Shaped(View()) && 0 < |groups|
      modifies `runtimes, `mem, `phase, `log
      ensures View() == if groups[0].count == 0 then old(View()).(phase := Completed)
        else StartRuntime(old(View()), 0, t, rootRepeats, MAX_GROUPS).(phase := Active, log := [Started(0, rootRepeats)])
    {
      if groups[0].count == 0 {
        phase := Completed;
        return;
      }
      var ok := StartGroupRuntime(0, t, rootRepeats, MAX_GROUPS);
      phase, log := Active, [Started(0, rootRepeats)];
    }

    // ----- Steps shared by the loops -----------------------------------------------------------

    method ObservePositiveBoundary(g: nat)
      modifies `runtimes
      ensures runtimes == Observe(old(runtimes), g, |old(runtimes)|)
    {
      ghost var was := runtimes;
      var i: nat, depth: nat := g, 0;
      while depth < |runtimes| && i < |runtimes|
        invariant depth <= |was| == |runtimes|
        invariant Observe(runtimes, i, |was| - depth) == Observe(was, g, |was|)
      {
        var r := runtimes[i];
        if !r.active {
          return;
        }
        runtimes := runtimes[i := r.(boundary := true)];
        i, depth := r.parent, depth + 1;
      }
    }

    method ResetGroupReplayState(g: nat)
      requires Shaped(View()) && g < |groups|
      modifies `mem
      ensures mem == ClearFrom(old(mem), Program(code, groups, pool), g, 0)
    {
      ghost var p := Program(code, groups, pool);
      ghost var was := mem;
      for k := 0 to groups[g].count
        invariant |mem| == |was| && ClearFrom(mem, p, g, k) == ClearFrom(was, p, g, 0)
      {
        mem := mem[pool[groups[g].begin + k] := Idle];
      }
    }

    method StartGroupRuntime(g: nat, t: uint32, repeats: uint16, parent: nat) returns (ok: bool)
      requires Shaped(View())
      modifies `runtimes, `mem
      ensures ok == CanStart(old(runtimes), g, parent)
      ensures View() == if ok then StartRuntime(old(View()), g, t, repeats, parent) else old(View())
    {
      if g >= |groups| || (parent != MAX_GROUPS && (parent >= |groups| || !runtimes[parent].active)) {
        return false;
      }
      var depth := 0;
      if parent != MAX_GROUPS {
        depth := ((if parent == g then 0 else runtimes[parent].depth) + 1) % 0x100;
      }
      runtimes := runtimes[g := Runtime(true, 0, t, repeats, 0, 0, false, parent, depth)];
      ResetGroupReplayState(g);
      return true;
    }

    // ----- Timed work --------------------------------------------------------------------------

    /** Run due entry `i`: re-arm it or swap-remove it. */
    method ResumeEntry(i: nat, t: uint32, status: Status, ghost progressed: bool) returns (removed: bool, st: Status)
      requires Shaped(View()) && i < |executing| && !Stale(View(), executing[i])
      modifies `runtimes, `mem, `executing, `strip, `show, `log
      ensures Pass(View(), st, true) == Resume(Pass(old(View()), status, progressed), i, t)
      ensures removed == (|executing| != |old(executing)|)
    {
      hide Execute, Observe, InRange, Plus, Without;
      var e := executing[i];
      st := status;
      ObservePositiveBoundary(e.runtime);
      var x := Execute(code[e.slot], mem[e.slot], t, strip, period);
      mem, strip, show := mem[e.slot := x.mem], x.strip, show || x.show;
      log := log + [Resumed(e.runtime, e.slot)];
      if x.delay != 0 {
        executing := executing[i := e.(deadline := Plus(t, x.delay))];
        return false, st;
      }
      var r := runtimes[e.runtime];
      if r.activeCount == 0 {
        st := Latch(st, InvalidProgram);
        log := log + [Failed(CountUnderflow)];
      } else {
        runtimes := runtimes[e.runtime := r.(activeCount := r.activeCount - 1)];
      }
      executing := Without(executing, i);
      return true, st;
    }

    /** Resume timed instructions whose deadlines have arrived. */
    method DrainExecuting(t: uint32, status: Status) returns (progressed: bool, st: Status)
      requires Shaped(View())
      modifies `runtimes, `mem, `executing, `strip, `show, `log
      ensures Pass(View(), st, progressed) == DrainFrom(Pass(old(View()), status, false), 0, t)
      ensures Shaped(View())
    {
      hide Resume, InRange;
      progressed, st := false, status;
      var i := 0;
      ghost var goal := DrainFrom(Pass(View(), st, progressed), 0, t);
      while i < |executing|
        invariant Shaped(View()) && i <= |executing| && DrainFrom(Pass(View(), st, progressed), i, t) == goal
        decreases |executing| - i
      {
        var e := executing[i];
        if e.slot >= |code| || e.runtime >= |groups| || !runtimes[e.runtime].active {
          st := Latch(st, InvalidProgram);
          executing := Without(executing, i);
          log := log + [Failed(StaleEntry)];
          progressed := true;
        } else if !Reached(t, e.deadline) {
          i := i + 1;
        } else {
          ghost var a := Pass(View(), st, progressed);
          ResumeSize(a, i, t);
          var removed;
          removed, st := ResumeEntry(i, t, st, progressed);
          progressed := true;
          if !removed {
            i := i + 1;
          }
        }
      }
    }

    // ----- Group completion ----------------------------------------------------------------------

    /** End the pass of `g` and release its parent. */
    method FinishGroup(g: nat, status: Status, ghost progressed: bool) returns (st: Status)
      requires Shaped(View()) && g < |runtimes|
      modifies `runtimes, `phase, `log
      ensures Pass(View(), st, progressed) == Finish(Pass(old(View()), status, progressed), g)
    {
      hide InRange;
      st := status;
      var parent := runtimes[g].parent;
      runtimes := runtimes[g := RESET];
      log := log + [Finished(g)];
      if g == 0 {
        phase := Completed;
      } else if parent >= |groups| || !runtimes[parent].active || runtimes[parent].childCount == 0 {
        st := Latch(st, InvalidProgram);
        log := log + [Failed(NoParent)];
      } else {
        runtimes := runtimes[parent := runtimes[parent].(childCount := runtimes[parent].childCount - 1)];
      }
    }

    /** Restart or end the ready group `g`. */
    method CompleteGroup(g: nat, t: uint32, status: Status, ghost progressed: bool) returns (st: Status)
      requires Shaped(View()) && g < |runtimes| && Ready(View(), g)
      modifies `runtimes, `mem, `phase, `log
      ensures Pass(View(), st, true) == Complete(Pass(old(View()), status, progressed), g, t)
    {
      hide InRange, StartRuntime, Finish;
      st := status;
      var r := runtimes[g];
      if r.repeats != 0 && r.boundary {
        var next := if r.repeats == FOREVER then FOREVER else r.repeats - 1;
        var ok := StartGroupRuntime(g, t, next, r.parent);
        if ok {
          log := log + [Restarted(g)];
        } else {
          st := Latch(st, InvalidProgram);
          runtimes := runtimes[g := RESET];
          log := log + [Failed(RestartFailed)];
        }
        return;
      }
      if r.repeats != 0 {
        st := Latch(st, InvalidProgram);
        log := log + [Failed(NoBoundary)];
      }
      st := FinishGroup(g, st, true);
    }

    /** Complete or repeat groups with no outstanding work. */
    method CompleteReadyGroups(t: uint32, status: Status, already: bool) returns (progressed: bool, st: Status)
      requires Shaped(View())
      modifies `runtimes, `mem, `phase, `log
      ensures Pass(View(), st, progressed) == CompleteFrom(Pass(old(View()), status, already), 0, t)
      ensures Shaped(View())
    {
      hide InRange, Complete;
      progressed, st := already, status;
      ghost var goal := CompleteFrom(Pass(View(), st, progressed), 0, t);
      for g := 0 to |groups|
        invariant Shaped(View()) && CompleteFrom(Pass(View(), st, progressed), g, t) == goal
      {
        var r := runtimes[g];
        if r.active && r.cursor >= groups[g].count && r.activeCount == 0 && r.childCount == 0 {
          st := CompleteGroup(g, t, st, progressed);
          progressed := true;
        }
      }
    }

    // ----- Due instructions ------------------------------------------------------------------------

    /** Run the ordinary instruction `i` of `g`. */
    method RunInstruction(g: nat, i: nat, t: uint32, status: Status, ghost progressed: bool) returns (st: Status)
      requires Shaped(View()) && g < |runtimes| && i < |code|
      modifies `runtimes, `mem, `executing, `strip, `show, `log
      ensures var s := old(View());
        Pass(View(), st, progressed) == RunWith(Pass(s, status, progressed), g, i, t, Execute(code[i], s.mem[i], t, s.strip, s.period))
    {
      hide Execute, InRange, Plus, Latch;
      var x := Execute(code[i], mem[i], t, strip, period);
      st := status;
      mem, strip, show := mem[i := x.mem], x.strip, show || x.show;
      if x.delay == 0 {
        return;
      }
      if |executing| >= MAX_INSTRUCTIONS {
        st := Latch(st, CapacityExhausted);
        log := log + [Failed(TimedCapacity)];
        return;
      }
      executing := executing + [Entry(i, g, Plus(t, x.delay))];
      runtimes := runtimes[g := runtimes[g].(activeCount := runtimes[g].activeCount + 1)];
    }

    /** Perform instruction `i` of `g`; true only when a child starts and should run first. */
    method DispatchDueInstruction(g: nat, i: nat, t: uint32, status: Status, ghost progressed: bool) returns (stop: bool, st: Status)
      requires Shaped(View()) && g < |runtimes| && i < |code|
      modifies `runtimes, `mem, `executing, `strip, `show, `log
      ensures Pass(View(), st, progressed) == Perform(Pass(old(View()), status, progressed), g, i, t)
      ensures stop == (code[i].op.RunGroup? && CanLaunch(old(View()), g, Target(Program(code, groups, pool), i)))
    {
      hide Execute, InRange, StartRuntime, FindGroup, RunWith;
      st := status;
      stop := false;
      if !code[i].op.RunGroup? {
        st := RunInstruction(g, i, t, status, progressed);
        return;
      }
      var h := FindGroup(groups, code[i].op.target);
      if h == MAX_GROUPS || h == 0 {
        st := Latch(st, InvalidProgram);
        log := log + [Failed(BadTarget)];
        return;
      }
      if h < |runtimes| && runtimes[h].active {
        st := Latch(st, AlreadyActiveGroup);
        log := log + [Failed(AlreadyRunning)];
        return;
      }
      stop := StartGroupRuntime(h, t, code[i].op.repeats, g);
      if !stop {
        st := Latch(st, InvalidProgram);
        log := log + [Failed(StartFailed)];
        return;
      }
      log := log + [Started(h, code[i].op.repeats)];
      runtimes := runtimes[g := runtimes[g].(childCount := runtimes[g].childCount + 1)];
    }

    /** Consume the due instruction of `g` and perform it. */
    method DispatchNext(g: nat, t: uint32, status: Status, ghost progressed: bool) returns (stop: bool, st: Status)
      requires Shaped(View()) && g < |runtimes| && HasDue(View(), g, t)
      modifies `runtimes, `mem, `executing, `strip, `show, `log
      ensures Pass(View(), st, true) == Dispatch(Pass(old(View()), status, progressed), g, t)
      ensures stop == StopsPick(old(View()), g)
    {
      hide Observe, Perform, FindGroup;
      var k := runtimes[g].cursor;
      var slot := pool[groups[g].begin + k];
      ghost var elapsed := Since(t, runtimes[g].startTime);
      if code[slot].mark > 0 {
        ObservePositiveBoundary(g);
      }
      runtimes := runtimes[g := runtimes[g].(cursor := k + 1)];
      log := log + [Dispatched(g, slot, elapsed)];
      stop, st := DispatchDueInstruction(g, slot, t, status, true);
    }

    /** Dispatch whatever is due in `g`. */
    method PickFromRuntime(g: nat, t: uint32, status: Status, already: bool) returns (stop: bool, progressed: bool, st: Status)
      requires Shaped(View()) && g < |runtimes| && runtimes[g].active
      modifies `runtimes, `mem, `executing, `strip, `show, `log
      ensures Picked(Pass(View(), st, progressed), stop) == PickRuntime(Pass(old(View()), status, already), g, t)
      ensures Shaped(View())
    {
      hide Dispatch, StopsPick, InRange;
      stop, progressed, st := false, already, status;
      var elapsed := Since(t, runtimes[g].startTime);
      ghost var goal := PickRuntime(Pass(View(), st, progressed), g, t);
      while runtimes[g].cursor < groups[g].count
        invariant Shaped(View()) && g < |runtimes| && runtimes[g].active && elapsed == Since(t, runtimes[g].startTime)
        invariant PickRuntime(Pass(View(), st, progressed), g, t) == goal && !stop
        decreases if runtimes[g].cursor < groups[g].count then groups[g].count - runtimes[g].cursor else 0
      {
        PoolIndex(Program(code, groups, pool), g, runtimes[g].cursor);
        var slot := pool[groups[g].begin + runtimes[g].cursor];
        if code[slot].mark > elapsed {
          break;
        }
        DispatchAdvances(Pass(View(), st, progressed), g, t);
        stop, st := DispatchNext(g, t, st, progressed);
        progressed := true;
        if stop {
          return;
        }
      }
    }

    /** Execute newly due instructions, deeper groups first; stop after a launch. */
    method PickDueInstructions(t: uint32, status: Status, already: bool) returns (progressed: bool, st: Status)
      requires Shaped(View())
      modifies `runtimes, `mem, `executing, `strip, `show, `log
      ensures Pass(View(), st, progressed) == PickFrom(Pass(old(View()), status, already), |groups|, t)
      ensures Shaped(View())
    {
      hide PickRuntime, InRange;
      progressed, st := already, status;
      var depth: nat := |groups|;
      ghost var goal := PickFrom(Pass(View(), st, progressed), |groups|, t);
      while depth > 0
        invariant Shaped(View()) && PickFrom(Pass(View(), st, progressed), depth, t) == goal
      {
        ghost var row := PickDepth(Pass(View(), st, progressed), depth - 1, 0, t);
        for g := 0 to |groups|
          invariant Shaped(View()) && PickDepth(Pass(View(), st, progressed), depth - 1, g, t) == row
        {
          if runtimes[g].active && runtimes[g].depth == depth - 1 {
            var stop;
            stop, progressed, st := PickFromRuntime(g, t, st, progressed);
            if stop {
              return;
            }
          }
        }
        depth := depth - 1;
      }
    }

    // ----- The tick ----------------------------------------------------------------------------------

    /** Arm the earliest mark or deadline. */
    method ScheduleNextRun(t: uint32)
      requires Shaped(View())
      modifies `timeout
      ensures View() == Arm(old(View()), t)
    {
      hide InRange, Since, Reached;
      ghost var s := View();
      for i := 0 to |executing|
        invariant ArmEntries(s, i, t, timeout) == ArmEntries(s, 0, t, s.timeout)
      {
        var deadline := executing[i].deadline;
        if !Reached(t, deadline) {
          ScheduleTimeout(Since(deadline, t));
        }
      }
      ghost var first := timeout;
      for g := 0 to |groups|
        invariant ArmMarks(s, g, t, timeout) == ArmMarks(s, 0, t, first)
      {
        var r := runtimes[g];
        if r.active && r.cursor < groups[g].count {
          PoolIndex(s.prog, g, r.cursor);
          var mark := code[pool[groups[g].begin + r.cursor]].mark;
          if mark > Since(t, r.startTime) {
            ScheduleTimeout(mark - Since(t, r.startTime));
          }
        }
      }
    }

    /** Keep the least of the positive timeouts asked for. */
    method ScheduleTimeout(ms: uint32)
      modifies `timeout
      ensures timeout == Earlier(old(timeout), ms)
      ensures timeout <= ms && (old(timeout) > 0 ==> timeout <= old(timeout)) && (timeout == ms || timeout == old(timeout) > 0)
    {
      if timeout == 0 || ms < timeout {
        timeout := ms;
      }
    }

    /** Advance the program to `t`. The loop terminates for every program that was started,
        and the result is the tick function, so everything proved of `Tick.Run` holds. */
    method Run(t: uint32) returns (status: Status)
      requires Valid()
      modifies this
      ensures Valid()
      ensures Ran(View(), status) == Tick.Run(old(View()), t)
      ensures old(phase) == Active ==> (phase == Active <==> timeout > 0)
    {
      hide Linked, Timed, Counted, HistOn, Round, MeasureOf;
      if phase != Active {
        return Success;
      }
      TickKeepsHistory(View(), t);
      NoLostWakeup(View(), t);
      show, timeout := false, 0;
      ghost var goal := Settle(View(), Success, t);
      var progressed := true;
      status := Success;
      while progressed
        invariant Inv(View())
        invariant if progressed then Settle(View(), status, t) == goal else Pass(View(), status, false) == goal
        decreases progressed, MeasureOf(View(), t).due, MeasureOf(View(), t).marks, MeasureOf(View(), t).flags, MeasureOf(View(), t).load
      {
        RoundFalls(View(), status, t);
        progressed, status := RunRound(t, status);
      }
      ScheduleNextRun(t);
    }

    /** One round: drain, complete, pick. */
    method RunRound(t: uint32, status: Status) returns (progressed: bool, st: Status)
      requires Shaped(View())
      modifies this
      ensures Pass(View(), st, progressed) == Round(old(View()), status, t)
    {
      hide DrainFrom, CompleteFrom, PickFrom, InRange;
      progressed, st := DrainExecuting(t, status);
      progressed, st := CompleteReadyGroups(t, st, progressed);
      progressed, st := PickDueInstructions(t, st, progressed);
    }
  }

  lemma {:induction false} PoolIndex(p: Program, g: nat, k: nat)
    requires InRange(p) && g < |p.groups| && k < Count(p, g)
    ensures p.groups[g].begin + k < |p.pool| && At(p, g, k) == p.pool[p.groups[g].begin + k] && At(p, g, k) < |p.code|
  {
  }
}
