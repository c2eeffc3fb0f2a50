/** The controller's state and one progress tick, as functions on values. */
module Scheduler {
  import opened Clock
  import opened Oklab
  import opened Instructions
  import opened Program

  datatype Status = Success | InvalidArgument | Busy | CapacityExhausted | InvalidProgram | AlreadyActiveGroup

  datatype Phase = Editable | Active | Completed

  /** Activation record of one group. */
  datatype Runtime = Runtime(
    active: bool, cursor: nat, startTime: uint32, repeats: uint16, activeCount: nat, childCount: nat,
    boundary: bool, parent: nat, depth: nat)

  const RESET: Runtime := Runtime(false, 0, 0, 0, 0, 0, false, MAX_GROUPS, 0)

  /** A timed instruction under execution. */
  datatype Entry = Entry(slot: nat, runtime: nat, deadline: uint32)

  datatype Fault =
    | StaleEntry | CountUnderflow | RestartFailed | NoBoundary | NoParent
    | BadTarget | AlreadyRunning | StartFailed | TimedCapacity

  /** The debug log, as structured records. */
  datatype Event =
    | Resumed(group: nat, slot: nat)
    | Dispatched(group: nat, slot: nat, elapsed: uint32)
    | Started(group: nat, repeats: uint16)
    | Restarted(group: nat)
    | Finished(group: nat)
    | Failed(fault: Fault)

  datatype Ctl = Ctl(
    prog: Program, mem: seq<Mem>, runtimes: seq<Runtime>, executing: seq<Entry>, phase: Phase,
    strip: seq<Rgb>, period: Period, show: bool, timeout: uint32, log: seq<Event>)

  /** State, latched status and progress flag threaded through a tick. */
  datatype Pass = Pass(s: Ctl, status: Status, progressed: bool)

  /** Table sizes agree, so every index the tick uses is checked or in range. */
  predicate Shaped(s: Ctl) {
    && InRange(s.prog)
    && |s.mem| == |s.prog.code|
    && |s.runtimes| == |s.prog.groups|
    && |s.prog.groups| <= MAX_GROUPS
  }

  function Latch(status: Status, next: Status): Status {
    if status == Success then next else status
  }

  function Fail(a: Pass, fault: Fault, status: Status): Pass {
    a.(status := Latch(a.status, status), s := a.s.(log := a.s.log + [Failed(fault)]))
  }

  // ----- Shared steps ------------------------------------------------------------

  /** Flag a boundary on `g` and its ancestors, following at most `fuel` links. */
  function Observe(rts: seq<Runtime>, g: nat, fuel: nat): (r: seq<Runtime>)
    ensures |r| == |rts|
    ensures forall i :: 0 <= i < |rts| ==> r[i] == rts[i].(boundary := r[i].boundary) && (rts[i].boundary ==> r[i].boundary)
    ensures forall i :: 0 <= i < |rts| && !rts[i].active ==> r[i] == rts[i]
    decreases fuel
  {
    if fuel == 0 || g >= |rts| || !rts[g].active then rts
    else Observe(rts[g := rts[g].(boundary := true)], rts[g].parent, fuel - 1)
  }

  /** Replay-reset the instructions of `g` from position `k` on. */
  function ClearFrom(mem: seq<Mem>, p: Program, g: nat, k: nat): (r: seq<Mem>)
    requires InRange(p) && g < |p.groups| && |mem| == |p.code| && k <= Count(p, g)
    ensures |r| == |mem|
    decreases Count(p, g) - k
  {
    if k == Count(p, g) then mem else ClearFrom(mem[At(p, g, k) := Idle], p, g, k + 1)
  }

  /** Whether `g` may be activated under `parent`. */
  predicate CanStart(rts: seq<Runtime>, g: nat, parent: nat) {
    g < |rts| && (parent != MAX_GROUPS ==> parent < |rts| && rts[parent].active)
  }

  function Fresh(rts: seq<Runtime>, g: nat, t: uint32, repeats: uint16, parent: nat): Runtime
    requires CanStart(rts, g, parent)
  {
    var depth := if parent == MAX_GROUPS then 0
                 else ((if parent == g then 0 else rts[parent].depth) + 1) % 0x100;
    Runtime(true, 0, t, repeats, 0, 0, false, parent, depth)
  }

  function StartRuntime(s: Ctl, g: nat, t: uint32, repeats: uint16, parent: nat): (r: Ctl)
    requires Shaped(s) && CanStart(s.runtimes, g, parent)
    ensures Shaped(r) && r.prog == s.prog
  {
    s.(runtimes := s.runtimes[g := Fresh(s.runtimes, g, t, repeats, parent)],
       mem := ClearFrom(s.mem, s.prog, g, 0))
  }

  // ----- Timed work ----------------------------------------------------------------

  /** Swap-remove of entry `i`. */
  function Without(executing: seq<Entry>, i: nat): (r: seq<Entry>)
    requires i < |executing|
    ensures |r| == |executing| - 1
  {
    executing[i := executing[|executing| - 1]][..|executing| - 1]
  }

  predicate Stale(s: Ctl, e: Entry) {
    e.slot >= |s.prog.code| || e.runtime >= |s.runtimes| || !s.runtimes[e.runtime].active
  }

  /** Entry `i` runs with effect `x`: it stays with a new deadline or is removed. */
  function ResumeWith(a: Pass, i: nat, t: uint32, x: Effect): (r: Pass)
    requires Shaped(a.s) && i < |a.s.executing| && !Stale(a.s, a.s.executing[i])
    ensures Shaped(r.s) && r.s.prog == a.s.prog
  {
    var s, e := a.s, a.s.executing[i];
    var rts := Observe(s.runtimes, e.runtime, |s.runtimes|);
    var s1 := s.(runtimes := rts, mem := s.mem[e.slot := x.mem], strip := x.strip,
                 show := s.show || x.show, log := s.log + [Resumed(e.runtime, e.slot)]);
    if x.delay != 0 then
      Pass(s1.(executing := s.executing[i := e.(deadline := Plus(t, x.delay))]), a.status, true)
    else
      var s2 := s1.(executing := Without(s.executing, i));
      if rts[e.runtime].activeCount == 0 then Fail(Pass(s2, a.status, true), CountUnderflow, InvalidProgram)
      else
        var r := rts[e.runtime];
        Pass(s2.(runtimes := rts[e.runtime := r.(activeCount := r.activeCount - 1)]), a.status, true)
  }

  function Resume(a: Pass, i: nat, t: uint32): (r: Pass)
    requires Shaped(a.s) && i < |a.s.executing| && !Stale(a.s, a.s.executing[i])
    ensures Shaped(r.s) && r.s.prog == a.s.prog
  {
    var e := a.s.executing[i];
    ResumeWith(a, i, t, Execute(a.s.prog.code[e.slot], a.s.mem[e.slot], t, a.s.strip, a.s.period))
  }

  /** The drain loop from entry `i` on. */
  function DrainFrom(a: Pass, i: nat, t: uint32): (r: Pass)
    requires Shaped(a.s)
    ensures Shaped(r.s) && r.s.prog == a.s.prog
    decreases if i < |a.s.executing| then |a.s.executing| - i else 0
  {
    var s := a.s;
    if i >= |s.executing| then a
    else if Stale(s, s.executing[i]) then
      DrainFrom(Fail(a.(s := s.(executing := Without(s.executing, i)), progressed := true), StaleEntry, InvalidProgram), i, t)
    else if !Reached(t, s.executing[i].deadline) then DrainFrom(a, i + 1, t)
    else
      var b := Resume(a, i, t);
      DrainFrom(b, if |b.s.executing| == |s.executing| then i + 1 else i, t)
  }

  // ----- Group completion ------------------------------------------------------------

  /** No instruction, timed work or child of `g` is outstanding. */
  predicate Ready(s: Ctl, g: nat)
    requires Shaped(s) && g < |s.runtimes|
  {
    var r := s.runtimes[g];
    r.active && r.cursor >= Count(s.prog, g) && r.activeCount == 0 && r.childCount == 0
  }

  /** A ready group starts its next pass or ends. */
  function Complete(a: Pass, g: nat, t: uint32): (r: Pass)
    requires Shaped(a.s) && g < |a.s.runtimes| && Ready(a.s, g)
    ensures Shaped(r.s) && r.s.prog == a.s.prog
  {
    var s, r := a.s, a.s.runtimes[g];
    var b := a.(progressed := true);
    if r.repeats != 0 && r.boundary then
      var next := if r.repeats == FOREVER then FOREVER else r.repeats - 1;
      if CanStart(s.runtimes, g, r.parent) then
        b.(s := StartRuntime(s, g, t, next, r.parent).(log := s.log + [Restarted(g)]))
      else Fail(b.(s := s.(runtimes := s.runtimes[g := RESET])), RestartFailed, InvalidProgram)
    else Finish(if r.repeats != 0 then Fail(b, NoBoundary, InvalidProgram) else b, g)
  }

  /** `g` ends: its record is reset and its parent has one child less. */
  function Finish(a: Pass, g: nat): (r: Pass)
    requires Shaped(a.s) && g < |a.s.runtimes|
    ensures Shaped(r.s) && r.s.prog == a.s.prog
  {
    var parent := a.s.runtimes[g].parent;
    var rts := a.s.runtimes[g := RESET];
    var s := a.s.(runtimes := rts, log := a.s.log + [Finished(g)]);
    if g == 0 then a.(s := s.(phase := Completed))
    else if parent >= |rts| || !rts[parent].active || rts[parent].childCount == 0 then
      Fail(a.(s := s), NoParent, InvalidProgram)
    else
      a.(s := s.(runtimes := rts[parent := rts[parent].(childCount := rts[parent].childCount - 1)]))
  }

  /** The completion loop from group `g` on. */
  function CompleteFrom(a: Pass, g: nat, t: uint32): (r: Pass)
    requires Shaped(a.s) && g <= |a.s.runtimes|
    ensures Shaped(r.s) && r.s.prog == a.s.prog
    decreases |a.s.runtimes| - g
  {
    if g == |a.s.runtimes| then a
    else CompleteFrom(if Ready(a.s, g) then Complete(a, g, t) else a, g + 1, t)
  }

  // ----- Due instructions --------------------------------------------------------------

  /** The next instruction of `g` has reached its mark. */
  predicate HasDue(s: Ctl, g: nat, t: uint32)
    requires Shaped(s) && g < |s.runtimes|
  {
    var r := s.runtimes[g];
    r.active && r.cursor < Count(s.prog, g) && Mark(s.prog, g, r.cursor) <= Since(t, r.startTime)
  }

  /** Consume the next instruction of `g`: observe its mark and advance the cursor. */
  function Consume(s: Ctl, g: nat, t: uint32): (r: Ctl)
    requires Shaped(s) && g < |s.runtimes| && s.runtimes[g].cursor < Count(s.prog, g)
    ensures Shaped(r) && r.prog == s.prog
  {
    var k := s.runtimes[g].cursor;
    var rts := if Mark(s.prog, g, k) > 0 then Observe(s.runtimes, g, |s.runtimes|) else s.runtimes;
    s.(runtimes := rts[g := rts[g].(cursor := k + 1)],
       log := s.log + [Dispatched(g, At(s.prog, g, k), Since(t, s.runtimes[g].startTime))])
  }

  /** An ordinary instruction in slot `i` of `g` ran with effect `x`. */
  function RunWith(a: Pass, g: nat, i: nat, t: uint32, x: Effect): (r: Pass)
    requires Shaped(a.s) && g < |a.s.runtimes| && i < |a.s.prog.code|
    ensures Shaped(r.s) && r.s.prog == a.s.prog
  {
    var s := a.s.(mem := a.s.mem[i := x.mem], strip := x.strip, show := a.s.show || x.show);
    if x.delay == 0 then a.(s := s)
    else if |s.executing| >= MAX_INSTRUCTIONS then Fail(a.(s := s), TimedCapacity, CapacityExhausted)
    else
      var r := s.runtimes[g];
      a.(s := s.(executing := s.executing + [Entry(i, g, Plus(t, x.delay))],
                 runtimes := s.runtimes[g := r.(activeCount := r.activeCount + 1)]))
  }

  /** Whether launching `h` from `g` succeeds. */
  predicate CanLaunch(s: Ctl, g: nat, h: nat) {
    h != MAX_GROUPS && h != 0 && (h < |s.runtimes| ==> !s.runtimes[h].active) && CanStart(s.runtimes, h, g)
  }

  function Launch(s: Ctl, g: nat, h: nat, t: uint32, repeats: uint16): (r: Ctl)
    requires Shaped(s) && g < |s.runtimes| && h < |s.runtimes| && CanLaunch(s, g, h)
    ensures Shaped(r) && r.prog == s.prog
  {
    var s1 := StartRuntime(s, h, t, repeats, g);
    var r := s1.runtimes[g];
    s1.(runtimes := s1.runtimes[g := r.(childCount := r.childCount + 1)], log := s.log + [Started(h, repeats)])
  }

  /** Run or launch the consumed instruction `i` of `g`. */
  function Perform(a: Pass, g: nat, i: nat, t: uint32): (r: Pass)
    requires Shaped(a.s) && g < |a.s.runtimes| && i < |a.s.prog.code|
    ensures Shaped(r.s) && r.s.prog == a.s.prog
  {
    var s, c := a.s, a.s.prog.code[i];
    if c.op.RunGroup? then
      var h := Target(s.prog, i);
      if h == MAX_GROUPS || h == 0 then Fail(a, BadTarget, InvalidProgram)
      else if h < |s.runtimes| && s.runtimes[h].active then Fail(a, AlreadyRunning, AlreadyActiveGroup)
      else if !CanStart(s.runtimes, h, g) then Fail(a, StartFailed, InvalidProgram)
      else a.(s := Launch(s, g, h, t, c.op.repeats))
    else RunWith(a, g, i, t, Execute(c, s.mem[i], t, s.strip, s.period))
  }

  /** Dispatch of the due instruction of `g`. */
  function Dispatch(a: Pass, g: nat, t: uint32): (r: Pass)
    requires Shaped(a.s) && g < |a.s.runtimes| && HasDue(a.s, g, t)
    ensures Shaped(r.s) && r.s.prog == a.s.prog
  {
    var i := At(a.s.prog, g, a.s.runtimes[g].cursor);
    Perform(Pass(Consume(a.s, g, t), a.status, true), g, i, t)
  }

  /** The due instruction of `g` launches a group, which ends the pick pass. */
  predicate StopsPick(s: Ctl, g: nat)
    requires Shaped(s) && g < |s.runtimes| && s.runtimes[g].cursor < Count(s.prog, g)
  {
    var i := At(s.prog, g, s.runtimes[g].cursor);
    s.prog.code[i].op.RunGroup? && CanLaunch(s, g, Target(s.prog, i))
  }

  lemma {:induction false} DispatchAdvances(a: Pass, g: nat, t: uint32)
    requires Shaped(a.s) && g < |a.s.runtimes| && HasDue(a.s, g, t)
    ensures var s := Dispatch(a, g, t).s;
      s.prog == a.s.prog && s.runtimes[g].active && s.runtimes[g].cursor == a.s.runtimes[g].cursor + 1 &&
      s.runtimes[g].startTime == a.s.runtimes[g].startTime
  {
    hide Execute, ClearFrom;
  }

  /** Result of a pick loop; `stop` says that a launched child ended the pass. */
  datatype Picked = Picked(a: Pass, stop: bool)

  /** Dispatch everything due in `g`, stopping after a launch. */
  function PickRuntime(a: Pass, g: nat, t: uint32): (r: Picked)
    requires Shaped(a.s) && g < |a.s.runtimes|
    ensures Shaped(r.a.s) && r.a.s.prog == a.s.prog
    decreases if a.s.runtimes[g].cursor < Count(a.s.prog, g) then Count(a.s.prog, g) - a.s.runtimes[g].cursor else 0
  {
    if !HasDue(a.s, g, t) then Picked(a, false)
    else
      DispatchAdvances(a, g, t);
      var b := Dispatch(a, g, t);
      if StopsPick(a.s, g) then Picked(b, true) else PickRuntime(b, g, t)
  }

  /** The runtimes at one depth, from index `g` on. */
  function PickDepth(a: Pass, depth: nat, g: nat, t: uint32): (r: Picked)
    requires Shaped(a.s) && g <= |a.s.runtimes|
    ensures Shaped(r.a.s) && r.a.s.prog == a.s.prog
    decreases |a.s.runtimes| - g
  {
    if g == |a.s.runtimes| then Picked(a, false)
    else
      var r := a.s.runtimes[g];
      var p := if r.active && r.depth == depth then PickRuntime(a, g, t) else Picked(a, false);
      if p.stop then p else PickDepth(p.a, depth, g + 1, t)
  }

  /** Depths `depth - 1` down to 0: children before their parents. */
  function PickFrom(a: Pass, depth: nat, t: uint32): (r: Pass)
    requires Shaped(a.s)
    ensures Shaped(r.s) && r.s.prog == a.s.prog
    decreases depth
  {
    if depth == 0 then a
    else
      var p := PickDepth(a, depth - 1, 0, t);
      if p.stop then p.a else PickFrom(p.a, depth - 1, t)
  }

  /** One round of the tick's loop. */
  function Round(s: Ctl, status: Status, t: uint32): (r: Pass)
    requires Shaped(s)
    ensures Shaped(r.s) && r.s.prog == s.prog
  {
    var a := DrainFrom(Pass(s, status, false), 0, t);
    var b := CompleteFrom(a, 0, t);
    PickFrom(b, |b.s.prog.groups|, t)
  }

  // ----- Arming the next wakeup -----------------------------------------------------

  function Earlier(timeout: uint32, ms: uint32): uint32 {
    if timeout == 0 || ms < timeout then ms else timeout
  }

  /** Timeout after the deadlines of entries `i..`. */
  function ArmEntries(s: Ctl, i: nat, t: uint32, timeout: uint32): uint32
    requires i <= |s.executing|
    decreases |s.executing| - i
  {
    if i == |s.executing| then timeout
    else
      var deadline := s.executing[i].deadline;
      ArmEntries(s, i + 1, t, if Reached(t, deadline) then timeout else Earlier(timeout, Since(deadline, t)))
  }

  /** Timeout after the next marks of groups `g..`. */
  function ArmMarks(s: Ctl, g: nat, t: uint32, timeout: uint32): uint32
    requires Shaped(s) && g <= |s.runtimes|
    decreases |s.runtimes| - g
  {
    if g == |s.runtimes| then timeout
    else
      var r := s.runtimes[g];
      var next :=
        if r.active && r.cursor < Count(s.prog, g) && Mark(s.prog, g, r.cursor) > Since(t, r.startTime) then
          Earlier(timeout, Mark(s.prog, g, r.cursor) - Since(t, r.startTime))
        else timeout;
      ArmMarks(s, g + 1, t, next)
  }

  function Arm(s: Ctl, t: uint32): (r: Ctl)
    requires Shaped(s)
    ensures Shaped(r) && r.prog == s.prog
  {
    s.(timeout := ArmMarks(s, 0, t, ArmEntries(s, 0, t, s.timeout)))
  }
}
