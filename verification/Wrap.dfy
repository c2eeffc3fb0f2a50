/** Clock-wrap transparency: moving every timestamp by a constant modulo 2^32 changes
    nothing but the timestamps. */
module Wrap {
  import opened Clock
  import opened Oklab
  import opened Instructions
  import opened Program
  import opened Scheduler
  import opened Invariant
  import opened Termination
  import opened Tick

  function MoveRuntime(r: Runtime, k: nat): Runtime {
    if r.active then r.(startTime := Plus(r.startTime, k)) else r
  }

  function MoveEntry(e: Entry, k: nat): Entry {
    e.(deadline := Plus(e.deadline, k))
  }

  function MoveMem(m: Mem, k: nat): Mem {
    match m
    case Idle => Idle
    case Fading(start, color, from, to) => Fading(Plus(start, k), color, from, to)
    case Blending(start, source, target) => Blending(Plus(start, k), source, target)
  }

  function MoveRuntimes(rts: seq<Runtime>, k: nat): (r: seq<Runtime>)
    ensures |r| == |rts| && forall i :: 0 <= i < |rts| ==> r[i] == MoveRuntime(rts[i], k)
  {
    seq(|rts|, i requires 0 <= i < |rts| => MoveRuntime(rts[i], k))
  }

  function MoveEntries(ex: seq<Entry>, k: nat): (r: seq<Entry>)
    ensures |r| == |ex| && forall i :: 0 <= i < |ex| ==> r[i] == MoveEntry(ex[i], k)
  {
    seq(|ex|, i requires 0 <= i < |ex| => MoveEntry(ex[i], k))
  }

  function MoveMems(mem: seq<Mem>, k: nat): (r: seq<Mem>)
    ensures |r| == |mem| && forall i :: 0 <= i < |mem| ==> r[i] == MoveMem(mem[i], k)
  {
    seq(|mem|, i requires 0 <= i < |mem| => MoveMem(mem[i], k))
  }

  /** The state with every stored timestamp moved by `k`. */
  function Moves(s: Ctl, k: nat): Ctl {
    s.(runtimes := MoveRuntimes(s.runtimes, k), executing := MoveEntries(s.executing, k), mem := MoveMems(s.mem, k))
  }

  function MovePass(a: Pass, k: nat): Pass {
    a.(s := Moves(a.s, k))
  }

  function MoveEffect(x: Effect, k: nat): Effect {
    x.(mem := MoveMem(x.mem, k))
  }

  /** The program has no Fade, or the move keeps the phase of Fade's absolute refresh grid. */
  predicate Aligned(s: Ctl, t: uint32, k: nat) {
    || (forall i :: 0 <= i < |s.prog.code| ==> !s.prog.code[i].op.Fade?)
    || Plus(t, k) % s.period == t % s.period
  }

  // ----- Instructions ------------------------------------------------------------------------

  lemma {:induction false} ExecuteMoves(c: Code, mem: Mem, t: uint32, strip: seq<Rgb>, period: Period, k: nat)
    requires !c.op.Fade? || Plus(t, k) % period == t % period
    ensures Execute(c, MoveMem(mem, k), Plus(t, k), strip, period) == MoveEffect(Execute(c, mem, t, strip, period), k)
  {
    hide Plus, Since, ToOklab, FromOklab, Interpolate, ScaleRgb, FadeTarget, InterpolateValue, Fill;
    if c.op.Fade? && mem.Fading? {
      ShiftSince(t, mem.start, k);
    } else if c.op.Gradient? && mem.Blending? {
      ShiftSince(t, mem.start, k);
    }
  }

  // ----- Steps ---------------------------------------------------------------------------------

  lemma {:induction false} SetRuntime(rts: seq<Runtime>, g: nat, r: Runtime, k: nat)
    requires g < |rts|
    ensures MoveRuntimes(rts[g := r], k) == MoveRuntimes(rts, k)[g := MoveRuntime(r, k)]
  {
  }

  lemma {:induction false} ObserveMoves(rts: seq<Runtime>, g: nat, fuel: nat, k: nat)
    ensures Observe(MoveRuntimes(rts, k), g, fuel) == MoveRuntimes(Observe(rts, g, fuel), k)
    decreases fuel
  {
    if fuel != 0 && g < |rts| && rts[g].active {
      var r := rts[g].(boundary := true);
      SetRuntime(rts, g, r, k);
      ObserveMoves(rts[g := r], rts[g].parent, fuel - 1, k);
    }
  }

  lemma {:induction false} ClearMoves(mem: seq<Mem>, p: Program, g: nat, j: nat, k: nat)
    requires InRange(p) && g < |p.groups| && |mem| == |p.code| && j <= Count(p, g)
    ensures ClearFrom(MoveMems(mem, k), p, g, j) == MoveMems(ClearFrom(mem, p, g, j), k)
    decreases Count(p, g) - j
  {
    if j < Count(p, g) {
      var i := At(p, g, j);
      assert MoveMems(mem[i := Idle], k) == MoveMems(mem, k)[i := Idle];
      ClearMoves(mem[i := Idle], p, g, j + 1, k);
    }
  }

  lemma {:induction false} WithoutMoves(ex: seq<Entry>, i: nat, k: nat)
    requires i < |ex|
    ensures Without(MoveEntries(ex, k), i) == MoveEntries(Without(ex, i), k)
  {
  }

  lemma {:induction false} RearmMoves(ex: seq<Entry>, i: nat, t: uint32, delay: nat, k: nat)
    requires i < |ex|
    ensures MoveEntries(ex, k)[i := MoveEntry(ex[i], k).(deadline := Plus(Plus(t, k), delay))]
      == MoveEntries(ex[i := ex[i].(deadline := Plus(t, delay))], k)
  {
    hide Plus;
    ShiftPlus(t, delay, k);
  }

  lemma {:induction false} ResumeWithMoves(a: Pass, i: nat, t: uint32, x: Effect, k: nat)
    requires Shaped(a.s) && i < |a.s.executing| && !Stale(a.s, a.s.executing[i])
    ensures ResumeWith(MovePass(a, k), i, Plus(t, k), MoveEffect(x, k)) == MovePass(ResumeWith(a, i, t, x), k)
  {
    hide Plus, Observe;
    var s, e := a.s, a.s.executing[i];
    ObserveMoves(s.runtimes, e.runtime, |s.runtimes|, k);
    var rts := Observe(s.runtimes, e.runtime, |s.runtimes|);
    var r := rts[e.runtime];
    if r.activeCount > 0 {
      SetRuntime(rts, e.runtime, r.(activeCount := r.activeCount - 1), k);
    }
    assert MoveMems(s.mem, k)[e.slot := MoveMem(x.mem, k)] == MoveMems(s.mem[e.slot := x.mem], k);
    WithoutMoves(s.executing, i, k);
    RearmMoves(s.executing, i, t, x.delay, k);
  }

  lemma {:induction false} ResumeMoves(a: Pass, i: nat, t: uint32, k: nat)
    requires Shaped(a.s) && i < |a.s.executing| && !Stale(a.s, a.s.executing[i]) && Aligned(a.s, t, k)
    ensures Resume(MovePass(a, k), i, Plus(t, k)) == MovePass(Resume(a, i, t), k)
  {
    hide Plus, ResumeWith, Execute;
    var s, e := a.s, a.s.executing[i];
    ExecuteMoves(s.prog.code[e.slot], s.mem[e.slot], t, s.strip, s.period, k);
    ResumeWithMoves(a, i, t, Execute(s.prog.code[e.slot], s.mem[e.slot], t, s.strip, s.period), k);
  }

  lemma {:induction false} StartMoves(s: Ctl, g: nat, t: uint32, repeats: uint16, parent: nat, k: nat)
    requires Shaped(s) && CanStart(s.runtimes, g, parent)
    ensures StartRuntime(Moves(s, k), g, Plus(t, k), repeats, parent) == Moves(StartRuntime(s, g, t, repeats, parent), k)
  {
    hide Plus, ClearFrom;
    SetRuntime(s.runtimes, g, Fresh(s.runtimes, g, t, repeats, parent), k);
    ClearMoves(s.mem, s.prog, g, 0, k);
  }

  lemma {:induction false} FinishMoves(a: Pass, g: nat, k: nat)
    requires Shaped(a.s) && g < |a.s.runtimes|
    ensures Finish(MovePass(a, k), g) == MovePass(Finish(a, g), k)
  {
    hide Plus;
    var rts, parent := a.s.runtimes, a.s.runtimes[g].parent;
    SetRuntime(rts, g, RESET, k);
    var b := rts[g := RESET];
    if parent < |b| && b[parent].active && b[parent].childCount > 0 {
      SetRuntime(b, parent, b[parent].(childCount := b[parent].childCount - 1), k);
    }
  }

  lemma {:induction false} CompleteMoves(a: Pass, g: nat, t: uint32, k: nat)
    requires Shaped(a.s) && g < |a.s.runtimes| && Ready(a.s, g)
    ensures Complete(MovePass(a, k), g, Plus(t, k)) == MovePass(Complete(a, g, t), k)
  {
    hide Plus, StartRuntime, Finish;
    var r := a.s.runtimes[g];
    if r.repeats != 0 && r.boundary {
      if CanStart(a.s.runtimes, g, r.parent) {
        var next := if r.repeats == FOREVER then FOREVER else r.repeats - 1;
        StartMoves(a.s, g, t, next, r.parent, k);
      } else {
        SetRuntime(a.s.runtimes, g, RESET, k);
      }
    } else {
      var b := a.(progressed := true);
      FinishMoves(if r.repeats != 0 then Fail(b, NoBoundary, InvalidProgram) else b, g, k);
    }
  }

  lemma {:induction false} DueMoves(s: Ctl, g: nat, t: uint32, k: nat)
    requires Shaped(s) && g < |s.runtimes|
    ensures HasDue(Moves(s, k), g, Plus(t, k)) == HasDue(s, g, t)
    ensures s.runtimes[g].active ==> Since(Plus(t, k), Moves(s, k).runtimes[g].startTime) == Since(t, s.runtimes[g].startTime)
  {
    hide Plus, Since;
    ShiftSince(t, s.runtimes[g].startTime, k);
  }

  lemma {:induction false} ConsumeMoved(s: Ctl, g: nat, t: uint32, k: nat)
    requires Shaped(s) && g < |s.runtimes| && HasDue(s, g, t)
    ensures Consume(Moves(s, k), g, Plus(t, k)) == Moves(Consume(s, g, t), k)
  {
    hide Plus, Since, Observe;
    DueMoves(s, g, t, k);
    var j := s.runtimes[g].cursor;
    ObserveMoves(s.runtimes, g, |s.runtimes|, k);
    var rts := if Mark(s.prog, g, j) > 0 then Observe(s.runtimes, g, |s.runtimes|) else s.runtimes;
    SetRuntime(rts, g, rts[g].(cursor := j + 1), k);
  }

  lemma {:induction false} RunWithMoves(a: Pass, g: nat, i: nat, t: uint32, x: Effect, k: nat)
    requires Shaped(a.s) && g < |a.s.runtimes| && i < |a.s.prog.code|
    ensures RunWith(MovePass(a, k), g, i, Plus(t, k), MoveEffect(x, k)) == MovePass(RunWith(a, g, i, t, x), k)
  {
    hide Plus;
    var s, r := a.s, a.s.runtimes[g];
    SetRuntime(s.runtimes, g, r.(activeCount := r.activeCount + 1), k);
    assert MoveMems(s.mem, k)[i := MoveMem(x.mem, k)] == MoveMems(s.mem[i := x.mem], k);
    ShiftPlus(t, x.delay, k);
    var e := Entry(i, g, Plus(t, x.delay));
    assert MoveEntries(s.executing, k) + [MoveEntry(e, k)] == MoveEntries(s.executing + [e], k);
  }

  lemma {:induction false} LaunchMoved(s: Ctl, g: nat, h: nat, t: uint32, repeats: uint16, k: nat)
    requires Shaped(s) && g < |s.runtimes| && h < |s.runtimes| && CanLaunch(s, g, h)
    ensures CanLaunch(Moves(s, k), g, h)
    ensures Launch(Moves(s, k), g, h, Plus(t, k), repeats) == Moves(Launch(s, g, h, t, repeats), k)
  {
    hide Plus, StartRuntime;
    StartMoves(s, h, t, repeats, g, k);
    var b := StartRuntime(s, h, t, repeats, g).runtimes;
    SetRuntime(b, g, b[g].(childCount := b[g].childCount + 1), k);
  }

  lemma {:induction false} PerformMoves(a: Pass, g: nat, i: nat, t: uint32, k: nat)
    requires Shaped(a.s) && g < |a.s.runtimes| && i < |a.s.prog.code| && Aligned(a.s, t, k)
    ensures Perform(MovePass(a, k), g, i, Plus(t, k)) == MovePass(Perform(a, g, i, t), k)
  {
    hide Plus, Launch, RunWith, Execute;
    var s, c := a.s, a.s.prog.code[i];
    if c.op.RunGroup? {
      var h := Target(s.prog, i);
      if h < |s.runtimes| && CanLaunch(s, g, h) {
        LaunchMoved(s, g, h, t, c.op.repeats, k);
      }
    } else {
      ExecuteMoves(c, s.mem[i], t, s.strip, s.period, k);
      RunWithMoves(a, g, i, t, Execute(c, s.mem[i], t, s.strip, s.period), k);
    }
  }

  lemma {:induction false} DispatchMoved(a: Pass, g: nat, t: uint32, k: nat)
    requires Shaped(a.s) && g < |a.s.runtimes| && HasDue(a.s, g, t) && Aligned(a.s, t, k)
    ensures HasDue(Moves(a.s, k), g, Plus(t, k))
    ensures Dispatch(MovePass(a, k), g, Plus(t, k)) == MovePass(Dispatch(a, g, t), k)
  {
    hide Plus, Perform, Consume;
    DueMoves(a.s, g, t, k);
    ConsumeMoved(a.s, g, t, k);
    var c := Pass(Consume(a.s, g, t), a.status, true);
    ConsumeSetup(a.s, g, t);
    PerformMoves(c, g, At(a.s.prog, g, a.s.runtimes[g].cursor), t, k);
  }

  lemma {:induction false} ConsumeSetup(s: Ctl, g: nat, t: uint32)
    requires Shaped(s) && g < |s.runtimes| && s.runtimes[g].cursor < Count(s.prog, g)
    ensures SameSetup(s, Consume(s, g, t))
  {
  }

  // ----- Loops ---------------------------------------------------------------------------------

  lemma {:induction false} StillAligned(a: Ctl, b: Ctl, t: uint32, k: nat)
    requires Aligned(a, t, k) && SameSetup(a, b)
    ensures Aligned(b, t, k)
  {
  }

  /** The pass with the stale entry `i` discarded. */
  function Discard(a: Pass, i: nat): (b: Pass)
    requires Shaped(a.s) && i < |a.s.executing|
    ensures Shaped(b.s) && SameSetup(a.s, b.s) && |b.s.executing| == |a.s.executing| - 1
  {
    Fail(a.(s := a.s.(executing := Without(a.s.executing, i)), progressed := true), StaleEntry, InvalidProgram)
  }

  lemma {:induction false} StaleMoves(a: Pass, i: nat, k: nat)
    requires Shaped(a.s) && i < |a.s.executing|
    ensures Stale(Moves(a.s, k), MoveEntry(a.s.executing[i], k)) == Stale(a.s, a.s.executing[i])
    ensures Discard(MovePass(a, k), i) == MovePass(Discard(a, i), k)
  {
    WithoutMoves(a.s.executing, i, k);
  }

  lemma {:induction false} DrainMoved(a: Pass, i: nat, t: uint32, k: nat)
    requires Shaped(a.s) && Aligned(a.s, t, k)
    ensures DrainFrom(MovePass(a, k), i, Plus(t, k)) == MovePass(DrainFrom(a, i, t), k)
    ensures Aligned(DrainFrom(a, i, t).s, t, k)
    decreases if i < |a.s.executing| then |a.s.executing| - i else 0
  {
    hide Plus, Since, Resume, Aligned, InRange, Fail, Without, Stale;
    var s := a.s;
    if i < |s.executing| {
      ShiftSince(t, s.executing[i].deadline, k);
      StaleMoves(a, i, k);
      if Stale(s, s.executing[i]) {
        var b := Discard(a, i);
        StillAligned(s, b.s, t, k);
        DrainMoved(b, i, t, k);
      } else if !Reached(t, s.executing[i].deadline) {
        DrainMoved(a, i + 1, t, k);
      } else {
        var b := Resume(a, i, t);
        ResumeMoves(a, i, t, k);
        ResumeSize(a, i, t);
        ResumeKeepsSetup(a, i, t);
        StillAligned(s, b.s, t, k);
        DrainMoved(b, if |b.s.executing| == |s.executing| then i + 1 else i, t, k);
      }
    }
  }

  lemma {:induction false} CompleteMoved(a: Pass, g: nat, t: uint32, k: nat)
    requires Shaped(a.s) && g <= |a.s.runtimes| && Aligned(a.s, t, k)
    ensures CompleteFrom(MovePass(a, k), g, Plus(t, k)) == MovePass(CompleteFrom(a, g, t), k)
    ensures Aligned(CompleteFrom(a, g, t).s, t, k)
    decreases |a.s.runtimes| - g
  {
    hide Plus, Complete, Aligned, InRange;
    if g < |a.s.runtimes| {
      if Ready(a.s, g) {
        CompleteMoves(a, g, t, k);
        CompleteKeepsSetup(a, g, t);
        StillAligned(a.s, Complete(a, g, t).s, t, k);
        CompleteMoved(Complete(a, g, t), g + 1, t, k);
      } else {
        CompleteMoved(a, g + 1, t, k);
      }
    }
  }

  function MovePicked(p: Picked, k: nat): Picked {
    p.(a := MovePass(p.a, k))
  }

  lemma {:induction false} PickRuntimeMoved(a: Pass, g: nat, t: uint32, k: nat)
    requires Shaped(a.s) && g < |a.s.runtimes| && Aligned(a.s, t, k)
    ensures PickRuntime(MovePass(a, k), g, Plus(t, k)) == MovePicked(PickRuntime(a, g, t), k)
    ensures Aligned(PickRuntime(a, g, t).a.s, t, k)
    decreases if a.s.runtimes[g].cursor < Count(a.s.prog, g) then Count(a.s.prog, g) - a.s.runtimes[g].cursor else 0
  {
    hide Plus, Since, Dispatch, Aligned, InRange;
    DueMoves(a.s, g, t, k);
    if HasDue(a.s, g, t) {
      DispatchAdvances(a, g, t);
      DispatchMoved(a, g, t, k);
      if !StopsPick(a.s, g) {
        DispatchKeepsSetup(a, g, t);
        StillAligned(a.s, Dispatch(a, g, t).s, t, k);
        PickRuntimeMoved(Dispatch(a, g, t), g, t, k);
      } else {
        DispatchKeepsSetup(a, g, t);
        StillAligned(a.s, Dispatch(a, g, t).s, t, k);
      }
    }
  }

  lemma {:induction false} PickDepthMoved(a: Pass, depth: nat, g: nat, t: uint32, k: nat)
    requires Shaped(a.s) && g <= |a.s.runtimes| && Aligned(a.s, t, k)
    ensures PickDepth(MovePass(a, k), depth, g, Plus(t, k)) == MovePicked(PickDepth(a, depth, g, t), k)
    ensures Aligned(PickDepth(a, depth, g, t).a.s, t, k)
    decreases |a.s.runtimes| - g
  {
    hide Plus, PickRuntime, Aligned, InRange;
    if g < |a.s.runtimes| {
      var r := a.s.runtimes[g];
      if r.active && r.depth == depth {
        PickRuntimeMoved(a, g, t, k);
        if !PickRuntime(a, g, t).stop {
          PickDepthMoved(PickRuntime(a, g, t).a, depth, g + 1, t, k);
        }
      } else {
        PickDepthMoved(a, depth, g + 1, t, k);
      }
    }
  }

  lemma {:induction false} PickMoved(a: Pass, depth: nat, t: uint32, k: nat)
    requires Shaped(a.s) && Aligned(a.s, t, k)
    ensures PickFrom(MovePass(a, k), depth, Plus(t, k)) == MovePass(PickFrom(a, depth, t), k)
    ensures Aligned(PickFrom(a, depth, t).s, t, k)
    decreases depth
  {
    hide Plus, PickDepth, Aligned, InRange;
    if depth > 0 {
      PickDepthMoved(a, depth - 1, 0, t, k);
      if !PickDepth(a, depth - 1, 0, t).stop {
        PickMoved(PickDepth(a, depth - 1, 0, t).a, depth - 1, t, k);
      }
    }
  }

  lemma {:induction false} RoundMoved(s: Ctl, status: Status, t: uint32, k: nat)
    requires Shaped(s) && Aligned(s, t, k)
    ensures Round(Moves(s, k), status, Plus(t, k)) == MovePass(Round(s, status, t), k)
    ensures Aligned(Round(s, status, t).s, t, k)
  {
    hide Plus, DrainFrom, CompleteFrom, PickFrom, Aligned, InRange;
    var a := Pass(s, status, false);
    DrainMoved(a, 0, t, k);
    var b := DrainFrom(a, 0, t);
    CompleteMoved(b, 0, t, k);
    var c := CompleteFrom(b, 0, t);
    PickMoved(c, |c.s.prog.groups|, t, k);
  }

  // ----- The tick and whole runs -----------------------------------------------------------------

  lemma {:induction false} InvMoves(s: Ctl, k: nat)
    requires Inv(s)
    ensures Inv(Moves(s, k))
  {
    hide Plus;
    var p, a, ex, b, ex' := s.prog, s.runtimes, s.executing, MoveRuntimes(s.runtimes, k), MoveEntries(s.executing, k);
    forall g | 0 <= g < |b| ensures LinkedAt(p, b, g) {
      assert LinkedAt(p, a, g);
    }
    forall i | 0 <= i < |ex'| ensures EntryAt(p, b, ex'[i]) {
      assert EntryAt(p, a, ex[i]);
    }
    forall g | 0 <= g < |b|
      ensures b[g].activeCount == Owned(ex', g, |ex'|) && b[g].childCount == Children(b, g, |b|)
    {
      OwnedSame(ex, ex', g, |ex|);
      ChildrenSame(a, b, g, |a|);
    }
  }

  lemma {:induction false} SettleMoved(s: Ctl, status: Status, t: uint32, k: nat)
    requires Inv(s) && Inv(Moves(s, k)) && Aligned(s, t, k)
    ensures Settle(Moves(s, k), status, Plus(t, k)) == MovePass(Settle(s, status, t), k)
    decreases MeasureOf(s, t).due, MeasureOf(s, t).marks, MeasureOf(s, t).flags, MeasureOf(s, t).load
  {
    hide Plus, Round, Aligned, Sound, Shaped;
    RoundFalls(s, status, t);
    RoundMoved(s, status, t, k);
    RoundFalls(Moves(s, k), status, Plus(t, k));
    var r := Round(s, status, t);
    if r.progressed {
      SettleMoved(r.s, r.status, t, k);
    }
  }

  lemma {:induction false} ArmEntriesMoved(s: Ctl, i: nat, t: uint32, timeout: uint32, k: nat)
    requires i <= |s.executing|
    ensures ArmEntries(Moves(s, k), i, Plus(t, k), timeout) == ArmEntries(s, i, t, timeout)
    decreases |s.executing| - i
  {
    hide Plus, Since;
    if i < |s.executing| {
      var deadline := s.executing[i].deadline;
      ShiftSince(t, deadline, k);
      ShiftSince(deadline, t, k);
      ArmEntriesMoved(s, i + 1, t, if Reached(t, deadline) then timeout else Earlier(timeout, Since(deadline, t)), k);
    }
  }

  lemma {:induction false} ArmMarksMoved(s: Ctl, g: nat, t: uint32, timeout: uint32, k: nat)
    requires Shaped(s) && g <= |s.runtimes|
    ensures ArmMarks(Moves(s, k), g, Plus(t, k), timeout) == ArmMarks(s, g, t, timeout)
    decreases |s.runtimes| - g
  {
    hide Plus, Since, InRange;
    if g < |s.runtimes| {
      var r := s.runtimes[g];
      ShiftSince(t, r.startTime, k);
      var next :=
        if r.active && r.cursor < Count(s.prog, g) && Mark(s.prog, g, r.cursor) > Since(t, r.startTime) then
          Earlier(timeout, Mark(s.prog, g, r.cursor) - Since(t, r.startTime))
        else timeout;
      ArmMarksMoved(s, g + 1, t, next, k);
    }
  }

  /** One tick commutes with the move: same log, colours, status and armed delay. */
  lemma {:induction false} TickMoved(s: Ctl, t: uint32, k: nat)
    requires s.phase == Active ==> Inv(s) && Aligned(s, t, k)
    ensures Moves(s, k).phase == Active ==> Inv(Moves(s, k))
    ensures Run(Moves(s, k), Plus(t, k)) == Ran(Moves(Run(s, t).s, k), Run(s, t).status)
  {
    hide Plus, Settle, Sound, Aligned, ArmEntries, ArmMarks, InRange;
    if s.phase == Active {
      InvMoves(s, k);
      var q := s.(show := false, timeout := 0);
      StillSilent(s, t, k);
      InvMoves(q, k);
      SettleMoved(q, Success, t, k);
      var r := Settle(q, Success, t).s;
      ArmEntriesMoved(r, 0, t, r.timeout, k);
      ArmMarksMoved(r, 0, t, ArmEntries(r, 0, t, r.timeout), k);
    }
  }

  lemma {:induction false} StillSilent(s: Ctl, t: uint32, k: nat)
    requires Aligned(s, t, k)
    ensures Aligned(s.(show := false, timeout := 0), t, k)
  {
  }

  /** The states and statuses of successive ticks. */
  function Runs(s: Ctl, ts: seq<uint32>): (rs: seq<Ran>)
    requires s.phase == Active ==> Inv(s)
    ensures |rs| == |ts|
    decreases |ts|
  {
    if ts == [] then []
    else
      var r := Run(s, ts[0]);
      assert r.s.phase == Active ==> Inv(r.s) by { if s.phase == Active { RunKeepsAll(s, ts[0]); } }
      [r] + Runs(r.s, ts[1..])
  }

  function MoveTimes(ts: seq<uint32>, k: nat): (us: seq<uint32>)
    ensures |us| == |ts| && forall i :: 0 <= i < |ts| ==> us[i] == Plus(ts[i], k)
  {
    seq(|ts|, i requires 0 <= i < |ts| => Plus(ts[i], k))
  }

  function MoveRan(r: Ran, k: nat): Ran {
    Ran(Moves(r.s, k), r.status)
  }

  function MoveRans(rs: seq<Ran>, k: nat): (us: seq<Ran>)
    ensures |us| == |rs| && forall i :: 0 <= i < |rs| ==> us[i] == MoveRan(rs[i], k)
  {
    seq(|rs|, i requires 0 <= i < |rs| => MoveRan(rs[i], k))
  }

  lemma {:induction false} RunAligned(s: Ctl, t: uint32, u: uint32, k: nat)
    requires s.phase == Active ==> Inv(s)
    requires Aligned(s, u, k)
    ensures Aligned(Run(s, t).s, u, k)
  {
    hide Plus, Sound, Settle, Aligned;
    if s.phase == Active {
      var a := Pass(s.(show := false, timeout := 0), Success, false);
      var ms := SettleIsRun(a.s, Success, t);
      RunKeepsSetup(a, ms, t);
      SameProgram(s, Run(s, t).s, u, k);
    }
  }

  lemma {:induction false} SameProgram(a: Ctl, b: Ctl, t: uint32, k: nat)
    requires Aligned(a, t, k) && b.prog == a.prog && b.period == a.period
    ensures Aligned(b, t, k)
  {
  }

  /** Clock-wrap transparency of runs from any state: adding any constant modulo 2^32 to its
      timestamps and to every tick changes nothing but the stored timestamps, for programs
      without Fade, and with Fade when the constant keeps the phase of the refresh grid. */
  lemma {:induction false} WrapTransparent(s: Ctl, ts: seq<uint32>, k: nat)
    requires s.phase == Active ==> Inv(s)
    requires forall i :: 0 <= i < |ts| ==> Aligned(s, ts[i], k)
    ensures Moves(s, k).phase == Active ==> Inv(Moves(s, k))
    ensures Runs(Moves(s, k), MoveTimes(ts, k)) == MoveRans(Runs(s, ts), k)
    decreases |ts|
  {
    hide Plus, Sound, Aligned, Run;
    if ts == [] {
      if s.phase == Active { InvMoves(s, k); }
    } else {
      TickMoved(s, ts[0], k);
      var r := Run(s, ts[0]);
      if s.phase == Active { RunKeepsAll(s, ts[0]); }
      if s.phase != Active { NotActiveStays(s, ts[0]); }
      forall i | 0 <= i < |ts[1..]| ensures Aligned(r.s, ts[1..][i], k) {
        assert Aligned(s, ts[i + 1], k);
        RunAligned(s, ts[0], ts[i + 1], k);
      }
      WrapTransparent(r.s, ts[1..], k);
      assert MoveTimes(ts, k)[1..] == MoveTimes(ts[1..], k);
      assert MoveRans([r] + Runs(r.s, ts[1..]), k) == [MoveRan(r, k)] + MoveRans(Runs(r.s, ts[1..]), k);
    }
  }

  lemma {:induction false} NotActiveStays(s: Ctl, t: uint32)
    requires s.phase != Active
    ensures Run(s, t) == Ran(s, Success)
  {
  }
}
