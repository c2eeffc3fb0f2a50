/** Following a tick step by step on concrete programs. */
module Traces {
  import opened Clock
  import opened Instructions
  import opened Program
  import opened Scheduler
  import opened Invariant
  import opened Termination
  import opened Tick
  import opened Grading
  import Faultless

  // ----- What a pick does next -------------------------------------------------------------

  lemma {:induction false} PickDepthSkips(a: Pass, depth: nat, g: nat, h: nat, t: uint32)
    requires Shaped(a.s) && g <= h <= |a.s.runtimes|
    requires forall f :: g <= f < h && a.s.runtimes[f].depth == depth ==> !HasDue(a.s, f, t)
    ensures PickDepth(a, depth, g, t) == PickDepth(a, depth, h, t)
    decreases h - g
  {
    hide HasDue, Dispatch;
    if g < h { PickDepthSkips(a, depth, g + 1, h, t); }
  }

  lemma {:induction false} PickSkips(a: Pass, depth: nat, d: nat, t: uint32)
    requires Shaped(a.s) && d <= depth
    requires forall f :: 0 <= f < |a.s.runtimes| && HasDue(a.s, f, t) ==> a.s.runtimes[f].depth < d
    ensures PickFrom(a, depth, t) == PickFrom(a, d, t)
    decreases depth
  {
    hide HasDue, PickDepth;
    if d < depth {
      PickDepthSkips(a, depth - 1, 0, |a.s.runtimes|, t);
      PickedAll(a, depth - 1, t);
      PickSkips(a, depth - 1, d, t);
    }
  }

  lemma {:induction false} PickedAll(a: Pass, depth: nat, t: uint32)
    requires Shaped(a.s)
    ensures PickDepth(a, depth, |a.s.runtimes|, t) == Picked(a, false)
  {
  }

  /** With nothing due, a pick does nothing. */
  lemma {:induction false} PickIdles(a: Pass, depth: nat, t: uint32)
    requires Shaped(a.s) && forall f :: 0 <= f < |a.s.runtimes| ==> !HasDue(a.s, f, t)
    ensures PickFrom(a, depth, t) == a
  {
    PickSkips(a, depth, 0, t);
  }

  /** A pick dispatches from the deepest group with due work, lowest index first, and goes on
      unless that launched a child. */
  lemma {:induction false} PickTakes(a: Pass, depth: nat, g: nat, t: uint32)
    requires Inv(a.s) && g < |a.s.runtimes| && HasDue(a.s, g, t) && a.s.runtimes[g].depth < depth
    requires DueFrom(a.s, a.s.runtimes[g].depth, g, t)
    ensures Inv(Dispatch(a, g, t).s)
    ensures PickFrom(a, depth, t) ==
      if StopsPick(a.s, g) then Dispatch(a, g, t) else PickFrom(Dispatch(a, g, t), a.s.runtimes[g].depth + 1, t)
  {
    hide Sound, Dispatch, StopsPick, HasDue;
    var d := a.s.runtimes[g].depth;
    PickSkips(a, depth, d + 1, t);
    PickDepthSkips(a, d, 0, g, t);
    DispatchKeeps(a, g, t);
    DueIsActive(a.s, g, t);
    DispatchAdvances(a, g, t);
    var b := Dispatch(a, g, t);
    if !StopsPick(a.s, g) {
      DispatchIsLocal(a, g, t);
      DispatchMoves(a, g, t);
      PickDepthSkips(b, d, 0, g, t);
    }
  }

  lemma {:induction false} DueIsActive(s: Ctl, g: nat, t: uint32)
    requires Shaped(s) && g < |s.runtimes| && HasDue(s, g, t)
    ensures s.runtimes[g].active && s.runtimes[g].cursor < Count(s.prog, g)
  {
  }

  lemma {:induction false} DrainIdles(a: Pass, i: nat, t: uint32)
    requires Inv(a.s) && i <= |a.s.executing| && forall j :: i <= j < |a.s.executing| ==> !Reached(t, a.s.executing[j].deadline)
    ensures DrainFrom(a, i, t) == a
    decreases |a.s.executing| - i
  {
    hide Sound, Resume;
    if i < |a.s.executing| {
      EntryIsCounted(a.s, i);
      DrainIdles(a, i + 1, t);
    }
  }

  lemma {:induction false} CompleteIdles(a: Pass, g: nat, h: nat, t: uint32)
    requires Shaped(a.s) && g <= h <= |a.s.runtimes| && forall f :: g <= f < h ==> !Ready(a.s, f)
    ensures CompleteFrom(a, g, t) == CompleteFrom(a, h, t)
    decreases h - g
  {
    hide Ready, Complete;
    if g < h { CompleteIdles(a, g + 1, h, t); }
  }

  /** A round in which only `g` completes. */
  lemma {:induction false} CompleteOne(a: Pass, g: nat, t: uint32)
    requires Inv(a.s) && g < |a.s.runtimes| && Ready(a.s, g) && forall f :: 0 <= f < g ==> !Ready(a.s, f)
    requires forall f :: g < f < |a.s.runtimes| ==> !Ready(Complete(a, g, t).s, f)
    ensures Inv(Complete(a, g, t).s) && CompleteFrom(a, 0, t) == Complete(a, g, t)
  {
    hide Ready, Complete, Sound;
    CompleteKeeps(a, g, t);
    CompleteIdles(a, 0, g, t);
    CompleteIdles(Complete(a, g, t), g + 1, |a.s.runtimes|, t);
  }

  lemma {:induction false} CompleteNone(a: Pass, t: uint32)
    requires Shaped(a.s) && forall f :: 0 <= f < |a.s.runtimes| ==> !Ready(a.s, f)
    ensures CompleteFrom(a, 0, t) == a
  {
    CompleteIdles(a, 0, |a.s.runtimes|, t);
  }

  // ----- Single steps at mark zero ---------------------------------------------------------

  /** The next instruction of `g` is due at once. */
  predicate AtOnce(s: Ctl, g: nat)
    requires Shaped(s) && g < |s.runtimes|
  {
    s.runtimes[g].active && s.runtimes[g].cursor < Count(s.prog, g) && Mark(s.prog, g, s.runtimes[g].cursor) == 0
  }

  /** The record of its dispatch. */
  function Note(s: Ctl, g: nat, t: uint32): Event
    requires Shaped(s) && g < |s.runtimes| && AtOnce(s, g)
  {
    Dispatched(g, At(s.prog, g, s.runtimes[g].cursor), Since(t, s.runtimes[g].startTime))
  }

  lemma {:induction false} LaunchStep(a: Pass, g: nat, h: nat, t: uint32)
    requires Inv(a.s) && g < |a.s.runtimes| && AtOnce(a.s, g) && Calls(a.s.prog, g, a.s.runtimes[g].cursor, h)
    requires h < |a.s.runtimes| && !a.s.runtimes[h].active
    ensures HasDue(a.s, g, t) && StopsPick(a.s, g) && g != h
    ensures var r, n, b := a.s.runtimes[g], a.s.prog.code[At(a.s.prog, g, a.s.runtimes[g].cursor)].op.repeats, Dispatch(a, g, t);
      && Inv(b.s) && b.status == a.status && b.progressed && b.s.prog == a.s.prog && b.s.executing == a.s.executing
      && b.s.runtimes == a.s.runtimes[h := Runtime(true, 0, t, n, 0, 0, false, g, r.depth + 1)]
                                     [g := r.(cursor := r.cursor + 1, childCount := r.childCount + 1)]
      && b.s.log == a.s.log + [Note(a.s, g, t)] + [Started(h, n)]
  {
    hide Sound, ClearFrom, Observe;
    DispatchKeeps(a, g, t);
    RunnableOf(a.s);
    CallIsForeign(a.s.prog, g, a.s.runtimes[g].cursor, h);
    ConsumeKeeps(a.s, g, t);
    ShallowDepth(Consume(a.s, g, t), g);
  }

  lemma {:induction false} ShallowDepth(s: Ctl, g: nat)
    requires Inv(s) && g < |s.runtimes| && s.runtimes[g].active
    ensures s.runtimes[g].depth + 1 < 0x100
  {
    assert LinkedAt(s.prog, s.runtimes, g);
  }

  lemma {:induction false} BusyStep(a: Pass, g: nat, h: nat, t: uint32)
    requires Inv(a.s) && g < |a.s.runtimes| && AtOnce(a.s, g) && Calls(a.s.prog, g, a.s.runtimes[g].cursor, h)
    requires h < |a.s.runtimes| && a.s.runtimes[h].active
    ensures HasDue(a.s, g, t) && !StopsPick(a.s, g)
    ensures var r, b := a.s.runtimes[g], Dispatch(a, g, t);
      && Inv(b.s) && b.status == Latch(a.status, AlreadyActiveGroup) && b.progressed && b.s.prog == a.s.prog
      && b.s.executing == a.s.executing && b.s.runtimes == a.s.runtimes[g := r.(cursor := r.cursor + 1)]
      && b.s.log == a.s.log + [Note(a.s, g, t)] + [Failed(AlreadyRunning)]
  {
    hide Sound, ClearFrom, Observe;
    DispatchKeeps(a, g, t);
  }

  lemma {:induction false} RunStep(a: Pass, g: nat, t: uint32)
    requires Inv(a.s) && g < |a.s.runtimes| && AtOnce(a.s, g)
    requires !a.s.prog.code[At(a.s.prog, g, a.s.runtimes[g].cursor)].op.RunGroup?
    ensures HasDue(a.s, g, t) && !StopsPick(a.s, g)
    ensures var r, d, b := a.s.runtimes[g], EffectOf(a.s, g, t).delay, Dispatch(a, g, t);
      && Inv(b.s) && b.status == a.status && b.progressed && b.s.prog == a.s.prog && b.s.log == a.s.log + [Note(a.s, g, t)]
      && b.s.executing == a.s.executing + (if d > 0 then [Entry(At(a.s.prog, g, r.cursor), g, Plus(t, d))] else [])
      && b.s.runtimes == a.s.runtimes[g := r.(cursor := r.cursor + 1, activeCount := r.activeCount + if d > 0 then 1 else 0)]
  {
    hide Sound, Execute, Observe;
    DispatchKeeps(a, g, t);
    Faultless.HasRoom(a.s, g);
  }

  lemma {:induction false} EndStep(a: Pass, g: nat, t: uint32)
    requires Inv(a.s) && g < |a.s.runtimes| && Ready(a.s, g) && !a.s.runtimes[g].boundary
    ensures var n, b := a.s.runtimes[g].repeats, Complete(a, g, t);
      && Inv(b.s) && b.progressed && b.s.prog == a.s.prog && b.s.executing == a.s.executing
      && b.s.runtimes == Released(a.s.runtimes, g)
      && b.s.log == a.s.log + (if n != 0 then [Failed(NoBoundary)] else []) + [Finished(g)]
      && b.status == (if n != 0 then Latch(a.status, InvalidProgram) else a.status)
  {
    hide Sound;
    CompleteKeeps(a, g, t);
    var c := a.(progressed := true);
    FinishKeeps(if a.s.runtimes[g].repeats != 0 then Fail(c, NoBoundary, InvalidProgram) else c, g);
  }
}
