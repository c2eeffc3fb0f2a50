/** Programs that never report a fault: each group in play has one launcher, and what repeats
    meets a boundary in every pass. */
module Faultless {
  import opened Clock
  import opened Instructions
  import opened Program
  import opened Scheduler
  import opened Invariant
  import opened Tick
  import opened History
  import opened Grading

  /** Everything the root leads to is in play. */
  ghost predicate InPlay(p: Program, q: Grade)
    requires InRange(p)
  {
    0 in q.play && forall g: nat, k: nat, h: nat :: g in q.play && Calls(p, g, k, h) ==> h in q.play
  }

  /** No group has two launches in play. */
  ghost predicate Sole(p: Program, q: Grade)
    requires InRange(p)
  {
    forall g: nat, k: nat, f: nat, j: nat, h: nat ::
      g in q.play && f in q.play && Calls(p, g, k, h) && Calls(p, f, j, h) ==> g == f && k == j
  }

  /** Whatever is launched with repeats is effective. */
  ghost predicate Steady(p: Program, q: Grade)
    requires InRange(p)
  {
    forall g: nat, k: nat, h: nat ::
      g in q.play && Calls(p, g, k, h) && p.code[At(p, g, k)].op.repeats != 0 ==> h in q.eff
  }

  ghost predicate Fit(p: Program, q: Grade)
    requires InRange(p)
  {
    Graded(p, q) && InPlay(p, q) && Sole(p, q) && Steady(p, q)
  }

  /** An effective group that is not flagged still has a promise, a wait or an effective child. */
  ghost predicate Pending(p: Program, q: Grade, rts: seq<Runtime>, g: nat)
    requires InRange(p) && |rts| == |p.groups| && g < |rts|
  {
    || SomePromise(p, q, g, rts[g].cursor)
    || rts[g].activeCount > 0
    || exists h :: 0 <= h < |rts| && IsChild(rts[h], g) && h in q.eff
  }

  ghost predicate GoodAt(p: Program, q: Grade, rts: seq<Runtime>, g: nat)
    requires InRange(p) && |rts| == |p.groups| && g < |rts|
  {
    && g in q.play
    && (rts[g].repeats != 0 ==> g in q.eff)
    && (g in q.eff && !rts[g].boundary ==> Pending(p, q, rts, g))
  }

  ghost predicate Good(p: Program, q: Grade, rts: seq<Runtime>)
    requires InRange(p) && |rts| == |p.groups|
  {
    forall g :: 0 <= g < |rts| && rts[g].active ==> GoodAt(p, q, rts, g)
  }

  // ----- No fault can happen ---------------------------------------------------------------

  /** While a launch of `h` is due, no other launch of it has been consumed. */
  lemma {:induction false} NotCalledYet(p: Program, q: Grade, rts: seq<Runtime>, g: nat, f: nat, h: nat)
    requires InRange(p) && |rts| == |p.groups| && Sole(p, q) && g in q.play && f in q.play
    requires g < |rts| && Calls(p, g, rts[g].cursor, h)
    ensures !CalledBy(p, rts, h, f)
  {
  }

  /** A target that is due to be launched is not running. */
  lemma {:induction false} TargetIsFree(s: Ctl, q: Grade, g: nat, h: nat)
    requires Inv(s) && Base(s, q) && Fit(s.prog, q) && Good(s.prog, q, s.runtimes)
    requires g < |s.runtimes| && s.runtimes[g].active && Calls(s.prog, g, s.runtimes[g].cursor, h)
    ensures h < |s.runtimes| && !s.runtimes[h].active
  {
    hide Graded, InPlay, Steady, Core;
    CallIsForeign(s.prog, g, s.runtimes[g].cursor, h);
    assert GoodAt(s.prog, q, s.runtimes, g) && LinkedAt(s.prog, s.runtimes, h);
    forall f | 0 <= f < |s.runtimes| && s.runtimes[f].active ensures !CalledBy(s.prog, s.runtimes, h, f) {
      assert GoodAt(s.prog, q, s.runtimes, f);
      NotCalledYet(s.prog, q, s.runtimes, g, f, h);
    }
    if s.runtimes[h].active {
      CallerOf(s, q, h);
    }
  }

  /** A ready effective group is flagged. */
  lemma {:induction false} ReadyIsFlagged(s: Ctl, q: Grade, g: nat)
    requires Inv(s) && Good(s.prog, q, s.runtimes) && g < |s.runtimes| && Ready(s, g) && g in q.eff
    ensures s.runtimes[g].boundary
  {
    hide Sound;
    QuietGroup(s.prog, s.runtimes, s.executing, g);
    assert GoodAt(s.prog, q, s.runtimes, g);
  }

  // ----- Steps keep it ---------------------------------------------------------------------

  /** Flags may appear, and counts of flagged groups may change. */
  lemma {:induction false} FlaggingGood(p: Program, q: Grade, a: seq<Runtime>, b: seq<Runtime>)
    requires InRange(p) && |a| == |b| == |p.groups| && Good(p, q, a)
    requires forall h :: 0 <= h < |a| ==>
      && b[h].active == a[h].active && b[h].parent == a[h].parent && b[h].cursor == a[h].cursor && b[h].repeats == a[h].repeats
      && (a[h].boundary ==> b[h].boundary) && (!b[h].boundary ==> b[h].activeCount == a[h].activeCount)
    ensures Good(p, q, b)
  {
    forall g | 0 <= g < |b| && b[g].active ensures GoodAt(p, q, b, g) {
      assert GoodAt(p, q, a, g);
      if h :| 0 <= h < |a| && IsChild(a[h], g) && h in q.eff {
        assert IsChild(b[h], g);
      }
    }
  }

  lemma {:induction false} ResumeGood(a: Pass, q: Grade, i: nat, t: uint32, x: Effect)
    requires Inv(a.s) && Base(a.s, q) && Graded(a.s.prog, q) && Good(a.s.prog, q, a.s.runtimes)
    requires i < |a.s.executing| && !Stale(a.s, a.s.executing[i]) && |x.strip| == |a.s.strip|
    ensures Good(a.s.prog, q, ResumeWith(a, i, t, x).s.runtimes)
  {
    hide Sound, Core, Good, Graded, Observe, InRange;
    ResumeBase(a, q, i, t, x);
    FlaggingGood(a.s.prog, q, a.s.runtimes, ResumeWith(a, i, t, x).s.runtimes);
  }

  /** A pass of `g` begins, and its parent keeps it as a child. */
  lemma {:induction false} BeginGood(p: Program, q: Grade, a: seq<Runtime>, g: nat, r: Runtime)
    requires InRange(p) && Graded(p, q) && |a| == |p.groups| && Good(p, q, a) && g < |a|
    requires forall h :: 0 <= h < |a| ==> !IsChild(a[h], g)
    requires r.active && r.cursor == 0 && g in q.play && (r.repeats != 0 ==> g in q.eff)
    requires a[g].active ==> r.parent == a[g].parent
    ensures Good(p, q, a[g := r])
  {
    hide SomePromise;
    var b := a[g := r];
    forall f | 0 <= f < |b| && b[f].active ensures GoodAt(p, q, b, f) {
      if f != g {
        assert GoodAt(p, q, a, f);
        if h :| 0 <= h < |a| && IsChild(a[h], f) && h in q.eff {
          assert IsChild(b[h], f);
        }
      }
    }
  }

  /** A ready group ends: if it was effective, its parent is flagged. */
  lemma {:induction false} ReleaseGood(s: Ctl, q: Grade, g: nat)
    requires Inv(s) && Base(s, q) && Good(s.prog, q, s.runtimes) && g < |s.runtimes| && Ready(s, g)
    ensures Good(s.prog, q, Released(s.runtimes, g))
  {
    hide Sound, SomePromise, Core;
    if g in q.eff { ReadyIsFlagged(s, q, g); }
    var a, b := s.runtimes, Released(s.runtimes, g);
    RootIsOrphan(s);
    forall f | 0 <= f < |b| && b[f].active ensures GoodAt(s.prog, q, b, f) {
      assert GoodAt(s.prog, q, a, f);
      if h :| 0 <= h < |a| && IsChild(a[h], f) && h in q.eff {
        if h != g { assert IsChild(b[h], f); }
      }
    }
  }

  lemma {:induction false} RootIsOrphan(s: Ctl)
    requires Inv(s)
    ensures forall g :: 0 <= g < |s.runtimes| ==> !IsChild(s.runtimes[0], g)
  {
    assert LinkedAt(s.prog, s.runtimes, 0);
  }

  lemma {:induction false} CompleteGood(a: Pass, q: Grade, g: nat, t: uint32)
    requires Inv(a.s) && Base(a.s, q) && Graded(a.s.prog, q) && Good(a.s.prog, q, a.s.runtimes)
    requires g < |a.s.runtimes| && Ready(a.s, g)
    ensures var b := Complete(a, g, t);
      && Good(a.s.prog, q, b.s.runtimes) && b.status == a.status
      && (b.s.log == a.s.log + [Restarted(g)] || (a.s.runtimes[g].repeats == 0 && b.s.log == a.s.log + [Finished(g)]))
  {
    hide Sound, Core, Graded, ClearFrom, InRange;
    var s, r := a.s, a.s.runtimes[g];
    CompleteKeeps(a, g, t);
    assert GoodAt(s.prog, q, s.runtimes, g);
    if r.repeats != 0 {
      ReadyIsFlagged(s, q, g);
      CanRestart(s.prog, s.runtimes, s.executing, g);
      QuietGroup(s.prog, s.runtimes, s.executing, g);
      var next := if r.repeats == FOREVER then FOREVER else r.repeats - 1;
      BeginGood(s.prog, q, s.runtimes, g, Fresh(s.runtimes, g, t, next, r.parent));
    } else {
      FinishKeeps(a.(progressed := true), g);
      ReleaseGood(s, q, g);
    }
  }

  /** What a dispatch from `g` must do to keep the promises. */
  ghost predicate Served(p: Program, q: Grade, a: seq<Runtime>, b: seq<Runtime>, g: nat)
    requires InRange(p) && |a| == |b| == |p.groups| && g < |a| && a[g].cursor < Count(p, g)
  {
    var i := At(p, g, a[g].cursor);
    && (forall f :: 0 <= f < |a| && f != g && a[f].active && !b[f].boundary ==> b[f].activeCount == a[f].activeCount)
    && (Delays(p.code[i], q.leds) ==> b[g].activeCount > 0) && (a[g].activeCount > 0 ==> b[g].activeCount > 0)
    && (p.code[i].op.RunGroup? && Target(p, i) in q.eff ==> Target(p, i) < |b| && IsChild(b[Target(p, i)], g))
  }

  lemma {:induction false} StepPending(p: Program, q: Grade, a: seq<Runtime>, b: seq<Runtime>, g: nat, t: uint32)
    requires InRange(p) && |a| == |b| == |p.groups| && g < |a| && a[g].active && a[g].cursor < Count(p, g)
    requires Moved(p, a, b, g, t) && Served(p, q, a, b, g) && Pending(p, q, a, g) && !b[g].boundary
    ensures Pending(p, q, b, g)
  {
    if SomePromise(p, q, g, a[g].cursor) {
      var k :| a[g].cursor <= k < Count(p, g) && Promising(p, q, g, k);
    } else if h :| 0 <= h < |a| && IsChild(a[h], g) && h in q.eff {
      assert IsChild(b[h], g);
    }
  }

  lemma {:induction false} OtherPending(p: Program, q: Grade, a: seq<Runtime>, b: seq<Runtime>, g: nat, f: nat, t: uint32)
    requires InRange(p) && |a| == |b| == |p.groups| && g < |a| && a[g].active && a[g].cursor < Count(p, g)
    requires Moved(p, a, b, g, t) && Served(p, q, a, b, g) && f < |a| && f != g && a[f].active
    requires Pending(p, q, a, f) && !b[f].boundary
    ensures Pending(p, q, b, f)
  {
    if h :| 0 <= h < |a| && IsChild(a[h], f) && h in q.eff {
      assert IsChild(b[h], f);
    }
  }

  lemma {:induction false} MovedGood(p: Program, q: Grade, a: seq<Runtime>, b: seq<Runtime>, g: nat, t: uint32)
    requires InRange(p) && Fit(p, q) && |a| == |b| == |p.groups| && Good(p, q, a)
    requires g < |a| && a[g].active && a[g].cursor < Count(p, g) && Moved(p, a, b, g, t) && Served(p, q, a, b, g)
    ensures Good(p, q, b)
  {
    hide Served, Pending, Sole, SomePromise, InRange;
    forall f | 0 <= f < |b| && b[f].active ensures GoodAt(p, q, b, f) {
      if a[f].active {
        assert GoodAt(p, q, a, f);
        if f in q.eff && !b[f].boundary {
          if f == g { StepPending(p, q, a, b, g, t); } else { OtherPending(p, q, a, b, g, f, t); }
        }
      } else {
        assert GoodAt(p, q, a, g);
        if f in q.eff { FreshPending(p, q, b, f); }
      }
    }
  }

  lemma {:induction false} FreshPending(p: Program, q: Grade, b: seq<Runtime>, f: nat)
    requires InRange(p) && Graded(p, q) && |b| == |p.groups| && f < |b| && f in q.eff && b[f].cursor == 0
    ensures Pending(p, q, b, f)
  {
  }

  lemma {:induction false} DispatchServes(a: Pass, q: Grade, g: nat, t: uint32)
    requires Inv(a.s) && Base(a.s, q) && Fit(a.s.prog, q) && Good(a.s.prog, q, a.s.runtimes)
    requires g < |a.s.runtimes| && HasDue(a.s, g, t)
    ensures var b := Dispatch(a, g, t);
      && Served(a.s.prog, q, a.s.runtimes, b.s.runtimes, g) && b.status == a.status
      && (b.s.log == Consume(a.s, g, t).log || exists h, n :: b.s.log == Consume(a.s, g, t).log + [Started(h, n)])
  {
    hide Fit, Good, Core, Sound, Execute, ClearFrom, Observe;
    var s, p, k := a.s, a.s.prog, a.s.runtimes[g].cursor;
    var i := At(p, g, k);
    DispatchKeeps(a, g, t);
    if p.code[i].op.RunGroup? {
      assert Calls(p, g, k, Target(p, i));
      TargetIsFree(s, q, g, Target(p, i));
      RunnableOf(s);
      CallIsForeign(p, g, k, Target(p, i));
      assert Dispatch(a, g, t).s.log == Consume(s, g, t).log + [Started(Target(p, i), p.code[i].op.repeats)];
    } else {
      EffectDelays(s, q, g, t);
      HasRoom(s, g);
    }
  }

  /** The executing table has room for the due instruction of `g`. */
  lemma {:induction false} HasRoom(s: Ctl, g: nat)
    requires Inv(s) && g < |s.runtimes| && s.runtimes[g].cursor < Count(s.prog, g)
    ensures |s.executing| < MAX_INSTRUCTIONS
  {
    NotExecuting(s.prog, s.runtimes, s.executing, g);
    RoomForEntry(s.prog, s.runtimes, s.executing, At(s.prog, g, s.runtimes[g].cursor));
  }

  lemma {:induction false} DispatchGood(a: Pass, q: Grade, g: nat, t: uint32)
    requires Inv(a.s) && Base(a.s, q) && Fit(a.s.prog, q) && Good(a.s.prog, q, a.s.runtimes)
    requires g < |a.s.runtimes| && HasDue(a.s, g, t)
    ensures Good(a.s.prog, q, Dispatch(a, g, t).s.runtimes)
  {
    hide Fit, Good, Core, Sound, Dispatch, Served, Moved, Enlisted;
    DispatchServes(a, q, g, t);
    DispatchMoves(a, g, t);
    MovedGood(a.s.prog, q, a.s.runtimes, Dispatch(a, g, t).s.runtimes, g, t);
  }

  // ----- Logs without faults ---------------------------------------------------------------

  /** No fault, and whatever ends made exactly the granted number of passes. */
  predicate SoundEvent(log: seq<Event>, e: Event) {
    && !e.Failed?
    && (e.Finished? ==> Granted(log, e.group) != FOREVER && Passes(log, e.group) == Granted(log, e.group) + 1)
  }

  predicate SoundLog(log: seq<Event>) {
    forall j :: 0 <= j < |log| ==> SoundEvent(log[..j], log[j])
  }

  lemma {:induction false} SoundAppend(log: seq<Event>, e: Event)
    requires SoundLog(log) && SoundEvent(log, e)
    ensures SoundLog(log + [e])
  {
    var next := log + [e];
    forall j | 0 <= j < |next| ensures SoundEvent(next[..j], next[j]) {
      assert next[..j] == log[..j];
      assert j < |log| ==> SoundEvent(log[..j], log[j]);
      assert log[..|log|] == log;
    }
  }

  /** Everything a faultless run keeps. */
  ghost predicate Well(s: Ctl, q: Grade) {
    Inv(s) && Hist(s) && Base(s, q) && Fit(s.prog, q) && Good(s.prog, q, s.runtimes) && SoundLog(s.log)
  }

  lemma {:induction false} ResumeWell(a: Pass, q: Grade, i: nat, t: uint32, x: Effect)
    requires Well(a.s, q) && i < |a.s.executing| && !Stale(a.s, a.s.executing[i]) && |x.strip| == |a.s.strip|
    ensures Well(ResumeWith(a, i, t, x).s, q) && ResumeWith(a, i, t, x).status == a.status
  {
    hide Sound, HistOn, Base, Good, SoundLog, Graded, Sole, Steady, InPlay, Observe;
    ResumeKeeps(a, i, t, x);
    ResumeHist(a, i, t, x);
    ResumeBase(a, q, i, t, x);
    ResumeGood(a, q, i, t, x);
    SoundAppend(a.s.log, Resumed(a.s.executing[i].runtime, a.s.executing[i].slot));
  }

  lemma {:induction false} CompleteWell(a: Pass, q: Grade, g: nat, t: uint32)
    requires Well(a.s, q) && g < |a.s.runtimes| && Ready(a.s, g)
    ensures Well(Complete(a, g, t).s, q) && Complete(a, g, t).status == a.status
  {
    hide Sound, Base, Good, SoundLog, Graded, Sole, Steady, InPlay, Complete, GoodLog, Passes, Granted;
    CompleteHist(a, g, t);
    CompleteBase(a, q, g, t);
    CompleteGood(a, q, g, t);
    var b := Complete(a, g, t).s;
    assert Tracks(a.s.prog, a.s.runtimes[g], g, a.s.log);
    SoundAppend(a.s.log, if b.log == a.s.log + [Restarted(g)] then Restarted(g) else Finished(g));
  }

  lemma {:induction false} DispatchWell(a: Pass, q: Grade, g: nat, t: uint32)
    requires Well(a.s, q) && g < |a.s.runtimes| && HasDue(a.s, g, t)
    ensures Well(Dispatch(a, g, t).s, q) && Dispatch(a, g, t).status == a.status
  {
    hide Sound, HistOn, Base, Good, SoundLog, Graded, Sole, Steady, InPlay, Dispatch, Observe, Served;
    DispatchHist(a, g, t);
    DispatchBase(a, q, g, t);
    DispatchGood(a, q, g, t);
    DispatchServes(a, q, g, t);
    var c, b := Consume(a.s, g, t), Dispatch(a, g, t).s;
    SoundAppend(a.s.log, c.log[|a.s.log|]);
    if b.log != c.log {
      var h, n :| b.log == c.log + [Started(h, n)];
      SoundAppend(c.log, Started(h, n));
    }
  }

  lemma {:induction false} ApplyWell(a: Pass, q: Grade, m: Move, t: uint32)
    requires Well(a.s, q) && Enabled(a.s, m, t)
    ensures Well(Apply(a, m, t).s, q) && Apply(a, m, t).status == a.status
  {
    hide Sound, Hist, Base, Fit, Good, SoundLog, Execute, Complete, Dispatch, ResumeWith;
    match m
    case Resuming(i) =>
      var e := a.s.executing[i];
      ResumeWell(a, q, i, t, Execute(a.s.prog.code[e.slot], a.s.mem[e.slot], t, a.s.strip, a.s.period));
    case Completing(g) => CompleteWell(a, q, g, t);
    case Dispatching(g) => DispatchWell(a, q, g, t);
  }

  lemma {:induction false} StepsWell(a: Pass, q: Grade, ms: seq<Move>, t: uint32)
    requires Well(a.s, q) && EnabledAll(a, ms, t)
    ensures Well(ApplyAll(a, ms, t).s, q) && ApplyAll(a, ms, t).status == a.status
    decreases |ms|
  {
    hide Base, Fit, Good, Sound, Hist, SoundLog, Apply, Enabled, Shaped;
    if ms != [] {
      ApplyWell(a, q, ms[0], t);
      StepsWell(Apply(a, ms[0], t), q, ms[1..], t);
    }
  }

  /** A tick reports success and keeps everything. */
  lemma {:induction false} TickWell(s: Ctl, q: Grade, t: uint32)
    requires Well(s, q)
    ensures Well(Run(s, t).s, q) && Run(s, t).status == Success
  {
    hide Sound, HistOn, Core, Flags, Fit, Good, SoundLog, Settle, Arm;
    if s.phase == Active {
      var a := Pass(s.(show := false, timeout := 0), Success, false);
      var ms := SettleIsRun(a.s, Success, t);
      StepsWell(a, q, ms, t);
      RunKeepsAll(s, t);
      ArmReads(Settle(a.s, Success, t).s, t);
    }
  }

  lemma {:induction false} ArmReads(s: Ctl, t: uint32)
    requires Shaped(s)
    ensures Arm(s, t) == s.(timeout := Arm(s, t).timeout)
  {
  }
}
