/** Why repeated groups must be effective: one that is not makes some run fail. */
module Unsteady {
  import opened Clock
  import opened Instructions
  import opened Program
  import opened Scheduler
  import opened Invariant
  import opened Tick
  import opened Wakeup
  import opened History
  import opened Grading
  import opened Faultless
  import opened Wrap

  // ----- Reading the log -------------------------------------------------------------------

  predicate StartedIn(log: seq<Event>, g: nat) {
    exists j :: 0 <= j < |log| && log[j].Started? && log[j].group == g
  }

  predicate RepeatedIn(log: seq<Event>, g: nat) {
    exists j :: 0 <= j < |log| && log[j].Started? && log[j].group == g && log[j].repeats != 0
  }

  predicate DispatchedIn(log: seq<Event>, g: nat, slot: nat) {
    exists j :: 0 <= j < |log| && log[j].Dispatched? && log[j].group == g && log[j].slot == slot
  }

  /** Every instruction of `g` has been dispatched at some time. */
  predicate Swept(p: Program, log: seq<Event>, g: nat)
    requires InRange(p) && g < |p.groups|
  {
    forall k :: 0 <= k < Count(p, g) ==> DispatchedIn(log, g, At(p, g, k))
  }

  /** A dispatched launch was carried out or reported its target as running. */
  ghost predicate Answered(p: Program, log: seq<Event>) {
    forall j :: 0 <= j < |log| && log[j].Dispatched? && log[j].slot < |p.code| && p.code[log[j].slot].op.RunGroup? ==>
      || Started(Target(p, log[j].slot), p.code[log[j].slot].op.repeats) in log
      || Failed(AlreadyRunning) in log
  }

  /** A group that is not effective and was started to repeat is running, or has failed. */
  ghost predicate Doomed(q: Grade, rts: seq<Runtime>, log: seq<Event>) {
    forall h :: 0 <= h < |rts| && h !in q.eff && RepeatedIn(log, h) ==>
      Failed(NoBoundary) in log || (rts[h].active && rts[h].repeats != 0)
  }

  /** A started group is running or has dispatched all its instructions. */
  ghost predicate Worked(p: Program, rts: seq<Runtime>, log: seq<Event>)
    requires InRange(p) && |rts| == |p.groups|
  {
    forall g :: 0 <= g < |rts| && StartedIn(log, g) ==> Swept(p, log, g) || rts[g].active
  }

  ghost predicate Fated(s: Ctl, q: Grade) {
    && Inv(s) && Hist(s) && Base(s, q) && Graded(s.prog, q)
    && Answered(s.prog, s.log) && Doomed(q, s.runtimes, s.log) && Worked(s.prog, s.runtimes, s.log)
  }

  // ----- Growing logs ----------------------------------------------------------------------

  lemma {:induction false} Grows(p: Program, a: seq<Event>, b: seq<Event>, g: nat)
    requires a <= b && InRange(p) && g < |p.groups|
    ensures StartedIn(a, g) ==> StartedIn(b, g)
    ensures RepeatedIn(a, g) ==> RepeatedIn(b, g)
    ensures Swept(p, a, g) ==> Swept(p, b, g)
  {
    if Swept(p, a, g) {
      forall k | 0 <= k < Count(p, g) ensures DispatchedIn(b, g, At(p, g, k)) {
        assert DispatchedIn(a, g, At(p, g, k));
        var j :| 0 <= j < |a| && a[j].Dispatched? && a[j].group == g && a[j].slot == At(p, g, k);
        assert b[j] == a[j];
      }
    }
    if StartedIn(a, g) {
      var j :| 0 <= j < |a| && a[j].Started? && a[j].group == g;
      assert b[j] == a[j];
    }
    if RepeatedIn(a, g) {
      var j :| 0 <= j < |a| && a[j].Started? && a[j].group == g && a[j].repeats != 0;
      assert b[j] == a[j];
    }
  }

  /** An event that starts nothing adds no start. */
  lemma {:induction false} NoStart(a: seq<Event>, e: Event, g: nat)
    requires !(e.Started? && e.group == g)
    ensures StartedIn(a + [e], g) == StartedIn(a, g) && RepeatedIn(a + [e], g) == RepeatedIn(a, g)
  {
    var b := a + [e];
    if j :| 0 <= j < |a| && a[j].Started? && a[j].group == g { assert b[j] == a[j]; }
    if j :| 0 <= j < |a| && a[j].Started? && a[j].group == g && a[j].repeats != 0 { assert b[j] == a[j]; }
  }

  lemma {:induction false} AnsweredOther(p: Program, a: seq<Event>, e: Event)
    requires Answered(p, a) && !e.Dispatched?
    ensures Answered(p, a + [e])
  {
    var b := a + [e];
    forall j | 0 <= j < |b| && b[j].Dispatched? && b[j].slot < |p.code| && p.code[b[j].slot].op.RunGroup?
      ensures Started(Target(p, b[j].slot), p.code[b[j].slot].op.repeats) in b || Failed(AlreadyRunning) in b
    {
      assert b[j] == a[j];
    }
  }

  /** The slots of the current pass were dispatched. */
  lemma {:induction false} PassWasDispatched(log: seq<Event>, g: nat, x: nat)
    requires x in PassLog(log, g)
    ensures DispatchedIn(log, g, x)
  {
    var n := |log| - 1;
    if log[n].Dispatched? && log[n].group == g && log[n].slot == x {
    } else {
      PassWasDispatched(log[..n], g, x);
      var j :| 0 <= j < n && log[..n][j].Dispatched? && log[..n][j].group == g && log[..n][j].slot == x;
      assert log[j] == log[..n][j];
    }
  }

  /** A group that has consumed everything is swept. */
  lemma {:induction false} WholeIsSwept(s: Ctl, g: nat)
    requires Inv(s) && Hist(s) && g < |s.runtimes| && s.runtimes[g].active && s.runtimes[g].cursor >= Count(s.prog, g)
    ensures Swept(s.prog, s.log, g)
  {
    hide Sound, GoodLog;
    assert Tracks(s.prog, s.runtimes[g], g, s.log);
    forall k | 0 <= k < Count(s.prog, g) ensures DispatchedIn(s.log, g, At(s.prog, g, k)) {
      assert PassLog(s.log, g)[k] == At(s.prog, g, k);
      PassWasDispatched(s.log, g, At(s.prog, g, k));
    }
  }

  // ----- Steps -----------------------------------------------------------------------------

  /** What a step does to the passes that had begun: a group not yet swept stays in its pass. */
  ghost predicate SamePass(p: Program, a: Ctl, b: Ctl)
    requires InRange(p) && |a.runtimes| == |b.runtimes| == |p.groups|
  {
    && a.log <= b.log
    && forall g :: 0 <= g < |a.runtimes| && StartedIn(a.log, g) && !Swept(p, b.log, g) ==>
         a.runtimes[g].active && b.runtimes[g].active && b.runtimes[g].startTime == a.runtimes[g].startTime
  }

  /** Passes begin now or were begun before. */
  predicate StartsNow(a: seq<Runtime>, b: seq<Runtime>, t: uint32) {
    |a| == |b| && forall g :: 0 <= g < |b| && b[g].active ==>
      b[g].startTime == t || (a[g].active && b[g].startTime == a[g].startTime)
  }

  ghost predicate DoomedAt(q: Grade, r: Runtime, log: seq<Event>, h: nat) {
    h !in q.eff && RepeatedIn(log, h) ==> Failed(NoBoundary) in log || (r.active && r.repeats != 0)
  }

  /** A step that only touches the pass of `x`. */
  lemma {:induction false} PassStep(q: Grade, a: Ctl, b: Ctl, x: nat, t: uint32)
    requires Shaped(a) && Shaped(b) && b.prog == a.prog && a.log <= b.log
    requires Doomed(q, a.runtimes, a.log) && Worked(a.prog, a.runtimes, a.log)
    requires forall g :: 0 <= g < |a.runtimes| && g != x ==>
      && b.runtimes[g].active == a.runtimes[g].active && b.runtimes[g].repeats == a.runtimes[g].repeats
      && b.runtimes[g].startTime == a.runtimes[g].startTime
      && StartedIn(b.log, g) == StartedIn(a.log, g) && RepeatedIn(b.log, g) == RepeatedIn(a.log, g)
    requires x < |b.runtimes| ==>
      && DoomedAt(q, b.runtimes[x], b.log, x)
      && (b.runtimes[x].active ==> b.runtimes[x].startTime == t)
      && (b.runtimes[x].active || Swept(b.prog, b.log, x))
      && (StartedIn(a.log, x) ==> Swept(b.prog, b.log, x))
    ensures Doomed(q, b.runtimes, b.log) && Worked(b.prog, b.runtimes, b.log)
    ensures SamePass(a.prog, a, b) && StartsNow(a.runtimes, b.runtimes, t)
  {
    hide StartedIn, RepeatedIn, Swept, InRange;
    forall g | 0 <= g < |a.runtimes| ensures Swept(a.prog, a.log, g) ==> Swept(a.prog, b.log, g) {
      Grows(a.prog, a.log, b.log, g);
    }
    assert Failed(NoBoundary) in a.log ==> Failed(NoBoundary) in b.log;
  }

  /** What a step of a doomed program keeps and does. */
  ghost predicate Steps(a: Ctl, b: Ctl, q: Grade, t: uint32)
    requires Shaped(a)
  {
    Fated(b, q) && b.prog == a.prog && SamePass(a.prog, a, b) && StartsNow(a.runtimes, b.runtimes, t)
  }

  lemma {:induction false} ResumeFated(a: Pass, q: Grade, i: nat, t: uint32, x: Effect)
    requires Fated(a.s, q) && i < |a.s.executing| && !Stale(a.s, a.s.executing[i]) && |x.strip| == |a.s.strip|
    ensures Steps(a.s, ResumeWith(a, i, t, x).s, q, t)
  {
    hide Sound, HistOn, Base, Graded, Answered, Doomed, Worked, SamePass, StartsNow, Observe, StartedIn, RepeatedIn;
    ResumeKeeps(a, i, t, x);
    ResumeHist(a, i, t, x);
    ResumeBase(a, q, i, t, x);
    var e, b := Resumed(a.s.executing[i].runtime, a.s.executing[i].slot), ResumeWith(a, i, t, x).s;
    AnsweredOther(a.s.prog, a.s.log, e);
    forall g: nat ensures StartedIn(b.log, g) == StartedIn(a.s.log, g) && RepeatedIn(b.log, g) == RepeatedIn(a.s.log, g) {
      NoStart(a.s.log, e, g);
    }
    PassStep(q, a.s, b, |b.runtimes|, t);
  }

  /** The runtimes after a completion of `g`. */
  lemma {:induction false} CompleteRuntimes(a: Pass, g: nat, t: uint32)
    requires Inv(a.s) && g < |a.s.runtimes| && Ready(a.s, g)
    ensures var r, b := a.s.runtimes, Complete(a, g, t).s.runtimes;
      && (forall h :: 0 <= h < |r| && h != g ==>
            b[h].active == r[h].active && b[h].repeats == r[h].repeats && b[h].startTime == r[h].startTime)
      && (if r[g].repeats != 0 && r[g].boundary then b[g].active && b[g].startTime == t else b[g] == RESET)
  {
    hide Sound, ClearFrom;
    var r := a.s.runtimes[g];
    if r.repeats != 0 && r.boundary {
      CanRestart(a.s.prog, a.s.runtimes, a.s.executing, g);
    } else {
      if g != 0 { ParentCounts(a.s.prog, a.s.runtimes, a.s.executing, g); }
    }
  }

  lemma {:induction false} CompleteFated(a: Pass, q: Grade, g: nat, t: uint32)
    requires Fated(a.s, q) && g < |a.s.runtimes| && Ready(a.s, g)
    ensures Steps(a.s, Complete(a, g, t).s, q, t)
  {
    hide Sound, HistOn, Base, Graded, Answered, Worked, SamePass, StartsNow, Complete, StartedIn, RepeatedIn, Swept;
    CompleteKeeps(a, g, t);
    CompleteHist(a, g, t);
    CompleteBase(a, q, g, t);
    CompleteRuntimes(a, g, t);
    WholeIsSwept(a.s, g);
    var s, b, r := a.s, Complete(a, g, t).s, a.s.runtimes[g];
    UnflaggedUnless(s, q, g);
    Grows(s.prog, s.log, b.log, g);
    var last := b.log[|b.log| - 1];
    var mid := if |b.log| == |s.log| + 1 then s.log else s.log + [Failed(NoBoundary)];
    if mid != s.log { AnsweredOther(s.prog, s.log, Failed(NoBoundary)); }
    AnsweredOther(s.prog, mid, last);
    forall h: nat ensures StartedIn(b.log, h) == StartedIn(s.log, h) && RepeatedIn(b.log, h) == RepeatedIn(s.log, h) {
      NoStart(s.log, Failed(NoBoundary), h);
      NoStart(mid, last, h);
    }
    PassStep(q, s, b, g, t);
  }

  lemma {:induction false} UnflaggedUnless(s: Ctl, q: Grade, g: nat)
    requires Base(s, q) && g < |s.runtimes| && s.runtimes[g].active
    ensures g !in q.eff ==> !s.runtimes[g].boundary && s.runtimes[g].activeCount == 0
  {
    assert CoreAt(s.prog, q, s.runtimes, s.mem, g);
  }

  lemma {:induction false} AnsweredPlain(p: Program, a: seq<Event>, d: Event)
    requires Answered(p, a) && d.Dispatched? && d.slot < |p.code| && !p.code[d.slot].op.RunGroup?
    ensures Answered(p, a + [d])
  {
    var b := a + [d];
    forall j | 0 <= j < |b| && b[j].Dispatched? && b[j].slot < |p.code| && p.code[b[j].slot].op.RunGroup?
      ensures Started(Target(p, b[j].slot), p.code[b[j].slot].op.repeats) in b || Failed(AlreadyRunning) in b
    {
      assert b[j] == a[j];
    }
  }

  lemma {:induction false} AnsweredLaunch(p: Program, a: seq<Event>, d: Event, e: Event)
    requires Answered(p, a) && d.Dispatched? && d.slot < |p.code| && p.code[d.slot].op.RunGroup?
    requires e == Started(Target(p, d.slot), p.code[d.slot].op.repeats) || e == Failed(AlreadyRunning)
    ensures Answered(p, a + [d] + [e])
  {
    var b := a + [d] + [e];
    assert b[|a| + 1] == e;
    forall j | 0 <= j < |b| && b[j].Dispatched? && b[j].slot < |p.code| && p.code[b[j].slot].op.RunGroup?
      ensures Started(Target(p, b[j].slot), p.code[b[j].slot].op.repeats) in b || Failed(AlreadyRunning) in b
    {
      if j < |a| { assert b[j] == a[j]; }
    }
  }

  /** A dispatch leaves the passes of all groups but a launched one as they were. */
  lemma {:induction false} DispatchRuntimes(a: Pass, g: nat, t: uint32, x: nat)
    requires Inv(a.s) && g < |a.s.runtimes| && HasDue(a.s, g, t)
    requires x < |a.s.runtimes| ==> !a.s.runtimes[x].active && Calls(a.s.prog, g, a.s.runtimes[g].cursor, x)
    requires x >= |a.s.runtimes| ==> !StopsPick(a.s, g)
    ensures var r, b := a.s.runtimes, Dispatch(a, g, t).s.runtimes;
      forall h :: 0 <= h < |r| && h != x ==>
        b[h].active == r[h].active && b[h].repeats == r[h].repeats && b[h].startTime == r[h].startTime
  {
    hide Dispatch, Dispatches, Enlisted, Timed, Counted;
    DispatchKeeps(a, g, t);
    DispatchMoves(a, g, t);
    var s, b := a.s, Dispatch(a, g, t).s;
    forall h | 0 <= h < |b.runtimes| && h != x && !s.runtimes[h].active ensures !b.runtimes[h].active {
      assert Ranked(s.prog, Rank(s.prog));
    }
    forall h | 0 <= h < |b.runtimes|
      ensures (!s.runtimes[h].active ==> s.runtimes[h] == RESET) && (!b.runtimes[h].active ==> b.runtimes[h] == RESET)
    {
      LinkedBounds(s.prog, s.runtimes, h);
      LinkedBounds(s.prog, b.runtimes, h);
    }
  }

  lemma {:induction false} LaunchFated(a: Pass, q: Grade, g: nat, h: nat, t: uint32)
    requires Fated(a.s, q) && g < |a.s.runtimes| && HasDue(a.s, g, t)
    requires Calls(a.s.prog, g, a.s.runtimes[g].cursor, h) && h < |a.s.runtimes| && !a.s.runtimes[h].active
    ensures var b := Dispatch(a, g, t).s;
      && Doomed(q, b.runtimes, b.log) && Worked(b.prog, b.runtimes, b.log) && Answered(b.prog, b.log)
      && SamePass(a.s.prog, a.s, b) && StartsNow(a.s.runtimes, b.runtimes, t)
  {
    hide Sound, Hist, Base, Graded, Answered, Dispatch, SamePass, StartsNow, Observe, Swept, Enlisted, ClearFrom, InRange;
    DispatchKeeps(a, g, t);
    DispatchMoves(a, g, t);
    DispatchRuntimes(a, g, t, h);
    var s, b := a.s, Dispatch(a, g, t).s;
    var i := At(s.prog, g, s.runtimes[g].cursor);
    var d := Dispatched(g, i, Since(t, s.runtimes[g].startTime));
    var e := Started(h, s.prog.code[i].op.repeats);
    assert b.log == s.log + [d] + [e];
    AnsweredLaunch(s.prog, s.log, d, e);
    forall f: nat | f != h ensures StartedIn(b.log, f) == StartedIn(s.log, f) && RepeatedIn(b.log, f) == RepeatedIn(s.log, f) {
      NoStart(s.log, d, f);
      NoStart(s.log + [d], e, f);
    }
    Grows(s.prog, s.log, b.log, h);
    StartsActive(Consume(s, g, t), g, h, t, e.repeats);
    if e.repeats == 0 {
      NoRepeat(s.log, d, h);
      NoRepeat(s.log + [d], e, h);
    }
    PassStep(q, s, b, h, t);
  }

  lemma {:induction false} NoRepeat(a: seq<Event>, e: Event, g: nat)
    requires !e.Started? || e.repeats == 0
    ensures RepeatedIn(a + [e], g) ==> RepeatedIn(a, g)
  {
    var b := a + [e];
    if j :| 0 <= j < |b| && b[j].Started? && b[j].group == g && b[j].repeats != 0 { assert b[j] == a[j]; }
  }

  lemma {:induction false} StartsActive(s: Ctl, g: nat, h: nat, t: uint32, repeats: uint16)
    requires Shaped(s) && g < |s.runtimes| && h < |s.runtimes| && CanLaunch(s, g, h) && g != h
    ensures var r := Launch(s, g, h, t, repeats).runtimes[h]; r.active && r.startTime == t && r.repeats == repeats
  {
    hide ClearFrom;
  }

  lemma {:induction false} DispatchFated(a: Pass, q: Grade, g: nat, t: uint32)
    requires Fated(a.s, q) && g < |a.s.runtimes| && HasDue(a.s, g, t)
    ensures Steps(a.s, Dispatch(a, g, t).s, q, t)
  {
    hide Sound, HistOn, Base, Graded, Answered, Doomed, Worked, SamePass, StartsNow, Dispatch, Observe, StartedIn, RepeatedIn, InRange;
    DispatchHist(a, g, t);
    DispatchBase(a, q, g, t);
    DispatchKeeps(a, g, t);
    var s, p, b := a.s, a.s.prog, Dispatch(a, g, t).s;
    var i := At(p, g, s.runtimes[g].cursor);
    var d := Dispatched(g, i, Since(t, s.runtimes[g].startTime));
    if p.code[i].op.RunGroup? && !s.runtimes[Target(p, i)].active {
      LaunchFated(a, q, g, Target(p, i), t);
    } else {
      DispatchRuntimes(a, g, t, |s.runtimes|);
      if p.code[i].op.RunGroup? {
        AnsweredLaunch(p, s.log, d, Failed(AlreadyRunning));
      } else {
        AnsweredPlain(p, s.log, d);
      }
      forall f: nat ensures StartedIn(b.log, f) == StartedIn(s.log, f) && RepeatedIn(b.log, f) == RepeatedIn(s.log, f) {
        NoStart(s.log, d, f);
        NoStart(s.log + [d], Failed(AlreadyRunning), f);
      }
      PassStep(q, s, b, |b.runtimes|, t);
    }
  }

  lemma {:induction false} ApplyFated(a: Pass, q: Grade, m: Move, t: uint32)
    requires Fated(a.s, q) && Enabled(a.s, m, t)
    ensures Steps(a.s, Apply(a, m, t).s, q, t)
  {
    hide Steps, Sound, Hist, Base, Graded, Answered, Doomed, Worked, Execute, Complete, Dispatch, ResumeWith;
    match m
    case Resuming(i) =>
      var e := a.s.executing[i];
      ResumeFated(a, q, i, t, Execute(a.s.prog.code[e.slot], a.s.mem[e.slot], t, a.s.strip, a.s.period));
    case Completing(g) => CompleteFated(a, q, g, t);
    case Dispatching(g) => DispatchFated(a, q, g, t);
  }

  lemma {:induction false} StepsJoin(a: Ctl, b: Ctl, c: Ctl, q: Grade, t: uint32)
    requires Shaped(a) && Steps(a, b, q, t) && Steps(b, c, q, t)
    ensures Steps(a, c, q, t)
  {
    hide Fated, Inv, Swept, StartedIn, InRange;
    forall g | 0 <= g < |a.runtimes| ensures StartedIn(a.log, g) ==> StartedIn(b.log, g) {
      Grows(a.prog, a.log, b.log, g);
    }
    forall g | 0 <= g < |a.runtimes| ensures Swept(a.prog, b.log, g) ==> Swept(a.prog, c.log, g) {
      Grows(a.prog, b.log, c.log, g);
    }
  }

  lemma {:induction false} NoSteps(a: Ctl, q: Grade, t: uint32)
    requires Fated(a, q)
    ensures Steps(a, a, q, t)
  {
  }

  lemma {:induction false} RunFated(a: Pass, q: Grade, ms: seq<Move>, t: uint32)
    requires Fated(a.s, q) && EnabledAll(a, ms, t)
    ensures Steps(a.s, ApplyAll(a, ms, t).s, q, t)
    decreases |ms|
  {
    hide Apply, Enabled, Sound, Hist, Base, Graded, Answered, Doomed, Worked, SamePass, StartsNow, Shaped;
    if ms == [] {
      NoSteps(a.s, q, t);
    } else {
      ApplyFated(a, q, ms[0], t);
      var b := Apply(a, ms[0], t);
      RunFated(b, q, ms[1..], t);
      StepsJoin(a.s, b.s, ApplyAll(b, ms[1..], t).s, q, t);
    }
  }

  // ----- Ticks -----------------------------------------------------------------------------

  /** The deepest of the active groups that are not effective. */
  lemma {:induction false} DeepestIdle(q: Grade, rts: seq<Runtime>, k: nat) returns (g: nat)
    requires k <= |rts| && exists i :: 0 <= i < k && rts[i].active && i !in q.eff
    ensures g < k && rts[g].active && g !in q.eff
    ensures forall i :: 0 <= i < k && rts[i].active && i !in q.eff ==> rts[i].depth <= rts[g].depth
  {
    if exists i :: 0 <= i < k - 1 && rts[i].active && i !in q.eff {
      g := DeepestIdle(q, rts, k - 1);
      if rts[k - 1].active && k - 1 !in q.eff && rts[k - 1].depth > rts[g].depth { g := k - 1; }
    } else {
      g := k - 1;
    }
  }

  /** A group that is not effective and has no such child is ready as soon as nothing is due. */
  lemma {:induction false} IdleIsReady(s: Ctl, q: Grade, g: nat, t: uint32)
    requires Inv(s) && Base(s, q) && Graded(s.prog, q) && g < |s.runtimes| && s.runtimes[g].active && g !in q.eff
    requires !HasDue(s, g, t) && forall h :: 0 <= h < |s.runtimes| ==> !IsChild(s.runtimes[h], g)
    ensures Ready(s, g)
  {
    UnflaggedUnless(s, q, g);
    NoChildren(s.runtimes, g, |s.runtimes|);
    forall k | 0 <= k < Count(s.prog, g) ensures Mark(s.prog, g, k) == 0 {
      assert !Promising(s.prog, q, g, k);
    }
  }

  /** When nothing is due and nothing ready, only effective groups are active. */
  lemma {:induction false} OnlyEffectiveWait(s: Ctl, q: Grade, t: uint32)
    requires Inv(s) && Base(s, q) && Graded(s.prog, q) && Quiescent(s, t)
    ensures forall g :: 0 <= g < |s.runtimes| && s.runtimes[g].active ==> g in q.eff
  {
    hide Graded, Core, Ready, HasDue;
    var rts := s.runtimes;
    if exists i :: 0 <= i < |rts| && rts[i].active && i !in q.eff {
      var g := DeepestIdle(q, rts, |rts|);
      forall h | 0 <= h < |rts| ensures !IsChild(rts[h], g) {
        DeepestHasNoChild(s, q, g, h);
      }
      IdleIsReady(s, q, g, t);
    }
  }

  lemma {:induction false} DeepestHasNoChild(s: Ctl, q: Grade, g: nat, h: nat)
    requires Inv(s) && Base(s, q) && Graded(s.prog, q) && g < |s.runtimes| && h < |s.runtimes| && g !in q.eff
    requires forall i :: 0 <= i < |s.runtimes| && s.runtimes[i].active && i !in q.eff ==> s.runtimes[i].depth <= s.runtimes[g].depth
    ensures !IsChild(s.runtimes[h], g)
  {
    assert LinkedAt(s.prog, s.runtimes, h);
    if h in q.eff && s.runtimes[h].active && h != 0 {
      CallerOf(s, q, h);
      ParentIsEffective(s.prog, q, s.runtimes, h);
    }
    RootIsOrphan(s);
  }

  lemma {:induction false} FatedReads(a: Ctl, q: Grade, show: bool, timeout: uint32)
    requires Fated(a, q)
    ensures Fated(a.(show := show, timeout := timeout), q)
  {
    hide Sound, HistOn, Core, Flags, Graded, Answered, Doomed, Worked;
  }

  lemma {:induction false} TickFated(s: Ctl, q: Grade, t: uint32)
    requires Fated(s, q) && s.phase == Active
    ensures Steps(s, Run(s, t).s, q, t) && Quiescent(Run(s, t).s, t)
  {
    hide Sound, HistOn, Base, Graded, Answered, Doomed, Worked, Settle, Arm, StartedIn, Swept;
    var a := Pass(s.(show := false, timeout := 0), Success, false);
    FatedReads(s, q, false, 0);
    var ms := SettleIsRun(a.s, Success, t);
    RunFated(a, q, ms, t);
    var r := Settle(a.s, Success, t).s;
    ArmReads(r, t);
    FatedReads(r, q, r.show, Arm(r, t).timeout);
    RunKeepsAll(s, t);
  }

  /** A group whose marks have all come is swept by a tick. */
  lemma {:induction false} TickSweeps(s: Ctl, q: Grade, t: uint32, g: nat)
    requires Fated(s, q) && g < |s.runtimes| && StartedIn(s.log, g)
    requires s.runtimes[g].active ==> Since(t, s.runtimes[g].startTime) >= 0xFFFF
    ensures Run(s, t).s.prog == s.prog && Swept(s.prog, Run(s, t).s.log, g)
  {
    hide Sound, HistOn, Base, Graded, Answered, Doomed, Run, Swept, StartedIn, StartsNow;
    if s.phase != Active {
      InactiveIsClean(s);
      NotActiveStays(s, t);
    } else {
      TickFated(s, q, t);
      var b := Run(s, t).s;
      if b.runtimes[g].active && b.runtimes[g].cursor >= Count(b.prog, g) {
        WholeIsSwept(b, g);
      } else {
        assert !HasDue(b, g, t);
      }
    }
  }

  /** After a tick a group that was started to repeat and is not effective has failed. */
  lemma {:induction false} TickFails(s: Ctl, q: Grade, t: uint32, h: nat)
    requires Fated(s, q) && h < |s.runtimes| && h !in q.eff && RepeatedIn(Run(s, t).s.log, h)
    ensures Failed(NoBoundary) in Run(s, t).s.log
  {
    hide Sound, HistOn, Base, Graded, Answered, Worked, Run, SamePass, StartsNow, RepeatedIn;
    if s.phase != Active {
      InactiveIsClean(s);
      NotActiveStays(s, t);
    } else {
      TickFated(s, q, t);
      OnlyEffectiveWait(Run(s, t).s, q, t);
    }
  }

  // ----- A failing run ---------------------------------------------------------------------

  /** Ticks so far apart that every mark of a pass begun by the previous one has come. */
  function Late(t: uint32, m: nat): uint32 {
    Plus(t, 0xFFFF * m)
  }

  lemma {:induction false} LateElapsed(t: uint32, m: nat, n: nat)
    requires m < n <= 40
    ensures Since(Late(t, n), Late(t, m)) >= 0xFFFF
  {
    var d := 0xFFFF * (n - m);
    assert 0xFFFF * n == 0xFFFF * m + d;
    PlusPlus(t, 0xFFFF * m, d);
    ElapsedGrows(Late(t, m), Late(t, m), d);
  }

  lemma {:induction false} PlusPlus(t: uint32, a: nat, b: nat)
    ensures Plus(t, a + b) == Plus(Plus(t, a), b)
  {
  }

  /** Every pass began at one of the ticks up to the `m`-th. */
  ghost predicate BegunBy(rts: seq<Runtime>, t: uint32, m: nat) {
    forall g :: 0 <= g < |rts| && rts[g].active ==> exists n: nat :: n <= m && rts[g].startTime == Late(t, n)
  }

  lemma {:induction false} BegunNext(a: seq<Runtime>, b: seq<Runtime>, t: uint32, m: nat)
    requires BegunBy(a, t, m) && StartsNow(a, b, Late(t, m + 1))
    ensures BegunBy(b, t, m + 1)
  {
    hide Late;
    forall g | 0 <= g < |b| && b[g].active ensures exists n: nat :: n <= m + 1 && b[g].startTime == Late(t, n) {
      if b[g].startTime == Late(t, m + 1) {
      } else {
        var n: nat :| n <= m && a[g].startTime == Late(t, n);
        assert b[g].startTime == Late(t, n);
      }
    }
  }

  lemma {:induction false} BegunAgo(rts: seq<Runtime>, t: uint32, m: nat, g: nat)
    requires BegunBy(rts, t, m) && m < 40 && g < |rts| && rts[g].active
    ensures Since(Late(t, m + 1), rts[g].startTime) >= 0xFFFF
  {
    var n: nat :| n <= m && rts[g].startTime == Late(t, n);
    LateElapsed(t, n, m + 1);
  }

  lemma {:induction false} SweptLaunch(p: Program, log: seq<Event>, g: nat, k: nat, h: nat)
    requires InRange(p) && Calls(p, g, k, h) && Swept(p, log, g) && Answered(p, log)
    ensures Failed(AlreadyRunning) in log || StartedIn(log, h)
    ensures p.code[At(p, g, k)].op.repeats != 0 ==> Failed(AlreadyRunning) in log || RepeatedIn(log, h)
  {
    var i := At(p, g, k);
    assert DispatchedIn(log, g, i);
    var j :| 0 <= j < |log| && log[j].Dispatched? && log[j].group == g && log[j].slot == i;
    assert Started(h, p.code[i].op.repeats) in log || Failed(AlreadyRunning) in log;
  }

  /** The next late tick: everything started so far is swept and its launches are answered. */
  lemma {:induction false} LateTick(s: Ctl, q: Grade, t: uint32, m: nat, g: nat, k: nat, h: nat)
    requires Fated(s, q) && BegunBy(s.runtimes, t, m) && m < 40 && g < |s.runtimes| && StartedIn(s.log, g) && Calls(s.prog, g, k, h)
    ensures var b := Run(s, Late(t, m + 1)).s;
      && Fated(b, q) && b.prog == s.prog && BegunBy(b.runtimes, t, m + 1)
      && (Failed(AlreadyRunning) in b.log || StartedIn(b.log, h))
      && (s.prog.code[At(s.prog, g, k)].op.repeats != 0 ==> Failed(AlreadyRunning) in b.log || RepeatedIn(b.log, h))
  {
    hide Sound, HistOn, Base, Graded, Answered, Doomed, Worked, Run, Late, Swept, StartedIn, RepeatedIn, BegunBy, SamePass;
    var u := Late(t, m + 1);
    if s.runtimes[g].active { BegunAgo(s.runtimes, t, m, g); }
    TickSweeps(s, q, u, g);
    if s.phase == Active {
      TickFated(s, q, u);
      BegunNext(s.runtimes, Run(s, u).s.runtimes, t, m);
    } else {
      NotActiveStays(s, u);
      InactiveIsClean(s);
      NoneBegun(s.runtimes, t, m + 1);
    }
    SweptLaunch(s.prog, Run(s, u).s.log, g, k, h);
  }

  lemma {:induction false} NoneBegun(rts: seq<Runtime>, t: uint32, m: nat)
    requires forall g :: 0 <= g < |rts| ==> !rts[g].active
    ensures BegunBy(rts, t, m)
  {
  }

  /** A chain of launches. */
  predicate Chain(p: Program, nodes: seq<nat>)
    requires InRange(p)
  {
    |nodes| > 0 && forall j :: 0 <= j < |nodes| - 1 ==> CallsGroup(p, nodes[j], nodes[j + 1])
  }

  predicate CallsGroup(p: Program, g: nat, h: nat)
    requires InRange(p)
  {
    g < |p.groups| && exists k :: 0 <= k < Count(p, g) && Calls(p, g, k, h)
  }

  lemma {:induction false} ChainTail(p: Program, nodes: seq<nat>)
    requires InRange(p) && Chain(p, nodes) && |nodes| > 1
    ensures Chain(p, nodes[1..])
  {
    var rest := nodes[1..];
    forall j | 0 <= j < |rest| - 1 ensures CallsGroup(p, rest[j], rest[j + 1]) {
      assert CallsGroup(p, nodes[j + 1], nodes[j + 1 + 1]);
    }
  }

  /** From a started group, late ticks along a chain of launches end in a fault when the last
      group of the chain launches a repeat that is not effective. */
  lemma {:induction false} ChainFails(s: Ctl, q: Grade, t: uint32, m: nat, nodes: seq<nat>, k: nat, h: nat) returns (ts: seq<uint32>)
    requires Fated(s, q) && BegunBy(s.runtimes, t, m) && Chain(s.prog, nodes) && nodes[0] < |s.runtimes| && StartedIn(s.log, nodes[0])
    requires m + Rank(s.prog)[nodes[0]] < 40
    requires Calls(s.prog, nodes[|nodes| - 1], k, h) && h !in q.eff && s.prog.code[At(s.prog, nodes[|nodes| - 1], k)].op.repeats != 0
    ensures ts != [] && exists f :: Failed(f) in Runs(s, ts)[|ts| - 1].s.log
    decreases |nodes|
  {
    hide Fated, Run, Late, StartedIn, RepeatedIn, BegunBy;
    var g, u := nodes[0], Late(t, m + 1);
    RunnableFated(s, q);
    if |nodes| == 1 {
      ts := [u];
      LateTick(s, q, t, m, g, k, h);
      CallIsForeign(s.prog, g, k, h);
      if Failed(AlreadyRunning) !in Run(s, u).s.log { TickFails(s, q, u, h); }
      OneRun(s, u);
    } else {
      assert CallsGroup(s.prog, nodes[0], nodes[1]);
      var j :| 0 <= j < Count(s.prog, g) && Calls(s.prog, g, j, nodes[1]);
      LateTick(s, q, t, m, g, j, nodes[1]);
      var b := Run(s, u).s;
      OneRun(s, u);
      if Failed(AlreadyRunning) in b.log {
        ts := [u];
      } else {
        RunnableFated(b, q);
        RankFalls(s.prog, g, j, nodes[1]);
        ChainTail(s.prog, nodes);
        var rest := ChainFails(b, q, t, m + 1, nodes[1..], k, h);
        ts := [u] + rest;
        MoreRuns(s, u, rest);
      }
    }
  }

  lemma {:induction false} RunnableFated(s: Ctl, q: Grade)
    requires Fated(s, q)
    ensures Inv(s) && Runnable(s.prog) && |s.runtimes| == |s.prog.groups|
  {
  }

  lemma {:induction false} RankFalls(p: Program, g: nat, k: nat, h: nat)
    requires Runnable(p) && Calls(p, g, k, h)
    ensures h < |p.groups| && Rank(p)[h] < Rank(p)[g]
  {
    assert Ranked(p, Rank(p));
  }

  lemma {:induction false} OneRun(s: Ctl, u: uint32)
    requires Inv(s)
    ensures Runs(s, [u]) == [Run(s, u)]
  {
    hide Run;
    assert [u][1..] == [];
    if s.phase == Active { RunKeepsAll(s, u); } else { NotActiveStays(s, u); }
  }

  lemma {:induction false} MoreRuns(s: Ctl, u: uint32, rest: seq<uint32>)
    requires Inv(s) && Inv(Run(s, u).s)
    ensures Runs(s, [u] + rest) == [Run(s, u)] + Runs(Run(s, u).s, rest)
  {
    hide Run;
    assert ([u] + rest)[1..] == rest;
  }
}
