/** A measure that falls with every progress step of a tick. */
module Termination {
  import opened Clock
  import opened Instructions
  import opened Program
  import opened Scheduler
  import opened Invariant
  import opened Sums

  // ----- The measure -------------------------------------------------------------------

  /** Positive marks of `g` from position `k` on. */
  function PositiveMarks(p: Program, g: nat, k: nat): nat
    requires InRange(p) && g < |p.groups|
    decreases if k < Count(p, g) then Count(p, g) - k else 0
  {
    if k >= Count(p, g) then 0
    else (if Mark(p, g, k) > 0 then 1 else 0) + PositiveMarks(p, g, k + 1)
  }

  function DueWeight(e: Entry, t: uint32): nat {
    if Reached(t, e.deadline) then 1 else 0
  }

  /** A group whose pass began in this tick cannot reach a positive mark in it. */
  function MarkWeight(p: Program, g: nat, r: Runtime, t: uint32): nat
    requires InRange(p) && g < |p.groups|
  {
    if r.active && r.startTime != t then PositiveMarks(p, g, r.cursor) else 0
  }

  function FlagWeight(r: Runtime): nat {
    if r.active && r.boundary then 1 else 0
  }

  ghost function LoadWeight(p: Program, g: nat, r: Runtime): nat
    requires Runnable(p) && g < |p.groups|
  {
    if r.active then Load(p, g, r.cursor) else 0
  }

  function DueWeights(ex: seq<Entry>, t: uint32): (w: seq<nat>)
    ensures |w| == |ex|
  {
    seq(|ex|, i requires 0 <= i < |ex| => DueWeight(ex[i], t))
  }

  function MarkWeights(p: Program, rts: seq<Runtime>, t: uint32): (w: seq<nat>)
    requires InRange(p) && |rts| == |p.groups|
    ensures |w| == |rts|
  {
    seq(|rts|, g requires 0 <= g < |rts| => MarkWeight(p, g, rts[g], t))
  }

  function FlagWeights(rts: seq<Runtime>): (w: seq<nat>)
    ensures |w| == |rts|
  {
    seq(|rts|, g requires 0 <= g < |rts| => FlagWeight(rts[g]))
  }

  ghost function LoadWeights(p: Program, rts: seq<Runtime>): (w: seq<nat>)
    requires Runnable(p) && |rts| == |p.groups|
    ensures |w| == |rts|
  {
    seq(|rts|, g requires 0 <= g < |rts| => LoadWeight(p, g, rts[g]))
  }

  /** Due entries, reachable positive marks, flagged groups and remaining load. */
  datatype Measure = Measure(due: nat, marks: nat, flags: nat, load: nat)

  ghost function MeasureOf(s: Ctl, t: uint32): Measure
    requires Inv(s)
  {
    Measure(Sum(DueWeights(s.executing, t)), Sum(MarkWeights(s.prog, s.runtimes, t)),
            Sum(FlagWeights(s.runtimes)), Sum(LoadWeights(s.prog, s.runtimes)))
  }

  /** Lexicographic descent. */
  predicate Falls(a: Measure, b: Measure) {
    || b.due < a.due
    || (b.due == a.due &&
        (|| b.marks < a.marks
         || (b.marks == a.marks && (b.flags < a.flags || (b.flags == a.flags && b.load < a.load)))))
  }

  // ----- Each step descends --------------------------------------------------------------

  lemma {:induction false} RearmLowersDue(ex: seq<Entry>, i: nat, t: uint32, delay: nat)
    requires i < |ex| && Reached(t, ex[i].deadline) && 0 < delay < HALF_RANGE
    ensures Sum(DueWeights(ex[i := ex[i].(deadline := Plus(t, delay))], t)) < Sum(DueWeights(ex, t))
  {
    PlusIsNotReached(t, delay);
    SumLess(DueWeights(ex[i := ex[i].(deadline := Plus(t, delay))], t), DueWeights(ex, t), i);
  }

  lemma {:induction false} RemovalLowersDue(ex: seq<Entry>, i: nat, t: uint32)
    requires i < |ex| && Reached(t, ex[i].deadline)
    ensures Sum(DueWeights(Without(ex, i), t)) < Sum(DueWeights(ex, t))
  {
    var w := DueWeights(ex, t);
    SumSwapRemove(w, i);
    assert DueWeights(Without(ex, i), t) == w[i := w[|w| - 1]][..|w| - 1];
  }

  /** Running a due entry leaves one due entry less. */
  lemma {:induction false} ResumeFalls(a: Pass, i: nat, t: uint32, x: Effect)
    requires Inv(a.s) && i < |a.s.executing| && Reached(t, a.s.executing[i].deadline) && x.delay < HALF_RANGE
    requires !Stale(a.s, a.s.executing[i]) && Inv(ResumeWith(a, i, t, x).s)
    ensures Falls(MeasureOf(a.s, t), MeasureOf(ResumeWith(a, i, t, x).s, t))
  {
    hide Inv, Observe, Shaped;
    if x.delay != 0 {
      RearmLowersDue(a.s.executing, i, t, x.delay);
    } else {
      RemovalLowersDue(a.s.executing, i, t);
    }
  }

  /** Nothing but `g` may have gained weight, and `g` has not. */
  lemma {:induction false} RestartFalls(s: Ctl, b: Ctl, g: nat, t: uint32)
    requires Inv(s) && Inv(b) && b.prog == s.prog && b.executing == s.executing && g < |s.runtimes|
    requires s.runtimes[g].active && s.runtimes[g].boundary
    requires b.runtimes[g].startTime == t && !b.runtimes[g].boundary && b.runtimes == s.runtimes[g := b.runtimes[g]]
    ensures Falls(MeasureOf(s, t), MeasureOf(b, t))
  {
    SumLe(MarkWeights(s.prog, b.runtimes, t), MarkWeights(s.prog, s.runtimes, t));
    SumLess(FlagWeights(b.runtimes), FlagWeights(s.runtimes), g);
  }

  lemma {:induction false} FinishFalls(s: Ctl, b: Ctl, g: nat, t: uint32)
    requires Inv(s) && Inv(b) && b.prog == s.prog && b.executing == s.executing && g < |s.runtimes|
    requires s.runtimes[g].active && b.runtimes == Released(s.runtimes, g)
    ensures Falls(MeasureOf(s, t), MeasureOf(b, t))
  {
    SumLe(MarkWeights(s.prog, b.runtimes, t), MarkWeights(s.prog, s.runtimes, t));
    SumLe(FlagWeights(b.runtimes), FlagWeights(s.runtimes));
    SumLess(LoadWeights(s.prog, b.runtimes), LoadWeights(s.prog, s.runtimes), g);
  }

  lemma {:induction false} CompleteFalls(a: Pass, g: nat, t: uint32)
    requires Inv(a.s) && g < |a.s.runtimes| && Ready(a.s, g)
    ensures Inv(Complete(a, g, t).s)
    ensures Falls(MeasureOf(a.s, t), MeasureOf(Complete(a, g, t).s, t))
  {
    CompleteKeeps(a, g, t);
    var r, b := a.s.runtimes[g], Complete(a, g, t).s;
    if r.repeats != 0 && r.boundary {
      CanRestart(a.s.prog, a.s.runtimes, a.s.executing, g);
      RestartFalls(a.s, b, g, t);
    } else {
      var c := a.(progressed := true);
      FinishKeeps(if r.repeats != 0 then Fail(c, NoBoundary, InvalidProgram) else c, g);
      FinishFalls(a.s, b, g, t);
    }
  }

  lemma {:induction false} EnlistKeepsDue(a: seq<Entry>, b: seq<Entry>, g: nat, t: uint32)
    requires Enlisted(a, b, g, t)
    ensures Sum(DueWeights(b, t)) == Sum(DueWeights(a, t))
  {
    if b != a {
      var w := DueWeights(b, t);
      assert w[..|a|] == DueWeights(a, t) && w[|a|] == 0;
    }
  }

  lemma {:induction false} PositiveMarksStep(p: Program, g: nat, k: nat)
    requires InRange(p) && g < |p.groups| && k < Count(p, g)
    ensures PositiveMarks(p, g, k) == PositiveMarks(p, g, k + 1) + if Mark(p, g, k) > 0 then 1 else 0
  {
  }

  /** A positive mark is only reached by a group that did not begin its pass in this tick. */
  lemma {:induction false} MoveLowersMarks(p: Program, a: seq<Runtime>, b: seq<Runtime>, g: nat, t: uint32)
    requires InRange(p) && |a| == |p.groups| && g < |a| && a[g].active && a[g].cursor < Count(p, g) && Moved(p, a, b, g, t)
    ensures Sum(MarkWeights(p, b, t)) <= Sum(MarkWeights(p, a, t))
    ensures Mark(p, g, a[g].cursor) > 0 && a[g].startTime != t ==> Sum(MarkWeights(p, b, t)) < Sum(MarkWeights(p, a, t))
  {
    PositiveMarksStep(p, g, a[g].cursor);
    forall i | 0 <= i < |a| ensures MarkWeight(p, i, b[i], t) <= MarkWeight(p, i, a[i], t) {
    }
    SumLe(MarkWeights(p, b, t), MarkWeights(p, a, t));
    if Mark(p, g, a[g].cursor) > 0 && a[g].startTime != t {
      SumLess(MarkWeights(p, b, t), MarkWeights(p, a, t), g);
    }
  }

  lemma {:induction false} MoveKeepsFlags(p: Program, a: seq<Runtime>, b: seq<Runtime>, g: nat, t: uint32)
    requires InRange(p) && |a| == |p.groups| && g < |a| && a[g].cursor < Count(p, g) && Moved(p, a, b, g, t)
    requires Mark(p, g, a[g].cursor) == 0
    ensures Sum(FlagWeights(b)) <= Sum(FlagWeights(a))
  {
    SumLe(FlagWeights(b), FlagWeights(a));
  }

  lemma {:induction false} LoadStep(p: Program, g: nat, k: nat)
    requires Runnable(p) && g < |p.groups| && k < Count(p, g)
    ensures Load(p, g, k + 1) < Load(p, g, k)
    ensures forall h: nat :: Calls(p, g, k, h) ==> h < |p.groups| && Load(p, g, k) == 1 + Load(p, h, 0) + Load(p, g, k + 1)
  {
    assert Ranked(p, Rank(p));
  }

  /** A dispatch trades one instruction for at most the load of the group it launches. */
  lemma {:induction false} MoveLowersLoad(p: Program, a: seq<Runtime>, b: seq<Runtime>, g: nat, t: uint32)
    requires Runnable(p) && |a| == |p.groups| && g < |a| && a[g].active && a[g].cursor < Count(p, g) && Moved(p, a, b, g, t)
    ensures Sum(LoadWeights(p, b)) < Sum(LoadWeights(p, a))
  {
    hide Load;
    var k := a[g].cursor;
    LoadStep(p, g, k);
    var wa, wb := LoadWeights(p, a), LoadWeights(p, b);
    if h :| 0 <= h < |a| && !a[h].active && b[h].active {
      var wc: seq<nat> := wa[g := Load(p, g, k + 1)];
      assert wb == wc[h := Load(p, h, 0)];
      SumUpdate(wa, g, Load(p, g, k + 1));
      SumUpdate(wc, h, Load(p, h, 0));
    } else {
      assert wb == wa[g := Load(p, g, k + 1)];
      SumUpdate(wa, g, Load(p, g, k + 1));
    }
  }

  lemma {:induction false} DispatchFalls(a: Pass, g: nat, t: uint32)
    requires Inv(a.s) && g < |a.s.runtimes| && HasDue(a.s, g, t)
    ensures Inv(Dispatch(a, g, t).s)
    ensures Falls(MeasureOf(a.s, t), MeasureOf(Dispatch(a, g, t).s, t))
  {
    hide Moved, Dispatch, Dispatches, Enlisted;
    DispatchKeeps(a, g, t);
    DispatchMoves(a, g, t);
    var s, b := a.s, Dispatch(a, g, t).s;
    EnlistKeepsDue(s.executing, b.executing, g, t);
    MoveLowersMarks(s.prog, s.runtimes, b.runtimes, g, t);
    if Mark(s.prog, g, s.runtimes[g].cursor) == 0 {
      MoveKeepsFlags(s.prog, s.runtimes, b.runtimes, g, t);
      MoveLowersLoad(s.prog, s.runtimes, b.runtimes, g, t);
    }
  }
}
