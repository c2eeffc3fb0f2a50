/** Which groups of a program can meet a boundary when they run, and what every run keeps
    about them. */
module Grading {
  import opened Clock
  import opened Oklab
  import opened Instructions
  import opened Program
  import opened Scheduler
  import opened Invariant
  import opened Tick

  /** `eff` are the groups whose every pass meets a boundary on a strip of `leds` LEDs, and
      `play` the groups the root leads to. */
  datatype Grade = Grade(leds: nat, eff: set<nat>, play: set<nat>)

  /** An instruction that waits when it is run from its idle state. */
  predicate Delays(c: Code, leds: nat) {
    c.bound && HasPositiveBoundary(c.op) && c.op.index < leds
  }

  /** The `k`-th instruction of `g` brings a boundary: its own mark, its own wait, or a child. */
  predicate Promising(p: Program, q: Grade, g: nat, k: nat)
    requires InRange(p) && g < |p.groups| && k < Count(p, g)
  {
    var i := At(p, g, k);
    p.code[i].mark > 0 || Delays(p.code[i], q.leds) || (p.code[i].op.RunGroup? && Target(p, i) in q.eff)
  }

  predicate SomePromise(p: Program, q: Grade, g: nat, from: nat)
    requires InRange(p) && g < |p.groups|
  {
    exists k :: from <= k < Count(p, g) && Promising(p, q, g, k)
  }

  ghost predicate Graded(p: Program, q: Grade)
    requires InRange(p)
  {
    forall g :: 0 <= g < |p.groups| ==> (g in q.eff <==> SomePromise(p, q, g, 0))
  }

  // ----- What every run keeps --------------------------------------------------------------

  /** The parent of `g` has consumed an instruction that launches it. */
  predicate CalledBy(p: Program, rts: seq<Runtime>, g: nat, parent: nat)
    requires InRange(p) && |rts| == |p.groups|
  {
    parent < |rts| && exists k: nat :: k < rts[parent].cursor && Calls(p, parent, k, g)
  }

  /** An active group was launched by its parent, its unconsumed instructions are idle, and it
      neither waits nor meets a boundary unless it is effective. */
  ghost predicate CoreAt(p: Program, q: Grade, rts: seq<Runtime>, mem: seq<Mem>, g: nat)
    requires InRange(p) && |rts| == |p.groups| && |mem| == |p.code| && g < |rts|
  {
    && (g != 0 ==> CalledBy(p, rts, g, rts[g].parent))
    && (forall k :: rts[g].cursor <= k < Count(p, g) ==> mem[At(p, g, k)] == Idle)
    && (g !in q.eff ==> !rts[g].boundary && rts[g].activeCount == 0)
  }

  ghost predicate Core(p: Program, q: Grade, rts: seq<Runtime>, mem: seq<Mem>)
    requires InRange(p) && |rts| == |p.groups| && |mem| == |p.code|
  {
    forall g :: 0 <= g < |rts| && rts[g].active ==> CoreAt(p, q, rts, mem, g)
  }

  /** A flagged group other than `x` has a flagged parent. */
  predicate FlagsBut(rts: seq<Runtime>, x: nat) {
    forall g :: 0 < g < |rts| && g != x && rts[g].active && rts[g].boundary ==>
      rts[g].parent < |rts| && rts[rts[g].parent].boundary
  }

  predicate Flags(rts: seq<Runtime>) {
    FlagsBut(rts, 0)
  }

  ghost predicate Base(s: Ctl, q: Grade) {
    Shaped(s) && |s.strip| == q.leds && Core(s.prog, q, s.runtimes, s.mem) && Flags(s.runtimes)
  }

  // ----- Observing -------------------------------------------------------------------------

  lemma {:induction false} FlagLinked(p: Program, rts: seq<Runtime>, g: nat)
    requires Runnable(p) && Linked(p, rts) && g < |rts| && rts[g].active
    ensures Linked(p, rts[g := rts[g].(boundary := true)])
  {
    var b := rts[g := rts[g].(boundary := true)];
    forall h | 0 <= h < |b| ensures LinkedAt(p, b, h) {
      assert LinkedAt(p, rts, h);
    }
  }

  /** Observing a boundary flags all ancestors. */
  lemma {:induction false} ObserveCloses(p: Program, rts: seq<Runtime>, g: nat, fuel: nat, x: nat)
    requires Runnable(p) && Linked(p, rts) && g < |rts| && rts[g].active && rts[g].depth < fuel
    requires FlagsBut(rts, x) && (x != 0 ==> x < |rts| && rts[x].parent == g)
    ensures Flags(Observe(rts, g, fuel))
    decreases fuel
  {
    hide Distinct, Ranked, InRange;
    assert LinkedAt(p, rts, g);
    var b := rts[g := rts[g].(boundary := true)];
    FlagLinked(p, rts, g);
    if g == 0 {
      assert Observe(b, MAX_GROUPS, fuel - 1) == b;
    } else {
      ObserveCloses(p, b, rts[g].parent, fuel - 1, g);
    }
  }

  /** The parent of an effective group is effective. */
  lemma {:induction false} ParentIsEffective(p: Program, q: Grade, rts: seq<Runtime>, g: nat)
    requires InRange(p) && |rts| == |p.groups| && Graded(p, q) && g in q.eff
    requires g < |rts| && CalledBy(p, rts, g, rts[g].parent)
    ensures rts[g].parent in q.eff
  {
    var parent := rts[g].parent;
    var k: nat :| k < rts[parent].cursor && Calls(p, parent, k, g);
    assert Promising(p, q, parent, k);
  }

  lemma {:induction false} RootHasNoParent(p: Program, rts: seq<Runtime>)
    requires Runnable(p) && Linked(p, rts)
    ensures |rts| <= MAX_GROUPS && (rts[0].active ==> rts[0].parent == MAX_GROUPS)
  {
    assert LinkedAt(p, rts, 0);
  }

  /** Observing from an effective group flags effective groups only. */
  lemma {:induction false} ObserveEffective(p: Program, q: Grade, rts: seq<Runtime>, g: nat, fuel: nat)
    requires Runnable(p) && Linked(p, rts) && Graded(p, q) && g in q.eff
    requires forall h :: 0 < h < |rts| && rts[h].active ==> CalledBy(p, rts, h, rts[h].parent)
    ensures forall h :: 0 <= h < |rts| && Observe(rts, g, fuel)[h].boundary ==> rts[h].boundary || h in q.eff
    decreases fuel
  {
    hide Distinct, Ranked, InRange, Graded, CalledBy, LinkedAt;
    if fuel != 0 && g < |rts| && rts[g].active {
      var b := rts[g := rts[g].(boundary := true)];
      FlagLinked(p, rts, g);
      RootHasNoParent(p, rts);
      if g != 0 {
        ParentIsEffective(p, q, rts, g);
        forall h | 0 < h < |b| && b[h].active ensures CalledBy(p, b, h, b[h].parent) {
          SameCaller(p, rts, b, h);
        }
        ObserveEffective(p, q, b, rts[g].parent, fuel - 1);
      }
    }
  }

  /** A launch stays consumed while cursors only move forward. */
  lemma {:induction false} SameCaller(p: Program, a: seq<Runtime>, b: seq<Runtime>, g: nat)
    requires InRange(p) && |a| == |b| == |p.groups| && g < |a| && a[g].parent == b[g].parent
    requires CalledBy(p, a, g, a[g].parent) && (a[g].parent < |a| ==> a[a[g].parent].cursor <= b[a[g].parent].cursor)
    ensures CalledBy(p, b, g, b[g].parent)
  {
    var k: nat :| k < a[a[g].parent].cursor && Calls(p, a[g].parent, k, g);
    assert k < b[b[g].parent].cursor;
  }

  /** Observing keeps everything. */
  lemma {:induction false} ObserveBase(s: Ctl, q: Grade, g: nat)
    requires Inv(s) && Base(s, q) && Graded(s.prog, q) && g < |s.runtimes| && s.runtimes[g].active && g in q.eff
    ensures Base(s.(runtimes := Observe(s.runtimes, g, |s.runtimes|)), q)
    ensures Observe(s.runtimes, g, |s.runtimes|)[g].boundary
  {
    hide Observe, CalledBy, LinkedAt, Timed, Counted, Graded, InRange, Distinct, Ranked;
    var p, a := s.prog, s.runtimes;
    DepthIsBelow(p, a, g);
    ObserveCloses(p, a, g, |a|, 0);
    forall h | 0 < h < |a| && a[h].active ensures CalledBy(p, a, h, a[h].parent) {
      CallerOf(s, q, h);
    }
    ObserveEffective(p, q, a, g, |a|);
    ObserveFlags(a, g, |a|);
    FlagCore(p, q, a, Observe(a, g, |a|), s.mem);
  }

  lemma {:induction false} DepthIsBelow(p: Program, rts: seq<Runtime>, g: nat)
    requires Runnable(p) && Linked(p, rts) && g < |rts| && rts[g].active
    ensures rts[g].depth < |rts|
  {
    assert LinkedAt(p, rts, g);
  }

  lemma {:induction false} FlagCore(p: Program, q: Grade, a: seq<Runtime>, b: seq<Runtime>, mem: seq<Mem>)
    requires InRange(p) && |a| == |b| == |p.groups| && |mem| == |p.code| && Core(p, q, a, mem)
    requires forall h :: 0 <= h < |a| ==> b[h] == a[h].(boundary := b[h].boundary) && (b[h].boundary ==> a[h].boundary || h in q.eff)
    ensures Core(p, q, b, mem)
  {
    forall h | 0 <= h < |b| && b[h].active ensures CoreAt(p, q, b, mem, h) {
      assert CoreAt(p, q, a, mem, h);
      if h != 0 { SameCaller(p, a, b, h); }
    }
  }

  // ----- Steps -----------------------------------------------------------------------------

  /** Replay reset makes the instructions of `g` idle and touches no other. */
  lemma {:induction false} ClearIdles(mem: seq<Mem>, p: Program, g: nat, k: nat)
    requires InRange(p) && g < |p.groups| && |mem| == |p.code| && k <= Count(p, g)
    ensures var r := ClearFrom(mem, p, g, k);
      && (forall i :: 0 <= i < |mem| ==> r[i] == mem[i] || r[i] == Idle)
      && (forall j :: k <= j < Count(p, g) ==> r[At(p, g, j)] == Idle)
    decreases Count(p, g) - k
  {
    if k < Count(p, g) {
      ClearIdles(mem[At(p, g, k) := Idle], p, g, k + 1);
    }
  }

  /** The core reads neither counts of effective groups nor repeats nor times. */
  predicate SameTree(q: Grade, a: seq<Runtime>, b: seq<Runtime>) {
    && |a| == |b|
    && forall g :: 0 <= g < |a| ==>
         && b[g].active == a[g].active && b[g].parent == a[g].parent && b[g].cursor == a[g].cursor
         && b[g].boundary == a[g].boundary && (g !in q.eff ==> b[g].activeCount == a[g].activeCount)
  }

  lemma {:induction false} SameTreeBase(s: Ctl, q: Grade, b: seq<Runtime>)
    requires Base(s, q) && SameTree(q, s.runtimes, b)
    ensures Base(s.(runtimes := b), q)
  {
    forall g | 0 <= g < |b| && b[g].active ensures CoreAt(s.prog, q, b, s.mem, g) {
      assert CoreAt(s.prog, q, s.runtimes, s.mem, g);
      if g != 0 { SameCaller(s.prog, s.runtimes, b, g); }
    }
  }

  /** Writing the state of a consumed instruction. */
  lemma {:induction false} MemBase(s: Ctl, q: Grade, i: nat, m: Mem)
    requires Base(s, q) && i < |s.mem|
    requires forall g, k :: 0 <= g < |s.runtimes| && s.runtimes[g].active && s.runtimes[g].cursor <= k < Count(s.prog, g) ==>
      At(s.prog, g, k) != i
    ensures Base(s.(mem := s.mem[i := m]), q)
  {
    forall g | 0 <= g < |s.runtimes| && s.runtimes[g].active ensures CoreAt(s.prog, q, s.runtimes, s.mem[i := m], g) {
      assert CoreAt(s.prog, q, s.runtimes, s.mem, g);
    }
  }

  /** The slot of an executing entry is consumed. */
  lemma {:induction false} EntryIsConsumed(s: Ctl, e: Entry, g: nat, k: nat)
    requires Inv(s) && EntryAt(s.prog, s.runtimes, e) && g < |s.runtimes| && s.runtimes[g].cursor <= k < Count(s.prog, g)
    ensures At(s.prog, g, k) != e.slot
  {
  }

  /** Fields no invariant reads. */
  lemma {:induction false} BaseReads(a: Ctl, b: Ctl, q: Grade)
    requires Base(a, q) && b.prog == a.prog && b.runtimes == a.runtimes && b.mem == a.mem && |b.strip| == |a.strip|
    ensures Base(b, q)
  {
  }

  /** A group with executing entries is effective. */
  lemma {:induction false} OwnerIsEffective(s: Ctl, q: Grade, i: nat)
    requires Inv(s) && Base(s, q) && i < |s.executing|
    ensures s.executing[i].runtime in q.eff
  {
    EntryIsCounted(s, i);
    assert CoreAt(s.prog, q, s.runtimes, s.mem, s.executing[i].runtime);
  }

  lemma {:induction false} ResumeBase(a: Pass, q: Grade, i: nat, t: uint32, x: Effect)
    requires Inv(a.s) && Base(a.s, q) && Graded(a.s.prog, q) && i < |a.s.executing| && !Stale(a.s, a.s.executing[i])
    requires |x.strip| == |a.s.strip|
    ensures Base(ResumeWith(a, i, t, x).s, q)
    ensures ResumeWith(a, i, t, x).s.runtimes[a.s.executing[i].runtime].boundary
  {
    hide Sound, Core, Flags, Observe, Shaped, Graded;
    var s, e := a.s, a.s.executing[i];
    OwnerIsEffective(s, q, i);
    EntryIsCounted(s, i);
    ObserveBase(s, q, e.runtime);
    var seen := s.(runtimes := Observe(s.runtimes, e.runtime, |s.runtimes|));
    ConsumedSlots(s, i);
    MemBase(seen, q, e.slot, x.mem);
    var b := ResumeWith(a, i, t, x).s;
    var written := seen.(mem := s.mem[e.slot := x.mem]);
    SameTreeBase(written, q, b.runtimes);
    BaseReads(written.(runtimes := b.runtimes), b, q);
  }

  lemma {:induction false} ConsumedSlots(s: Ctl, i: nat)
    requires Inv(s) && i < |s.executing|
    ensures s.executing[i].slot < |s.mem|
    ensures forall g, k :: 0 <= g < |s.runtimes| && s.runtimes[g].active && s.runtimes[g].cursor <= k < Count(s.prog, g) ==>
      At(s.prog, g, k) != s.executing[i].slot
  {
    var e := s.executing[i];
    assert EntryAt(s.prog, s.runtimes, e);
    forall g, k | 0 <= g < |s.runtimes| && s.runtimes[g].active && s.runtimes[g].cursor <= k < Count(s.prog, g)
      ensures At(s.prog, g, k) != e.slot
    {
      EntryIsConsumed(s, e, g, k);
    }
  }

  /** A pass of `g` begins under `parent`, which has consumed its launch. */
  lemma {:induction false} BeginBase(s: Ctl, q: Grade, g: nat, r: Runtime)
    requires Inv(s) && Base(s, q) && g < |s.runtimes| && forall h :: 0 <= h < |s.runtimes| ==> !IsChild(s.runtimes[h], g)
    requires r.active && r.cursor == 0 && !r.boundary && r.activeCount == 0
    requires g != 0 ==> r.parent != g && CalledBy(s.prog, s.runtimes, g, r.parent)
    ensures Base(s.(runtimes := s.runtimes[g := r], mem := ClearFrom(s.mem, s.prog, g, 0)), q)
  {
    hide Sound, ClearFrom;
    ClearIdles(s.mem, s.prog, g, 0);
    var p, b, mem := s.prog, s.runtimes[g := r], ClearFrom(s.mem, s.prog, g, 0);
    forall h | 0 <= h < |b| && b[h].active ensures CoreAt(p, q, b, mem, h) {
      if h == g {
        if g != 0 { CallerStays(p, s.runtimes, b, g, r.parent); }
      } else {
        assert CoreAt(p, q, s.runtimes, s.mem, h);
        if h != 0 { CallerStays(p, s.runtimes, b, h, b[h].parent); }
      }
    }
  }

  lemma {:induction false} CallerStays(p: Program, a: seq<Runtime>, b: seq<Runtime>, g: nat, parent: nat)
    requires InRange(p) && |a| == |b| == |p.groups|
    requires CalledBy(p, a, g, parent) && a[parent].cursor <= b[parent].cursor
    ensures CalledBy(p, b, g, parent)
  {
    var k: nat :| k < a[parent].cursor && Calls(p, parent, k, g);
    assert k < b[parent].cursor;
  }

  lemma {:induction false} RestartBase(s: Ctl, q: Grade, g: nat, t: uint32, repeats: uint16)
    requires Inv(s) && Base(s, q) && g < |s.runtimes| && Ready(s, g) && CanStart(s.runtimes, g, s.runtimes[g].parent)
    ensures Base(StartRuntime(s, g, t, repeats, s.runtimes[g].parent), q)
  {
    hide Core, Flags, ClearFrom, Timed, Counted;
    QuietGroup(s.prog, s.runtimes, s.executing, g);
    assert LinkedAt(s.prog, s.runtimes, g);
    CallerOf(s, q, g);
    BeginBase(s, q, g, Fresh(s.runtimes, g, t, repeats, s.runtimes[g].parent));
  }

  lemma {:induction false} CallerOf(s: Ctl, q: Grade, g: nat)
    requires Base(s, q) && g < |s.runtimes| && s.runtimes[g].active
    ensures g != 0 ==> CalledBy(s.prog, s.runtimes, g, s.runtimes[g].parent)
  {
    assert CoreAt(s.prog, q, s.runtimes, s.mem, g);
  }

  lemma {:induction false} ReleaseBase(s: Ctl, q: Grade, g: nat)
    requires Inv(s) && Base(s, q) && g < |s.runtimes| && Ready(s, g)
    ensures Base(s.(runtimes := Released(s.runtimes, g)), q)
  {
    hide Sound;
    QuietGroup(s.prog, s.runtimes, s.executing, g);
    var a, b := s.runtimes, Released(s.runtimes, g);
    forall h | 0 <= h < |b| && b[h].active ensures CoreAt(s.prog, q, b, s.mem, h) {
      assert CoreAt(s.prog, q, a, s.mem, h);
      if h != 0 { CallerStays(s.prog, a, b, h, a[h].parent); }
    }
  }

  lemma {:induction false} CompleteBase(a: Pass, q: Grade, g: nat, t: uint32)
    requires Inv(a.s) && Base(a.s, q) && g < |a.s.runtimes| && Ready(a.s, g)
    ensures Base(Complete(a, g, t).s, q)
  {
    hide Sound, Core, Flags, InRange, ClearFrom;
    var s, r, b := a.s, a.s.runtimes[g], Complete(a, g, t).s;
    if r.repeats != 0 && r.boundary {
      CanRestart(s.prog, s.runtimes, s.executing, g);
      var next := if r.repeats == FOREVER then FOREVER else r.repeats - 1;
      RestartBase(s, q, g, t, next);
      BaseReads(StartRuntime(s, g, t, next, r.parent), b, q);
    } else {
      var c := a.(progressed := true);
      FinishKeeps(if r.repeats != 0 then Fail(c, NoBoundary, InvalidProgram) else c, g);
      ReleaseBase(s, q, g);
      BaseReads(s.(runtimes := Released(s.runtimes, g)), b, q);
    }
  }

  lemma {:induction false} AdvanceBase(s: Ctl, q: Grade, g: nat)
    requires Base(s, q) && g < |s.runtimes|
    ensures Base(s.(runtimes := s.runtimes[g := s.runtimes[g].(cursor := s.runtimes[g].cursor + 1)]), q)
  {
    var a := s.runtimes;
    var b := a[g := a[g].(cursor := a[g].cursor + 1)];
    forall h | 0 <= h < |b| && b[h].active ensures CoreAt(s.prog, q, b, s.mem, h) {
      assert CoreAt(s.prog, q, a, s.mem, h);
      if h != 0 { SameCaller(s.prog, a, b, h); }
    }
  }

  lemma {:induction false} PromiseIsEffective(p: Program, q: Grade, g: nat, k: nat)
    requires InRange(p) && Graded(p, q) && g < |p.groups| && k < Count(p, g) && Promising(p, q, g, k)
    ensures g in q.eff
  {
    assert SomePromise(p, q, g, 0);
  }

  lemma {:induction false} ConsumeBase(s: Ctl, q: Grade, g: nat, t: uint32)
    requires Inv(s) && Base(s, q) && Graded(s.prog, q) && g < |s.runtimes| && HasDue(s, g, t)
    ensures Base(Consume(s, g, t), q)
  {
    hide Sound, Core, Flags, Observe, Graded;
    var k := s.runtimes[g].cursor;
    var seen := s;
    if Mark(s.prog, g, k) > 0 {
      PromiseIsEffective(s.prog, q, g, k);
      ObserveBase(s, q, g);
      seen := s.(runtimes := Observe(s.runtimes, g, |s.runtimes|));
    }
    AdvanceBase(seen, q, g);
    var b := Consume(s, g, t);
    BaseReads(seen.(runtimes := b.runtimes), b, q);
  }

  /** From its idle state an instruction waits exactly when its delay is effective. */
  lemma {:induction false} IdleDelays(c: Code, t: uint32, strip: seq<Rgb>, period: Period)
    ensures Execute(c, Idle, t, strip, period).delay > 0 <==> Delays(c, |strip|)
  {
    hide ToOklab, FromOklab, Interpolate, ScaleRgb, FadeTarget, InterpolateValue;
  }

  lemma {:induction false} RunBase(a: Pass, q: Grade, g: nat, k: nat, t: uint32, x: Effect)
    requires Inv(a.s) && Base(a.s, q) && g < |a.s.runtimes| && k < Count(a.s.prog, g) && a.s.runtimes[g].cursor == k + 1
    requires |x.strip| == |a.s.strip| && (x.delay > 0 ==> g in q.eff)
    ensures Base(RunWith(a, g, At(a.s.prog, g, k), t, x).s, q)
  {
    hide Core, Flags, Linked, Timed, Counted;
    var s, i := a.s, At(a.s.prog, g, k);
    var b := RunWith(a, g, i, t, x).s;
    MemBase(s, q, i, x.mem);
    var written := s.(mem := s.mem[i := x.mem]);
    SameTreeBase(written, q, b.runtimes);
    BaseReads(written.(runtimes := b.runtimes), b, q);
  }

  lemma {:induction false} LaunchBase(s: Ctl, q: Grade, g: nat, k: nat, h: nat, t: uint32, repeats: uint16)
    requires Inv(s) && Base(s, q) && g < |s.runtimes| && 0 < h < |s.runtimes| && g != h && CanLaunch(s, g, h)
    requires k < s.runtimes[g].cursor && Calls(s.prog, g, k, h)
    ensures Base(Launch(s, g, h, t, repeats), q)
  {
    hide Core, Flags, ClearFrom, Sound;
    NoChildOf(s, h);
    var r := Fresh(s.runtimes, h, t, repeats, g);
    BeginBase(s, q, h, r);
    var c := StartRuntime(s, h, t, repeats, g);
    var b := Launch(s, g, h, t, repeats);
    SameTreeBase(c, q, b.runtimes);
    BaseReads(c.(runtimes := b.runtimes), b, q);
  }

  lemma {:induction false} NoChildOf(s: Ctl, h: nat)
    requires Inv(s) && h < |s.runtimes| && !s.runtimes[h].active
    ensures forall i :: 0 <= i < |s.runtimes| ==> !IsChild(s.runtimes[i], h)
  {
    forall i | 0 <= i < |s.runtimes| ensures !IsChild(s.runtimes[i], h) {
      assert LinkedAt(s.prog, s.runtimes, i);
    }
  }

  /** The effect of the due instruction of `g`, as dispatched. */
  function EffectOf(s: Ctl, g: nat, t: uint32): (x: Effect)
    requires Shaped(s) && g < |s.runtimes| && s.runtimes[g].cursor < Count(s.prog, g)
    ensures |x.strip| == |s.strip|
  {
    var i := At(s.prog, g, s.runtimes[g].cursor);
    Execute(s.prog.code[i], s.mem[i], t, s.strip, s.period)
  }

  lemma {:induction false} EffectDelays(s: Ctl, q: Grade, g: nat, t: uint32)
    requires Base(s, q) && g < |s.runtimes| && s.runtimes[g].active && s.runtimes[g].cursor < Count(s.prog, g)
    ensures EffectOf(s, g, t).delay > 0 <==> Delays(s.prog.code[At(s.prog, g, s.runtimes[g].cursor)], q.leds)
  {
    hide Execute;
    assert CoreAt(s.prog, q, s.runtimes, s.mem, g);
    IdleDelays(s.prog.code[At(s.prog, g, s.runtimes[g].cursor)], t, s.strip, s.period);
  }

  lemma {:induction false} CallIsForeign(p: Program, g: nat, k: nat, h: nat)
    requires Runnable(p) && Calls(p, g, k, h)
    ensures 0 < h < |p.groups| && g != h
  {
    assert Ranked(p, Rank(p));
  }

  lemma {:induction false} DispatchBase(a: Pass, q: Grade, g: nat, t: uint32)
    requires Inv(a.s) && Base(a.s, q) && Graded(a.s.prog, q) && g < |a.s.runtimes| && HasDue(a.s, g, t)
    ensures Base(Dispatch(a, g, t).s, q)
  {
    hide Core, Flags, Graded, Sound, Execute, ClearFrom, Observe, RunWith, Runnable;
    var s, p, k := a.s, a.s.prog, a.s.runtimes[g].cursor;
    var i, c := At(p, g, k), Pass(Consume(s, g, t), a.status, true);
    ConsumeKeeps(s, g, t);
    ConsumeBase(s, q, g, t);
    DispatchKeeps(a, g, t);
    if p.code[i].op.RunGroup? {
      var h := Target(p, i);
      assert Calls(p, g, k, h);
      if s.runtimes[h].active {
        BaseReads(c.s, Dispatch(a, g, t).s, q);
      } else {
        RunnableOf(s);
        CallIsForeign(p, g, k, h);
        LaunchBase(c.s, q, g, k, h, t, p.code[i].op.repeats);
      }
    } else {
      EffectDelays(s, q, g, t);
      if EffectOf(s, g, t).delay > 0 { PromiseIsEffective(p, q, g, k); }
      RunBase(c, q, g, k, t, EffectOf(s, g, t));
    }
  }

  lemma {:induction false} RunnableOf(s: Ctl)
    requires Inv(s)
    ensures Runnable(s.prog)
  {
  }

  lemma {:induction false} ApplyBase(a: Pass, q: Grade, m: Move, t: uint32)
    requires Inv(a.s) && Base(a.s, q) && Graded(a.s.prog, q) && Enabled(a.s, m, t)
    ensures Base(Apply(a, m, t).s, q)
  {
    hide Base, Sound, Execute, Complete, Dispatch, ResumeWith, Graded;
    match m
    case Resuming(i) =>
      var e := a.s.executing[i];
      ResumeBase(a, q, i, t, Execute(a.s.prog.code[e.slot], a.s.mem[e.slot], t, a.s.strip, a.s.period));
    case Completing(g) => CompleteBase(a, q, g, t);
    case Dispatching(g) => DispatchBase(a, q, g, t);
  }

  lemma {:induction false} StepsBase(a: Pass, q: Grade, ms: seq<Move>, t: uint32)
    requires Inv(a.s) && Base(a.s, q) && Graded(a.s.prog, q) && EnabledAll(a, ms, t)
    ensures Base(ApplyAll(a, ms, t).s, q)
    decreases |ms|
  {
    hide Base, Sound, Graded, Apply, Enabled, Shaped;
    if ms != [] {
      ApplyKeeps(a, ms[0], t);
      ApplyBase(a, q, ms[0], t);
      StepsBase(Apply(a, ms[0], t), q, ms[1..], t);
    }
  }

  lemma {:induction false} RoundBase(s: Ctl, q: Grade, status: Status, t: uint32)
    requires Inv(s) && Base(s, q) && Graded(s.prog, q)
    ensures Base(Round(s, status, t).s, q)
  {
    hide Base, Sound, Graded, Round;
    var ms := RoundIsRun(s, status, t);
    StepsBase(Pass(s, status, false), q, ms, t);
  }
}
