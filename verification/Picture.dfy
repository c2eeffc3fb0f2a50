/** The strip and the timed work of a run, drawn from its log, its instructions and its tick
    times alone. */
module Picture {
  import opened Clock
  import opened Oklab
  import opened Instructions
  import opened Program
  import opened Scheduler
  import opened Invariant
  import opened Tick
  import opened Launching
  import opened Wrap
  import opened Grading
  import opened Timed
  import opened Painting
  import opened TimedRuns
  import opened FaultFree
  import Faultless

  // ----- Drawing ---------------------------------------------------------------------------

  /** A timed instruction that began at `start` on an LED of colour `color`, and updates at `due`. */
  datatype Hold = Hold(start: uint32, color: Rgb, due: uint32)

  /** The strip, and the timed instructions under way by slot. */
  datatype Canvas = Canvas(strip: seq<Rgb>, holds: map<nat, Hold>)

  /** LEDs `start` to `end` in one colour. */
  function Coloured(strip: seq<Rgb>, color: Rgb, start: nat, end: nat): (r: seq<Rgb>)
    ensures |r| == |strip|
  {
    seq(|strip|, i requires 0 <= i < |strip| => if start <= i < end then color else strip[i])
  }

  /** Instruction `c` in `slot` is dispatched at `t`. */
  function Begin(cv: Canvas, c: Code, slot: nat, t: uint32, period: Period): Canvas {
    if !c.bound then cv
    else
      match c.op
      case SetMultiple(color, start, end) => cv.(strip := Coloured(cv.strip, color, start, end))
      case SetSingle(color, index) => cv.(strip := Coloured(cv.strip, color, index, index + 1))
      case RunGroup(_, _) => cv
      case _ =>
        if c.op.index >= |cv.strip| then cv
        else if c.op.duration == 0 then
          cv.(strip := cv.strip[c.op.index := Sample(c.op, cv.strip[c.op.index], 0)])
        else cv.(holds := cv.holds[slot := Hold(t, cv.strip[c.op.index], Plus(t, Pause(c.op, period, t, 0)))])
  }

  /** Timed instruction `c` in `slot` is resumed at `t`: it shows the sample of what it captured,
      and is over once its duration has passed. */
  function Update(cv: Canvas, c: Code, slot: nat, t: uint32, period: Period): Canvas {
    if slot !in cv.holds || !IsTimed(c) || c.op.index >= |cv.strip| then cv
    else
      var h := cv.holds[slot];
      var elapsed := Since(t, h.start);
      var strip := cv.strip[c.op.index := Sample(c.op, h.color, elapsed)];
      if elapsed >= c.op.duration then Canvas(strip, cv.holds - {slot})
      else Canvas(strip, cv.holds[slot := h.(due := Plus(t, Pause(c.op, period, t, elapsed)))])
  }

  function Draw(cv: Canvas, code: seq<Code>, e: Event, t: uint32, period: Period): Canvas {
    if e.Dispatched? && e.slot < |code| then Begin(cv, code[e.slot], e.slot, t, period)
    else if e.Resumed? && e.slot < |code| then Update(cv, code[e.slot], e.slot, t, period)
    else cv
  }

  /** The events of one tick at `t`, in order. */
  function DrawAll(cv: Canvas, code: seq<Code>, events: seq<Event>, t: uint32, period: Period): Canvas {
    if events == [] then cv
    else Draw(DrawAll(cv, code, events[..|events| - 1], t, period), code, events[|events| - 1], t, period)
  }

  /** Whether an event asks for the strip to be shown: setting instructions always, timed ones
      whenever they write. */
  predicate Asks(code: seq<Code>, leds: nat, e: Event) {
    if e.Dispatched? && e.slot < |code| then
      var c := code[e.slot];
      c.bound && (c.op.SetMultiple? || c.op.SetSingle? || (IsTimed(c) && c.op.index < leds && c.op.duration == 0))
    else e.Resumed?
  }

  predicate AskedSince(code: seq<Code>, leds: nat, log: seq<Event>, base: nat) {
    exists j :: base <= j < |log| && Asks(code, leds, log[j])
  }

  lemma {:induction false} DrawOneMore(cv: Canvas, code: seq<Code>, log: seq<Event>, base: nat, e: Event, t: uint32, period: Period, leds: nat)
    requires base <= |log|
    ensures DrawAll(cv, code, (log + [e])[base..], t, period) == Draw(DrawAll(cv, code, log[base..], t, period), code, e, t, period)
    ensures AskedSince(code, leds, log + [e], base) <==> AskedSince(code, leds, log, base) || Asks(code, leds, e)
  {
    hide Draw;
    var next := log + [e];
    assert next[base..] == log[base..] + [e];
    assert (log[base..] + [e])[..|log[base..]|] == log[base..];
    assert next[|log|] == e;
    if j :| base <= j < |log| && Asks(code, leds, log[j]) { assert next[j] == log[j]; }
  }

  // ----- The state is the drawing ----------------------------------------------------------

  /** An executing entry is the hold of its slot. */
  ghost predicate Fits(s: Ctl, e: Entry, holds: map<nat, Hold>) {
    e.slot in holds && HeldSince(s, e, holds[e.slot].start, holds[e.slot].color) && e.deadline == holds[e.slot].due
  }

  /** The strip is the canvas, and the executing entries are exactly its holds. */
  ghost predicate Matches(s: Ctl, cv: Canvas) {
    && s.strip == cv.strip
    && (forall i :: 0 <= i < |s.executing| ==> Fits(s, s.executing[i], cv.holds))
    && (forall slot :: slot in cv.holds ==> Running(s.executing, slot))
  }

  predicate Running(ex: seq<Entry>, slot: nat) {
    exists i :: 0 <= i < |ex| && ex[i].slot == slot
  }

  lemma {:induction false} FitsReads(a: Ctl, b: Ctl, e: Entry, holds: map<nat, Hold>, next: map<nat, Hold>)
    requires Fits(a, e, holds) && b.prog == a.prog && |b.mem| == |a.mem| && |b.strip| == |a.strip| && b.mem[e.slot] == a.mem[e.slot]
    requires e.slot in next && next[e.slot] == holds[e.slot]
    ensures Fits(b, e, next)
  {
  }

  /** Steps that touch no strip, no entry and no state of an entry. */
  lemma {:induction false} StillMatches(a: Ctl, b: Ctl, cv: Canvas)
    requires Inv(a) && Matches(a, cv) && b.prog == a.prog && b.strip == a.strip && b.executing == a.executing && |b.mem| == |a.mem|
    requires forall i :: 0 <= i < |a.executing| && a.executing[i].slot < |a.mem| ==> b.mem[a.executing[i].slot] == a.mem[a.executing[i].slot]
    ensures Matches(b, cv)
  {
    hide Sound, HeldSince;
    forall i | 0 <= i < |b.executing| ensures Fits(b, b.executing[i], cv.holds) {
      InTable(a, i);
      FitsReads(a, b, a.executing[i], cv.holds, cv.holds);
    }
  }

  // ----- Steps -----------------------------------------------------------------------------

  lemma {:induction false} SlotsDiffer(s: Ctl, i: nat, j: nat)
    requires Inv(s) && i < |s.executing| && j < |s.executing| && i != j
    ensures s.executing[i].slot != s.executing[j].slot
  {
  }

  /** Resuming an entry draws its update. */
  lemma {:induction false} ResumeEffect(s: Ctl, e: Entry, cv: Canvas, t: uint32)
    requires s.strip == cv.strip && Fits(s, e, cv.holds)
    ensures var x := Execute(s.prog.code[e.slot], s.mem[e.slot], t, s.strip, s.period);
      var h, next := cv.holds[e.slot], Update(cv, s.prog.code[e.slot], e.slot, t, s.period);
      && x.mem == s.mem[e.slot] && x.show && x.strip == next.strip && |x.strip| == |s.strip|
      && (if x.delay == 0 then next.holds == cv.holds - {e.slot}
          else
            && next.holds == cv.holds[e.slot := h.(due := Plus(t, x.delay))]
            && HeldSince(s, e.(deadline := Plus(t, x.delay)), h.start, h.color))
  {
    hide Execute, Sample, Captured, Since, Plus, Pause;
    var c, h := s.prog.code[e.slot], cv.holds[e.slot];
    CallWrites(c, s.mem[e.slot], h.start, h.color, Call(t, s.strip), s.period);
    NextCall(c, s.mem[e.slot], h.start, h.color, Call(t, s.strip), s.period);
  }

  lemma {:induction false} RunningWithout(ex: seq<Entry>, i: nat, slot: nat)
    requires i < |ex| && Running(ex, slot) && slot != ex[i].slot
    ensures Running(Without(ex, i), slot)
  {
    var k :| 0 <= k < |ex| && ex[k].slot == slot;
    var b := Without(ex, i);
    if k == |ex| - 1 { assert b[i].slot == slot; } else { assert b[k].slot == slot; }
  }

  lemma {:induction false} RunningRearmed(ex: seq<Entry>, i: nat, d: uint32, slot: nat)
    requires i < |ex| && Running(ex, slot)
    ensures Running(ex[i := ex[i].(deadline := d)], slot)
  {
    var k :| 0 <= k < |ex| && ex[k].slot == slot;
    assert ex[i := ex[i].(deadline := d)][k].slot == slot;
  }

  /** The fields a resume changes. */
  lemma {:induction false} ResumeFields(a: Pass, i: nat, t: uint32, x: Effect)
    requires Inv(a.s) && i < |a.s.executing| && !Stale(a.s, a.s.executing[i])
    ensures var s, e, b := a.s, a.s.executing[i], ResumeWith(a, i, t, x).s;
      && b.prog == s.prog && b.period == s.period && b.mem == s.mem[e.slot := x.mem] && b.strip == x.strip && b.show == (s.show || x.show)
      && b.executing == (if x.delay != 0 then s.executing[i := e.(deadline := Plus(t, x.delay))] else Without(s.executing, i))
      && b.log == s.log + [Resumed(e.runtime, e.slot)]
  {
    hide Sound, Observe, Plus;
    ResumeKeeps(a, i, t, x);
  }

  lemma {:induction false} ResumeDraws(a: Pass, i: nat, t: uint32, cv: Canvas)
    requires Inv(a.s) && Matches(a.s, cv) && i < |a.s.executing| && !Stale(a.s, a.s.executing[i])
    ensures var b, e := Resume(a, i, t).s, a.s.executing[i];
      && Matches(b, Update(cv, a.s.prog.code[e.slot], e.slot, t, a.s.period)) && b.show
      && b.prog == a.s.prog && b.period == a.s.period && b.log == a.s.log + [Resumed(e.runtime, e.slot)]
  {
    hide Sound, Execute, Update, HeldSince, Without, Plus, ResumeWith;
    var s, e := a.s, a.s.executing[i];
    var x := Execute(s.prog.code[e.slot], s.mem[e.slot], t, s.strip, s.period);
    var b, next := Resume(a, i, t).s, Update(cv, s.prog.code[e.slot], e.slot, t, s.period);
    ResumeFields(a, i, t, x);
    ResumeEffect(s, e, cv, t);
    assert b.mem == s.mem;
    forall j | 0 <= j < |s.executing| && j != i ensures Fits(b, s.executing[j], next.holds) {
      SlotsDiffer(s, i, j);
      InTable(s, j);
      FitsReads(s, b, s.executing[j], cv.holds, next.holds);
    }
    if x.delay != 0 {
      SinceReads(s, b, b.executing[i], next.holds[e.slot].start, next.holds[e.slot].color);
      forall slot | slot in next.holds ensures Running(b.executing, slot) {
        RunningRearmed(s.executing, i, Plus(t, x.delay), slot);
      }
    } else {
      WithoutIsOthers(s.executing, i);
      forall slot | slot in next.holds ensures Running(b.executing, slot) {
        RunningWithout(s.executing, i, slot);
      }
    }
  }

  lemma {:induction false} SinceReads(a: Ctl, b: Ctl, e: Entry, start: uint32, color: Rgb)
    requires HeldSince(a, e, start, color) && b.prog == a.prog && b.mem == a.mem && |b.strip| == |a.strip|
    ensures HeldSince(b, e, start, color)
  {
  }

  /** Where entry `k` of the table without `i` was. */
  function Origin(ex: seq<Entry>, i: nat, k: nat): (j: nat)
    requires i < |ex| && k < |ex| - 1
    ensures j < |ex| && j != i && Without(ex, i)[k] == ex[j]
  {
    if k == i then |ex| - 1 else k
  }

  lemma {:induction false} WithoutIsOthers(ex: seq<Entry>, i: nat)
    requires i < |ex|
    ensures forall k :: 0 <= k < |Without(ex, i)| ==> Without(ex, i)[k] == ex[Origin(ex, i, k)]
  {
  }

  /** Dispatching an ordinary instruction draws it. */
  lemma {:induction false} EffectDraws(c: Code, slot: nat, t: uint32, cv: Canvas, period: Period)
    requires !c.op.RunGroup?
    ensures var x, next := Execute(c, Idle, t, cv.strip, period), Begin(cv, c, slot, t, period);
      && x.strip == next.strip
      && (x.show <==> c.bound && (c.op.SetMultiple? || c.op.SetSingle? || (IsTimed(c) && c.op.index < |cv.strip| && c.op.duration == 0)))
      && (x.delay == 0 ==> next.holds == cv.holds)
      && (x.delay > 0 ==>
            && IsTimed(c) && c.op.index < |cv.strip| && Captured(c, x.mem, t, cv.strip[c.op.index])
            && 0 < Since(Plus(t, x.delay), t) <= c.op.duration
            && next.holds == cv.holds[slot := Hold(t, cv.strip[c.op.index], Plus(t, x.delay))])
  {
    hide Execute, Sample, Captured, Since, Plus, Pause;
    OthersKept(c, Idle, t, cv.strip, period);
    WaitsIff(c, t, cv.strip, period);
    if c.bound {
      if c.op.SetMultiple? {
        MultipleSets(c, Idle, t, cv.strip, period);
      } else if c.op.SetSingle? {
        SingleSets(c, Idle, t, cv.strip, period);
      } else if c.op.index < |cv.strip| {
        StartCaptures(c, Idle, t, cv.strip, period);
        if c.op.duration > 0 { NewlyHeld(c, t, cv.strip, period); }
      }
    }
  }

  lemma {:induction false} RunDraws(a: Pass, q: Grade, g: nat, t: uint32, cv: Canvas)
    requires Inv(a.s) && Base(a.s, q) && Matches(a.s, cv) && g < |a.s.runtimes| && HasDue(a.s, g, t)
    requires !a.s.prog.code[At(a.s.prog, g, a.s.runtimes[g].cursor)].op.RunGroup?
    ensures var b, i := Dispatch(a, g, t).s, At(a.s.prog, g, a.s.runtimes[g].cursor);
      && Matches(b, Begin(cv, a.s.prog.code[i], i, t, a.s.period))
      && (b.show <==> a.s.show || Asks(a.s.prog.code, |a.s.strip|, Dispatched(g, i, 0)))
  {
    hide Sound, Execute, Dispatch, Base, Begin, HeldSince, Plus, Since, Captured;
    var s, b := a.s, Dispatch(a, g, t).s;
    var i := At(s.prog, g, s.runtimes[g].cursor);
    var next := Begin(cv, s.prog.code[i], i, t, s.period);
    RunFields(a, g, t);
    NotExecuting(s.prog, s.runtimes, s.executing, g);
    NextIsIdle(s, q, g);
    EffectDraws(s.prog.code[i], i, t, cv, s.period);
    forall j | 0 <= j < |s.executing| ensures Fits(b, s.executing[j], next.holds) {
      InTable(s, j);
      FitsReads(s, b, s.executing[j], cv.holds, next.holds);
    }
    if EffectOf(s, g, t).delay > 0 {
      NewFits(b, b.executing[|s.executing|], t, s.strip[s.prog.code[i].op.index]);
    }
    forall slot | slot in next.holds ensures Running(b.executing, slot) {
      if slot == i {
        assert b.executing[|s.executing|].slot == i;
      } else {
        RunningAppend(s.executing, b.executing, slot);
      }
    }
  }

  lemma {:induction false} NewFits(s: Ctl, e: Entry, start: uint32, color: Rgb)
    requires e.slot < |s.prog.code| == |s.mem| && IsTimed(s.prog.code[e.slot]) && s.prog.code[e.slot].op.index < |s.strip|
    requires Captured(s.prog.code[e.slot], s.mem[e.slot], start, color)
    requires 0 < Since(e.deadline, start) <= s.prog.code[e.slot].op.duration
    ensures HeldSince(s, e, start, color)
  {
  }

  lemma {:induction false} RunningAppend(a: seq<Entry>, b: seq<Entry>, slot: nat)
    requires a <= b && Running(a, slot)
    ensures Running(b, slot)
  {
    var k :| 0 <= k < |a| && a[k].slot == slot;
    assert b[k] == a[k];
  }

  /** Beginning a pass of a group without entries leaves the drawing alone. */
  lemma {:induction false} BeginMatches(s: Ctl, b: Ctl, g: nat, cv: Canvas)
    requires Inv(s) && Matches(s, cv) && g < |s.runtimes| && forall i :: 0 <= i < |s.executing| ==> s.executing[i].runtime != g
    requires b.prog == s.prog && b.executing == s.executing && b.strip == s.strip && b.mem == ClearFrom(s.mem, s.prog, g, 0)
    ensures Matches(b, cv)
  {
    hide Matches, ClearFrom, Linked, Counted;
    forall i | 0 <= i < |s.executing| ensures b.mem[s.executing[i].slot] == s.mem[s.executing[i].slot] {
      InTable(s, i);
      assert EntryAt(s.prog, s.runtimes, s.executing[i]);
      ClearOthers(s.mem, s.prog, g, 0, s.executing[i].slot);
    }
    StillMatches(s, b, cv);
  }

  lemma {:induction false} CompleteDraws(a: Pass, g: nat, t: uint32, cv: Canvas)
    requires Inv(a.s) && Matches(a.s, cv) && g < |a.s.runtimes| && Ready(a.s, g)
    ensures var b := Complete(a, g, t).s; Matches(b, cv) && b.show == a.s.show && b.prog == a.s.prog && b.period == a.s.period
  {
    hide Sound, Matches, ClearFrom;
    var s, r, b := a.s, a.s.runtimes[g], Complete(a, g, t).s;
    if r.repeats != 0 && r.boundary {
      CanRestart(s.prog, s.runtimes, s.executing, g);
      QuietGroup(s.prog, s.runtimes, s.executing, g);
      BeginMatches(s, b, g, cv);
    } else {
      StillMatches(s, b, cv);
    }
  }

  // ----- Ticks -----------------------------------------------------------------------------

  /** Since position `base` of the log the state is what the log draws on `cv` at `t`, and a show
      is requested exactly when one of those events asks for it. */
  ghost predicate Drawn(s: Ctl, cv: Canvas, base: nat, t: uint32) {
    && base <= |s.log|
    && Matches(s, DrawAll(cv, s.prog.code, s.log[base..], t, s.period))
    && (s.show <==> AskedSince(s.prog.code, |s.strip|, s.log, base))
  }

  /** The canvas after the events so far. */
  function CanvasOf(s: Ctl, cv: Canvas, base: nat, t: uint32): Canvas
    requires base <= |s.log|
  {
    DrawAll(cv, s.prog.code, s.log[base..], t, s.period)
  }

  /** One more event and what it draws. */
  lemma {:induction false} DrawnNext(a: Ctl, b: Ctl, cv: Canvas, base: nat, t: uint32, e: Event)
    requires Drawn(a, cv, base, t) && b.log == a.log + [e] && b.prog == a.prog && b.period == a.period && |b.strip| == |a.strip|
    requires Matches(b, Draw(CanvasOf(a, cv, base, t), a.prog.code, e, t, a.period))
    requires b.show <==> a.show || Asks(a.prog.code, |a.strip|, e)
    ensures Drawn(b, cv, base, t)
  {
    hide Matches, Draw, Asks;
    DrawOneMore(cv, a.prog.code, a.log, base, e, t, a.period, |a.strip|);
  }

  lemma {:induction false} DrawnQuiet(a: Ctl, b: Ctl, cv: Canvas, base: nat, t: uint32, e: Event)
    requires Drawn(a, cv, base, t) && b.log == a.log + [e] && b.prog == a.prog && b.period == a.period && b.strip == a.strip
    requires !e.Dispatched? && !e.Resumed? && b.show == a.show && Matches(b, CanvasOf(a, cv, base, t))
    ensures Drawn(b, cv, base, t)
  {
    hide Matches, DrawAll;
    DrawnNext(a, b, cv, base, t, e);
  }

  lemma {:induction false} LogMatches(a: Ctl, log: seq<Event>, cv: Canvas)
    requires Matches(a, cv)
    ensures Matches(a.(log := log), cv)
  {
  }

  lemma {:induction false} ResumeDrawn(a: Pass, i: nat, t: uint32, cv: Canvas, base: nat)
    requires Inv(a.s) && Drawn(a.s, cv, base, t) && i < |a.s.executing| && !Stale(a.s, a.s.executing[i])
    ensures Drawn(Resume(a, i, t).s, cv, base, t)
  {
    hide Sound, Matches, Resume, DrawAll, Update;
    var e := a.s.executing[i];
    ResumeDraws(a, i, t, CanvasOf(a.s, cv, base, t));
    ResumeKeepsSetup(a, i, t);
    DrawnNext(a.s, Resume(a, i, t).s, cv, base, t, Resumed(e.runtime, e.slot));
  }

  lemma {:induction false} CompleteDrawn(a: Pass, g: nat, t: uint32, cv: Canvas, base: nat)
    requires Inv(a.s) && Drawn(a.s, cv, base, t) && g < |a.s.runtimes| && Ready(a.s, g)
    ensures Drawn(Complete(a, g, t).s, cv, base, t)
  {
    hide Sound, Matches, Complete, DrawAll;
    var s, b, canvas := a.s, Complete(a, g, t).s, CanvasOf(a.s, cv, base, t);
    CompleteDraws(a, g, t, canvas);
    CompleteKeeps(a, g, t);
    MatchStrip(s, canvas);
    MatchStrip(b, canvas);
    if |b.log| == |s.log| + 1 {
      DrawnQuiet(s, b, cv, base, t, b.log[|s.log|]);
    } else {
      var mid := s.(log := s.log + [Failed(NoBoundary)]);
      LogMatches(s, mid.log, canvas);
      DrawnQuiet(s, mid, cv, base, t, Failed(NoBoundary));
      SameCanvas(s, mid, cv, base, t, Failed(NoBoundary));
      DrawnQuiet(mid, b, cv, base, t, Finished(g));
    }
  }

  lemma {:induction false} MatchStrip(s: Ctl, cv: Canvas)
    requires Matches(s, cv)
    ensures s.strip == cv.strip
  {
  }

  lemma {:induction false} SameCanvas(a: Ctl, b: Ctl, cv: Canvas, base: nat, t: uint32, e: Event)
    requires base <= |a.log| && b.log == a.log + [e] && b.prog == a.prog && b.period == a.period && !e.Dispatched? && !e.Resumed?
    ensures CanvasOf(b, cv, base, t) == CanvasOf(a, cv, base, t)
  {
    DrawOneMore(cv, a.prog.code, a.log, base, e, t, a.period, 0);
  }

  lemma {:induction false} RunDrawn(a: Pass, q: Grade, g: nat, t: uint32, cv: Canvas, base: nat)
    requires Inv(a.s) && Base(a.s, q) && Drawn(a.s, cv, base, t) && g < |a.s.runtimes| && HasDue(a.s, g, t)
    requires !a.s.prog.code[At(a.s.prog, g, a.s.runtimes[g].cursor)].op.RunGroup?
    ensures Drawn(Dispatch(a, g, t).s, cv, base, t)
  {
    hide Sound, Base, Matches, Dispatch, DrawAll, Begin, Observe;
    var s, i := a.s, At(a.s.prog, g, a.s.runtimes[g].cursor);
    RunDraws(a, q, g, t, CanvasOf(s, cv, base, t));
    DispatchKeeps(a, g, t);
    DispatchKeepsSetup(a, g, t);
    DrawnNext(s, Dispatch(a, g, t).s, cv, base, t, Dispatched(g, i, Since(t, s.runtimes[g].startTime)));
  }

  /** A launch, carried out or not, draws nothing. */
  lemma {:induction false} LaunchDrawn(a: Pass, g: nat, t: uint32, cv: Canvas, base: nat)
    requires Inv(a.s) && Drawn(a.s, cv, base, t) && g < |a.s.runtimes| && HasDue(a.s, g, t)
    requires a.s.prog.code[At(a.s.prog, g, a.s.runtimes[g].cursor)].op.RunGroup?
    ensures Drawn(Dispatch(a, g, t).s, cv, base, t)
  {
    hide Sound, Matches, DrawAll, Observe, ClearFrom, Dispatch;
    var s, b, canvas := a.s, Dispatch(a, g, t).s, CanvasOf(a.s, cv, base, t);
    var i := At(s.prog, g, s.runtimes[g].cursor);
    DispatchKeeps(a, g, t);
    var d := Dispatched(g, i, Since(t, s.runtimes[g].startTime));
    var mid := s.(log := s.log + [d]);
    LogMatches(s, mid.log, canvas);
    DrawnNext(s, mid, cv, base, t, d);
    MidCanvas(s, mid, cv, base, t, d);
    var h := Target(s.prog, i);
    if s.runtimes[h].active {
      StillMatches(s, b, canvas);
    } else {
      OwnersAreActive(s, h);
      BeginMatches(s, b, h, canvas);
    }
    DrawnQuiet(mid, b, cv, base, t, b.log[|s.log| + 1]);
  }

  lemma {:induction false} MidCanvas(a: Ctl, b: Ctl, cv: Canvas, base: nat, t: uint32, e: Event)
    requires base <= |a.log| && b.log == a.log + [e] && b.prog == a.prog && b.period == a.period
    requires e.Dispatched? && e.slot < |a.prog.code| && a.prog.code[e.slot].op.RunGroup?
    ensures CanvasOf(b, cv, base, t) == CanvasOf(a, cv, base, t)
  {
    DrawOneMore(cv, a.prog.code, a.log, base, e, t, a.period, 0);
  }

  lemma {:induction false} StepsDrawn(a: Pass, q: Grade, ms: seq<Move>, t: uint32, cv: Canvas, base: nat)
    requires Inv(a.s) && Base(a.s, q) && Graded(a.s.prog, q) && Drawn(a.s, cv, base, t) && EnabledAll(a, ms, t)
    ensures Drawn(ApplyAll(a, ms, t).s, cv, base, t)
    decreases |ms|
  {
    hide Base, Sound, Graded, Drawn, Resume, Complete, Dispatch, Shaped;
    if ms != [] {
      ApplyKeeps(a, ms[0], t);
      ApplyBase(a, q, ms[0], t);
      match ms[0]
      case Resuming(i) => ResumeDrawn(a, i, t, cv, base);
      case Completing(g) => CompleteDrawn(a, g, t, cv, base);
      case Dispatching(g) => DispatchDrawn(a, q, g, t, cv, base);
    }
    if ms != [] { StepsDrawn(Apply(a, ms[0], t), q, ms[1..], t, cv, base); }
  }

  lemma {:induction false} DispatchDrawn(a: Pass, q: Grade, g: nat, t: uint32, cv: Canvas, base: nat)
    requires Inv(a.s) && Base(a.s, q) && Drawn(a.s, cv, base, t) && g < |a.s.runtimes| && HasDue(a.s, g, t)
    ensures Drawn(Dispatch(a, g, t).s, cv, base, t)
  {
    hide Base, Sound, Drawn, Dispatch;
    if a.s.prog.code[At(a.s.prog, g, a.s.runtimes[g].cursor)].op.RunGroup? {
      LaunchDrawn(a, g, t, cv, base);
    } else {
      RunDrawn(a, q, g, t, cv, base);
    }
  }

  /** A tick draws its own events, and a show is requested exactly when one of them asks. */
  lemma {:induction false} TickDraws(s: Ctl, q: Grade, t: uint32, cv: Canvas)
    requires Inv(s) && Base(s, q) && Graded(s.prog, q) && Matches(s, cv)
    ensures var b := Run(s, t).s;
      && b.prog == s.prog && b.period == s.period && |s.log| <= |b.log| && |b.strip| == |s.strip|
      && Matches(b, DrawAll(cv, s.prog.code, b.log[|s.log|..], t, s.period))
      && (s.phase == Active ==> (b.show <==> AskedSince(s.prog.code, |s.strip|, b.log, |s.log|)))
  {
    hide Sound, Base, Graded, Settle, Arm, HeldSince;
    if s.phase == Active {
      var first := s.(show := false, timeout := 0);
      var a := Pass(first, Success, false);
      var ms := SettleIsRun(first, Success, t);
      FirstDrawn(s, first, cv, t);
      SilentBase(s, q);
      StepsDrawn(a, q, ms, t, cv, |s.log|);
      RunKeepsSetup(a, ms, t);
      var r := Settle(first, Success, t).s;
      Faultless.ArmReads(r, t);
      MatchesReads(r, Arm(r, t), DrawAll(cv, s.prog.code, r.log[|s.log|..], t, s.period));
    } else {
      assert s.log[|s.log|..] == [];
    }
  }

  lemma {:induction false} SilentBase(s: Ctl, q: Grade)
    requires Inv(s) && Base(s, q)
    ensures Inv(s.(show := false, timeout := 0)) && Base(s.(show := false, timeout := 0), q)
  {
  }

  lemma {:induction false} MatchesReads(a: Ctl, b: Ctl, cv: Canvas)
    requires Matches(a, cv) && b.prog == a.prog && b.mem == a.mem && b.strip == a.strip && b.executing == a.executing
    ensures Matches(b, cv)
  {
  }

  lemma {:induction false} FirstDrawn(s: Ctl, first: Ctl, cv: Canvas, t: uint32)
    requires Matches(s, cv) && first == s.(show := false, timeout := 0)
    ensures Drawn(first, cv, |s.log|, t)
  {
    hide Matches;
    assert s.log[|s.log|..] == [];
    MatchesReads(s, first, cv);
  }

  // ----- Whole runs ------------------------------------------------------------------------

  /** What successive ticks draw: `log` is the log before them. */
  function DrawRun(cv: Canvas, code: seq<Code>, period: Period, log: seq<Event>, rs: seq<Ran>, ts: seq<uint32>): Canvas
    requires |rs| == |ts|
    decreases |rs|
  {
    if rs == [] then cv
    else
      var events := if |log| <= |rs[0].s.log| then rs[0].s.log[|log|..] else [];
      DrawRun(DrawAll(cv, code, events, ts[0], period), code, period, rs[0].s.log, rs[1..], ts[1..])
  }

  /** The last tick, if the program was active before it, requests a show exactly when one of its
      events asks for it. */
  ghost predicate ShowsLast(s: Ctl, rs: seq<Ran>, ts: seq<uint32>)
    requires |rs| == |ts| > 0
  {
    var before, last := if |ts| == 1 then s else rs[|ts| - 2].s, rs[|ts| - 1].s;
    before.phase == Active ==> (last.show <==> AskedSince(s.prog.code, |s.strip|, last.log, |before.log|))
  }

  lemma {:induction false} RunsDraw(s: Ctl, q: Grade, ts: seq<uint32>, cv: Canvas)
    requires Inv(s) && Base(s, q) && Graded(s.prog, q) && Matches(s, cv) && ts != []
    ensures var rs := Runs(s, ts);
      && Matches(rs[|ts| - 1].s, DrawRun(cv, s.prog.code, s.period, s.log, rs, ts))
      && ShowsLast(s, rs, ts)
    decreases |ts|
  {
    hide Sound, Base, Graded, Matches, Run, DrawAll, AskedSince;
    var b := Run(s, ts[0]).s;
    TickDraws(s, q, ts[0], cv);
    TickBase(s, q, ts[0]);
    var rest := Runs(b, ts[1..]);
    assert Runs(s, ts) == [Run(s, ts[0])] + rest;
    assert Runs(s, ts)[1..] == rest;
    if |ts| > 1 {
      RunsDraw(b, q, ts[1..], DrawAll(cv, s.prog.code, b.log[|s.log|..], ts[0], s.period));
    }
  }

  lemma {:induction false} TickBase(s: Ctl, q: Grade, t: uint32)
    requires Inv(s) && Base(s, q) && Graded(s.prog, q)
    ensures Inv(Run(s, t).s) && Base(Run(s, t).s, q)
  {
    hide Sound, Core, Flags, Graded, Settle, Arm;
    if s.phase == Active {
      var a := Pass(s.(show := false, timeout := 0), Success, false);
      var ms := SettleIsRun(a.s, Success, t);
      StepsBase(a, q, ms, t);
      RunKeepsAll(s, t);
      Faultless.ArmReads(Settle(a.s, Success, t).s, t);
    }
  }

  /** The picture of a run: after the last tick of every run of an accepted program the strip is
      what its log draws on the strip it started with, and the executing entries are exactly the
      timed instructions the log leaves under way, with what they captured and when they update; a
      show was requested exactly when an event of that tick asks for it. */
  lemma {:induction false} RunIsPicture(s: Ctl, p: Program, t: uint32, repeats: uint16, ts: seq<uint32>)
    requires Accepted(p, repeats) && |s.mem| == |p.code| && ts != []
    ensures var first, rs := Launched(s, p, t, repeats), RunFrom(s, p, t, repeats, ts);
      && Matches(rs[|ts| - 1].s, DrawRun(Canvas(s.strip, map[]), p.code, s.period, first.log, rs, ts))
      && ShowsLast(first, rs, ts)
  {
    hide Launched, Base, Graded, Effective, Played, Matches, DrawRun, ShowsLast;
    var q, first := GradeOf(p, |s.strip|), Launched(s, p, t, repeats);
    InRangeOf(p, repeats);
    GradeIsGraded(p, repeats, |s.strip|);
    LaunchedIsSound(s, p, t, repeats);
    LaunchedBase(s, p, t, repeats, q);
    BlankCanvas(s, p, t, repeats);
    RunsDraw(first, q, ts, Canvas(s.strip, map[]));
  }

  lemma {:induction false} BlankCanvas(s: Ctl, p: Program, t: uint32, repeats: uint16)
    requires Runnable(p) && |s.mem| == |p.code|
    ensures var first := Launched(s, p, t, repeats);
      first.prog == p && first.period == s.period && Matches(first, Canvas(s.strip, map[]))
  {
  }
}
