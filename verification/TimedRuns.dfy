/** Timed instructions inside the scheduler: in every run, what an executing entry shows is
    determined by what it captured when it was dispatched. */
module TimedRuns {
  import opened Clock
  import opened Oklab
  import opened Instructions
  import opened Program
  import opened Scheduler
  import opened Invariant
  import opened Tick
  import opened Launching
  import opened Wrap
  import opened Grading
  import opened Timed
  import opened FaultFree
  import Faultless

  /** An entry captured `color` at `start` and will be called again within its duration. */
  ghost predicate HeldSince(s: Ctl, e: Entry, start: uint32, color: Rgb) {
    && e.slot < |s.prog.code| == |s.mem| && IsTimed(s.prog.code[e.slot]) && s.prog.code[e.slot].op.index < |s.strip|
    && Captured(s.prog.code[e.slot], s.mem[e.slot], start, color)
    && 0 < Since(e.deadline, start) <= s.prog.code[e.slot].op.duration
  }

  ghost predicate Held(s: Ctl, e: Entry) {
    exists start: uint32, color: Rgb :: HeldSince(s, e, start, color)
  }

  ghost predicate AllHeld(s: Ctl) {
    forall i :: 0 <= i < |s.executing| ==> Held(s, s.executing[i])
  }

  /** What resuming an entry leaves on the strip: the sample for what it captured, and a request
      to show it. */
  lemma {:induction false} ResumeShows(a: Pass, i: nat, start: uint32, color: Rgb, t: uint32)
    requires Inv(a.s) && i < |a.s.executing| && !Stale(a.s, a.s.executing[i]) && HeldSince(a.s, a.s.executing[i], start, color)
    ensures var c, b := a.s.prog.code[a.s.executing[i].slot], Resume(a, i, t).s;
      b.show && b.strip == a.s.strip[c.op.index := Sample(c.op, color, Since(t, start))]
  {
    hide Execute, Sample, Captured, Sound, Observe;
    var e := a.s.executing[i];
    CallWrites(a.s.prog.code[e.slot], a.s.mem[e.slot], start, color, Call(t, a.s.strip), a.s.period);
  }

  /** An entry does not depend on the states of other slots. */
  lemma {:induction false} HeldReads(a: Ctl, b: Ctl, e: Entry)
    requires Held(a, e) && b.prog == a.prog && |b.mem| == |a.mem| && |b.strip| == |a.strip| && b.mem[e.slot] == a.mem[e.slot]
    ensures Held(b, e)
  {
    var start, color :| HeldSince(a, e, start, color);
    assert HeldSince(b, e, start, color);
  }

  lemma {:induction false} Rearmed(s: Ctl, e: Entry, t: uint32)
    requires Held(s, e)
    ensures var x := Execute(s.prog.code[e.slot], s.mem[e.slot], t, s.strip, s.period);
      x.mem == s.mem[e.slot] && |x.strip| == |s.strip| && (x.delay > 0 ==> Held(s, e.(deadline := Plus(t, x.delay))))
  {
    hide Execute, Captured, Since, Plus;
    var start, color :| HeldSince(s, e, start, color);
    var c := s.prog.code[e.slot];
    NextCall(c, s.mem[e.slot], start, color, Call(t, s.strip), s.period);
    var x := Execute(c, s.mem[e.slot], t, s.strip, s.period);
    if x.delay > 0 { assert HeldSince(s, e.(deadline := Plus(t, x.delay)), start, color); }
  }

  lemma {:induction false} ResumeHeld(a: Pass, i: nat, t: uint32)
    requires Inv(a.s) && AllHeld(a.s) && i < |a.s.executing| && !Stale(a.s, a.s.executing[i])
    ensures AllHeld(Resume(a, i, t).s)
  {
    hide Sound, Observe, Execute, Held, Plus;
    var s, e, b := a.s, a.s.executing[i], Resume(a, i, t).s;
    Rearmed(s, e, t);
    assert b.mem == s.mem;
    forall j | 0 <= j < |b.executing| ensures Held(b, b.executing[j]) {
      HeldReads(s, b, b.executing[j]);
    }
  }

  lemma {:induction false} ClearOthers(mem: seq<Mem>, p: Program, g: nat, k: nat, i: nat)
    requires InRange(p) && g < |p.groups| && |mem| == |p.code| && k <= Count(p, g) && i < |mem|
    requires forall j :: k <= j < Count(p, g) ==> At(p, g, j) != i
    ensures ClearFrom(mem, p, g, k)[i] == mem[i]
    decreases Count(p, g) - k
  {
    if k < Count(p, g) { ClearOthers(mem[At(p, g, k) := Idle], p, g, k + 1, i); }
  }

  /** Beginning a pass of a group without entries leaves every entry's state alone. */
  lemma {:induction false} BeginHeld(s: Ctl, b: Ctl, g: nat)
    requires Inv(s) && AllHeld(s) && g < |s.runtimes| && forall i :: 0 <= i < |s.executing| ==> s.executing[i].runtime != g
    requires b.prog == s.prog && b.executing == s.executing && b.strip == s.strip && b.mem == ClearFrom(s.mem, s.prog, g, 0)
    ensures AllHeld(b)
  {
    hide Held, ClearFrom, Linked, Counted;
    forall i | 0 <= i < |b.executing| ensures Held(b, b.executing[i]) {
      var e := s.executing[i];
      assert EntryAt(s.prog, s.runtimes, e);
      ClearOthers(s.mem, s.prog, g, 0, e.slot);
      HeldReads(s, b, e);
    }
  }

  lemma {:induction false} CompleteHeld(a: Pass, g: nat, t: uint32)
    requires Inv(a.s) && AllHeld(a.s) && g < |a.s.runtimes| && Ready(a.s, g)
    ensures AllHeld(Complete(a, g, t).s)
  {
    hide Sound, Held, ClearFrom;
    var s, r, b := a.s, a.s.runtimes[g], Complete(a, g, t).s;
    if r.repeats != 0 && r.boundary {
      CanRestart(s.prog, s.runtimes, s.executing, g);
      QuietGroup(s.prog, s.runtimes, s.executing, g);
      BeginHeld(s, b, g);
    } else {
      forall i | 0 <= i < |b.executing| ensures Held(b, b.executing[i]) {
        assert Held(s, s.executing[i]);
        InTable(s, i);
        HeldReads(s, b, s.executing[i]);
      }
    }
  }

  lemma {:induction false} InTable(s: Ctl, i: nat)
    requires Inv(s) && i < |s.executing|
    ensures s.executing[i].slot < |s.mem|
  {
    EntryIsCounted(s, i);
  }

  /** A dispatched instruction that waits has captured its LED at this tick. */
  lemma {:induction false} NewlyHeld(c: Code, t: uint32, strip: seq<Rgb>, period: Period)
    requires Execute(c, Idle, t, strip, period).delay > 0
    ensures var x := Execute(c, Idle, t, strip, period);
      && IsTimed(c) && c.op.index < |strip| && Captured(c, x.mem, t, strip[c.op.index])
      && 0 < Since(Plus(t, x.delay), t) <= c.op.duration
  {
    hide Execute, Captured, Sample;
    WaitsIff(c, t, strip, period);
    StartCaptures(c, Idle, t, strip, period);
    ElapsedGrows(t, t, Execute(c, Idle, t, strip, period).delay);
  }

  /** What running the due instruction of `g` does to the strip, the show request, the entries and
      the instruction states. */
  lemma {:induction false} RunFields(a: Pass, g: nat, t: uint32)
    requires Inv(a.s) && g < |a.s.runtimes| && HasDue(a.s, g, t)
    requires !a.s.prog.code[At(a.s.prog, g, a.s.runtimes[g].cursor)].op.RunGroup?
    ensures var i, x, b := At(a.s.prog, g, a.s.runtimes[g].cursor), EffectOf(a.s, g, t), Dispatch(a, g, t).s;
      && b.prog == a.s.prog && b.mem == a.s.mem[i := x.mem] && b.strip == x.strip && b.show == (a.s.show || x.show)
      && b.executing == a.s.executing + (if x.delay > 0 then [Entry(i, g, Plus(t, x.delay))] else [])
  {
    hide Sound, Execute, Observe, Plus;
    Faultless.HasRoom(a.s, g);
  }

  /** Entries are not at the slot being dispatched. */
  lemma {:induction false} RunHeld(a: Pass, q: Grade, g: nat, t: uint32)
    requires Inv(a.s) && AllHeld(a.s) && Base(a.s, q) && g < |a.s.runtimes| && HasDue(a.s, g, t)
    requires !a.s.prog.code[At(a.s.prog, g, a.s.runtimes[g].cursor)].op.RunGroup?
    ensures AllHeld(Dispatch(a, g, t).s)
  {
    hide Sound, Held, Execute, Dispatch, Core, Flags, Plus, Captured;
    var s, b := a.s, Dispatch(a, g, t).s;
    var i := At(s.prog, g, s.runtimes[g].cursor);
    RunFields(a, g, t);
    NotExecuting(s.prog, s.runtimes, s.executing, g);
    NextIsIdle(s, q, g);
    forall j | 0 <= j < |b.executing| ensures Held(b, b.executing[j]) {
      if j < |s.executing| {
        InTable(s, j);
        HeldReads(s, b, s.executing[j]);
      } else {
        NewlyHeld(s.prog.code[i], t, s.strip, s.period);
        NowHeld(b, b.executing[j], t, s.strip[s.prog.code[i].op.index]);
      }
    }
  }

  lemma {:induction false} NowHeld(s: Ctl, e: Entry, start: uint32, color: Rgb)
    requires HeldSince(s, e, start, color)
    ensures Held(s, e)
  {
  }

  lemma {:induction false} NextIsIdle(s: Ctl, q: Grade, g: nat)
    requires Base(s, q) && g < |s.runtimes| && s.runtimes[g].active && s.runtimes[g].cursor < Count(s.prog, g)
    ensures s.mem[At(s.prog, g, s.runtimes[g].cursor)] == Idle
  {
    assert CoreAt(s.prog, q, s.runtimes, s.mem, g);
  }

  lemma {:induction false} DispatchHeld(a: Pass, q: Grade, g: nat, t: uint32)
    requires Inv(a.s) && AllHeld(a.s) && Base(a.s, q) && g < |a.s.runtimes| && HasDue(a.s, g, t)
    ensures AllHeld(Dispatch(a, g, t).s)
  {
    hide Sound, Held, Execute, Observe, ClearFrom, Base;
    DispatchKeeps(a, g, t);
    var s, p, b := a.s, a.s.prog, Dispatch(a, g, t).s;
    var i := At(p, g, s.runtimes[g].cursor);
    if !p.code[i].op.RunGroup? {
      RunHeld(a, q, g, t);
    } else if s.runtimes[Target(p, i)].active {
      forall j | 0 <= j < |b.executing| ensures Held(b, b.executing[j]) {
        assert Held(s, s.executing[j]);
        InTable(s, j);
        HeldReads(s, b, s.executing[j]);
      }
    } else {
      OwnersAreActive(s, Target(p, i));
      BeginHeld(s, b, Target(p, i));
    }
  }

  lemma {:induction false} OwnersAreActive(s: Ctl, h: nat)
    requires Inv(s) && h < |s.runtimes| && !s.runtimes[h].active
    ensures forall i :: 0 <= i < |s.executing| ==> s.executing[i].runtime != h
  {
    forall i | 0 <= i < |s.executing| ensures s.executing[i].runtime != h {
      EntryIsCounted(s, i);
    }
  }

  lemma {:induction false} StepsHeld(a: Pass, q: Grade, ms: seq<Move>, t: uint32)
    requires Inv(a.s) && Base(a.s, q) && Graded(a.s.prog, q) && AllHeld(a.s) && EnabledAll(a, ms, t)
    ensures AllHeld(ApplyAll(a, ms, t).s)
    decreases |ms|
  {
    hide Base, Sound, Graded, AllHeld, Resume, Complete, Dispatch, Shaped;
    if ms != [] {
      ApplyKeeps(a, ms[0], t);
      ApplyBase(a, q, ms[0], t);
      match ms[0]
      case Resuming(i) => ResumeHeld(a, i, t);
      case Completing(g) => CompleteHeld(a, g, t);
      case Dispatching(g) => DispatchHeld(a, q, g, t);
    }
    if ms != [] { StepsHeld(Apply(a, ms[0], t), q, ms[1..], t); }
  }

  /** What a run keeps about its timed instructions. */
  ghost predicate Timely(s: Ctl, q: Grade) {
    Inv(s) && Base(s, q) && Graded(s.prog, q) && AllHeld(s)
  }

  lemma {:induction false} TickTimely(s: Ctl, q: Grade, t: uint32)
    requires Timely(s, q)
    ensures Timely(Run(s, t).s, q)
  {
    hide Sound, Core, Flags, Graded, Held, Settle, Arm;
    if s.phase == Active {
      var a := Pass(s.(show := false, timeout := 0), Success, false);
      var ms := SettleIsRun(a.s, Success, t);
      OutputsHeld(s, a.s);
      StepsHeld(a, q, ms, t);
      StepsBase(a, q, ms, t);
      RunKeepsAll(s, t);
      RunKeepsSetup(a, ms, t);
      var r := Settle(a.s, Success, t).s;
      Faultless.ArmReads(r, t);
      OutputsHeld(r, Arm(r, t));
    }
  }

  lemma {:induction false} OutputsHeld(a: Ctl, b: Ctl)
    requires Inv(a) && AllHeld(a) && b.prog == a.prog && b.mem == a.mem && b.strip == a.strip && b.executing == a.executing
    ensures AllHeld(b)
  {
    hide Held, Sound;
    forall i | 0 <= i < |b.executing| ensures Held(b, b.executing[i]) {
      InTable(a, i);
      HeldReads(a, b, a.executing[i]);
    }
  }

  lemma {:induction false} RunsTimely(s: Ctl, q: Grade, ts: seq<uint32>, i: nat)
    requires Timely(s, q) && i < |ts|
    ensures Timely(Runs(s, ts)[i].s, q)
    decreases |ts|
  {
    hide Sound, Base, Graded, AllHeld, Run;
    TickTimely(s, q, ts[0]);
    if i > 0 { RunsTimely(Run(s, ts[0]).s, q, ts[1..], i - 1); }
  }

  /** In every run of an accepted program, after every tick, each executing entry has captured
      its LED when it was dispatched, shows only samples of that, and its next call lies within
      its duration. */
  lemma {:induction false} EveryEntryIsHeld(s: Ctl, p: Program, t: uint32, repeats: uint16, ts: seq<uint32>, i: nat)
    requires Accepted(p, repeats) && |s.mem| == |p.code| && i < |ts|
    ensures AllHeld(RunFrom(s, p, t, repeats, ts)[i].s)
  {
    hide Launched, Base, Graded, Held, Effective, Played;
    var q := GradeOf(p, |s.strip|);
    InRangeOf(p, repeats);
    GradeIsGraded(p, repeats, |s.strip|);
    LaunchedIsSound(s, p, t, repeats);
    LaunchedBase(s, p, t, repeats, q);
    NothingHeld(s, p, t, repeats);
    RunsTimely(Launched(s, p, t, repeats), q, ts, i);
  }

  lemma {:induction false} NothingHeld(s: Ctl, p: Program, t: uint32, repeats: uint16)
    requires Runnable(p) && |s.mem| == |p.code|
    ensures Launched(s, p, t, repeats).executing == [] && Launched(s, p, t, repeats).prog == p
  {
  }
}
