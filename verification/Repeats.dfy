/** In one tick each group repeats at most once, and the reported status is that of
    the first fault of the tick. */
module Repeats {
  import opened Clock
  import opened Instructions
  import opened Program
  import opened Scheduler
  import opened Invariant
  import opened Tick

  /** `Restarted(g)` records from position `base` on. */
  function Restarts(log: seq<Event>, base: nat, g: nat): nat {
    if |log| <= base then 0
    else Restarts(log[..|log| - 1], base, g) + if log[|log| - 1] == Restarted(g) then 1 else 0
  }

  lemma {:induction false} AppendRestarts(log: seq<Event>, e: Event, base: nat, g: nat)
    requires base <= |log|
    ensures Restarts(log + [e], base, g) == Restarts(log, base, g) + if e == Restarted(g) then 1 else 0
  {
    assert (log + [e])[..|log|] == log;
  }

  /** The groups `young` began their pass in this tick: neither they nor their descendants
      can observe a boundary before the next tick. */
  ghost predicate Unbounded(rts: seq<Runtime>, ex: seq<Entry>, young: set<nat>, t: uint32) {
    && (forall g :: 0 <= g < |rts| && g in young && rts[g].active ==> rts[g].startTime == t && !rts[g].boundary)
    && (forall h :: 0 <= h < |rts| && rts[h].active && rts[h].parent in young ==> h in young)
    && (forall i :: 0 <= i < |ex| && ex[i].runtime in young ==> !Reached(t, ex[i].deadline))
  }

  ghost predicate Once(s: Ctl, young: set<nat>, base: nat, t: uint32) {
    && base <= |s.log|
    && Unbounded(s.runtimes, s.executing, young, t)
    && forall g: nat :: Restarts(s.log, base, g) <= if g in young then 1 else 0
  }

  /** Ancestors of a group that is not young are not young, so observing reaches no young one. */
  lemma {:induction false} ObserveAvoids(rts: seq<Runtime>, g: nat, fuel: nat, young: set<nat>)
    requires g !in young
    requires forall h :: 0 <= h < |rts| && rts[h].active && rts[h].parent in young ==> h in young
    ensures forall h :: 0 <= h < |rts| && h in young ==> Observe(rts, g, fuel)[h] == rts[h]
    decreases fuel
  {
    if fuel != 0 && g < |rts| && rts[g].active {
      ObserveAvoids(rts[g := rts[g].(boundary := true)], rts[g].parent, fuel - 1, young);
    }
  }

  lemma {:induction false} OtherEvent(log: seq<Event>, e: Event, base: nat)
    requires base <= |log| && !e.Restarted?
    ensures forall g: nat :: Restarts(log + [e], base, g) == Restarts(log, base, g)
  {
    forall g: nat ensures Restarts(log + [e], base, g) == Restarts(log, base, g) {
      AppendRestarts(log, e, base, g);
    }
  }

  lemma {:induction false} ResumeOnce(a: Pass, i: nat, t: uint32, x: Effect, young: set<nat>, base: nat)
    requires Inv(a.s) && Once(a.s, young, base, t) && i < |a.s.executing| && !Stale(a.s, a.s.executing[i])
    requires Reached(t, a.s.executing[i].deadline) && x.delay < HALF_RANGE
    ensures Once(ResumeWith(a, i, t, x).s, young, base, t)
  {
    hide Sound;
    ResumeKeeps(a, i, t, x);
    var e := a.s.executing[i];
    ObserveAvoids(a.s.runtimes, e.runtime, |a.s.runtimes|, young);
    OtherEvent(a.s.log, Resumed(e.runtime, e.slot), base);
    if x.delay != 0 { PlusIsNotReached(t, x.delay); }
  }

  lemma {:induction false} FinishOnce(a: Pass, g: nat, t: uint32, young: set<nat>, base: nat)
    requires Inv(a.s) && Once(a.s, young, base, t) && g < |a.s.runtimes| && Ready(a.s, g)
    ensures Once(Finish(a, g).s, young, base, t)
  {
    hide Sound;
    FinishKeeps(a, g);
    OtherEvent(a.s.log, Finished(g), base);
  }

  lemma {:induction false} CompleteOnce(a: Pass, g: nat, t: uint32, young: set<nat>, base: nat) returns (next: set<nat>)
    requires Inv(a.s) && Once(a.s, young, base, t) && g < |a.s.runtimes| && Ready(a.s, g)
    ensures Once(Complete(a, g, t).s, next, base, t)
  {
    hide Sound, ClearFrom, Restarts;
    CompleteKeeps(a, g, t);
    var r := a.s.runtimes[g];
    next := young;
    if r.repeats != 0 && r.boundary {
      CanRestart(a.s.prog, a.s.runtimes, a.s.executing, g);
      QuietGroup(a.s.prog, a.s.runtimes, a.s.executing, g);
      next := young + {g};
      forall h: nat ensures Restarts(a.s.log + [Restarted(g)], base, h) <= if h in next then 1 else 0 {
        AppendRestarts(a.s.log, Restarted(g), base, h);
      }
    } else {
      var b := a.(progressed := true);
      OtherEvent(a.s.log, Failed(NoBoundary), base);
      FinishOnce(if r.repeats != 0 then Fail(b, NoBoundary, InvalidProgram) else b, g, t, young, base);
    }
  }

  lemma {:induction false} ConsumeOnce(s: Ctl, g: nat, t: uint32, young: set<nat>, base: nat)
    requires Inv(s) && Once(s, young, base, t) && g < |s.runtimes| && HasDue(s, g, t)
    ensures Once(Consume(s, g, t), young, base, t)
  {
    hide Sound, Restarts;
    var k := s.runtimes[g].cursor;
    if Mark(s.prog, g, k) > 0 {
      ObserveAvoids(s.runtimes, g, |s.runtimes|, young);
    }
    OtherEvent(s.log, Dispatched(g, At(s.prog, g, k), Since(t, s.runtimes[g].startTime)), base);
  }

  lemma {:induction false} LaunchOnce(s: Ctl, g: nat, h: nat, t: uint32, repeats: uint16, young: set<nat>, base: nat)
    requires Inv(s) && Once(s, young, base, t) && g < |s.runtimes| && h < |s.runtimes| && CanLaunch(s, g, h)
    requires s.runtimes[g].active
    ensures Once(Launch(s, g, h, t, repeats), young + {h}, base, t)
  {
    hide Restarts, ClearFrom;
    OtherEvent(s.log, Started(h, repeats), base);
    forall i | 0 <= i < |s.runtimes| && s.runtimes[i].active ensures s.runtimes[i].parent != h {
      assert LinkedAt(s.prog, s.runtimes, i);
    }
    forall i | 0 <= i < |s.executing| ensures s.executing[i].runtime != h {
      EntryIsCounted(s, i);
    }
  }

  lemma {:induction false} RunOnce(a: Pass, g: nat, i: nat, t: uint32, x: Effect, young: set<nat>, base: nat)
    requires Shaped(a.s) && Once(a.s, young, base, t) && g < |a.s.runtimes| && i < |a.s.prog.code| && x.delay < HALF_RANGE
    requires RunWith(a, g, i, t, x).s.log == a.s.log
    ensures Once(RunWith(a, g, i, t, x).s, young, base, t)
  {
    hide Restarts;
    if x.delay != 0 { PlusIsNotReached(t, x.delay); }
  }

  lemma {:induction false} DispatchOnce(a: Pass, g: nat, t: uint32, young: set<nat>, base: nat) returns (next: set<nat>)
    requires Inv(a.s) && Once(a.s, young, base, t) && g < |a.s.runtimes| && HasDue(a.s, g, t)
    ensures Once(Dispatch(a, g, t).s, next, base, t)
  {
    hide Sound, Execute, ClearFrom, Observe, Unbounded, Restarts;
    DispatchKeeps(a, g, t);
    ConsumeKeeps(a.s, g, t);
    ConsumeOnce(a.s, g, t, young, base);
    next := young;
    var p, c := a.s.prog, Pass(Consume(a.s, g, t), a.status, true);
    var i := At(p, g, a.s.runtimes[g].cursor);
    if !p.code[i].op.RunGroup? {
      RunOnce(c, g, i, t, Execute(p.code[i], c.s.mem[i], t, c.s.strip, c.s.period), young, base);
    } else if a.s.runtimes[Target(p, i)].active {
      OtherEvent(c.s.log, Failed(AlreadyRunning), base);
    } else {
      next := young + {Target(p, i)};
      LaunchOnce(c.s, g, Target(p, i), t, p.code[i].op.repeats, young, base);
    }
  }

  lemma {:induction false} ApplyOnce(a: Pass, m: Move, t: uint32, young: set<nat>, base: nat) returns (next: set<nat>)
    requires Inv(a.s) && Once(a.s, young, base, t) && Enabled(a.s, m, t)
    ensures Once(Apply(a, m, t).s, next, base, t)
  {
    hide Once, Sound, Execute, Complete, Dispatch, ResumeWith;
    match m
    case Resuming(i) =>
      var e := a.s.executing[i];
      ResumeOnce(a, i, t, Execute(a.s.prog.code[e.slot], a.s.mem[e.slot], t, a.s.strip, a.s.period), young, base);
      next := young;
    case Completing(g) => next := CompleteOnce(a, g, t, young, base);
    case Dispatching(g) => next := DispatchOnce(a, g, t, young, base);
  }

  lemma {:induction false} RunsOnce(a: Pass, ms: seq<Move>, t: uint32, young: set<nat>, base: nat) returns (next: set<nat>)
    requires Inv(a.s) && Once(a.s, young, base, t) && EnabledAll(a, ms, t)
    ensures Once(ApplyAll(a, ms, t).s, next, base, t)
    decreases |ms|
  {
    hide Once, Sound, Shaped, Apply, Enabled;
    if ms == [] {
      next := young;
    } else {
      ApplyKeeps(a, ms[0], t);
      next := ApplyOnce(a, ms[0], t, young, base);
      next := RunsOnce(Apply(a, ms[0], t), ms[1..], t, next, base);
    }
  }

  /** Forever repeats included, a group makes at most one repeat transition per tick. */
  lemma {:induction false} OneRepeatPerTick(s: Ctl, t: uint32, g: nat)
    requires s.phase == Active && Inv(s)
    ensures |s.log| <= |Run(s, t).s.log| && Restarts(Run(s, t).s.log, |s.log|, g) <= 1
  {
    hide Sound, Settle;
    var a := Pass(s.(show := false, timeout := 0), Success, false);
    var ms := SettleIsRun(a.s, Success, t);
    var young := RunsOnce(a, ms, t, {}, |s.log|);
  }

  // ----- Status ----------------------------------------------------------------------------

  function StatusOf(f: Fault): Status {
    match f
    case AlreadyRunning => AlreadyActiveGroup
    case TimedCapacity => CapacityExhausted
    case _ => InvalidProgram
  }

  /** Status of the first fault in `events`. */
  function FirstFault(events: seq<Event>): Status {
    if events == [] then Success
    else if events[0].Failed? then StatusOf(events[0].fault)
    else FirstFault(events[1..])
  }

  lemma {:induction false} FirstFaultJoin(a: seq<Event>, b: seq<Event>)
    ensures FirstFault(a + b) == Latch(FirstFault(a), FirstFault(b))
  {
    if a == [] {
      assert a + b == b;
    } else {
      assert (a + b)[1..] == a[1..] + b;
      if !a[0].Failed? { FirstFaultJoin(a[1..], b); }
    }
  }

  /** `b` follows `a` by logging `events` and latching their first fault. */
  predicate Logs(a: Pass, b: Pass, events: seq<Event>) {
    b.s.log == a.s.log + events && b.status == Latch(a.status, FirstFault(events))
  }

  function Code(e: Event): Status {
    if e.Failed? then StatusOf(e.fault) else Success
  }

  lemma {:induction false} OneEvent(a: Pass, b: Pass, e: Event)
    requires b.s.log == a.s.log + [e] && b.status == Latch(a.status, Code(e))
    ensures Logs(a, b, [e])
  {
    assert [e][1..] == [];
  }

  lemma {:induction false} TwoEvents(a: Pass, b: Pass, e: Event, f: Event)
    requires b.s.log == a.s.log + [e] + [f] && b.status == Latch(Latch(a.status, Code(e)), Code(f))
    ensures Logs(a, b, [e] + [f])
  {
    FirstFaultJoin([e], [f]);
    assert [e][1..] == [] && [f][1..] == [];
    assert a.s.log + [e] + [f] == a.s.log + ([e] + [f]);
  }

  lemma {:induction false} CompleteLogs(a: Pass, g: nat, t: uint32) returns (events: seq<Event>)
    requires Inv(a.s) && g < |a.s.runtimes| && Ready(a.s, g)
    ensures Logs(a, Complete(a, g, t), events)
  {
    hide Sound, Complete, Logs;
    CompleteKeeps(a, g, t);
    var r, b := a.s.runtimes[g], Complete(a, g, t);
    if r.repeats != 0 && r.boundary {
      OneEvent(a, b, Restarted(g));
      events := [Restarted(g)];
    } else if r.repeats != 0 {
      TwoEvents(a, b, Failed(NoBoundary), Finished(g));
      events := [Failed(NoBoundary)] + [Finished(g)];
    } else {
      OneEvent(a, b, Finished(g));
      events := [Finished(g)];
    }
  }

  lemma {:induction false} DispatchLogs(a: Pass, g: nat, t: uint32) returns (events: seq<Event>)
    requires Inv(a.s) && g < |a.s.runtimes| && HasDue(a.s, g, t)
    ensures Logs(a, Dispatch(a, g, t), events)
  {
    hide Sound, Dispatch, ClearFrom, Observe, Logs;
    DispatchKeeps(a, g, t);
    var p, b := a.s.prog, Dispatch(a, g, t);
    var i := At(p, g, a.s.runtimes[g].cursor);
    var picked := Dispatched(g, i, Since(t, a.s.runtimes[g].startTime));
    if !p.code[i].op.RunGroup? {
      OneEvent(a, b, picked);
      events := [picked];
    } else {
      var h := Target(p, i);
      var next := if a.s.runtimes[h].active then Failed(AlreadyRunning) else Started(h, p.code[i].op.repeats);
      TwoEvents(a, b, picked, next);
      events := [picked] + [next];
    }
  }

  lemma {:induction false} ApplyLogs(a: Pass, m: Move, t: uint32) returns (events: seq<Event>)
    requires Inv(a.s) && Enabled(a.s, m, t)
    ensures Logs(a, Apply(a, m, t), events)
  {
    hide Logs, Sound, Execute, Complete, Dispatch, ResumeWith;
    match m
    case Resuming(i) =>
      var e := a.s.executing[i];
      var x := Execute(a.s.prog.code[e.slot], a.s.mem[e.slot], t, a.s.strip, a.s.period);
      ResumeKeeps(a, i, t, x);
      events := [Resumed(e.runtime, e.slot)];
      OneEvent(a, ResumeWith(a, i, t, x), events[0]);
    case Completing(g) => events := CompleteLogs(a, g, t);
    case Dispatching(g) => events := DispatchLogs(a, g, t);
  }

  lemma {:induction false} RunsLog(a: Pass, ms: seq<Move>, t: uint32) returns (events: seq<Event>)
    requires Inv(a.s) && EnabledAll(a, ms, t)
    ensures Logs(a, ApplyAll(a, ms, t), events)
    decreases |ms|
  {
    hide Sound, Shaped, Apply, Enabled, FirstFault;
    if ms == [] {
      events := [];
      NoFault();
    } else {
      ApplyKeeps(a, ms[0], t);
      var first := ApplyLogs(a, ms[0], t);
      var rest := RunsLog(Apply(a, ms[0], t), ms[1..], t);
      FirstFaultJoin(first, rest);
      events := first + rest;
    }
  }

  lemma {:induction false} NoFault()
    ensures FirstFault([]) == Success
  {
  }

  /** A tick reports the first fault it logged, and success when it logged none. */
  lemma {:induction false} TickStatus(s: Ctl, t: uint32)
    requires s.phase == Active && Inv(s)
    ensures var r := Run(s, t);
      s.log <= r.s.log && r.status == FirstFault(r.s.log[|s.log|..])
  {
    hide Sound, Settle, FirstFault;
    var a := Pass(s.(show := false, timeout := 0), Success, false);
    var ms := SettleIsRun(a.s, Success, t);
    var events := RunsLog(a, ms, t);
    assert Run(s, t).s.log[|s.log|..] == events;
  }
}
