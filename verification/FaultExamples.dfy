/** Accepted programs at the edge of the fault conditions. */
module FaultExamples {
  import opened Clock
  import opened Oklab
  import opened Instructions
  import opened Program
  import opened Scheduler
  import opened Invariant
  import opened Tick
  import opened GroupTable
  import opened IndexPool
  import opened CompiledProgram
  import opened CallGraph
  import opened Repeats
  import opened Launching
  import opened Wrap
  import opened Grading
  import opened Faultless
  import opened Unsteady
  import opened FaultFree
  import opened Traces
  import opened Nested
  import MarkOrder
  import Preflight

  // ----- Unrolling a tick ------------------------------------------------------------------

  lemma {:induction false} OneMoreRound(s: Ctl, status: Status, t: uint32)
    requires Inv(s) && Round(s, status, t).progressed
    ensures Inv(Round(s, status, t).s)
    ensures Settle(s, status, t) == Settle(Round(s, status, t).s, Round(s, status, t).status, t)
  {
    hide Round, Sound;
    RoundFalls(s, status, t);
  }

  /** The rest of a tick only adds to the log and keeps a latched fault. */
  lemma {:induction false} SettleGrows(s: Ctl, status: Status, t: uint32)
    requires Inv(s)
    ensures s.log <= Settle(s, status, t).s.log
    ensures status != Success ==> Settle(s, status, t).status == status
  {
    hide Settle, Sound, FirstFault;
    var ms := SettleIsRun(s, status, t);
    var events := RunsLog(Pass(s, status, false), ms, t);
  }

  /** A tick of a launched program. */
  lemma {:induction false} FirstTick(s: Ctl, p: Program, t0: uint32, repeats: uint16, t: uint32)
    requires Runnable(p) && |s.mem| == |p.code| && Count(p, 0) > 0
    ensures var first := Launched(s, p, t0, repeats);
      && Inv(first) && first.phase == Active && first.executing == [] && first.log == [Started(0, repeats)] && first.prog == p
      && |first.runtimes| == |p.groups| && first.runtimes[0] == Rt(0, t0, repeats, 0, 0, MAX_GROUPS, 0)
      && (forall g :: 0 < g < |p.groups| ==> first.runtimes[g] == RESET)
      && !first.show && first.timeout == 0 && |first.strip| == |s.strip|
      && Run(first, t).s.log == Settle(first, Success, t).s.log && Run(first, t).status == Settle(first, Success, t).status
      && RunFrom(s, p, t0, repeats, [t]) == [Run(first, t)]
  {
    hide Sound, ClearFrom, Settle, ArmMarks, ArmEntries;
    LaunchedIsSound(s, p, t0, repeats);
    var first := Launched(s, p, t0, repeats);
    assert first.(show := false, timeout := 0) == first;
    OneRun(first, t);
  }

  // ----- One target, two launches, and it waits --------------------------------------------

  const WAITING: Op := Fade(50, 100, 0)

  lemma {:induction false} NestedIsAccepted(last: Op, n: uint16)
    requires !last.RunGroup? && (n != 0 ==> HasPositiveBoundary(last))
    ensures Accepted(Prog(last, n), 0) && !SoleCaller(Source(last, n))
  {
    hide Compiled, Runnable, Reaches, Preflight.Valid;
    ProgIsCompiled(last, n);
    ProgRuns(last, n);
    SourceIsValid(last, n);
    var code := Source(last, n);
    assert IsCall(code[1], 0, 2);
    CallReaches(code, 0, 2);
    assert Launches(code, code[0]) && Launches(code, code[2]);
  }

  lemma {:induction false} NestedIsSteady(n: uint16, leds: nat)
    requires leds > 0
    ensures SteadyProgram(Source(WAITING, n), leds, 0)
  {
    hide Reaches, Played;
    var code := Source(WAITING, n);
    assert EffectIn(code[3], leds, 1);
    assert IsCall(code[2], 2, 1);
    CallReaches(code, 2, 1);
    assert Effective(code, leds, 2);
  }

  /** A steady program with two launches of a waiting target: it is accepted, and its first
      tick reports the target as running and then a repeat without a boundary. */
  lemma {:induction false} SharedTargetFails(s: Ctl, t0: uint32, t: uint32)
    requires |s.mem| == 4 && |s.strip| > 0
    ensures var p := Prog(WAITING, 1);
      && Accepted(p, 0) && SteadyProgram(p.code, |s.strip|, 0) && !SoleCaller(p.code)
      && var r := RunFrom(s, p, t0, 0, [t])[0];
         r.status == AlreadyActiveGroup
         && exists before :: before + [Failed(AlreadyRunning)] + [Failed(NoBoundary)] <= r.s.log
  {
    hide Accepted, SteadyProgram, SoleCaller, Sound, Settle, Round, RunFrom, Launched, Run;
    var p := Prog(WAITING, 1);
    NestedIsAccepted(WAITING, 1);
    NestedIsSteady(1, |s.strip|);
    ProgRuns(WAITING, 1);
    FirstTick(s, p, t0, 0, t);
    var s0 := Launched(s, p, t0, 0);
    assert s0.runtimes == [Rt(0, t0, 0, 0, 0, MAX_GROUPS, 0), RESET, RESET];
    Round1(s0, WAITING, 1, t0, t);
    OneMoreRound(s0, Success, t);
    var s1 := Round(s0, Success, t).s;
    TargetWaits(s, t0, t);
    Round2(s1, WAITING, 1, t0, t);
    OneMoreRound(s1, Success, t);
    var s2 := Round(s1, Success, t).s;
    PlusIsNotReached(t, EffectOf(s1, 2, t).delay);
    Round3Busy(s2, WAITING, 1, t0, t);
    OneMoreRound(s2, Success, t);
    var s3 := Round(s2, Success, t).s;
    Round4Busy(s3, WAITING, 1, t0, t);
    OneMoreRound(s3, AlreadyActiveGroup, t);
    var s4 := Round(s3, AlreadyActiveGroup, t).s;
    SettleGrows(s4, AlreadyActiveGroup, t);
    var before := s2.log + [Dispatched(1, 2, Since(t, t))];
    assert s4.log == before + [Failed(AlreadyRunning)] + [Failed(NoBoundary)] + [Finished(1)];
    assert before + [Failed(AlreadyRunning)] + [Failed(NoBoundary)] <= s4.log;
  }

  lemma {:induction false} TargetWaits(s: Ctl, t0: uint32, t: uint32)
    requires |s.mem| == 4 && |s.strip| > 0
    requires Runnable(Prog(WAITING, 1)) && Inv(Launched(s, Prog(WAITING, 1), t0, 0))
    requires var s1 := Round(Launched(s, Prog(WAITING, 1), t0, 0), Success, t).s;
      Is(s1, WAITING, 1, [Rt(1, t0, 0, 0, 1, MAX_GROUPS, 0), RESET, Rt(0, t, 0, 0, 0, 0, 1)])
    ensures 0 < EffectOf(Round(Launched(s, Prog(WAITING, 1), t0, 0), Success, t).s, 2, t).delay < HALF_RANGE
  {
    hide Sound, Core, Flags, Graded, Round, Launched, Runnable, Effective, Played, Accepted;
    var p, q := Prog(WAITING, 1), GradeOf(Prog(WAITING, 1), |s.strip|);
    NestedIsAccepted(WAITING, 1);
    GradeIsGraded(p, 0, |s.strip|);
    LaunchedBase(s, p, t0, 0, q);
    LaunchedProgram(s, p, t0, 0);
    RoundBase(Launched(s, p, t0, 0), q, Success, t);
    ProgSlots(WAITING, 1);
    EffectDelays(Round(Launched(s, p, t0, 0), Success, t).s, q, 2, t);
  }

  lemma {:induction false} LaunchedProgram(s: Ctl, p: Program, t: uint32, repeats: uint16)
    requires Runnable(p) && |s.mem| == |p.code|
    ensures Launched(s, p, t, repeats).prog == p
  {
  }

  // ----- One target, two launches, and it does not wait ------------------------------------

  const INSTANT: Op := SetSingle(Rgb(255, 0, 0), 0)

  lemma {:induction false} InstantNeverWaits(s: Ctl, t: uint32)
    requires Shaped(s) && s.prog == Prog(INSTANT, 0) && s.runtimes[2].cursor == 0
    ensures EffectOf(s, 2, t).delay == 0
  {
    ProgSlots(INSTANT, 0);
  }

  /** The whole first tick: everything runs and ends, without a fault. */
  lemma {:induction false} InstantTick(s: Ctl, t0: uint32, t: uint32)
    requires |s.mem| == 4
    ensures Runnable(Prog(INSTANT, 0))
    ensures Inv(Launched(s, Prog(INSTANT, 0), t0, 0)) && Launched(s, Prog(INSTANT, 0), t0, 0).phase == Active
    ensures var r := Run(Launched(s, Prog(INSTANT, 0), t0, 0), t);
      r.status == Success && Faultfree(r.s.log) && r.s.phase != Active
  {
    hide Sound, Settle, Round, Launched, EffectOf, Released, Run;
    ProgRuns(INSTANT, 0);
    FirstTick(s, Prog(INSTANT, 0), t0, 0, t);
    var s0 := Launched(s, Prog(INSTANT, 0), t0, 0);
    assert s0.runtimes == [Rt(0, t0, 0, 0, 0, MAX_GROUPS, 0), RESET, RESET];
    Round1(s0, INSTANT, 0, t0, t);
    OneMoreRound(s0, Success, t);
    var s1 := Round(s0, Success, t).s;
    InstantNeverWaits(s1, t);
    Round2(s1, INSTANT, 0, t0, t);
    OneMoreRound(s1, Success, t);
    var s2 := Round(s1, Success, t).s;
    Round3Free(s2, INSTANT, t0, t);
    OneMoreRound(s2, Success, t);
    var s3 := Round(s2, Success, t).s;
    InstantNeverWaits(s3, t);
    Round4Free(s3, INSTANT, t0, t);
    OneMoreRound(s3, Success, t);
    var s4 := Round(s3, Success, t).s;
    InstantEnds(s4, t0, t);
    TickPhase(s0, t);
  }

  lemma {:induction false} TickPhase(s: Ctl, t: uint32)
    requires Inv(s) && s.phase == Active && !s.show && s.timeout == 0
    ensures Run(s, t).s.phase == Settle(s, Success, t).s.phase
  {
    hide Settle, Sound, ArmMarks, ArmEntries;
    assert s.(show := false, timeout := 0) == s;
  }

  /** The three groups end one after the other. */
  lemma {:induction false} InstantEnds(s: Ctl, t0: uint32, t: uint32)
    requires s.executing == [] && Faultfree(s.log)
    requires Is(s, INSTANT, 0, [Rt(2, t0, 0, 0, 1, MAX_GROUPS, 0), Rt(1, t, 0, 0, 1, 0, 1), Rt(1, t, 0, 0, 0, 1, 2)])
    ensures var r := Settle(s, Success, t); r.status == Success && Faultfree(r.s.log) && r.s.phase != Active
  {
    hide Sound, Settle, Round;
    var one := [Rt(2, t0, 0, 0, 1, MAX_GROUPS, 0), Rt(1, t, 0, 0, 0, 0, 1), RESET];
    var two := [Rt(2, t0, 0, 0, 0, MAX_GROUPS, 0), RESET, RESET];
    var none := [RESET, RESET, RESET];
    EndRound(s, INSTANT, 2, one, t);
    OneMoreRound(s, Success, t);
    var s1 := Round(s, Success, t).s;
    EndRound(s1, INSTANT, 1, two, t);
    OneMoreRound(s1, Success, t);
    var s2 := Round(s1, Success, t).s;
    EndRound(s2, INSTANT, 0, none, t);
    OneMoreRound(s2, Success, t);
    QuiescentSettles(Round(s2, Success, t).s, Success, t);
  }

  /** Distinct targets are not necessary: this accepted program launches one target twice and
      never fails, at whatever times it is started and ticked. */
  lemma {:induction false} SharedTargetCanBeFine(s: Ctl, t0: uint32, ts: seq<uint32>, i: nat)
    requires |s.mem| == 4 && i < |ts|
    ensures var p := Prog(INSTANT, 0);
      && Accepted(p, 0) && !SoleCaller(p.code)
      && RunFrom(s, p, t0, 0, ts)[i].status == Success && Faultfree(RunFrom(s, p, t0, 0, ts)[i].s.log)
  {
    hide Sound, Run, Launched, Compiled, Preflight.Valid, SoleCaller;
    NestedIsAccepted(INSTANT, 0);
    InstantTick(s, t0, ts[0]);
    var first := Launched(s, Prog(INSTANT, 0), t0, 0);
    RunKeepsAll(first, ts[0]);
    if i > 0 { StaysFine(Run(first, ts[0]).s, ts[1..], i - 1); }
  }

  lemma {:induction false} StaysFine(s: Ctl, ts: seq<uint32>, i: nat)
    requires s.phase != Active && Faultfree(s.log) && i < |ts|
    ensures Runs(s, ts)[i].status == Success && Faultfree(Runs(s, ts)[i].s.log)
    decreases |ts|
  {
    NotActiveStays(s, ts[0]);
    if i > 0 { StaysFine(s, ts[1..], i - 1); }
  }

  // ----- A repeated group whose wait has no LED --------------------------------------------

  /** The root repeats group 1, whose only instruction fades an LED the strip does not have. */
  const OUTSIDE: seq<Code> := [Code(0, 0, true, RunGroup(1, 1)), Code(0, 1, true, Fade(50, 100, 200))]
  const OUTSIDE_PROGRAM: Program := Program(OUTSIDE, [GroupRecord(0, 0, 1), GroupRecord(1, 1, 1)], [0, 1])

  lemma {:induction false} TwoMembers(code: seq<Code>)
    requires |code| == 2 && code[0].group == 0 && code[1].group == 1
    ensures Members(code, 0, 2) == [0] && Members(code, 1, 2) == [1]
  {
    assert Members(code, 0, 1) == [0] && Members(code, 1, 1) == [];
  }

  lemma {:induction false} OneIsSorted(code: seq<Code>, x: nat)
    requires x < |code|
    ensures MarkOrder.SortByMark(code, [x]) == [x]
  {
    assert [x][..0] == [];
  }

  lemma {:induction false} TableOfTwo(code: seq<Code>, groups: seq<GroupRecord>)
    requires |code| == 2 && code[0].group == 0 && code[1].group == 1
    requires groups == [GroupRecord(0, 0, 1), GroupRecord(1, 1, 1)]
    ensures TableFor(code, groups, 2) && LaidOut(groups)
    ensures SortedMembers(code, 0) == [0] && SortedMembers(code, 1) == [1]
  {
    hide Members, MarkOrder.SortByMark;
    TwoMembers(code);
    OneIsSorted(code, 0);
    OneIsSorted(code, 1);
    assert groups[0].id == 0 && groups[1].id == 1;
    assert Before(groups, 1) == 1;
  }

  lemma {:induction false} OutsideIsCompiled()
    ensures Compiled(OUTSIDE_PROGRAM) && InRange(OUTSIDE_PROGRAM) && Distinct(OUTSIDE_PROGRAM)
    ensures Calls(OUTSIDE_PROGRAM, 0, 0, 1) && At(OUTSIDE_PROGRAM, 0, 0) == 0 && At(OUTSIDE_PROGRAM, 1, 0) == 1
  {
    hide TableFor, LaidOut, SortedMembers, Distinct;
    var p := OUTSIDE_PROGRAM;
    TableOfTwo(OUTSIDE, p.groups);
    assert p.pool[0..1] == [0] && p.pool[1..2] == [1];
    PoolInRange(p);
    PoolDistinct(p);
    assert FindFrom(p.groups, 1, 1) == 1;
  }

  lemma {:induction false} OutsideIsAccepted()
    ensures Accepted(OUTSIDE_PROGRAM, 0) && SoleCaller(OUTSIDE)
  {
    hide Compiled, Distinct, InRange, FindGroup;
    var p := OUTSIDE_PROGRAM;
    OutsideIsCompiled();
    RankedIsAcyclic(OUTSIDE, id => if id == 0 then 1 else 0);
    assert OUTSIDE[1].group == 1 && Preflight.BoundaryOf(OUTSIDE[1], 1);
    assert Ranked(p, [1, 0]);
  }

  /** Only group 0 calls, and only group 1. */
  lemma {:induction false} OutsideIsIdle(leds: nat)
    requires leds <= 200
    ensures !Effective(OUTSIDE, leds, 1)
  {
    if other :| Reaches(OUTSIDE, 1, other) && OwnsEffect(OUTSIDE, leds, other) {
      var i := FirstCall(OUTSIDE, 1, other);
    }
  }

  /** An accepted program with distinct targets that is not steady: its first tick reports a
      repeat without a boundary. */
  lemma {:induction false} MissingLedFails(s: Ctl, t0: uint32, t: uint32)
    requires |s.mem| == 2 && |s.strip| <= 200
    ensures var p := OUTSIDE_PROGRAM;
      && Accepted(p, 0) && SoleCaller(p.code) && !Effective(p.code, |s.strip|, 1)
      && Failed(NoBoundary) in RunFrom(s, p, t0, 0, [t])[0].s.log
  {
    hide Compiled, Preflight.Valid, Distinct, Ranked, Sound, Settle, Round, Launched, Run, Fated, Graded, BegunBy, Effective, Played, Dispatch, PickFrom, FindGroup;
    var p, q := OUTSIDE_PROGRAM, GradeOf(OUTSIDE_PROGRAM, |s.strip|);
    OutsideIsAccepted();
    OutsideIsCompiled();
    OutsideIsIdle(|s.strip|);
    GradeIsGraded(p, 0, |s.strip|);
    LaunchedFated(s, p, t0, 0, q);
    FirstTick(s, p, t0, 0, t);
    var s0 := Launched(s, p, t0, 0);
    var a := Pass(s0, Success, false);
    PickRound(s0, Success, t);
    LaunchStep(a, 0, 1, t);
    PickTakes(a, 2, 0, t);
    OneMoreRound(s0, Success, t);
    var s1 := Round(s0, Success, t).s;
    SettleGrows(s1, Success, t);
    var log := Run(s0, t).s.log;
    assert log[2] == Started(1, 1);
    TickFails(s0, q, t, 1);
  }
}
