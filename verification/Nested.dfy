/** Two launches of one target, from the root and from a child: whether it fails depends on
    whether the target waits. */
module Nested {
  import opened Clock
  import opened Oklab
  import opened Instructions
  import opened Program
  import opened Scheduler
  import opened Invariant
  import opened Tick
  import opened MarkOrder
  import opened GroupTable
  import opened IndexPool
  import opened CompiledProgram
  import opened CallGraph
  import opened Grading
  import opened Traces
  import Preflight

  /** The root launches groups 1 and 2, and group 2 launches group 1 again. */
  function Source(last: Op, repeats: uint16): seq<Code> {
    [Code(0, 0, true, RunGroup(1, 0)), Code(0, 0, true, RunGroup(2, repeats)), Code(0, 2, true, RunGroup(1, 0)), Code(0, 1, true, last)]
  }

  /** Its compiled form: groups 0, 2 and 1, in order of appearance. */
  function Prog(last: Op, repeats: uint16): Program {
    Program(Source(last, repeats), [GroupRecord(0, 0, 2), GroupRecord(2, 2, 1), GroupRecord(1, 3, 1)], [0, 1, 2, 3])
  }

  // ----- It is accepted --------------------------------------------------------------------

  /** Calls that lower a rank form no cycle. */
  lemma {:induction false} RankedPath(code: seq<Code>, rank: uint32 -> nat, nodes: seq<uint32>)
    requires forall i :: 0 <= i < |code| && code[i].op.RunGroup? ==> rank(code[i].op.target) < rank(code[i].group)
    requires IsPath(code, nodes) && |nodes| > 1
    ensures rank(nodes[|nodes| - 1]) < rank(nodes[0])
    decreases |nodes|
  {
    assert CallsLabel(code, nodes[0], nodes[1]);
    var i :| 0 <= i < |code| && IsCall(code[i], nodes[0], nodes[1]);
    if |nodes| > 2 {
      var rest := nodes[1..];
      forall k | 0 <= k < |rest| - 1 ensures CallsLabel(code, rest[k], rest[k + 1]) {
        assert CallsLabel(code, nodes[k + 1], nodes[k + 1 + 1]);
      }
      RankedPath(code, rank, rest);
    }
  }

  lemma {:induction false} RankedIsAcyclic(code: seq<Code>, rank: uint32 -> nat)
    requires forall i :: 0 <= i < |code| && code[i].op.RunGroup? ==> rank(code[i].op.target) < rank(code[i].group)
    ensures forall id :: !Reaches(code, id, id)
  {
    forall id | Reaches(code, id, id) ensures false {
      var nodes :| Joins(code, nodes, id, id);
      RankedPath(code, rank, nodes);
    }
  }

  lemma {:induction false} SourceIsValid(last: Op, repeats: uint16)
    requires !last.RunGroup? && (repeats != 0 ==> HasPositiveBoundary(last))
    ensures Preflight.Valid(Source(last, repeats), 0)
  {
    var code := Source(last, repeats);
    RankedIsAcyclic(code, id => if id == 0 then 2 else if id == 2 then 1 else 0);
    assert code[2].group == 2 && code[3].group == 1;
    assert IsCall(code[2], 2, 1);
    CallReaches(code, 2, 1);
    if repeats != 0 {
      assert Preflight.BoundaryOf(code[3], 1);
      assert Preflight.Bounded(code, 2);
    }
  }

  lemma {:induction false} MembersAre(code: seq<Code>)
    requires |code| == 4 && code[0].group == 0 && code[1].group == 0 && code[2].group == 2 && code[3].group == 1
    ensures Members(code, 0, 4) == [0, 1] && Members(code, 2, 4) == [2] && Members(code, 1, 4) == [3]
  {
    assert Members(code, 0, 1) == [0] && Members(code, 2, 1) == [] && Members(code, 1, 1) == [];
    assert Members(code, 0, 2) == [0, 1] && Members(code, 2, 2) == [] && Members(code, 1, 2) == [];
    assert Members(code, 0, 3) == [0, 1] && Members(code, 2, 3) == [2] && Members(code, 1, 3) == [];
  }

  lemma {:induction false} SortsAre(code: seq<Code>)
    requires |code| == 4 && code[0].mark == 0 && code[1].mark == 0
    ensures SortByMark(code, [0, 1]) == [0, 1] && SortByMark(code, [2]) == [2] && SortByMark(code, [3]) == [3]
  {
    assert [0, 1][..1] == [0] && [0][..0] == [] && [2][..0] == [] && [3][..0] == [];
    assert SortByMark(code, [0]) == [0];
  }

  lemma {:induction false} ProgTable(last: Op, repeats: uint16)
    ensures TableFor(Source(last, repeats), Prog(last, repeats).groups, 4)
  {
    hide Members;
    var code, groups := Source(last, repeats), Prog(last, repeats).groups;
    MembersAre(code);
    assert groups[0].id == 0 && groups[1].id == 2 && groups[2].id == 1;
  }

  lemma {:induction false} ProgRanges(last: Op, repeats: uint16)
    ensures LaidOut(Prog(last, repeats).groups)
    ensures var p := Prog(last, repeats);
      forall g :: 0 <= g < |p.groups| ==> RangeIs(p.groups[g], p.pool, SortedMembers(p.code, p.groups[g].id))
  {
    hide Members, SortByMark;
    var p := Prog(last, repeats);
    MembersAre(p.code);
    SortsAre(p.code);
    assert p.pool[0..2] == [0, 1] && p.pool[2..3] == [2] && p.pool[3..4] == [3];
    assert Before(p.groups, 1) == 2 && Before(p.groups, 2) == 3;
  }

  lemma {:induction false} ProgTargets(last: Op, repeats: uint16)
    ensures var p := Prog(last, repeats); Target(p, 0) == 2 && Target(p, 1) == 1 && Target(p, 2) == 2
  {
    var groups := Prog(last, repeats).groups;
    assert FindFrom(groups, 1, 1) == FindFrom(groups, 2, 1) == 2;
    assert FindFrom(groups, 1, 2) == 1;
  }

  lemma {:induction false} ProgIsCompiled(last: Op, repeats: uint16)
    ensures Compiled(Prog(last, repeats)) && InRange(Prog(last, repeats)) && Distinct(Prog(last, repeats))
  {
    hide TableFor, LaidOut, RangeIs, SortedMembers, InRange, Distinct;
    ProgTable(last, repeats);
    ProgRanges(last, repeats);
    PoolInRange(Prog(last, repeats));
    PoolDistinct(Prog(last, repeats));
  }

  /** The slots of the three groups. */
  lemma {:induction false} ProgSlots(last: Op, repeats: uint16)
    ensures var p := Prog(last, repeats);
      InRange(p) && At(p, 0, 0) == 0 && At(p, 0, 1) == 1 && At(p, 1, 0) == 2 && At(p, 2, 0) == 3
  {
  }

  lemma {:induction false} ProgRuns(last: Op, repeats: uint16)
    requires !last.RunGroup?
    ensures Runnable(Prog(last, repeats))
  {
    hide Compiled, Distinct, FindGroup;
    var p, rank := Prog(last, repeats), [2, 1, 0];
    ProgIsCompiled(last, repeats);
    ProgTargets(last, repeats);
    forall g: nat, k: nat, h: nat | Calls(p, g, k, h) ensures 0 < h < 3 && rank[h] < rank[g] {
      ProgSlots(last, repeats);
    }
    assert Ranked(p, rank);
  }

  // ----- Its first tick --------------------------------------------------------------------

  /** The record of an active group that has met no boundary. */
  function Rt(cursor: nat, start: uint32, repeats: uint16, entries: nat, children: nat, parent: nat, depth: nat): Runtime {
    Runtime(true, cursor, start, repeats, entries, children, false, parent, depth)
  }

  ghost predicate Is(s: Ctl, last: Op, repeats: uint16, rts: seq<Runtime>) {
    Inv(s) && s.prog == Prog(last, repeats) && s.runtimes == rts
  }

  /** A round in which nothing is drained and nothing completes. */
  lemma {:induction false} PickRound(s: Ctl, status: Status, t: uint32)
    requires Inv(s) && forall j :: 0 <= j < |s.executing| ==> !Reached(t, s.executing[j].deadline)
    requires forall f :: 0 <= f < |s.runtimes| ==> !Ready(s, f)
    ensures Round(s, status, t) == PickFrom(Pass(s, status, false), |s.prog.groups|, t)
  {
    hide Sound, Ready, PickFrom;
    DrainIdles(Pass(s, status, false), 0, t);
    CompleteNone(Pass(s, status, false), t);
  }

  /** The root launches group 1. */
  lemma {:induction false} Round1(s: Ctl, last: Op, n: uint16, t0: uint32, t: uint32)
    requires !last.RunGroup? && Is(s, last, n, [Rt(0, t0, 0, 0, 0, MAX_GROUPS, 0), RESET, RESET]) && s.executing == []
    ensures var r := Round(s, Success, t);
      && Is(r.s, last, n, [Rt(1, t0, 0, 0, 1, MAX_GROUPS, 0), RESET, Rt(0, t, 0, 0, 0, 0, 1)])
      && r.s.executing == [] && r.status == Success && r.progressed && s.log <= r.s.log
      && r.s.log == s.log + [Dispatched(0, 0, Since(t, t0))] + [Started(2, 0)]
  {
    hide Sound, PickFrom, Dispatch, FindGroup, StopsPick;
    ProgSlots(last, n);
    ProgTargets(last, n);
    PickRound(s, Success, t);
    var a := Pass(s, Success, false);
    LaunchStep(a, 0, 2, t);
    PickTakes(a, 3, 0, t);
  }

  /** Group 1 runs its instruction and the root launches group 2. */
  lemma {:induction false} Round2(s: Ctl, last: Op, n: uint16, t0: uint32, t: uint32)
    requires !last.RunGroup? && s.executing == []
    requires Is(s, last, n, [Rt(1, t0, 0, 0, 1, MAX_GROUPS, 0), RESET, Rt(0, t, 0, 0, 0, 0, 1)])
    ensures var r, d := Round(s, Success, t), EffectOf(s, 2, t).delay;
      && Is(r.s, last, n, [Rt(2, t0, 0, 0, 2, MAX_GROUPS, 0), Rt(0, t, n, 0, 0, 0, 1), Rt(1, t, 0, if d > 0 then 1 else 0, 0, 0, 1)])
      && r.s.executing == (if d > 0 then [Entry(3, 2, Plus(t, d))] else []) && r.status == Success && r.progressed
      && r.s.log == s.log + [Dispatched(2, 3, Since(t, t))] + [Dispatched(0, 1, Since(t, t0))] + [Started(1, n)]
  {
    hide Sound, PickFrom, Dispatch, FindGroup, StopsPick, Execute, Since, Plus;
    ProgSlots(last, n);
    ProgTargets(last, n);
    PickRound(s, Success, t);
    var a := Pass(s, Success, false);
    RunStep(a, 2, t);
    PickTakes(a, 3, 2, t);
    var b := Dispatch(a, 2, t);
    LaunchStep(b, 0, 1, t);
    PickTakes(b, 2, 0, t);
  }

  // ----- With a target that waits ----------------------------------------------------------

  /** Group 2 finds its target running. */
  lemma {:induction false} Round3Busy(s: Ctl, last: Op, n: uint16, t0: uint32, t: uint32)
    requires !last.RunGroup? && forall j :: 0 <= j < |s.executing| ==> !Reached(t, s.executing[j].deadline)
    requires Is(s, last, n, [Rt(2, t0, 0, 0, 2, MAX_GROUPS, 0), Rt(0, t, n, 0, 0, 0, 1), Rt(1, t, 0, 1, 0, 0, 1)])
    ensures var r := Round(s, Success, t);
      && Is(r.s, last, n, [Rt(2, t0, 0, 0, 2, MAX_GROUPS, 0), Rt(1, t, n, 0, 0, 0, 1), Rt(1, t, 0, 1, 0, 0, 1)])
      && r.s.executing == s.executing && r.status == AlreadyActiveGroup && r.progressed
      && r.s.log == s.log + [Dispatched(1, 2, Since(t, t))] + [Failed(AlreadyRunning)]
  {
    hide Sound, PickFrom, Dispatch, FindGroup, StopsPick, Since, Reached;
    ProgSlots(last, n);
    ProgTargets(last, n);
    PickRound(s, Success, t);
    var a := Pass(s, Success, false);
    BusyStep(a, 1, 2, t);
    PickTakes(a, 3, 1, t);
    PickIdles(Dispatch(a, 1, t), 2, t);
  }

  /** Group 2 is done without having met a boundary. */
  lemma {:induction false} Round4Busy(s: Ctl, last: Op, n: uint16, t0: uint32, t: uint32)
    requires !last.RunGroup? && n != 0 && forall j :: 0 <= j < |s.executing| ==> !Reached(t, s.executing[j].deadline)
    requires Is(s, last, n, [Rt(2, t0, 0, 0, 2, MAX_GROUPS, 0), Rt(1, t, n, 0, 0, 0, 1), Rt(1, t, 0, 1, 0, 0, 1)])
    ensures var r := Round(s, AlreadyActiveGroup, t);
      r.progressed && r.status == AlreadyActiveGroup && Inv(r.s) && r.s.log == s.log + [Failed(NoBoundary)] + [Finished(1)]
  {
    hide Sound, PickFrom, Complete, Reached;
    var a := Pass(s, AlreadyActiveGroup, false);
    DrainIdles(a, 0, t);
    EndStep(a, 1, t);
    CompleteOne(a, 1, t);
    PickIdles(Complete(a, 1, t), 3, t);
  }

  // ----- With a target that does not wait --------------------------------------------------

  predicate Faultfree(log: seq<Event>) {
    forall j :: 0 <= j < |log| ==> !log[j].Failed?
  }

  ghost predicate Fine(r: Pass, last: Op, rts: seq<Runtime>) {
    Is(r.s, last, 0, rts) && r.s.executing == [] && r.status == Success && r.progressed && Faultfree(r.s.log)
  }

  /** Group 1 ends and group 2 launches it again. */
  lemma {:induction false} Round3Free(s: Ctl, last: Op, t0: uint32, t: uint32)
    requires !last.RunGroup? && s.executing == [] && Faultfree(s.log)
    requires Is(s, last, 0, [Rt(2, t0, 0, 0, 2, MAX_GROUPS, 0), Rt(0, t, 0, 0, 0, 0, 1), Rt(1, t, 0, 0, 0, 0, 1)])
    ensures Fine(Round(s, Success, t), last, [Rt(2, t0, 0, 0, 1, MAX_GROUPS, 0), Rt(1, t, 0, 0, 1, 0, 1), Rt(0, t, 0, 0, 0, 1, 2)])
  {
    hide Sound, PickFrom, Complete, Dispatch, FindGroup, StopsPick;
    ProgSlots(last, 0);
    ProgTargets(last, 0);
    var a := Pass(s, Success, false);
    DrainIdles(a, 0, t);
    EndStep(a, 2, t);
    CompleteOne(a, 2, t);
    var b := Complete(a, 2, t);
    LaunchStep(b, 1, 2, t);
    PickTakes(b, 3, 1, t);
  }

  /** Group 1 runs its instruction. */
  lemma {:induction false} Round4Free(s: Ctl, last: Op, t0: uint32, t: uint32)
    requires !last.RunGroup? && s.executing == [] && Faultfree(s.log)
    requires Is(s, last, 0, [Rt(2, t0, 0, 0, 1, MAX_GROUPS, 0), Rt(1, t, 0, 0, 1, 0, 1), Rt(0, t, 0, 0, 0, 1, 2)])
    requires EffectOf(s, 2, t).delay == 0
    ensures Fine(Round(s, Success, t), last, [Rt(2, t0, 0, 0, 1, MAX_GROUPS, 0), Rt(1, t, 0, 0, 1, 0, 1), Rt(1, t, 0, 0, 0, 1, 2)])
  {
    hide Sound, PickFrom, Dispatch, FindGroup, StopsPick, Execute;
    ProgSlots(last, 0);
    PickRound(s, Success, t);
    var a := Pass(s, Success, false);
    RunStep(a, 2, t);
    PickTakes(a, 3, 2, t);
    PickIdles(Dispatch(a, 2, t), 3, t);
  }

  /** Groups end one per round, children first. */
  lemma {:induction false} EndRound(s: Ctl, last: Op, g: nat, rts: seq<Runtime>, t: uint32)
    requires Inv(s) && s.prog == Prog(last, 0) && s.executing == [] && Faultfree(s.log) && g < 3
    requires Ready(s, g) && s.runtimes[g].repeats == 0 && !s.runtimes[g].boundary && rts == Released(s.runtimes, g)
    requires forall f :: 0 <= f < g ==> !Ready(s, f)
    requires forall f :: 0 <= f < 3 && rts[f].active ==> rts[f].cursor == Count(s.prog, f) && (g < f ==> rts[f].childCount > 0)
    ensures Fine(Round(s, Success, t), last, rts)
  {
    hide Sound, PickFrom, Complete, Released;
    var a := Pass(s, Success, false);
    DrainIdles(a, 0, t);
    EndStep(a, g, t);
    CompleteOne(a, g, t);
    PickIdles(Complete(a, g, t), 3, t);
  }
}
