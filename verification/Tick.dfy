/** A tick is a run of enabled atomic steps that ends in quiescence. */
module Tick {
  import opened Clock
  import opened Instructions
  import opened Program
  import opened Scheduler
  import opened Invariant
  import opened Termination

  /** The atomic steps of a tick. */
  datatype Move = Resuming(entry: nat) | Completing(group: nat) | Dispatching(group: nat)

  /** Everything due lies at a depth below `depth`, or at `depth` from index `g` on. */
  predicate DueFrom(s: Ctl, depth: nat, g: nat, t: uint32)
    requires Shaped(s)
  {
    forall h :: 0 <= h < |s.runtimes| && HasDue(s, h, t) ==>
      s.runtimes[h].depth < depth || (s.runtimes[h].depth == depth && g <= h)
  }

  /** A dispatch is only taken from the deepest group with due work, the lowest index first:
      children before their parents. */
  predicate Enabled(s: Ctl, m: Move, t: uint32)
    requires Shaped(s)
  {
    match m
    case Resuming(i) => i < |s.executing| && !Stale(s, s.executing[i]) && Reached(t, s.executing[i].deadline)
    case Completing(g) => g < |s.runtimes| && Ready(s, g)
    case Dispatching(g) => g < |s.runtimes| && HasDue(s, g, t) && DueFrom(s, s.runtimes[g].depth, g, t)
  }

  function Apply(a: Pass, m: Move, t: uint32): (r: Pass)
    requires Shaped(a.s) && Enabled(a.s, m, t)
    ensures Shaped(r.s) && r.s.prog == a.s.prog
  {
    match m
    case Resuming(i) => Resume(a, i, t)
    case Completing(g) => Complete(a, g, t)
    case Dispatching(g) => Dispatch(a, g, t)
  }

  /** Each step of `ms` is enabled when its turn comes. */
  predicate EnabledAll(a: Pass, ms: seq<Move>, t: uint32)
    requires Shaped(a.s)
    decreases |ms|
  {
    ms == [] || (Enabled(a.s, ms[0], t) && EnabledAll(Apply(a, ms[0], t), ms[1..], t))
  }

  function ApplyAll(a: Pass, ms: seq<Move>, t: uint32): (r: Pass)
    requires Shaped(a.s) && EnabledAll(a, ms, t)
    ensures Shaped(r.s) && r.s.prog == a.s.prog
    decreases |ms|
  {
    if ms == [] then a else ApplyAll(Apply(a, ms[0], t), ms[1..], t)
  }

  // ----- Runs of steps ---------------------------------------------------------------

  /** Every enabled step keeps the invariant and lowers the measure. */
  lemma {:induction false} ApplyKeeps(a: Pass, m: Move, t: uint32)
    requires Inv(a.s) && Enabled(a.s, m, t)
    ensures var b := Apply(a, m, t);
      Inv(b.s) && b.progressed && b.s.prog == a.s.prog && Falls(MeasureOf(a.s, t), MeasureOf(b.s, t))
  {
    hide Complete, Dispatch, ResumeWith, Execute, MeasureOf;
    match m
    case Resuming(i) =>
      var e := a.s.executing[i];
      var x := Execute(a.s.prog.code[e.slot], a.s.mem[e.slot], t, a.s.strip, a.s.period);
      ResumeKeeps(a, i, t, x);
      ResumeFalls(a, i, t, x);
    case Completing(g) =>
      CompleteFalls(a, g, t);
      CompleteKeeps(a, g, t);
    case Dispatching(g) =>
      DispatchFalls(a, g, t);
      DispatchKeeps(a, g, t);
  }

  lemma {:induction false} RunKeepsInv(a: Pass, ms: seq<Move>, t: uint32)
    requires Inv(a.s) && EnabledAll(a, ms, t)
    ensures var b := ApplyAll(a, ms, t);
      && Inv(b.s) && b.progressed == (a.progressed || ms != [])
      && (ms != [] ==> Falls(MeasureOf(a.s, t), MeasureOf(b.s, t)))
    decreases |ms|
  {
    hide Apply, MeasureOf, Sound, Shaped, Enabled;
    if ms != [] {
      ApplyKeeps(a, ms[0], t);
      RunKeepsInv(Apply(a, ms[0], t), ms[1..], t);
    }
  }

  lemma {:induction false} Join(a: Pass, ms: seq<Move>, ns: seq<Move>, t: uint32)
    requires Shaped(a.s) && EnabledAll(a, ms, t) && EnabledAll(ApplyAll(a, ms, t), ns, t)
    ensures EnabledAll(a, ms + ns, t) && ApplyAll(a, ms + ns, t) == ApplyAll(ApplyAll(a, ms, t), ns, t)
    decreases |ms|
  {
    hide Apply, Enabled, Shaped;
    if ms == [] {
      assert ms + ns == ns;
    } else {
      assert (ms + ns)[1..] == ms[1..] + ns;
      Join(Apply(a, ms[0], t), ms[1..], ns, t);
    }
  }

  lemma {:induction false} Prepend(a: Pass, m: Move, ms: seq<Move>, t: uint32)
    requires Shaped(a.s) && Enabled(a.s, m, t) && EnabledAll(Apply(a, m, t), ms, t)
    ensures EnabledAll(a, [m] + ms, t) && ApplyAll(a, [m] + ms, t) == ApplyAll(Apply(a, m, t), ms, t)
  {
    hide Apply, Enabled, Shaped;
    assert ([m] + ms)[1..] == ms;
  }

  // ----- The loops as runs of steps -----------------------------------------------------

  /** No entry from `i` on is due. */
  predicate NoneDueFrom(s: Ctl, i: nat, t: uint32) {
    forall j :: i <= j < |s.executing| ==> !Reached(t, s.executing[j].deadline)
  }

  lemma {:induction false} DrainIsRun(a: Pass, i: nat, t: uint32) returns (ms: seq<Move>)
    requires Inv(a.s)
    ensures EnabledAll(a, ms, t) && DrainFrom(a, i, t) == ApplyAll(a, ms, t)
    ensures ms == [] ==> NoneDueFrom(a.s, i, t)
    decreases if i < |a.s.executing| then |a.s.executing| - i else 0
  {
    hide Sound, Shaped, ResumeWith, Resume;
    if i >= |a.s.executing| {
      ms := [];
    } else {
      EntryIsCounted(a.s, i);
      if !Reached(t, a.s.executing[i].deadline) {
        ms := DrainIsRun(a, i + 1, t);
      } else {
        var b := Resume(a, i, t);
        ApplyKeeps(a, Resuming(i), t);
        assert b == Apply(a, Resuming(i), t);
        ResumeSize(a, i, t);
        var rest := DrainIsRun(b, if |b.s.executing| == |a.s.executing| then i + 1 else i, t);
        Prepend(a, Resuming(i), rest, t);
        ms := [Resuming(i)] + rest;
      }
    }
  }

  lemma {:induction false} ResumeSize(a: Pass, i: nat, t: uint32)
    requires Shaped(a.s) && i < |a.s.executing| && !Stale(a.s, a.s.executing[i])
    ensures var n := |Resume(a, i, t).s.executing|; n == |a.s.executing| || n == |a.s.executing| - 1
  {
    hide Execute, Observe;
  }

  lemma {:induction false} CompleteIsRun(a: Pass, g: nat, t: uint32) returns (ms: seq<Move>)
    requires Inv(a.s) && g <= |a.s.runtimes|
    ensures EnabledAll(a, ms, t) && CompleteFrom(a, g, t) == ApplyAll(a, ms, t)
    ensures ms == [] ==> forall h :: g <= h < |a.s.runtimes| ==> !Ready(a.s, h)
    decreases |a.s.runtimes| - g
  {
    hide Sound, Complete;
    if g == |a.s.runtimes| {
      ms := [];
    } else if Ready(a.s, g) {
      ApplyKeeps(a, Completing(g), t);
      var rest := CompleteIsRun(Complete(a, g, t), g + 1, t);
      Prepend(a, Completing(g), rest, t);
      ms := [Completing(g)] + rest;
    } else {
      ms := CompleteIsRun(a, g + 1, t);
    }
  }

  /** Without a launch, a dispatch from `g` leaves every other group's due work as it was. */
  lemma {:induction false} DispatchIsLocal(a: Pass, g: nat, t: uint32)
    requires Inv(a.s) && g < |a.s.runtimes| && HasDue(a.s, g, t) && !StopsPick(a.s, g)
    ensures var b := Dispatch(a, g, t).s; forall h :: 0 <= h < |b.runtimes| && HasDue(b, h, t) ==>
      b.runtimes[h].depth == a.s.runtimes[h].depth && HasDue(a.s, h, t)
  {
    hide Dispatch, Enlisted;
    DispatchKeeps(a, g, t);
    DispatchMoves(a, g, t);
    var b := Dispatch(a, g, t).s;
    forall h | 0 <= h < |b.runtimes| && !a.s.runtimes[h].active ensures !b.runtimes[h].active {
      assert Ranked(a.s.prog, Rank(a.s.prog));
    }
  }

  lemma {:induction false} PickRuntimeIsRun(a: Pass, g: nat, t: uint32) returns (ms: seq<Move>)
    requires Inv(a.s) && g < |a.s.runtimes| && DueFrom(a.s, a.s.runtimes[g].depth, g, t)
    ensures EnabledAll(a, ms, t) && PickRuntime(a, g, t).a == ApplyAll(a, ms, t)
    ensures ms == [] ==> !PickRuntime(a, g, t).stop
    ensures !PickRuntime(a, g, t).stop ==> DueFrom(PickRuntime(a, g, t).a.s, a.s.runtimes[g].depth, g + 1, t)
    decreases if a.s.runtimes[g].cursor < Count(a.s.prog, g) then Count(a.s.prog, g) - a.s.runtimes[g].cursor else 0
  {
    hide Sound, Dispatch, StopsPick;
    if !HasDue(a.s, g, t) {
      ms := [];
    } else {
      ApplyKeeps(a, Dispatching(g), t);
      DispatchAdvances(a, g, t);
      var b, rest := Dispatch(a, g, t), [];
      if !StopsPick(a.s, g) {
        DispatchIsLocal(a, g, t);
        DispatchMoves(a, g, t);
        rest := PickRuntimeIsRun(b, g, t);
      }
      Prepend(a, Dispatching(g), rest, t);
      ms := [Dispatching(g)] + rest;
    }
  }

  lemma {:induction false} PickDepthIsRun(a: Pass, depth: nat, g: nat, t: uint32) returns (ms: seq<Move>)
    requires Inv(a.s) && g <= |a.s.runtimes| && DueFrom(a.s, depth, g, t)
    ensures EnabledAll(a, ms, t) && PickDepth(a, depth, g, t).a == ApplyAll(a, ms, t)
    ensures ms == [] ==> !PickDepth(a, depth, g, t).stop
    ensures var p := PickDepth(a, depth, g, t); !p.stop ==> DueFrom(p.a.s, depth, |p.a.s.runtimes|, t)
    decreases |a.s.runtimes| - g
  {
    hide Sound, PickRuntime, Apply, Enabled, MeasureOf;
    if g == |a.s.runtimes| {
      ms := [];
    } else {
      var r, first, p := a.s.runtimes[g], [], Picked(a, false);
      if r.active && r.depth == depth {
        first := PickRuntimeIsRun(a, g, t);
        p := PickRuntime(a, g, t);
      }
      RunKeepsInv(a, first, t);
      var rest := [];
      if !p.stop {
        rest := PickDepthIsRun(p.a, depth, g + 1, t);
      }
      Join(a, first, rest, t);
      ms := first + rest;
    }
  }

  lemma {:induction false} PickIsRun(a: Pass, depth: nat, t: uint32) returns (ms: seq<Move>)
    requires Inv(a.s) && DueFrom(a.s, depth, 0, t)
    requires forall h :: 0 <= h < |a.s.runtimes| && HasDue(a.s, h, t) ==> a.s.runtimes[h].depth < depth
    ensures EnabledAll(a, ms, t) && PickFrom(a, depth, t) == ApplyAll(a, ms, t)
    ensures ms == [] ==> forall h :: 0 <= h < |a.s.runtimes| ==> !HasDue(a.s, h, t)
    decreases depth
  {
    hide Sound, Shaped, PickDepth, HasDue, Apply, Enabled, MeasureOf;
    if depth == 0 {
      ms := [];
    } else {
      var p := PickDepth(a, depth - 1, 0, t);
      var first := PickDepthIsRun(a, depth - 1, 0, t);
      RunKeepsInv(a, first, t);
      var rest := [];
      if !p.stop {
        rest := PickIsRun(p.a, depth - 1, t);
      }
      Join(a, first, rest, t);
      ms := first + rest;
    }
  }

  // ----- The whole tick --------------------------------------------------------------------

  /** No work is possible at `t`: nothing due, nothing ready. */
  ghost predicate Quiescent(s: Ctl, t: uint32)
    requires Shaped(s)
  {
    && NoneDueFrom(s, 0, t)
    && (forall g :: 0 <= g < |s.runtimes| ==> !Ready(s, g))
    && (forall g :: 0 <= g < |s.runtimes| ==> !HasDue(s, g, t))
  }

  /** One round is a run of steps, and an idle round means quiescence. */
  lemma {:induction false} RoundIsRun(s: Ctl, status: Status, t: uint32) returns (ms: seq<Move>)
    requires Inv(s)
    ensures var a := Pass(s, status, false);
      EnabledAll(a, ms, t) && Round(s, status, t) == ApplyAll(a, ms, t) && (ms == [] ==> Quiescent(s, t))
  {
    hide Sound, Shaped, DrainFrom, CompleteFrom, PickFrom, HasDue, Ready, Apply, MeasureOf;
    var a := Pass(s, status, false);
    var drained := DrainIsRun(a, 0, t);
    RunKeepsInv(a, drained, t);
    var b := DrainFrom(a, 0, t);
    var completed := CompleteIsRun(b, 0, t);
    RunKeepsInv(b, completed, t);
    var c := CompleteFrom(b, 0, t);
    DepthIsBounded(c.s, t);
    var picked := PickIsRun(c, |c.s.prog.groups|, t);
    Join(b, completed, picked, t);
    Join(a, drained, completed + picked, t);
    ms := drained + (completed + picked);
  }

  lemma {:induction false} DepthIsBounded(s: Ctl, t: uint32)
    requires Inv(s)
    ensures forall h :: 0 <= h < |s.runtimes| && HasDue(s, h, t) ==> s.runtimes[h].depth < |s.prog.groups|
    ensures DueFrom(s, |s.prog.groups|, 0, t)
  {
    forall g | 0 <= g < |s.runtimes| ensures s.runtimes[g].depth < |s.prog.groups| {
      assert LinkedAt(s.prog, s.runtimes, g);
    }
  }

  lemma {:induction false} RoundFalls(s: Ctl, status: Status, t: uint32)
    requires Inv(s)
    ensures var r := Round(s, status, t);
      && Inv(r.s)
      && (if r.progressed then Falls(MeasureOf(s, t), MeasureOf(r.s, t))
          else r == Pass(s, status, false) && Quiescent(s, t))
  {
    hide Round, MeasureOf, Sound, Quiescent;
    var ms := RoundIsRun(s, status, t);
    RunKeepsInv(Pass(s, status, false), ms, t);
  }

  /** The tick's loop. It terminates because every round with progress lowers the measure. */
  function Settle(s: Ctl, status: Status, t: uint32): (r: Pass)
    requires Inv(s)
    ensures Inv(r.s) && Quiescent(r.s, t)
    decreases MeasureOf(s, t).due, MeasureOf(s, t).marks, MeasureOf(s, t).flags, MeasureOf(s, t).load
  {
    RoundFalls(s, status, t);
    var r := Round(s, status, t);
    if r.progressed then Settle(r.s, r.status, t) else r
  }

  /** A quiescent state is left as it is. */
  lemma {:induction false} QuiescentSettles(s: Ctl, status: Status, t: uint32)
    requires Inv(s) && Quiescent(s, t)
    ensures Settle(s, status, t) == Pass(s, status, false)
  {
    hide Round, MeasureOf, Sound, Shaped, Apply;
    var ms := RoundIsRun(s, status, t);
  }

  lemma {:induction false} ApplyIgnoresFlag(a: Pass, b: Pass, m: Move, t: uint32)
    requires Shaped(a.s) && Enabled(a.s, m, t) && a.s == b.s && a.status == b.status
    ensures Apply(a, m, t) == Apply(b, m, t)
  {
    hide Execute, Observe, ClearFrom, Shaped;
  }

  lemma {:induction false} RunIgnoresFlag(a: Pass, b: Pass, ms: seq<Move>, t: uint32)
    requires Shaped(a.s) && EnabledAll(a, ms, t) && a.s == b.s && a.status == b.status
    ensures EnabledAll(b, ms, t)
    ensures ApplyAll(a, ms, t).s == ApplyAll(b, ms, t).s && ApplyAll(a, ms, t).status == ApplyAll(b, ms, t).status
  {
    hide Apply, Shaped, Enabled;
    if ms != [] {
      ApplyIgnoresFlag(a, b, ms[0], t);
    }
  }

  /** A whole tick is one run of enabled steps. */
  lemma {:induction false} SettleIsRun(s: Ctl, status: Status, t: uint32) returns (ms: seq<Move>)
    requires Inv(s)
    ensures EnabledAll(Pass(s, status, false), ms, t)
    ensures var b := ApplyAll(Pass(s, status, false), ms, t);
      b.s == Settle(s, status, t).s && b.status == Settle(s, status, t).status
    decreases MeasureOf(s, t).due, MeasureOf(s, t).marks, MeasureOf(s, t).flags, MeasureOf(s, t).load
  {
    hide Sound, Shaped, Round, Apply, Enabled;
    var a := Pass(s, status, false);
    RoundFalls(s, status, t);
    ms := RoundIsRun(s, status, t);
    var r := Round(s, status, t);
    if r.progressed {
      var rest := SettleIsRun(r.s, r.status, t);
      RunIgnoresFlag(Pass(r.s, r.status, false), r, rest, t);
      Join(a, ms, rest, t);
      ms := ms + rest;
    }
  }

  /** The state in which step `k` of a run is taken. */
  function StateAt(a: Pass, ms: seq<Move>, k: nat, t: uint32): (r: Pass)
    requires Shaped(a.s) && EnabledAll(a, ms, t) && k <= |ms|
    ensures Shaped(r.s) && r.s.prog == a.s.prog
    decreases k
  {
    if k == 0 then a else StateAt(Apply(a, ms[0], t), ms[1..], k - 1, t)
  }

  lemma {:induction false} StepIsEnabled(a: Pass, ms: seq<Move>, k: nat, t: uint32)
    requires Inv(a.s) && EnabledAll(a, ms, t) && k < |ms|
    ensures Inv(StateAt(a, ms, k, t).s) && Enabled(StateAt(a, ms, k, t).s, ms[k], t)
    decreases k
  {
    hide Sound, Shaped, Apply, Enabled;
    if k > 0 {
      ApplyKeeps(a, ms[0], t);
      StepIsEnabled(Apply(a, ms[0], t), ms[1..], k - 1, t);
    }
  }

  /** Group `g` has work due, and no active group deeper than it does. */
  predicate DeepestDue(s: Ctl, g: nat, t: uint32)
    requires Shaped(s)
  {
    && g < |s.runtimes| && HasDue(s, g, t)
    && forall h :: 0 <= h < |s.runtimes| && HasDue(s, h, t) ==> s.runtimes[h].depth <= s.runtimes[g].depth
  }

  /** Children before parents: a tick from any sound state is a run of atomic steps in which
      a group only dispatches while no active group deeper than it has a due instruction. */
  lemma {:induction false} ChildrenBeforeParents(s: Ctl, t: uint32) returns (ms: seq<Move>)
    requires Inv(s)
    ensures EnabledAll(Pass(s, Success, false), ms, t)
    ensures ApplyAll(Pass(s, Success, false), ms, t).s == Settle(s, Success, t).s
    ensures forall k :: 0 <= k < |ms| && ms[k].Dispatching? ==>
      DeepestDue(StateAt(Pass(s, Success, false), ms, k, t).s, ms[k].group, t)
  {
    hide Sound, EnabledAll, ApplyAll, Settle;
    ms := SettleIsRun(s, Success, t);
    forall k | 0 <= k < |ms| && ms[k].Dispatching?
      ensures DeepestDue(StateAt(Pass(s, Success, false), ms, k, t).s, ms[k].group, t)
    {
      StepIsEnabled(Pass(s, Success, false), ms, k, t);
    }
  }

  /** What no step of a tick touches. */
  predicate SameSetup(a: Ctl, b: Ctl) {
    b.prog == a.prog && b.timeout == a.timeout && b.period == a.period && |b.strip| == |a.strip|
  }

  lemma {:induction false} ResumeKeepsSetup(a: Pass, i: nat, t: uint32)
    requires Shaped(a.s) && i < |a.s.executing| && !Stale(a.s, a.s.executing[i])
    ensures SameSetup(a.s, Resume(a, i, t).s)
  {
    hide Execute, Observe, Shaped;
  }

  lemma {:induction false} CompleteKeepsSetup(a: Pass, g: nat, t: uint32)
    requires Shaped(a.s) && g < |a.s.runtimes| && Ready(a.s, g)
    ensures SameSetup(a.s, Complete(a, g, t).s)
  {
    hide ClearFrom, Shaped;
  }

  lemma {:induction false} DispatchKeepsSetup(a: Pass, g: nat, t: uint32)
    requires Shaped(a.s) && g < |a.s.runtimes| && HasDue(a.s, g, t)
    ensures SameSetup(a.s, Dispatch(a, g, t).s)
  {
    hide Execute, Observe, ClearFrom, Shaped;
  }

  lemma {:induction false} ApplyKeepsSetup(a: Pass, m: Move, t: uint32)
    requires Shaped(a.s) && Enabled(a.s, m, t)
    ensures SameSetup(a.s, Apply(a, m, t).s)
  {
    hide Resume, Complete, Dispatch, Shaped;
    match m
    case Resuming(i) => ResumeKeepsSetup(a, i, t);
    case Completing(g) => CompleteKeepsSetup(a, g, t);
    case Dispatching(g) => DispatchKeepsSetup(a, g, t);
  }

  lemma {:induction false} RunKeepsSetup(a: Pass, ms: seq<Move>, t: uint32)
    requires Shaped(a.s) && EnabledAll(a, ms, t)
    ensures SameSetup(a.s, ApplyAll(a, ms, t).s)
    decreases |ms|
  {
    hide Apply, Shaped, Enabled;
    if ms != [] {
      ApplyKeepsSetup(a, ms[0], t);
      RunKeepsSetup(Apply(a, ms[0], t), ms[1..], t);
    }
  }

  lemma {:induction false} RunKeepsPhase(a: Pass, ms: seq<Move>, t: uint32)
    requires Shaped(a.s) && EnabledAll(a, ms, t)
    ensures var b := ApplyAll(a, ms, t).s; b.phase == a.s.phase || b.phase == Completed
    decreases |ms|
  {
    hide Apply, Shaped, Enabled;
    if ms != [] {
      ApplyKeepsPhase(a, ms[0], t);
      RunKeepsPhase(Apply(a, ms[0], t), ms[1..], t);
    }
  }

  lemma {:induction false} ApplyKeepsPhase(a: Pass, m: Move, t: uint32)
    requires Shaped(a.s) && Enabled(a.s, m, t)
    ensures var b := Apply(a, m, t).s; b.phase == a.s.phase || b.phase == Completed
  {
    hide Execute, Observe, ClearFrom, Shaped;
  }

  /** State and status after one call of the controller's `Run`. */
  datatype Ran = Ran(s: Ctl, status: Status)

  function Run(s: Ctl, t: uint32): (r: Ran)
    requires s.phase == Active ==> Inv(s)
  {
    if s.phase != Active then Ran(s, Success)
    else
      var r := Settle(s.(show := false, timeout := 0), Success, t);
      Ran(Arm(r.s, t), r.status)
  }

  /** Quiescence does not depend on the output fields. */
  lemma {:induction false} SameQuiet(a: Ctl, b: Ctl, t: uint32)
    requires Shaped(a) && Shaped(b) && a.prog == b.prog && a.runtimes == b.runtimes && a.executing == b.executing
    ensures Quiescent(a, t) == Quiescent(b, t)
  {
    assert forall g :: 0 <= g < |a.runtimes| ==> Ready(a, g) == Ready(b, g) && HasDue(a, g, t) == HasDue(b, g, t);
  }

  lemma {:induction false} RunKeepsAll(s: Ctl, t: uint32)
    requires s.phase == Active && Inv(s)
    ensures Inv(Run(s, t).s) && Quiescent(Run(s, t).s, t)
  {
    hide Sound, Settle;
    var r := Settle(s.(show := false, timeout := 0), Success, t);
    SameQuiet(r.s, Arm(r.s, t), t);
  }
}
