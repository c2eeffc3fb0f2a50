/** When a program can fail at run time, in terms of its instructions and the strip's length. */
module FaultFree {
  import opened Clock
  import opened Oklab
  import opened Instructions
  import opened Program
  import opened Scheduler
  import opened Invariant
  import opened Tick
  import opened History
  import opened GroupTable
  import opened IndexPool
  import opened CompiledProgram
  import opened CallGraph
  import opened Launching
  import opened Wrap
  import opened Grading
  import opened Faultless
  import opened Unsteady
  import Preflight

  // ----- The conditions --------------------------------------------------------------------

  predicate EffectIn(c: Code, leds: nat, id: uint32) {
    c.group == id && (c.mark > 0 || Delays(c, leds))
  }

  /** The group labelled `id` owns a positive mark, or a bound timed instruction with a positive
      duration whose LED exists. */
  predicate OwnsEffect(code: seq<Code>, leds: nat, id: uint32) {
    exists i :: 0 <= i < |code| && EffectIn(code[i], leds, id)
  }

  /** The group or one it leads to owns an effect. */
  ghost predicate Effective(code: seq<Code>, leds: nat, id: uint32) {
    OwnsEffect(code, leds, id) || exists other :: Reaches(code, id, other) && OwnsEffect(code, leds, other)
  }

  /** The root is, or leads to, the group labelled `id`. */
  ghost predicate Played(code: seq<Code>, id: uint32) {
    id == 0 || Reaches(code, 0, id)
  }

  /** No two launches in play share a target. */
  ghost predicate SoleCaller(code: seq<Code>) {
    forall i, j :: 0 <= i < j < |code| && Launches(code, code[i]) && Launches(code, code[j]) ==>
      code[i].op.target != code[j].op.target
  }

  /** A launch in play. */
  ghost predicate Launches(code: seq<Code>, c: Code) {
    c.op.RunGroup? && Played(code, c.group)
  }

  ghost predicate SteadyAt(code: seq<Code>, leds: nat, c: Code) {
    Launches(code, c) && c.op.repeats != 0 ==> Effective(code, leds, c.op.target)
  }

  /** A repeated root and every target in play that is launched with repeats is effective. */
  ghost predicate SteadyProgram(code: seq<Code>, leds: nat, rootRepeats: uint16) {
    && (rootRepeats != 0 ==> Effective(code, leds, 0))
    && forall i :: 0 <= i < |code| ==> SteadyAt(code, leds, code[i])
  }

  /** What a successful start commits. */
  ghost predicate Accepted(p: Program, rootRepeats: uint16) {
    Compiled(p) && Runnable(p) && Preflight.Valid(p.code, rootRepeats)
  }

  // ----- From labels to group indexes ------------------------------------------------------

  ghost function GradeOf(p: Program, leds: nat): Grade {
    Grade(leds,
          set g: nat | g < |p.groups| && Effective(p.code, leds, p.groups[g].id),
          set g: nat | g < |p.groups| && Played(p.code, p.groups[g].id))
  }

  /** A launch between groups is a call between their labels. */
  lemma {:induction false} LabelsOfCall(p: Program, rootRepeats: uint16, g: nat, k: nat, h: nat)
    requires Accepted(p, rootRepeats) && Calls(p, g, k, h)
    ensures 0 < h < |p.groups| && IsCall(p.code[At(p, g, k)], p.groups[g].id, p.groups[h].id)
    ensures CallsLabel(p.code, p.groups[g].id, p.groups[h].id)
  {
    hide Compiled, FindGroup, Reaches, Preflight.Bounded, Distinct, Ranked;
    var i := At(p, g, k);
    PoolOrder(p, g);
    FindSpec(p.groups, p.code[i].op.target);
    Preflight.TargetIndex(p, i);
  }

  /** A call between labels is a launch between groups. */
  lemma {:induction false} CallOfLabels(p: Program, rootRepeats: uint16, i: nat) returns (g: nat, k: nat)
    requires Accepted(p, rootRepeats) && i < |p.code| && p.code[i].op.RunGroup?
    ensures g < |p.groups| && p.groups[g].id == p.code[i].group && k < Count(p, g) && At(p, g, k) == i
    ensures Calls(p, g, k, Target(p, i)) && Target(p, i) < |p.groups| && p.groups[Target(p, i)].id == p.code[i].op.target
  {
    hide Compiled, FindGroup, Reaches, Preflight.Bounded, Distinct, Ranked;
    g, k := PoolHolds(p, i);
    FindSpec(p.groups, p.code[i].op.target);
    Preflight.TargetIndex(p, i);
  }

  /** A chain of calls starts with one call. */
  lemma {:induction false} FirstCall(code: seq<Code>, a: uint32, b: uint32) returns (i: nat)
    requires Reaches(code, a, b)
    ensures i < |code| && code[i].op.RunGroup? && code[i].group == a
    ensures code[i].op.target == b || Reaches(code, code[i].op.target, b)
  {
    var nodes :| Joins(code, nodes, a, b);
    assert CallsLabel(code, nodes[0], nodes[1]);
    i :| 0 <= i < |code| && IsCall(code[i], nodes[0], nodes[1]);
    if |nodes| > 2 {
      var rest := nodes[1..];
      forall k | 0 <= k < |rest| - 1 ensures CallsLabel(code, rest[k], rest[k + 1]) {
        assert CallsLabel(code, nodes[k + 1], nodes[k + 1 + 1]);
      }
      assert Joins(code, rest, nodes[1], b);
    }
  }

  /** Calling an effective group is effective. */
  lemma {:induction false} CallerIsEffective(code: seq<Code>, leds: nat, a: uint32, b: uint32)
    requires CallsLabel(code, a, b) && Effective(code, leds, b)
    ensures Effective(code, leds, a)
  {
    hide Reaches, CallsLabel;
    CallReaches(code, a, b);
    if !OwnsEffect(code, leds, b) {
      var other :| Reaches(code, b, other) && OwnsEffect(code, leds, other);
      ReachesTransitive(code, a, b, other);
    }
  }

  lemma {:induction false} PromiseMeansEffective(p: Program, rootRepeats: uint16, leds: nat, g: nat, k: nat)
    requires Accepted(p, rootRepeats) && g < |p.groups| && k < Count(p, g) && Promising(p, GradeOf(p, leds), g, k)
    ensures g in GradeOf(p, leds).eff
  {
    hide Compiled, Reaches, Preflight.Valid, Distinct, Ranked, CallsLabel, FindGroup;
    var i := At(p, g, k);
    PoolOrder(p, g);
    if p.code[i].mark > 0 || Delays(p.code[i], leds) {
      assert EffectIn(p.code[i], leds, p.groups[g].id);
    } else {
      var h := Target(p, i);
      assert Calls(p, g, k, h);
      LabelsOfCall(p, rootRepeats, g, k, h);
      CallerIsEffective(p.code, leds, p.groups[g].id, p.groups[h].id);
    }
  }

  lemma {:induction false} EffectiveHasPromise(p: Program, rootRepeats: uint16, leds: nat, g: nat)
    requires Accepted(p, rootRepeats) && g < |p.groups| && g in GradeOf(p, leds).eff
    ensures SomePromise(p, GradeOf(p, leds), g, 0)
  {
    hide Compiled, Reaches, Preflight.Valid, Distinct, Ranked, FindGroup;
    var id, q := p.groups[g].id, GradeOf(p, leds);
    if OwnsEffect(p.code, leds, id) {
      var i :| 0 <= i < |p.code| && EffectIn(p.code[i], leds, id);
      var f, k := PoolHolds(p, i);
      LabelsDistinct(p, f, g);
      assert Promising(p, q, g, k);
    } else {
      var other :| Reaches(p.code, id, other) && OwnsEffect(p.code, leds, other);
      var i := FirstCall(p.code, id, other);
      var f, k := CallOfLabels(p, rootRepeats, i);
      LabelsDistinct(p, f, g);
      assert Effective(p.code, leds, p.code[i].op.target);
      assert Promising(p, q, g, k);
    }
  }

  lemma {:induction false} GradeIsGraded(p: Program, rootRepeats: uint16, leds: nat)
    requires Accepted(p, rootRepeats)
    ensures Graded(p, GradeOf(p, leds))
  {
    hide Accepted, Promising, GradeOf;
    InRangeOf(p, rootRepeats);
    forall g | 0 <= g < |p.groups| ensures g in GradeOf(p, leds).eff <==> SomePromise(p, GradeOf(p, leds), g, 0) {
      if g in GradeOf(p, leds).eff { EffectiveHasPromise(p, rootRepeats, leds, g); }
      if k :| 0 <= k < Count(p, g) && Promising(p, GradeOf(p, leds), g, k) {
        PromiseMeansEffective(p, rootRepeats, leds, g, k);
      }
    }
  }

  lemma {:induction false} InRangeOf(p: Program, rootRepeats: uint16)
    requires Accepted(p, rootRepeats)
    ensures InRange(p) && Runnable(p) && p.groups[0].id == 0
  {
  }

  lemma {:induction false} PlayedCall(code: seq<Code>, a: uint32, b: uint32)
    requires CallsLabel(code, a, b) && Played(code, a)
    ensures Played(code, b)
  {
    hide Reaches, CallsLabel;
    CallReaches(code, a, b);
    if a != 0 { ReachesTransitive(code, 0, a, b); }
  }

  /** The conditions on labels give those on groups. */
  lemma {:induction false} GradeFits(p: Program, rootRepeats: uint16, leds: nat)
    requires Accepted(p, rootRepeats) && SoleCaller(p.code) && SteadyProgram(p.code, leds, rootRepeats)
    ensures Fit(p, GradeOf(p, leds))
  {
    hide Accepted, Graded, Played, Effective, CallsLabel, IsCall;
    var q := GradeOf(p, leds);
    InRangeOf(p, rootRepeats);
    GradeIsGraded(p, rootRepeats, leds);
    RootIsPlayed(p);
    forall g: nat, k: nat, h: nat | g in q.play && Calls(p, g, k, h)
      ensures h in q.play && (p.code[At(p, g, k)].op.repeats != 0 ==> h in q.eff)
    {
      CallFits(p, rootRepeats, leds, g, k, h);
    }
    forall g: nat, k: nat, f: nat, j: nat, h: nat | g in q.play && f in q.play && Calls(p, g, k, h) && Calls(p, f, j, h)
      ensures g == f && k == j
    {
      OneLaunch(p, rootRepeats, leds, g, k, f, j, h);
    }
  }

  lemma {:induction false} RootIsPlayed(p: Program)
    requires |p.groups| > 0 && p.groups[0].id == 0
    ensures Played(p.code, p.groups[0].id)
  {
  }

  lemma {:induction false} CallFits(p: Program, rootRepeats: uint16, leds: nat, g: nat, k: nat, h: nat)
    requires Accepted(p, rootRepeats) && SteadyProgram(p.code, leds, rootRepeats)
    requires g in GradeOf(p, leds).play && Calls(p, g, k, h)
    ensures h in GradeOf(p, leds).play && (p.code[At(p, g, k)].op.repeats != 0 ==> h in GradeOf(p, leds).eff)
  {
    hide Compiled, Preflight.Valid, Distinct, Ranked, Played, Effective, CallsLabel, FindGroup;
    LabelsOfCall(p, rootRepeats, g, k, h);
    PlayedCall(p.code, p.groups[g].id, p.groups[h].id);
    assert SteadyAt(p.code, leds, p.code[At(p, g, k)]);
  }

  lemma {:induction false} OneLaunch(p: Program, rootRepeats: uint16, leds: nat, g: nat, k: nat, f: nat, j: nat, h: nat)
    requires Accepted(p, rootRepeats) && SoleCaller(p.code)
    requires g in GradeOf(p, leds).play && f in GradeOf(p, leds).play && Calls(p, g, k, h) && Calls(p, f, j, h)
    ensures g == f && k == j
  {
    hide Compiled, Preflight.Valid, Ranked, Played, Effective, CallsLabel, FindGroup;
    LabelsOfCall(p, rootRepeats, g, k, h);
    LabelsOfCall(p, rootRepeats, f, j, h);
    assert Launches(p.code, p.code[At(p, g, k)]) && Launches(p.code, p.code[At(p, f, j)]);
    assert At(p, g, k) == At(p, f, j);
  }

  // ----- Runs from a start -----------------------------------------------------------------

  /** States and statuses of the ticks `ts` after a start at `t`. */
  ghost function RunFrom(s: Ctl, p: Program, t: uint32, repeats: uint16, ts: seq<uint32>): (rs: seq<Ran>)
    requires Runnable(p) && |s.mem| == |p.code|
    ensures |rs| == |ts|
  {
    LaunchedIsSound(s, p, t, repeats);
    Runs(Launched(s, p, t, repeats), ts)
  }

  lemma {:induction false} LaunchedBase(s: Ctl, p: Program, t: uint32, repeats: uint16, q: Grade)
    requires Runnable(p) && |s.mem| == |p.code| && |s.strip| == q.leds
    ensures Base(Launched(s, p, t, repeats), q)
  {
    hide ClearFrom, Distinct, Ranked;
    ClearIdles(s.mem, p, 0, 0);
  }

  lemma {:induction false} LaunchedWell(s: Ctl, p: Program, t: uint32, repeats: uint16, q: Grade)
    requires Runnable(p) && |s.mem| == |p.code| && |s.strip| == q.leds && Fit(p, q) && (repeats != 0 ==> 0 in q.eff)
    ensures Well(Launched(s, p, t, repeats), q)
  {
    hide ClearFrom, Distinct, Ranked, Sound, HistOn, Core, Flags, Graded, Sole, Steady;
    LaunchedIsSound(s, p, t, repeats);
    LaunchedBase(s, p, t, repeats, q);
    var r := Launched(s, p, t, repeats);
    if r.phase == Active && 0 in q.eff { FreshPending(p, q, r.runtimes, 0); }
  }

  lemma {:induction false} RunsWell(s: Ctl, q: Grade, ts: seq<uint32>, i: nat)
    requires Well(s, q) && i < |ts|
    ensures Well(Runs(s, ts)[i].s, q) && Runs(s, ts)[i].status == Success
    decreases |ts|
  {
    hide Sound, Hist, Base, Fit, Good, SoundLog, Run;
    TickWell(s, q, ts[0]);
    if i > 0 { RunsWell(Run(s, ts[0]).s, q, ts[1..], i - 1); }
  }

  /** Success at every tick, no fault ever logged, and exactly the granted passes. */
  ghost predicate Flawless(rs: seq<Ran>) {
    forall i :: 0 <= i < |rs| ==> rs[i].status == Success && SoundLog(rs[i].s.log)
  }

  /** An accepted program whose launches in play have distinct targets, and whose repeated
      groups are effective, never reports a fault: at whatever times it is started and ticked,
      every tick succeeds, no fault is logged, and every activation that ends made exactly the
      granted number of passes. */
  lemma {:induction false} NeverFails(s: Ctl, p: Program, t: uint32, repeats: uint16, ts: seq<uint32>)
    requires Accepted(p, repeats) && |s.mem| == |p.code|
    requires SoleCaller(p.code) && SteadyProgram(p.code, |s.strip|, repeats)
    ensures Flawless(RunFrom(s, p, t, repeats, ts))
  {
    hide Compiled, Preflight.Valid, Fit, Effective, Launched, SoundLog;
    var q := GradeOf(p, |s.strip|);
    InRangeOf(p, repeats);
    GradeFits(p, repeats, |s.strip|);
    LaunchedWell(s, p, t, repeats, q);
    forall i | 0 <= i < |ts|
      ensures RunFrom(s, p, t, repeats, ts)[i].status == Success && SoundLog(RunFrom(s, p, t, repeats, ts)[i].s.log)
    {
      RunsWell(Launched(s, p, t, repeats), q, ts, i);
    }
  }

  // ----- Some run fails --------------------------------------------------------------------

  /** The index of a label that occurs. */
  lemma {:induction false} IndexOf(p: Program, rootRepeats: uint16, i: nat) returns (g: nat)
    requires Accepted(p, rootRepeats) && i < |p.code|
    ensures g < |p.groups| && p.groups[g].id == p.code[i].group && Count(p, g) > 0
  {
    var k;
    g, k := PoolHolds(p, i);
  }

  lemma {:induction false} RootIsFilled(p: Program, rootRepeats: uint16, i: nat)
    requires Accepted(p, rootRepeats) && i < |p.code| && Played(p.code, p.code[i].group)
    ensures Count(p, 0) > 0
  {
    hide Reaches, Preflight.Valid, Distinct, Ranked;
    var first := i;
    if p.code[i].group != 0 { first := FirstCall(p.code, 0, p.code[i].group); }
    var g := IndexOf(p, rootRepeats, first);
    LabelsDistinct(p, g, 0);
  }

  /** A chain of calls between labels is a chain of launches between groups. */
  lemma {:induction false} ChainOf(p: Program, rootRepeats: uint16, labels: seq<uint32>) returns (nodes: seq<nat>)
    requires Accepted(p, rootRepeats) && |labels| > 1 && IsPath(p.code, labels)
    ensures Chain(p, nodes) && |nodes| == |labels| - 1 && (forall j :: 0 <= j < |nodes| ==> nodes[j] < |p.groups| && p.groups[nodes[j]].id == labels[j])
    decreases |labels|
  {
    hide Compiled, Reaches, Preflight.Valid, Distinct, Ranked, FindGroup;
    assert CallsLabel(p.code, labels[0], labels[1]);
    var i :| 0 <= i < |p.code| && IsCall(p.code[i], labels[0], labels[1]);
    var g, k := CallOfLabels(p, rootRepeats, i);
    nodes := [g];
    if |labels| > 2 {
      PathTail(p.code, labels);
      var rest := ChainOf(p, rootRepeats, labels[1..]);
      SameLabel(p, rootRepeats, rest[0], Target(p, i));
      nodes := [g] + rest;
      ChainHead(p, g, k, rest);
    }
  }

  lemma {:induction false} SameLabel(p: Program, rootRepeats: uint16, g: nat, h: nat)
    requires Accepted(p, rootRepeats) && g < |p.groups| && h < |p.groups| && p.groups[g].id == p.groups[h].id
    ensures g == h
  {
    LabelsDistinct(p, g, h);
  }

  lemma {:induction false} PathTail(code: seq<Code>, labels: seq<uint32>)
    requires |labels| > 1 && IsPath(code, labels)
    ensures IsPath(code, labels[1..])
  {
    var rest := labels[1..];
    forall k | 0 <= k < |rest| - 1 ensures CallsLabel(code, rest[k], rest[k + 1]) {
      assert CallsLabel(code, labels[k + 1], labels[k + 1 + 1]);
    }
  }

  lemma {:induction false} ChainHead(p: Program, g: nat, k: nat, rest: seq<nat>)
    requires InRange(p) && Chain(p, rest) && Calls(p, g, k, rest[0])
    ensures Chain(p, [g] + rest)
  {
    var nodes := [g] + rest;
    forall j | 0 <= j < |nodes| - 1 ensures CallsGroup(p, nodes[j], nodes[j + 1]) {
      if j > 0 { assert CallsGroup(p, rest[j - 1], rest[j - 1 + 1]); }
    }
  }

  /** The launches that lead from the root to the group labelled `id`. */
  lemma {:induction false} ChainTo(p: Program, rootRepeats: uint16, i: nat, g: nat) returns (nodes: seq<nat>)
    requires Accepted(p, rootRepeats) && i < |p.code| && Played(p.code, p.code[i].group)
    requires g < |p.groups| && p.groups[g].id == p.code[i].group
    ensures Chain(p, nodes) && nodes[0] == 0 && nodes[|nodes| - 1] == g
  {
    hide Compiled, Preflight.Valid, Distinct, Ranked, Calls;
    InRangeOf(p, rootRepeats);
    if p.code[i].group == 0 {
      SameLabel(p, rootRepeats, g, 0);
      nodes := [0];
    } else {
      var labels :| Joins(p.code, labels, 0, p.code[i].group);
      var last := |labels| - 2;
      assert CallsLabel(p.code, labels[last], labels[last + 1]);
      var c :| 0 <= c < |p.code| && IsCall(p.code[c], labels[last], labels[last + 1]);
      var path := ChainOf(p, rootRepeats, labels);
      var f, k := CallOfLabels(p, rootRepeats, c);
      SameLabel(p, rootRepeats, path[last], f);
      SameLabel(p, rootRepeats, path[0], 0);
      SameLabel(p, rootRepeats, Target(p, c), g);
      ChainEnd(p, path, k, g);
      nodes := path + [g];
    }
  }

  lemma {:induction false} ChainEnd(p: Program, path: seq<nat>, k: nat, g: nat)
    requires InRange(p) && Chain(p, path) && Calls(p, path[|path| - 1], k, g)
    ensures Chain(p, path + [g])
  {
    var nodes := path + [g];
    forall j | 0 <= j < |nodes| - 1 ensures CallsGroup(p, nodes[j], nodes[j + 1]) {
      if j < |path| - 1 { assert CallsGroup(p, path[j], path[j + 1]); }
    }
  }

  lemma {:induction false} LaunchedFated(s: Ctl, p: Program, t: uint32, repeats: uint16, q: Grade)
    requires Runnable(p) && |s.mem| == |p.code| && |s.strip| == q.leds && Graded(p, q)
    ensures Fated(Launched(s, p, t, repeats), q)
    ensures Launched(s, p, t, repeats).prog == p
    ensures Count(p, 0) > 0 ==> StartedIn(Launched(s, p, t, repeats).log, 0)
    ensures Count(p, 0) > 0 && repeats != 0 ==> RepeatedIn(Launched(s, p, t, repeats).log, 0)
    ensures BegunBy(Launched(s, p, t, repeats).runtimes, t, 0)
  {
    hide ClearFrom, Distinct, Ranked, Sound, HistOn, Core, Flags, Graded, InRange;
    LaunchedIsSound(s, p, t, repeats);
    LaunchedBase(s, p, t, repeats, q);
    assert t == Late(t, 0);
    assert Count(p, 0) > 0 ==> Launched(s, p, t, repeats).log[0] == Started(0, repeats);
  }

  lemma {:induction false} RootFails(s: Ctl, p: Program, t: uint32, repeats: uint16) returns (ts: seq<uint32>)
    requires Accepted(p, repeats) && |s.mem| == |p.code| && repeats != 0 && !Effective(p.code, |s.strip|, 0)
    ensures ts != [] && exists f :: Failed(f) in RunFrom(s, p, t, repeats, ts)[|ts| - 1].s.log
  {
    hide Effective, Launched, Run, Fated, Graded, BegunBy, Reaches, RepeatedIn, Compiled, Distinct, Ranked, StartedIn, Swept;
    var q, r := GradeOf(p, |s.strip|), Launched(s, p, t, repeats);
    InRangeOf(p, repeats);
    GradeIsGraded(p, repeats, |s.strip|);
    LaunchedFated(s, p, t, repeats, q);
    var i := BoundedOwner(p.code);
    RootIsFilled(p, repeats, i);
    RunnableFated(r, q);
    LogGrows(r, q, t);
    Grows(p, r.log, Run(r, t).s.log, 0);
    TickFails(r, q, t, 0);
    OneRun(r, t);
    ts := [t];
  }

  lemma {:induction false} LogGrows(s: Ctl, q: Grade, t: uint32)
    requires Fated(s, q)
    ensures s.log <= Run(s, t).s.log
  {
    hide Sound, HistOn, Base, Graded, Answered, Doomed, Worked, Run;
    if s.phase == Active { TickFated(s, q, t); } else { NotActiveStays(s, t); }
  }

  lemma {:induction false} BoundedOwner(code: seq<Code>) returns (i: nat)
    requires Preflight.Bounded(code, 0)
    ensures i < |code| && code[i].group == 0
  {
    hide Reaches;
    if Preflight.OwnsBoundary(code, 0) {
      i :| 0 <= i < |code| && Preflight.BoundaryOf(code[i], 0);
    } else {
      var other :| Reaches(code, 0, other) && Preflight.OwnsBoundary(code, other);
      i := FirstCall(code, 0, other);
    }
  }

  lemma {:induction false} LaunchFails(s: Ctl, p: Program, t: uint32, repeats: uint16, i: nat) returns (ts: seq<uint32>)
    requires Accepted(p, repeats) && |s.mem| == |p.code| && i < |p.code| && !SteadyAt(p.code, |s.strip|, p.code[i])
    ensures ts != [] && exists f :: Failed(f) in RunFrom(s, p, t, repeats, ts)[|ts| - 1].s.log
  {
    hide Effective, Launched, Run, Fated, Graded, BegunBy, Played, Compiled, Preflight.Valid, FindGroup, StartedIn, RepeatedIn;
    var q, r := GradeOf(p, |s.strip|), Launched(s, p, t, repeats);
    InRangeOf(p, repeats);
    GradeIsGraded(p, repeats, |s.strip|);
    LaunchedFated(s, p, t, repeats, q);
    RootIsFilled(p, repeats, i);
    var g, k := CallOfLabels(p, repeats, i);
    var nodes := ChainTo(p, repeats, i, g);
    RunnableFated(r, q);
    assert Ranked(p, Rank(p));
    ts := ChainFails(r, q, t, 0, nodes, k, Target(p, i));
  }

  /** An accepted program that is not steady fails in some run, whenever it is started. */
  lemma {:induction false} SomeRunFails(s: Ctl, p: Program, t: uint32, repeats: uint16) returns (ts: seq<uint32>)
    requires Accepted(p, repeats) && |s.mem| == |p.code| && !SteadyProgram(p.code, |s.strip|, repeats)
    ensures ts != [] && exists f :: Failed(f) in RunFrom(s, p, t, repeats, ts)[|ts| - 1].s.log
  {
    hide Effective, Accepted, RunFrom, SteadyAt;
    if repeats != 0 && !Effective(p.code, |s.strip|, 0) {
      ts := RootFails(s, p, t, repeats);
    } else {
      var i :| 0 <= i < |p.code| && !SteadyAt(p.code, |s.strip|, p.code[i]);
      ts := LaunchFails(s, p, t, repeats, i);
    }
  }

  lemma {:induction false} FlawedBy(rs: seq<Ran>, f: Fault)
    requires rs != [] && Failed(f) in rs[|rs| - 1].s.log
    ensures !Flawless(rs)
  {
    var log := rs[|rs| - 1].s.log;
    var j :| 0 <= j < |log| && log[j] == Failed(f);
    assert !SoundEvent(log[..j], log[j]);
  }

  /** No run of the program, started and ticked at any times, ever reports a fault. */
  ghost predicate AllFlawless(s: Ctl, p: Program, repeats: uint16)
    requires Runnable(p) && |s.mem| == |p.code|
  {
    forall t: uint32, ts: seq<uint32> :: Flawless(RunFrom(s, p, t, repeats, ts))
  }

  /** Exactly when a program never fails: an accepted program whose launches in play have
      distinct targets is flawless in every run if and only if a repeated root and every
      repeated target in play is effective. */
  lemma {:induction false} FlawlessIff(s: Ctl, p: Program, repeats: uint16)
    requires Accepted(p, repeats) && |s.mem| == |p.code| && SoleCaller(p.code)
    ensures Runnable(p) && (AllFlawless(s, p, repeats) <==> SteadyProgram(p.code, |s.strip|, repeats))
  {
    hide Accepted, AllFlawless, SteadyProgram, SoleCaller;
    InRangeOf(p, repeats);
    if SteadyProgram(p.code, |s.strip|, repeats) {
      SteadyIsFlawless(s, p, repeats);
    } else {
      UnsteadyIsFlawed(s, p, repeats);
    }
  }

  lemma {:induction false} SteadyIsFlawless(s: Ctl, p: Program, repeats: uint16)
    requires Accepted(p, repeats) && Runnable(p) && |s.mem| == |p.code| && SoleCaller(p.code)
    requires SteadyProgram(p.code, |s.strip|, repeats)
    ensures AllFlawless(s, p, repeats)
  {
    hide Accepted, RunFrom, SteadyProgram, Flawless, SoleCaller, Runnable;
    forall t: uint32, ts: seq<uint32> ensures Flawless(RunFrom(s, p, t, repeats, ts)) {
      NeverFails(s, p, t, repeats, ts);
    }
  }

  lemma {:induction false} UnsteadyIsFlawed(s: Ctl, p: Program, repeats: uint16)
    requires Accepted(p, repeats) && Runnable(p) && |s.mem| == |p.code|
    requires !SteadyProgram(p.code, |s.strip|, repeats)
    ensures !AllFlawless(s, p, repeats)
  {
    hide Accepted, RunFrom, SteadyProgram, Flawless, Runnable;
    var ts := SomeRunFails(s, p, 0, repeats);
    var f :| Failed(f) in RunFrom(s, p, 0, repeats, ts)[|ts| - 1].s.log;
    FlawedBy(RunFrom(s, p, 0, repeats, ts), f);
  }

  // ----- What the preflight guarantees -----------------------------------------------------

  /** Every timed instruction was added with a strip that has its LED. */
  predicate Equipped(code: seq<Code>, leds: nat) {
    forall i :: 0 <= i < |code| && HasPositiveBoundary(code[i].op) ==> Delays(code[i], leds)
  }

  /** What is effective owns or reaches a configured boundary, and on an equipped strip the
      converse holds. */
  lemma {:induction false} EffectiveIffBounded(code: seq<Code>, leds: nat, id: uint32)
    ensures Effective(code, leds, id) ==> Preflight.Bounded(code, id)
    ensures Equipped(code, leds) ==> (Effective(code, leds, id) <==> Preflight.Bounded(code, id))
  {
    hide Reaches;
    forall other: uint32
      ensures OwnsEffect(code, leds, other) ==> Preflight.OwnsBoundary(code, other)
      ensures Equipped(code, leds) && Preflight.OwnsBoundary(code, other) ==> OwnsEffect(code, leds, other)
    {
      OwnerIffOwner(code, leds, other);
    }
  }

  lemma {:induction false} OwnerIffOwner(code: seq<Code>, leds: nat, id: uint32)
    ensures OwnsEffect(code, leds, id) ==> Preflight.OwnsBoundary(code, id)
    ensures Equipped(code, leds) && Preflight.OwnsBoundary(code, id) ==> OwnsEffect(code, leds, id)
  {
    if i :| 0 <= i < |code| && EffectIn(code[i], leds, id) {
      assert Preflight.BoundaryOf(code[i], id);
    }
    if i :| 0 <= i < |code| && Preflight.BoundaryOf(code[i], id) {
      assert Equipped(code, leds) ==> EffectIn(code[i], leds, id);
    }
  }

  /** The preflight asks for what is needed: where it would reject a repeat in play, no strip
      makes the program steady. */
  lemma {:induction false} RejectedIsUnsteady(code: seq<Code>, leds: nat, rootRepeats: uint16)
    requires SteadyProgram(code, leds, rootRepeats)
    ensures rootRepeats != 0 ==> Preflight.Bounded(code, 0)
    ensures forall i :: 0 <= i < |code| && Launches(code, code[i]) ==> Preflight.RepeatOk(code, code[i])
  {
    hide Effective, Preflight.Bounded, Played;
    EffectiveIffBounded(code, leds, 0);
    forall i | 0 <= i < |code| && Launches(code, code[i]) ensures Preflight.RepeatOk(code, code[i]) {
      assert SteadyAt(code, leds, code[i]);
      EffectiveIffBounded(code, leds, code[i].op.target);
    }
  }

  /** And it asks for enough: an accepted program on an equipped strip, whose launches in play
      have distinct targets, never fails. */
  lemma {:induction false} AcceptedIsFlawless(s: Ctl, p: Program, repeats: uint16)
    requires Accepted(p, repeats) && |s.mem| == |p.code| && SoleCaller(p.code) && Equipped(p.code, |s.strip|)
    ensures Runnable(p) && AllFlawless(s, p, repeats)
  {
    hide Compiled, Runnable, SoleCaller, Effective, Preflight.Bounded, Equipped, AllFlawless, Played;
    EffectiveIffBounded(p.code, |s.strip|, 0);
    forall i | 0 <= i < |p.code| ensures SteadyAt(p.code, |s.strip|, p.code[i]) {
      assert Preflight.RepeatOk(p.code, p.code[i]);
      if p.code[i].op.RunGroup? { EffectiveIffBounded(p.code, |s.strip|, p.code[i].op.target); }
    }
    SteadyIsFlawless(s, p, repeats);
  }
}
