/** Preflight of a stored program: exactly the valid programs compile. */
module Preflight {
  import opened Clock
  import opened Instructions
  import opened Program
  import opened Scheduler
  import opened MarkOrder
  import opened GroupTable
  import opened IndexPool
  import opened CompiledProgram
  import opened CallGraph
  import opened Closure
  import Invariant

  // ----- Valid programs, in terms of labels ----------------------------------------------

  /** The group labelled `id` owns a positive mark or a positive-duration instruction. */
  predicate OwnsBoundary(code: seq<Code>, id: uint32) {
    exists i :: 0 <= i < |code| && BoundaryOf(code[i], id)
  }

  predicate BoundaryOf(c: Code, id: uint32) {
    c.group == id && (c.mark > 0 || HasPositiveBoundary(c.op))
  }

  /** The group or one it leads to owns a boundary. */
  ghost predicate Bounded(code: seq<Code>, id: uint32) {
    OwnsBoundary(code, id) || exists other :: Reaches(code, id, other) && OwnsBoundary(code, other)
  }

  ghost predicate RepeatOk(code: seq<Code>, c: Code) {
    c.op.RunGroup? && c.op.repeats != 0 ==> Bounded(code, c.op.target)
  }

  /** Every launch has a target, no chain of calls returns to its start, and whatever
      repeats is bounded. */
  ghost predicate Valid(code: seq<Code>, rootRepeats: uint16) {
    && (forall i :: 0 <= i < |code| ==> TargetOk(code, code[i]))
    && (forall id :: !Reaches(code, id, id))
    && (forall i :: 0 <= i < |code| ==> RepeatOk(code, code[i]))
    && (rootRepeats != 0 ==> Bounded(code, 0))
  }

  // ----- Repeat boundaries -----------------------------------------------------------------

  /** Which groups own a boundary, counting instructions below `n`. */
  ghost predicate Owners(p: Program, own: seq<bool>, n: nat)
    requires n <= |p.code|
  {
    |own| == |p.groups| && forall g :: 0 <= g < |own| ==> (own[g] <==> OwnsBoundary(p.code[..n], p.groups[g].id))
  }

  lemma {:induction false} OwnersOneMore(p: Program, own: seq<bool>, n: nat, g: nat)
    requires n < |p.code| && Owners(p, own, n) && g < |own| && p.groups[g].id == p.code[n].group
    requires forall a, b :: 0 <= a < b < |p.groups| ==> p.groups[a].id != p.groups[b].id
    ensures var c := p.code[n];
      Owners(p, own[g := own[g] || c.mark > 0 || HasPositiveBoundary(c.op)], n + 1)
  {
    var a, b := p.code[..n], p.code[..n + 1];
    assert b == a + [p.code[n]];
    forall h | 0 <= h < |own|
      ensures OwnsBoundary(b, p.groups[h].id) <==> OwnsBoundary(a, p.groups[h].id) || BoundaryOf(p.code[n], p.groups[h].id)
    {
      OwnsAppend(a, p.code[n], p.groups[h].id);
    }
  }

  lemma {:induction false} OwnsAppend(a: seq<Code>, c: Code, id: uint32)
    ensures OwnsBoundary(a + [c], id) <==> OwnsBoundary(a, id) || BoundaryOf(c, id)
  {
    var b := a + [c];
    assert b[|a|] == c;
    if OwnsBoundary(a, id) {
      var i :| 0 <= i < |a| && BoundaryOf(a[i], id);
      assert BoundaryOf(b[i], id);
    }
  }

  method MarkOwners(p: Program) returns (own: seq<bool>)
    requires |p.code| <= MAX_INSTRUCTIONS && TableFor(p.code, p.groups, |p.code|)
    ensures Owners(p, own, |p.code|)
  {
    hide TableFor, Owners, FindGroup;
    TableSize(p.code, p.groups, |p.code|);
    own := seq(|p.groups|, _ => false);
    NoOwners(p, own);
    for i := 0 to |p.code|
      invariant |own| == |p.groups| && Owners(p, own, i)
    {
      var c := p.code[i];
      var g := Locate(p.groups, c.group);
      IsListed(p.code, p.groups, i);
      Labelled(p);
      OwnersOneMore(p, own, i, g);
      own := own[g := own[g] || c.mark > 0 || HasPositiveBoundary(c.op)];
    }
  }

  lemma {:induction false} NoOwners(p: Program, own: seq<bool>)
    requires |own| == |p.groups| && forall g :: 0 <= g < |own| ==> !own[g]
    ensures Owners(p, own, 0)
  {
  }

  lemma {:induction false} Labelled(p: Program)
    requires TableFor(p.code, p.groups, |p.code|)
    ensures forall a, b :: 0 <= a < b < |p.groups| ==> p.groups[a].id != p.groups[b].id
    ensures 0 < |p.groups| && p.groups[0].id == 0
  {
  }

  /** `own` or reachable from an owner in the closed graph. */
  ghost predicate Spread(graph: Masks, own: seq<bool>, g: nat)
    requires |own| == |graph| && g < |graph|
  {
    own[g] || exists h :: 0 <= h < |graph| && Bit(graph[g], h) && own[h]
  }

  /** Flags set so far are owners or lead to one. */
  ghost predicate Between(graph: Masks, own: seq<bool>, flags: seq<bool>) {
    && |own| == |graph| == |flags|
    && forall g :: 0 <= g < |graph| ==> (own[g] ==> flags[g]) && (flags[g] ==> Spread(graph, own, g))
  }

  lemma {:induction false} SpreadStep(p: Program, graph: Masks, own: seq<bool>, s: nat, t: nat)
    requires |own| == |graph| == |p.groups| && IsClosure(p, graph) && s < |graph| && t < |graph|
    requires Bit(graph[s], t) && Spread(graph, own, t)
    ensures Spread(graph, own, s)
  {
    hide Bit, Reaches;
    if !own[t] {
      var h :| 0 <= h < |graph| && Bit(graph[t], h) && own[h];
      ReachesTransitive(p.code, p.groups[s].id, p.groups[t].id, p.groups[h].id);
      assert Bit(graph[s], h);
    }
  }

  /** One pass of the propagation: afterwards every group that leads to an owner is flagged. */
  method SpreadPass(p: Program, graph: Masks, own: seq<bool>, flags: seq<bool>) returns (changed: bool, r: seq<bool>)
    requires |graph| == |p.groups| && IsClosure(p, graph) && Between(graph, own, flags)
    ensures Between(graph, own, r) && forall g :: 0 <= g < |graph| && Spread(graph, own, g) ==> r[g]
  {
    hide Bit, IsClosure, Spread;
    r := flags;
    changed := false;
    for s := 0 to |graph|
      invariant Between(graph, own, r)
      invariant forall g :: 0 <= g < s && Spread(graph, own, g) ==> r[g]
    {
      for t := 0 to |graph|
        invariant Between(graph, own, r)
        invariant forall g :: 0 <= g < s && Spread(graph, own, g) ==> r[g]
        invariant forall h :: 0 <= h < t && Bit(graph[s], h) && own[h] ==> r[s]
      {
        if Bit(graph[s], t) && r[t] && !r[s] {
          SpreadStep(p, graph, own, s, t);
          r := r[s := true];
          changed := true;
        }
      }
      SpreadDef(graph, own, s);
    }
  }

  lemma {:induction false} SpreadDef(graph: Masks, own: seq<bool>, g: nat)
    requires |own| == |graph| && g < |graph|
    ensures Spread(graph, own, g) <==> own[g] || exists h :: 0 <= h < |graph| && Bit(graph[g], h) && own[h]
  {
  }

  /** Propagate boundaries from callees to callers until a pass changes nothing. */
  method SpreadBoundaries(p: Program, graph: Masks, own: seq<bool>) returns (flags: seq<bool>)
    requires 0 < |graph| == |p.groups| && IsClosure(p, graph) && |own| == |graph|
    ensures |flags| == |graph| && forall g :: 0 <= g < |graph| ==> (flags[g] <==> Spread(graph, own, g))
  {
    hide Bit, IsClosure;
    flags := own;
    for pass := 0 to |graph|
      invariant Between(graph, own, flags)
      invariant pass > 0 ==> forall g :: 0 <= g < |graph| && Spread(graph, own, g) ==> flags[g]
    {
      var changed;
      changed, flags := SpreadPass(p, graph, own, flags);
      if !changed {
        break;
      }
    }
  }

  lemma {:induction false} OwnerIsListed(p: Program, id: uint32) returns (h: nat)
    requires TableFor(p.code, p.groups, |p.code|) && OwnsBoundary(p.code, id)
    ensures h < |p.groups| && p.groups[h].id == id
  {
    var i :| 0 <= i < |p.code| && BoundaryOf(p.code[i], id);
    assert Listed(p.groups, p.code[i].group);
    h :| 0 <= h < |p.groups| && p.groups[h].id == id;
  }

  /** Spreading over the closed masks is boundedness of labels. */
  lemma {:induction false} SpreadIsBounded(p: Program, graph: Masks, own: seq<bool>, g: nat)
    requires TableFor(p.code, p.groups, |p.code|) && |graph| == |p.groups| && IsClosure(p, graph)
    requires Owners(p, own, |p.code|) && g < |graph|
    ensures Spread(graph, own, g) <==> Bounded(p.code, p.groups[g].id)
  {
    hide Bit, Reaches, TableFor, OwnsBoundary;
    assert p.code[..|p.code|] == p.code;
    var id := p.groups[g].id;
    if Spread(graph, own, g) && !own[g] {
      var h :| 0 <= h < |graph| && Bit(graph[g], h) && own[h];
      assert Reaches(p.code, id, p.groups[h].id) && OwnsBoundary(p.code, p.groups[h].id);
    }
    if Bounded(p.code, id) && !OwnsBoundary(p.code, id) {
      var other :| Reaches(p.code, id, other) && OwnsBoundary(p.code, other);
      var h := OwnerIsListed(p, other);
      assert Bit(graph[g], h) && own[h];
    }
  }

  /** Accept exactly when every repeated target, and a repeated root, is bounded. */
  method ValidateRepeatBoundaries(p: Program, graph: Masks, rootRepeats: uint16) returns (ok: bool)
    requires |p.code| <= MAX_INSTRUCTIONS && TableFor(p.code, p.groups, |p.code|)
    requires |graph| == |p.groups| && IsClosure(p, graph)
    requires forall i :: 0 <= i < |p.code| ==> TargetOk(p.code, p.code[i])
    ensures ok <==> (forall i :: 0 <= i < |p.code| ==> RepeatOk(p.code, p.code[i])) && (rootRepeats != 0 ==> Bounded(p.code, 0))
  {
    hide TableFor, IsClosure, Owners, Spread, Bounded, FindGroup, Labels;
    Labelled(p);
    TableSize(p.code, p.groups, |p.code|);
    var own := MarkOwners(p);
    OwnersSize(p, own);
    var flags := SpreadBoundaries(p, graph, own);
    forall g | 0 <= g < |graph| ensures flags[g] <==> Bounded(p.code, p.groups[g].id) {
      SpreadIsBounded(p, graph, own, g);
    }
    for i := 0 to |p.code|
      invariant forall j :: 0 <= j < i ==> RepeatOk(p.code, p.code[j])
    {
      var c := p.code[i];
      if c.op.RunGroup? && c.op.repeats != 0 {
        var t := Locate(p.groups, c.op.target);
        assert TargetOk(p.code, c);
        ListedIffLabels(p, c.op.target);
        if t == MAX_GROUPS || !flags[t] {
          assert !RepeatOk(p.code, p.code[i]);
          return false;
        }
      }
    }
    return rootRepeats == 0 || flags[0];
  }

  lemma {:induction false} OwnersSize(p: Program, own: seq<bool>)
    requires Owners(p, own, |p.code|)
    ensures |own| == |p.groups|
  {
  }

  // ----- Ranks -------------------------------------------------------------------------------

  ghost function Reach(graph: Masks, g: nat): (r: set<nat>)
    requires g < |graph|
    ensures forall h: nat :: h in r <==> h < |graph| && Bit(graph[g], h)
  {
    set h: nat | h < |graph| && Bit(graph[g], h)
  }

  ghost function Ranks(graph: Masks): (r: seq<nat>)
    ensures |r| == |graph|
  {
    seq(|graph|, g requires 0 <= g < |graph| => |Reach(graph, g)|)
  }

  lemma {:induction false} ProperSubset(a: set<nat>, b: set<nat>, x: nat)
    requires a <= b && x in b && x !in a
    ensures |a| < |b|
  {
    Invariant.SubsetSize(a, b - {x});
  }

  lemma {:induction false} CallLowersRank(p: Program, graph: Masks, g: nat, h: nat)
    requires |graph| == |p.groups| && IsClosure(p, graph) && g < |graph| && h < |graph|
    requires CallsLabel(p.code, p.groups[g].id, p.groups[h].id) && !Reaches(p.code, p.groups[h].id, p.groups[h].id)
    ensures Ranks(graph)[h] < Ranks(graph)[g]
  {
    hide Bit, Reaches, CallsLabel;
    CallReaches(p.code, p.groups[g].id, p.groups[h].id);
    assert Bit(graph[g], h);
    forall x | x in Reach(graph, h) ensures x in Reach(graph, g) {
      ReachesTransitive(p.code, p.groups[g].id, p.groups[h].id, p.groups[x].id);
      assert Bit(graph[g], x);
    }
    ProperSubset(Reach(graph, h), Reach(graph, g), h);
  }

  lemma {:induction false} RankIsBounded(p: Program, graph: Masks, g: nat)
    requires |graph| == |p.groups| && IsClosure(p, graph) && g < |graph|
    requires !Reaches(p.code, p.groups[g].id, p.groups[g].id)
    ensures Ranks(graph)[g] < |graph|
  {
    hide Bit, Reaches;
    ProperSubset(Reach(graph, g), Invariant.Below(|graph|), g);
  }

  /** An acyclic call graph gives every group a rank above everything it launches. */
  lemma {:induction false} AcyclicIsRanked(p: Program, graph: Masks)
    requires |p.groups| <= MAX_GROUPS && Compiled(p) && InRange(p) && |graph| == |p.groups| && IsClosure(p, graph)
    requires forall g :: 0 <= g < |p.groups| ==> !Reaches(p.code, p.groups[g].id, p.groups[g].id)
    requires forall i :: 0 <= i < |p.code| ==> TargetOk(p.code, p.code[i])
    ensures Ranked(p, Ranks(graph))
  {
    hide Compiled, IsClosure, Ranks, Reaches, FindGroup, Labels;
    forall g | 0 <= g < |graph| ensures Ranks(graph)[g] < |graph| {
      RankIsBounded(p, graph, g);
    }
    forall g: nat, k: nat, h: nat | Calls(p, g, k, h)
      ensures 0 < h < |graph| && Ranks(graph)[h] < Ranks(graph)[g]
    {
      var i := At(p, g, k);
      PoolOrder(p, g);
      FindSpec(p.groups, p.code[i].op.target);
      TargetIndex(p, i);
      assert IsCall(p.code[i], p.groups[g].id, p.groups[h].id);
      CallLowersRank(p, graph, g, h);
    }
  }

  lemma {:induction false} TargetIndex(p: Program, i: nat)
    requires Compiled(p) && |p.groups| <= MAX_GROUPS && i < |p.code| && p.code[i].op.RunGroup? && TargetOk(p.code, p.code[i])
    ensures 0 < Target(p, i) < |p.groups|
  {
    hide FindGroup;
    FindSpec(p.groups, p.code[i].op.target);
    ListedIffLabels(p, p.code[i].op.target);
  }

  // ----- The whole preflight -------------------------------------------------------------------

  lemma {:induction false} NoCycleIffGroups(p: Program)
    requires TableFor(p.code, p.groups, |p.code|)
    ensures (forall id :: !Reaches(p.code, id, id)) <==>
      forall g :: 0 <= g < |p.groups| ==> !Reaches(p.code, p.groups[g].id, p.groups[g].id)
  {
    hide TableFor;
    forall id | Reaches(p.code, id, id) ensures exists g :: 0 <= g < |p.groups| && p.groups[g].id == id {
      var nodes :| Joins(p.code, nodes, id, id);
      assert CallsLabel(p.code, nodes[0], nodes[1]);
      var i :| 0 <= i < |p.code| && IsCall(p.code[i], nodes[0], nodes[1]);
      IsListed(p.code, p.groups, i);
    }
  }

  lemma {:induction false} TargetsAreListed(p: Program)
    requires TableFor(p.code, p.groups, |p.code|) && forall i :: 0 <= i < |p.code| ==> TargetOk(p.code, p.code[i])
    ensures forall i :: 0 <= i < |p.code| && p.code[i].op.RunGroup? ==> Listed(p.groups, p.code[i].op.target)
  {
    hide TableFor;
    forall i | 0 <= i < |p.code| && p.code[i].op.RunGroup? ensures Listed(p.groups, p.code[i].op.target) {
      assert TargetOk(p.code, p.code[i]);
      ListedIffLabels(p, p.code[i].op.target);
    }
  }

  /** Preflight is exact: it accepts precisely the valid programs, and what it accepts is
      compiled and can run. Capacity is never exhausted. */
  method BuildAndValidateGroups(code: seq<Code>, rootRepeats: uint16) returns (status: Status, p: Program)
    requires |code| <= MAX_INSTRUCTIONS
    ensures status == Success || status == InvalidProgram
    ensures status == Success <==> Valid(code, rootRepeats)
    ensures status == Success ==> p.code == code && Compiled(p) && Runnable(p)
  {
    hide TableFor, IsClosure, EdgesOf, Bounded, Reaches, Ranks, Ranked, InRange, Distinct, TargetOk;
    var groups := BuildGroupTable(code);
    p := BuildGroupIndexPool(code, groups);
    var ok, edges := BuildGroupCallGraph(p);
    if !ok {
      return InvalidProgram, p;
    }
    TableSize(p.code, p.groups, |p.code|);
    EdgesSize(p, edges, |p.code|);
    TargetsAreListed(p);
    NoCycleIffGroups(p);
    var graph;
    ok, graph := ValidateGroupCallGraph(p, edges);
    if !ok {
      return InvalidProgram, p;
    }
    ok := ValidateRepeatBoundaries(p, graph, rootRepeats);
    if !ok {
      return InvalidProgram, p;
    }
    PoolInRange(p);
    PoolDistinct(p);
    AcyclicIsRanked(p, graph);
    status := Success;
  }
}
