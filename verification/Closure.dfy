/** Transitive closure of the call graph and the checks made on it. */
module Closure {
  import opened Clock
  import opened Instructions
  import opened Program
  import opened GroupTable
  import opened IndexPool
  import opened CallGraph

  type Masks = g: seq<bv32> | |g| <= 29

  // ----- Warshall on masks ----------------------------------------------------------

  /** The row of `s` after routing it through `k`. */
  function Routed(graph: Masks, s: nat, k: nat): bv32
    requires s < |graph| && k < |graph|
  {
    if Bit(graph[s], k) then Union(graph[s], graph[k]) else graph[s]
  }

  function RoutedAll(graph: Masks, k: nat): (r: Masks)
    requires k < |graph|
    ensures |r| == |graph|
  {
    seq(|graph|, s requires 0 <= s < |graph| => Routed(graph, s, k))
  }

  /** Two steps through a node below `k` are one step. */
  ghost predicate ClosedBelow(graph: Masks, k: nat)
    requires k <= |graph|
  {
    forall m, s, t :: 0 <= m < k && 0 <= s < |graph| && 0 <= t < |graph| && Bit(graph[s], m) && Bit(graph[m], t) ==>
      Bit(graph[s], t)
  }

  lemma {:induction false} RoutedBit(graph: Masks, s: nat, k: nat, t: nat)
    requires s < |graph| && k < |graph| && t < |graph|
    ensures Bit(Routed(graph, s, k), t) <==> Bit(graph[s], t) || (Bit(graph[s], k) && Bit(graph[k], t))
  {
    hide Bit, Union;
    BitOr(graph[s], graph[k], t);
  }

  lemma {:induction false} RoutingCloses(graph: Masks, k: nat)
    requires k < |graph| && ClosedBelow(graph, k)
    ensures ClosedBelow(RoutedAll(graph, k), k + 1)
  {
    hide Bit, Routed;
    var next := RoutedAll(graph, k);
    forall m, s, t | 0 <= m < k + 1 && 0 <= s < |graph| && 0 <= t < |graph| && Bit(next[s], m) && Bit(next[m], t)
      ensures Bit(next[s], t)
    {
      RoutedBit(graph, s, k, m);
      RoutedBit(graph, m, k, t);
      RoutedBit(graph, s, k, t);
    }
  }

  /** Routing its own row changes nothing. */
  lemma {:induction false} RoutedSelf(graph: Masks, k: nat)
    requires k < |graph|
    ensures Routed(graph, k, k) == graph[k]
  {
  }

  /** Everything in a mask is real reachability between labels. */
  ghost predicate OnlyReal(p: Program, graph: Masks)
    requires |graph| == |p.groups|
  {
    forall s, t :: 0 <= s < |graph| && 0 <= t < |graph| && Bit(graph[s], t) ==>
      Reaches(p.code, p.groups[s].id, p.groups[t].id)
  }

  lemma {:induction false} RoutingIsReal(p: Program, graph: Masks, k: nat)
    requires |graph| == |p.groups| && k < |graph| && OnlyReal(p, graph)
    ensures OnlyReal(p, RoutedAll(graph, k))
  {
    hide Bit, Routed, Reaches;
    var next := RoutedAll(graph, k);
    forall s, t | 0 <= s < |graph| && 0 <= t < |graph| && Bit(next[s], t)
      ensures Reaches(p.code, p.groups[s].id, p.groups[t].id)
    {
      RoutedBit(graph, s, k, t);
      if Bit(graph[s], k) && Bit(graph[k], t) {
        ReachesTransitive(p.code, p.groups[s].id, p.groups[k].id, p.groups[t].id);
      }
    }
  }

  /** Masks only grow. */
  ghost predicate Includes(a: Masks, b: Masks) {
    |a| == |b| && forall s, t :: 0 <= s < |a| && 0 <= t < |a| && Bit(a[s], t) ==> Bit(b[s], t)
  }

  lemma {:induction false} RoutingGrows(a: Masks, graph: Masks, k: nat)
    requires k < |graph| && Includes(a, graph)
    ensures Includes(a, RoutedAll(graph, k))
  {
    hide Bit, Routed;
    var next := RoutedAll(graph, k);
    forall s, t | 0 <= s < |a| && 0 <= t < |a| && Bit(a[s], t) ensures Bit(next[s], t) {
      RoutedBit(graph, s, k, t);
    }
  }

  /** One outer iteration of the closure, updating rows in place. */
  method RouteThrough(graph: Masks, k: nat) returns (r: Masks)
    requires k < |graph|
    ensures r == RoutedAll(graph, k)
  {
    hide Bit, Union;
    r := graph;
    RoutedSelf(graph, k);
    for s := 0 to |graph|
      invariant |r| == |graph|
      invariant forall i :: 0 <= i < s ==> r[i] == Routed(graph, i, k)
      invariant forall i :: s <= i < |graph| ==> r[i] == graph[i]
    {
      assert r[k] == graph[k];
      if Bit(r[s], k) {
        r := r[s := Union(r[s], r[k])];
      }
    }
  }

  /** Bit `t` of row `s` says exactly whether `s` can reach `t` by calls. */
  ghost predicate IsClosure(p: Program, graph: Masks)
    requires |graph| == |p.groups|
  {
    forall s, t :: 0 <= s < |graph| && 0 <= t < |graph| ==>
      (Bit(graph[s], t) <==> Reaches(p.code, p.groups[s].id, p.groups[t].id))
  }

  /** A closed mask table that holds every call holds every chain of calls. */
  lemma {:induction false} ChainIsBit(p: Program, edges: Masks, graph: Masks, nodes: seq<uint32>, s: nat, t: nat)
    requires |p.groups| <= MAX_GROUPS && |graph| == |p.groups| && EdgesOf(p, edges, |p.code|)
    requires Includes(edges, graph) && ClosedBelow(graph, |graph|)
    requires forall i :: 0 <= i < |p.code| && p.code[i].op.RunGroup? ==> Listed(p.groups, p.code[i].op.target)
    requires s < |graph| && t < |graph| && Joins(p.code, nodes, p.groups[s].id, p.groups[t].id)
    ensures Bit(graph[s], t)
    decreases |nodes|
  {
    hide Bit;
    assert p.code[..|p.code|] == p.code;
    assert CallsLabel(p.code, nodes[0], nodes[1]);
    if |nodes| > 2 {
      var i :| 0 <= i < |p.code| && IsCall(p.code[i], nodes[0], nodes[1]);
      assert Listed(p.groups, nodes[1]);
      var m :| 0 <= m < |p.groups| && p.groups[m].id == nodes[1];
      var rest := nodes[1..];
      forall k | 0 <= k < |rest| - 1 ensures CallsLabel(p.code, rest[k], rest[k + 1]) {
        assert CallsLabel(p.code, nodes[k + 1], nodes[k + 1 + 1]);
      }
      ChainIsBit(p, edges, graph, rest, m, t);
      assert Bit(edges[s], m);
    } else {
      assert Bit(edges[s], t);
    }
  }

  lemma {:induction false} ClosureIsExact(p: Program, edges: Masks, graph: Masks)
    requires |p.groups| <= MAX_GROUPS && |graph| == |p.groups| && EdgesOf(p, edges, |p.code|)
    requires Includes(edges, graph) && ClosedBelow(graph, |graph|) && OnlyReal(p, graph)
    requires forall i :: 0 <= i < |p.code| && p.code[i].op.RunGroup? ==> Listed(p.groups, p.code[i].op.target)
    ensures IsClosure(p, graph)
  {
    hide Bit, EdgesOf, Includes, ClosedBelow, Joins;
    forall s, t | 0 <= s < |graph| && 0 <= t < |graph| && Reaches(p.code, p.groups[s].id, p.groups[t].id)
      ensures Bit(graph[s], t)
    {
      var nodes :| Joins(p.code, nodes, p.groups[s].id, p.groups[t].id);
      ChainIsBit(p, edges, graph, nodes, s, t);
    }
  }

  lemma {:induction false} EdgesAreReal(p: Program, edges: Masks)
    requires |p.groups| <= MAX_GROUPS && EdgesOf(p, edges, |p.code|)
    ensures OnlyReal(p, edges)
  {
    hide Bit;
    assert p.code[..|p.code|] == p.code;
    forall s, t | 0 <= s < |edges| && 0 <= t < |edges| && Bit(edges[s], t)
      ensures Reaches(p.code, p.groups[s].id, p.groups[t].id)
    {
      CallReaches(p.code, p.groups[s].id, p.groups[t].id);
    }
  }

  /** Close the call graph and reject cycles, self-calls included. */
  method ValidateGroupCallGraph(p: Program, edges: Masks) returns (ok: bool, graph: Masks)
    requires |p.groups| <= MAX_GROUPS && |edges| == |p.groups| && EdgesOf(p, edges, |p.code|)
    requires forall i :: 0 <= i < |p.code| && p.code[i].op.RunGroup? ==> Listed(p.groups, p.code[i].op.target)
    ensures |graph| == |p.groups| && IsClosure(p, graph)
    ensures ok <==> forall g :: 0 <= g < |p.groups| ==> !Reaches(p.code, p.groups[g].id, p.groups[g].id)
  {
    hide EdgesOf, Includes, ClosedBelow, OnlyReal, Reaches, Bit, Listed;
    graph := edges;
    EdgesAreReal(p, edges);
    StartClosed(edges);
    for k := 0 to |edges|
      invariant |graph| == |edges| && ClosedBelow(graph, k) && OnlyReal(p, graph) && Includes(edges, graph)
    {
      RoutingCloses(graph, k);
      RoutingIsReal(p, graph, k);
      RoutingGrows(edges, graph, k);
      graph := RouteThrough(graph, k);
    }
    ClosureIsExact(p, edges, graph);
    for g := 0 to |graph|
      invariant forall h :: 0 <= h < g ==> !Reaches(p.code, p.groups[h].id, p.groups[h].id)
    {
      if Bit(graph[g], g) {
        assert Reaches(p.code, p.groups[g].id, p.groups[g].id);
        return false, graph;
      }
    }
    ok := true;
  }

  lemma {:induction false} StartClosed(edges: Masks)
    ensures ClosedBelow(edges, 0) && Includes(edges, edges)
  {
  }
}
