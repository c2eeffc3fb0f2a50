/** The group call graph: labels and calls on one side, 32-bit reachability masks on the other. */
module CallGraph {
  import opened Clock
  import opened Instructions
  import opened Program
  import opened MarkOrder
  import opened GroupTable
  import opened IndexPool

  // ----- Calls between labels --------------------------------------------------------

  predicate IsCall(c: Code, a: uint32, b: uint32) {
    c.op.RunGroup? && c.group == a && c.op.target == b
  }

  /** Some instruction of the group labelled `a` launches the group labelled `b`. */
  predicate CallsLabel(code: seq<Code>, a: uint32, b: uint32) {
    exists i :: 0 <= i < |code| && IsCall(code[i], a, b)
  }

  /** A chain of labels, each calling the next. */
  predicate IsPath(code: seq<Code>, nodes: seq<uint32>) {
    |nodes| > 0 && forall k :: 0 <= k < |nodes| - 1 ==> CallsLabel(code, nodes[k], nodes[k + 1])
  }

  predicate Joins(code: seq<Code>, nodes: seq<uint32>, a: uint32, b: uint32) {
    |nodes| > 1 && IsPath(code, nodes) && nodes[0] == a && nodes[|nodes| - 1] == b
  }

  /** A chain of at least one call leads from `a` to `b`. */
  ghost predicate Reaches(code: seq<Code>, a: uint32, b: uint32) {
    exists nodes :: Joins(code, nodes, a, b)
  }

  lemma {:induction false} CallReaches(code: seq<Code>, a: uint32, b: uint32)
    requires CallsLabel(code, a, b)
    ensures Reaches(code, a, b)
  {
    assert Joins(code, [a, b], a, b);
  }

  lemma {:induction false} ReachesTransitive(code: seq<Code>, a: uint32, b: uint32, c: uint32)
    requires Reaches(code, a, b) && Reaches(code, b, c)
    ensures Reaches(code, a, c)
  {
    var m :| Joins(code, m, a, b);
    var n :| Joins(code, n, b, c);
    var path := m + n[1..];
    forall k | 0 <= k < |path| - 1 ensures CallsLabel(code, path[k], path[k + 1]) {
      if k >= |m| - 1 {
        var j := k - (|m| - 1);
        assert path[k] == n[j] && path[k + 1] == n[j + 1];
      }
    }
    assert Joins(code, path, a, c);
  }

  // ----- Masks ------------------------------------------------------------------------

  /** The mask with only bit `i`. */
  function One(i: nat): bv32
    requires i < 32
  {
    1 << i
  }

  function Meet(a: bv32, b: bv32): bv32 {
    a & b
  }

  predicate Bit(mask: bv32, i: nat)
    requires i < 32
  {
    Meet(mask, One(i)) != 0
  }

  function Union(a: bv32, b: bv32): bv32 {
    a | b
  }

  lemma {:induction false} Distribute(a: bv32, b: bv32, x: bv32)
    ensures (a | b) & x == (a & x) | (b & x)
  {
  }

  lemma {:induction false} MeetUnion(a: bv32, b: bv32, x: bv32)
    ensures Meet(Union(a, b), x) == Union(Meet(a, x), Meet(b, x))
  {
    Distribute(a, b, x);
  }

  lemma {:induction false} UnionZero(a: bv32, b: bv32)
    ensures Union(a, b) == 0 <==> a == 0 && b == 0
  {
  }

  lemma {:induction false} BitOr(a: bv32, b: bv32, i: nat)
    requires i < 32
    ensures Bit(Union(a, b), i) <==> Bit(a, i) || Bit(b, i)
  {
    hide One, Meet, Union;
    MeetUnion(a, b, One(i));
    UnionZero(Meet(a, One(i)), Meet(b, One(i)));
  }

  lemma {:induction false} BitOne(i: nat, j: nat)
    requires i < 32 && j < 32
    ensures Bit(One(j), i) <==> i == j
  {
  }

  lemma {:induction false} BitZero(i: nat)
    requires i < 32
    ensures !Bit(0, i)
  {
  }

  /** The mask of `s` has bit `t` exactly when `s` calls `t`, counting instructions below `n`. */
  ghost predicate EdgesOf(p: Program, graph: seq<bv32>, n: nat)
    requires |p.groups| <= MAX_GROUPS && n <= |p.code|
  {
    && |graph| == |p.groups|
    && forall s, t :: 0 <= s < |graph| && 0 <= t < |graph| ==>
         (Bit(graph[s], t) <==> CallsLabel(p.code[..n], p.groups[s].id, p.groups[t].id))
  }

  lemma {:induction false} CallsOneMore(code: seq<Code>, n: nat, a: uint32, b: uint32)
    requires n < |code|
    ensures CallsLabel(code[..n + 1], a, b) <==> CallsLabel(code[..n], a, b) || IsCall(code[n], a, b)
  {
    assert code[..n + 1][n] == code[n];
    assert forall i :: 0 <= i < n ==> code[..n + 1][i] == code[..n][i];
    if CallsLabel(code[..n], a, b) {
      var i :| 0 <= i < |code[..n]| && IsCall(code[..n][i], a, b);
      assert IsCall(code[..n + 1][i], a, b);
    }
  }

  lemma {:induction false} AddEdge(p: Program, graph: seq<bv32>, n: nat, s: nat, t: nat)
    requires |p.groups| <= MAX_GROUPS && n < |p.code| && EdgesOf(p, graph, n)
    requires forall g, h :: 0 <= g < h < |p.groups| ==> p.groups[g].id != p.groups[h].id
    requires s < |graph| && t < |graph| && IsCall(p.code[n], p.groups[s].id, p.groups[t].id)
    ensures EdgesOf(p, graph[s := Union(graph[s], One(t))], n + 1)
  {
    hide Bit, One, Union, CallsLabel;
    var next := graph[s := Union(graph[s], One(t))];
    forall g, h | 0 <= g < |next| && 0 <= h < |next|
      ensures Bit(next[g], h) <==> CallsLabel(p.code[..n + 1], p.groups[g].id, p.groups[h].id)
    {
      CallsOneMore(p.code, n, p.groups[g].id, p.groups[h].id);
      BitOr(graph[s], One(t), h);
      BitOne(h, t);
    }
  }

  lemma {:induction false} NoEdge(p: Program, graph: seq<bv32>, n: nat)
    requires |p.groups| <= MAX_GROUPS && n < |p.code| && EdgesOf(p, graph, n) && !p.code[n].op.RunGroup?
    ensures EdgesOf(p, graph, n + 1)
  {
    hide Bit, CallsLabel;
    forall g, h | 0 <= g < |graph| && 0 <= h < |graph|
      ensures Bit(graph[g], h) <==> CallsLabel(p.code[..n + 1], p.groups[g].id, p.groups[h].id)
    {
      CallsOneMore(p.code, n, p.groups[g].id, p.groups[h].id);
    }
  }

  lemma {:induction false} NoEdges(p: Program, graph: seq<bv32>)
    requires |p.groups| <= MAX_GROUPS && |graph| == |p.groups| && forall g :: 0 <= g < |graph| ==> graph[g] == 0
    ensures EdgesOf(p, graph, 0)
  {
    forall g, h | 0 <= g < |graph| && 0 <= h < |graph| ensures !Bit(graph[g], h) {
      BitZero(h);
    }
  }

  // ----- Targets -----------------------------------------------------------------------

  predicate Labels(code: seq<Code>, id: uint32) {
    exists j :: 0 <= j < |code| && code[j].group == id
  }

  /** The target of a launch is a nonzero label that some instruction carries. */
  predicate TargetOk(code: seq<Code>, c: Code) {
    c.op.RunGroup? ==> c.op.target != 0 && Labels(code, c.op.target)
  }

  /** A nonzero label is in the table exactly when some instruction carries it. */
  lemma {:induction false} ListedIffLabels(p: Program, id: uint32)
    requires TableFor(p.code, p.groups, |p.code|) && id != 0
    ensures Listed(p.groups, id) <==> Labels(p.code, id)
  {
    if Listed(p.groups, id) {
      var g :| 0 <= g < |p.groups| && p.groups[g].id == id;
      MembersSpec(p.code, id, |p.code|);
      var m := Members(p.code, id, |p.code|);
      assert p.code[m[0]].group == id;
    }
    if Labels(p.code, id) {
      var j :| 0 <= j < |p.code| && p.code[j].group == id;
      assert Listed(p.groups, p.code[j].group);
    }
  }

  /** Resolve every launch and build the call graph; fails exactly on a bad target. */
  method BuildGroupCallGraph(p: Program) returns (ok: bool, graph: seq<bv32>)
    requires |p.code| <= MAX_INSTRUCTIONS && TableFor(p.code, p.groups, |p.code|)
    ensures |p.groups| <= MAX_GROUPS
    ensures ok <==> forall i :: 0 <= i < |p.code| ==> TargetOk(p.code, p.code[i])
    ensures ok ==> EdgesOf(p, graph, |p.code|)
  {
    hide TableFor, EdgesOf, FindGroup, Labels, One, Union;
    TableSize(p.code, p.groups, |p.code|);
    graph := seq(|p.groups|, _ => 0);
    NoEdges(p, graph);
    for i := 0 to |p.code|
      invariant EdgesOf(p, graph, i)
      invariant forall j :: 0 <= j < i ==> TargetOk(p.code, p.code[j])
    {
      var c := p.code[i];
      EdgesSize(p, graph, i);
      if c.op.RunGroup? {
        if c.op.target == 0 {
          return false, graph;
        }
        var s := Locate(p.groups, c.group);
        var t := Locate(p.groups, c.op.target);
        ListedIffLabels(p, c.op.target);
        IsListed(p.code, p.groups, i);
        if s == MAX_GROUPS || t == MAX_GROUPS {
          return false, graph;
        }
        AddEdge(p, graph, i, s, t);
        graph := graph[s := Union(graph[s], One(t))];
      } else {
        NoEdge(p, graph, i);
      }
    }
    ok := true;
  }

  lemma {:induction false} EdgesSize(p: Program, graph: seq<bv32>, n: nat)
    requires |p.groups| <= MAX_GROUPS && n <= |p.code| && EdgesOf(p, graph, n)
    requires TableFor(p.code, p.groups, |p.code|)
    ensures |graph| == |p.groups|
    ensures forall g, h :: 0 <= g < h < |p.groups| ==> p.groups[g].id != p.groups[h].id
  {
  }
}
