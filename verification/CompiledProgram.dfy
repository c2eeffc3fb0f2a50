/** Properties of a compiled program's index pool. */
module CompiledProgram {
  import opened Clock
  import opened Instructions
  import opened Program
  import opened MarkOrder
  import opened GroupTable
  import opened IndexPool

  lemma {:induction false} CoverFrom(groups: seq<GroupRecord>, k: nat, n: nat) returns (g: nat)
    requires n <= |groups| && k < Before(groups, n)
    ensures g < n && Before(groups, g) <= k < Before(groups, g) + groups[g].count
  {
    if k < Before(groups, n - 1) { g := CoverFrom(groups, k, n - 1); } else { g := n - 1; }
  }

  /** Every pool position lies in the range of some group. */
  lemma {:induction false} Cover(p: Program, k: nat) returns (g: nat)
    requires Compiled(p) && k < |p.pool|
    ensures g < |p.groups| && p.groups[g].begin <= k < p.groups[g].begin + p.groups[g].count
  {
    RangesCover(p.code, p.groups);
    g := CoverFrom(p.groups, k, |p.groups|);
  }

  lemma {:induction false} SortedMembersSpec(code: seq<Code>, id: uint32)
    ensures var m := SortedMembers(code, id);
      && Stable(code, m)
      && (forall k :: 0 <= k < |m| ==> code[m[k]].group == id)
      && (forall i :: 0 <= i < |code| && code[i].group == id ==> i in m)
  {
    var s, m := Members(code, id, |code|), SortedMembers(code, id);
    MembersSpec(code, id, |code|);
    SortIsStable(code, s);
    SortPermutes(code, s);
    forall k | 0 <= k < |m| ensures code[m[k]].group == id {
      assert m[k] in multiset(m);
      assert m[k] in s;
    }
    forall i | 0 <= i < |code| && code[i].group == id ensures i in m {
      assert i in multiset(s);
    }
  }

  lemma {:induction false} PoolInRange(p: Program)
    requires Compiled(p)
    ensures InRange(p)
  {
    hide TableFor, LaidOut, SortedMembers;
    forall i | 0 <= i < |p.pool| ensures p.pool[i] < |p.code| {
      var g := Cover(p, i);
      var r, m := p.groups[g], SortedMembers(p.code, p.groups[g].id);
      assert RangeIs(r, p.pool, m);
      assert p.pool[i] == p.pool[r.begin..r.begin + |m|][i - r.begin];
    }
    forall g | 0 <= g < |p.groups| ensures p.groups[g].begin + p.groups[g].count <= |p.pool| {
      assert RangeIs(p.groups[g], p.pool, SortedMembers(p.code, p.groups[g].id));
    }
  }

  lemma {:induction false} PoolAt(p: Program, g: nat)
    requires Compiled(p) && InRange(p) && g < |p.groups|
    ensures var m := SortedMembers(p.code, p.groups[g].id);
      |m| == Count(p, g) && forall k :: 0 <= k < |m| ==> At(p, g, k) == m[k]
  {
    hide TableFor, LaidOut, SortedMembers, InRange;
    var r, m := p.groups[g], SortedMembers(p.code, p.groups[g].id);
    assert RangeIs(r, p.pool, m);
    forall k | 0 <= k < |m| ensures p.pool[r.begin + k] == m[k] {
      assert p.pool[r.begin..r.begin + |m|][k] == m[k];
    }
  }

  /** A group's range holds its own instructions in stable mark order. */
  lemma {:induction false} PoolOrder(p: Program, g: nat)
    requires Compiled(p) && InRange(p) && g < |p.groups|
    ensures forall k :: 0 <= k < Count(p, g) ==> p.code[At(p, g, k)].group == p.groups[g].id
    ensures forall k, j :: 0 <= k < j < Count(p, g) ==> Precedes(p.code, At(p, g, k), At(p, g, j))
  {
    hide Compiled, SortedMembers;
    PoolAt(p, g);
    SortedMembersSpec(p.code, p.groups[g].id);
  }

  /** Every instruction has a place in the range of its group. */
  lemma {:induction false} PoolHolds(p: Program, i: nat) returns (g: nat, k: nat)
    requires Compiled(p) && InRange(p) && i < |p.code|
    ensures g < |p.groups| && p.groups[g].id == p.code[i].group && k < Count(p, g) && At(p, g, k) == i
  {
    hide SortedMembers;
    assert Listed(p.groups, p.code[i].group);
    g :| 0 <= g < |p.groups| && p.groups[g].id == p.code[i].group;
    var m := SortedMembers(p.code, p.groups[g].id);
    SortedMembersSpec(p.code, p.groups[g].id);
    PoolAt(p, g);
    k :| 0 <= k < |m| && m[k] == i;
  }

  /** No instruction has two places: with `PoolHolds`, the pool is a permutation. */
  lemma {:induction false} PoolDistinct(p: Program)
    requires Compiled(p) && InRange(p)
    ensures Distinct(p)
  {
    hide Compiled;
    forall g: nat, k: nat, h: nat, j: nat |
      g < |p.groups| && k < Count(p, g) && h < |p.groups| && j < Count(p, h) && At(p, g, k) == At(p, h, j)
      ensures g == h && k == j
    {
      PoolOrder(p, g);
      PoolOrder(p, h);
      LabelsDistinct(p, g, h);
    }
  }

  lemma {:induction false} LabelsDistinct(p: Program, g: nat, h: nat)
    requires Compiled(p) && g < |p.groups| && h < |p.groups| && p.groups[g].id == p.groups[h].id
    ensures g == h
  {
  }
}
