/** A compiled program: stored instructions, group table and index pool. */
module Program {
  import opened Clock
  import opened Instructions

  const MAX_INSTRUCTIONS: nat := 28
  const MAX_GROUPS: nat := 29

  /** A contiguous range of the index pool owned by the group labelled `id`. */
  datatype GroupRecord = GroupRecord(id: uint32, begin: nat, count: nat)

  datatype Program = Program(code: seq<Code>, groups: seq<GroupRecord>, pool: seq<nat>)

  /** Index of the group labelled `id` at or after `i`, or `MAX_GROUPS`. */
  function FindFrom(groups: seq<GroupRecord>, i: nat, id: uint32): nat
    requires i <= |groups|
    decreases |groups| - i
  {
    if i == |groups| then MAX_GROUPS
    else if groups[i].id == id then i
    else FindFrom(groups, i + 1, id)
  }

  function FindGroup(groups: seq<GroupRecord>, id: uint32): nat {
    FindFrom(groups, 0, id)
  }

  /** Every range lies in the pool and every pool entry names a stored instruction. */
  predicate InRange(p: Program) {
    && (forall g :: 0 <= g < |p.groups| ==> p.groups[g].begin + p.groups[g].count <= |p.pool|)
    && (forall i :: 0 <= i < |p.pool| ==> p.pool[i] < |p.code|)
  }

  function Count(p: Program, g: nat): nat
    requires g < |p.groups|
  {
    p.groups[g].count
  }

  /** The `k`-th instruction slot of group `g`. */
  function At(p: Program, g: nat, k: nat): (slot: nat)
    requires InRange(p) && g < |p.groups| && k < Count(p, g)
    ensures slot < |p.code|
  {
    p.pool[p.groups[g].begin + k]
  }

  function Mark(p: Program, g: nat, k: nat): uint16
    requires InRange(p) && g < |p.groups| && k < Count(p, g)
  {
    p.code[At(p, g, k)].mark
  }

  /** Group index launched by slot `i`. */
  function Target(p: Program, i: nat): nat
    requires i < |p.code| && p.code[i].op.RunGroup?
  {
    FindGroup(p.groups, p.code[i].op.target)
  }

  /** The `k`-th instruction of `g` launches group `h`. */
  predicate Calls(p: Program, g: nat, k: nat, h: nat)
    requires InRange(p)
  {
    g < |p.groups| && k < Count(p, g) && p.code[At(p, g, k)].op.RunGroup? && Target(p, At(p, g, k)) == h
  }

  /** A group only ever launches groups of smaller rank. */
  ghost predicate Ranked(p: Program, rank: seq<nat>)
    requires InRange(p)
  {
    && |rank| == |p.groups|
    && (forall g :: 0 <= g < |rank| ==> rank[g] < |rank|)
    && (forall g: nat, k: nat, h: nat :: Calls(p, g, k, h) ==> 0 < h < |rank| && rank[h] < rank[g])
  }

  /** No slot occurs at two pool positions of the group table. */
  ghost predicate Distinct(p: Program)
    requires InRange(p)
  {
    forall g: nat, k: nat, h: nat, j: nat ::
      (g < |p.groups| && k < Count(p, g) && h < |p.groups| && j < Count(p, h) && At(p, g, k) == At(p, h, j)) ==>
        g == h && k == j
  }

  /** What the scheduler needs of a committed program. */
  ghost predicate Runnable(p: Program) {
    && 0 < |p.groups| <= MAX_GROUPS
    && |p.code| <= MAX_INSTRUCTIONS
    && InRange(p)
    && Distinct(p)
    && exists rank :: Ranked(p, rank)
  }

  ghost function Rank(p: Program): (rank: seq<nat>)
    requires Runnable(p)
    ensures Ranked(p, rank)
  {
    var rank :| Ranked(p, rank);
    rank
  }

  /** Steps one activation of `g` can still cause from position `k` on: one for its
      completion, and for each instruction one plus the load of the group it launches. */
  ghost function Load(p: Program, g: nat, k: nat): (n: nat)
    requires Runnable(p) && g < |p.groups|
    ensures n > 0
    decreases Rank(p)[g], if k < Count(p, g) then Count(p, g) - k else 0
  {
    if k >= Count(p, g) then 1
    else
      var i := At(p, g, k);
      var child := if p.code[i].op.RunGroup? then
                     assert Calls(p, g, k, Target(p, i)); Load(p, Target(p, i), 0)
                   else 0;
      1 + child + Load(p, g, k + 1)
  }
}
