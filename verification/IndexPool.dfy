/** Laying out, filling and sorting the shared index pool. */
module IndexPool {
  import opened Clock
  import opened Instructions
  import opened Program
  import opened Scheduler
  import opened MarkOrder
  import opened GroupTable
  import opened Sums

  // ----- Ranges ------------------------------------------------------------------------

  function Counts(groups: seq<GroupRecord>): (r: seq<nat>)
    ensures |r| == |groups|
  {
    seq(|groups|, g requires 0 <= g < |groups| => groups[g].count)
  }

  /** Start of the range of group `g`. */
  function Before(groups: seq<GroupRecord>, g: nat): nat
    requires g <= |groups|
  {
    if g == 0 then 0 else Before(groups, g - 1) + groups[g - 1].count
  }

  function MemberCounts(code: seq<Code>, groups: seq<GroupRecord>, n: nat): (r: seq<nat>)
    requires n <= |code|
    ensures |r| == |groups|
  {
    seq(|groups|, g requires 0 <= g < |groups| => |Members(code, groups[g].id, n)|)
  }

  /** Every instruction belongs to exactly one group. */
  lemma {:induction false} MembersPartition(code: seq<Code>, groups: seq<GroupRecord>, n: nat)
    requires n <= |code| && forall i :: 0 <= i < n ==> Listed(groups, code[i].group)
    requires forall g, h :: 0 <= g < h < |groups| ==> groups[g].id != groups[h].id
    ensures Sum(MemberCounts(code, groups, n)) == n
  {
    if n == 0 {
      SumZero(MemberCounts(code, groups, 0));
    } else {
      MembersPartition(code, groups, n - 1);
      assert Listed(groups, code[n - 1].group);
      var g :| 0 <= g < |groups| && groups[g].id == code[n - 1].group;
      var w := MemberCounts(code, groups, n - 1);
      CountOneMore(code, groups, n - 1, g);
      SumUpdate(w, g, w[g] + 1);
    }
  }

  lemma {:induction false} CountOneMore(code: seq<Code>, groups: seq<GroupRecord>, n: nat, g: nat)
    requires n < |code| && g < |groups| && groups[g].id == code[n].group
    requires forall h :: 0 <= h < |groups| && h != g ==> groups[h].id != groups[g].id
    ensures var w := MemberCounts(code, groups, n); MemberCounts(code, groups, n + 1) == w[g := w[g] + 1]
  {
    var w := MemberCounts(code, groups, n);
    var a, b := MemberCounts(code, groups, n + 1), w[g := w[g] + 1];
    forall h | 0 <= h < |groups| ensures a[h] == b[h] {
      assert |Members(code, groups[h].id, n + 1)| == |Members(code, groups[h].id, n)| + if h == g then 1 else 0;
    }
  }

  lemma {:induction false} SumZero(w: seq<nat>)
    requires forall i :: 0 <= i < |w| ==> w[i] == 0
    ensures Sum(w) == 0
  {
    if w != [] { SumZero(w[..|w| - 1]); }
  }

  lemma {:induction false} BeforeIsSum(groups: seq<GroupRecord>, g: nat)
    requires g <= |groups|
    ensures Before(groups, g) == Sum(Counts(groups)[..g])
  {
    if g > 0 {
      BeforeIsSum(groups, g - 1);
      assert Counts(groups)[..g][..g - 1] == Counts(groups)[..g - 1];
    }
  }

  lemma {:induction false} RangesCover(code: seq<Code>, groups: seq<GroupRecord>)
    requires TableFor(code, groups, |code|)
    ensures Before(groups, |groups|) == |code|
  {
    MembersPartition(code, groups, |code|);
    BeforeIsSum(groups, |groups|);
    assert Counts(groups)[..|groups|] == MemberCounts(code, groups, |code|);
  }

  lemma {:induction false} BeforeMonotone(groups: seq<GroupRecord>, g: nat, h: nat)
    requires g <= h <= |groups|
    ensures Before(groups, g) <= Before(groups, h)
    decreases h - g
  {
    if g < h { BeforeMonotone(groups, g, h - 1); }
  }

  /** Ranges follow each other in table order. */
  predicate LaidOut(groups: seq<GroupRecord>) {
    forall g :: 0 <= g < |groups| ==> groups[g].begin == Before(groups, g)
  }

  lemma {:induction false} RangesDisjoint(groups: seq<GroupRecord>, g: nat, h: nat)
    requires LaidOut(groups) && g < h < |groups|
    ensures groups[g].begin + groups[g].count <= groups[h].begin
  {
    BeforeMonotone(groups, g + 1, h);
  }

  lemma {:induction false} RangeFits(code: seq<Code>, groups: seq<GroupRecord>, g: nat)
    requires TableFor(code, groups, |code|) && LaidOut(groups) && g < |groups|
    ensures groups[g].begin + groups[g].count <= |code|
  {
    RangesCover(code, groups);
    BeforeMonotone(groups, g + 1, |groups|);
  }

  lemma {:induction false} BeforeSame(a: seq<GroupRecord>, b: seq<GroupRecord>, g: nat)
    requires g <= |a| == |b| && forall h :: 0 <= h < |a| ==> a[h].count == b[h].count
    ensures Before(a, g) == Before(b, g)
  {
    if g > 0 { BeforeSame(a, b, g - 1); }
  }

  lemma {:induction false} TableSame(code: seq<Code>, a: seq<GroupRecord>, b: seq<GroupRecord>)
    requires TableFor(code, a, |code|) && |b| == |a|
    requires forall g :: 0 <= g < |a| ==> b[g].id == a[g].id && b[g].count == a[g].count
    ensures TableFor(code, b, |code|)
  {
    forall i | 0 <= i < |code| ensures Listed(b, code[i].group) {
      ListedKeeps(a, b, code[i].group);
    }
  }

  lemma {:induction false} BeforeStep(groups: seq<GroupRecord>, g: nat)
    requires g <= |groups|
    ensures Before(groups, 0) == 0
    ensures g < |groups| ==> Before(groups, g + 1) == Before(groups, g) + groups[g].count
  {
  }

  lemma {:induction false} BeforeFits(code: seq<Code>, groups: seq<GroupRecord>, g: nat)
    requires TableFor(code, groups, |code|) && g <= |groups|
    ensures Before(groups, g) <= |code|
  {
    RangesCover(code, groups);
    BeforeMonotone(groups, g, |groups|);
  }

  /** Prefix the pool with each group's range. */
  method LayOut(code: seq<Code>, groups: seq<GroupRecord>) returns (records: seq<GroupRecord>)
    requires |code| <= MAX_INSTRUCTIONS && TableFor(code, groups, |code|)
    ensures TableFor(code, records, |code|) && LaidOut(records)
  {
    hide TableFor, Before;
    records := groups;
    var cursor := 0;
    BeforeStep(groups, 0);
    for g := 0 to |groups|
      invariant |records| == |groups| && cursor == Before(groups, g)
      invariant forall h :: 0 <= h < |groups| ==> records[h].id == groups[h].id && records[h].count == groups[h].count
      invariant forall h :: 0 <= h < g ==> records[h].begin == Before(groups, h)
    {
      records := records[g := records[g].(begin := cursor)];
      cursor := cursor + records[g].count;
      BeforeStep(groups, g);
      BeforeFits(code, groups, g + 1);
      if cursor > MAX_INSTRUCTIONS {
        assert false;
      }
    }
    TableSame(code, groups, records);
    forall g | 0 <= g < |groups| ensures records[g].begin == Before(records, g) {
      BeforeSame(groups, records, g);
    }
  }

  // ----- Filling -------------------------------------------------------------------------

  /** The written part of each range lists the group's instructions below `n` in order. */
  ghost predicate Filled(code: seq<Code>, groups: seq<GroupRecord>, pool: seq<nat>, n: nat)
    requires n <= |code|
  {
    && |pool| == |code|
    && forall g :: 0 <= g < |groups| ==> FilledAt(code, groups[g], pool, n)
  }

  ghost predicate FilledAt(code: seq<Code>, r: GroupRecord, pool: seq<nat>, n: nat)
    requires n <= |code|
  {
    var m := Members(code, r.id, n);
    r.begin + |m| <= |pool| && pool[r.begin..r.begin + |m|] == m
  }

  lemma {:induction false} MembersGrow(code: seq<Code>, id: uint32, m: nat, n: nat)
    requires m <= n <= |code|
    ensures |Members(code, id, m)| <= |Members(code, id, n)|
    decreases n - m
  {
    if m < n { MembersGrow(code, id, m, n - 1); }
  }

  lemma {:induction false} WriteSlot(code: seq<Code>, groups: seq<GroupRecord>, pool: seq<nat>, n: nat, g: nat)
    requires n < |code| && TableFor(code, groups, |code|) && LaidOut(groups) && Filled(code, groups, pool, n)
    requires g < |groups| && groups[g].id == code[n].group
    ensures var at := groups[g].begin + |Members(code, groups[g].id, n)|;
      at < |pool| && Filled(code, groups, pool[at := n], n + 1)
  {
    hide LaidOut;
    var at := groups[g].begin + |Members(code, groups[g].id, n)|;
    MembersGrow(code, groups[g].id, n + 1, |code|);
    RangeFits(code, groups, g);
    var next := pool[at := n];
    forall h | 0 <= h < |groups| ensures FilledAt(code, groups[h], next, n + 1) {
      assert FilledAt(code, groups[h], pool, n);
      if h != g {
        MembersGrow(code, groups[h].id, n, |code|);
        if h < g { RangesDisjoint(groups, h, g); } else { RangesDisjoint(groups, g, h); }
        OtherRange(code, groups[h], groups[g], pool, n, at);
      } else {
        OwnRange(code, groups[g], pool, n);
      }
    }
  }

  lemma {:induction false} OtherRange(code: seq<Code>, r: GroupRecord, w: GroupRecord, pool: seq<nat>, n: nat, at: nat)
    requires n < |code| && FilledAt(code, r, pool, n) && r.id != code[n].group && at < |pool|
    requires at < r.begin || r.begin + |Members(code, r.id, n)| <= at
    ensures FilledAt(code, r, pool[at := n], n + 1)
  {
    var m := Members(code, r.id, n);
    assert Members(code, r.id, n + 1) == m;
    assert pool[at := n][r.begin..r.begin + |m|] == pool[r.begin..r.begin + |m|];
  }

  lemma {:induction false} OwnRange(code: seq<Code>, r: GroupRecord, pool: seq<nat>, n: nat)
    requires n < |code| && FilledAt(code, r, pool, n) && r.id == code[n].group && r.begin + |Members(code, r.id, n)| < |pool|
    ensures FilledAt(code, r, pool[r.begin + |Members(code, r.id, n)| := n], n + 1)
  {
    var m := Members(code, r.id, n);
    var at := r.begin + |m|;
    assert Members(code, r.id, n + 1) == m + [n];
    assert pool[at := n][r.begin..at + 1] == pool[r.begin..at] + [n];
  }

  predicate AllIn(code: seq<Code>, pool: array<nat>)
    reads pool
  {
    forall k :: 0 <= k < pool.Length ==> pool[k] < |code|
  }

  /** Scatter the instruction indexes into their ranges, in insertion order. */
  method Fill(code: seq<Code>, groups: seq<GroupRecord>, pool: array<nat>)
    requires |code| <= MAX_INSTRUCTIONS && TableFor(code, groups, |code|) && LaidOut(groups) && pool.Length == |code| && AllIn(code, pool)
    modifies pool
    ensures Filled(code, groups, pool[..], |code|) && AllIn(code, pool)
  {
    hide TableFor, LaidOut, Filled, Members, FindGroup;
    var write := seq(|groups|, g requires 0 <= g < |groups| => groups[g].begin);
    TableSize(code, groups, |code|);
    NothingFilled(code, groups, pool[..]);
    for i := 0 to |code|
      invariant |write| == |groups| && Filled(code, groups, pool[..], i) && AllIn(code, pool)
      invariant forall g :: 0 <= g < |groups| ==> write[g] == groups[g].begin + |Members(code, groups[g].id, i)|
    {
      var g := Locate(groups, code[i].group);
      IsListed(code, groups, i);
      WriteSlot(code, groups, pool[..], i, g);
      ghost var before := pool[..];
      pool[write[g]] := i;
      assert pool[..] == before[write[g] := i];
      OthersUnchanged(code, groups, i, g);
      write := write[g := write[g] + 1];
    }
  }

  lemma {:induction false} NothingFilled(code: seq<Code>, groups: seq<GroupRecord>, pool: seq<nat>)
    requires TableFor(code, groups, |code|) && LaidOut(groups) && |pool| == |code|
    ensures Filled(code, groups, pool, 0)
    ensures forall g :: 0 <= g < |groups| ==> Members(code, groups[g].id, 0) == []
  {
    forall g | 0 <= g < |groups| ensures groups[g].begin <= |pool| {
      RangeFits(code, groups, g);
    }
  }

  lemma {:induction false} IsListed(code: seq<Code>, groups: seq<GroupRecord>, i: nat)
    requires i < |code| && TableFor(code, groups, |code|)
    ensures exists g :: 0 <= g < |groups| && groups[g].id == code[i].group
  {
    assert Listed(groups, code[i].group);
  }

  lemma {:induction false} OthersUnchanged(code: seq<Code>, groups: seq<GroupRecord>, n: nat, g: nat)
    requires n < |code| && TableFor(code, groups, |code|) && g < |groups| && groups[g].id == code[n].group
    ensures forall h :: 0 <= h < |groups| ==>
      |Members(code, groups[h].id, n + 1)| == |Members(code, groups[h].id, n)| + if h == g then 1 else 0
  {
    forall h | 0 <= h < |groups| && h != g ensures groups[h].id != code[n].group {
      if h < g { assert groups[h].id != groups[g].id; } else { assert groups[g].id != groups[h].id; }
    }
  }

  // ----- Sorting -------------------------------------------------------------------------

  lemma {:induction false} Reassemble(s: seq<nat>, x: nat, j: nat)
    requires j < |s|
    ensures var n := |s| - 1; s[..n][..j] + [x] + s[..n][j..] + [s[n]] == s[..j] + [x] + s[j..]
  {
    var n := |s| - 1;
    assert s[..n][..j] == s[..j] && s[..n][j..] + [s[n]] == s[j..];
  }

  /** Where the backward scan drops `x`. */
  lemma {:induction false} InsertBackAt(code: seq<Code>, s: seq<nat>, x: nat, j: nat)
    requires InCode(code, s) && x < |code| && j <= |s|
    requires forall k :: j <= k < |s| ==> code[s[k]].mark > code[x].mark
    requires j > 0 ==> code[s[j - 1]].mark <= code[x].mark
    ensures InsertBack(code, s, x) == s[..j] + [x] + s[j..]
  {
    var n := |s| - 1;
    if j < |s| {
      assert InsertBack(code, s, x) == InsertBack(code, s[..n], x) + [s[n]];
      InsertBackAt(code, s[..n], x, j);
      Reassemble(s, x, j);
    }
  }

  /** Shift the elements of `pool[begin..i]` with greater marks one place up, from the back,
      and report the place left free for `x`. */
  method ShiftGreater(code: seq<Code>, pool: array<nat>, begin: nat, i: nat, x: nat) returns (insert: nat)
    requires begin <= i < pool.Length && AllIn(code, pool) && x < |code|
    modifies pool
    ensures begin <= insert <= i && AllIn(code, pool)
    ensures forall k :: 0 <= k < insert || i < k < pool.Length ==> pool[k] == old(pool[k])
    ensures forall k :: insert < k <= i ==> pool[k] == old(pool[k - 1])
    ensures forall k :: insert <= k < i ==> code[old(pool[k])].mark > code[x].mark
    ensures insert > begin ==> code[old(pool[insert - 1])].mark <= code[x].mark
  {
    insert := i;
    while insert > begin && code[pool[insert - 1]].mark > code[x].mark
      invariant begin <= insert <= i && AllIn(code, pool)
      invariant forall k :: 0 <= k < insert || i < k < pool.Length ==> pool[k] == old(pool[k])
      invariant forall k :: insert < k <= i ==> pool[k] == old(pool[k - 1])
      invariant forall k :: insert <= k < i ==> code[old(pool[k])].mark > code[x].mark
    {
      pool[insert] := pool[insert - 1];
      insert := insert - 1;
    }
  }

  /** One step of the sort: the element at `i` joins the sorted `pool[begin..i]`. */
  method InsertInto(code: seq<Code>, pool: array<nat>, begin: nat, i: nat)
    requires begin <= i < pool.Length && AllIn(code, pool)
    modifies pool
    ensures AllIn(code, pool) && InCode(code, old(pool[begin..i]))
    ensures pool[begin..i + 1] == InsertBack(code, old(pool[begin..i]), old(pool[i]))
    ensures forall k :: 0 <= k < begin || i < k < pool.Length ==> pool[k] == old(pool[k])
  {
    hide InsertBack;
    ghost var all := pool[..];
    var x := pool[i];
    var insert := ShiftGreater(code, pool, begin, i, x);
    pool[insert] := x;
    ghost var now := pool[..];
    InsertBackAt(code, all[begin..i], x, insert - begin);
    ShiftedUp(all, now, begin, insert, i, x);
    assert pool[begin..i + 1] == now[begin..i + 1];
  }

  lemma {:induction false} ShiftedUp(all: seq<nat>, now: seq<nat>, begin: nat, insert: nat, i: nat, x: nat)
    requires begin <= insert <= i < |all| == |now| && now[insert] == x
    requires forall k :: begin <= k < insert ==> now[k] == all[k]
    requires forall k :: insert < k <= i ==> now[k] == all[k - 1]
    ensures var s, j := all[begin..i], insert - begin; now[begin..i + 1] == s[..j] + [x] + s[j..]
  {
    var s, j := all[begin..i], insert - begin;
    var a, b := now[begin..i + 1], s[..j] + [x] + s[j..];
    forall k | 0 <= k < |a| ensures a[k] == b[k] {
      assert a[k] == now[begin + k];
    }
  }

  /** Insertion sort of one range by mark; equal marks keep their order. */
  method SortRange(code: seq<Code>, pool: array<nat>, begin: nat, end: nat)
    requires begin <= end <= pool.Length && AllIn(code, pool)
    modifies pool
    ensures AllIn(code, pool) && InCode(code, old(pool[begin..end]))
    ensures pool[begin..end] == SortByMark(code, old(pool[begin..end]))
    ensures forall k :: 0 <= k < begin || end <= k < pool.Length ==> pool[k] == old(pool[k])
  {
    hide InsertBack;
    ghost var s := pool[begin..end];
    if begin == end {
      return;
    }
    var i := begin + 1;
    OneIsSorted(code, s[..1]);
    assert pool[begin..i] == s[..1];
    while i < end
      invariant begin < i <= end && AllIn(code, pool)
      invariant InCode(code, s[..i - begin]) && pool[begin..i] == SortByMark(code, s[..i - begin])
      invariant forall k :: 0 <= k < begin || i <= k < pool.Length ==> pool[k] == old(pool[k])
    {
      ghost var n := i - begin;
      assert pool[i] == s[n] && s[..n + 1][..n] == s[..n];
      InsertInto(code, pool, begin, i);
      i := i + 1;
    }
    assert s[..i - begin] == s;
  }

  lemma {:induction false} OneIsSorted(code: seq<Code>, s: seq<nat>)
    requires InCode(code, s) && |s| == 1
    ensures SortByMark(code, s) == s
  {
    assert s == [s[0]];
  }

  // ----- The whole pool ------------------------------------------------------------------

  /** The range of `r` lists `slots`. */
  predicate RangeIs(r: GroupRecord, pool: seq<nat>, slots: seq<nat>) {
    r.begin + |slots| <= |pool| && r.count == |slots| && pool[r.begin..r.begin + |slots|] == slots
  }

  function SortedMembers(code: seq<Code>, id: uint32): (r: seq<nat>)
    ensures InCode(code, r)
  {
    SortByMark(code, Members(code, id, |code|))
  }

  /** The compiled form of `p.code`: groups in order of first appearance after the root, each
      with the contiguous range of its own instructions in stable mark order. */
  ghost predicate Compiled(p: Program) {
    && TableFor(p.code, p.groups, |p.code|)
    && LaidOut(p.groups)
    && |p.pool| == |p.code|
    && forall g :: 0 <= g < |p.groups| ==> RangeIs(p.groups[g], p.pool, SortedMembers(p.code, p.groups[g].id))
  }

  /** Ranges below `n` are sorted, the others still in insertion order. */
  ghost predicate SortedUpTo(code: seq<Code>, groups: seq<GroupRecord>, pool: seq<nat>, n: nat) {
    && |pool| == |code|
    && forall g :: 0 <= g < |groups| ==>
         RangeIs(groups[g], pool,
                 if g < n then SortedMembers(code, groups[g].id) else Members(code, groups[g].id, |code|))
  }

  lemma {:induction false} FilledIsUnsorted(code: seq<Code>, groups: seq<GroupRecord>, pool: seq<nat>)
    requires TableFor(code, groups, |code|) && Filled(code, groups, pool, |code|)
    ensures SortedUpTo(code, groups, pool, 0)
  {
  }

  lemma {:induction false} SortedOneMore(code: seq<Code>, groups: seq<GroupRecord>, a: seq<nat>, b: seq<nat>, g: nat)
    requires LaidOut(groups) && g < |groups| && SortedUpTo(code, groups, a, g) && |b| == |a|
    requires var r := groups[g]; RangeIs(r, b, SortedMembers(code, r.id))
    requires forall k :: 0 <= k < |a| && !(groups[g].begin <= k < groups[g].begin + groups[g].count) ==> b[k] == a[k]
    ensures SortedUpTo(code, groups, b, g + 1)
  {
    hide LaidOut, Members, SortedMembers;
    forall h | 0 <= h < |groups| && h != g
      ensures var r := groups[h]; RangeIs(r, b, if h < g then SortedMembers(code, r.id) else Members(code, r.id, |code|))
    {
      var r := groups[h];
      if h < g { RangesDisjoint(groups, h, g); } else { RangesDisjoint(groups, g, h); }
      assert RangeIs(r, a, if h < g then SortedMembers(code, r.id) else Members(code, r.id, |code|));
      assert b[r.begin..r.begin + r.count] == a[r.begin..r.begin + r.count];
    }
  }

  /** Sort the range of group `g`. */
  method SortGroup(code: seq<Code>, groups: seq<GroupRecord>, pool: array<nat>, g: nat)
    requires LaidOut(groups) && g < |groups| && AllIn(code, pool) && SortedUpTo(code, groups, pool[..], g)
    modifies pool
    ensures AllIn(code, pool) && SortedUpTo(code, groups, pool[..], g + 1)
  {
    hide LaidOut, Members, SortedUpTo, SortedMembers, RangeIs, SortByMark;
    var r := groups[g];
    ghost var before := pool[..];
    UnsortedRange(code, groups, before, g);
    SortRange(code, pool, r.begin, r.begin + r.count);
    ghost var after := pool[..];
    assert after[r.begin..r.begin + r.count] == pool[r.begin..r.begin + r.count];
    RangeSorted(code, r, before, after);
    SortedOneMore(code, groups, before, after, g);
  }

  /** Build the index pool of a group table. The instruction bound is never exceeded. */
  method BuildGroupIndexPool(code: seq<Code>, groups: seq<GroupRecord>) returns (p: Program)
    requires |code| <= MAX_INSTRUCTIONS && TableFor(code, groups, |code|)
    ensures p.code == code && Compiled(p)
  {
    hide TableFor, LaidOut, Filled, SortedUpTo, Compiled;
    var records := LayOut(code, groups);
    var pool := new nat[|code|](_ => 0);
    Fill(code, records, pool);
    FilledIsUnsorted(code, records, pool[..]);
    for g := 0 to |records|
      invariant AllIn(code, pool) && SortedUpTo(code, records, pool[..], g)
    {
      SortGroup(code, records, pool, g);
    }
    p := Program(code, records, pool[..]);
    AllSorted(p);
  }

  lemma {:induction false} UnsortedRange(code: seq<Code>, groups: seq<GroupRecord>, pool: seq<nat>, g: nat)
    requires g < |groups| && SortedUpTo(code, groups, pool, g)
    ensures RangeIs(groups[g], pool, Members(code, groups[g].id, |code|))
    ensures groups[g].begin + groups[g].count <= |pool|
  {
  }

  lemma {:induction false} RangeSorted(code: seq<Code>, r: GroupRecord, before: seq<nat>, after: seq<nat>)
    requires RangeIs(r, before, Members(code, r.id, |code|)) && |after| == |before|
    requires InCode(code, before[r.begin..r.begin + r.count])
    requires after[r.begin..r.begin + r.count] == SortByMark(code, before[r.begin..r.begin + r.count])
    ensures RangeIs(r, after, SortedMembers(code, r.id))
  {
    hide SortByMark, Members, InCode;
    assert before[r.begin..r.begin + r.count] == Members(code, r.id, |code|);
  }

  lemma {:induction false} AllSorted(p: Program)
    requires TableFor(p.code, p.groups, |p.code|) && LaidOut(p.groups)
    requires SortedUpTo(p.code, p.groups, p.pool, |p.groups|)
    ensures Compiled(p)
  {
  }
}
