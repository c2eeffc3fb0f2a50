/** Building the group table and the partitioned, mark-sorted index pool. */
module GroupTable {
  import opened Clock
  import opened Instructions
  import opened Program
  import opened MarkOrder

  /** Indexes below `n` of the instructions labelled `id`, in insertion order. */
  function Members(code: seq<Code>, id: uint32, n: nat): (r: seq<nat>)
    requires n <= |code|
    ensures |r| <= n && InCode(code, r)
  {
    if n == 0 then []
    else if code[n - 1].group == id then Members(code, id, n - 1) + [n - 1]
    else Members(code, id, n - 1)
  }

  /** Exactly the instructions labelled `id`, in ascending order. */
  lemma {:induction false} MembersSpec(code: seq<Code>, id: uint32, n: nat)
    requires n <= |code|
    ensures var r := Members(code, id, n);
      && Ascending(r)
      && (forall k :: 0 <= k < |r| ==> r[k] < n && code[r[k]].group == id)
      && (forall i :: 0 <= i < n && code[i].group == id ==> i in r)
  {
    if n > 0 { MembersSpec(code, id, n - 1); }
  }

  predicate Listed(groups: seq<GroupRecord>, id: uint32) {
    exists g :: 0 <= g < |groups| && groups[g].id == id
  }

  /** Both labels occur below `n`, `a` first. */
  predicate SeenBefore(code: seq<Code>, a: uint32, b: uint32, n: nat)
    requires n <= |code|
  {
    var s, t := Members(code, a, n), Members(code, b, n);
    |s| > 0 && |t| > 0 && s[0] < t[0]
  }

  lemma {:induction false} SeenBeforeKeeps(code: seq<Code>, a: uint32, b: uint32, n: nat)
    requires n < |code| && SeenBefore(code, a, b, n)
    ensures SeenBefore(code, a, b, n + 1)
  {
  }

  /** The table describes the first `n` instructions: the root first, labels distinct, every
      label that occurs present with its number of instructions, and the other groups in the
      order in which their labels first occur. */
  ghost predicate TableFor(code: seq<Code>, groups: seq<GroupRecord>, n: nat)
    requires n <= |code|
  {
    && 0 < |groups| <= n + 1
    && groups[0].id == 0
    && (forall g, h :: 0 <= g < h < |groups| ==> groups[g].id != groups[h].id)
    && (forall g :: 0 <= g < |groups| ==> groups[g].count == |Members(code, groups[g].id, n)|)
    && (forall g :: 0 < g < |groups| ==> groups[g].count > 0)
    && (forall i :: 0 <= i < n ==> Listed(groups, code[i].group))
    && (forall g, h :: 0 < g < h < |groups| ==> SeenBefore(code, groups[g].id, groups[h].id, n))
  }

  lemma {:induction false} FindFromSpec(groups: seq<GroupRecord>, i: nat, id: uint32)
    requires i <= |groups| <= MAX_GROUPS
    ensures var r := FindFrom(groups, i, id);
      if r < |groups| then i <= r && groups[r].id == id
      else r == MAX_GROUPS && forall g :: i <= g < |groups| ==> groups[g].id != id
    decreases |groups| - i
  {
    if i < |groups| && groups[i].id != id { FindFromSpec(groups, i + 1, id); }
  }

  lemma {:induction false} FindSpec(groups: seq<GroupRecord>, id: uint32)
    requires |groups| <= MAX_GROUPS
    ensures var r := FindGroup(groups, id);
      if r < |groups| then groups[r].id == id else r == MAX_GROUPS && forall g :: 0 <= g < |groups| ==> groups[g].id != id
  {
    FindFromSpec(groups, 0, id);
  }

  method Locate(groups: seq<GroupRecord>, id: uint32) returns (r: nat)
    requires |groups| <= MAX_GROUPS
    ensures r == FindGroup(groups, id)
    ensures if r < |groups| then groups[r].id == id else r == MAX_GROUPS && forall g :: 0 <= g < |groups| ==> groups[g].id != id
  {
    FindSpec(groups, id);
    for i := 0 to |groups|
      invariant FindFrom(groups, i, id) == FindGroup(groups, id)
    {
      if groups[i].id == id { return i; }
    }
    return MAX_GROUPS;
  }

  lemma {:induction false} ListedKeeps(a: seq<GroupRecord>, b: seq<GroupRecord>, id: uint32)
    requires |a| <= |b| && (forall g :: 0 <= g < |a| ==> b[g].id == a[g].id) && Listed(a, id)
    ensures Listed(b, id)
  {
    var g :| 0 <= g < |a| && a[g].id == id;
    assert b[g].id == id;
  }

  lemma {:induction false} CountInstruction(code: seq<Code>, groups: seq<GroupRecord>, n: nat, g: nat)
    requires n < |code| && TableFor(code, groups, n) && g < |groups| && groups[g].id == code[n].group
    ensures TableFor(code, groups[g := groups[g].(count := groups[g].count + 1)], n + 1)
  {
    hide Listed, Ascending, InCode;
    var next := groups[g := groups[g].(count := groups[g].count + 1)];
    forall h | 0 <= h < |next| ensures next[h].count == |Members(code, next[h].id, n + 1)| {
      if h != g { assert groups[h].id != groups[g].id; }
    }
    assert Listed(next, code[n].group) by { ListedAt(next, g); }
    forall a, b | 0 < a < b < |next| ensures SeenBefore(code, next[a].id, next[b].id, n + 1) {
      SeenBeforeKeeps(code, groups[a].id, groups[b].id, n);
    }
    forall i | 0 <= i < n + 1 ensures Listed(next, code[i].group) {
      if i < n { ListedKeeps(groups, next, code[i].group); }
    }
  }

  lemma {:induction false} ListedAt(groups: seq<GroupRecord>, g: nat)
    requires g < |groups|
    ensures Listed(groups, groups[g].id)
  {
  }

  lemma {:induction false} AddLabel(code: seq<Code>, groups: seq<GroupRecord>, n: nat, r: GroupRecord)
    requires n < |code| && TableFor(code, groups, n) && forall g :: 0 <= g < |groups| ==> groups[g].id != code[n].group
    requires r.id == code[n].group && r.count == 1
    ensures TableFor(code, groups + [r], n + 1)
  {
    hide Listed, Ascending, InCode;
    var next := groups + [r];
    AbsentLabel(code, groups, n, r.id);
    forall h | 0 <= h < |next| ensures next[h].count == |Members(code, next[h].id, n + 1)| {
    }
    assert Listed(next, code[n].group) by { ListedAt(next, |groups|); }
    forall a, b | 0 < a < b < |next| ensures SeenBefore(code, next[a].id, next[b].id, n + 1) {
      if b < |groups| {
        SeenBeforeKeeps(code, groups[a].id, groups[b].id, n);
      } else {
        LastSeen(code, groups[a].id, r.id, n);
      }
    }
    forall i | 0 <= i < n + 1 ensures Listed(next, code[i].group) {
      if i < n { ListedKeeps(groups, next, code[i].group); }
    }
  }

  lemma {:induction false} LastSeen(code: seq<Code>, a: uint32, b: uint32, n: nat)
    requires n < |code| && Members(code, a, n) != [] && Members(code, b, n) == [] && code[n].group == b
    ensures SeenBefore(code, a, b, n + 1)
  {
    MembersSpec(code, a, n);
    assert a != b;
    assert Members(code, a, n + 1) == Members(code, a, n);
  }

  lemma {:induction false} AbsentLabel(code: seq<Code>, groups: seq<GroupRecord>, n: nat, id: uint32)
    requires n <= |code| && TableFor(code, groups, n) && forall g :: 0 <= g < |groups| ==> groups[g].id != id
    ensures Members(code, id, n) == []
  {
    forall i | 0 <= i < n ensures code[i].group != id {
      assert Listed(groups, code[i].group);
    }
    NoMembers(code, id, n);
  }

  lemma {:induction false} NoMembers(code: seq<Code>, id: uint32, n: nat)
    requires n <= |code| && forall i :: 0 <= i < n ==> code[i].group != id
    ensures Members(code, id, n) == []
  {
    if n > 0 { NoMembers(code, id, n - 1); }
  }

  lemma {:induction false} RootTable(code: seq<Code>)
    ensures TableFor(code, [GroupRecord(0, 0, 0)], 0)
  {
  }

  lemma {:induction false} TableSize(code: seq<Code>, groups: seq<GroupRecord>, n: nat)
    requires n <= |code| && TableFor(code, groups, n)
    ensures 0 < |groups| <= n + 1
  {
  }

  /** Counting instructions into groups never runs out of records: N instructions need at
      most N + 1 groups, so the capacity status is never returned. */
  method BuildGroupTable(code: seq<Code>) returns (groups: seq<GroupRecord>)
    requires |code| <= MAX_INSTRUCTIONS
    ensures TableFor(code, groups, |code|)
  {
    hide TableFor, FindGroup;
    groups := [GroupRecord(0, 0, 0)];
    RootTable(code);
    for i := 0 to |code|
      invariant TableFor(code, groups, i)
    {
      TableSize(code, groups, i);
      var g := Locate(groups, code[i].group);
      if g == MAX_GROUPS {
        if |groups| >= MAX_GROUPS {
          assert false;
        }
        AddLabel(code, groups, i, GroupRecord(code[i].group, 0, 1));
        groups := groups + [GroupRecord(code[i].group, 0, 1)];
      } else {
        CountInstruction(code, groups, i, g);
        groups := groups[g := groups[g].(count := groups[g].count + 1)];
      }
    }
  }
}
