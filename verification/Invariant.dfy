/** The whole-state invariant of an active program and its preservation by the
    three atomic steps of a tick: resume, complete, dispatch. */
module Invariant {
  import opened Clock
  import opened Instructions
  import opened Program
  import opened Scheduler

  // ----- Counting --------------------------------------------------------------------

  /** Entries owned by `g` among the first `k`. */
  function Owned(ex: seq<Entry>, g: nat, k: nat): nat
    requires k <= |ex|
  {
    if k == 0 then 0 else Owned(ex, g, k - 1) + if ex[k - 1].runtime == g then 1 else 0
  }

  predicate IsChild(r: Runtime, g: nat) {
    r.active && r.parent == g
  }

  /** Active runtimes among the first `k` that name `g` as parent. */
  function Children(rts: seq<Runtime>, g: nat, k: nat): nat
    requires k <= |rts|
  {
    if k == 0 then 0 else Children(rts, g, k - 1) + if IsChild(rts[k - 1], g) then 1 else 0
  }

  lemma {:induction false} OwnedSame(a: seq<Entry>, b: seq<Entry>, g: nat, k: nat)
    requires k <= |a| && k <= |b|
    requires forall i :: 0 <= i < k ==> a[i].runtime == b[i].runtime
    ensures Owned(a, g, k) == Owned(b, g, k)
  {
    if k > 0 { OwnedSame(a, b, g, k - 1); }
  }

  lemma {:induction false} OwnedUpdate(ex: seq<Entry>, i: nat, e: Entry, g: nat, k: nat)
    requires i < k <= |ex|
    ensures Owned(ex[i := e], g, k) + (if ex[i].runtime == g then 1 else 0) == Owned(ex, g, k) + if e.runtime == g then 1 else 0
  {
    if i == k - 1 { OwnedSame(ex, ex[i := e], g, k - 1); } else { OwnedUpdate(ex, i, e, g, k - 1); }
  }

  lemma {:induction false} OwnedWithout(ex: seq<Entry>, i: nat, g: nat)
    requires i < |ex|
    ensures Owned(Without(ex, i), g, |ex| - 1) + (if ex[i].runtime == g then 1 else 0) == Owned(ex, g, |ex|)
  {
    var last := |ex| - 1;
    var moved := ex[i := ex[last]];
    OwnedSame(Without(ex, i), moved, g, last);
    if i < last { OwnedUpdate(ex, i, ex[last], g, last); } else { OwnedSame(moved, ex, g, last); }
  }

  lemma {:induction false} OwnedAppend(ex: seq<Entry>, e: Entry, g: nat)
    ensures Owned(ex + [e], g, |ex| + 1) == Owned(ex, g, |ex|) + if e.runtime == g then 1 else 0
  {
    OwnedSame(ex + [e], ex, g, |ex|);
  }

  lemma {:induction false} OwnedPositive(ex: seq<Entry>, i: nat, k: nat)
    requires i < k <= |ex|
    ensures Owned(ex, ex[i].runtime, k) > 0
  {
    if i < k - 1 { OwnedPositive(ex, i, k - 1); }
  }

  lemma {:induction false} OwnedWitness(ex: seq<Entry>, g: nat, k: nat) returns (i: nat)
    requires k <= |ex| && Owned(ex, g, k) > 0
    ensures i < k && ex[i].runtime == g
  {
    if ex[k - 1].runtime == g { i := k - 1; } else { i := OwnedWitness(ex, g, k - 1); }
  }

  lemma {:induction false} ChildrenSame(a: seq<Runtime>, b: seq<Runtime>, g: nat, k: nat)
    requires k <= |a| && k <= |b|
    requires forall i :: 0 <= i < k ==> IsChild(a[i], g) == IsChild(b[i], g)
    ensures Children(a, g, k) == Children(b, g, k)
  {
    if k > 0 { ChildrenSame(a, b, g, k - 1); }
  }

  lemma {:induction false} ChildrenUpdate(rts: seq<Runtime>, h: nat, r: Runtime, g: nat, k: nat)
    requires h < k <= |rts|
    ensures Children(rts[h := r], g, k) + (if IsChild(rts[h], g) then 1 else 0)
      == Children(rts, g, k) + if IsChild(r, g) then 1 else 0
  {
    if h == k - 1 { ChildrenSame(rts, rts[h := r], g, k - 1); } else { ChildrenUpdate(rts, h, r, g, k - 1); }
  }

  lemma {:induction false} ChildrenPositive(rts: seq<Runtime>, h: nat, g: nat, k: nat)
    requires h < k <= |rts| && IsChild(rts[h], g)
    ensures Children(rts, g, k) > 0
  {
    if h < k - 1 { ChildrenPositive(rts, h, g, k - 1); }
  }

  lemma {:induction false} NoChildren(rts: seq<Runtime>, g: nat, k: nat)
    requires k <= |rts| && forall h :: 0 <= h < k ==> !IsChild(rts[h], g)
    ensures Children(rts, g, k) == 0
  {
    if k > 0 { NoChildren(rts, g, k - 1); }
  }

  // ----- The invariant -----------------------------------------------------------------

  /** Inactive records are reset; active ones form a tree of decreasing rank under
      the root, so depth stays below the number of groups. */
  ghost predicate Linked(p: Program, rts: seq<Runtime>)
    requires Runnable(p)
  {
    && |rts| == |p.groups|
    && forall g :: 0 <= g < |rts| ==> LinkedAt(p, rts, g)
  }

  ghost predicate LinkedAt(p: Program, rts: seq<Runtime>, g: nat)
    requires Runnable(p) && g < |rts| == |p.groups|
  {
    var r := rts[g];
    if !r.active then r == RESET
    else
      && r.cursor <= Count(p, g)
      && r.depth + Rank(p)[g] < |rts|
      && (if g == 0 then r.parent == MAX_GROUPS && r.depth == 0
          else r.parent < |rts| && rts[r.parent].active && r.depth == rts[r.parent].depth + 1)
  }

  /** A timed entry belongs to an active group that has consumed its instruction. */
  ghost predicate EntryAt(p: Program, rts: seq<Runtime>, e: Entry)
    requires Runnable(p) && |rts| == |p.groups|
  {
    e.runtime < |rts| && rts[e.runtime].active &&
    exists k: nat :: k < rts[e.runtime].cursor && k < Count(p, e.runtime) && At(p, e.runtime, k) == e.slot
  }

  ghost predicate Timed(p: Program, rts: seq<Runtime>, ex: seq<Entry>)
    requires Runnable(p) && |rts| == |p.groups|
  {
    && (forall i :: 0 <= i < |ex| ==> EntryAt(p, rts, ex[i]))
    && (forall i, j :: 0 <= i < j < |ex| ==> ex[i].slot != ex[j].slot)
  }

  /** Counters equal what they count. */
  ghost predicate Counted(rts: seq<Runtime>, ex: seq<Entry>) {
    forall g :: 0 <= g < |rts| ==>
      rts[g].activeCount == Owned(ex, g, |ex|) && rts[g].childCount == Children(rts, g, |rts|)
  }

  ghost predicate Sound(p: Program, rts: seq<Runtime>, ex: seq<Entry>) {
    Runnable(p) && Linked(p, rts) && Timed(p, rts, ex) && Counted(rts, ex)
  }

  ghost predicate Inv(s: Ctl) {
    && Shaped(s)
    && Sound(s.prog, s.runtimes, s.executing)
    && (s.phase == Active <==> s.runtimes[0].active)
  }

  // ----- Framing -----------------------------------------------------------------------

  /** The activation tree is the same and cursors only moved forward. */
  ghost predicate Evolves(p: Program, a: seq<Runtime>, b: seq<Runtime>)
    requires Runnable(p) && |a| == |p.groups|
  {
    && |a| == |b|
    && forall i :: 0 <= i < |a| ==>
         && b[i].active == a[i].active && b[i].parent == a[i].parent && b[i].depth == a[i].depth
         && a[i].cursor <= b[i].cursor && (a[i].active ==> b[i].cursor <= Count(p, i))
         && (!a[i].active ==> b[i] == a[i])
  }

  lemma {:induction false} EvolvesKeeps(p: Program, a: seq<Runtime>, b: seq<Runtime>, ex: seq<Entry>)
    requires Runnable(p) && Linked(p, a) && Timed(p, a, ex) && Evolves(p, a, b)
    ensures Linked(p, b) && Timed(p, b, ex)
    ensures forall g: nat :: Children(a, g, |a|) == Children(b, g, |b|)
  {
    forall g | 0 <= g < |b| ensures LinkedAt(p, b, g) {
      assert LinkedAt(p, a, g);
    }
    forall i | 0 <= i < |ex| ensures EntryAt(p, b, ex[i]) {
      assert EntryAt(p, a, ex[i]);
    }
    forall g: nat ensures Children(a, g, |a|) == Children(b, g, |b|) {
      ChildrenSame(a, b, g, |a|);
    }
  }

  lemma {:induction false} ObserveEvolves(p: Program, rts: seq<Runtime>, g: nat, fuel: nat)
    requires Runnable(p) && Linked(p, rts)
    ensures Evolves(p, rts, Observe(rts, g, fuel))
  {
    forall i | 0 <= i < |rts| && rts[i].active ensures rts[i].cursor <= Count(p, i) {
      assert LinkedAt(p, rts, i);
    }
  }

  lemma {:induction false} EvolvesUpdate(p: Program, a: seq<Runtime>, b: seq<Runtime>, g: nat, r: Runtime)
    requires Runnable(p) && |a| == |p.groups| && Evolves(p, a, b) && g < |a| && a[g].active
    requires r.active && r.parent == a[g].parent && r.depth == a[g].depth
    requires a[g].cursor <= r.cursor <= Count(p, g)
    ensures Evolves(p, a, b[g := r])
  {
  }

  // ----- Resume ------------------------------------------------------------------------

  lemma {:induction false} TimedWithout(p: Program, rts: seq<Runtime>, ex: seq<Entry>, i: nat)
    requires Runnable(p) && |rts| == |p.groups| && Timed(p, rts, ex) && i < |ex|
    ensures Timed(p, rts, Without(ex, i))
  {
  }

  lemma {:induction false} TimedRearm(p: Program, rts: seq<Runtime>, ex: seq<Entry>, i: nat, deadline: uint32)
    requires Runnable(p) && |rts| == |p.groups| && Timed(p, rts, ex) && i < |ex|
    ensures Timed(p, rts, ex[i := ex[i].(deadline := deadline)])
  {
    var e := ex[i].(deadline := deadline);
    assert EntryAt(p, rts, ex[i]);
    assert EntryAt(p, rts, e);
  }

  lemma {:induction false} EntryIsCounted(s: Ctl, i: nat)
    requires Inv(s) && i < |s.executing|
    ensures !Stale(s, s.executing[i])
    ensures s.runtimes[s.executing[i].runtime].activeCount > 0
  {
    assert EntryAt(s.prog, s.runtimes, s.executing[i]);
    OwnedPositive(s.executing, i, |s.executing|);
  }

  /** Removing entry `i` and decrementing its owner's count balances. */
  lemma {:induction false} RemovalBalances(p: Program, a: seq<Runtime>, b: seq<Runtime>, ex: seq<Entry>, i: nat)
    requires Sound(p, a, ex) && Evolves(p, a, b) && i < |ex|
    requires ex[i].runtime < |a|
    requires forall g :: 0 <= g < |a| ==> b[g].childCount == a[g].childCount
    requires forall g :: 0 <= g < |a| ==> b[g].activeCount == a[g].activeCount - if g == ex[i].runtime then 1 else 0
    ensures Sound(p, b, Without(ex, i))
  {
    EvolvesKeeps(p, a, b, ex);
    TimedWithout(p, b, ex, i);
    forall g | 0 <= g < |b| ensures b[g].activeCount == Owned(Without(ex, i), g, |ex| - 1) {
      OwnedWithout(ex, i, g);
    }
  }

  lemma {:induction false} RearmBalances(p: Program, a: seq<Runtime>, b: seq<Runtime>, ex: seq<Entry>, i: nat, deadline: uint32)
    requires Sound(p, a, ex) && Evolves(p, a, b) && i < |ex|
    requires forall g :: 0 <= g < |a| ==> b[g].childCount == a[g].childCount && b[g].activeCount == a[g].activeCount
    ensures Sound(p, b, ex[i := ex[i].(deadline := deadline)])
  {
    EvolvesKeeps(p, a, b, ex);
    TimedRearm(p, b, ex, i, deadline);
    var ex' := ex[i := ex[i].(deadline := deadline)];
    forall g | 0 <= g < |b| ensures b[g].activeCount == Owned(ex', g, |ex'|) {
      OwnedUpdate(ex, i, ex'[i], g, |ex|);
    }
  }

  /** Resuming a timed entry keeps the invariant, logs no fault and latches no status. */
  lemma {:induction false} ResumeKeeps(a: Pass, i: nat, t: uint32, x: Effect)
    requires Inv(a.s) && i < |a.s.executing|
    ensures !Stale(a.s, a.s.executing[i])
    ensures var b := ResumeWith(a, i, t, x);
      && Inv(b.s) && b.status == a.status && b.progressed
      && b.s.log == a.s.log + [Resumed(a.s.executing[i].runtime, a.s.executing[i].slot)]
  {
    EntryIsCounted(a.s, i);
    var s, p, rts, e := a.s, a.s.prog, a.s.runtimes, a.s.executing[i];
    var seen := Observe(rts, e.runtime, |rts|);
    ObserveEvolves(p, rts, e.runtime, |rts|);
    if x.delay != 0 {
      RearmBalances(p, rts, seen, s.executing, i, Plus(t, x.delay));
    } else {
      assert LinkedAt(p, rts, e.runtime);
      var r := seen[e.runtime].(activeCount := seen[e.runtime].activeCount - 1);
      EvolvesUpdate(p, rts, seen, e.runtime, r);
      RemovalBalances(p, rts, seen[e.runtime := r], s.executing, i);
    }
  }

  // ----- Complete ----------------------------------------------------------------------

  /** A group with zero counters owns no entry and is nobody's active parent. */
  lemma {:induction false} QuietGroup(p: Program, rts: seq<Runtime>, ex: seq<Entry>, g: nat)
    requires Sound(p, rts, ex) && g < |rts| && rts[g].activeCount == 0 && rts[g].childCount == 0
    ensures forall i :: 0 <= i < |ex| ==> ex[i].runtime != g
    ensures forall h :: 0 <= h < |rts| ==> !IsChild(rts[h], g)
  {
    forall i | 0 <= i < |ex| && ex[i].runtime == g ensures false {
      OwnedPositive(ex, i, |ex|);
    }
    forall h | 0 <= h < |rts| && IsChild(rts[h], g) ensures false {
      ChildrenPositive(rts, h, g, |rts|);
    }
  }

  lemma {:induction false} CanRestart(p: Program, rts: seq<Runtime>, ex: seq<Entry>, g: nat)
    requires Sound(p, rts, ex) && g < |rts| && rts[g].active
    ensures CanStart(rts, g, rts[g].parent)
  {
    assert LinkedAt(p, rts, g);
  }

  lemma {:induction false} RestartDepth(p: Program, rts: seq<Runtime>, ex: seq<Entry>, g: nat, t: uint32, repeats: uint16)
    requires Sound(p, rts, ex) && g < |rts| && rts[g].active && CanStart(rts, g, rts[g].parent)
    ensures Fresh(rts, g, t, repeats, rts[g].parent)
      == Runtime(true, 0, t, repeats, 0, 0, false, rts[g].parent, rts[g].depth)
  {
    assert LinkedAt(p, rts, g);
  }

  /** A new pass of a quiet group keeps the tables sound. */
  lemma {:induction false} RestartSound(p: Program, rts: seq<Runtime>, ex: seq<Entry>, g: nat, r: Runtime)
    requires Sound(p, rts, ex) && g < |rts| && rts[g].active && rts[g].activeCount == 0 && rts[g].childCount == 0
    requires r.active && r.cursor == 0 && r.activeCount == 0 && r.childCount == 0
    requires r.parent == rts[g].parent && r.depth == rts[g].depth
    ensures Sound(p, rts[g := r], ex)
  {
    QuietGroup(p, rts, ex, g);
    var b := rts[g := r];
    forall h | 0 <= h < |b| ensures LinkedAt(p, b, h) {
      assert LinkedAt(p, rts, h);
    }
    forall i | 0 <= i < |ex| ensures EntryAt(p, b, ex[i]) {
      assert EntryAt(p, rts, ex[i]);
    }
    forall h | 0 <= h < |b| ensures b[h].childCount == Children(b, h, |b|) {
      ChildrenUpdate(rts, g, r, h, |rts|);
    }
  }

  /** The tables after `g` is reset and its parent released. */
  function Released(rts: seq<Runtime>, g: nat): (b: seq<Runtime>)
    requires g < |rts|
    ensures |b| == |rts|
  {
    var parent := rts[g].parent;
    var b := rts[g := RESET];
    if g != 0 && parent < |rts| && b[parent].childCount > 0 then
      b[parent := b[parent].(childCount := b[parent].childCount - 1)]
    else b
  }

  lemma {:induction false} ParentCounts(p: Program, rts: seq<Runtime>, ex: seq<Entry>, g: nat)
    requires Sound(p, rts, ex) && 0 < g < |rts| && rts[g].active
    ensures var q := rts[g].parent; q < |rts| && q != g && rts[q].active && rts[q].childCount > 0
  {
    assert LinkedAt(p, rts, g);
    ChildrenPositive(rts, g, rts[g].parent, |rts|);
  }

  lemma {:induction false} ReleaseLinked(p: Program, rts: seq<Runtime>, ex: seq<Entry>, g: nat)
    requires Sound(p, rts, ex) && g < |rts| && rts[g].active && rts[g].activeCount == 0 && rts[g].childCount == 0
    ensures Linked(p, Released(rts, g)) && Timed(p, Released(rts, g), ex)
  {
    QuietGroup(p, rts, ex, g);
    var b := Released(rts, g);
    forall h | 0 <= h < |b| ensures LinkedAt(p, b, h) {
      assert LinkedAt(p, rts, h);
    }
    forall i | 0 <= i < |ex| ensures EntryAt(p, b, ex[i]) {
      assert EntryAt(p, rts, ex[i]);
    }
  }

  lemma {:induction false} ReleaseSound(p: Program, rts: seq<Runtime>, ex: seq<Entry>, g: nat)
    requires Sound(p, rts, ex) && g < |rts| && rts[g].active && rts[g].activeCount == 0 && rts[g].childCount == 0
    ensures Sound(p, Released(rts, g), ex)
  {
    ReleaseLinked(p, rts, ex, g);
    QuietGroup(p, rts, ex, g);
    if g != 0 { ParentCounts(p, rts, ex, g); }
    assert LinkedAt(p, rts, g);
    var b := Released(rts, g);
    forall h | 0 <= h < |b|
      ensures b[h].childCount == Children(b, h, |b|)
      ensures b[h].activeCount == Owned(ex, h, |ex|)
    {
      ChildrenUpdate(rts, g, RESET, h, |rts|);
      ChildrenSame(rts[g := RESET], b, h, |rts|);
    }
  }

  lemma {:induction false} RestartKeeps(s: Ctl, g: nat, t: uint32, repeats: uint16)
    requires Inv(s) && g < |s.runtimes| && Ready(s, g)
    ensures CanStart(s.runtimes, g, s.runtimes[g].parent)
    ensures Inv(StartRuntime(s, g, t, repeats, s.runtimes[g].parent))
  {
    var p, rts, ex := s.prog, s.runtimes, s.executing;
    CanRestart(p, rts, ex, g);
    RestartDepth(p, rts, ex, g, t, repeats);
    RestartSound(p, rts, ex, g, Fresh(rts, g, t, repeats, rts[g].parent));
  }

  lemma {:induction false} FinishKeeps(a: Pass, g: nat)
    requires Inv(a.s) && g < |a.s.runtimes| && Ready(a.s, g)
    ensures var b := Finish(a, g);
      && Inv(b.s) && b.status == a.status && b.progressed == a.progressed
      && b.s.log == a.s.log + [Finished(g)] && b.s.runtimes == Released(a.s.runtimes, g)
  {
    var s := a.s;
    ReleaseSound(s.prog, s.runtimes, s.executing, g);
    if g != 0 { ParentCounts(s.prog, s.runtimes, s.executing, g); }
  }

  /** Completing a ready group keeps the invariant; the only fault it can log is a
      repeat that ended without an observed boundary. */
  lemma {:induction false} CompleteKeeps(a: Pass, g: nat, t: uint32)
    requires Inv(a.s) && g < |a.s.runtimes| && Ready(a.s, g)
    ensures var b, r := Complete(a, g, t), a.s.runtimes[g];
      && Inv(b.s) && b.progressed
      && (if r.repeats != 0 && r.boundary then b.status == a.status && b.s.log == a.s.log + [Restarted(g)]
          else if r.repeats != 0 then
            b.status == Latch(a.status, InvalidProgram) && b.s.log == a.s.log + [Failed(NoBoundary)] + [Finished(g)]
          else b.status == a.status && b.s.log == a.s.log + [Finished(g)])
  {
    var r := a.s.runtimes[g];
    if r.repeats != 0 && r.boundary {
      RestartKeeps(a.s, g, t, if r.repeats == FOREVER then FOREVER else r.repeats - 1);
    } else {
      var b := a.(progressed := true);
      FinishKeeps(if r.repeats != 0 then Fail(b, NoBoundary, InvalidProgram) else b, g);
    }
  }

  // ----- Dispatch ----------------------------------------------------------------------

  lemma {:induction false} ConsumeSound(p: Program, rts: seq<Runtime>, ex: seq<Entry>, seen: seq<Runtime>, g: nat)
    requires Sound(p, rts, ex) && Evolves(p, rts, seen) && g < |rts| && rts[g].active
    requires seen[g].cursor == rts[g].cursor < Count(p, g)
    requires forall i :: 0 <= i < |rts| ==> seen[i].childCount == rts[i].childCount && seen[i].activeCount == rts[i].activeCount
    ensures Sound(p, seen[g := seen[g].(cursor := seen[g].cursor + 1)], ex)
  {
    var next := seen[g].(cursor := seen[g].cursor + 1);
    EvolvesUpdate(p, rts, seen, g, next);
    EvolvesKeeps(p, rts, seen[g := next], ex);
  }

  lemma {:induction false} ConsumeKeeps(s: Ctl, g: nat, t: uint32)
    requires Inv(s) && g < |s.runtimes| && s.runtimes[g].active && s.runtimes[g].cursor < Count(s.prog, g)
    ensures Inv(Consume(s, g, t))
  {
    hide Linked, Timed, Counted, Observe;
    var p, rts, ex := s.prog, s.runtimes, s.executing;
    var k := rts[g].cursor;
    var seen := if Mark(p, g, k) > 0 then Observe(rts, g, |rts|) else rts;
    ObserveEvolves(p, rts, g, if Mark(p, g, k) > 0 then |rts| else 0);
    assert Evolves(p, rts, seen) && seen[g].cursor == k;
    ConsumeSound(p, rts, ex, seen, g);
  }

  /** An instruction that has not been consumed is not under execution. */
  lemma {:induction false} NotExecuting(p: Program, rts: seq<Runtime>, ex: seq<Entry>, g: nat)
    requires Sound(p, rts, ex) && g < |rts| && rts[g].cursor < Count(p, g)
    ensures forall i :: 0 <= i < |ex| ==> ex[i].slot != At(p, g, rts[g].cursor)
  {
    forall i | 0 <= i < |ex| ensures ex[i].slot != At(p, g, rts[g].cursor) {
      assert EntryAt(p, rts, ex[i]);
    }
  }

  ghost function Slots(ex: seq<Entry>, k: nat): (r: set<nat>)
    requires k <= |ex|
    ensures forall x :: x in r <==> exists i :: 0 <= i < k && ex[i].slot == x
  {
    if k == 0 then {} else Slots(ex, k - 1) + {ex[k - 1].slot}
  }

  lemma {:induction false} SlotsSize(ex: seq<Entry>, k: nat)
    requires k <= |ex| && forall i, j :: 0 <= i < j < |ex| ==> ex[i].slot != ex[j].slot
    ensures |Slots(ex, k)| == k
  {
    if k > 0 {
      SlotsSize(ex, k - 1);
      assert ex[k - 1].slot !in Slots(ex, k - 1);
    }
  }

  ghost function Below(n: nat): (r: set<nat>)
    ensures |r| == n && forall x: nat :: x in r <==> x < n
  {
    if n == 0 then {} else Below(n - 1) + {n - 1}
  }

  lemma {:induction false} SubsetSize(a: set<nat>, b: set<nat>)
    requires a <= b
    ensures |a| <= |b|
    decreases b
  {
    if a != {} {
      var x :| x in a;
      SubsetSize(a - {x}, b - {x});
    }
  }

  lemma {:induction false} DistinctFit(ex: seq<Entry>, n: nat, slot: nat)
    requires forall i, j :: 0 <= i < j < |ex| ==> ex[i].slot != ex[j].slot
    requires slot < n && forall i :: 0 <= i < |ex| ==> ex[i].slot < n && ex[i].slot != slot
    ensures |ex| < n
  {
    SlotsSize(ex, |ex|);
    assert Slots(ex, |ex|) <= Below(n) - {slot};
    SubsetSize(Slots(ex, |ex|), Below(n) - {slot});
  }

  /** Distinct slots leave room for one more entry while some slot is not executing. */
  lemma {:induction false} RoomForEntry(p: Program, rts: seq<Runtime>, ex: seq<Entry>, slot: nat)
    requires Sound(p, rts, ex) && slot < |p.code| && forall i :: 0 <= i < |ex| ==> ex[i].slot != slot
    ensures |ex| < MAX_INSTRUCTIONS
  {
    hide LinkedAt, Counted, Distinct;
    forall i | 0 <= i < |ex| ensures ex[i].slot < |p.code| {
      assert EntryAt(p, rts, ex[i]);
    }
    DistinctFit(ex, |p.code|, slot);
  }

  lemma {:induction false} AppendSound(p: Program, rts: seq<Runtime>, ex: seq<Entry>, e: Entry)
    requires Sound(p, rts, ex) && EntryAt(p, rts, e) && forall i :: 0 <= i < |ex| ==> ex[i].slot != e.slot
    ensures Sound(p, rts[e.runtime := rts[e.runtime].(activeCount := rts[e.runtime].activeCount + 1)], ex + [e])
  {
    var r := rts[e.runtime].(activeCount := rts[e.runtime].activeCount + 1);
    var b := rts[e.runtime := r];
    ObserveEvolves(p, rts, 0, 0);
    assert LinkedAt(p, rts, e.runtime);
    EvolvesUpdate(p, rts, rts, e.runtime, r);
    EvolvesKeeps(p, rts, b, ex);
    assert EntryAt(p, b, e);
    forall g | 0 <= g < |b| ensures b[g].activeCount == Owned(ex + [e], g, |ex| + 1) {
      OwnedAppend(ex, e, g);
    }
  }

  /** Running an ordinary instruction keeps the invariant and never meets a full table. */
  lemma {:induction false} RunKeeps(a: Pass, g: nat, i: nat, t: uint32, x: Effect)
    requires Inv(a.s) && i < |a.s.prog.code| && EntryAt(a.s.prog, a.s.runtimes, Entry(i, g, Plus(t, x.delay)))
    requires forall j :: 0 <= j < |a.s.executing| ==> a.s.executing[j].slot != i
    ensures var b := RunWith(a, g, i, t, x);
      Inv(b.s) && b.status == a.status && b.progressed == a.progressed && b.s.log == a.s.log
  {
    RoomForEntry(a.s.prog, a.s.runtimes, a.s.executing, i);
    AppendSound(a.s.prog, a.s.runtimes, a.s.executing, Entry(i, g, Plus(t, x.delay)));
  }

  lemma {:induction false} LaunchLinked(p: Program, rts: seq<Runtime>, g: nat, h: nat, t: uint32, repeats: uint16)
    requires Runnable(p) && Linked(p, rts) && g < |rts| && 0 < h < |rts| && rts[g].active && !rts[h].active
    requires Rank(p)[h] < Rank(p)[g]
    ensures var r := Fresh(rts, h, t, repeats, g);
      r.depth == rts[g].depth + 1 && Linked(p, rts[h := r])
  {
    assert LinkedAt(p, rts, g);
    var r := Fresh(rts, h, t, repeats, g);
    var b := rts[h := r];
    forall i | 0 <= i < |b| ensures LinkedAt(p, b, i) {
      assert LinkedAt(p, rts, i);
    }
  }

  lemma {:induction false} LinkedBounds(p: Program, rts: seq<Runtime>, g: nat)
    requires Runnable(p) && Linked(p, rts) && g < |rts|
    ensures if rts[g].active then rts[g].cursor <= Count(p, g) else rts[g] == RESET
  {
    assert LinkedAt(p, rts, g);
  }

  lemma {:induction false} LaunchTimed(p: Program, rts: seq<Runtime>, ex: seq<Entry>, h: nat, r: Runtime)
    requires Runnable(p) && |rts| == |p.groups| && Timed(p, rts, ex) && h < |rts| && !rts[h].active
    ensures Timed(p, rts[h := r], ex)
  {
    forall i | 0 <= i < |ex| ensures EntryAt(p, rts[h := r], ex[i]) {
      assert EntryAt(p, rts, ex[i]);
    }
  }

  lemma {:induction false} LaunchSound(p: Program, rts: seq<Runtime>, ex: seq<Entry>, g: nat, h: nat, t: uint32, repeats: uint16)
    requires Sound(p, rts, ex) && g < |rts| && 0 < h < |rts| && rts[g].active && !rts[h].active
    requires Rank(p)[h] < Rank(p)[g]
    ensures var b := rts[h := Fresh(rts, h, t, repeats, g)];
      Sound(p, b[g := b[g].(childCount := b[g].childCount + 1)], ex)
  {
    hide LinkedAt, EntryAt;
    LaunchLinked(p, rts, g, h, t, repeats);
    LinkedBounds(p, rts, g);
    LinkedBounds(p, rts, h);
    var b := rts[h := Fresh(rts, h, t, repeats, g)];
    LaunchTimed(p, rts, ex, h, b[h]);
    var r := b[g].(childCount := b[g].childCount + 1);
    ObserveEvolves(p, b, 0, 0);
    EvolvesUpdate(p, b, b, g, r);
    var c := b[g := r];
    EvolvesKeeps(p, b, c, ex);
    forall i | 0 <= i < |b| ensures c[i].childCount == Children(c, i, |c|) {
      ChildrenUpdate(rts, h, Fresh(rts, h, t, repeats, g), i, |rts|);
    }
  }

  /** Dispatching the due instruction keeps the invariant; the only fault it can log is
      a launch of a group that is already running. */
  lemma {:induction false} PerformKeeps(a: Pass, g: nat, k: nat, t: uint32)
    requires Inv(a.s) && g < |a.s.runtimes| && a.s.runtimes[g].active && k < Count(a.s.prog, g)
    requires a.s.runtimes[g].cursor == k + 1
    requires forall j :: 0 <= j < |a.s.executing| ==> a.s.executing[j].slot != At(a.s.prog, g, k)
    ensures var s, i := a.s, At(a.s.prog, g, k);
      var b := Perform(a, g, i, t);
      && Inv(b.s) && b.progressed == a.progressed
      && (if !s.prog.code[i].op.RunGroup? then b.status == a.status && b.s.log == s.log
          else
            var h := Target(s.prog, i);
            && 0 < h < |s.runtimes|
            && (if s.runtimes[h].active then
                  b.s == s.(log := s.log + [Failed(AlreadyRunning)]) && b.status == Latch(a.status, AlreadyActiveGroup)
                else CanLaunch(s, g, h) && b.status == a.status && b.s == Launch(s, g, h, t, s.prog.code[i].op.repeats)))
  {
    hide Timed, Counted, Execute, RunWith;
    var s, i := a.s, At(a.s.prog, g, k);
    if s.prog.code[i].op.RunGroup? {
      var h := Target(s.prog, i);
      assert Calls(s.prog, g, k, h);
      if !s.runtimes[h].active {
        LaunchSound(s.prog, s.runtimes, s.executing, g, h, t, s.prog.code[i].op.repeats);
      }
    } else {
      var x := Execute(s.prog.code[i], s.mem[i], t, s.strip, s.period);
      RunKeeps(a, g, i, t, x);
    }
  }

  /** What a dispatch from `g` does besides keeping the invariant. */
  ghost predicate Dispatches(a: Pass, g: nat, t: uint32, b: Pass)
    requires Inv(a.s) && g < |a.s.runtimes| && HasDue(a.s, g, t)
  {
    var p, k := a.s.prog, a.s.runtimes[g].cursor;
    var i, c := At(p, g, k), Consume(a.s, g, t);
    if !p.code[i].op.RunGroup? then b.status == a.status && b.s.log == c.log
    else
      var h := Target(p, i);
      && 0 < h < |a.s.runtimes|
      && (if a.s.runtimes[h].active then
            b.s == c.(log := c.log + [Failed(AlreadyRunning)]) && b.status == Latch(a.status, AlreadyActiveGroup)
          else CanLaunch(c, g, h) && b.status == a.status && b.s == Launch(c, g, h, t, p.code[i].op.repeats))
  }

  lemma {:induction false} DispatchKeeps(a: Pass, g: nat, t: uint32)
    requires Inv(a.s) && g < |a.s.runtimes| && HasDue(a.s, g, t)
    ensures var b := Dispatch(a, g, t); Inv(b.s) && b.progressed && Dispatches(a, g, t, b)
  {
    var k := a.s.runtimes[g].cursor;
    ConsumeKeeps(a.s, g, t);
    NotExecuting(a.s.prog, a.s.runtimes, a.s.executing, g);
    PerformKeeps(Pass(Consume(a.s, g, t), a.status, true), g, k, t);
  }

  /** The runtime tables before and after a dispatch from `g` at `t`: only `g` moved, and
      at most one record, of the group launched, became active. */
  ghost predicate Moved(p: Program, a: seq<Runtime>, b: seq<Runtime>, g: nat, t: uint32)
    requires InRange(p) && |a| == |p.groups| && g < |a| && a[g].cursor < Count(p, g)
  {
    && |b| == |a|
    && (forall i :: 0 <= i < |a| && a[i].active ==>
          && b[i].active && b[i].startTime == a[i].startTime && b[i].repeats == a[i].repeats
          && b[i].parent == a[i].parent && b[i].depth == a[i].depth
          && b[i].cursor == a[i].cursor + (if i == g then 1 else 0)
          && (a[i].boundary ==> b[i].boundary)
          && (Mark(p, g, a[g].cursor) == 0 ==> b[i].boundary == a[i].boundary))
    && (Mark(p, g, a[g].cursor) > 0 && a[g].active ==> b[g].boundary)
    && (forall i :: 0 <= i < |a| && !a[i].active && b[i].active ==>
          Calls(p, g, a[g].cursor, i) && b[i].startTime == t && b[i].cursor == 0 && !b[i].boundary && b[i].parent == g &&
          b[i].depth == a[g].depth + 1 && b[i].repeats == p.code[At(p, g, a[g].cursor)].op.repeats)
    && (forall i, j :: 0 <= i < j < |a| && !a[i].active && !a[j].active ==> !(b[i].active && b[j].active))
  }

  /** At most one entry was added, with a deadline after `t`. */
  predicate Enlisted(a: seq<Entry>, b: seq<Entry>, g: nat, t: uint32) {
    b == a || (|b| == |a| + 1 && b[..|a|] == a && b[|a|].runtime == g && !Reached(t, b[|a|].deadline))
  }

  lemma {:induction false} RunMoves(a: Pass, g: nat, i: nat, t: uint32, x: Effect)
    requires Shaped(a.s) && g < |a.s.runtimes| && i < |a.s.prog.code| && x.delay < HALF_RANGE
    ensures var b := RunWith(a, g, i, t, x).s;
      && b.prog == a.s.prog && Enlisted(a.s.executing, b.executing, g, t)
      && b.runtimes == a.s.runtimes[g := a.s.runtimes[g].(activeCount := b.runtimes[g].activeCount)]
  {
    if x.delay != 0 { PlusIsNotReached(t, x.delay); }
  }

  lemma {:induction false} ConsumeMoves(s: Ctl, g: nat, t: uint32)
    requires Inv(s) && g < |s.runtimes| && s.runtimes[g].active && s.runtimes[g].cursor < Count(s.prog, g)
    ensures var c := Consume(s, g, t);
      c.prog == s.prog && c.executing == s.executing && Moved(s.prog, s.runtimes, c.runtimes, g, t)
  {
    ObserveFlags(s.runtimes, g, |s.runtimes|);
  }

  lemma {:induction false} ObserveFlags(rts: seq<Runtime>, g: nat, fuel: nat)
    requires g < |rts| && rts[g].active && fuel > 0
    ensures Observe(rts, g, fuel)[g].boundary
  {
  }

  lemma {:induction false} CountMoves(p: Program, a: seq<Runtime>, c: seq<Runtime>, g: nat, t: uint32, n: nat)
    requires InRange(p) && |a| == |p.groups| && g < |a| && a[g].cursor < Count(p, g) && a[g].active
    requires Moved(p, a, c, g, t)
    ensures Moved(p, a, c[g := c[g].(activeCount := n)], g, t)
  {
  }

  lemma {:induction false} LaunchMoves(p: Program, a: seq<Runtime>, c: seq<Runtime>, g: nat, t: uint32, h: nat, repeats: uint16, n: nat)
    requires Runnable(p) && Linked(p, a) && Linked(p, c) && g < |a| && a[g].cursor < Count(p, g) && a[g].active
    requires Moved(p, a, c, g, t) && Calls(p, g, a[g].cursor, h) && h < |a| && !a[h].active
    requires forall i :: 0 <= i < |a| ==> c[i].active == a[i].active
    requires repeats == p.code[At(p, g, a[g].cursor)].op.repeats
    ensures Moved(p, a, c[h := Fresh(c, h, t, repeats, g)][g := c[g].(childCount := n)], g, t)
  {
    LaunchLinked(p, c, g, h, t, repeats);
  }

  lemma {:induction false} DispatchMoves(a: Pass, g: nat, t: uint32)
    requires Inv(a.s) && g < |a.s.runtimes| && HasDue(a.s, g, t)
    ensures var b := Dispatch(a, g, t).s;
      b.prog == a.s.prog && Moved(b.prog, a.s.runtimes, b.runtimes, g, t) && Enlisted(a.s.executing, b.executing, g, t)
  {
    hide Moved, Observe, Runnable, LinkedAt, Timed, Counted, Execute, ClearFrom;
    DispatchKeeps(a, g, t);
    ConsumeKeeps(a.s, g, t);
    ConsumeMoves(a.s, g, t);
    var s, k := a.s, a.s.runtimes[g].cursor;
    var i := At(s.prog, g, k);
    var c := Pass(Consume(s, g, t), a.status, true);
    if s.prog.code[i].op.RunGroup? {
      var h := Target(s.prog, i);
      if !s.runtimes[h].active {
        var n := Dispatch(a, g, t).s.runtimes[g].childCount;
        LaunchMoves(s.prog, s.runtimes, c.s.runtimes, g, t, h, s.prog.code[i].op.repeats, n);
      }
    } else {
      var x := Execute(s.prog.code[i], c.s.mem[i], t, c.s.strip, c.s.period);
      RunMoves(c, g, i, t, x);
      CountMoves(s.prog, s.runtimes, c.s.runtimes, g, t, RunWith(c, g, i, t, x).s.runtimes[g].activeCount);
    }
  }
}
