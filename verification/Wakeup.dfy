/** What a finished tick guarantees: no lost wakeup, clean completion, and early
    ticks that change nothing. */
module Wakeup {
  import opened Clock
  import opened Instructions
  import opened Program
  import opened Scheduler
  import opened Invariant
  import opened Tick

  // ----- The armed delay is the earliest one ------------------------------------------

  predicate EntryWait(s: Ctl, i: nat, t: uint32, d: nat) {
    i < |s.executing| && !Reached(t, s.executing[i].deadline) && d == Since(s.executing[i].deadline, t)
  }

  predicate MarkWait(s: Ctl, g: nat, t: uint32, d: nat)
    requires Shaped(s)
  {
    g < |s.runtimes| && s.runtimes[g].active && s.runtimes[g].cursor < Count(s.prog, g) &&
    Mark(s.prog, g, s.runtimes[g].cursor) > Since(t, s.runtimes[g].startTime) &&
    d == Mark(s.prog, g, s.runtimes[g].cursor) - Since(t, s.runtimes[g].startTime)
  }

  /** Some outstanding deadline or next mark is `d` after `t`. */
  ghost predicate Waits(s: Ctl, t: uint32, d: nat)
    requires Shaped(s)
  {
    (exists i :: EntryWait(s, i, t, d)) || (exists g :: MarkWait(s, g, t, d))
  }

  /** `d` is the least wait, or 0 when nothing is outstanding. */
  ghost predicate Earliest(s: Ctl, t: uint32, d: nat)
    requires Shaped(s)
  {
    && (d == 0 || Waits(s, t, d))
    && (forall w :: Waits(s, t, w) ==> 0 < d <= w)
  }

  lemma {:induction false} WaitIsPositive(t: uint32, deadline: uint32)
    requires !Reached(t, deadline)
    ensures Since(deadline, t) > 0
  {
  }

  lemma {:induction false} ArmEntriesIsLeast(s: Ctl, i: nat, t: uint32, timeout: uint32)
    requires i <= |s.executing|
    ensures var r := ArmEntries(s, i, t, timeout);
      && (r == timeout || exists j :: i <= j && EntryWait(s, j, t, r))
      && (timeout > 0 ==> 0 < r <= timeout)
      && (forall j, w :: i <= j && EntryWait(s, j, t, w) ==> 0 < r <= w)
    decreases |s.executing| - i
  {
    hide Reached, Since;
    if i < |s.executing| {
      var deadline := s.executing[i].deadline;
      if !Reached(t, deadline) { WaitIsPositive(t, deadline); }
      ArmEntriesIsLeast(s, i + 1, t, if Reached(t, deadline) then timeout else Earlier(timeout, Since(deadline, t)));
      assert !Reached(t, deadline) ==> EntryWait(s, i, t, Since(deadline, t));
    }
  }

  lemma {:induction false} ArmMarksIsLeast(s: Ctl, g: nat, t: uint32, timeout: uint32)
    requires Shaped(s) && g <= |s.runtimes|
    ensures var r := ArmMarks(s, g, t, timeout);
      && (r == timeout || exists h :: g <= h && MarkWait(s, h, t, r))
      && (timeout > 0 ==> 0 < r <= timeout)
      && (forall h, w :: g <= h && MarkWait(s, h, t, w) ==> 0 < r <= w)
    decreases |s.runtimes| - g
  {
    if g < |s.runtimes| {
      var r := s.runtimes[g];
      if r.active && r.cursor < Count(s.prog, g) && Mark(s.prog, g, r.cursor) > Since(t, r.startTime) {
        var w := Mark(s.prog, g, r.cursor) - Since(t, r.startTime);
        assert MarkWait(s, g, t, w);
        ArmMarksIsLeast(s, g + 1, t, Earlier(timeout, w));
      } else {
        ArmMarksIsLeast(s, g + 1, t, timeout);
      }
    }
  }

  lemma {:induction false} ArmIsEarliest(s: Ctl, t: uint32)
    requires Shaped(s) && s.timeout == 0
    ensures Earliest(s, t, Arm(s, t).timeout)
  {
    ArmEntriesIsLeast(s, 0, t, 0);
    ArmMarksIsLeast(s, 0, t, ArmEntries(s, 0, t, 0));
  }

  // ----- An active program always has something to wait for ------------------------------

  lemma {:induction false} Deepest(rts: seq<Runtime>, k: nat) returns (g: nat)
    requires k <= |rts| && exists i :: 0 <= i < k && rts[i].active
    ensures g < k && rts[g].active && forall i :: 0 <= i < k && rts[i].active ==> rts[i].depth <= rts[g].depth
  {
    if exists i :: 0 <= i < k - 1 && rts[i].active {
      g := Deepest(rts, k - 1);
      if rts[k - 1].active && rts[k - 1].depth > rts[g].depth { g := k - 1; }
    } else {
      g := k - 1;
    }
  }

  /** The deepest active group has a future mark or a pending timed entry. */
  lemma {:induction false} QuiescentWaits(s: Ctl, t: uint32) returns (g: nat, d: nat)
    requires Inv(s) && Quiescent(s, t) && s.phase == Active
    ensures g < |s.runtimes| && s.runtimes[g].active
    ensures forall h :: 0 <= h < |s.runtimes| && s.runtimes[h].active ==> s.runtimes[h].depth <= s.runtimes[g].depth
    ensures (exists i: nat :: EntryWait(s, i, t, d) && s.executing[i].runtime == g) || MarkWait(s, g, t, d)
    ensures Waits(s, t, d)
  {
    var rts := s.runtimes;
    assert rts[0].active;
    g := Deepest(rts, |rts|);
    forall h | 0 <= h < |rts| ensures !IsChild(rts[h], g) {
      assert LinkedAt(s.prog, rts, h);
    }
    NoChildren(rts, g, |rts|);
    assert !Ready(s, g) && !HasDue(s, g, t);
    if rts[g].activeCount > 0 {
      var i := OwnedWitness(s.executing, g, |s.executing|);
      EntryIsCounted(s, i);
      d := Since(s.executing[i].deadline, t);
      assert EntryWait(s, i, t, d);
    } else {
      d := Mark(s.prog, g, rts[g].cursor) - Since(t, rts[g].startTime);
      assert MarkWait(s, g, t, d);
    }
  }

  // ----- Clean completion ------------------------------------------------------------------

  lemma {:induction false} ActiveHasRoot(p: Program, rts: seq<Runtime>, g: nat)
    requires Runnable(p) && Linked(p, rts) && g < |rts| && rts[g].active
    ensures rts[0].active
    decreases rts[g].depth
  {
    assert LinkedAt(p, rts, g);
    if g != 0 { ActiveHasRoot(p, rts, rts[g].parent); }
  }

  /** Without an active root nothing is active and nothing is outstanding. */
  lemma {:induction false} InactiveIsClean(s: Ctl)
    requires Inv(s) && s.phase != Active
    ensures s.executing == [] && forall g :: 0 <= g < |s.runtimes| ==> s.runtimes[g] == RESET
  {
    forall i | 0 <= i < |s.executing| ensures s.runtimes[s.executing[i].runtime].active {
      EntryIsCounted(s, i);
    }
    forall g | 0 <= g < |s.runtimes| ensures s.runtimes[g] == RESET {
      assert LinkedAt(s.prog, s.runtimes, g);
      if s.runtimes[g].active { ActiveHasRoot(s.prog, s.runtimes, g); }
    }
  }

  // ----- Main results about one tick ---------------------------------------------------------

  /** Every outstanding deadline and every next mark lies after `t`. */
  ghost predicate AllAhead(s: Ctl, t: uint32)
    requires Shaped(s)
  {
    && (forall i :: 0 <= i < |s.executing| ==> !Reached(t, s.executing[i].deadline))
    && (forall g :: 0 <= g < |s.runtimes| && s.runtimes[g].active && s.runtimes[g].cursor < Count(s.prog, g) ==>
          Mark(s.prog, g, s.runtimes[g].cursor) > Since(t, s.runtimes[g].startTime))
  }

  lemma {:induction false} QuiescentIsAhead(s: Ctl, t: uint32)
    requires Inv(s) && Quiescent(s, t)
    ensures AllAhead(s, t)
  {
    forall g | 0 <= g < |s.runtimes| && s.runtimes[g].active && s.runtimes[g].cursor < Count(s.prog, g)
      ensures Mark(s.prog, g, s.runtimes[g].cursor) > Since(t, s.runtimes[g].startTime)
    {
      assert !HasDue(s, g, t);
    }
  }

  /** No lost wakeup: a tick arms a positive delay exactly when the program is still
      active, and that delay is the least over all outstanding deadlines and next
      marks, all of which lie ahead. */
  lemma {:induction false} NoLostWakeup(s: Ctl, t: uint32)
    requires s.phase == Active && Inv(s)
    ensures var r := Run(s, t).s;
      Inv(r) && (r.phase == Active <==> r.timeout > 0) && Earliest(r, t, r.timeout) && AllAhead(r, t)
  {
    hide Sound, Settle;
    RunKeepsAll(s, t);
    var q := Settle(s.(show := false, timeout := 0), Success, t).s;
    var ms := SettleIsRun(s.(show := false, timeout := 0), Success, t);
    RunKeepsSetup(Pass(s.(show := false, timeout := 0), Success, false), ms, t);
    var r := Run(s, t).s;
    ArmIsEarliest(q, t);
    SameWaits(q, r, t);
    QuiescentIsAhead(r, t);
    if r.phase == Active {
      var g, d := QuiescentWaits(r, t);
    } else {
      InactiveIsClean(r);
    }
  }

  /** Clean completion: when a tick ends with the program not active, it is completed, no
      group runs, no timed work is outstanding, and further calls change nothing. */
  lemma {:induction false} CleanCompletion(s: Ctl, t: uint32, later: uint32)
    requires s.phase == Active && Inv(s) && Run(s, t).s.phase != Active
    ensures var r := Run(s, t).s;
      && r.phase == Completed && r.executing == [] && r.timeout == 0
      && (forall g :: 0 <= g < |r.runtimes| ==> r.runtimes[g] == RESET)
      && Run(r, later) == Ran(r, Success)
  {
    NoLostWakeup(s, t);
    InactiveIsClean(Run(s, t).s);
    var ms := SettleIsRun(s.(show := false, timeout := 0), Success, t);
    RunKeepsPhase(Pass(s.(show := false, timeout := 0), Success, false), ms, t);
  }

  lemma {:induction false} SameWaits(a: Ctl, b: Ctl, t: uint32)
    requires Shaped(a) && Shaped(b) && a.prog == b.prog && a.runtimes == b.runtimes && a.executing == b.executing
    ensures forall d: nat :: Earliest(a, t, d) == Earliest(b, t, d)
  {
    assert forall i: nat, d: nat :: EntryWait(a, i, t, d) == EntryWait(b, i, t, d);
    assert forall g: nat, d: nat :: MarkWait(a, g, t, d) == MarkWait(b, g, t, d);
    assert forall d: nat :: Waits(a, t, d) == Waits(b, t, d);
  }

  // ----- Early ticks ---------------------------------------------------------------------------

  lemma {:induction false} EntryEarly(s: Ctl, t: uint32, d: nat, e: nat, i: nat)
    requires Shaped(s) && AllAhead(s, t) && Earliest(s, t, d) && e < d && i < |s.executing|
    ensures var deadline := s.executing[i].deadline;
      !Reached(Plus(t, e), deadline) && Since(deadline, Plus(t, e)) == Since(deadline, t) - e
  {
    hide Since, Plus;
    var w := Since(s.executing[i].deadline, t);
    assert EntryWait(s, i, t, w);
    assert Waits(s, t, w);
    EarlyIsNotReached(t, s.executing[i].deadline, e);
  }

  lemma {:induction false} MarkEarly(s: Ctl, t: uint32, d: nat, e: nat, g: nat)
    requires Shaped(s) && AllAhead(s, t) && Earliest(s, t, d) && e < d
    requires g < |s.runtimes| && s.runtimes[g].active && s.runtimes[g].cursor < Count(s.prog, g)
    ensures var r := s.runtimes[g];
      && Since(Plus(t, e), r.startTime) == Since(t, r.startTime) + e
      && Since(Plus(t, e), r.startTime) < Mark(s.prog, g, r.cursor)
  {
    hide Since, Plus;
    var w := Mark(s.prog, g, s.runtimes[g].cursor) - Since(t, s.runtimes[g].startTime);
    assert MarkWait(s, g, t, w);
    assert Waits(s, t, w);
    ElapsedGrows(t, s.runtimes[g].startTime, e);
  }

  lemma {:induction false} WaitsShrink(s: Ctl, t: uint32, d: nat, e: nat, w: nat, v: nat)
    requires Shaped(s) && AllAhead(s, t) && Earliest(s, t, d) && e < d && v == w + e
    ensures Waits(s, Plus(t, e), w) <==> Waits(s, t, v)
  {
    hide Since, Plus, Reached, Earliest;
    var u := Plus(t, e);
    forall i: nat ensures EntryWait(s, i, u, w) <==> EntryWait(s, i, t, v) {
      if i < |s.executing| { EntryEarly(s, t, d, e, i); }
    }
    forall g: nat ensures MarkWait(s, g, u, w) <==> MarkWait(s, g, t, v) {
      if g < |s.runtimes| && s.runtimes[g].active && s.runtimes[g].cursor < Count(s.prog, g) { MarkEarly(s, t, d, e, g); }
    }
  }

  lemma {:induction false} EarlyIsQuiescent(s: Ctl, t: uint32, d: nat, e: nat)
    requires Inv(s) && Quiescent(s, t) && Earliest(s, t, d) && e < d
    ensures Quiescent(s, Plus(t, e)) && Earliest(s, Plus(t, e), d - e)
  {
    hide Since, Plus, Reached, Sound, Waits;
    var u := Plus(t, e);
    QuiescentIsAhead(s, t);
    forall i | 0 <= i < |s.executing| ensures !Reached(u, s.executing[i].deadline) {
      EntryEarly(s, t, d, e, i);
    }
    forall g | 0 <= g < |s.runtimes| ensures !HasDue(s, g, u) {
      if s.runtimes[g].active && s.runtimes[g].cursor < Count(s.prog, g) { MarkEarly(s, t, d, e, g); }
    }
    WaitsShrink(s, t, d, e, d - e, d);
    forall w: nat | Waits(s, u, w) ensures 0 < d - e <= w {
      WaitsShrink(s, t, d, e, w, w + e);
    }
  }

  lemma {:induction false} EarliestIsUnique(s: Ctl, t: uint32, d: nat, e: nat)
    requires Shaped(s) && Earliest(s, t, d) && Earliest(s, t, e)
    ensures d == e
  {
  }

  /** Early ticks are no-ops: before the armed delay has passed, another `Run` dispatches
      nothing, reports success, and only re-arms the rest of the delay. */
  lemma {:induction false} EarlyTickIsNoOp(s: Ctl, t: uint32, e: nat)
    requires s.phase == Active && Inv(s) && e < Run(s, t).s.timeout
    ensures var r := Run(s, t).s;
      r.phase == Active && Inv(r) && Run(r, Plus(t, e)) == Ran(r.(show := false, timeout := r.timeout - e), Success)
  {
    hide Sound, Settle, AllAhead;
    NoLostWakeup(s, t);
    RunKeepsAll(s, t);
    var r, u := Run(s, t).s, Plus(t, e);
    EarlyIsQuiescent(r, t, r.timeout, e);
    var q := r.(show := false, timeout := 0);
    SameQuiet(r, q, u);
    QuiescentSettles(q, Success, u);
    SameWaits(r, q, u);
    ArmIsEarliest(q, u);
    EarliestIsUnique(q, u, Arm(q, u).timeout, r.timeout - e);
  }
}
