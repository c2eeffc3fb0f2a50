/** The state right after a successful start satisfies every invariant. */
module Launching {
  import opened Clock
  import opened Instructions
  import opened Program
  import opened Scheduler
  import opened Invariant
  import opened History

  /** Commit program `p` and activate its root at `t`; an empty root completes at once. */
  function Launched(s: Ctl, p: Program, t: uint32, repeats: uint16): (r: Ctl)
    requires InRange(p) && |s.mem| == |p.code| && 0 < |p.groups| <= MAX_GROUPS
    ensures Shaped(r)
  {
    var base := s.(prog := p, runtimes := seq(|p.groups|, _ => RESET), executing := [], show := false, timeout := 0, log := []);
    if Count(p, 0) == 0 then base.(phase := Completed)
    else StartRuntime(base, 0, t, repeats, MAX_GROUPS).(phase := Active, log := [Started(0, repeats)])
  }

  lemma {:induction false} IdleIsSound(p: Program, rts: seq<Runtime>)
    requires Runnable(p) && |rts| == |p.groups| && forall g :: 0 <= g < |rts| ==> rts[g] == RESET
    ensures Sound(p, rts, [])
  {
    forall g | 0 <= g < |rts| ensures Children(rts, g, |rts|) == 0 {
      NoChildren(rts, g, |rts|);
    }
  }

  lemma {:induction false} RootIsSound(p: Program, rts: seq<Runtime>, r: Runtime)
    requires Runnable(p) && Sound(p, rts, []) && forall g :: 0 <= g < |rts| ==> !rts[g].active
    requires r.active && r.cursor == 0 && r.activeCount == 0 && r.childCount == 0 && r.parent == MAX_GROUPS && r.depth == 0
    ensures Sound(p, rts[0 := r], [])
  {
    var b := rts[0 := r];
    forall g | 0 <= g < |b| ensures LinkedAt(p, b, g) {
      assert LinkedAt(p, rts, g);
      assert Ranked(p, Rank(p));
    }
    forall g | 0 <= g < |b| ensures Children(b, g, |b|) == 0 && b[g].childCount == 0 && b[g].activeCount == 0 {
      assert LinkedAt(p, rts, g);
      NoChildren(b, g, |b|);
    }
  }

  lemma {:induction false} LaunchedIsSound(s: Ctl, p: Program, t: uint32, repeats: uint16)
    requires Runnable(p) && |s.mem| == |p.code|
    ensures Inv(Launched(s, p, t, repeats)) && Hist(Launched(s, p, t, repeats))
  {
    hide Sound, ClearFrom;
    var r := Launched(s, p, t, repeats);
    var rts := seq(|p.groups|, _ => RESET);
    IdleIsSound(p, rts);
    if Count(p, 0) != 0 {
      RootIsSound(p, rts, r.runtimes[0]);
      EmptyHist(p, rts);
      HistBegin(p, rts, r.runtimes, [], Started(0, repeats), 0);
      assert [] + [Started(0, repeats)] == [Started(0, repeats)];
    }
  }

  lemma {:induction false} EmptyHist(p: Program, rts: seq<Runtime>)
    requires InRange(p) && |rts| == |p.groups| && forall g :: 0 <= g < |rts| ==> !rts[g].active
    ensures HistOn(p, rts, [])
  {
  }
}
