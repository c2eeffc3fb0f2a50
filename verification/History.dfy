/** What the log of a run says about passes, repeats, order and faults. */
module History {
  import opened Clock
  import opened Instructions
  import opened Program
  import opened Scheduler
  import opened Invariant
  import opened Tick

  // ----- Reading the log -----------------------------------------------------------------

  /** `e` begins a pass of `g`. */
  predicate Begins(e: Event, g: nat) {
    (e.Started? || e.Restarted?) && e.group == g
  }

  function NextPass(before: seq<nat>, e: Event, g: nat): seq<nat> {
    if Begins(e, g) then [] else if e.Dispatched? && e.group == g then before + [e.slot] else before
  }

  function NextCount(before: nat, e: Event, g: nat): nat {
    if !Begins(e, g) then before else if e.Started? then 1 else before + 1
  }

  function NextGrant(before: uint16, e: Event, g: nat): uint16 {
    if e.Started? && e.group == g then e.repeats else before
  }

  /** Slots dispatched from `g` since its current pass began. */
  function PassLog(log: seq<Event>, g: nat): seq<nat> {
    if log == [] then [] else NextPass(PassLog(log[..|log| - 1], g), log[|log| - 1], g)
  }

  /** Passes begun by the current activation of `g`. */
  function Passes(log: seq<Event>, g: nat): nat {
    if log == [] then 0 else NextCount(Passes(log[..|log| - 1], g), log[|log| - 1], g)
  }

  /** Additional repeats granted to the current activation of `g`. */
  function Granted(log: seq<Event>, g: nat): uint16 {
    if log == [] then 0 else NextGrant(Granted(log[..|log| - 1], g), log[|log| - 1], g)
  }

  lemma {:induction false} AppendEvent(log: seq<Event>, e: Event, g: nat)
    ensures PassLog(log + [e], g) == NextPass(PassLog(log, g), e, g)
    ensures Passes(log + [e], g) == NextCount(Passes(log, g), e, g)
    ensures Granted(log + [e], g) == NextGrant(Granted(log, g), e, g)
  {
    assert (log + [e])[..|log|] == log;
  }

  // ----- What every log satisfies ----------------------------------------------------------

  /** `slots` are the first instructions of `g`, in mark order. */
  predicate Prefix(p: Program, slots: seq<nat>, g: nat)
    requires InRange(p)
  {
    g < |p.groups| && |slots| <= Count(p, g) && forall k :: 0 <= k < |slots| ==> slots[k] == At(p, g, k)
  }

  /** `slots` are all instructions of `g`, each once, in mark order. */
  predicate Whole(p: Program, slots: seq<nat>, g: nat)
    requires InRange(p)
  {
    Prefix(p, slots, g) && |slots| == Count(p, g)
  }

  predicate OwnsPositiveMark(p: Program, g: nat)
    requires InRange(p) && g < |p.groups|
  {
    exists k :: 0 <= k < Count(p, g) && Mark(p, g, k) > 0
  }

  /** What holds whenever `e` is logged after `log`:
      - an instruction is dispatched as the next of its pass, not before its mark;
      - a pass is only followed by another when all of it was dispatched and repeats remain;
      - an activation ends after a whole pass and at most the granted number of passes, and
        after exactly that number, if the group owns a positive mark;
      - the only faults are launches of running groups and repeats without a boundary. */
  ghost predicate GoodEvent(p: Program, log: seq<Event>, e: Event)
    requires InRange(p)
  {
    if e.Dispatched? then
      Prefix(p, PassLog(log, e.group) + [e.slot], e.group) && e.slot < |p.code| && p.code[e.slot].mark <= e.elapsed
    else if e.Restarted? then
      && Whole(p, PassLog(log, e.group), e.group)
      && (Granted(log, e.group) != FOREVER ==> Passes(log, e.group) <= Granted(log, e.group))
    else if e.Finished? then
      && Whole(p, PassLog(log, e.group), e.group)
      && (Granted(log, e.group) != FOREVER ==> Passes(log, e.group) <= Granted(log, e.group) + 1)
      && (OwnsPositiveMark(p, e.group) ==>
            Granted(log, e.group) != FOREVER && Passes(log, e.group) == Granted(log, e.group) + 1)
    else
      e.Failed? ==> e.fault == NoBoundary || e.fault == AlreadyRunning
  }

  ghost predicate GoodLog(p: Program, log: seq<Event>)
    requires InRange(p)
  {
    forall j :: 0 <= j < |log| ==> GoodEvent(p, log[..j], log[j])
  }

  /** The log agrees with the record of an active group. */
  ghost predicate Tracks(p: Program, r: Runtime, g: nat, log: seq<Event>)
    requires InRange(p) && g < |p.groups|
  {
    && Prefix(p, PassLog(log, g), g)
    && |PassLog(log, g)| == r.cursor
    && (if Granted(log, g) == FOREVER then r.repeats == FOREVER
        else r.repeats != FOREVER && Passes(log, g) + r.repeats == Granted(log, g) + 1)
    && (forall k :: 0 <= k < r.cursor && k < Count(p, g) && Mark(p, g, k) > 0 ==> r.boundary)
  }

  ghost predicate HistOn(p: Program, rts: seq<Runtime>, log: seq<Event>)
    requires InRange(p) && |rts| == |p.groups|
  {
    && GoodLog(p, log)
    && forall g :: 0 <= g < |rts| && rts[g].active ==> Tracks(p, rts[g], g, log)
  }

  ghost predicate Hist(s: Ctl)
    requires Shaped(s)
  {
    HistOn(s.prog, s.runtimes, s.log)
  }

  lemma {:induction false} GoodAppend(p: Program, log: seq<Event>, e: Event)
    requires InRange(p) && GoodLog(p, log) && GoodEvent(p, log, e)
    ensures GoodLog(p, log + [e])
  {
    var next := log + [e];
    forall j | 0 <= j < |next| ensures GoodEvent(p, next[..j], next[j]) {
      assert next[..j] == log[..j];
      assert j < |log| ==> GoodEvent(p, log[..j], log[j]);
      assert log[..|log|] == log;
    }
  }

  /** An event about another group, with the group's own pass unchanged. */
  lemma {:induction false} TracksOther(p: Program, a: Runtime, b: Runtime, g: nat, log: seq<Event>, e: Event)
    requires InRange(p) && g < |p.groups| && Tracks(p, a, g, log)
    requires b.cursor == a.cursor && b.repeats == a.repeats && (a.boundary ==> b.boundary)
    requires !Begins(e, g) && !(e.Dispatched? && e.group == g)
    ensures Tracks(p, b, g, log + [e])
  {
    AppendEvent(log, e, g);
  }

  /** Every group active in `b` is in the same pass as in `a`. */
  predicate SamePasses(a: seq<Runtime>, b: seq<Runtime>) {
    && |a| == |b|
    && forall g :: 0 <= g < |a| && b[g].active ==>
         a[g].active && b[g].cursor == a[g].cursor && b[g].repeats == a[g].repeats && (a[g].boundary ==> b[g].boundary)
  }

  lemma {:induction false} HistOther(p: Program, a: seq<Runtime>, b: seq<Runtime>, log: seq<Event>, e: Event)
    requires InRange(p) && |a| == |p.groups| && HistOn(p, a, log) && SamePasses(a, b)
    requires !e.Started? && !e.Restarted? && !e.Dispatched? && GoodEvent(p, log, e)
    ensures HistOn(p, b, log + [e])
  {
    GoodAppend(p, log, e);
    forall g | 0 <= g < |b| && b[g].active ensures Tracks(p, b[g], g, log + [e]) {
      TracksOther(p, a[g], b[g], g, log, e);
    }
  }

  /** A pass of `g` begins: `r` is its fresh record. */
  lemma {:induction false} HistBegin(p: Program, a: seq<Runtime>, b: seq<Runtime>, log: seq<Event>, e: Event, g: nat)
    requires InRange(p) && |a| == |p.groups| && HistOn(p, a, log) && g < |a| && |b| == |a|
    requires forall h :: 0 <= h < |a| && h != g && b[h].active ==>
      a[h].active && b[h].cursor == a[h].cursor && b[h].repeats == a[h].repeats && (a[h].boundary ==> b[h].boundary)
    requires GoodEvent(p, log, e) && Begins(e, g) && b[g].cursor == 0
    requires var n, m := NextGrant(Granted(log, g), e, g), NextCount(Passes(log, g), e, g);
      if n == FOREVER then b[g].repeats == FOREVER else b[g].repeats != FOREVER && m + b[g].repeats == n + 1
    ensures HistOn(p, b, log + [e])
  {
    GoodAppend(p, log, e);
    forall h | 0 <= h < |b| && b[h].active ensures Tracks(p, b[h], h, log + [e]) {
      if h == g { AppendEvent(log, e, g); } else { TracksOther(p, a[h], b[h], h, log, e); }
    }
  }

  lemma {:induction false} ResumeHist(a: Pass, i: nat, t: uint32, x: Effect)
    requires Inv(a.s) && Hist(a.s) && i < |a.s.executing| && !Stale(a.s, a.s.executing[i])
    ensures Inv(ResumeWith(a, i, t, x).s) && Hist(ResumeWith(a, i, t, x).s)
  {
    hide HistOn, Sound;
    ResumeKeeps(a, i, t, x);
    var e, b := a.s.executing[i], ResumeWith(a, i, t, x).s;
    HistOther(a.s.prog, a.s.runtimes, b.runtimes, a.s.log, Resumed(e.runtime, e.slot));
  }

  lemma {:induction false} FinishIsGood(s: Ctl, g: nat, log: seq<Event>)
    requires Inv(s) && g < |s.runtimes| && Ready(s, g) && Tracks(s.prog, s.runtimes[g], g, log)
    requires s.runtimes[g].repeats == 0 || !s.runtimes[g].boundary
    ensures GoodEvent(s.prog, log, Finished(g))
  {
    assert LinkedAt(s.prog, s.runtimes, g);
  }

  lemma {:induction false} FinishHist(a: Pass, g: nat)
    requires Inv(a.s) && Hist(a.s) && g < |a.s.runtimes| && Ready(a.s, g)
    requires a.s.runtimes[g].repeats == 0 || !a.s.runtimes[g].boundary
    ensures Inv(Finish(a, g).s) && Hist(Finish(a, g).s)
  {
    hide GoodEvent, GoodLog, Tracks, Sound;
    FinishKeeps(a, g);
    var b := Finish(a, g).s;
    assert Tracks(a.s.prog, a.s.runtimes[g], g, a.s.log);
    FinishIsGood(a.s, g, a.s.log);
    HistOther(a.s.prog, a.s.runtimes, b.runtimes, a.s.log, Finished(g));
  }

  lemma {:induction false} RestartHist(s: Ctl, g: nat, t: uint32, next: uint16)
    requires Inv(s) && Hist(s) && g < |s.runtimes| && Ready(s, g) && s.runtimes[g].repeats != 0
    requires next == if s.runtimes[g].repeats == FOREVER then FOREVER else s.runtimes[g].repeats - 1
    requires CanStart(s.runtimes, g, s.runtimes[g].parent)
    ensures Hist(StartRuntime(s, g, t, next, s.runtimes[g].parent).(log := s.log + [Restarted(g)]))
  {
    assert LinkedAt(s.prog, s.runtimes, g);
    assert Tracks(s.prog, s.runtimes[g], g, s.log);
    var b := StartRuntime(s, g, t, next, s.runtimes[g].parent);
    HistBegin(s.prog, s.runtimes, b.runtimes, s.log, Restarted(g), g);
  }

  lemma {:induction false} CompleteHist(a: Pass, g: nat, t: uint32)
    requires Inv(a.s) && Hist(a.s) && g < |a.s.runtimes| && Ready(a.s, g)
    ensures Inv(Complete(a, g, t).s) && Hist(Complete(a, g, t).s)
  {
    hide HistOn, Sound, ClearFrom;
    CompleteKeeps(a, g, t);
    var r := a.s.runtimes[g];
    if r.repeats != 0 && r.boundary {
      CanRestart(a.s.prog, a.s.runtimes, a.s.executing, g);
      RestartHist(a.s, g, t, if r.repeats == FOREVER then FOREVER else r.repeats - 1);
    } else if r.repeats != 0 {
      var b := Fail(a.(progressed := true), NoBoundary, InvalidProgram);
      HistOther(a.s.prog, a.s.runtimes, a.s.runtimes, a.s.log, Failed(NoBoundary));
      FinishHist(b, g);
    } else {
      FinishHist(a.(progressed := true), g);
    }
  }

  lemma {:induction false} TracksConsume(p: Program, a: Runtime, b: Runtime, g: nat, log: seq<Event>, elapsed: uint32)
    requires InRange(p) && g < |p.groups| && Tracks(p, a, g, log) && a.cursor < Count(p, g)
    requires Mark(p, g, a.cursor) <= elapsed
    requires b.cursor == a.cursor + 1 && b.repeats == a.repeats && (a.boundary ==> b.boundary)
    requires Mark(p, g, a.cursor) > 0 ==> b.boundary
    ensures var e := Dispatched(g, At(p, g, a.cursor), elapsed); GoodEvent(p, log, e) && Tracks(p, b, g, log + [e])
  {
    AppendEvent(log, Dispatched(g, At(p, g, a.cursor), elapsed), g);
  }

  lemma {:induction false} ConsumeHist(s: Ctl, g: nat, t: uint32)
    requires Inv(s) && Hist(s) && g < |s.runtimes| && HasDue(s, g, t)
    ensures Hist(Consume(s, g, t))
  {
    hide GoodLog, GoodEvent, Tracks, Sound;
    var p, a, b := s.prog, s.runtimes, Consume(s, g, t).runtimes;
    ConsumeMoves(s, g, t);
    var elapsed := Since(t, a[g].startTime);
    var e := Dispatched(g, At(p, g, a[g].cursor), elapsed);
    assert Tracks(p, a[g], g, s.log);
    TracksConsume(p, a[g], b[g], g, s.log, elapsed);
    GoodAppend(p, s.log, e);
    forall h | 0 <= h < |b| && b[h].active ensures Tracks(p, b[h], h, s.log + [e]) {
      if h != g { TracksOther(p, a[h], b[h], h, s.log, e); }
    }
  }

  lemma {:induction false} LaunchHist(s: Ctl, g: nat, h: nat, t: uint32, repeats: uint16)
    requires Shaped(s) && Hist(s) && g < |s.runtimes| && h < |s.runtimes| && CanLaunch(s, g, h) && g != h
    ensures Hist(Launch(s, g, h, t, repeats))
  {
    hide GoodLog, Tracks;
    HistBegin(s.prog, s.runtimes, Launch(s, g, h, t, repeats).runtimes, s.log, Started(h, repeats), h);
  }

  lemma {:induction false} RunHist(a: Pass, g: nat, i: nat, t: uint32, x: Effect)
    requires Shaped(a.s) && Hist(a.s) && g < |a.s.runtimes| && i < |a.s.prog.code|
    requires RunWith(a, g, i, t, x).s.log == a.s.log
    ensures Hist(RunWith(a, g, i, t, x).s)
  {
  }

  lemma {:induction false} DispatchHist(a: Pass, g: nat, t: uint32)
    requires Inv(a.s) && Hist(a.s) && g < |a.s.runtimes| && HasDue(a.s, g, t)
    ensures Inv(Dispatch(a, g, t).s) && Hist(Dispatch(a, g, t).s)
  {
    hide HistOn, Sound, Execute, ClearFrom, Observe;
    DispatchKeeps(a, g, t);
    ConsumeHist(a.s, g, t);
    var p, c := a.s.prog, Pass(Consume(a.s, g, t), a.status, true);
    var i := At(p, g, a.s.runtimes[g].cursor);
    if !p.code[i].op.RunGroup? {
      RunHist(c, g, i, t, Execute(p.code[i], c.s.mem[i], t, c.s.strip, c.s.period));
    } else if a.s.runtimes[Target(p, i)].active {
      HistOther(p, c.s.runtimes, c.s.runtimes, c.s.log, Failed(AlreadyRunning));
    } else {
      LaunchHist(c.s, g, Target(p, i), t, p.code[i].op.repeats);
    }
  }

  lemma {:induction false} ApplyHist(a: Pass, m: Move, t: uint32)
    requires Inv(a.s) && Hist(a.s) && Enabled(a.s, m, t)
    ensures Inv(Apply(a, m, t).s) && Hist(Apply(a, m, t).s)
  {
    hide Hist, Sound, Execute, Complete, Dispatch, ResumeWith;
    match m
    case Resuming(i) =>
      var e := a.s.executing[i];
      ResumeHist(a, i, t, Execute(a.s.prog.code[e.slot], a.s.mem[e.slot], t, a.s.strip, a.s.period));
    case Completing(g) => CompleteHist(a, g, t);
    case Dispatching(g) => DispatchHist(a, g, t);
  }

  lemma {:induction false} RunsHist(a: Pass, ms: seq<Move>, t: uint32)
    requires Inv(a.s) && Hist(a.s) && EnabledAll(a, ms, t)
    ensures Hist(ApplyAll(a, ms, t).s)
    decreases |ms|
  {
    hide Hist, Sound, Shaped, Apply, Enabled;
    if ms != [] {
      ApplyHist(a, ms[0], t);
      RunsHist(Apply(a, ms[0], t), ms[1..], t);
    }
  }

  /** Repeat counts, dispatch order and marks are honoured in every tick of every run, and
      no defensive fault is ever logged. */
  lemma {:induction false} TickKeepsHistory(s: Ctl, t: uint32)
    requires s.phase == Active && Inv(s) && Hist(s)
    ensures Inv(Run(s, t).s) && Hist(Run(s, t).s)
  {
    hide HistOn, Sound, Settle;
    var a := Pass(s.(show := false, timeout := 0), Success, false);
    var ms := SettleIsRun(a.s, Success, t);
    RunsHist(a, ms, t);
    RunKeepsAll(s, t);
  }
}
