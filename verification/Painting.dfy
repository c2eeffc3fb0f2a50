/** What single instructions do to the strip, LED by LED. */
module Painting {
  import opened Clock
  import opened Oklab
  import opened Instructions
  import opened Timed

  /** Whether `op` may write LED `i`. */
  predicate Addresses(op: Op, i: nat) {
    match op
    case SetMultiple(_, start, end) => start <= i < end
    case SetSingle(_, index) => i == index
    case RunGroup(_, _) => false
    case Fade(_, _, index) => i == index
    case Gradient(_, _, index) => i == index
  }

  /** A bound fill sets exactly its range and asks for a show. */
  lemma {:induction false} MultipleSets(c: Code, mem: Mem, t: uint32, strip: seq<Rgb>, period: Period)
    requires c.bound && c.op.SetMultiple?
    ensures var x := Execute(c, mem, t, strip, period);
      && x.show && x.delay == 0 && x.mem == mem && |x.strip| == |strip|
      && forall i :: 0 <= i < |strip| ==> x.strip[i] == if c.op.start <= i < c.op.end then c.op.color else strip[i]
  {
  }

  /** A bound single set changes exactly its LED and asks for a show, also when it has no LED. */
  lemma {:induction false} SingleSets(c: Code, mem: Mem, t: uint32, strip: seq<Rgb>, period: Period)
    requires c.bound && c.op.SetSingle?
    ensures var x := Execute(c, mem, t, strip, period);
      && x.show && x.delay == 0 && x.mem == mem && |x.strip| == |strip|
      && forall i :: 0 <= i < |strip| ==> x.strip[i] == if i == c.op.index then c.op.color else strip[i]
  {
  }

  /** No instruction touches an LED it does not address, and one without a strip, or a timed one
      without an LED, does nothing. */
  lemma {:induction false} OthersKept(c: Code, mem: Mem, t: uint32, strip: seq<Rgb>, period: Period)
    ensures var x := Execute(c, mem, t, strip, period);
      && (forall i :: 0 <= i < |strip| && !Addresses(c.op, i) ==> x.strip[i] == strip[i])
      && (!c.bound || c.op.RunGroup? || ((c.op.Fade? || c.op.Gradient?) && c.op.index >= |strip|) ==>
            x == Effect(mem, strip, 0, false))
  {
    hide ToOklab, FromOklab, Interpolate, ScaleRgb, FadeTarget, InterpolateValue, DelayToGrid, Since;
  }
}
