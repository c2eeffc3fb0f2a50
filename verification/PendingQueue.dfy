/** The mark-sorted queue view, a second implementation of the stable mark order. */
module PendingQueue {
  import opened Clock
  import opened Instructions
  import opened Program
  import opened MarkOrder
  import opened GroupTable
  import opened IndexPool

  class PendingInstructionQueueView {
    const code: seq<Code>
    const order: array<nat>
    var count: nat
    var head: nat

    ghost predicate Valid()
      reads this, order
    {
      order.Length == MAX_INSTRUCTIONS && head <= count <= order.Length && InCode(code, order[..count])
    }

    /** Everything inserted since the last reset, in queue order. */
    ghost function Contents(): seq<nat>
      reads this, order
      requires Valid()
    {
      order[..count]
    }

    constructor (instructions: seq<Code>)
      ensures Valid() && Contents() == [] && head == 0 && code == instructions && fresh(order)
    {
      code := instructions;
      order := new nat[MAX_INSTRUCTIONS](_ => 0);
      count, head := 0, 0;
    }

    /** Insert a slot behind every entry whose mark is not greater. */
    method Insert(slot: nat)
      requires Valid() && slot < |code| && count < MAX_INSTRUCTIONS
      modifies this`count, order
      ensures Valid() && Contents() == InsertFront(code, old(Contents()), slot)
    {
      hide InsertFront;
      ghost var s := Contents();
      var at: nat := 0;
      while at < count && code[order[at]].mark <= code[slot].mark
        invariant at <= count
        invariant forall k :: 0 <= k < at ==> code[s[k]].mark <= code[slot].mark
      {
        at := at + 1;
      }
      var i: nat := count;
      while i > at
        invariant at <= i <= count == |s| < order.Length
        invariant forall k :: 0 <= k < i ==> order[k] == s[k]
        invariant forall k :: i < k <= count ==> order[k] == s[k - 1]
      {
        order[i] := order[i - 1];
        i := i - 1;
      }
      order[at] := slot;
      count := count + 1;
      InsertFrontAt(code, s, slot, at);
      assert order[..count] == s[..at] + [slot] + s[at..];
    }

    predicate HasNext()
      reads this
    {
      head < count
    }

    /** The next unconsumed slot. */
    function Peek(): (slot: nat)
      reads this, order
      requires Valid() && HasNext()
      ensures slot == Contents()[head]
    {
      order[head]
    }

    /** The next mark; no unconsumed entry of a sorted queue is due before it. */
    function PeekMark(): (mark: uint16)
      reads this, order
      requires Valid() && HasNext()
      ensures Sorted(code, Contents()) ==> forall k :: head <= k < count ==> mark <= code[Contents()[k]].mark
    {
      assert order[..count][head] == order[head];
      code[order[head]].mark
    }

    method Advance()
      requires Valid() && HasNext()
      modifies this`head
      ensures Valid() && head == old(head) + 1 && Contents() == old(Contents())
    {
      head := head + 1;
    }

    method Reset()
      requires Valid()
      modifies this`count, this`head
      ensures Valid() && Contents() == [] && head == 0
    {
      count, head := 0, 0;
    }
  }

  /** Where the forward scan drops `x`. */
  lemma {:induction false} InsertFrontAt(code: seq<Code>, s: seq<nat>, x: nat, j: nat)
    requires InCode(code, s) && x < |code| && j <= |s|
    requires forall k :: 0 <= k < j ==> code[s[k]].mark <= code[x].mark
    requires j < |s| ==> code[s[j]].mark > code[x].mark
    ensures InsertFront(code, s, x) == s[..j] + [x] + s[j..]
  {
    if j > 0 {
      InsertFrontAt(code, s[1..], x, j - 1);
      assert s[..j] == [s[0]] + s[1..][..j - 1];
      assert s[1..][j - 1..] == s[j..];
      assert InsertFront(code, s, x) == [s[0]] + InsertFront(code, s[1..], x);
    }
  }

  /** The queue after inserting `slots` in order. */
  function Queued(code: seq<Code>, slots: seq<nat>): (r: seq<nat>)
    requires InCode(code, slots)
    ensures |r| == |slots| && InCode(code, r)
  {
    if slots == [] then [] else InsertFront(code, Queued(code, slots[..|slots| - 1]), slots[|slots| - 1])
  }

  /** Inserting slots in ascending order sorts them stably. */
  lemma {:induction false} QueuedIsSorted(code: seq<Code>, slots: seq<nat>)
    requires InCode(code, slots) && Ascending(slots)
    ensures Queued(code, slots) == SortByMark(code, slots) && Stable(code, Queued(code, slots))
  {
    hide Stable, InsertFront, InsertBack;
    SortIsStable(code, slots);
    if slots != [] {
      var front, x := slots[..|slots| - 1], slots[|slots| - 1];
      QueuedIsSorted(code, front);
      StableIsSorted(code, Queued(code, front));
      InsertionsAgree(code, Queued(code, front), x);
    }
  }

  /** For every group, the controller's range holds the queue built by inserting the group's
      instructions in program order. */
  lemma {:induction false} QueueMatchesPool(p: Program, g: nat)
    requires Compiled(p) && g < |p.groups|
    ensures var r, members := p.groups[g], Members(p.code, p.groups[g].id, |p.code|);
      && r.begin + |members| <= |p.pool|
      && p.pool[r.begin..r.begin + |members|] == Queued(p.code, members)
  {
    hide Queued, SortByMark, Members, Stable, TableFor, LaidOut;
    var id := p.groups[g].id;
    MembersSpec(p.code, id, |p.code|);
    QueuedIsSorted(p.code, Members(p.code, id, |p.code|));
    assert RangeIs(p.groups[g], p.pool, SortedMembers(p.code, id));
  }
}
