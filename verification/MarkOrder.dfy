/** Stable order of instructions by mark: two ways to insert, one result. */
module MarkOrder {
  import opened Clock
  import opened Instructions

  predicate InCode(code: seq<Code>, s: seq<nat>) {
    forall k :: 0 <= k < |s| ==> s[k] < |code|
  }

  /** Insert `x` scanning from the back past greater marks. */
  function InsertBack(code: seq<Code>, s: seq<nat>, x: nat): (r: seq<nat>)
    requires InCode(code, s) && x < |code|
    ensures |r| == |s| + 1 && InCode(code, r)
  {
    if s == [] || code[s[|s| - 1]].mark <= code[x].mark then s + [x]
    else InsertBack(code, s[..|s| - 1], x) + [s[|s| - 1]]
  }

  lemma {:induction false} InsertAdds(code: seq<Code>, s: seq<nat>, x: nat)
    requires InCode(code, s) && x < |code|
    ensures multiset(InsertBack(code, s, x)) == multiset(s) + multiset{x}
  {
    if s != [] && code[s[|s| - 1]].mark > code[x].mark {
      InsertAdds(code, s[..|s| - 1], x);
      assert s == s[..|s| - 1] + [s[|s| - 1]];
    }
  }

  /** Insert `x` scanning from the front past marks that are not greater. */
  function InsertFront(code: seq<Code>, s: seq<nat>, x: nat): (r: seq<nat>)
    requires InCode(code, s) && x < |code|
    ensures |r| == |s| + 1 && InCode(code, r)
  {
    if s == [] || code[s[0]].mark > code[x].mark then [x] + s
    else [s[0]] + InsertFront(code, s[1..], x)
  }

  predicate Sorted(code: seq<Code>, s: seq<nat>)
    requires InCode(code, s)
  {
    forall i, j :: 0 <= i < j < |s| ==> code[s[i]].mark <= code[s[j]].mark
  }

  /** Earlier mark, or the same mark and stored earlier. */
  predicate Precedes(code: seq<Code>, x: nat, y: nat)
    requires x < |code| && y < |code|
  {
    code[x].mark < code[y].mark || (code[x].mark == code[y].mark && x < y)
  }

  /** Strictly ordered by mark and then by position of insertion. */
  predicate Stable(code: seq<Code>, s: seq<nat>)
    requires InCode(code, s)
  {
    forall i, j :: 0 <= i < j < |s| ==> Precedes(code, s[i], s[j])
  }

  /** Insertion sort of `s` by mark. */
  function SortByMark(code: seq<Code>, s: seq<nat>): (r: seq<nat>)
    requires InCode(code, s)
    ensures |r| == |s| && InCode(code, r)
  {
    if s == [] then [] else InsertBack(code, SortByMark(code, s[..|s| - 1]), s[|s| - 1])
  }

  lemma {:induction false} SortPermutes(code: seq<Code>, s: seq<nat>)
    requires InCode(code, s)
    ensures multiset(SortByMark(code, s)) == multiset(s)
  {
    if s != [] {
      SortPermutes(code, s[..|s| - 1]);
      InsertAdds(code, SortByMark(code, s[..|s| - 1]), s[|s| - 1]);
      assert s == s[..|s| - 1] + [s[|s| - 1]];
    }
  }

  /** Inserting something stored later than everything present keeps the stable order. */
  lemma {:induction false} InsertStable(code: seq<Code>, s: seq<nat>, x: nat)
    requires InCode(code, s) && x < |code| && Stable(code, s)
    requires forall k :: 0 <= k < |s| ==> s[k] < x
    ensures Stable(code, InsertBack(code, s, x))
  {
    var n := |s| - 1;
    if s != [] && code[s[n]].mark > code[x].mark {
      var r := InsertBack(code, s[..n], x);
      InsertStable(code, s[..n], x);
      InsertAdds(code, s[..n], x);
      forall i | 0 <= i < |r| ensures Precedes(code, r[i], s[n]) {
        assert r[i] in multiset(r);
        assert r[i] == x || r[i] in s[..n];
      }
    }
  }

  predicate Ascending(s: seq<nat>) {
    forall i, j :: 0 <= i < j < |s| ==> s[i] < s[j]
  }

  /** Sorting indexes listed in insertion order gives the stable mark order. */
  lemma {:induction false} SortIsStable(code: seq<Code>, s: seq<nat>)
    requires InCode(code, s) && Ascending(s)
    ensures Stable(code, SortByMark(code, s))
  {
    if s != [] {
      var n := |s| - 1;
      SortIsStable(code, s[..n]);
      var r := SortByMark(code, s[..n]);
      SortPermutes(code, s[..n]);
      forall k | 0 <= k < |r| ensures r[k] < s[n] {
        assert r[k] in multiset(r);
        assert r[k] in s[..n];
      }
      InsertStable(code, r, s[n]);
    }
  }

  lemma {:induction false} HeadsAgree(code: seq<Code>, a: seq<nat>, b: seq<nat>)
    requires InCode(code, a) && InCode(code, b) && Stable(code, a) && Stable(code, b)
    requires multiset(a) == multiset(b) && a != [] && b != []
    ensures a[0] == b[0]
  {
    assert a[0] in multiset(b) && b[0] in multiset(a);
  }

  lemma {:induction false} TailMembers(a: seq<nat>)
    requires a != []
    ensures a == [a[0]] + a[1..] && multiset(a[1..]) == multiset(a) - multiset{a[0]}
  {
    assert a == [a[0]] + a[1..];
  }

  lemma {:induction false} TailIsStable(code: seq<Code>, a: seq<nat>)
    requires InCode(code, a) && Stable(code, a) && a != []
    ensures InCode(code, a[1..]) && Stable(code, a[1..])
  {
  }

  /** The stable mark order of a set of instructions is unique. */
  lemma {:induction false} StableIsUnique(code: seq<Code>, a: seq<nat>, b: seq<nat>)
    requires InCode(code, a) && InCode(code, b) && Stable(code, a) && Stable(code, b)
    requires multiset(a) == multiset(b)
    ensures a == b
  {
    hide InCode, Stable;
    if a == [] {
      assert |multiset(b)| == 0;
    } else {
      assert |multiset(a)| == |multiset(b)|;
      HeadsAgree(code, a, b);
      TailIsStable(code, a);
      TailIsStable(code, b);
      TailMembers(a);
      TailMembers(b);
      StableIsUnique(code, a[1..], b[1..]);
    }
  }

  lemma {:induction false} FrontAppend(code: seq<Code>, s: seq<nat>, y: nat, x: nat)
    requires InCode(code, s) && y < |code| && x < |code|
    requires code[y].mark <= code[x].mark ==> forall k :: 0 <= k < |s| ==> code[s[k]].mark <= code[x].mark
    ensures InsertFront(code, s + [y], x)
      == if code[y].mark <= code[x].mark then s + [y] + [x] else InsertFront(code, s, x) + [y]
  {
    if s != [] {
      var l := s + [y];
      assert l[1..] == s[1..] + [y] && l[0] == s[0];
      if code[s[0]].mark <= code[x].mark {
        FrontAppend(code, s[1..], y, x);
        assert s == [s[0]] + s[1..];
      } else {
        assert [x] + l == [x] + s + [y];
      }
    }
  }

  /** On a sorted list the two scans agree. */
  lemma {:induction false} InsertionsAgree(code: seq<Code>, s: seq<nat>, x: nat)
    requires InCode(code, s) && x < |code| && Sorted(code, s)
    ensures InsertFront(code, s, x) == InsertBack(code, s, x)
  {
    if s != [] {
      var n := |s| - 1;
      assert s == s[..n] + [s[n]];
      FrontAppend(code, s[..n], s[n], x);
      InsertionsAgree(code, s[..n], x);
    }
  }

  lemma {:induction false} StableIsSorted(code: seq<Code>, s: seq<nat>)
    requires InCode(code, s) && Stable(code, s)
    ensures Sorted(code, s)
  {
  }
}
