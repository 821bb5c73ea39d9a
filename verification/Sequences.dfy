/** Facts about logs, that is, about sequences that grow at their end. */
module Sequences {

  function Last<T>(s: seq<T>): T
    requires s != []
  {
    s[|s| - 1]
  }

  function DropLast<T>(s: seq<T>): seq<T>
    requires s != []
  {
    s[..|s| - 1]
  }

  function Filter<T>(keep: T -> bool, s: seq<T>): seq<T> {
    if s == [] then []
    else if keep(Last(s)) then Filter(keep, DropLast(s)) + [Last(s)]
    else Filter(keep, DropLast(s))
  }

  lemma {:induction false} FilterMembers<T>(keep: T -> bool, s: seq<T>)
    ensures forall x :: x in Filter(keep, s) <==> x in s && keep(x)
  {
    if s != [] {
      FilterMembers(keep, DropLast(s));
      assert s == DropLast(s) + [Last(s)];
    }
  }

  lemma FilterSnoc<T>(keep: T -> bool, s: seq<T>, x: T)
    ensures Filter(keep, s + [x]) == if keep(x) then Filter(keep, s) + [x] else Filter(keep, s)
  {
    assert DropLast(s + [x]) == s;
  }

  lemma {:induction false} FilterConcat<T>(keep: T -> bool, a: seq<T>, b: seq<T>)
    ensures Filter(keep, a + b) == Filter(keep, a) + Filter(keep, b)
  {
    if b == [] {
      assert a + b == a;
    } else {
      FilterConcat(keep, a, DropLast(b));
      assert a + b == (a + DropLast(b)) + [Last(b)];
      FilterSnoc(keep, a + DropLast(b), Last(b));
    }
  }

  lemma FilterAll<T>(keep: T -> bool, s: seq<T>)
    requires forall x :: x in s ==> keep(x)
    ensures Filter(keep, s) == s
  {
    hide Filter;
    FilterFront(keep, s, |s|);
    assert s[..|s|] == s;
  }

  lemma {:induction false} FilterFront<T>(keep: T -> bool, s: seq<T>, n: nat)
    requires n <= |s| && forall x :: x in s ==> keep(x)
    ensures Filter(keep, s[..n]) == s[..n]
  {
    if n > 0 {
      FilterFront(keep, s, n - 1);
      hide Filter;
      FilterSnoc(keep, s[..n - 1], s[n - 1]);
      assert s[..n] == s[..n - 1] + [s[n - 1]] && s[n - 1] in s;
    }
  }

  lemma {:induction false} FilterNone<T>(keep: T -> bool, s: seq<T>)
    requires forall x :: x in s ==> !keep(x)
    ensures Filter(keep, s) == []
  {
    if s != [] {
      FilterNone(keep, DropLast(s));
    }
  }

  /** What is left of a log when every entry equal to the one right before it is dropped. */
  function Collapse<T(==)>(s: seq<T>): (r: seq<T>)
    ensures s == [] <==> r == []
    ensures s != [] ==> Last(r) == Last(s)
  {
    if s == [] then []
    else if |s| > 1 && s[|s| - 2] == Last(s) then Collapse(DropLast(s))
    else Collapse(DropLast(s)) + [Last(s)]
  }

  lemma CollapseSnoc<T>(s: seq<T>, x: T)
    ensures Collapse(s + [x]) == if s != [] && Last(s) == x then Collapse(s) else Collapse(s) + [x]
  {
    assert DropLast(s + [x]) == s;
  }

  lemma {:induction false} CollapseMembers<T>(s: seq<T>)
    ensures forall x :: x in Collapse(s) <==> x in s
  {
    if s != [] {
      CollapseMembers(DropLast(s));
      assert s == DropLast(s) + [Last(s)];
    }
  }

  /** A log without two equal neighbours is its own collapse. */
  lemma {:induction false} CollapseDistinct<T>(s: seq<T>)
    requires forall i :: 0 < i < |s| ==> s[i - 1] != s[i]
    ensures Collapse(s) == s
  {
    if s != [] {
      CollapseDistinct(DropLast(s));
      assert s == DropLast(s) + [Last(s)];
    }
  }

  lemma {:induction false} CollapseHasNoRepeats<T>(s: seq<T>)
    ensures forall i :: 0 < i < |Collapse(s)| ==> Collapse(s)[i - 1] != Collapse(s)[i]
  {
    if s != [] {
      CollapseHasNoRepeats(DropLast(s));
    }
  }

  lemma CollapseCongruence<T>(a: seq<T>, b: seq<T>, x: T)
    requires Collapse(a) == Collapse(b)
    ensures Collapse(a + [x]) == Collapse(b + [x])
  {
    CollapseSnoc(a, x);
    CollapseSnoc(b, x);
  }

  lemma LastIsKept<T>(keep: T -> bool, s: seq<T>)
    requires s != [] && keep(Last(s))
    ensures Filter(keep, s) != [] && Last(Filter(keep, s)) == Last(s)
  {
  }

  /** Dropping adjacent repeats before a filter makes no difference to the collapsed filtered log. */
  lemma {:induction false} CollapseFilter<T>(keep: T -> bool, s: seq<T>)
    ensures Collapse(Filter(keep, Collapse(s))) == Collapse(Filter(keep, s))
  {
    if s != [] {
      var init, x := DropLast(s), Last(s);
      CollapseFilter(keep, init);
      CollapseFilterStep(keep, init, x);
      assert s == init + [x];
    }
  }

  lemma CollapseFilterStep<T>(keep: T -> bool, init: seq<T>, x: T)
    requires Collapse(Filter(keep, Collapse(init))) == Collapse(Filter(keep, init))
    ensures Collapse(Filter(keep, Collapse(init + [x]))) == Collapse(Filter(keep, init + [x]))
  {
    var kept, keptOnce := Filter(keep, init), Filter(keep, Collapse(init));
    FilterSnoc(keep, init, x);
    if init != [] && Last(init) == x {
      assert Collapse(init + [x]) == Collapse(init) by { CollapseSnoc(init, x); }
      if keep(x) {
        LastIsKept(keep, init);
        CollapseSnoc(kept, x);
      }
    } else {
      assert Collapse(init + [x]) == Collapse(init) + [x] by { CollapseSnoc(init, x); }
      FilterSnoc(keep, Collapse(init), x);
      if keep(x) {
        CollapseCongruence(keptOnce, kept, x);
      }
    }
  }
}
