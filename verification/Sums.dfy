/** Sums over finite sets, with the few laws the roll-ups need. */
module Sums {

  ghost function SumSet<T(!new)>(s: set<T>, f: T -> nat): nat
    decreases |s|
  {
    if s == {} then 0
    else
      var x :| x in s;
      f(x) + SumSet(s - {x}, f)
  }

  /** Any element may be taken out first. */
  lemma {:induction false} SumRemove<T(!new)>(s: set<T>, f: T -> nat, x: T)
    requires x in s
    ensures SumSet(s, f) == f(x) + SumSet(s - {x}, f)
    decreases |s|
  {
    var y :| y in s && SumSet(s, f) == f(y) + SumSet(s - {y}, f);
    if y != x {
      SumRemove(s - {y}, f, x);
      SumRemove(s - {x}, f, y);
      assert s - {y} - {x} == s - {x} - {y};
    }
  }

  lemma SumAdd<T(!new)>(s: set<T>, f: T -> nat, x: T)
    requires x !in s
    ensures SumSet(s + {x}, f) == SumSet(s, f) + f(x)
  {
    SumRemove(s + {x}, f, x);
    assert s + {x} - {x} == s;
  }

  lemma {:induction false} SumSame<T(!new)>(s: set<T>, f: T -> nat, g: T -> nat)
    requires forall x :: x in s ==> f(x) == g(x)
    ensures SumSet(s, f) == SumSet(s, g)
    decreases |s|
  {
    if s != {} {
      var x :| x in s;
      SumRemove(s, f, x);
      SumRemove(s, g, x);
      SumSame(s - {x}, f, g);
    }
  }

  lemma {:induction false} SumLe<T(!new)>(s: set<T>, f: T -> nat, g: T -> nat)
    requires forall x :: x in s ==> f(x) <= g(x)
    ensures SumSet(s, f) <= SumSet(s, g)
    decreases |s|
  {
    if s != {} {
      var x :| x in s;
      SumRemove(s, f, x);
      SumRemove(s, g, x);
      SumLe(s - {x}, f, g);
    }
  }

  lemma {:induction false} SumPlus<T(!new)>(s: set<T>, f: T -> nat, g: T -> nat, h: T -> nat)
    requires forall x :: x in s ==> h(x) == f(x) + g(x)
    ensures SumSet(s, h) == SumSet(s, f) + SumSet(s, g)
    decreases |s|
  {
    if s != {} {
      var x :| x in s;
      SumRemove(s, f, x);
      SumRemove(s, g, x);
      SumRemove(s, h, x);
      SumPlus(s - {x}, f, g, h);
    }
  }

  lemma {:induction false} SumZero<T(!new)>(s: set<T>, f: T -> nat)
    requires forall x :: x in s ==> f(x) == 0
    ensures SumSet(s, f) == 0
    decreases |s|
  {
    if s != {} {
      var x :| x in s;
      SumRemove(s, f, x);
      SumZero(s - {x}, f);
    }
  }

  lemma {:induction false} SumOnes<T(!new)>(s: set<T>, f: T -> nat)
    requires forall x :: x in s ==> f(x) == 1
    ensures SumSet(s, f) == |s|
    decreases |s|
  {
    if s != {} {
      var x :| x in s;
      SumRemove(s, f, x);
      SumOnes(s - {x}, f);
    }
  }

  lemma {:induction false} SumUnion<T(!new)>(s: set<T>, t: set<T>, f: T -> nat)
    requires s !! t
    ensures SumSet(s + t, f) == SumSet(s, f) + SumSet(t, f)
    decreases |t|
  {
    if t == {} {
      assert s + t == s;
    } else {
      var x :| x in t;
      SumUnion(s, t - {x}, f);
      assert s + t - {x} == s + (t - {x});
      SumRemove(s + t, f, x);
      SumRemove(t, f, x);
    }
  }

  /** The terms outside a subset are zero. */
  lemma {:induction false} SumSubset<T(!new)>(s: set<T>, part: set<T>, f: T -> nat)
    requires part <= s && forall x :: x in s && x !in part ==> f(x) == 0
    ensures SumSet(s, f) == SumSet(part, f)
    decreases |s|
  {
    if s != part {
      var x :| x in s && x !in part;
      SumRemove(s, f, x);
      SumSubset(s - {x}, part, f);
    }
  }

  /** Everything in the parts that the elements of a set have. */
  ghost function Joined<S(!new), T(!new)>(s: set<S>, parts: S -> set<T>): set<T> {
    set y, x | y in s && x in parts(y) :: x
  }

  lemma JoinedSplits<S(!new), T(!new)>(s: set<S>, parts: S -> set<T>, y: S)
    requires y in s && forall z :: z in s && z != y ==> parts(y) !! parts(z)
    ensures Joined(s, parts) == Joined(s - {y}, parts) + parts(y) && Joined(s - {y}, parts) !! parts(y)
  {
    forall x ensures x in Joined(s, parts) <==> x in Joined(s - {y}, parts) || x in parts(y) {
      if x in Joined(s, parts) {
        var z :| z in s && x in parts(z);
        assert z == y || z in s - {y};
      }
    }
  }

  /** Where the parts do not overlap, their sums add up to the sum of the whole. */
  lemma {:induction false} SumJoined<S(!new), T(!new)>(s: set<S>, parts: S -> set<T>, f: T -> nat, g: S -> nat)
    requires forall y :: y in s ==> g(y) == SumSet(parts(y), f)
    requires forall y, z :: y in s && z in s && y != z ==> parts(y) !! parts(z)
    ensures SumSet(s, g) == SumSet(Joined(s, parts), f)
    decreases |s|
  {
    hide SumSet, Joined;
    if s == {} {
      NothingJoined<S, T>(parts);
      SumZero(s, g);
      SumZero(Joined(s, parts), f);
    } else {
      var y :| y in s;
      JoinedSplits(s, parts, y);
      SumRemove(s, g, y);
      SumJoined(s - {y}, parts, f, g);
      SumUnion(Joined(s - {y}, parts), parts(y), f);
    }
  }

  lemma NothingJoined<S(!new), T(!new)>(parts: S -> set<T>)
    ensures Joined({}, parts) == {}
  {
  }

  /** The elements that carry a tag. */
  ghost function Part<T(!new), L>(s: set<T>, tag: T -> L, l: L): set<T> {
    set x | x in s && tag(x) == l
  }

  ghost function PartSum<T(!new), L(!new)>(s: set<T>, f: T -> nat, tag: T -> L): L -> nat {
    l => SumSet(Part(s, tag, l), f)
  }

  lemma PartDrop<T(!new), L(!new)>(s: set<T>, f: T -> nat, tag: T -> L, x: T, l: L)
    requires x in s
    ensures PartSum(s, f, tag)(l) == PartSum(s - {x}, f, tag)(l) + (if tag(x) == l then f(x) else 0)
  {
    if tag(x) == l {
      assert Part(s, tag, l) - {x} == Part(s - {x}, tag, l);
      SumRemove(Part(s, tag, l), f, x);
    } else {
      assert Part(s, tag, l) == Part(s - {x}, tag, l);
    }
  }

  /** A total is the sum of its parts, for any labelling. */
  lemma {:induction false} SumByLabel<T(!new), L(!new)>(s: set<T>, f: T -> nat, tag: T -> L, tags: set<L>)
    requires forall x :: x in s ==> tag(x) in tags
    ensures SumSet(s, f) == SumSet(tags, PartSum(s, f, tag))
    decreases |s|
  {
    if s == {} {
      forall l | l in tags ensures PartSum(s, f, tag)(l) == 0 { assert Part(s, tag, l) == {}; }
      SumZero(tags, PartSum(s, f, tag));
    } else {
      hide PartSum;
      var x :| x in s;
      var g, h := PartSum(s, f, tag), PartSum(s - {x}, f, tag);
      SumByLabel(s - {x}, f, tag, tags);
      SumRemove(s, f, x);
      SumRemove(tags, g, tag(x));
      SumRemove(tags, h, tag(x));
      PartDrop(s, f, tag, x, tag(x));
      forall l | l in tags - {tag(x)} ensures g(l) == h(l) { PartDrop(s, f, tag, x, l); }
      SumSame(tags - {tag(x)}, g, h);
    }
  }
}
