/** Small datatypes shared by the modules of this project. */
module Wrappers {
  /** A Go pointer, map lookup or error value that may be absent (nil). */
  datatype Option<+T> = None | Some(value: T)

  function Repeat<T>(x: T, times: nat): (r: seq<T>)
    ensures |r| == times && forall i :: 0 <= i < |r| ==> r[i] == x
  {
    if times == 0 then [] else Repeat(x, times - 1) + [x]
  }

  ghost predicate NoRepeats(s: seq<string>) { forall i, j :: 0 <= i < j < |s| ==> s[i] != s[j] }

  /** The elements that are present, in order: what remains of a list when its nil entries are skipped. */
  function Present<T>(s: seq<Option<T>>): (r: seq<T>)
    ensures |r| <= |s|
  {
    if s == [] then []
    else Present(s[..|s| - 1]) + (if s[|s| - 1].Some? then [s[|s| - 1].value] else [])
  }

  lemma PresentPush<T>(s: seq<Option<T>>, i: nat)
    requires i < |s| && s[i].Some?
    ensures Present(s[..i + 1]) == Present(s[..i]) + [s[i].value]
  {
    assert s[..i + 1][..i] == s[..i];
  }

  lemma {:induction false} PresentConcat<T>(a: seq<Option<T>>, b: seq<Option<T>>)
    ensures Present(a + b) == Present(a) + Present(b)
  {
    if b == [] {
      assert a + b == a;
    } else {
      PresentConcat(a, b[..|b| - 1]);
      assert (a + b)[..|a + b| - 1] == a + b[..|b| - 1];
    }
  }

  lemma PresentOne<T>(x: Option<T>)
    ensures Present([x]) == if x.Some? then [x.value] else []
  {
    assert [x][..0] == [];
  }

  /** How often x occurs in a list. Conservation arguments count one value at a time. */
  function Count<T(==)>(s: seq<T>, x: T): nat
  {
    if s == [] then 0 else Count(s[..|s| - 1], x) + (if s[|s| - 1] == x then 1 else 0)
  }

  lemma CountPush<T>(s: seq<T>, y: T, x: T)
    ensures Count(s + [y], x) == Count(s, x) + (if y == x then 1 else 0)
  {
    assert (s + [y])[..|s|] == s;
  }

  /** Removing the head of a queue. */
  lemma {:induction false} CountPop<T>(s: seq<T>, x: T)
    requires s != []
    ensures Count(s, x) == Count(s[1..], x) + (if s[0] == x then 1 else 0)
  {
    var front := s[..|s| - 1];
    if front != [] {
      CountPop(front, x);
      assert s[1..][..|s| - 2] == front[1..];
    }
  }

  lemma {:induction false} CountUpdate<T>(s: seq<T>, i: nat, y: T, x: T)
    requires i < |s|
    ensures Count(s[i := y], x) == Count(s, x) - (if s[i] == x then 1 else 0) + (if y == x then 1 else 0)
  {
    var front := s[..|s| - 1];
    if i < |front| {
      CountUpdate(front, i, y, x);
      assert s[i := y][..|s| - 1] == front[i := y];
    } else {
      assert s[i := y][..|s| - 1] == front;
    }
  }

  lemma {:induction false} CountZero<T>(s: seq<T>, x: T)
    ensures Count(s, x) == 0 <==> x !in s
    ensures Count(s, x) <= |s|
  {
    if s != [] { CountZero(s[..|s| - 1], x); }
  }

  lemma {:induction false} CountPresent<T>(s: seq<Option<T>>, x: T)
    ensures Count(Present(s), x) == Count(s, Some(x))
  {
    if s != [] {
      var front := s[..|s| - 1];
      CountPresent(front, x);
      var last := s[|s| - 1];
      assert Count(s, Some(x)) == Count(front, Some(x)) + (if last == Some(x) then 1 else 0);
      if last.Some? {
        CountPush(Present(front), last.value, x);
      } else {
        assert Present(s) == Present(front);
      }
    }
  }

  lemma {:induction false} CountIsMultiplicity<T>(s: seq<T>, x: T)
    ensures multiset(s)[x] == Count(s, x)
  {
    if s != [] {
      CountIsMultiplicity(s[..|s| - 1], x);
      assert s == s[..|s| - 1] + [s[|s| - 1]];
    }
  }

  /** Two lists in which every value occurs equally often are permutations of each other. */
  lemma SameCounts<T(!new)>(a: seq<T>, b: seq<T>)
    requires forall x :: Count(a, x) == Count(b, x)
    ensures multiset(a) == multiset(b)
  {
    forall x ensures multiset(a)[x] == multiset(b)[x] {
      CountIsMultiplicity(a, x);
      CountIsMultiplicity(b, x);
    }
  }
}
