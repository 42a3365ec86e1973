/** An actor's ordered list of render callbacks and the erase-then-append
    registration that bindActor performs on it. Entries are compared by
    identity, as the C++ code compares pointers. */
module CallbackList {

  /** The list with its first entry equal to x removed; unchanged if x is absent. */
  function Erase<T(==)>(l: seq<T>, x: T): seq<T>
  {
    if l == [] then []
    else if l[0] == x then l[1..]
    else [l[0]] + Erase(l[1..], x)
  }

  /** How many entries of the list are x. */
  function Count<T(==)>(l: seq<T>, x: T): nat
  {
    if l == [] then 0 else (if l[0] == x then 1 else 0) + Count(l[1..], x)
  }

  /** The list with every entry equal to x dropped: the other entries in order. */
  function Others<T(==)>(l: seq<T>, x: T): seq<T>
  {
    if l == [] then [] else (if l[0] == x then [] else [l[0]]) + Others(l[1..], x)
  }

  /** Erase followed by push_back. */
  function Register<T(==)>(l: seq<T>, x: T): (r: seq<T>)
    ensures |r| > 0 && r[|r| - 1] == x
  {
    Erase(l, x) + [x]
  }

  lemma {:induction false} CountAppend<T>(a: seq<T>, b: seq<T>, x: T)
    ensures Count(a + b, x) == Count(a, x) + Count(b, x)
  {
    if a != [] {
      assert (a + b)[1..] == a[1..] + b;
      CountAppend(a[1..], b, x);
    } else {
      assert a + b == b;
    }
  }

  lemma {:induction false} OthersAppend<T>(a: seq<T>, b: seq<T>, x: T)
    ensures Others(a + b, x) == Others(a, x) + Others(b, x)
  {
    if a != [] {
      assert (a + b)[1..] == a[1..] + b;
      OthersAppend(a[1..], b, x);
    } else {
      assert a + b == b;
    }
  }

  /** Erase removes exactly one occurrence of x when there is one, and leaves the
      other entries in their relative order. */
  lemma {:induction false} EraseRemovesOne<T>(l: seq<T>, x: T)
    ensures Count(Erase(l, x), x) == if Count(l, x) == 0 then 0 else Count(l, x) - 1
    ensures Others(Erase(l, x), x) == Others(l, x)
    ensures Count(l, x) == 0 ==> Erase(l, x) == l
  {
    if l != [] && l[0] != x {
      EraseRemovesOne(l[1..], x);
      CountAppend([l[0]], Erase(l[1..], x), x);
      OthersAppend([l[0]], Erase(l[1..], x), x);
      assert [l[0]] + l[1..] == l;
    }
  }

  /** On a list that holds x at most once, registering leaves x exactly once, as
      the last entry, and keeps every other entry in its relative order. */
  lemma RegisterOnce<T>(l: seq<T>, x: T)
    requires Count(l, x) <= 1
    ensures Count(Register(l, x), x) == 1
    ensures Register(l, x)[|Register(l, x)| - 1] == x
    ensures Others(Register(l, x), x) == Others(l, x)
  {
    EraseRemovesOne(l, x);
    CountAppend(Erase(l, x), [x], x);
    OthersAppend(Erase(l, x), [x], x);
  }

  /** Registering twice gives the same list as registering once. */
  lemma RegisterIdempotent<T>(l: seq<T>, x: T)
    requires Count(l, x) <= 1
    ensures Register(Register(l, x), x) == Register(l, x)
  {
    var e := Erase(l, x);
    EraseRemovesOne(l, x);
    EraseLastOnly(e, x);
  }

  /** Erasing x from a list whose only x is an appended last entry removes that entry. */
  lemma {:induction false} EraseLastOnly<T>(e: seq<T>, x: T)
    requires Count(e, x) == 0
    ensures Erase(e + [x], x) == e
  {
    if e == [] {
      assert [] + [x] == [x];
    } else {
      assert (e + [x])[1..] == e[1..] + [x];
      assert e[0] != x;
      EraseLastOnly(e[1..], x);
      assert [e[0]] + e[1..] == e;
    }
  }
}
