/** List helpers shared by the connection registry and the watchlist: Python's
    `list.remove` (which deletes the first occurrence only), the guarded
    `if x in xs: xs.remove(x)` both of them use, and the "no element twice"
    property both lists are expected to keep. */
module Sequences {

  /** No element occurs twice. */
  predicate NoDup<T(==)>(s: seq<T>) {
    forall i, j :: 0 <= i < j < |s| ==> s[i] != s[j]
  }

  /** `list.remove(x)` on a list that holds `x`: only the first occurrence goes. */
  function RemoveFirst<T(==)>(s: seq<T>, x: T): (r: seq<T>)
    requires x in s
    ensures |r| == |s| - 1
  {
    if s[0] == x then s[1..] else [s[0]] + RemoveFirst(s[1..], x)
  }

  /** `remove` takes away one copy of `x` and nothing else. */
  lemma {:induction false} RemoveFirstMultiset<T>(s: seq<T>, x: T)
    requires x in s
    ensures multiset(RemoveFirst(s, x)) == multiset(s) - multiset{x}
  {
    assert s == [s[0]] + s[1..];
    if s[0] != x {
      RemoveFirstMultiset(s[1..], x);
    }
  }

  /** Removing the first `x` from `a + [x] + b` where `a` has no `x` gives back `a + b`. */
  lemma {:induction false} RemoveFirstAt<T>(a: seq<T>, x: T, b: seq<T>)
    requires x !in a
    ensures x in a + [x] + b && RemoveFirst(a + [x] + b, x) == a + b
  {
    var s := a + [x] + b;
    assert s[|a|] == x;
    if a == [] {
      assert s[1..] == b;
    } else {
      var t := a[1..] + [x] + b;
      assert s[0] == a[0] && a[0] != x;
      assert s[1..] == t;
      RemoveFirstAt(a[1..], x, b);
      calc {
        RemoveFirst(s, x);
        [a[0]] + RemoveFirst(t, x);
        [a[0]] + (a[1..] + b);
        { assert a == [a[0]] + a[1..]; }
        a + b;
      }
    }
  }

  /** The tail of a duplicate-free list is duplicate-free and lacks the head. */
  lemma NoDupTail<T>(s: seq<T>)
    requires NoDup(s) && s != []
    ensures NoDup(s[1..]) && s[0] !in s[1..]
  {
    forall i | 0 <= i < |s| - 1 ensures s[1..][i] != s[0] {
      assert s[1..][i] == s[i + 1];
    }
    forall i, j | 0 <= i < j < |s| - 1 ensures s[1..][i] != s[1..][j] {
      assert s[1..][i] == s[i + 1] && s[1..][j] == s[j + 1];
    }
  }

  /** Putting a new element in front of a duplicate-free list keeps it duplicate-free. */
  lemma NoDupCons<T>(h: T, t: seq<T>)
    requires NoDup(t) && h !in t
    ensures NoDup([h] + t)
  {
    var s := [h] + t;
    forall i, j | 0 <= i < j < |s| ensures s[i] != s[j] {
      assert s[j] == t[j - 1];
      if i > 0 { assert s[i] == t[i - 1]; }
    }
  }

  /** On a duplicate-free list `remove` deletes every occurrence, and the list stays duplicate-free. */
  lemma {:induction false} RemoveFirstNoDup<T>(s: seq<T>, x: T)
    requires NoDup(s) && x in s
    ensures x !in RemoveFirst(s, x) && NoDup(RemoveFirst(s, x))
  {
    NoDupTail(s);
    if s[0] != x {
      var t := s[1..];
      assert x in t by { assert s == [s[0]] + t; }
      RemoveFirstNoDup(t, x);
      var r := RemoveFirst(t, x);
      assert s[0] !in r by {
        RemoveFirstMultiset(t, x);
        assert multiset(r) <= multiset(t);
        assert s[0] !in multiset(t);
      }
      NoDupCons(s[0], r);
    }
  }

  /** `if x in s: s.remove(x)`: the first `x` goes if there is one, otherwise nothing changes. */
  function Discard<T(==)>(s: seq<T>, x: T): (r: seq<T>)
    ensures x !in s ==> r == s
    ensures x in s ==> |r| == |s| - 1
  {
    if x in s then RemoveFirst(s, x) else s
  }

  /** Discarding takes away one copy of `x` if there is one, and nothing else. */
  lemma DiscardMultiset<T>(s: seq<T>, x: T)
    ensures multiset(Discard(s, x)) == multiset(s) - multiset{x}
  {
    if x in s {
      RemoveFirstMultiset(s, x);
    } else {
      assert multiset(s)[x] == 0;
    }
  }

  /** Discarding an element that is absent changes nothing, however often it is repeated. */
  lemma DiscardAbsent<T>(s: seq<T>, x: T)
    requires x !in s
    ensures Discard(Discard(s, x), x) == Discard(s, x) == s
  {
  }

  /** On a duplicate-free list, `x` is gone after one discard, so a second one
      changes nothing, and the list stays duplicate-free. */
  lemma DiscardTwice<T>(s: seq<T>, x: T)
    requires NoDup(s)
    ensures x !in Discard(s, x) && NoDup(Discard(s, x))
    ensures Discard(Discard(s, x), x) == Discard(s, x)
  {
    if x in s {
      RemoveFirstNoDup(s, x);
    }
  }

  /** Appending an absent element and then discarding it gives back the list. */
  lemma AppendThenDiscard<T>(s: seq<T>, x: T)
    requires x !in s
    ensures Discard(s + [x], x) == s
  {
    RemoveFirstAt(s, x, []);
    assert s + [x] + [] == s + [x];
  }

  /** In a duplicate-free `a + [x] + b`, `x` is not in `a`. */
  lemma NoDupSplit<T>(a: seq<T>, x: T, b: seq<T>)
    requires NoDup(a + [x] + b)
    ensures x !in a
  {
    var s := a + [x] + b;
    forall i | 0 <= i < |a| ensures a[i] != x {
      assert s[i] == a[i] && s[|a|] == x;
    }
  }

  /** Appending an element that is not yet there keeps a list duplicate-free. */
  lemma AppendNoDup<T>(s: seq<T>, x: T)
    requires NoDup(s) && x !in s
    ensures NoDup(s + [x])
  {
    var t := s + [x];
    forall i, j | 0 <= i < j < |t|
      ensures t[i] != t[j]
    {
      if j == |s| {
        assert t[i] == s[i];
      } else {
        assert t[i] == s[i] && t[j] == s[j];
      }
    }
  }

  /** A duplicate-free list has as many distinct elements as entries. */
  lemma {:induction false} DistinctCount<T>(s: seq<T>)
    requires NoDup(s)
    ensures |set x | x in s| == |s|
  {
    if s != [] {
      var t := s[..|s| - 1];
      var last := s[|s| - 1];
      assert s == t + [last];
      assert NoDup(t) by {
        forall i, j | 0 <= i < j < |t| ensures t[i] != t[j] {
          assert t[i] == s[i] && t[j] == s[j];
        }
      }
      assert last !in t by {
        forall i | 0 <= i < |t| ensures t[i] != last {
          assert t[i] == s[i];
        }
      }
      DistinctCount(t);
      assert (set x | x in s) == (set x | x in t) + {last};
    }
  }
}
