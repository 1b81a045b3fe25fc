/** Facts about sequences without duplicates: what the kernel's lists look like once links are forgotten. */
module Sequences {

  /** `s[i]` occurs nowhere else in `s`. */
  ghost predicate OnlyAt<T>(s: seq<T>, i: int)
    requires 0 <= i < |s|
  {
    forall j :: 0 <= j < |s| && j != i ==> s[j] != s[i]
  }

  ghost predicate NoDup<T>(s: seq<T>) {
    forall i {:trigger OnlyAt(s, i)} :: 0 <= i < |s| ==> OnlyAt(s, i)
  }

  /** Position of the first `x` in `s`, or `|s|`. */
  function IndexOf<T(==)>(s: seq<T>, x: T): (k: nat)
    ensures k <= |s|
    ensures k < |s| ==> s[k] == x
    ensures forall j :: 0 <= j < k ==> s[j] != x
    ensures k < |s| <==> x in s
  {
    if s == [] then 0 else if s[0] == x then 0 else 1 + IndexOf(s[1..], x)
  }

  function InsertedAt<T>(s: seq<T>, k: nat, x: T): (r: seq<T>)
    requires k <= |s|
    ensures |r| == |s| + 1
    ensures forall i :: 0 <= i < |r| ==> r[i] == if i < k then s[i] else if i == k then x else s[i - 1]
  {
    s[..k] + [x] + s[k..]
  }

  function RemovedAt<T>(s: seq<T>, k: nat): (r: seq<T>)
    requires k < |s|
    ensures |r| == |s| - 1
    ensures forall i :: 0 <= i < |r| ==> r[i] == if i < k then s[i] else s[i + 1]
  {
    s[..k] + s[k + 1..]
  }

  lemma NoDupInsertedAt<T>(s: seq<T>, k: nat, x: T)
    requires k <= |s| && NoDup(s) && x !in s
    ensures NoDup(InsertedAt(s, k, x))
  {
    var r := InsertedAt(s, k, x);
    forall i | 0 <= i < |r| ensures OnlyAt(r, i) {
      if i != k {
        assert OnlyAt(s, if i < k then i else i - 1);
      }
    }
  }

  lemma NoDupRemovedAt<T>(s: seq<T>, k: nat)
    requires k < |s| && NoDup(s)
    ensures NoDup(RemovedAt(s, k))
    ensures s[k] !in RemovedAt(s, k)
  {
    var r := RemovedAt(s, k);
    assert OnlyAt(s, k);
    forall i | 0 <= i < |r| ensures OnlyAt(r, i) {
      assert OnlyAt(s, if i < k then i else i + 1);
    }
  }

  ghost function Members<T>(s: seq<T>): set<T> {
    set x | x in s
  }

  lemma MembersHas<T>(s: seq<T>)
    ensures forall i :: 0 <= i < |s| ==> s[i] in Members(s)
    ensures forall x <- Members(s) :: x in s
  {
  }

  lemma {:induction false} MembersSize<T>(s: seq<T>)
    requires NoDup(s)
    ensures |Members(s)| == |s|
    decreases |s|
  {
    if s != [] {
      assert OnlyAt(s, |s| - 1);
      NoDupRemovedAt(s, |s| - 1);
      MembersSize(RemovedAt(s, |s| - 1));
      MembersRemoved(s, |s| - 1);
    }
  }

  lemma MembersInserted<T>(s: seq<T>, k: nat, x: T)
    requires k <= |s|
    ensures Members(InsertedAt(s, k, x)) == Members(s) + {x}
  {
    assert InsertedAt(s, k, x) == s[..k] + [x] + s[k..];
    assert s == s[..k] + s[k..];
  }

  lemma MembersRemoved<T>(s: seq<T>, k: nat)
    requires k < |s| && NoDup(s)
    ensures Members(RemovedAt(s, k)) == Members(s) - {s[k]}
  {
    NoDupRemovedAt(s, k);
    assert RemovedAt(s, k) == s[..k] + s[k + 1..];
    assert s == s[..k] + [s[k]] + s[k + 1..];
  }

  /** `s` without every occurrence of a member of `xs`, in the old order. */
  function Minus<T(==)>(s: seq<T>, xs: seq<T>): (r: seq<T>)
    ensures forall x <- r :: x in s && x !in xs
    ensures forall x <- s :: x !in xs ==> x in r
    ensures |r| <= |s|
  {
    if s == [] then [] else if s[0] in xs then Minus(s[1..], xs) else [s[0]] + Minus(s[1..], xs)
  }

  lemma {:induction false} NoDupMinus<T>(s: seq<T>, xs: seq<T>)
    requires NoDup(s)
    ensures NoDup(Minus(s, xs))
  {
    if s != [] {
      NoDupTail(s);
      NoDupMinus(s[1..], xs);
      if s[0] !in xs {
        var t := Minus(s[1..], xs);
        assert Minus(s, xs) == InsertedAt(t, 0, s[0]);
        NoDupInsertedAt(t, 0, s[0]);
      }
    }
  }

  lemma NoDupTail<T>(s: seq<T>)
    requires s != [] && NoDup(s)
    ensures NoDup(s[1..]) && s[0] !in s[1..]
  {
    NoDupRemovedAt(s, 0);
    assert RemovedAt(s, 0) == s[1..];
  }

  lemma NoDupSnoc<T>(s: seq<T>, x: T)
    requires NoDup(s) && x !in s
    ensures NoDup(s + [x])
  {
    NoDupInsertedAt(s, |s|, x);
    assert InsertedAt(s, |s|, x) == s + [x];
  }

  lemma NoDupConcat<T>(s: seq<T>, t: seq<T>)
    requires NoDup(s) && NoDup(t) && forall x :: x in s ==> x !in t
    ensures NoDup(s + t)
  {
    var r := s + t;
    forall i | 0 <= i < |r| ensures OnlyAt(r, i) {
      if i < |s| {
        assert OnlyAt(s, i) && r[i] in s;
      } else {
        assert OnlyAt(t, i - |s|) && r[i] in t;
      }
      forall j | 0 <= j < |r| && j != i ensures r[j] != r[i] {
        assert r[j] in if j < |s| then s else t;
      }
    }
  }

  lemma NoDupSlice<T>(s: seq<T>, k: nat)
    requires NoDup(s) && k <= |s|
    ensures NoDup(s[..k]) && NoDup(s[k..])
    ensures forall x :: x in s[..k] ==> x !in s[k..]
  {
    forall i | 0 <= i < k ensures OnlyAt(s[..k], i) && s[i] !in s[k..] {
      assert OnlyAt(s, i);
    }
    forall i | 0 <= i < |s| - k ensures OnlyAt(s[k..], i) {
      assert OnlyAt(s, k + i);
    }
  }

  lemma RemovedAtTail<T>(s: seq<T>, k: nat)
    requires k + 1 < |s|
    ensures RemovedAt(s, k + 1) == [s[0]] + RemovedAt(s[1..], k)
  {
  }

  lemma RemovedAtFront<T>(s: seq<T>)
    requires s != []
    ensures RemovedAt(s, 0) == s[1..]
  {
  }

  lemma Unfolded<T>(s: seq<T>, x: T)
    requires x in s
    ensures IndexOf(s, x) == if s[0] == x then 0 else IndexOf(s[1..], x) + 1
    ensures Minus(s, [x]) == (if s[0] == x then [] else [s[0]]) + Minus(s[1..], [x])
  {
    hide NoDup, RemovedAt;
  }

  /** Detaching one occurrence, when there is at most one, is removing all of them. */
  lemma {:induction false} RemovedAtIsMinus<T>(s: seq<T>, x: T)
    requires NoDup(s) && x in s
    ensures RemovedAt(s, IndexOf(s, x)) == Minus(s, [x])
  {
    NoDupTail(s);
    hide RemovedAt, NoDup, IndexOf, Minus;
    Unfolded(s, x);
    if s[0] == x {
      MinusNothing(s[1..], [x]);
      RemovedAtFront(s);
    } else {
      RemovedAtIsMinus(s[1..], x);
      RemovedAtTail(s, IndexOf(s[1..], x));
    }
  }

  lemma {:induction false} MinusNothing<T>(s: seq<T>, xs: seq<T>)
    requires forall x :: x in xs ==> x !in s
    ensures Minus(s, xs) == s
  {
    if s != [] {
      MinusNothing(s[1..], xs);
    }
  }

  lemma {:induction false} MinusLast<T>(s: seq<T>, x: T)
    requires x !in s
    ensures Minus(s + [x], [x]) == s
  {
    if s == [] {
      assert (s + [x])[1..] == [];
    } else {
      assert (s + [x])[1..] == s[1..] + [x];
      MinusLast(s[1..], x);
    }
  }

  lemma {:induction false} MinusTwice<T>(s: seq<T>, xs: seq<T>, ys: seq<T>)
    ensures Minus(Minus(s, xs), ys) == Minus(s, xs + ys)
  {
    if s != [] {
      MinusTwice(s[1..], xs, ys);
      if s[0] !in xs {
        var t := Minus(s[1..], xs);
        assert ([s[0]] + t)[1..] == t;
      }
    }
  }

  /** A duplicate-free sequence drawn from a set is no longer than the set. */
  lemma {:induction false} NoDupFits<T>(s: seq<T>, b: set<T>)
    requires NoDup(s) && forall x :: x in s ==> x in b
    ensures |s| <= |b|
  {
    if s != [] {
      NoDupTail(s);
      NoDupFits(s[1..], b - {s[0]});
    }
  }

  /** The first `n` numbers: the free blocks of a pool right after initialisation. */
  function Upto(n: nat): (s: seq<nat>)
    ensures |s| == n && forall i {:trigger s[i]} :: 0 <= i < n ==> s[i] == i
  {
    seq(n, i => i)
  }

  lemma UptoFacts(n: nat)
    ensures NoDup(Upto(n))
    ensures forall j: nat :: j in Upto(n) <==> j < n
  {
    forall j: nat | j < n ensures j in Upto(n) && OnlyAt(Upto(n), j) {
      assert Upto(n)[j] == j;
    }
  }
}
