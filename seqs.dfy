/** Sequence helpers shared by the column and list utilities: duplicates and Python's `sorted` on strings. */
module Seqs {
  import opened Strings

  predicate NoDup<T(==)>(s: seq<T>) {
    forall i, j :: 0 <= i < j < |s| ==> s[i] != s[j]
  }

  /** Position of the first occurrence of `x`. */
  function IndexOf<T(==)>(s: seq<T>, x: T): (i: nat)
    requires x in s
    ensures i < |s| && s[i] == x && x !in s[..i]
  {
    if s[0] == x then 0 else IndexOf(s[1..], x) + 1
  }

  lemma IndexOfPrefix<T>(s: seq<T>, t: seq<T>, x: T)
    requires x in s
    ensures IndexOf(s + t, x) == IndexOf(s, x)
  {
    if s[0] != x { assert (s + t)[1..] == s[1..] + t; IndexOfPrefix(s[1..], t, x); }
  }

  /** Order-preserving de-duplication that keeps the first occurrence (the `seen` set idiom). */
  function Dedup<T(==)>(s: seq<T>): (r: seq<T>)
    ensures NoDup(r)
    ensures forall i :: 0 <= i < |r| ==> r[i] in s
    ensures forall i :: 0 <= i < |s| ==> s[i] in r
    ensures |r| <= |s|
  {
    if |s| == 0 then []
    else
      var d := Dedup(s[..|s| - 1]);
      if s[|s| - 1] in d then d else d + [s[|s| - 1]]
  }

  /**
   * De-duplication keeps the order of the input: it is a subsequence, and its
   * elements come in the order of their first occurrences.
   */
  lemma {:induction false} DedupOrder<T>(s: seq<T>)
    ensures Subseq(Dedup(s), s)
    ensures forall i, j :: 0 <= i < j < |Dedup(s)| ==> IndexOf(s, Dedup(s)[i]) < IndexOf(s, Dedup(s)[j])
  {
    if |s| > 0 {
      var p := s[..|s| - 1];
      var x := s[|s| - 1];
      var d := Dedup(p);
      DedupOrder(p);
      assert s == p + [x];
      SubseqSnoc(d, p, x);
      forall y | y in p
        ensures IndexOf(s, y) == IndexOf(p, y)
      {
        IndexOfPrefix(p, [x], y);
      }
      if x !in d {
        assert x !in p;
        assert IndexOf(s, x) == |p|;
        assert Dedup(s) == d + [x];
      }
    }
  }

  /** De-duplicating one element more: it is appended exactly when it is new. */
  lemma DedupNext<T>(xs: seq<T>, i: nat)
    requires i < |xs|
    ensures xs[i] in xs[..i] ==> Dedup(xs[..i + 1]) == Dedup(xs[..i])
    ensures xs[i] !in xs[..i] ==> Dedup(xs[..i + 1]) == Dedup(xs[..i]) + [xs[i]]
    ensures forall x :: x in xs[..i + 1] <==> x in xs[..i] || x == xs[i]
  {
    assert xs[..i + 1][..i] == xs[..i];
    assert xs[..i + 1] == xs[..i] + [xs[i]];
    assert xs[i] in Dedup(xs[..i]) <==> xs[i] in xs[..i];
  }

  /** A sequence without duplicates is its own de-duplication. */
  lemma {:induction false} DedupNoDup<T>(s: seq<T>)
    requires NoDup(s)
    ensures Dedup(s) == s
  {
    if |s| > 0 {
      var p := s[..|s| - 1];
      assert NoDup(p);
      DedupNoDup(p);
      assert s[|s| - 1] !in p;
      assert p + [s[|s| - 1]] == s;
    }
  }

  /** Appending elements already present does not change the de-duplication. */
  lemma {:induction false} DedupAppendSeen<T>(s: seq<T>, t: seq<T>)
    requires forall i :: 0 <= i < |t| ==> t[i] in s
    ensures Dedup(s + t) == Dedup(s)
    decreases |t|
  {
    if |t| > 0 {
      var u := t[..|t| - 1];
      assert (s + t)[..|s + t| - 1] == s + u;
      DedupAppendSeen(s, u);
      assert (s + t)[|s + t| - 1] == t[|t| - 1];
    } else {
      assert s + t == s;
    }
  }

  /** `[x for x in wanted if x not in present]`: the items of `wanted` that are absent, in order. */
  function Missing<T(==,!new)>(wanted: seq<T>, present: seq<T>): (r: seq<T>)
    ensures forall x :: x in r <==> x in wanted && x !in present
    ensures |r| == 0 <==> forall x :: x in wanted ==> x in present
    ensures |r| <= |wanted|
    ensures Subseq(r, wanted)
  {
    if |wanted| == 0 then []
    else
      var rest := Missing(wanted[1..], present);
      SubseqCons(wanted[0], rest, wanted[1..]);
      ConsHeadTail(wanted);
      if wanted[0] !in present then [wanted[0]] + rest else rest
  }

  /** Items that are all in `on`, followed by items none of which is, leave just the latter. */
  lemma {:induction false} MissingPrefixDropped<T(!new)>(p: seq<T>, rest: seq<T>, on: seq<T>)
    requires forall x :: x in p ==> x in on
    requires forall x :: x in rest ==> x !in on
    ensures Missing(p + rest, on) == rest
  {
    if |p| == 0 {
      assert p + rest == rest;
      MissingNone(rest, on);
    } else {
      var pr := p + rest;
      assert pr[0] == p[0] && pr[1..] == p[1..] + rest;
      MissingPrefixDropped(p[1..], rest, on);
    }
  }

  /** Nothing is dropped from a sequence none of whose items is in `on`. */
  lemma {:induction false} MissingNone<T(!new)>(a: seq<T>, on: seq<T>)
    requires forall x :: x in a ==> x !in on
    ensures Missing(a, on) == a
  {
    if |a| > 0 {
      MissingNone(a[1..], on);
      ConsHeadTail(a);
    }
  }

  /** `[x for x in wanted if x in present]`: the items of `wanted` that are present, in order. */
  function Present<T(==,!new)>(wanted: seq<T>, present: seq<T>): (r: seq<T>)
    ensures forall x :: x in r <==> x in wanted && x in present
    ensures |r| <= |wanted|
    ensures Subseq(r, wanted)
  {
    if |wanted| == 0 then []
    else
      var rest := Present(wanted[1..], present);
      SubseqCons(wanted[0], rest, wanted[1..]);
      ConsHeadTail(wanted);
      if wanted[0] in present then [wanted[0]] + rest else rest
  }

  /** When everything wanted is present, nothing is filtered out. */
  lemma {:induction false} PresentAll<T(!new)>(wanted: seq<T>, present: seq<T>)
    requires forall x :: x in wanted ==> x in present
    ensures Present(wanted, present) == wanted
  {
    if |wanted| > 0 {
      PresentAll(wanted[1..], present);
      assert [wanted[0]] + wanted[1..] == wanted;
    }
  }

  /** Append each of `xs` that is in `columns` and not yet listed, in order. */
  function AddPresent(acc: seq<string>, xs: seq<string>, columns: seq<string>): (r: seq<string>)
    ensures NoDup(acc) ==> NoDup(r)
    ensures forall c :: c in r <==> c in acc || (c in xs && c in columns)
    ensures |acc| <= |r| && r[..|acc|] == acc
    decreases |xs|
  {
    if |xs| == 0 then acc
    else
      var next := if xs[0] in columns && xs[0] !in acc then acc + [xs[0]] else acc;
      var r := AddPresent(next, xs[1..], columns);
      assert r[..|acc|] == r[..|next|][..|acc|];
      assert forall c :: c in xs <==> c == xs[0] || c in xs[1..];
      r
  }


  /** `a` is `b` with some elements left out: the order of what remains is kept. */
  predicate Subseq<T(==)>(a: seq<T>, b: seq<T>)
    decreases |b|
  {
    || |a| == 0
    || (|b| > 0 && ((a[0] == b[0] && Subseq(a[1..], b[1..])) || Subseq(a, b[1..])))
  }

  /** One more element in front of the sequence: it may be kept or skipped. */
  lemma SubseqCons<T>(x: T, a: seq<T>, b: seq<T>)
    requires Subseq(a, b)
    ensures Subseq([x] + a, [x] + b) && Subseq(a, [x] + b)
  {
    assert ([x] + a)[1..] == a && ([x] + b)[1..] == b;
  }

  /** One more element at the end of the sequence: it may be kept or skipped. */
  lemma {:induction false} SubseqSnoc<T>(a: seq<T>, b: seq<T>, x: T)
    requires Subseq(a, b)
    ensures Subseq(a + [x], b + [x]) && Subseq(a, b + [x])
    decreases |b|
  {
    if |b| == 0 {
      assert a == [] && a + [x] == [x] && b + [x] == [x];
      assert [x][1..] == [];
    } else {
      assert (b + [x])[1..] == b[1..] + [x];
      if |a| == 0 {
        SubseqSnoc(a, b[1..], x);
        assert a + [x] == [x];
      } else {
        assert (a + [x])[1..] == a[1..] + [x];
        if a[0] == b[0] && Subseq(a[1..], b[1..]) {
          SubseqSnoc(a[1..], b[1..], x);
        } else {
          SubseqSnoc(a, b[1..], x);
        }
      }
    }
  }

  /** Everything in a subsequence is in the sequence. */
  lemma {:induction false} SubseqIn<T>(a: seq<T>, b: seq<T>, x: T)
    requires Subseq(a, b) && x in a
    ensures x in b
    decreases |b|
  {
    if a[0] == b[0] && Subseq(a[1..], b[1..]) {
      if x != a[0] {
        SubseqIn(a[1..], b[1..], x);
      }
    } else {
      SubseqIn(a, b[1..], x);
    }
  }

  /** A subsequence is no longer than the sequence. */
  lemma {:induction false} SubseqLength<T>(a: seq<T>, b: seq<T>)
    requires Subseq(a, b)
    ensures |a| <= |b|
    decreases |b|
  {
    if |a| > 0 {
      if a[0] == b[0] && Subseq(a[1..], b[1..]) {
        SubseqLength(a[1..], b[1..]);
      } else {
        SubseqLength(a, b[1..]);
      }
    }
  }

  /** A subsequence of a subsequence is a subsequence. */
  lemma {:induction false} SubseqTrans<T>(a: seq<T>, b: seq<T>, c: seq<T>)
    requires Subseq(a, b) && Subseq(b, c)
    ensures Subseq(a, c)
    decreases |c|
  {
    if |a| > 0 {
      if b[0] == c[0] && Subseq(b[1..], c[1..]) {
        if a[0] == b[0] && Subseq(a[1..], b[1..]) {
          SubseqTrans(a[1..], b[1..], c[1..]);
        } else {
          SubseqTrans(a, b[1..], c[1..]);
        }
      } else {
        SubseqTrans(a, b, c[1..]);
      }
    }
  }

  /** Without duplicates, a non-empty sequence is a fresh head before a duplicate-free tail. */
  lemma NoDupCons<T>(s: seq<T>)
    requires |s| > 0
    ensures NoDup(s) <==> s[0] !in s[1..] && NoDup(s[1..])
  {
    if NoDup(s) {
      forall j | 0 <= j < |s[1..]| ensures s[1..][j] != s[0] {
        assert s[1..][j] == s[j + 1];
      }
      forall i, j | 0 <= i < j < |s[1..]| ensures s[1..][i] != s[1..][j] {
        assert s[1..][i] == s[i + 1] && s[1..][j] == s[j + 1];
      }
    }
    if s[0] !in s[1..] && NoDup(s[1..]) {
      forall i, j | 0 <= i < j < |s| ensures s[i] != s[j] {
        assert s[j] == s[1..][j - 1];
        if i > 0 {
          assert s[i] == s[1..][i - 1];
        }
      }
    }
  }

  /** No duplicates means every element is counted once. */
  lemma {:induction false} NoDupCount<T>(s: seq<T>)
    ensures NoDup(s) <==> forall x :: multiset(s)[x] <= 1
  {
    if |s| > 0 {
      var t := s[1..];
      NoDupCount(t);
      NoDupCons(s);
      assert s == [s[0]] + t;
      assert multiset(s) == multiset{s[0]} + multiset(t);
      if !NoDup(s) {
        if s[0] in t {
          assert multiset(s)[s[0]] >= 2;
        } else {
          var x :| multiset(t)[x] > 1;
          assert multiset(s)[x] > 1;
        }
      }
    }
  }

  /** Reordering keeps a sequence free of duplicates. */
  lemma NoDupPerm<T>(a: seq<T>, b: seq<T>)
    requires NoDup(a) && multiset(a) == multiset(b)
    ensures NoDup(b)
  {
    NoDupCount(a);
    NoDupCount(b);
  }

  /** Two duplicate-free sequences with the same elements are permutations of each other. */
  lemma NoDupSameElems<T>(a: seq<T>, b: seq<T>)
    requires NoDup(a) && NoDup(b) && forall x :: x in a <==> x in b
    ensures multiset(a) == multiset(b)
  {
    NoDupCount(a);
    NoDupCount(b);
    forall x ensures multiset(a)[x] == multiset(b)[x] {
      if x in a {
        assert multiset(a)[x] == 1 && multiset(b)[x] == 1;
      } else {
        assert multiset(a)[x] == 0 && multiset(b)[x] == 0;
      }
    }
  }

  predicate Sorted(s: seq<string>) {
    forall i, j :: 0 <= i < j < |s| ==> LessEq(s[i], s[j])
  }

  function Insert(x: string, s: seq<string>): seq<string> {
    if |s| == 0 then [x]
    else if LessEq(x, s[0]) then [x] + s
    else [s[0]] + Insert(x, s[1..])
  }

  lemma {:induction false} InsertPerm(x: string, s: seq<string>)
    ensures multiset(Insert(x, s)) == multiset(s) + multiset{x}
  {
    if |s| > 0 && !LessEq(x, s[0]) {
      InsertPerm(x, s[1..]);
      assert s == [s[0]] + s[1..];
    }
  }

  /** Every element of the result is `x` or one of `s`. */
  lemma InsertElems(x: string, s: seq<string>, k: int)
    requires 0 <= k < |Insert(x, s)|
    ensures Insert(x, s)[k] == x || Insert(x, s)[k] in s
  {
    InsertPerm(x, s);
    assert Insert(x, s)[k] in multiset(Insert(x, s));
  }

  lemma {:induction false} InsertSorted(x: string, s: seq<string>)
    requires Sorted(s)
    ensures Sorted(Insert(x, s))
  {
    if |s| == 0 {
    } else if LessEq(x, s[0]) {
      var r := [x] + s;
      forall i, j | 0 <= i < j < |r| ensures LessEq(r[i], r[j]) {
        if i == 0 && j > 1 { LessEqTrans(x, s[0], s[j - 1]); }
      }
    } else {
      var t := s[1..];
      InsertSorted(x, t);
      var it := Insert(x, t);
      LessEqTotal(x, s[0]);
      forall k | 0 <= k < |it| ensures LessEq(s[0], it[k]) {
        InsertElems(x, t, k);
        if it[k] != x {
          var m :| 0 <= m < |t| && t[m] == it[k];
          assert s[m + 1] == t[m];
        }
      }
      var r := [s[0]] + it;
      forall i, j | 0 <= i < j < |r| ensures LessEq(r[i], r[j]) {
        if i == 0 { assert r[j] == it[j - 1]; }
      }
    }
  }

  /** Python's `sorted` on a list of strings. */
  function Sort(s: seq<string>): (r: seq<string>)
    ensures Sorted(r)
    ensures multiset(r) == multiset(s)
  {
    if |s| == 0 then []
    else
      InsertSorted(s[0], Sort(s[1..]));
      InsertPerm(s[0], Sort(s[1..]));
      assert s == [s[0]] + s[1..];
      Insert(s[0], Sort(s[1..]))
  }

  /** A non-empty sequence is its head followed by its tail. */
  lemma ConsHeadTail<T>(s: seq<T>)
    requires |s| > 0
    ensures [s[0]] + s[1..] == s
  {
  }

  /** A prefix of a prefix is a prefix. */
  lemma PrefixTrans<T>(a: seq<T>, b: seq<T>, c: seq<T>)
    requires |a| <= |b| <= |c| && b[..|a|] == a && c[..|b|] == b
    ensures c[..|a|] == a
  {
    assert forall i :: 0 <= i < |a| ==> c[i] == b[i];
  }

  /** A prefix one longer is the prefix plus the next element. */
  lemma PrefixNext<T>(s: seq<T>, i: nat)
    requires i < |s|
    ensures s[..i + 1] == s[..i] + [s[i]]
  {
  }

  /** `f` applied to every element, in order. */
  function MapSeq<A, B>(f: A -> B, xs: seq<A>): (r: seq<B>)
    ensures |r| == |xs|
  {
    if |xs| == 0 then [] else [f(xs[0])] + MapSeq(f, xs[1..])
  }

  /** Element `i` of the mapped sequence is `f` of element `i`. */
  lemma {:induction false} MapSeqAt<A, B>(f: A -> B, xs: seq<A>, i: nat)
    requires i < |xs|
    ensures MapSeq(f, xs)[i] == f(xs[i])
    decreases i
  {
    if i > 0 {
      MapSeqAt(f, xs[1..], i - 1);
    }
  }

  /** A slice one longer is the slice plus the next element. */
  lemma SliceNext<T>(s: seq<T>, a: nat, i: nat)
    requires a <= i < |s|
    ensures s[a..i + 1] == s[a..i] + [s[i]]
  {
  }

  /** Concatenation is associative. */
  lemma AppendAssoc<T>(a: seq<T>, b: seq<T>, c: seq<T>)
    ensures a + b + c == a + (b + c)
  {
  }

  /** The head of a sorted sequence is below each of its elements. */
  lemma SortedHeadLeast(a: seq<string>, x: string)
    requires Sorted(a) && x in multiset(a)
    ensures |a| > 0 && LessEq(a[0], x)
  {
    var k :| 0 <= k < |a| && a[k] == x;
    if k == 0 { LessEqRefl(x); }
  }

  /** Dropping the head removes one copy of it. */
  lemma TailMultiset(a: seq<string>)
    requires |a| > 0
    ensures multiset(a[1..]) == multiset(a) - multiset{a[0]}
  {
    assert a == [a[0]] + a[1..];
  }

  /** The tail of a sorted sequence is sorted. */
  lemma SortedTail(a: seq<string>)
    requires Sorted(a) && |a| > 0
    ensures Sorted(a[1..])
  {
    forall i, j | 0 <= i < j < |a| - 1 ensures LessEq(a[1..][i], a[1..][j]) {
      assert a[1..][i] == a[i + 1] && a[1..][j] == a[j + 1];
    }
  }

  /** Sequences with the same head and the same tail are equal. */
  lemma HeadTailEq<T>(a: seq<T>, b: seq<T>)
    requires |a| > 0 && |b| > 0 && a[0] == b[0] && a[1..] == b[1..]
    ensures a == b
  {
    assert a == [a[0]] + a[1..] && b == [b[0]] + b[1..];
  }

  /** Two sorted sequences with the same elements are equal: `sorted` does not depend on input order. */
  lemma {:induction false} SortedUnique(a: seq<string>, b: seq<string>)
    requires Sorted(a) && Sorted(b) && multiset(a) == multiset(b)
    ensures a == b
    decreases |a|
  {
    assert |a| == |multiset(a)| == |b|;
    if |a| > 0 {
      SortedHeadLeast(b, a[0]);
      SortedHeadLeast(a, b[0]);
      LessEqAntisym(a[0], b[0]);
      TailMultiset(a);
      TailMultiset(b);
      SortedTail(a);
      SortedTail(b);
      SortedUnique(a[1..], b[1..]);
      HeadTailEq(a, b);
    }
  }
}
