/** Sequence helpers shared by the modules: duplicate freedom, Python's
    `list(set(...))`, and list comprehensions with a filter. */
module Seqs {

  predicate NoDup<T(==)>(s: seq<T>)
  {
    forall i, j :: 0 <= i < j < |s| ==> s[i] != s[j]
  }

  /** `list(set(s))` as a sequence: the first occurrence of each element, in
      order. Python leaves the order of a set unspecified; only membership
      and the absence of repeats are promised. */
  function Dedup<T(==,!new)>(s: seq<T>): (r: seq<T>)
    ensures NoDup(r)
    ensures forall x :: x in r <==> x in s
    ensures |r| <= |s|
    decreases |s|
  {
    if |s| == 0 then []
    else
      var r := Dedup(s[..|s| - 1]);
      assert forall x :: x in s <==> x in s[..|s| - 1] || x == s[|s| - 1];
      if s[|s| - 1] in r then r else r + [s[|s| - 1]]
  }

  /** `r` is `s` with some entries left out: what remains keeps the order
      it had in `s`. Matching from the back is complete, so the greedy
      test below decides it. */
  predicate Subsequence<T(==)>(r: seq<T>, s: seq<T>)
    decreases |s|
  {
    if |r| == 0 then true
    else if |s| == 0 then false
    else if r[|r| - 1] == s[|s| - 1] then Subsequence(r[..|r| - 1], s[..|s| - 1])
    else Subsequence(r, s[..|s| - 1])
  }

  /** `[x for x in s if p(x)]`: the elements of `s` that pass `p`, in the
      order of `s`. */
  function Filter<T(!new)>(s: seq<T>, p: T -> bool): (r: seq<T>)
    ensures forall x :: x in r <==> x in s && p(x)
    ensures |r| <= |s|
    ensures NoDup(s) ==> NoDup(r)
    decreases |s|
  {
    if |s| == 0 then []
    else
      var r := Filter(s[..|s| - 1], p);
      assert forall x :: x in s <==> x in s[..|s| - 1] || x == s[|s| - 1];
      assert NoDup(s) ==> NoDup(s[..|s| - 1]) && s[|s| - 1] !in s[..|s| - 1];
      if p(s[|s| - 1]) then r + [s[|s| - 1]] else r
  }

  /** What a filter keeps stays in the order of `s`. */
  lemma {:induction false} FilterOrder<T(!new)>(s: seq<T>, p: T -> bool)
    ensures Subsequence(Filter(s, p), s)
    decreases |s|
  {
    if |s| > 0 {
      var init := s[..|s| - 1];
      var last := s[|s| - 1];
      FilterOrder(init, p);
      assert s == init + [last];
      if p(last) {
        FilterKeepsLast(s, p);
        SubsequenceSnoc(Filter(init, p), init, last);
      } else {
        assert Filter(s, p) == Filter(init, p);
        SubsequenceSkip(Filter(init, p), init, last);
      }
    }
  }

  /** A last element that passes is kept at the end. */
  lemma FilterKeepsLast<T(!new)>(s: seq<T>, p: T -> bool)
    requires |s| > 0 && p(s[|s| - 1])
    ensures Filter(s, p) == Filter(s[..|s| - 1], p) + [s[|s| - 1]]
  {
  }

  /** A filter that keeps every element keeps the sequence. */
  lemma {:induction false} FilterAll<T(!new)>(s: seq<T>, p: T -> bool)
    requires forall x :: x in s ==> p(x)
    ensures Filter(s, p) == s
    decreases |s|
  {
    if |s| > 0 {
      var init := s[..|s| - 1];
      var last := s[|s| - 1];
      assert forall x :: x in init ==> p(x) by {
        forall x | x in init ensures p(x) {
          assert x in s;
        }
      }
      assert p(last) by {
        assert last in s;
      }
      FilterAll(init, p);
      FilterKeepsLast(s, p);
      assert s == init + [last];
    }
  }

  /** Appending the same element to both sides keeps a subsequence. */
  lemma SubsequenceSnoc<T>(r: seq<T>, s: seq<T>, x: T)
    requires Subsequence(r, s)
    ensures Subsequence(r + [x], s + [x])
  {
    assert (r + [x])[..|r|] == r;
    assert (s + [x])[..|s|] == s;
  }

  /** Appending to the longer side an element the shorter one lacks keeps a
      subsequence. */
  lemma SubsequenceSkip<T>(r: seq<T>, s: seq<T>, x: T)
    requires Subsequence(r, s) && x !in r
    ensures Subsequence(r, s + [x])
  {
    assert (s + [x])[..|s|] == s;
    if |r| > 0 {
      assert r[|r| - 1] in r;
    }
  }

  /** Appending an element not yet present keeps the entries distinct. */
  lemma NoDupSnoc<T>(s: seq<T>, x: T)
    requires NoDup(s) && x !in s
    ensures NoDup(s + [x])
  {
    forall i, j | 0 <= i < j < |s| + 1 ensures (s + [x])[i] != (s + [x])[j] {
      if j == |s| {
        assert s[i] in s;
      }
    }
  }

  /** A sequence without repeats has itself as its first occurrences. */
  lemma {:induction false} DedupOfNoDup<T(!new)>(s: seq<T>)
    requires NoDup(s)
    ensures Dedup(s) == s
    decreases |s|
  {
    if |s| > 0 {
      var init := s[..|s| - 1];
      assert NoDup(init);
      DedupOfNoDup(init);
      assert s[|s| - 1] !in init;
      assert s == init + [s[|s| - 1]];
    }
  }

  /** The elements of a sequence, as a set. */
  function Elements<T(!new)>(s: seq<T>): (r: set<T>)
    ensures forall x :: x in r <==> x in s
  {
    set x | x in s
  }

  /** A sequence has at most as many distinct elements as entries, and
      exactly as many when it repeats none. */
  lemma {:induction false} ElementsCount<T(!new)>(s: seq<T>)
    ensures |Elements(s)| <= |s|
    ensures |Elements(s)| == |s| ==> NoDup(s)
    decreases |s|
  {
    if |s| > 0 {
      var init := s[..|s| - 1];
      var last := s[|s| - 1];
      ElementsCount(init);
      assert Elements(s) == Elements(init) + {last};
      if last in init {
        assert Elements(s) == Elements(init);
      } else if |Elements(s)| == |s| {
        assert |Elements(init)| == |init|;
        forall i, j | 0 <= i < j < |s| ensures s[i] != s[j] {
          if j < |s| - 1 {
            assert s[i] == init[i] && s[j] == init[j];
          } else {
            assert s[i] == init[i];
          }
        }
      }
    }
  }

  /** A sequence no longer than a repetition-free one that contains all of
      its elements repeats nothing itself. */
  lemma NoDupByCover<T(!new)>(s: seq<T>, t: seq<T>)
    requires NoDup(t) && |s| <= |t|
    requires forall x :: x in t ==> x in s
    ensures NoDup(s)
  {
    ElementsCount(s);
    ElementsCountNoDup(t);
    assert Elements(t) <= Elements(s);
    SubsetCard(Elements(t), Elements(s));
  }

  lemma {:induction false} ElementsCountNoDup<T(!new)>(s: seq<T>)
    requires NoDup(s)
    ensures |Elements(s)| == |s|
    decreases |s|
  {
    if |s| > 0 {
      var init := s[..|s| - 1];
      assert NoDup(init);
      ElementsCountNoDup(init);
      assert Elements(s) == Elements(init) + {s[|s| - 1]};
      assert s[|s| - 1] !in init;
    }
  }

  /** A repetition-free sequence has as many entries as it has distinct
      elements. */
  lemma NoDupCount<T(!new)>(s: seq<T>, e: set<T>)
    requires NoDup(s)
    requires forall x :: x in s <==> x in e
    ensures |s| == |e|
  {
    assert Elements(s) == e;
    ElementsCountNoDup(s);
  }

  lemma SubsetCard<T>(a: set<T>, b: set<T>)
    requires a <= b
    ensures |a| <= |b|
  {
    assert b == a + (b - a);
  }
}
