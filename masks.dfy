/** Selection of rows by a boolean mask, the `data[mask]` idiom every filter
    of the nutrition tracker is built from: the rows of a table for which a
    row-wise test holds, in their original order, none added and none altered. */
module Masks {

  /** The elements of `s` that satisfy `keep`, in the order they occur in `s`. */
  function Keep<T(!new)>(s: seq<T>, keep: T -> bool): (r: seq<T>)
    ensures |r| <= |s|
  {
    if s == [] then []
    else
      assert s == [s[0]] + s[1..];
      if keep(s[0]) then [s[0]] + Keep(s[1..], keep) else Keep(s[1..], keep)
  }

  /** An element is kept exactly when it occurs and passes. */
  lemma {:induction false} KeepMembers<T(!new)>(s: seq<T>, keep: T -> bool)
    ensures forall x :: x in Keep(s, keep) <==> x in s && keep(x)
  {
    if s != [] {
      KeepMembers(s[1..], keep);
      assert s == [s[0]] + s[1..];
    }
  }

  /** The test that holds where both `f` and `g` hold. */
  function Both<T(!new)>(f: T -> bool, g: T -> bool): T -> bool
  {
    x => f(x) && g(x)
  }

  /** `idx` lists, in strictly increasing order, positions of `s` whose
      elements, read in that order, are `r`. */
  ghost predicate Embeds<T(!new)>(idx: seq<nat>, r: seq<T>, s: seq<T>)
  {
    && |idx| == |r|
    && (forall i :: 0 <= i < |idx| ==> idx[i] < |s| && r[i] == s[idx[i]])
    && (forall i, j :: 0 <= i < j < |idx| ==> idx[i] < idx[j])
  }

  /** The positions listed in `idx` are exactly the positions of `s` whose element passes `keep`. */
  ghost predicate MarksExactly<T(!new)>(idx: seq<nat>, s: seq<T>, keep: T -> bool)
  {
    forall j :: 0 <= j < |s| ==> (j in idx <==> keep(s[j]))
  }

  /** `r` is obtained from `s` by dropping elements, keeping the rest in order. */
  ghost predicate IsSubsequence<T(!new)>(r: seq<T>, s: seq<T>)
  {
    exists idx :: Embeds(idx, r, s)
  }

  /** `r` is what the boolean mask `keep` selects from `s`: every position that
      passes, and no other, read in increasing order. */
  ghost predicate IsMaskOf<T(!new)>(r: seq<T>, s: seq<T>, keep: T -> bool)
  {
    exists idx :: Embeds(idx, r, s) && MarksExactly(idx, s, keep)
  }

  /** Every position moved one place to the right. */
  function Shift(idx: seq<nat>): (r: seq<nat>)
    ensures |r| == |idx|
    ensures forall i :: 0 <= i < |idx| ==> r[i] == idx[i] + 1
  {
    seq(|idx|, i requires 0 <= i < |idx| => idx[i] + 1)
  }

  lemma ShiftMembers(idx: seq<nat>, j: nat)
    ensures 0 !in Shift(idx)
    ensures j + 1 in Shift(idx) <==> j in idx
  {
    var sh := Shift(idx);
    if j + 1 in sh {
      var i :| 0 <= i < |sh| && sh[i] == j + 1;
      assert idx[i] == j;
    }
    if j in idx {
      var i :| 0 <= i < |idx| && idx[i] == j;
      assert sh[i] == j + 1;
    }
  }

  /** Prepending an element `x` to `s` moves every embedded position one place,
      and a selected `x` is embedded at position 0. */
  lemma ConsEmbeds<T(!new)>(idx: seq<nat>, r: seq<T>, s: seq<T>, x: T, keepX: bool)
    requires Embeds(idx, r, s)
    ensures Embeds(if keepX then [0] + Shift(idx) else Shift(idx),
                   if keepX then [x] + r else r, [x] + s)
  {
  }

  lemma ConsMarks<T(!new)>(idx: seq<nat>, s: seq<T>, x: T, keep: T -> bool)
    requires MarksExactly(idx, s, keep)
    ensures MarksExactly(if keep(x) then [0] + Shift(idx) else Shift(idx), [x] + s, keep)
  {
    var xs := [x] + s;
    var out := if keep(x) then [0] + Shift(idx) else Shift(idx);
    forall j | 0 <= j < |xs|
      ensures j in out <==> keep(xs[j])
    {
      ShiftMembers(idx, if j == 0 then 0 else j - 1);
      if j > 0 {
        assert xs[j] == s[j - 1];
      }
    }
  }

  /** The positions Keep selects: a witness that Keep is the mask selection. */
  lemma {:induction false} KeepPositions<T(!new)>(s: seq<T>, keep: T -> bool) returns (idx: seq<nat>)
    ensures Embeds(idx, Keep(s, keep), s)
    ensures MarksExactly(idx, s, keep)
  {
    if s == [] {
      idx := [];
    } else {
      var rest := KeepPositions(s[1..], keep);
      assert s == [s[0]] + s[1..];
      ConsEmbeds(rest, Keep(s[1..], keep), s[1..], s[0], keep(s[0]));
      ConsMarks(rest, s[1..], s[0], keep);
      idx := if keep(s[0]) then [0] + Shift(rest) else Shift(rest);
    }
  }

  /** Keep is exactly the boolean-mask selection. */
  lemma KeepIsMask<T(!new)>(s: seq<T>, keep: T -> bool)
    ensures IsMaskOf(Keep(s, keep), s, keep)
    ensures IsSubsequence(Keep(s, keep), s)
  {
    var idx := KeepPositions(s, keep);
  }

  /** Duplicated rows are kept as often as they occur, or not at all. */
  lemma {:induction false} KeepCount<T(!new)>(s: seq<T>, keep: T -> bool, x: T)
    ensures multiset(Keep(s, keep))[x] == if keep(x) then multiset(s)[x] else 0
  {
    if s != [] {
      KeepCount(s[1..], keep, x);
      assert s == [s[0]] + s[1..];
      assert multiset(s) == multiset([s[0]]) + multiset(s[1..]);
      if keep(s[0]) {
        assert multiset(Keep(s, keep)) == multiset([s[0]]) + multiset(Keep(s[1..], keep));
      }
    }
  }

  /** Selecting twice is selecting once by the conjunction of the two tests. */
  lemma {:induction false} KeepKeep<T(!new)>(s: seq<T>, f: T -> bool, g: T -> bool)
    ensures Keep(Keep(s, f), g) == Keep(s, Both(f, g))
  {
    if s != [] {
      KeepKeep(s[1..], f, g);
      if f(s[0]) {
        assert Keep([s[0]] + Keep(s[1..], f), g)
            == (if g(s[0]) then [s[0]] else []) + Keep(Keep(s[1..], f), g) by {
          var u := [s[0]] + Keep(s[1..], f);
          assert u[0] == s[0] && u[1..] == Keep(s[1..], f);
        }
      }
    }
  }

  /** Two tests that agree on every element of `s` select the same elements. */
  lemma {:induction false} KeepAgree<T(!new)>(s: seq<T>, f: T -> bool, g: T -> bool)
    requires forall x :: x in s ==> (f(x) <==> g(x))
    ensures Keep(s, f) == Keep(s, g)
  {
    if s != [] {
      assert s[0] in s;
      assert forall x :: x in s[1..] ==> x in s;
      KeepAgree(s[1..], f, g);
    }
  }

  /** A test that every element passes selects the whole sequence. */
  lemma {:induction false} KeepAll<T(!new)>(s: seq<T>, keep: T -> bool)
    requires forall x :: x in s ==> keep(x)
    ensures Keep(s, keep) == s
  {
    if s != [] {
      assert s[0] in s;
      assert forall x :: x in s[1..] ==> x in s;
      KeepAll(s[1..], keep);
      assert s == [s[0]] + s[1..];
    }
  }

  /** A test no element passes selects nothing. */
  lemma KeepNone<T(!new)>(s: seq<T>, keep: T -> bool)
    requires forall x :: x in s ==> !keep(x)
    ensures Keep(s, keep) == []
  {
    KeepMembers(s, keep);
    if Keep(s, keep) != [] {
      assert Keep(s, keep)[0] in Keep(s, keep);
    }
  }

  /** Applying the same mask twice is applying it once. */
  lemma KeepIdempotent<T(!new)>(s: seq<T>, keep: T -> bool)
    ensures Keep(Keep(s, keep), keep) == Keep(s, keep)
  {
    KeepKeep(s, keep, keep);
    KeepAgree(s, Both(keep, keep), keep);
  }

  /** The order in which two masks are applied does not matter. */
  lemma KeepCommutes<T(!new)>(s: seq<T>, f: T -> bool, g: T -> bool)
    ensures Keep(Keep(s, f), g) == Keep(Keep(s, g), f)
  {
    KeepKeep(s, f, g);
    KeepKeep(s, g, f);
    KeepAgree(s, Both(f, g), Both(g, f));
  }

  /** Selecting by a test that implies another is selecting from what the
      weaker test selects: a stricter test keeps a subsequence. */
  lemma KeepStricter<T(!new)>(s: seq<T>, strict: T -> bool, loose: T -> bool)
    requires forall x :: strict(x) ==> loose(x)
    ensures Keep(s, strict) == Keep(Keep(s, loose), strict)
    ensures IsSubsequence(Keep(s, strict), Keep(s, loose))
  {
    KeepKeep(s, loose, strict);
    KeepAgree(s, Both(loose, strict), strict);
    KeepIsMask(Keep(s, loose), strict);
  }
}
