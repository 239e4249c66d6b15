/** The array operations the services build their lists with: `Array.prototype.filter`
    and the `[...new Set(xs)]` idiom, with what they promise about order. */
module Sequences {

  /** `s.filter(p)`: the elements of `s` that satisfy `p`, in their original order. */
  function Filter<T(!new)>(p: T -> bool, s: seq<T>): (r: seq<T>)
    ensures |r| <= |s|
    ensures forall x :: x in r <==> x in s && p(x)
  {
    if s == [] then []
    else if p(s[0]) then [s[0]] + Filter(p, s[1..])
    else Filter(p, s[1..])
  }

  /** `r` is the subsequence of `s` at the strictly increasing positions `idx`. */
  ghost predicate Embeds<T>(r: seq<T>, s: seq<T>, idx: seq<int>)
  {
    && |idx| == |r|
    && (forall i :: 0 <= i < |idx| ==> 0 <= idx[i] < |s| && r[i] == s[idx[i]])
    && (forall i, j :: 0 <= i < j < |idx| ==> idx[i] < idx[j])
  }

  /** Every position moved one to the right. */
  function Shift(idx: seq<int>): (r: seq<int>)
    ensures |r| == |idx|
    ensures forall i :: 0 <= i < |idx| ==> r[i] == idx[i] + 1
  {
    seq(|idx|, i requires 0 <= i < |idx| => idx[i] + 1)
  }

  lemma ShiftMembers(idx: seq<int>)
    ensures forall j :: j in Shift(idx) <==> j - 1 in idx
  {
    forall j
      ensures j in Shift(idx) <==> j - 1 in idx
    {
      if j in Shift(idx) {
        var i :| 0 <= i < |idx| && Shift(idx)[i] == j;
        assert idx[i] == j - 1;
      }
      if j - 1 in idx {
        var i :| 0 <= i < |idx| && idx[i] == j - 1;
        assert Shift(idx)[i] == j;
      }
    }
  }

  lemma ShiftEmbeds<T>(r: seq<T>, s: seq<T>, idx: seq<int>)
    requires s != [] && Embeds(r, s[1..], idx)
    ensures Embeds(r, s, Shift(idx))
    ensures forall i :: 0 <= i < |idx| ==> 1 <= Shift(idx)[i]
  {
    forall i | 0 <= i < |idx|
      ensures 0 <= Shift(idx)[i] < |s| && r[i] == s[Shift(idx)[i]]
    {
      assert s[1..][idx[i]] == s[idx[i] + 1];
    }
  }

  lemma ConsEmbeds<T>(r: seq<T>, s: seq<T>, idx: seq<int>)
    requires s != [] && Embeds(r, s, idx)
    requires forall i :: 0 <= i < |idx| ==> 1 <= idx[i]
    ensures Embeds([s[0]] + r, s, [0] + idx)
  {
    var r', idx' := [s[0]] + r, [0] + idx;
    forall i | 0 <= i < |idx'|
      ensures 0 <= idx'[i] < |s| && r'[i] == s[idx'[i]]
    {
      if i > 0 {
        assert idx'[i] == idx[i - 1] && r'[i] == r[i - 1];
      }
    }
    forall i, j | 0 <= i < j < |idx'|
      ensures idx'[i] < idx'[j]
    {
      assert idx'[j] == idx[j - 1];
      if i > 0 {
        assert idx'[i] == idx[i - 1];
      }
    }
  }

  /** Filtering keeps exactly the positions whose element satisfies `p`, and keeps them in order. */
  lemma {:induction false} FilterSelects<T(!new)>(p: T -> bool, s: seq<T>) returns (idx: seq<int>)
    ensures Embeds(Filter(p, s), s, idx)
    ensures forall j :: 0 <= j < |s| ==> (j in idx <==> p(s[j]))
  {
    if s == [] {
      idx := [];
    } else {
      var rest := FilterSelects(p, s[1..]);
      var shifted := Shift(rest);
      ShiftEmbeds(Filter(p, s[1..]), s, rest);
      if p(s[0]) {
        ConsEmbeds(Filter(p, s[1..]), s, shifted);
        idx := [0] + shifted;
      } else {
        idx := shifted;
      }
      ShiftMembers(rest);
      forall j | 0 <= j < |s|
        ensures j in idx <==> p(s[j])
      {
        if j == 0 {
          assert 0 !in shifted;
        } else {
          assert s[j] == s[1..][j - 1];
          assert j in idx <==> j in shifted;
        }
      }
    }
  }

  /** A non-empty sequence is its front followed by its last element. */
  lemma SplitLast<T>(s: seq<T>)
    requires s != []
    ensures s[..|s| - 1] + [s[|s| - 1]] == s
  {
  }

  /** The first `i` elements of the first `i + 1`, and the whole as its own prefix. */
  lemma Prefixes<T>(s: seq<T>, i: nat)
    requires i < |s|
    ensures s[..i + 1][..i] == s[..i]
    ensures s[..|s|] == s
  {
  }

  /** Nothing passes the filter when no element satisfies the predicate. */
  lemma {:induction false} FilterNone<T(!new)>(p: T -> bool, s: seq<T>)
    requires forall x :: x in s ==> !p(x)
    ensures Filter(p, s) == []
  {
    if s != [] {
      FilterNone(p, s[1..]);
    }
  }

  /** Filtering twice with the same predicate removes nothing the second time. */
  lemma {:induction false} FilterIdempotent<T(!new)>(p: T -> bool, s: seq<T>)
    ensures Filter(p, Filter(p, s)) == Filter(p, s)
  {
    if s != [] {
      FilterIdempotent(p, s[1..]);
    }
  }

  /** Filtering removes nothing exactly when every element satisfies `p`. */
  lemma {:induction false} FilterKeepsAll<T(!new)>(p: T -> bool, s: seq<T>)
    ensures |Filter(p, s)| == |s| <==> forall x :: x in s ==> p(x)
    ensures |Filter(p, s)| == |s| ==> Filter(p, s) == s
  {
    if s != [] {
      FilterKeepsAll(p, s[1..]);
      assert forall x :: x in s ==> x == s[0] || x in s[1..];
    }
  }

  predicate Distinct<T(==)>(s: seq<T>)
  {
    forall i, j :: 0 <= i < j < |s| ==> s[i] != s[j]
  }

  /** `[...new Set(s)]`: every value of `s` once, compared with `===`. */
  function Dedup<T(==,!new)>(s: seq<T>): (r: seq<T>)
    ensures forall x :: x in r <==> x in s
    ensures Distinct(r)
  {
    if s == [] then []
    else
      var r := Dedup(s[..|s| - 1]);
      if s[|s| - 1] in r then r else r + [s[|s| - 1]]
  }

  lemma SnocEmbeds<T>(r: seq<T>, s: seq<T>, idx: seq<int>)
    requires s != [] && Embeds(r, s[..|s| - 1], idx)
    ensures forall i :: 0 <= i < |idx| ==> idx[i] < |s| - 1
    ensures Embeds(r, s, idx)
    ensures Embeds(r + [s[|s| - 1]], s, idx + [|s| - 1])
  {
    var n := |s| - 1;
    forall i | 0 <= i < |idx|
      ensures r[i] == s[idx[i]]
    {
      assert s[..n][idx[i]] == s[idx[i]];
    }
    var r', idx' := r + [s[n]], idx + [n];
    forall i | 0 <= i < |idx'|
      ensures 0 <= idx'[i] < |s| && r'[i] == s[idx'[i]]
    {
      if i < |idx| {
        assert idx'[i] == idx[i] && r'[i] == r[i];
      }
    }
  }

  /** Filtering a sequence with one more element at its end. */
  lemma {:induction false} FilterSnoc<T(!new)>(p: T -> bool, s: seq<T>, x: T)
    ensures Filter(p, s + [x]) == Filter(p, s) + (if p(x) then [x] else [])
  {
    if s != [] {
      assert (s + [x])[1..] == s[1..] + [x];
      FilterSnoc(p, s[1..], x);
    }
  }

  /** A `Set` iterates in insertion order, so spreading the filtered values keeps exactly
      the first occurrence of each value that passes `p`, in the order those occurrences
      appear in `s`. */
  lemma {:induction false} DedupFilterKeepsFirstOccurrences<T(!new)>(p: T -> bool, s: seq<T>) returns (idx: seq<int>)
    ensures Embeds(Dedup(Filter(p, s)), s, idx)
    ensures forall j :: 0 <= j < |s| ==> (j in idx <==> p(s[j]) && s[j] !in s[..j])
  {
    if s == [] {
      idx := [];
    } else {
      var n := |s| - 1;
      var init, x := s[..n], s[n];
      assert s == init + [x];
      var rest := DedupFilterKeepsFirstOccurrences(p, init);
      var f := Filter(p, init);
      var r := Dedup(f);
      FilterSnoc(p, init, x);
      SnocEmbeds(r, s, rest);
      if p(x) {
        assert (f + [x])[..|f|] == f;
        assert Dedup(Filter(p, s)) == if x in r then r else r + [x];
        if x in r {
          idx := rest;
        } else {
          idx := rest + [n];
        }
      } else {
        assert Filter(p, s) == f;
        idx := rest;
      }
      assert p(x) ==> (x in init <==> x in r);
      forall j | 0 <= j < |s|
        ensures j in idx <==> p(s[j]) && s[j] !in s[..j]
      {
        if j < n {
          assert s[j] == init[j] && s[..j] == init[..j];
          assert j in idx <==> j in rest;
        }
      }
    }
  }
}
