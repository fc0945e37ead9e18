/**
 * Order-preserving selection from a sequence: the meaning of JavaScript's
 * `Array.prototype.filter`, which the shopping list uses both to delete
 * items and to compute the searched view.
 */
module Sequences {

  /** The elements of `s` that satisfy `p`, in the order they have in `s`. */
  function Filter<T>(s: seq<T>, p: T -> bool): (r: seq<T>)
    ensures |r| <= |s|
    ensures forall i :: 0 <= i < |r| ==> r[i] in s && p(r[i])
    ensures forall j :: 0 <= j < |s| && p(s[j]) ==> s[j] in r
  {
    if s == [] then []
    else if p(s[0]) then [s[0]] + Filter(s[1..], p)
    else Filter(s[1..], p)
  }

  /**
   * `idx` lists, in strictly increasing order, positions of `s` whose
   * elements spell out `r`: `r` is an order-preserving subsequence of `s`.
   */
  ghost predicate Embeds<T>(r: seq<T>, s: seq<T>, idx: seq<int>)
  {
    && |idx| == |r|
    && (forall i :: 0 <= i < |idx| ==> 0 <= idx[i] < |s| && r[i] == s[idx[i]])
    && (forall i, j :: 0 <= i < j < |idx| ==> idx[i] < idx[j])
  }

  /** Positions in `s` become positions in `[x] + s`, one further along. */
  lemma ShiftPositions<T>(x: T, r: seq<T>, s: seq<T>, idx: seq<int>) returns (shifted: seq<int>)
    requires Embeds(r, s, idx)
    ensures Embeds(r, [x] + s, shifted)
    ensures forall i :: 0 <= i < |shifted| ==> shifted[i] > 0
    ensures forall j :: 0 <= j < |s| ==> (j in idx <==> j + 1 in shifted)
  {
    shifted := seq(|idx|, i requires 0 <= i < |idx| => idx[i] + 1);
    forall i | 0 <= i < |shifted| ensures ([x] + s)[shifted[i]] == s[idx[i]] { }
    forall j | 0 <= j < |s| ensures j in idx <==> j + 1 in shifted {
      if j in idx {
        var i :| 0 <= i < |idx| && idx[i] == j;
        assert shifted[i] == j + 1;
      }
    }
  }

  /** Keeping the head of a sequence extends an embedding of the tail. */
  lemma KeepHead<T>(x: T, r: seq<T>, s: seq<T>, shifted: seq<int>)
    requires Embeds(r, [x] + s, shifted)
    requires forall i :: 0 <= i < |shifted| ==> shifted[i] > 0
    ensures Embeds([x] + r, [x] + s, [0] + shifted)
  {
    var r', idx := [x] + r, [0] + shifted;
    forall i | 0 < i < |idx| ensures r'[i] == ([x] + s)[idx[i]] {
      assert r'[i] == r[i - 1] && idx[i] == shifted[i - 1];
    }
  }

  /**
   * Filter keeps exactly the positions whose element satisfies `p`, and keeps
   * them in order. Together the two ensures determine `Filter(s, p)` uniquely.
   */
  lemma {:induction false} FilterSelects<T>(s: seq<T>, p: T -> bool) returns (idx: seq<int>)
    ensures Embeds(Filter(s, p), s, idx)
    ensures forall j :: 0 <= j < |s| ==> (j in idx <==> p(s[j]))
  {
    if s == [] {
      idx := [];
    } else {
      var x, tail := s[0], s[1..];
      var rest := FilterSelects(tail, p);
      assert s == [x] + tail;
      var shifted := ShiftPositions(x, Filter(tail, p), tail, rest);
      if p(x) {
        KeepHead(x, Filter(tail, p), tail, shifted);
        idx := [0] + shifted;
      } else {
        idx := shifted;
      }
      forall j | 0 < j < |s| ensures j in idx <==> p(s[j]) {
        assert s[j] == tail[j - 1];
        assert j - 1 in rest <==> j in shifted;
      }
    }
  }

  /** When every element satisfies `p`, filtering changes nothing. */
  lemma {:induction false} FilterKeepsAll<T>(s: seq<T>, p: T -> bool)
    requires forall i :: 0 <= i < |s| ==> p(s[i])
    ensures Filter(s, p) == s
  {
    if s != [] {
      FilterKeepsAll(s[1..], p);
      assert [s[0]] + s[1..] == s;
    }
  }

  /** Filtering by two predicates that agree everywhere gives the same result. */
  lemma {:induction false} FilterAgree<T>(s: seq<T>, p: T -> bool, q: T -> bool)
    requires forall i :: 0 <= i < |s| ==> p(s[i]) == q(s[i])
    ensures Filter(s, p) == Filter(s, q)
  {
    if s != [] {
      FilterAgree(s[1..], p, q);
    }
  }
}
