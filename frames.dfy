/** The handful of data-frame operations the scripts use, on sequences of rows:
    `.apply` (a loop over the rows), boolean indexing, `dropna`, `value_counts`,
    the `classes_` of a fitted label encoder and `np.hstack`-style pairing. */
module Frames {
  import opened Wrappers

  /** Row-wise image of a column. */
  function Map<A, B>(s: seq<A>, f: A -> B): seq<B> {
    seq(|s|, i requires 0 <= i < |s| => f(s[i]))
  }

  /** `series.apply(f)`: calls `f` on each row in order and collects the results. */
  method Apply<A, B>(s: seq<A>, f: A -> B) returns (r: seq<B>)
    ensures |r| == |s|
    ensures forall i :: 0 <= i < |s| ==> r[i] == f(s[i])
  {
    r := [];
    for i := 0 to |s|
      invariant |r| == i
      invariant forall k :: 0 <= k < i ==> r[k] == f(s[k])
    {
      r := r + [f(s[i])];
    }
  }

  /** The rows satisfying `p`, in their original order. */
  function Filter<A>(s: seq<A>, p: A -> bool): seq<A> {
    if s == [] then [] else (if p(s[0]) then [s[0]] else []) + Filter(s[1..], p)
  }

  /** Boolean indexing `df[mask]`: the rows whose mask entry is true, in order. */
  function Mask<A>(s: seq<A>, m: seq<bool>): (r: seq<A>)
    requires |m| == |s|
    ensures |r| == CountTrue(m)
  {
    if s == [] then [] else (if m[0] then [s[0]] else []) + Mask(s[1..], m[1..])
  }

  /** `dropna` on a single column: the present values, in order. */
  function DropNone<A>(s: seq<Option<A>>): seq<A> {
    if s == [] then [] else (if s[0].Some? then [s[0].value] else []) + DropNone(s[1..])
  }

  /** The mask `column.notna()`. */
  function PresentMask<A>(s: seq<Option<A>>): (m: seq<bool>)
    ensures |m| == |s|
  {
    seq(|s|, i requires 0 <= i < |s| => s[i].Some?)
  }

  /** `mask.sum()`. */
  function CountTrue(m: seq<bool>): nat {
    if m == [] then 0 else (if m[0] then 1 else 0) + CountTrue(m[1..])
  }

  function Count<T(==)>(s: seq<T>, x: T): nat {
    if s == [] then 0 else (if s[0] == x then 1 else 0) + Count(s[1..], x)
  }

  predicate NoDuplicates<T(==)>(s: seq<T>) {
    forall i, j :: 0 <= i < j < |s| ==> s[i] != s[j]
  }

  /** The distinct values of `s` in order of first occurrence. */
  function Distinct<T(==)>(s: seq<T>): (r: seq<T>)
    ensures forall i :: 0 <= i < |r| ==> r[i] in s
    ensures forall i :: 0 <= i < |s| ==> s[i] in r
    ensures NoDuplicates(r)
  {
    if s == [] then []
    else
      var init := s[..|s| - 1];
      var d := Distinct(init);
      assert s == init + [s[|s| - 1]];
      if s[|s| - 1] in d then d else d + [s[|s| - 1]]
  }

  /** Position of the first occurrence of `x` in `s`, or `|s|` when it is absent. */
  function IndexOf<T(==)>(s: seq<T>, x: T): (i: nat)
    ensures i <= |s|
    ensures i < |s| <==> x in s
    ensures i < |s| ==> s[i] == x
    ensures x !in s[..i]
  {
    if s == [] then 0
    else if s[0] == x then 0
    else
      var j := IndexOf(s[1..], x);
      assert s[..1 + j] == [s[0]] + s[1..][..j];
      1 + j
  }

  /** In a duplicate-free sequence every element is found at its own position. */
  lemma IndexOfNoDuplicates<T>(s: seq<T>, i: nat)
    requires NoDuplicates(s) && i < |s|
    ensures IndexOf(s, s[i]) == i
  {
  }

  // ---------------------------------------------------------------------------
  // Lemmas about selection

  /** Boolean indexing with a mask computed row by row from `p` (a helper
      column) selects exactly `Filter(s, p)`. */
  lemma {:induction false} MaskByPredicate<A>(s: seq<A>, m: seq<bool>, p: A -> bool)
    requires |m| == |s|
    requires forall i :: 0 <= i < |s| ==> m[i] == p(s[i])
    ensures Mask(s, m) == Filter(s, p)
  {
    if s != [] {
      MaskByPredicate(s[1..], m[1..], p);
    }
  }

  /** A row is selected by `Filter` exactly when it is a row satisfying `p`. */
  lemma {:induction false} FilterMembers<A>(s: seq<A>, p: A -> bool)
    ensures forall x :: x in Filter(s, p) <==> x in s && p(x)
  {
    if s != [] {
      FilterMembers(s[1..], p);
      assert s == [s[0]] + s[1..];
    }
  }

  lemma {:induction false} FilterLength<A>(s: seq<A>, p: A -> bool)
    ensures |Filter(s, p)| <= |s|
  {
    if s != [] {
      FilterLength(s[1..], p);
    }
  }

  /** Selecting with `p` and then with `q` is selecting with their conjunction. */
  lemma {:induction false} FilterFilter<A>(s: seq<A>, p: A -> bool, q: A -> bool, pq: A -> bool)
    requires forall x :: pq(x) == (p(x) && q(x))
    ensures Filter(Filter(s, p), q) == Filter(s, pq)
  {
    if s != [] {
      FilterFilter(s[1..], p, q, pq);
      FilterAppend([s[0]], s[1..], p);
      var head := if p(s[0]) then [s[0]] else [];
      FilterAppend(head, Filter(s[1..], p), q);
    }
  }

  lemma {:induction false} FilterAppend<A>(a: seq<A>, b: seq<A>, p: A -> bool)
    ensures Filter(a + b, p) == Filter(a, p) + Filter(b, p)
  {
    if a != [] {
      var head := if p(a[0]) then [a[0]] else [];
      calc {
        Filter(a + b, p);
        { assert (a + b)[0] == a[0] && (a + b)[1..] == a[1..] + b; }
        head + Filter(a[1..] + b, p);
        { FilterAppend(a[1..], b, p); }
        head + (Filter(a[1..], p) + Filter(b, p));
      }
    } else {
      assert a + b == b;
    }
  }

  /** Filtering twice with the same predicate removes nothing more. */
  lemma {:induction false} FilterIdempotent<A>(s: seq<A>, p: A -> bool)
    ensures Filter(Filter(s, p), p) == Filter(s, p)
  {
    if s != [] {
      FilterIdempotent(s[1..], p);
      var head := if p(s[0]) then [s[0]] else [];
      FilterAppend(head, Filter(s[1..], p), p);
    }
  }

  /** The rows kept with the negated mask plus the rows counted by the mask
      make up the whole frame. */
  lemma {:induction false} MaskComplementCount<A>(s: seq<A>, m: seq<bool>, keep: seq<bool>)
    requires |m| == |s| && |keep| == |s|
    requires forall i :: 0 <= i < |s| ==> keep[i] == !m[i]
    ensures |Mask(s, keep)| + CountTrue(m) == |s|
  {
    if s != [] {
      MaskComplementCount(s[1..], m[1..], keep[1..]);
    }
  }

  /** Summing a mask computed row by row from `p` counts the rows `Filter`
      selects. */
  lemma {:induction false} CountTrueByPredicate<A>(s: seq<A>, m: seq<bool>, p: A -> bool)
    requires |m| == |s|
    requires forall i :: 0 <= i < |s| ==> m[i] == p(s[i])
    ensures CountTrue(m) == |Filter(s, p)|
  {
    if s != [] {
      CountTrueByPredicate(s[1..], m[1..], p);
    }
  }

  /** Every row kept by a mask is a row of the frame. */
  lemma {:induction false} MaskMembers<A>(s: seq<A>, m: seq<bool>)
    requires |m| == |s|
    ensures forall x :: x in Mask(s, m) ==> x in s
  {
    if s != [] {
      MaskMembers(s[1..], m[1..]);
    }
  }

  /** Selecting rows and then computing a column gives the column of the
      selected rows: masking commutes with `.apply`. */
  lemma {:induction false} MaskMap<A, B>(s: seq<A>, f: A -> B, m: seq<bool>)
    requires |m| == |s|
    ensures Mask(Map(s, f), m) == Map(Mask(s, m), f)
  {
    if s != [] {
      MaskMap(s[1..], f, m[1..]);
      assert Map(s, f)[1..] == Map(s[1..], f);
      var head := if m[0] then [s[0]] else [];
      MapAppend(head, Mask(s[1..], m[1..]), f);
    }
  }

  lemma MapAppend<A, B>(a: seq<A>, b: seq<A>, f: A -> B)
    ensures Map(a + b, f) == Map(a, f) + Map(b, f)
  {
  }

  /** A value survives `dropna` exactly when it is present in the column. */
  lemma {:induction false} DropNoneMembers<A>(s: seq<Option<A>>)
    ensures forall x :: x in DropNone(s) <==> Some(x) in s
  {
    if s != [] {
      DropNoneMembers(s[1..]);
      assert s == [s[0]] + s[1..];
    }
  }

  // ---------------------------------------------------------------------------
  // Alignment of two selections made by the same mask

  /** The pairs `(x[i], t[i])` for the rows where `t[i]` is present, in order. */
  function Selected<A, B>(x: seq<A>, t: seq<Option<B>>): seq<(A, B)>
    requires |x| == |t|
  {
    if x == [] then []
    else (if t[0].Some? then [(x[0], t[0].value)] else []) + Selected(x[1..], t[1..])
  }

  function Firsts<A, B>(s: seq<(A, B)>): seq<A> {
    if s == [] then [] else [s[0].0] + Firsts(s[1..])
  }

  function Seconds<A, B>(s: seq<(A, B)>): seq<B> {
    if s == [] then [] else [s[0].1] + Seconds(s[1..])
  }

  /** Masking the rows of `x` with `t.notna()` and dropping the missing values
      of `t` give the two halves of the same list of pairs: the selected rows
      and their labels have equal length and stay aligned row by row. */
  lemma {:induction false} MaskAndDropAligned<A, B>(x: seq<A>, t: seq<Option<B>>)
    requires |x| == |t|
    ensures Mask(x, PresentMask(t)) == Firsts(Selected(x, t))
    ensures DropNone(t) == Seconds(Selected(x, t))
    ensures |Mask(x, PresentMask(t))| == |DropNone(t)|
  {
    if x != [] {
      MaskAndDropAligned(x[1..], t[1..]);
      assert PresentMask(t)[1..] == PresentMask(t[1..]);
      var head: seq<(A, B)> := if t[0].Some? then [(x[0], t[0].value)] else [];
      FirstsSecondsAppend(head, Selected(x[1..], t[1..]));
    }
    FirstsSecondsLength(Selected(x, t));
  }

  lemma {:induction false} FirstsSecondsAppend<A, B>(a: seq<(A, B)>, b: seq<(A, B)>)
    ensures Firsts(a + b) == Firsts(a) + Firsts(b)
    ensures Seconds(a + b) == Seconds(a) + Seconds(b)
  {
    if a != [] {
      FirstsSecondsAppend(a[1..], b);
      assert (a + b)[0] == a[0] && (a + b)[1..] == a[1..] + b;
      assert Firsts(a + b) == [a[0].0] + Firsts(a[1..] + b);
      assert Seconds(a + b) == [a[0].1] + Seconds(a[1..] + b);
    } else {
      assert a + b == b;
    }
  }

  lemma {:induction false} FirstsSecondsLength<A, B>(s: seq<(A, B)>)
    ensures |Firsts(s)| == |s| == |Seconds(s)|
  {
    if s != [] {
      FirstsSecondsLength(s[1..]);
    }
  }

  /** Every selected pair is the row and the present label of one position. */
  lemma {:induction false} SelectedPairs<A, B>(x: seq<A>, t: seq<Option<B>>)
    requires |x| == |t|
    ensures forall p :: p in Selected(x, t) ==> exists i :: 0 <= i < |x| && x[i] == p.0 && t[i] == Some(p.1)
  {
    if x != [] {
      SelectedPairs(x[1..], t[1..]);
      forall p | p in Selected(x, t)
        ensures exists i :: 0 <= i < |x| && x[i] == p.0 && t[i] == Some(p.1)
      {
        if p !in Selected(x[1..], t[1..]) {
          assert x[0] == p.0 && t[0] == Some(p.1);
        } else {
          var i :| 0 <= i < |x[1..]| && x[1..][i] == p.0 && t[1..][i] == Some(p.1);
          assert x[i + 1] == p.0 && t[i + 1] == Some(p.1);
        }
      }
    }
  }

  /** The halves of a list of pairs, read position by position. */
  lemma {:induction false} FirstsSecondsIndex<A, B>(s: seq<(A, B)>)
    ensures |Firsts(s)| == |s| == |Seconds(s)|
    ensures forall k :: 0 <= k < |s| ==> Firsts(s)[k] == s[k].0 && Seconds(s)[k] == s[k].1
  {
    if s != [] {
      FirstsSecondsIndex(s[1..]);
    }
  }
}
