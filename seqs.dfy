/** The two pure list operations the handlers use: `Array.prototype.find`
    (by id) and `Array.prototype.filter`. */
module Seqs {
  import opened Wrappers

  /** The index of the first element whose key is `id`, as `find` returns the
      first match; `None` when no element matches. */
  function FindFirst<T>(s: seq<T>, key: T -> string, id: string): (r: Option<nat>)
    ensures r.Some? ==> r.value < |s| && key(s[r.value]) == id
    ensures r.Some? ==> forall j :: 0 <= j < r.value ==> key(s[j]) != id
    ensures r.None? <==> forall j :: 0 <= j < |s| ==> key(s[j]) != id
    decreases |s|
  {
    if |s| == 0 then None
    else if key(s[0]) == id then Some(0)
    else match FindFirst(s[1..], key, id)
      case None => None
      case Some(k) => Some(k + 1)
  }

  /** The elements of `s` that satisfy `keep`, in their original order. */
  function Filter<T>(s: seq<T>, keep: T -> bool): (r: seq<T>)
    ensures |r| <= |s|
    ensures forall k :: 0 <= k < |r| ==> r[k] in s && keep(r[k])
    ensures forall k :: 0 <= k < |s| && keep(s[k]) ==> s[k] in r
    decreases |s|
  {
    if |s| == 0 then []
    else (if keep(s[0]) then [s[0]] else []) + Filter(s[1..], keep)
  }

  /** Filtering keeps each passing element exactly as often as the input has
      it, and no failing one: the result is the input's passing part, counted. */
  lemma {:induction false} FilterCounts<T>(s: seq<T>, keep: T -> bool)
    ensures forall x :: multiset(Filter(s, keep))[x] == if keep(x) then multiset(s)[x] else 0
    decreases |s|
  {
    if |s| > 0 {
      FilterCounts(s[1..], keep);
      assert s == [s[0]] + s[1..];
    }
  }

  /** `find` looks only at keys: two lists with the same keys position by
      position give the same answer, whatever else differs. */
  lemma FindFirstSameKeys<T>(s: seq<T>, t: seq<T>, key: T -> string, id: string)
    requires |s| == |t|
    requires forall k :: 0 <= k < |s| ==> key(s[k]) == key(t[k])
    ensures FindFirst(s, key, id) == FindFirst(t, key, id)
  {
  }

  /** Filtering distributes over concatenation. */
  lemma {:induction false} FilterConcat<T>(a: seq<T>, b: seq<T>, keep: T -> bool)
    ensures Filter(a + b, keep) == Filter(a, keep) + Filter(b, keep)
    decreases |a|
  {
    if |a| == 0 {
      assert a + b == b;
    } else {
      assert (a + b)[0] == a[0];
      assert (a + b)[1..] == a[1..] + b;
      FilterConcat(a[1..], b, keep);
    }
  }

  /** When every element passes, filtering returns the list itself. */
  lemma {:induction false} FilterKeepsAll<T>(s: seq<T>, keep: T -> bool)
    requires forall k :: 0 <= k < |s| ==> keep(s[k])
    ensures Filter(s, keep) == s
    decreases |s|
  {
    if |s| > 0 {
      FilterKeepsAll(s[1..], keep);
    }
  }

  /** Order is kept: an element that passes lands right after the elements
      kept from before it. */
  lemma FilterPlacement<T>(s: seq<T>, keep: T -> bool, k: nat)
    requires k < |s| && keep(s[k])
    ensures |Filter(s[..k], keep)| < |Filter(s, keep)|
    ensures Filter(s, keep)[|Filter(s[..k], keep)|] == s[k]
  {
    assert s == s[..k] + ([s[k]] + s[k + 1..]);
    FilterConcat(s[..k], [s[k]] + s[k + 1..], keep);
    FilterConcat([s[k]], s[k + 1..], keep);
    assert Filter([s[k]], keep) == [s[k]] by {
      assert [s[k]][1..] == [];
    }
  }
}
