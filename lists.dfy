/** Sequence helpers shared by the screens and the bulk controls: the
    `Array.prototype.filter` the components apply to the project list. */
module Lists {

  /** `s.filter(f)`: the elements of `s` that satisfy `f`, in their order. */
  function Filter<T>(s: seq<T>, f: T -> bool): (r: seq<T>)
    ensures |r| <= |s|
  {
    if |s| == 0 then []
    else Filter(s[..|s| - 1], f) + (if f(s[|s| - 1]) then [s[|s| - 1]] else [])
  }

  /** Filtering one more element of a prefix appends it when it matches. */
  lemma FilterSnoc<T>(s: seq<T>, f: T -> bool, i: nat)
    requires i < |s|
    ensures Filter(s[..i + 1], f) == Filter(s[..i], f) + (if f(s[i]) then [s[i]] else [])
  {
    assert s[..i + 1][..i] == s[..i];
  }

  /** The positions of `s` whose element satisfies `f`. */
  ghost function IndexesWhere<T>(s: seq<T>, f: T -> bool): set<int>
  {
    set i | 0 <= i < |s| && f(s[i])
  }

  /** Filtering distributes over concatenation. */
  lemma {:induction false} FilterAppend<T>(s: seq<T>, t: seq<T>, f: T -> bool)
    ensures Filter(s + t, f) == Filter(s, f) + Filter(t, f)
    decreases |t|
  {
    if |t| == 0 {
      assert s + t == s;
    } else {
      var t' := t[..|t| - 1];
      assert (s + t)[..|s + t| - 1] == s + t';
      FilterAppend(s, t', f);
    }
  }

  /** Extending `s` by one element adds that element's position when it matches. */
  lemma IndexesWhereSnoc<T>(s: seq<T>, f: T -> bool)
    requires |s| > 0
    ensures var n := |s| - 1;
      IndexesWhere(s, f) == IndexesWhere(s[..n], f) + (if f(s[n]) then {n} else {})
  {
    var n := |s| - 1;
    forall i | 0 <= i < n ensures s[i] == s[..n][i] { }
  }

  /** The length of the filtered sequence is the number of positions whose
      element satisfies `f`: the filter neither drops nor duplicates a match. */
  lemma {:induction false} FilterCountsIndexes<T>(s: seq<T>, f: T -> bool)
    ensures |Filter(s, f)| == |IndexesWhere(s, f)|
    decreases |s|
  {
    if |s| == 0 {
      assert IndexesWhere(s, f) == {};
    } else {
      var n := |s| - 1;
      FilterCountsIndexes(s[..n], f);
      IndexesWhereSnoc(s, f);
      assert n !in IndexesWhere(s[..n], f);
    }
  }

  /** The filtered sequence holds exactly the elements of `s` that satisfy `f`. */
  lemma {:induction false} FilterMembers<T>(s: seq<T>, f: T -> bool)
    ensures forall x :: x in Filter(s, f) <==> x in s && f(x)
    decreases |s|
  {
    if |s| > 0 {
      var n := |s| - 1;
      FilterMembers(s[..n], f);
      assert s == s[..n] + [s[n]];
    }
  }
}
