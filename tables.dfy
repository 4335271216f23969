/** Queries over a table kept as a map from primary key to row. */
module Tables {
  import opened Base

  /** The rows whose keys lie in `[lo, hi)`, in key order (a full-table scan when the range
      covers every key). */
  function Rows<T>(m: map<int, T>, lo: int, hi: int): (r: seq<T>)
    decreases hi - lo
    ensures forall k :: lo <= k < hi && k in m ==> m[k] in r
    ensures forall x :: x in r ==> exists k :: lo <= k < hi && k in m && m[k] == x
    ensures |r| == |set k | lo <= k < hi && k in m|
  {
    if lo >= hi then
      assert (set k | lo <= k < hi && k in m) == {};
      []
    else
      assert (set k | lo <= k < hi && k in m)
          == (if lo in m then {lo} else {}) + (set k | lo + 1 <= k < hi && k in m);
      (if lo in m then [m[lo]] else []) + Rows(m, lo + 1, hi)
  }

  /** `findOne({ where })`: the smallest key in `[lo, hi)` whose row satisfies `p`, if any. */
  function FindKey<T>(m: map<int, T>, lo: int, hi: int, p: T -> bool): (r: Option<int>)
    decreases hi - lo
    ensures r.Some? ==> lo <= r.value < hi && r.value in m && p(m[r.value])
    ensures r.None? ==> forall k :: lo <= k < hi && k in m ==> !p(m[k])
  {
    if lo >= hi then None
    else if lo in m && p(m[lo]) then Some(lo)
    else FindKey(m, lo + 1, hi, p)
  }
}
