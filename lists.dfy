/** The `List<T>` operations and facts the entity collections rely on. */
module Lists {

  /** No object is held twice: each entity is owned by exactly one slot. */
  ghost predicate Distinct<T>(s: seq<T>) {
    forall i, j :: 0 <= i < j < |s| ==> s[i] != s[j]
  }

  /** `List.RemoveAt(i)`: the elements after `i` shift down by one. */
  function RemoveAt<T>(s: seq<T>, i: int): (r: seq<T>)
    requires 0 <= i < |s|
    ensures |r| == |s| - 1
    ensures forall j :: 0 <= j < i ==> r[j] == s[j]
    ensures forall j :: i <= j < |r| ==> r[j] == s[j + 1]
  {
    s[..i] + s[i + 1..]
  }

  /** Slot `i` of a reverse-index pass over `s`: the list holds `s` up to
      `i`, then what the pass has made of the rest; replacing slot `i` and
      removing it give the two lists the next step needs. */
  lemma Slot<T>(s: seq<T>, i: int, rest: seq<T>, y: T)
    requires 0 <= i < |s|
    ensures (s[..i + 1] + rest)[i] == s[i]
    ensures (s[..i + 1] + rest)[i := y] == s[..i] + ([y] + rest)
    ensures RemoveAt(s[..i + 1] + rest, i) == s[..i] + rest
  {
    assert s[..i + 1] == s[..i] + [s[i]];
  }

  lemma DistinctAppend<T>(s: seq<T>, x: T)
    requires Distinct(s) && x !in s
    ensures Distinct(s + [x])
  {
  }

  /** The flag `keep` gives each element of a list, in order. */
  function Flags<T>(xs: seq<T>, keep: T -> bool): (f: seq<bool>)
    ensures |f| == |xs| && forall j :: 0 <= j < |xs| ==> f[j] == keep(xs[j])
  {
    seq(|xs|, j requires 0 <= j < |xs| => keep(xs[j]))
  }

  /** `Count(e => e.IsAlive)` over the flags of a list. */
  function CountTrue(f: seq<bool>): (n: nat)
    ensures n <= |f|
    decreases |f|
  {
    if f == [] then 0 else (if f[0] then 1 else 0) + CountTrue(f[1..])
  }

  /** Every element is counted exactly when every flag is set. */
  lemma {:induction false} CountTrueAll(f: seq<bool>)
    ensures CountTrue(f) == |f| <==> forall j :: 0 <= j < |f| ==> f[j]
    decreases |f|
  {
    if f != [] {
      CountTrueAll(f[1..]);
      if forall j :: 0 <= j < |f| ==> f[j] {
        assert forall j :: 0 <= j < |f[1..]| ==> f[1..][j] by {
          forall j | 0 <= j < |f[1..]| ensures f[1..][j] { assert f[j + 1]; }
        }
      } else if f[0] {
        var j :| 0 <= j < |f| && !f[j];
        assert !f[1..][j - 1];
      }
    }
  }

  /** Clearing one set flag lowers the count by exactly one. */
  lemma {:induction false} CountTrueClear(f: seq<bool>, k: int)
    requires 0 <= k < |f| && f[k]
    ensures CountTrue(f[k := false]) == CountTrue(f) - 1
    decreases |f|
  {
    if k > 0 {
      assert f[k := false][1..] == f[1..][k - 1 := false];
      CountTrueClear(f[1..], k - 1);
    } else {
      assert f[k := false][1..] == f[1..];
    }
  }
}
