/** A TLE listing is read three lines at a time by `for i in range(0, len(lines), 3)`:
    a name line and the two element lines. Triple `k` starts at line `3 * k` and the
    objects built from it get `id = i // 3 = k`. This module holds the grouping shared
    by the backend's loaders and the slice `[:n]` they end with. */
module Triples {
  import opened Wrappers

  /** `len(range(0, n, 3))`. */
  function TripleCount(n: nat): nat
  {
    (n + 2) / 3
  }

  /** Triple `k` is one the loop visits exactly when its first line exists. */
  lemma TripleCountSpec(n: nat, k: nat)
    ensures k < TripleCount(n) <==> 3 * k < n
  {
  }

  /** A loop over `range(0, n, 3)` stops after `k` turns when `3 * k` first reaches `n`. */
  lemma TripleCountAt(n: nat, k: nat)
    requires n <= 3 * k < n + 3
    ensures TripleCount(n) == k
  {
  }

  /** Triple `k` has all three lines, so none of `lines[i]`, `lines[i + 1]`,
      `lines[i + 2]` raises `IndexError`. */
  predicate Complete<T>(lines: seq<T>, k: nat)
  {
    3 * k + 2 < |lines|
  }

  /** The records a loop over triples `0 .. n - 1` appends, in order: `f(k)` is what the
      `try` block for triple `k` produces, `None` where it raised and was skipped. */
  function Gather<R>(f: nat -> Option<R>, n: nat): (rs: seq<R>)
    ensures |rs| <= n
  {
    if n == 0 then []
    else Gather(f, n - 1) + (if f(n - 1).Some? then [f(n - 1).value] else [])
  }

  /** When every record carries the index of its triple, the gathered records have strictly
      increasing ids, each is the record of the triple its id names (so a triple that was
      skipped never lends its id to another), and no successful triple is lost. */
  lemma {:induction false} GatherTagged<R>(f: nat -> Option<R>, id: R -> nat, n: nat)
    requires forall k :: f(k).Some? ==> id(f(k).value) == k
    ensures forall a, b :: 0 <= a < b < |Gather(f, n)| ==> id(Gather(f, n)[a]) < id(Gather(f, n)[b])
    ensures forall r :: r in Gather(f, n) ==> id(r) < n && f(id(r)) == Some(r)
    ensures forall k :: 0 <= k < n && f(k).Some? ==> f(k).value in Gather(f, n)
  {
    if n > 0 {
      GatherTagged(f, id, n - 1);
      var prev := Gather(f, n - 1);
      var rs := Gather(f, n);
      assert rs == prev + (if f(n - 1).Some? then [f(n - 1).value] else []);
      forall a, b | 0 <= a < b < |rs| ensures id(rs[a]) < id(rs[b]) {
        if b >= |prev| {
          assert rs[b] == f(n - 1).value;
          assert rs[a] == prev[a] && rs[a] in prev;
        } else {
          assert rs[a] == prev[a] && rs[b] == prev[b];
        }
      }
      forall r | r in rs ensures id(r) < n && f(id(r)) == Some(r) {
        if r !in prev { assert r == f(n - 1).value; }
      }
    }
  }

  /** A loop whose every `try` block raised appends nothing. */
  lemma {:induction false} GatherNothing<R>(f: nat -> Option<R>, n: nat)
    requires forall k :: f(k) == None
    ensures Gather(f, n) == []
  {
    if n > 0 { GatherNothing(f, n - 1); }
  }

  /** `s[:n]`. */
  function Prefix<T>(s: seq<T>, n: nat): (r: seq<T>)
    ensures |r| == if |s| <= n then |s| else n
    ensures r == s[..|r|]
  {
    if |s| <= n then s else s[..n]
  }
}
