/** The subscriber list as a value: subscribing appends, unsubscribing
    removes the first entry whose identifier matches. Generic in the entry
    type and in how an entry's identifier is read. */
module Registry {

  /** `xs` without its first entry whose identifier is `id`; `xs` itself
      when no entry has that identifier. */
  function RemoveFirst<T, K(==)>(xs: seq<T>, idOf: T -> K, id: K): (r: seq<T>)
    ensures |r| <= |xs| <= |r| + 1
    ensures multiset(r) <= multiset(xs)
  {
    if xs == [] then []
    else
      assert xs == [xs[0]] + xs[1..];
      if idOf(xs[0]) == id then xs[1..]
      else [xs[0]] + RemoveFirst(xs[1..], idOf, id)
  }

  /** With no matching entry, the list is unchanged. */
  lemma {:induction false} RemoveFirstAbsent<T, K>(xs: seq<T>, idOf: T -> K, id: K)
    requires forall i :: 0 <= i < |xs| ==> idOf(xs[i]) != id
    ensures RemoveFirst(xs, idOf, id) == xs
  {
    if xs != [] {
      RemoveFirstAbsent(xs[1..], idOf, id);
    }
  }

  /** With a first match at `j`, exactly that entry goes and the others keep
      their relative order. */
  lemma {:induction false} RemoveFirstSplice<T, K>(xs: seq<T>, idOf: T -> K, id: K, j: nat)
    requires j < |xs| && idOf(xs[j]) == id
    requires forall i :: 0 <= i < j ==> idOf(xs[i]) != id
    ensures RemoveFirst(xs, idOf, id) == xs[..j] + xs[j + 1..]
  {
    if j > 0 {
      RemoveFirstSplice(xs[1..], idOf, id, j - 1);
      assert xs[..j] == [xs[0]] + xs[1..][..j - 1];
      assert xs[j + 1..] == xs[1..][j..];
    }
  }

  /** Subscribing an entry whose identifier is not yet present and then
      unsubscribing it restores the list. */
  lemma RemoveAfterAppend<T, K>(xs: seq<T>, idOf: T -> K, x: T)
    requires forall i :: 0 <= i < |xs| ==> idOf(xs[i]) != idOf(x)
    ensures RemoveFirst(xs + [x], idOf, idOf(x)) == xs
  {
    var ys := xs + [x];
    RemoveFirstSplice(ys, idOf, idOf(x), |xs|);
    assert ys[..|xs|] == xs;
  }
}
