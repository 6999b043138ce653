/**
 The append-only symbol list and its slices. `core::Symbols` is not part of the repository;
 `NumSlices` and `Slice` are the contract that its callers rely on.
 */
module Symbols {
  type Symbol = string

  /** Number of slices of at most `k` symbols that `n` symbols need. */
  function NumSlices(n: nat, k: nat): nat
    requires k > 0
  {
    (n + k - 1) / k
  }

  /** Slice `i`, restricted to positions of the list at or after `from`. */
  function Slice(list: seq<Symbol>, k: nat, i: nat, from: nat): seq<Symbol> {
    Window(list, i * k, k, from)
  }

  /** At most `k` symbols starting at position `start`, those before `from` left out. */
  function Window(list: seq<Symbol>, start: nat, k: nat, from: nat): seq<Symbol> {
    var lo := if start < from then from else start;
    var hi := if start + k < |list| then start + k else |list|;
    if lo < hi then list[lo..hi] else []
  }

  predicate NoDuplicates(list: seq<Symbol>) {
    forall i, j :: 0 <= i < j < |list| ==> list[i] != list[j]
  }

  /** The first `n` slices in order. */
  function Concatenated(list: seq<Symbol>, k: nat, n: nat): seq<Symbol> {
    if n == 0 then [] else Concatenated(list, k, n - 1) + Slice(list, k, n - 1, 0)
  }

  lemma {:induction false} ConcatenatedIsPrefix(list: seq<Symbol>, k: nat, n: nat)
    ensures Concatenated(list, k, n) == list[..if n * k < |list| then n * k else |list|]
  {
    if n > 0 {
      ConcatenatedIsPrefix(list, k, n - 1);
      assert n * k == (n - 1) * k + k;
    }
  }

  lemma EnoughSlices(n: nat, k: nat)
    requires k > 0
    ensures n <= NumSlices(n, k) * k < n + k
  {
  }

  /** The slices partition the list. */
  lemma SlicesPartition(list: seq<Symbol>, k: nat)
    requires k > 0
    ensures Concatenated(list, k, NumSlices(|list|, k)) == list
  {
    ConcatenatedIsPrefix(list, k, NumSlices(|list|, k));
    EnoughSlices(|list|, k);
  }

  lemma WindowExtends(list: seq<Symbol>, xs: seq<Symbol>, start: nat, k: nat)
    ensures Window(list + xs, start, k, 0) == Window(list, start, k, 0) + Window(list + xs, start, k, |list|)
  {
    var all := list + xs;
    var hi := if start + k < |all| then start + k else |all|;
    if start < |list| && |list| < hi {
      assert all[start..hi] == all[start..|list|] + all[|list|..hi];
      assert all[start..|list|] == list[start..|list|];
    } else if hi <= |list| && start < hi {
      assert all[start..hi] == list[start..hi];
    }
  }

  /** Appending extends each slice by exactly its part of the new suffix. */
  lemma SliceExtends(list: seq<Symbol>, xs: seq<Symbol>, k: nat, i: nat)
    ensures Slice(list + xs, k, i, 0) == Slice(list, k, i, 0) + Slice(list + xs, k, i, |list|)
  {
    WindowExtends(list, xs, i * k, k);
  }

  lemma TimesMonotone(a: nat, b: nat, k: nat)
    requires a <= b
    ensures a * k <= b * k && (a + 1) * k == a * k + k
  {
  }

  lemma SlicesGrow(n: nat, m: nat, k: nat)
    requires k > 0 && n <= m
    ensures NumSlices(n, k) <= NumSlices(m, k)
  {
    var a, b := NumSlices(n, k), NumSlices(m, k);
    EnoughSlices(n, k);
    EnoughSlices(m, k);
    TimesMonotone(b, b, k);
    if b < a {
      TimesMonotone(b + 1, a, k);
    }
  }

  lemma SliceLength(list: seq<Symbol>, k: nat, i: nat, from: nat)
    ensures |Slice(list, k, i, from)| <= k
  {
  }

  // --- new symbols ---

  /** The items that are not yet known, once each, in order of first appearance. */
  function NewSymbols(known: set<Symbol>, items: seq<Symbol>): seq<Symbol> {
    if items == [] then []
    else
      var xs := NewSymbols(known, items[..|items| - 1]);
      var last := items[|items| - 1];
      if last in known || last in xs then xs else xs + [last]
  }

  function SetOf(items: seq<Symbol>): set<Symbol> {
    set s | s in items
  }

  lemma {:induction false} NewSymbolsAreNew(known: set<Symbol>, items: seq<Symbol>)
    ensures forall s: Symbol :: s in NewSymbols(known, items) <==> s in items && s !in known
  {
    if items != [] {
      var init, last := items[..|items| - 1], items[|items| - 1];
      NewSymbolsAreNew(known, init);
      assert items == init + [last];
    }
  }

  /** Appending them keeps the list free of duplicates and in step with the set. */
  lemma {:induction false} NewSymbolsKeepList(list: seq<Symbol>, items: seq<Symbol>)
    requires NoDuplicates(list)
    ensures NoDuplicates(list + NewSymbols(SetOf(list), items))
    ensures SetOf(list + NewSymbols(SetOf(list), items)) == SetOf(list) + SetOf(items)
  {
    if items == [] {
      assert list + [] == list;
    } else {
      var init, last := items[..|items| - 1], items[|items| - 1];
      NewSymbolsKeepList(list, init);
      var xs := NewSymbols(SetOf(list), init);
      assert items == init + [last];
      assert SetOf(items) == SetOf(init) + {last};
      assert forall s :: s in list + xs <==> s in list || s in xs;
      assert list + (xs + [last]) == (list + xs) + [last];
      assert SetOf((list + xs) + [last]) == SetOf(list + xs) + {last};
      if last in SetOf(list) || last in xs {
        assert last in SetOf(list + xs);
        assert SetOf(list) + SetOf(items) == SetOf(list + xs);
      }
    }
  }
}
