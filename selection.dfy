/**
 * Every shuffled-session quiz starts with
 *   const shuffled = [...pool].sort(() => Math.random() - 0.5);
 *   const selected = shuffled.slice(0, length);
 * The comparator shuffle is taken as an arbitrary reordering of the pool,
 * given by the caller as a permutation of the pool's positions; this module
 * states what the slice then yields.
 */
module Selection {

  /** No element occurs twice. */
  predicate Distinct<T(==)>(s: seq<T>)
  {
    forall i, j | 0 <= i < j < |s| :: s[i] != s[j]
  }

  function Min(a: nat, b: nat): nat
  {
    if a <= b then a else b
  }

  /** `order` lists each position below `n` exactly once. */
  predicate IsPermutation(order: seq<nat>, n: nat)
  {
    |order| == n && Distinct(order) && forall k | 0 <= k < n :: order[k] < n
  }

  /** The pool rearranged so that its `order[k]`-th item comes `k`-th. */
  function Permute<T>(pool: seq<T>, order: seq<nat>): (shuffled: seq<T>)
    requires IsPermutation(order, |pool|)
    ensures |shuffled| == |pool|
    ensures forall k | 0 <= k < |pool| :: shuffled[k] == pool[order[k]]
  {
    seq(|pool|, k requires 0 <= k < |pool| => pool[order[k]])
  }

  /** `shuffled.slice(0, length)`: the first `length` elements, or all of them when fewer. */
  function Take<T>(shuffled: seq<T>, length: nat): (selected: seq<T>)
    ensures |selected| == Min(length, |shuffled|)
    ensures forall k | 0 <= k < |selected| :: selected[k] == shuffled[k]
  {
    if length <= |shuffled| then shuffled[..length] else shuffled
  }

  /**
   * Starting a session with `length` rounds selects `min(length, |pool|)`
   * items, the `k`-th being the pool item at position `order[k]`: no position
   * is used twice, so a pool without repeats gives a selection without repeats.
   */
  lemma SelectionFromPool<T>(pool: seq<T>, order: seq<nat>, length: nat)
    requires IsPermutation(order, |pool|)
    ensures |Take(Permute(pool, order), length)| == Min(length, |pool|)
    ensures forall k | 0 <= k < Min(length, |pool|) ::
              Take(Permute(pool, order), length)[k] == pool[order[k]]
    ensures forall x | x in Take(Permute(pool, order), length) :: x in pool
    ensures Distinct(pool) ==> Distinct(Take(Permute(pool, order), length))
  {
    var selected := Take(Permute(pool, order), length);
    forall x | x in selected ensures x in pool {
      var k :| 0 <= k < |selected| && selected[k] == x;
      assert x == pool[order[k]];
    }
    if Distinct(pool) {
      forall i, j | 0 <= i < j < |selected| ensures selected[i] != selected[j] {
        assert order[i] != order[j];
      }
    }
  }

  /** A pool whose items carry ids equal to their positions plus one has no repeats. */
  lemma PositionalKeysDistinct<T>(s: seq<T>, key: T -> int)
    requires forall k | 0 <= k < |s| :: key(s[k]) == k + 1
    ensures Distinct(s)
  {
    forall i, j | 0 <= i < j < |s| ensures s[i] != s[j] {
      assert key(s[i]) != key(s[j]);
    }
  }
}
