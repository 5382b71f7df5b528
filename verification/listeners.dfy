/** Lifecycle listeners and the order in which they are notified.

    Listeners are sorted by their natural ordering before they are told that
    the SDK is about to shut down. The listener interface itself is not part of
    this model: its ordering is abstracted as an integer `rank`, and the sort is
    stable (listeners of equal rank keep their registration order), as sorting an
    ordered stream is. */
module Listeners {

  /** A registered lifecycle listener; `rank` is the key its ordering compares. */
  datatype Listener = Listener(name: string, rank: int)

  /** Listeners appear in non-decreasing rank. */
  predicate SortedByRank(ls: seq<Listener>) {
    forall i, j :: 0 <= i < j < |ls| ==> ls[i].rank <= ls[j].rank
  }

  /** The listeners of rank `k`, in the order they appear in `ls`. */
  function WithRank(ls: seq<Listener>, k: int): seq<Listener>
    decreases |ls|
  {
    if ls == [] then []
    else (if ls[0].rank == k then [ls[0]] else []) + WithRank(ls[1..], k)
  }

  /** Places `x` in front of the first listener whose rank is not below its own. */
  function Insert(x: Listener, ls: seq<Listener>): (r: seq<Listener>)
    requires SortedByRank(ls)
    ensures SortedByRank(r)
    ensures multiset(r) == multiset(ls) + multiset{x}
    decreases |ls|
  {
    if ls == [] then [x]
    else if x.rank <= ls[0].rank then [x] + ls
    else
      var rest := Insert(x, ls[1..]);
      assert ls == [ls[0]] + ls[1..];
      assert forall i :: 0 <= i < |rest| ==> ls[0].rank <= rest[i].rank by {
        forall i | 0 <= i < |rest| ensures ls[0].rank <= rest[i].rank {
          assert rest[i] in multiset(rest);
          assert rest[i] == x || rest[i] in ls[1..];
        }
      }
      [ls[0]] + rest
  }

  /** Inserting `x` puts it ahead of every listener of its own rank and leaves the
      relative order of all other listeners alone. */
  lemma {:induction false} InsertIsStable(x: Listener, ls: seq<Listener>, k: int)
    requires SortedByRank(ls)
    ensures WithRank(Insert(x, ls), k) == (if x.rank == k then [x] + WithRank(ls, k) else WithRank(ls, k))
    decreases |ls|
  {
    if ls == [] {
      assert WithRank([x], k) == (if x.rank == k then [x] else []) + WithRank([], k);
    } else if x.rank <= ls[0].rank {
      assert ([x] + ls)[1..] == ls;
    } else {
      var rest := Insert(x, ls[1..]);
      InsertIsStable(x, ls[1..], k);
      assert ([ls[0]] + rest)[1..] == rest;
    }
  }

  /** The order in which listeners are notified: sorted by rank, a permutation of
      the registered listeners, and stable among listeners of equal rank. */
  function SortByRank(ls: seq<Listener>): (r: seq<Listener>)
    ensures SortedByRank(r)
    ensures multiset(r) == multiset(ls)
    ensures forall k :: WithRank(r, k) == WithRank(ls, k)
    decreases |ls|
  {
    if ls == [] then []
    else
      var rest := SortByRank(ls[1..]);
      assert ls == [ls[0]] + ls[1..];
      assert forall k :: WithRank(Insert(ls[0], rest), k) == WithRank(ls, k) by {
        forall k ensures WithRank(Insert(ls[0], rest), k) == WithRank(ls, k) {
          InsertIsStable(ls[0], rest, k);
        }
      }
      Insert(ls[0], rest)
  }
}
