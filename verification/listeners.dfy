/**
 * Subscriber lists of the game-state manager and of the input handler. A
 * callback is identified by a number; subscribing appends it and the returned
 * unsubscribe function removes its first occurrence (indexOf, then splice).
 */
module Listeners {

  /** Removes the first occurrence of `id` and keeps the order of the rest. */
  function RemoveFirst<T(==)>(s: seq<T>, id: T): (r: seq<T>)
    ensures id !in s ==> r == s
    ensures id in s ==> |r| == |s| - 1
    ensures multiset(r) == multiset(s) - multiset{id}
  {
    if s == [] then []
    else
      assert s == [s[0]] + s[1..];
      if s[0] == id then s[1..]
      else [s[0]] + RemoveFirst(s[1..], id)
  }

  /** The occurrence removed is the first one: everything before it is kept as is. */
  lemma {:induction false} RemoveFirstSplit<T>(s: seq<T>, id: T, k: nat)
    requires k < |s| && s[k] == id && id !in s[..k]
    ensures RemoveFirst(s, id) == s[..k] + s[k + 1..]
  {
    if k > 0 {
      assert s[1..][..k - 1] == s[..k][1..];
      RemoveFirstSplit(s[1..], id, k - 1);
      assert s[1..][k..] == s[k + 1..];
    }
  }

  /**
   * Unsubscribing a callback that was subscribed once restores the list, and
   * calling the same unsubscribe function again changes nothing.
   */
  lemma SubscribeThenUnsubscribe<T>(s: seq<T>, id: T)
    requires id !in s
    ensures RemoveFirst(s + [id], id) == s
    ensures RemoveFirst(RemoveFirst(s + [id], id), id) == s
  {
    assert (s + [id])[..|s|] == s;
    RemoveFirstSplit(s + [id], id, |s|);
    assert (s + [id])[|s| + 1..] == [];
  }
}
