/**
 * Subscriber lists and notification, as the three copies that have subscribers do them
 * (packages/mata/src/mata.ts, src/mata.ts, src/mech.ts). Listeners are not executed: a listener
 * is an id, and a call to it is a `Delivery` appended to a log.
 */
module Subscribers {
  import opened Results
  import opened Schema

  type ListenerId = nat

  /** The `{from, to, input}` record a transition hands to listeners; `input` is absent for `force`. */
  datatype Event<T> = Event(from: State, to: State, input: Option<T>)

  /** One call of one listener with one event (src/mech.ts passes the three fields positionally). */
  datatype Delivery<T> = Delivery(listener: ListenerId, event: Event<T>)

  /** The calls `subs.forEach(s => s(event))` makes: every listener once, in subscription order. */
  function Notify<T>(subs: seq<ListenerId>, ev: Event<T>): (r: seq<Delivery<T>>)
    ensures |r| == |subs|
    ensures forall i :: 0 <= i < |subs| ==> r[i] == Delivery(subs[i], ev)
  {
    if subs == [] then [] else [Delivery(subs[0], ev)] + Notify(subs[1..], ev)
  }

  /**
   * The `forEach` loop over the subscriber array as it stood when the dispatch began. Listeners
   * are not run here, so nothing can replace the array mid-dispatch; the snapshot is `subs`.
   */
  method Dispatch<T>(subs: seq<ListenerId>, ev: Event<T>) returns (sent: seq<Delivery<T>>)
    ensures sent == Notify(subs, ev)
  {
    sent := [];
    for i := 0 to |subs|
      invariant |sent| == i
      invariant forall j :: 0 <= j < i ==> sent[j] == Delivery(subs[j], ev)
    {
      sent := sent + [Delivery(subs[i], ev)];
    }
  }

  /** `Array.prototype.indexOf`: the first position holding `x`, or -1. */
  function IndexOf(s: seq<ListenerId>, x: ListenerId): (i: int)
    ensures -1 <= i < |s|
    ensures i == -1 <==> x !in s
    ensures 0 <= i ==> s[i] == x && x !in s[..i]
  {
    if s == [] then -1
    else if s[0] == x then 0
    else
      var k := IndexOf(s[1..], x);
      assert s[1..][..(if k < 0 then 0 else k)] == s[1..(if k < 0 then 1 else k + 1)];
      if k < 0 then -1 else k + 1
  }

  /** A `slice` argument resolved against length `n`: negative counts from the end, then clamped. */
  function SliceIndex(k: int, n: nat): (r: nat)
    ensures r <= n
  {
    if k < 0 then (if n + k < 0 then 0 else n + k) else if k > n then n else k
  }

  /** `s.slice(start, end)`. */
  function Slice(s: seq<ListenerId>, start: int, end: int): (r: seq<ListenerId>)
    ensures |r| <= |s|
    ensures 0 <= start <= end <= |s| ==> r == s[start..end]
  {
    var a, b := SliceIndex(start, |s|), SliceIndex(end, |s|);
    if a < b then s[a..b] else []
  }

  /** `s.slice(start)`. */
  function SliceFrom(s: seq<ListenerId>, start: int): (r: seq<ListenerId>)
    ensures 0 <= start <= |s| ==> r == s[start..]
    ensures start < 0 && -start <= |s| ==> r == s[|s| + start..]
  {
    Slice(s, start, |s|)
  }

  /** The array the unsubscribe closure installs: `subs.slice(0, i).concat(subs.slice(i + 1))`, `i = indexOf`. */
  function Unsubscribed(subs: seq<ListenerId>, l: ListenerId): (r: seq<ListenerId>)
    ensures l in subs ==> |r| == |subs| - 1
    ensures l !in subs && subs != [] ==> |r| == 2 * |subs| - 1
  {
    var i := IndexOf(subs, l);
    Slice(subs, 0, i) + SliceFrom(subs, i + 1)
  }

  /** A subscribed listener loses exactly its first occurrence; everything else keeps its order. */
  lemma UnsubscribePresent(subs: seq<ListenerId>, l: ListenerId)
    requires l in subs
    ensures exists i :: (0 <= i < |subs| && subs[i] == l && l !in subs[..i] &&
                         Unsubscribed(subs, l) == subs[..i] + subs[i + 1..])
    ensures |Unsubscribed(subs, l)| == |subs| - 1
    ensures multiset(Unsubscribed(subs, l)) == multiset(subs) - multiset{l}
  {
    var i := IndexOf(subs, l);
    assert Slice(subs, 0, i) == subs[..i];
    assert SliceFrom(subs, i + 1) == subs[i + 1..];
    assert subs == subs[..i] + [l] + subs[i + 1..];
  }

  /**
   * Unsubscribing a listener that is not subscribed (`indexOf` is -1) does not leave the list
   * alone: it installs `subs.slice(0, -1).concat(subs)`, all but the last entry followed by
   * the whole list again.
   */
  lemma UnsubscribeAbsent(subs: seq<ListenerId>, l: ListenerId)
    requires l !in subs
    ensures Unsubscribed(subs, l) == (if subs == [] then [] else subs[..|subs| - 1]) + subs
    ensures |subs| >= 2 ==> |Unsubscribed(subs, l)| > |subs|
  {
    if subs != [] {
      assert Slice(subs, 0, -1) == subs[..|subs| - 1];
      assert SliceFrom(subs, 0) == subs;
    }
  }

  /** The unsubscribe closure is not idempotent: a second call on `[1, 2, 3]` duplicates 2. */
  lemma UnsubscribeTwiceDuplicates()
    ensures Unsubscribed([1, 2, 3], 1) == [2, 3]
    ensures Unsubscribed(Unsubscribed([1, 2, 3], 1), 1) == [2, 2, 3]
  {
    assert Unsubscribed([1, 2, 3], 1) == [2, 3] by {
      assert IndexOf([1, 2, 3], 1) == 0;
      assert Slice([1, 2, 3], 0, 0) == [];
      assert SliceFrom([1, 2, 3], 1) == [1, 2, 3][1..3] == [2, 3];
    }
    assert Unsubscribed([2, 3], 1) == [2, 2, 3] by {
      UnsubscribeAbsent([2, 3], 1);
      assert [2, 3][..1] + [2, 3] == [2, 2, 3];
    }
  }
}
