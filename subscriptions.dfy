/**
 Subscriptions: the manager's table from event name to the ordered list of
 callbacks bound to it.

 Callbacks are opaque; a callback is identified by a number, and a list may
 hold the same callback several times (every copy fires). What a caller hands
 to `on` or `off` is either a function or something that is not one (a
 missing or falsy value included).
 */
module Subscriptions {

  /** Identity of a callback function. */
  type CallbackId = nat

  /** An argument passed where a callback is expected. */
  datatype CallbackArg = Fn(id: CallbackId) | NotAFunction

  /** Event name to callbacks, in subscription order. */
  type Listeners = map<string, seq<CallbackId>>

  /**
   The list stored under `k`, or the empty list when there is none: the
   callbacks bound to an event, or the argument lists recorded for it.
   */
  function OrEmpty<V>(m: map<string, seq<V>>, k: string): seq<V>
  {
    if k in m then m[k] else []
  }

  /** The table after `id` is appended to the callbacks of `e`, the key being created if needed. */
  function Subscribed(l: Listeners, e: string, id: CallbackId): (r: Listeners)
    ensures r.Keys == l.Keys + {e}
    ensures OrEmpty(r, e) == OrEmpty(l, e) + [id]
    ensures forall k :: k in l && k != e ==> k in r && r[k] == l[k]
  {
    l[e := OrEmpty(l, e) + [id]]
  }

  /** `s` without any copy of the callback `cb`; what remains keeps its order. */
  function Unsubscribed(s: seq<CallbackId>, cb: CallbackArg): (r: seq<CallbackId>)
    ensures |r| <= |s|
    ensures forall i :: 0 <= i < |r| ==> cb != Fn(r[i])
  {
    if s == [] then []
    else (if cb == Fn(s[0]) then [] else [s[0]]) + Unsubscribed(s[1..], cb)
  }

  /** Unsubscribing works piecewise, so the survivors keep their relative order. */
  lemma {:induction false} UnsubscribedAppend(a: seq<CallbackId>, b: seq<CallbackId>, cb: CallbackArg)
    ensures Unsubscribed(a + b, cb) == Unsubscribed(a, cb) + Unsubscribed(b, cb)
  {
    if a == [] {
      assert a + b == b;
    } else {
      assert (a + b)[0] == a[0];
      assert (a + b)[1..] == a[1..] + b;
      UnsubscribedAppend(a[1..], b, cb);
    }
  }

  /** Exactly the copies of `cb` go: every other callback keeps its multiplicity. */
  lemma {:induction false} UnsubscribedMultiset(s: seq<CallbackId>, cb: CallbackArg)
    ensures multiset(Unsubscribed(s, cb)) ==
              if cb.Fn? then multiset(s)[cb.id := 0] else multiset(s)
  {
    if s != [] {
      var head, tail := s[0], s[1..];
      UnsubscribedMultiset(tail, cb);
      assert s == [head] + tail;
      var kept := if cb == Fn(head) then [] else [head];
      assert Unsubscribed(s, cb) == kept + Unsubscribed(tail, cb);
      assert multiset(Unsubscribed(s, cb)) == multiset(kept) + multiset(Unsubscribed(tail, cb));
    }
  }

  /** A list that holds no copy of `cb` is left as it is (so `off` with a non-function changes nothing). */
  lemma {:induction false} UnsubscribedNoMatch(s: seq<CallbackId>, cb: CallbackArg)
    requires forall i :: 0 <= i < |s| ==> cb != Fn(s[i])
    ensures Unsubscribed(s, cb) == s
  {
    if s != [] {
      UnsubscribedNoMatch(s[1..], cb);
    }
  }

  /** Unsubscribing twice is the same as once. */
  lemma UnsubscribedIdempotent(s: seq<CallbackId>, cb: CallbackArg)
    ensures Unsubscribed(Unsubscribed(s, cb), cb) == Unsubscribed(s, cb)
  {
    UnsubscribedNoMatch(Unsubscribed(s, cb), cb);
  }

  /** `off` undoes `on`: the appended copy goes along with every earlier one. */
  lemma UnsubscribeAfterSubscribe(l: Listeners, e: string, id: CallbackId)
    ensures Unsubscribed(OrEmpty(Subscribed(l, e, id), e), Fn(id)) == Unsubscribed(OrEmpty(l, e), Fn(id))
  {
    UnsubscribedAppend(OrEmpty(l, e), [id], Fn(id));
  }
}
