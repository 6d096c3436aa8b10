/**
 Event history, dispatch and replay.

 Every `trigger(e, args...)` appends its argument list to the history of `e`
 and then calls each callback bound to `e`. `replay` reads a history back into
 one callback, prepending the event name to every argument list it passes on;
 it does so by inserting the name at the front of the STORED list, so the
 history itself changes on every replay.

 What callbacks observe is written as a log of effects: an argument list
 stored into the history, or a callback called with an argument list.
 */
module EventHistory {
  import opened Subscriptions

  /** A value passed to `trigger`; `replay` adds event names, which are strings. */
  datatype Value = Str(s: string) | Opaque(id: nat)

  /** The positional arguments of one `trigger` call (everything after the event name). */
  type Args = seq<Value>

  /** Event name to the argument lists it was triggered with, oldest first. */
  type History = map<string, seq<Args>>

  /** One observable step: a recording into the history, or a callback invocation. */
  datatype Effect = Stored(event: string, args: Args) | Called(callback: CallbackId, args: Args)


  // ---------------------------------------------------------------------------
  // record / trigger

  /** The history after `args` is recorded for `e`. */
  function Recorded(h: History, e: string, args: Args): (r: History)
    ensures r.Keys == h.Keys + {e}
    ensures r[e] == OrEmpty(h, e) + [args]
    ensures forall k :: k in h && k != e ==> r[k] == h[k]
  {
    h[e := OrEmpty(h, e) + [args]]
  }

  /** The calls one `trigger` makes: each target in subscription order, each with `args`. */
  function Dispatch(targets: seq<CallbackId>, args: Args): (calls: seq<Effect>)
    ensures |calls| == |targets|
    ensures forall i :: 0 <= i < |calls| ==> calls[i] == Called(targets[i], args)
  {
    if targets == [] then []
    else Dispatch(targets[..|targets| - 1], args) + [Called(targets[|targets| - 1], args)]
  }

  /**
   A callback bound `n` times is called exactly `n` times, and never with
   anything but the triggered arguments.
   */
  lemma {:induction false} DispatchCounts(targets: seq<CallbackId>, args: Args, id: CallbackId, other: Args)
    ensures multiset(Dispatch(targets, args))[Called(id, args)] == multiset(targets)[id]
    ensures other != args ==> Called(id, other) !in Dispatch(targets, args)
  {
    if targets != [] {
      var n := |targets| - 1;
      DispatchCounts(targets[..n], args, id, other);
      assert targets == targets[..n] + [targets[n]];
    }
  }

  /** A callback that was not bound before `on` is called exactly once by the next `trigger`. */
  lemma SubscribeThenDispatchOnce(l: Listeners, e: string, id: CallbackId, args: Args)
    requires id !in OrEmpty(l, e)
    ensures multiset(Dispatch(OrEmpty(Subscribed(l, e, id), e), args))[Called(id, args)] == 1
  {
    DispatchCounts(OrEmpty(Subscribed(l, e, id), e), args, id, args);
    assert multiset(OrEmpty(l, e))[id] == 0;
  }

  /** After `off`, the next `trigger` no longer calls the callback, however often it was bound. */
  lemma UnsubscribeThenNoDispatch(s: seq<CallbackId>, id: CallbackId, args: Args)
    ensures Called(id, args) !in Dispatch(Unsubscribed(s, Fn(id)), args)
  {
    var r := Unsubscribed(s, Fn(id));
    DispatchCounts(r, args, id, args);
    assert id !in multiset(r);
  }

  /** One `trigger` call: the event name and its arguments. */
  datatype Fired = Fired(event: string, args: Args)

  /** The history after the triggers `ts`, in order. */
  function HistoryAfter(h: History, ts: seq<Fired>): History
  {
    if ts == [] then h
    else var last := ts[|ts| - 1]; Recorded(HistoryAfter(h, ts[..|ts| - 1]), last.event, last.args)
  }

  /** The arguments of those triggers in `ts` that name `e`, in order. */
  function ArgsFor(ts: seq<Fired>, e: string): seq<Args>
  {
    if ts == [] then []
    else
      var last := ts[|ts| - 1];
      ArgsFor(ts[..|ts| - 1], e) + if last.event == e then [last.args] else []
  }

  /**
   The history of `e` holds, in order, every argument list `e` was ever
   triggered with, listeners or not.
   */
  lemma {:induction false} HistoryCollectsTriggers(h: History, ts: seq<Fired>, e: string)
    ensures OrEmpty(HistoryAfter(h, ts), e) == OrEmpty(h, e) + ArgsFor(ts, e)
  {
    if ts != [] {
      HistoryCollectsTriggers(h, ts[..|ts| - 1], e);
    }
  }

  /** A history key exists exactly when it existed before or its event fired. */
  lemma {:induction false} HistoryKeys(h: History, ts: seq<Fired>)
    ensures HistoryAfter(h, ts).Keys == h.Keys + set t | t in ts :: t.event
  {
    if ts != [] {
      var n := |ts| - 1;
      HistoryKeys(h, ts[..n]);
      assert ts == ts[..n] + [ts[n]];
      assert (set t | t in ts :: t.event) == (set t | t in ts[..n] :: t.event) + {ts[n].event};
    }
  }

  /** From an empty history, the entries of `e` are exactly the arguments `e` was triggered with. */
  lemma HistoryFromEmpty(ts: seq<Fired>, e: string)
    ensures OrEmpty(HistoryAfter(map[], ts), e) == ArgsFor(ts, e)
  {
    HistoryCollectsTriggers(map[], ts, e);
  }

  // ---------------------------------------------------------------------------
  // replay

  /** The argument lists of `entries`, each with the event name `e` put in front. */
  function Prepended(e: string, entries: seq<Args>): (r: seq<Args>)
    ensures |r| == |entries|
  {
    if entries == [] then []
    else Prepended(e, entries[..|entries| - 1]) + [[Str(e)] + entries[|entries| - 1]]
  }

  /** Entry `i` after prepending is the name followed by entry `i` before. */
  lemma {:induction false} PrependedAt(e: string, entries: seq<Args>, i: nat)
    requires i < |entries|
    ensures Prepended(e, entries)[i] == [Str(e)] + entries[i]
    decreases |entries|
  {
    var n := |entries| - 1;
    if i < n {
      PrependedAt(e, entries[..n], i);
    }
  }

  /** One step of replay's loop: the entry at `i` gets the name, the later ones do not yet. */
  lemma PrependedStep(e: string, entries: seq<Args>, i: nat)
    requires i < |entries|
    ensures var now := Prepended(e, entries[..i]) + entries[i..];
      && i < |now| && now[i] == entries[i]
      && Prepended(e, entries[..i + 1]) == Prepended(e, entries[..i]) + [[Str(e)] + entries[i]]
      && now[i := [Str(e)] + now[i]] == Prepended(e, entries[..i + 1]) + entries[i + 1..]
  {
    assert entries[..i + 1][..i] == entries[..i];
  }

  /** One call of `cb` per argument list, in order. */
  function Invocations(cb: CallbackId, lists: seq<Args>): (calls: seq<Effect>)
    ensures |calls| == |lists|
  {
    if lists == [] then []
    else Invocations(cb, lists[..|lists| - 1]) + [Called(cb, lists[|lists| - 1])]
  }

  /** Call `i` passes argument list `i`. */
  lemma {:induction false} InvocationsAt(cb: CallbackId, lists: seq<Args>, i: nat)
    requires i < |lists|
    ensures Invocations(cb, lists)[i] == Called(cb, lists[i])
    decreases |lists|
  {
    var n := |lists| - 1;
    if i < n {
      InvocationsAt(cb, lists[..n], i);
    }
  }

  /** Extending the argument lists by one adds one call at the end. */
  lemma InvocationsSnoc(cb: CallbackId, lists: seq<Args>, last: Args)
    ensures Invocations(cb, lists + [last]) == Invocations(cb, lists) + [Called(cb, last)]
  {
    assert (lists + [last])[..|lists|] == lists;
  }

  /** What a replay leaves behind: the new history and the calls it made. */
  datatype Replayed = Replayed(history: History, calls: seq<Effect>)

  /** Replay of the single event `e` into `cb`. */
  function ReplayName(h: History, e: string, cb: CallbackId): (r: Replayed)
    ensures r.history.Keys == h.Keys
    ensures e !in h ==> r == Replayed(h, [])
  {
    if e in h then
      var lists := Prepended(e, h[e]);
      Replayed(h[e := lists], Invocations(cb, lists))
    else Replayed(h, [])
  }

  /**
   Replaying an event calls `cb` once per recorded entry, in trigger order,
   with the event name followed by that entry's arguments; an event that never
   fired gives no call and no change. Only the stored entries of `e` change,
   each gaining the name at its front, and no key is created.
   */
  lemma ReplayNameMeaning(h: History, e: string, cb: CallbackId)
    ensures var r := ReplayName(h, e, cb);
      && r.history.Keys == h.Keys
      && |r.calls| == |OrEmpty(h, e)|
      && |OrEmpty(r.history, e)| == |OrEmpty(h, e)|
      && (forall i :: 0 <= i < |r.calls| ==> r.calls[i] == Called(cb, [Str(e)] + OrEmpty(h, e)[i]))
      && (forall i :: 0 <= i < |OrEmpty(h, e)| ==> OrEmpty(r.history, e)[i] == [Str(e)] + OrEmpty(h, e)[i])
      && (forall k :: k in h && k != e ==> r.history[k] == h[k])
      && (e !in h ==> r == Replayed(h, []))
  {
    if e in h {
      var r := ReplayName(h, e, cb);
      forall i | 0 <= i < |h[e]|
        ensures r.calls[i] == Called(cb, [Str(e)] + h[e][i])
        ensures r.history[e][i] == [Str(e)] + h[e][i]
      {
        PrependedAt(e, h[e], i);
        InvocationsAt(cb, Prepended(e, h[e]), i);
      }
    }
  }

  /**
   The stored entries are changed in place, so a second replay of the same
   event passes the name twice: the first argument is duplicated.
   */
  lemma ReplayTwiceRepeatsName(h: History, e: string, cb: CallbackId)
    requires e in h
    ensures var second := ReplayName(ReplayName(h, e, cb).history, e, cb);
      forall i :: 0 <= i < |h[e]| ==>
        i < |second.calls| && second.calls[i] == Called(cb, [Str(e), Str(e)] + h[e][i])
  {
    var first := ReplayName(h, e, cb);
    var second := ReplayName(first.history, e, cb);
    forall i | 0 <= i < |h[e]|
      ensures i < |second.calls| && second.calls[i] == Called(cb, [Str(e), Str(e)] + h[e][i])
    {
      PrependedAt(e, h[e], i);
      PrependedAt(e, first.history[e], i);
      InvocationsAt(cb, Prepended(e, first.history[e]), i);
      assert first.history[e][i] == [Str(e)] + h[e][i];
      assert [Str(e)] + ([Str(e)] + h[e][i]) == [Str(e), Str(e)] + h[e][i];
    }
  }

  /** Replay of the names `names`, one after the other. */
  function ReplayAll(h: History, names: seq<string>, cb: CallbackId): Replayed
  {
    if names == [] then Replayed(h, [])
    else
      var first := ReplayName(h, names[0], cb);
      var rest := ReplayAll(first.history, names[1..], cb);
      Replayed(rest.history, first.calls + rest.calls)
  }

  /** Replaying `xs + ys` is replaying `xs`, then `ys` on the history that leaves. */
  lemma {:induction false} ReplayAllAppend(h: History, xs: seq<string>, ys: seq<string>, cb: CallbackId)
    ensures var left := ReplayAll(h, xs, cb);
      var right := ReplayAll(left.history, ys, cb);
      ReplayAll(h, xs + ys, cb) == Replayed(right.history, left.calls + right.calls)
  {
    if xs == [] {
      assert xs + ys == ys;
    } else {
      var first := ReplayName(h, xs[0], cb);
      var left := ReplayAll(first.history, xs[1..], cb);
      var right := ReplayAll(left.history, ys, cb);
      ReplayAllAppend(first.history, xs[1..], ys, cb);
      assert (xs + ys)[0] == xs[0];
      assert (xs + ys)[1..] == xs[1..] + ys;
      assert ReplayAll(h, xs, cb) == Replayed(left.history, first.calls + left.calls);
      assert first.calls + (left.calls + right.calls) == (first.calls + left.calls) + right.calls;
    }
  }

  /** Replaying never creates or deletes a history key, and keys it is not asked about keep their entries. */
  lemma {:induction false} ReplayAllFrame(h: History, names: seq<string>, cb: CallbackId, k: string)
    ensures ReplayAll(h, names, cb).history.Keys == h.Keys
    ensures k in h && k !in names ==> ReplayAll(h, names, cb).history[k] == h[k]
  {
    if names != [] {
      ReplayNameMeaning(h, names[0], cb);
      ReplayAllFrame(ReplayName(h, names[0], cb).history, names[1..], cb, k);
    }
  }

  /** The first argument of `replay`: one event name, or an array of them, possibly nested. */
  datatype EventSpec = Name(name: string) | Names(items: seq<EventSpec>)

  /** The event names of `spec` in the order `replay` visits them. */
  function Flatten(spec: EventSpec): (names: seq<string>)
    ensures spec.Name? ==> names == [spec.name]
    ensures spec.Names? ==>
      forall i :: 0 <= i < |spec.items| && spec.items[i].Name? ==> spec.items[i].name in names
    decreases spec, 1
  {
    match spec
    case Name(e) => [e]
    case Names(items) => FlattenAll(items)
  }

  /** The event names of `items`, in order. */
  function FlattenAll(items: seq<EventSpec>): (names: seq<string>)
    ensures forall i :: 0 <= i < |items| && items[i].Name? ==> items[i].name in names
    decreases items, 0
  {
    if items == [] then []
    else FlattenAll(items[..|items| - 1]) + Flatten(items[|items| - 1])
  }

  /** What `replay(spec, cb)` leaves behind. */
  function Replay(h: History, spec: EventSpec, cb: CallbackId): (r: Replayed)
    ensures spec == Names([]) ==> r == Replayed(h, [])
    ensures spec.Name? && spec.name !in h ==> r == Replayed(h, [])
  {
    assert spec == Names([]) ==> Flatten(spec) == [];
    assert spec.Name? ==> Flatten(spec)[1..] == [];
    assert ReplayAll(h, [], cb) == Replayed(h, []);
    ReplayAll(h, Flatten(spec), cb)
  }

  /**
   Replaying an array of names is replaying its first element and then the
   rest of the array, on the history the first left: the elements run one
   after the other, in array order, each in full.
   */
  lemma ReplayNamesInOrder(h: History, first: EventSpec, rest: seq<EventSpec>, cb: CallbackId)
    ensures var a := Replay(h, first, cb);
      var b := Replay(a.history, Names(rest), cb);
      Replay(h, Names([first] + rest), cb) == Replayed(b.history, a.calls + b.calls)
  {
    FlattenAllPrepend(first, rest);
    ReplayAllAppend(h, Flatten(first), FlattenAll(rest), cb);
  }

  /** Flattening an array is flattening its first element, then the rest. */
  lemma {:induction false} FlattenAllPrepend(first: EventSpec, rest: seq<EventSpec>)
    ensures FlattenAll([first] + rest) == Flatten(first) + FlattenAll(rest)
    decreases |rest|
  {
    if rest != [] {
      var n := |rest| - 1;
      assert ([first] + rest)[..n + 1] == [first] + rest[..n];
      FlattenAllPrepend(first, rest[..n]);
    }
  }

  /** Replaying one name through `Replay` is the single-event replay. */
  lemma ReplayOneName(h: History, e: string, cb: CallbackId)
    ensures Replay(h, Name(e), cb) == ReplayName(h, e, cb)
  {
    var first := ReplayName(h, e, cb);
    assert Flatten(Name(e)) == [e];
    assert [e][1..] == [];
    assert ReplayAll(first.history, [], cb) == Replayed(first.history, []);
    assert first.calls + [] == first.calls;
  }
}
