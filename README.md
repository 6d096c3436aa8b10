# PluginManager.js in Dafny

A model of `src/js/pluginmanager.js`, a small in-process publish/subscribe
registry. A *plugin* is a sub-application. When it is added to a *plugin
manager* it gets a back-reference to that manager and its `init` hook runs.
The manager keeps three pieces of state:

- `plugins`: the attached plugins, in order. Duplicates are allowed.
- `listeners`: event name to the ordered list of bound callbacks.
- `history`: event name to the ordered list of argument lists it was
  triggered with.

Its operations are `add`/`remove` (membership), `on`/`off` (subscription),
`trigger`/`record` (dispatch and history) and `replay`. `replay` reads a
history back into one callback, for plugins that arrive late.

Layout:

- `membership.dfy` (module `Membership`): `RemoveLast`, the specification of
  `remove`'s backward scan, with its lemmas.
- `subscriptions.dfy` (module `Subscriptions`): callback ids, the listener
  table, `Subscribed` (what `on` does) and `Unsubscribed` (what `off` does),
  with their lemmas.
- `event_history.dfy` (module `EventHistory`): argument values, the history,
  the observable effect log, and the specifications of record, dispatch and
  replay, with their lemmas.
- `registry.dfy` (module `Registry`): the classes `Plugin` and
  `PluginManager`. Their methods update fields in place with the loops of the
  original, and each method's `ensures` ties the new state to the
  specification functions above.
- `scenarios.dfy` (module `Scenarios`): small verified client programs. They
  use only the contracts above: a bound callback receives a trigger, a late
  listener uses replay, a double binding is removed by one unbind, `on` refuses
  bad arguments, and a plugin is added twice and removed once.

Modelling choices:

- A callback is a number (`CallbackId`). What is passed to `on`/`off` is
  `Fn(id)` or `NotAFunction`; the second covers missing, falsy and
  non-function values alike.
- An event name is a string, and the empty string stands for a falsy name.
- `replay`'s first argument is `EventSpec`: either `Name(e)`, or
  `Names(items)` for a JavaScript array, which may be nested.
- The `instanceof Plugin` test becomes the argument type
  `PluginArg = Instance(plugin) | NotAnInstance`. The thrown error, a plain
  `Error` with the message "Must be instance of Plugin", becomes
  `Err(NotAPlugin("Must be instance of Plugin"))`.
- Callback calls cannot be observed directly. The manager therefore keeps a
  ghost log `effects`, in which every recording (`Stored(e, args)`) and every
  call (`Called(cb, args)`) is appended in the order it happens. This is how
  "record before dispatch" and "in subscription order" are stated.
- `Plugin.initCount` is a ghost counter of how often `init` has run.

The model follows the code where it departs from the intended design:

- `remove` scans from the end and stops at the first match it meets. It
  therefore removes the **last** occurrence of a plugin added several times,
  not the first (`src/js/pluginmanager.js:45-50`).
- `on` with a bad name or callback returns `undefined`, not the manager
  (`src/js/pluginmanager.js:58-60`). `On` returns `null` then.
- `replay` puts the event name in front of the **stored** argument list on
  every call (`src/js/pluginmanager.js:117-118`). A second replay therefore
  passes the name twice. `ReplayTwiceRepeatsName` states this.

## Model

Three definitions have no row of their own because other rows state what they
mean. `Subscriptions.OrEmpty` is the lookup that yields the list under a key,
or none: `this.listeners[eventType] || []` (line 83) and the `hasOwnProperty`
test on the history (lines 99 and 115). `Subscribed`, `Off`, `Trigger`,
`Recorded`, `HistoryCollectsTriggers` and `ReplayNameMeaning` state its
meaning. `EventHistory.ReplayAll` replays a list of names one after the other,
in order; `ReplayAllAppend`, `ReplayAllFrame` and `ReplayNamesInOrder` state
its meaning.

| member | source | states |
|---|---|---|
| `Registry.Plugin.constructor` | src/js/pluginmanager.js:7-15 | a new plugin has no manager and `init` has not run |
| `Registry.Plugin.Init` | src/js/pluginmanager.js:8-10 | the default hook changes nothing but counts as one run of `init` |
| `Registry.Plugin.AddedTo` | src/js/pluginmanager.js:11-14 | the back-reference becomes the manager, and `init` runs exactly once |
| `Registry.PluginManager.constructor` | src/js/pluginmanager.js:21-25 | plugins, listeners and history start empty |
| `Registry.PluginManager.Add` | src/js/pluginmanager.js:30-37 | a non-plugin gives the "Must be instance of Plugin" error and leaves the plugins as they were; a plugin gets the manager as back-reference, runs `init` once, is appended at the end, and the manager is returned; listeners, history and effects do not change |
| `Registry.PluginManager.Remove` | src/js/pluginmanager.js:41-53 | a non-plugin gives the "Must be instance of Plugin" error and changes nothing; otherwise the list becomes `RemoveLast` of the old list (the last occurrence goes, or nothing if absent) and the manager is returned; nothing else changes |
| `Registry.PluginManager.On` | src/js/pluginmanager.js:57-64 | an empty name or a non-function leaves the table unchanged and returns no manager; otherwise the callback is appended to the event's list (creating it) and the manager is returned; history and plugins are untouched |
| `Registry.PluginManager.Off` | src/js/pluginmanager.js:68-77 | an event without a list stays without one; otherwise its list becomes `Unsubscribed` of the old list (every copy removed); other keys, history and plugins are untouched; the manager is returned |
| `Registry.PluginManager.Record` | src/js/pluginmanager.js:98-103 | the history becomes `Recorded` of the old one (args appended for the event, key created if absent), and one `Stored` effect is logged |
| `Registry.PluginManager.Trigger` | src/js/pluginmanager.js:81-93 | the arguments are recorded first, then each callback bound to the event is called once with them, in subscription order (`Stored` followed by `Dispatch` in the effect log); listeners and plugins are untouched |
| `Registry.PluginManager.Replay` | src/js/pluginmanager.js:107-114 | history and effect log end as the specification `EventHistory.Replay` says: for an array, its elements are replayed one after the other in array order, recursively; listeners and plugins are untouched |
| `Registry.PluginManager.ReplayEvent` | src/js/pluginmanager.js:115-121 | for one name, the history and the calls are those of `ReplayName`: nothing when the name never fired, otherwise each stored entry, in trigger order, gets the name in front and `cb` is called with it |
| `Registry.PluginManager.ReplayEntries` | src/js/pluginmanager.js:116-120 | the loop over a fired name's entries: the name's entries become `Prepended` of the old ones, no other key changes, and the calls logged are `Invocations` of the prefixed entries, in order |
| `Membership.RemoveLast` | src/js/pluginmanager.js:45-50 | the list loses exactly one element when the plugin occurs in it, and none otherwise |
| `Membership.RemoveLastAbsent` | src/js/pluginmanager.js:45-52 | removing a plugin that is not listed is a no-op |
| `Membership.RemoveLastAt` | src/js/pluginmanager.js:45-50 | when `k` is the highest index of the plugin, exactly the element at `k` goes and the others keep their order |
| `Membership.LastOccurrence` | src/js/pluginmanager.js:45-50 | a listed plugin has a highest index at which it occurs |
| `Membership.RemoveLastMultiset` | src/js/pluginmanager.js:45-50 | removal takes away at most one copy, and only of the given plugin |
| `Membership.RemoveLastAfterAppend` | src/js/pluginmanager.js:30-53 | adding a plugin and then removing it gives back the original list |
| `Membership.RemoveLastKeepsEarlierCopies` | src/js/pluginmanager.js:45-50 | with a duplicate, removal leaves an earlier copy in the list |
| `Subscriptions.Subscribed` | src/js/pluginmanager.js:61-62 | the event's key exists, its list is the old one (or empty) with the callback at the end, and every other key keeps its list |
| `Subscriptions.Unsubscribed` | src/js/pluginmanager.js:69-75 | no copy of the callback is left, and the list does not grow |
| `Subscriptions.UnsubscribedAppend` | src/js/pluginmanager.js:70-75 | unbinding works piecewise over a concatenation, so the remaining callbacks keep their relative order |
| `Subscriptions.UnsubscribedMultiset` | src/js/pluginmanager.js:70-75 | exactly the copies of the callback go; every other callback keeps its multiplicity |
| `Subscriptions.UnsubscribedNoMatch` | src/js/pluginmanager.js:71-74 | a list with no copy of the callback (always the case for a non-function) is left as it is |
| `Subscriptions.UnsubscribedIdempotent` | src/js/pluginmanager.js:68-77 | unbinding twice is the same as unbinding once |
| `Subscriptions.UnsubscribeAfterSubscribe` | src/js/pluginmanager.js:57-77 | `off` after `on` leaves the event's list as `off` alone would: the appended copy goes too |
| `EventHistory.Recorded` | src/js/pluginmanager.js:98-103 | the event's key exists, its entries are the old ones (or none) with the arguments appended, and every other key keeps its entries |
| `EventHistory.Dispatch` | src/js/pluginmanager.js:87-91 | one call per bound callback, the `i`-th call going to the `i`-th callback with the triggered arguments |
| `EventHistory.DispatchCounts` | src/js/pluginmanager.js:87-91 | a callback bound `n` times is called exactly `n` times with the triggered arguments, and never with other arguments |
| `EventHistory.SubscribeThenDispatchOnce` | src/js/pluginmanager.js:57-91 | after `on` of a callback not yet bound, the next trigger calls it exactly once |
| `EventHistory.UnsubscribeThenNoDispatch` | src/js/pluginmanager.js:68-91 | after `off`, the next trigger never calls that callback, however often it had been bound |
| `EventHistory.HistoryCollectsTriggers` | src/js/pluginmanager.js:81-103 | after any sequence of triggers, an event's history is its old entries followed by the argument lists it was triggered with, in order, whether or not anyone listened |
| `EventHistory.HistoryKeys` | src/js/pluginmanager.js:98-101 | after any sequence of triggers, a history key exists exactly when it existed before or its event fired |
| `EventHistory.HistoryFromEmpty` | src/js/pluginmanager.js:21-25 | starting from the empty history, an event's entries are exactly its trigger arguments, in order |
| `EventHistory.Prepended` | src/js/pluginmanager.js:117-118 | inserting the name in front of every stored entry keeps the number of entries |
| `EventHistory.Invocations` | src/js/pluginmanager.js:116-120 | replay calls the callback once per stored entry |
| `EventHistory.PrependedAt` | src/js/pluginmanager.js:117-118 | each stored entry becomes the event name followed by the old entry |
| `EventHistory.InvocationsAt` | src/js/pluginmanager.js:116-120 | the `i`-th replay call passes the `i`-th (already prefixed) entry |
| `EventHistory.ReplayName` | src/js/pluginmanager.js:115-121 | replaying one name never creates or deletes a history key, and a name that never fired leaves the history as it is and calls nothing |
| `EventHistory.ReplayNameMeaning` | src/js/pluginmanager.js:115-121 | replaying one name calls `cb` once per entry, in trigger order, with the name followed by that entry; an unknown name does nothing; only that name's entries change, and no key is created |
| `EventHistory.ReplayTwiceRepeatsName` | src/js/pluginmanager.js:117-119 | because the stored entries are changed, a second replay passes the name twice before the recorded arguments |
| `EventHistory.ReplayAllAppend` | src/js/pluginmanager.js:109-114 | replaying two runs of names one after the other is the same as replaying their concatenation |
| `EventHistory.ReplayAllFrame` | src/js/pluginmanager.js:107-121 | replaying never adds or removes a history key, and names not replayed keep their entries |
| `EventHistory.Flatten` | src/js/pluginmanager.js:109-114 | a single name visits just that name; for an array, every name listed directly in it is visited |
| `EventHistory.FlattenAll` | src/js/pluginmanager.js:110-112 | every name listed directly in the array is visited |
| `EventHistory.Replay` | src/js/pluginmanager.js:107-121 | replaying an empty array, or a single name that never fired, leaves the history as it is and calls nothing |
| `EventHistory.ReplayNamesInOrder` | src/js/pluginmanager.js:109-114 | replaying an array is replaying its first element, then the rest of the array on the history that leaves, calls concatenated |
| `EventHistory.ReplayOneName` | src/js/pluginmanager.js:107-121 | replaying `Name(e)` is the single-name replay of `e` |

## Left out

- The IIFE wrapper and the `window.Plugin` / `window.PluginManager` exports (`src/js/pluginmanager.js:1`, `125-127`). They are global plumbing with no logic.
- Registry.PluginManager.Record: stored argument lists are values, not shared arrays. This is exact for every entry `trigger` creates, since it passes a fresh `slice` copy (line 82). But `record` is public (lines 98-103) and keeps the caller's array by reference, and `replay`'s `unshift` (line 118) mutates that array in place. So after `record("e", a); record("e", a); replay("e", cb)` the source prepends the name twice to the one shared array, while the model prepends once to each of two entries.
- Callbacks that call `on`, `off`, `trigger` or `replay` while being dispatched. Callbacks are ids whose only effect is an entry in the effect log, so iterating over the live listener array cannot be observed.
- Registry.PluginManager.Trigger: the `typeof targets[i] === 'function'` test (line 88) is not modelled. Only `on` fills the table, and it admits functions only, so the test always passes.
- Registry.PluginManager.Replay: the callback is taken to be a function. A non-function callback would throw at `callback.apply` after the first stored entry had already been changed. Cyclic arrays of names are not modelled either: `EventSpec` is an inductive datatype, so it cannot hold an array that contains itself. In the source, `var a = ["x"]; a.push(a); m.replay(a, cb)` never returns (lines 109-112). It replays `"x"` again and again, prefixing its stored entries each time, until the stack overflows.
- Real function application: `apply`, the `this` binding of callbacks, and return values of callbacks.
- JavaScript truthiness beyond "the empty string is a falsy event name". Event names are strings; non-string keys and names inherited from `Object.prototype` (such as `toString` in `this.listeners[eventType]`) are not modelled. Such a name can also break the history for good: `trigger("hasOwnProperty")` makes line 100 store an array under the history's own key `hasOwnProperty`. After that, every call to `this.history.hasOwnProperty(...)` at lines 99 and 115 throws, so every later `trigger` and every single-name `replay` fails before it records or calls anything.
- The bodies of `init` overrides in concrete plugins. Only the default no-op exists in the file. `initCount` records that it ran.
