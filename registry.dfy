/**
 The two classes of pluginmanager.js.

 A `Plugin` is a sub-application that remembers the manager it was added to
 and runs its `init` hook when added. A `PluginManager` holds the plugins, the
 listener table and the event history, and offers membership (`add`,
 `remove`), subscription (`on`, `off`), dispatch (`trigger`, `record`) and
 replay of past events.

 Callbacks are callback ids; the calls they receive, and the recordings that
 come before them, are appended to the manager's ghost log `effects`.
 */
module Registry {
  import opened Membership
  import opened Subscriptions
  import opened EventHistory

  /** The message of the error `add` and `remove` throw for a non-plugin. */
  const NotAPluginMessage := "Must be instance of Plugin"

  /** The only error: the plain `Error` thrown when the argument of `add` or `remove` is not a plugin. */
  datatype Error = NotAPlugin(message: string)

  /** A call that returns a value or throws. */
  datatype Result<T> = Ok(value: T) | Err(error: Error)

  /** What is passed to `add` or `remove`: a plugin instance, or anything else. */
  datatype PluginArg = Instance(plugin: Plugin) | NotAnInstance

  class Plugin {
    /** The manager this plugin was last added to; nothing clears it. */
    var manager: PluginManager?
    /** How many times `init` has run on this plugin. */
    ghost var initCount: nat

    constructor ()
      ensures manager == null && initCount == 0
    {
      manager := null;
      initCount := 0;
    }

    /** The default hook does nothing; only the fact that it ran is kept. */
    method Init()
      modifies this
      ensures manager == old(manager)
      ensures initCount == old(initCount) + 1
    {
      initCount := initCount + 1;
    }

    /** Set the back-reference to `m`, then run `init` once. */
    method AddedTo(m: PluginManager)
      modifies this
      ensures manager == m
      ensures initCount == old(initCount) + 1
    {
      manager := m;
      Init();
    }
  }

  class PluginManager {
    /** Attached plugins, in the order they were added; a plugin added twice is here twice. */
    var plugins: seq<Plugin>
    /** Event name to callbacks, in subscription order. */
    var listeners: Listeners
    /** Event name to the argument lists it was triggered with. */
    var history: History
    /** Everything recorded and every callback call, in the order they happened. */
    ghost var effects: seq<Effect>

    constructor ()
      ensures plugins == [] && listeners == map[] && history == map[] && effects == []
    {
      plugins := [];
      listeners := map[];
      history := map[];
      effects := [];
    }

    /** Attach a plugin: it learns its manager and runs `init` before it is appended. */
    method Add(arg: PluginArg) returns (r: Result<PluginManager>)
      modifies this, if arg.Instance? then {arg.plugin} else {}
      ensures arg.NotAnInstance? ==> r == Err(NotAPlugin(NotAPluginMessage)) && plugins == old(plugins)
      ensures arg.Instance? ==>
        && r == Ok(this)
        && plugins == old(plugins) + [arg.plugin]
        && arg.plugin.manager == this
        && arg.plugin.initCount == old(arg.plugin.initCount) + 1
      ensures listeners == old(listeners) && history == old(history) && effects == old(effects)
    {
      if arg.NotAnInstance? {
        return Err(NotAPlugin(NotAPluginMessage));
      }
      var plugin := arg.plugin;
      plugin.AddedTo(this);
      plugins := plugins + [plugin];
      r := Ok(this);
    }

    /**
     Detach a plugin: scan from the end and splice out the first identity
     match met, i.e. the last occurrence; a plugin that is not there is no error.
     */
    method Remove(arg: PluginArg) returns (r: Result<PluginManager>)
      modifies this
      ensures arg.NotAnInstance? ==> r == Err(NotAPlugin(NotAPluginMessage)) && plugins == old(plugins)
      ensures arg.Instance? ==> r == Ok(this) && plugins == RemoveLast(old(plugins), arg.plugin)
      ensures listeners == old(listeners) && history == old(history) && effects == old(effects)
    {
      if arg.NotAnInstance? {
        return Err(NotAPlugin(NotAPluginMessage));
      }
      var plugin := arg.plugin;
      ghost var before := plugins;
      var i := |plugins|;
      while i > 0
        invariant 0 <= i <= |plugins|
        invariant plugins == before
        invariant plugin !in plugins[i..]
        invariant listeners == old(listeners) && history == old(history) && effects == old(effects)
      {
        i := i - 1;
        assert plugins[i..] == [plugins[i]] + plugins[i + 1..];
        if plugin == plugins[i] {
          RemoveLastAt(plugins, plugin, i);
          plugins := plugins[..i] + plugins[i + 1..];
          break;
        }
      }
      if plugin !in before {
        assert before[0..] == before;
        RemoveLastAbsent(before, plugin);
      }
      r := Ok(this);
    }

    /**
     Bind `cb` to `e`: a missing event name or a callback that is not a
     function changes nothing and yields no manager; otherwise `cb` goes to the
     end of the event's list.
     */
    method On(e: string, cb: CallbackArg) returns (r: PluginManager?)
      modifies this
      ensures e != "" && cb.Fn? ==> r == this && listeners == Subscribed(old(listeners), e, cb.id)
      ensures !(e != "" && cb.Fn?) ==> r == null && listeners == old(listeners)
      ensures plugins == old(plugins) && history == old(history) && effects == old(effects)
    {
      if !(e != "" && cb.Fn?) {
        return null;
      }
      listeners := listeners[e := OrEmpty(listeners, e)];
      listeners := listeners[e := listeners[e] + [cb.id]];
      r := this;
    }

    /**
     Unbind `cb` from `e`: scan the event's list from the end and splice out
     every copy of `cb`. An event with no list stays without one.
     */
    method Off(e: string, cb: CallbackArg) returns (r: PluginManager)
      modifies this
      ensures r == this
      ensures listeners ==
        if e in old(listeners) then old(listeners)[e := Unsubscribed(old(listeners)[e], cb)]
        else old(listeners)
      ensures plugins == old(plugins) && history == old(history) && effects == old(effects)
    {
      if e in listeners {
        var targets := listeners[e];
        ghost var original := targets;
        var i := |targets|;
        while i > 0
          invariant 0 <= i <= |original|
          invariant targets == original[..i] + Unsubscribed(original[i..], cb)
          invariant listeners == old(listeners) && plugins == old(plugins)
          invariant history == old(history) && effects == old(effects)
        {
          i := i - 1;
          assert original[i..] == [original[i]] + original[i + 1..];
          assert original[..i + 1] == original[..i] + [original[i]];
          assert targets[i] == original[i];
          if cb == Fn(targets[i]) {
            assert targets[i + 1..] == Unsubscribed(original[i + 1..], cb);
            targets := targets[..i] + targets[i + 1..];
          }
        }
        assert original[..0] == [] && original[0..] == original;
        assert targets == Unsubscribed(original, cb);
        listeners := listeners[e := targets];
      }
      r := this;
    }

    /** Append `args` to the history of `e`, creating that history if needed. */
    method Record(e: string, args: Args)
      modifies this
      ensures history == Recorded(old(history), e, args)
      ensures effects == old(effects) + [Stored(e, args)]
      ensures plugins == old(plugins) && listeners == old(listeners)
    {
      if e !in history {
        history := history[e := []];
      }
      history := history[e := history[e] + [args]];
      effects := effects + [Stored(e, args)];
    }

    /**
     Fire `e` with `args`: record first, whether or not anyone listens, then
     call every callback bound to `e`, in subscription order, with `args`.
     */
    method Trigger(e: string, args: Args) returns (r: PluginManager)
      modifies this
      ensures r == this
      ensures history == Recorded(old(history), e, args)
      ensures effects == old(effects) + [Stored(e, args)] + Dispatch(OrEmpty(old(listeners), e), args)
      ensures plugins == old(plugins) && listeners == old(listeners)
    {
      var targets := OrEmpty(listeners, e);
      Record(e, args);
      ghost var recorded := effects;
      for i := 0 to |targets|
        invariant effects == recorded + Dispatch(targets[..i], args)
        invariant history == Recorded(old(history), e, args)
        invariant plugins == old(plugins) && listeners == old(listeners)
      {
        assert targets[..i + 1][..i] == targets[..i];
        effects := effects + [Called(targets[i], args)];
      }
      assert targets[..|targets|] == targets;
      r := this;
    }

    /**
     Play the history of `spec` back into `cb`: an array of names replays
     each element in turn, recursively; a single name goes to `ReplayEvent`.
     */
    method Replay(spec: EventSpec, cb: CallbackId)
      modifies this
      ensures history == EventHistory.Replay(old(history), spec, cb).history
      ensures effects == old(effects) + EventHistory.Replay(old(history), spec, cb).calls
      ensures plugins == old(plugins) && listeners == old(listeners)
      decreases spec
    {
      match spec
      case Names(items) =>
        var i := 0;
        while i < |items|
          invariant 0 <= i <= |items|
          invariant history == ReplayAll(old(history), FlattenAll(items[..i]), cb).history
          invariant effects == old(effects) + ReplayAll(old(history), FlattenAll(items[..i]), cb).calls
          invariant plugins == old(plugins) && listeners == old(listeners)
        {
          ghost var done := FlattenAll(items[..i]);
          Replay(items[i], cb);
          assert items[..i + 1][..i] == items[..i];
          assert FlattenAll(items[..i + 1]) == done + Flatten(items[i]);
          ReplayAllAppend(old(history), done, Flatten(items[i]), cb);
          i := i + 1;
        }
        assert items[..|items|] == items;
      case Name(e) =>
        ReplayOneName(old(history), e, cb);
        ReplayEvent(e, cb);
    }

    /**
     The branch of `replay` for a single name: nothing happens when the name
     never fired; otherwise its stored entries are replayed by `ReplayEntries`.
     */
    method ReplayEvent(e: string, cb: CallbackId)
      modifies this
      ensures history == ReplayName(old(history), e, cb).history
      ensures effects == old(effects) + ReplayName(old(history), e, cb).calls
      ensures plugins == old(plugins) && listeners == old(listeners)
    {
      if e in history {
        ReplayEntries(e, cb);
      }
    }

    /**
     The loop of `replay` over the stored argument lists of `e`, oldest first:
     each gets the name inserted at its front (in the history itself) and is
     then passed to `cb`.
     */
    method ReplayEntries(e: string, cb: CallbackId)
      requires e in history
      modifies this
      ensures history == old(history)[e := Prepended(e, old(history)[e])]
      ensures effects == old(effects) + Invocations(cb, Prepended(e, old(history)[e]))
      ensures plugins == old(plugins) && listeners == old(listeners)
    {
      ghost var entries := history[e];
      var i := 0;
      var len := |history[e]|;
      assert entries[..0] == [] && entries[0..] == entries;
      assert Prepended(e, entries[..0]) + entries[0..] == entries;
      assert old(history)[e := entries] == old(history);
      while i < len
        invariant 0 <= i <= len == |entries|
        invariant e in history && history == old(history)[e := history[e]]
        invariant history[e] == Prepended(e, entries[..i]) + entries[i..]
        invariant effects == old(effects) + Invocations(cb, Prepended(e, entries[..i]))
        invariant plugins == old(plugins) && listeners == old(listeners)
      {
        PrependedStep(e, entries, i);
        InvocationsSnoc(cb, Prepended(e, entries[..i]), [Str(e)] + entries[i]);
        var args := history[e][i];
        args := [Str(e)] + args;
        history := history[e := history[e][i := args]];
        effects := effects + [Called(cb, args)];
        i := i + 1;
      }
      assert i == len && entries[..len] == entries && entries[len..] == [];
      assert history[e] == Prepended(e, entries);
    }
  }
}
