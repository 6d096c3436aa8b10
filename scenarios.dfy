/**
 Small client programs of the manager. Each one uses only the contracts of
 `Registry` and states, with assertions, what the caller then knows.
 */
module Scenarios {
  import opened Membership
  import opened Subscriptions
  import opened EventHistory
  import opened Registry

  /** A bound callback receives the triggered arguments, and the history keeps them. */
  method PingReachesListener()
  {
    var m := new PluginManager();
    var bound := m.On("ping", Fn(7));
    assert bound == m;
    var fired := m.Trigger("ping", [Opaque(1)]);
    assert m.history["ping"] == [[Opaque(1)]];
    assert m.effects == [Stored("ping", [Opaque(1)]), Called(7, [Opaque(1)])];
  }

  /**
   A listener bound after the event fired gets nothing from `trigger`, but
   `replay` hands it the event name and the recorded arguments.
   */
  method LateListenerReplays()
  {
    var m := new PluginManager();
    var fired := m.Trigger("ping", [Opaque(1)]);
    var bound := m.On("ping", Fn(7));
    assert m.effects == [Stored("ping", [Opaque(1)])];
    ReplayOneName(m.history, "ping", 7);
    m.Replay(Name("ping"), 7);
    assert [[Opaque(1)]][..0] == [];
    assert Prepended("ping", []) == [];
    assert [Str("ping")] + [Opaque(1)] == [Str("ping"), Opaque(1)];
    assert Prepended("ping", [[Opaque(1)]]) == [[Str("ping"), Opaque(1)]];
    assert m.effects == [Stored("ping", [Opaque(1)]), Called(7, [Str("ping"), Opaque(1)])];
    assert m.history["ping"] == [[Str("ping"), Opaque(1)]];
  }

  /** A callback bound twice fires twice; one `off` unbinds both copies. */
  method DoubleBindingSingleUnbind()
  {
    var m := new PluginManager();
    var r := m.On("a", Fn(3));
    r := m.On("a", Fn(3));
    assert m.listeners["a"] == [3, 3];
    var t := m.Trigger("a", []);
    assert m.effects == [Stored("a", []), Called(3, []), Called(3, [])];
    var o := m.Off("a", Fn(3));
    assert m.listeners["a"] == [];
    t := m.Trigger("a", []);
    assert m.effects == [Stored("a", []), Called(3, []), Called(3, []), Stored("a", [])];
  }

  /** `on` refuses an empty name and a non-function, and then does not return the manager. */
  method OnIgnoresBadArguments()
  {
    var m := new PluginManager();
    var r := m.On("", Fn(1));
    assert r == null;
    r := m.On("a", NotAFunction);
    assert r == null && m.listeners == map[];
  }

  /** A plugin added twice is listed twice; removing it takes one copy away. */
  method AddTwiceRemoveOnce()
  {
    var m := new PluginManager();
    var p := new Plugin();
    var r := m.Add(Instance(p));
    r := m.Add(Instance(p));
    assert m.plugins == [p, p] && p.manager == m && p.initCount == 2;
    r := m.Remove(Instance(p));
    assert r == Ok(m) && m.plugins == [p];
    r := m.Add(NotAnInstance);
    assert r.Err? && m.plugins == [p];
  }
}
