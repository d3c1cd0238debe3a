/** A model of the plugin registry of disnake.ext.plugins.

    The Python module keeps two globals: the bot reference `BOT` and the table
    `PLUGINS` from plugin name to plugin object. Here they are the two fields of
    a `Registry` object. `init(bot)` is `Registry.Init`, and the Python call
    `Plugin(name, **kwargs)`, which checks the table and inserts the new plugin
    into it, is `Registry.NewPlugin`.

    The bot is never called, only stored, so its type is the parameter `B`; the
    values of a plugin's state are of the opaque type `V`.
 */
module Plugins {

  datatype Option<+T> = None | Some(value: T)

  /** The only exception the registry raises. */
  datatype Error = ValueError(message: string)

  datatype Result<+T> = Ok(value: T) | Err(error: Error)

  /** The message of the ValueError raised for a name already in the table. */
  function DuplicateNameMessage(name: string): (m: string)
    ensures |m| == |name| + 34
    ensures m[..18] == "Plugin with name '"
    ensures m[18..|m| - 16] == name
    ensures m[|m| - 16..] == "' already exists"
  {
    "Plugin with name '" + name + "' already exists"
  }

  /** A named group of related code carrying a free-form state. */
  class Plugin<V> {
    // Assigned once, in the constructor: the registry's invariant rests on it.
    const name: string
    var state: map<string, V>

    /** The field assignments of the Python constructor; the registry check
        and insertion that surround them are in Registry.NewPlugin. */
    constructor (name: string, kwargs: map<string, V>)
      ensures this.name == name && state == kwargs
    {
      this.name := name;
      state := kwargs;
    }

    /** `repr(plugin)`: the name inside a fixed frame. */
    function Repr(): (r: string)
      ensures |r| == |name| + 16
      ensures r[..14] == "<Plugin name='"
      ensures r[14..|r| - 2] == name
      ensures r[|r| - 2..] == "'>"
    {
      "<Plugin name='" + name + "'>"
    }

    /** `str(plugin)`: the name itself. */
    function Str(): (s: string)
      ensures s == name
    {
      name
    }
  }

  /** Reads the name back out of a string shaped like `Plugin.Repr`. */
  function NameInRepr(r: string): (n: Option<string>)
    ensures n.Some? ==> |r| == |n.value| + 16
  {
    if |r| >= 16 && r[..14] == "<Plugin name='" && r[|r| - 2..] == "'>"
    then Some(r[14..|r| - 2])
    else None
  }

  /** Every key of the table names the plugin stored under it, so no two
      entries share a name. */
  predicate NamedByKey<V>(table: map<string, Plugin<V>>)
  {
    forall k :: k in table ==> table[k].name == k
  }

  /** What one construction of the plugin `p` does to the table: fail with a
      ValueError when its name is taken, otherwise add it under its name. */
  function Admit<V>(table: map<string, Plugin<V>>, p: Plugin<V>): (r: Result<map<string, Plugin<V>>>)
    ensures r.Ok? <==> p.name !in table
    ensures r.Err? ==> r.error == ValueError(DuplicateNameMessage(p.name))
    ensures r.Ok? ==> r.value.Keys == table.Keys + {p.name} && r.value[p.name] == p
    ensures r.Ok? ==> forall k :: k in table ==> r.value[k] == table[k]
    ensures r.Ok? ==> |r.value| == |table| + 1
    ensures r.Ok? && NamedByKey(table) ==> NamedByKey(r.value)
  {
    if p.name in table then Err(ValueError(DuplicateNameMessage(p.name)))
    else Ok(table[p.name := p])
  }

  /** The table after a series of constructions, and which of them succeeded. */
  datatype Run<V> = Run(table: map<string, Plugin<V>>, accepted: seq<bool>)

  /** Constructs the plugins `calls` one after another, starting from `table`;
      a failed construction leaves the table as it was and the series goes on. */
  function Replay<V>(table: map<string, Plugin<V>>, calls: seq<Plugin<V>>): (run: Run<V>)
    ensures |run.accepted| == |calls|
    ensures table.Keys <= run.table.Keys
    decreases |calls|
  {
    if calls == [] then Run(table, [])
    else
      var first := Admit(table, calls[0]);
      var rest := Replay(if first.Ok? then first.value else table, calls[1..]);
      Run(rest.table, [first.Ok?] + rest.accepted)
  }

  /** The table the first call of a series leaves for the rest of it. */
  function AfterFirst<V>(table: map<string, Plugin<V>>, p: Plugin<V>): (next: map<string, Plugin<V>>)
    ensures p.name in table ==> next == table
    ensures p.name !in table ==> next == table[p.name := p]
  {
    var first := Admit(table, p);
    if first.Ok? then first.value else table
  }

  /** A non-empty series is its first call followed by the rest of it. */
  lemma ReplayStep<V>(table: map<string, Plugin<V>>, calls: seq<Plugin<V>>)
    requires calls != []
    ensures Replay(table, calls).table == Replay(AfterFirst(table, calls[0]), calls[1..]).table
    ensures Replay(table, calls).accepted
      == [Admit(table, calls[0]).Ok?] + Replay(AfterFirst(table, calls[0]), calls[1..]).accepted
  {
  }

  /** The names of a series of plugins. */
  function NamesOf<V>(calls: seq<Plugin<V>>): (names: set<string>)
  {
    set i | 0 <= i < |calls| :: calls[i].name
  }

  /** The names of a non-empty series are its first name and those of the rest. */
  lemma NamesOfTail<V>(calls: seq<Plugin<V>>)
    requires calls != []
    ensures NamesOf(calls) == {calls[0].name} + NamesOf(calls[1..])
  {
    forall n | n in NamesOf(calls) ensures n in {calls[0].name} + NamesOf(calls[1..]) {
      var i :| 0 <= i < |calls| && calls[i].name == n;
      if i > 0 {
        assert calls[1..][i - 1] == calls[i];
      }
    }
    forall n | n in NamesOf(calls[1..]) ensures n in NamesOf(calls) {
      var i :| 0 <= i < |calls[1..]| && calls[1..][i].name == n;
      assert calls[i + 1] == calls[1..][i];
    }
  }

  /** The `i`th call is the first in the series to use its name. */
  predicate FirstUse<V>(calls: seq<Plugin<V>>, i: int)
    requires 0 <= i < |calls|
  {
    forall j :: 0 <= j < i ==> calls[j].name != calls[i].name
  }

  /** Call `i` of a series is the first use of its name exactly when call 0
      has another name and it is the first use among the rest of the calls. */
  lemma FirstUseTail<V>(calls: seq<Plugin<V>>, i: int)
    requires 0 < i < |calls|
    ensures FirstUse(calls, i) <==> calls[0].name != calls[i].name && FirstUse(calls[1..], i - 1)
  {
    if calls[0].name != calls[i].name && FirstUse(calls[1..], i - 1) {
      forall j | 0 < j < i ensures calls[j].name != calls[i].name {
        assert calls[j] == calls[1..][j - 1];
      }
    }
  }

  /** A construction in a series succeeds exactly when its name is neither in
      the starting table nor used by an earlier call of the series. */
  lemma {:induction false} ReplayAccepts<V>(table: map<string, Plugin<V>>, calls: seq<Plugin<V>>, i: int)
    requires 0 <= i < |calls|
    ensures Replay(table, calls).accepted[i] <==> calls[i].name !in table && FirstUse(calls, i)
    decreases |calls|
  {
    ReplayStep(table, calls);
    if i > 0 {
      var next := AfterFirst(table, calls[0]);
      ReplayAccepts(next, calls[1..], i - 1);
      FirstUseTail(calls, i);
      assert calls[1..][i - 1] == calls[i];
    }
  }

  /** After a series of constructions the table holds exactly the names it
      started with and those of the calls. */
  lemma {:induction false} ReplayKeys<V>(table: map<string, Plugin<V>>, calls: seq<Plugin<V>>)
    ensures Replay(table, calls).table.Keys == table.Keys + NamesOf(calls)
    decreases |calls|
  {
    if calls != [] {
      var next := AfterFirst(table, calls[0]);
      ReplayStep(table, calls);
      ReplayKeys(next, calls[1..]);
      NamesOfTail(calls);
    }
  }

  /** No entry the table started with is replaced by a series of
      constructions. */
  lemma {:induction false} ReplayKeeps<V>(table: map<string, Plugin<V>>, calls: seq<Plugin<V>>, k: string)
    requires k in table
    ensures k in Replay(table, calls).table && Replay(table, calls).table[k] == table[k]
    decreases |calls|
  {
    if calls != [] {
      var next := AfterFirst(table, calls[0]);
      ReplayStep(table, calls);
      ReplayKeeps(next, calls[1..], k);
    }
  }

  /** Each successful construction's plugin ends up under its own name. */
  lemma {:induction false} ReplayHolds<V>(table: map<string, Plugin<V>>, calls: seq<Plugin<V>>, i: int)
    requires 0 <= i < |calls| && Replay(table, calls).accepted[i]
    ensures calls[i].name in Replay(table, calls).table
    ensures Replay(table, calls).table[calls[i].name] == calls[i]
    decreases |calls|
  {
    ReplayStep(table, calls);
    var next := AfterFirst(table, calls[0]);
    if i == 0 {
      ReplayKeeps(next, calls[1..], calls[0].name);
    } else {
      assert calls[1..][i - 1] == calls[i];
      ReplayHolds(next, calls[1..], i - 1);
    }
  }

  /** A table whose keys name their plugins stays one through any series of
      constructions. */
  lemma {:induction false} ReplayNamed<V>(table: map<string, Plugin<V>>, calls: seq<Plugin<V>>)
    requires NamedByKey(table)
    ensures NamedByKey(Replay(table, calls).table)
    decreases |calls|
  {
    if calls != [] {
      ReplayStep(table, calls);
      ReplayNamed(AfterFirst(table, calls[0]), calls[1..]);
    }
  }

  /** Each successful construction grows the table by exactly one entry. */
  lemma {:induction false} ReplaySize<V>(table: map<string, Plugin<V>>, calls: seq<Plugin<V>>)
    ensures |Replay(table, calls).table| == |table| + multiset(Replay(table, calls).accepted)[true]
    decreases |calls|
  {
    if calls != [] {
      ReplayStep(table, calls);
      ReplaySize(AfterFirst(table, calls[0]), calls[1..]);
    }
  }

  /** After `init`, every name can be registered exactly once: the first
      construction using it succeeds and every later one fails. */
  lemma AfterInitOncePerName<V>(calls: seq<Plugin<V>>)
    ensures forall i :: 0 <= i < |calls| ==> (Replay(map[], calls).accepted[i] <==> FirstUse(calls, i))
    ensures forall i, j :: 0 <= i < j < |calls| && calls[i].name == calls[j].name ==> !Replay(map[], calls).accepted[j]
  {
    forall i | 0 <= i < |calls| ensures Replay(map[], calls).accepted[i] <==> FirstUse(calls, i) {
      ReplayAccepts(map[], calls, i);
    }
  }


  /** `repr` is read back to the plugin's name. */
  lemma ReprRoundTrip<V>(p: Plugin<V>)
    ensures NameInRepr(p.Repr()) == Some(p.name)
  {
    var r := p.Repr();
    assert r[..14] == "<Plugin name='";
    assert r[|r| - 2..] == "'>";
  }

  /** Two plugins with the same `repr` have the same name, and `repr` frames
      exactly what `str` gives. */
  lemma ReprDeterminesName<V>(p: Plugin<V>, q: Plugin<V>)
    requires p.Repr() == q.Repr()
    ensures p.name == q.name
    ensures p.Repr() == "<Plugin name='" + p.Str() + "'>"
  {
    ReprRoundTrip(p);
    ReprRoundTrip(q);
  }

  /** The module's globals: the stored bot and the table of plugins. */
  class Registry<B, V> {
    var bot: Option<B>
    var plugins: map<string, Plugin<V>>

    predicate Valid()
      reads this
    {
      NamedByKey(plugins)
    }

    /** The state at import: no bot, no plugins. */
    constructor ()
      ensures Valid() && bot == None && plugins == map[]
    {
      bot := None;
      plugins := map[];
    }

    /** `init(bot)`: empties the table and stores the bot. */
    method Init(b: B)
      modifies this
      ensures Valid() && plugins == map[] && bot == Some(b)
    {
      plugins := map[];
      bot := Some(b);
    }

    /** `Plugin(name, **kwargs)`: a name already in the table raises a
        ValueError and changes nothing; otherwise a new plugin with that name
        and state is created and added under its name. */
    method NewPlugin(name: string, kwargs: map<string, V>) returns (r: Result<Plugin<V>>)
      requires Valid()
      modifies this
      ensures Valid() && bot == old(bot)
      ensures r.Ok? <==> name !in old(plugins)
      ensures r.Err? ==> r.error == ValueError(DuplicateNameMessage(name)) && plugins == old(plugins)
      ensures r.Ok? ==> fresh(r.value) && r.value.name == name && r.value.state == kwargs
      ensures r.Ok? ==> Admit(old(plugins), r.value) == Ok(plugins)
    {
      if name in plugins {
        return Err(ValueError(DuplicateNameMessage(name)));
      }
      var p := new Plugin(name, kwargs);
      plugins := plugins[name := p];
      r := Ok(p);
    }
  }

  /** Constructing two plugins with the same, not yet registered name: the
      first succeeds with an empty state, the second raises and leaves the
      table holding the first. */
  method RegisterTwice<B, V>(reg: Registry<B, V>, name: string)
    returns (first: Result<Plugin<V>>, second: Result<Plugin<V>>)
    requires reg.Valid() && name !in reg.plugins
    modifies reg
    ensures reg.Valid() && reg.bot == old(reg.bot)
    ensures first.Ok? && first.value.name == name && first.value.state == map[]
    ensures second == Err(ValueError(DuplicateNameMessage(name)))
    ensures reg.plugins == old(reg.plugins)[name := first.value]
  {
    first := reg.NewPlugin(name, map[]);
    second := reg.NewPlugin(name, map[]);
  }

}
