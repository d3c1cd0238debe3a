# disnake-ext-plugins: the plugin registry, in Dafny

This project models the plugin registry of `disnake.ext.plugins`. The Python
module keeps two globals: `BOT`, the bot the plugins belong to, and
`PLUGINS`, a dictionary from plugin name to `Plugin` object. `init(bot)`
empties the dictionary in place and stores the bot. Constructing
`Plugin(name, **kwargs)` raises `ValueError` when the name is already in the
dictionary; otherwise it sets the plugin's `name` and `state` and inserts the
plugin under its name. `str` and `repr` of a plugin show its name.

In `plugin.dfy`, module `Plugins`:

- `Registry<B, V>` is a class holding the two globals as the fields `bot`
  (an `Option<B>`) and `plugins` (a `map<string, Plugin<V>>`). Its
  constructor is the state at import time. `Init` is `init(bot)`.
  `NewPlugin` is the Python call `Plugin(name, **kwargs)`: the guard, the
  construction and the insertion. Its `Valid()` invariant says that every key
  names the plugin stored under it.
- `Plugin<V>` is a class with the constant field `name` and the mutable field
  `state`. Its constructor is the two field assignments. `Repr` and `Str`
  are `__repr__` and `__str__`.
- `Admit` is the value-level specification of one construction: what it
  does to the table. `Replay` runs a series of constructions and records
  which succeeded. The lemmas about these two state the registry's promises
  for any sequence of calls. `NewPlugin`'s postcondition ties the method to
  `Admit`.
- The bot type `B` and the state value type `V` are type parameters. The bot
  is only stored, never called.

The Python code does not check that `init` was called before a plugin is
constructed, so `NewPlugin` does not require it either.

## Model

| member | source | states |
|---|---|---|
| Plugins.DuplicateNameMessage | disnake/ext/plugins/plugin.py:52 | The error message is the fixed text around the offending name, and the name can be read back from it |
| Plugins.Plugin.constructor | disnake/ext/plugins/plugin.py:54-55 | The new plugin's name is the argument and its state is exactly the keyword arguments (the empty map when none are given) |
| Plugins.Plugin.Repr | disnake/ext/plugins/plugin.py:59-60 | `repr` is the prefix `<Plugin name='`, then the name, then the suffix `'>` |
| Plugins.Plugin.Str | disnake/ext/plugins/plugin.py:62-63 | `str` is the plugin's name exactly |
| Plugins.ReprRoundTrip | disnake/ext/plugins/plugin.py:59-60 | Parsing `repr` back as `<Plugin name='…'>` gives exactly the plugin's name |
| Plugins.ReprDeterminesName | disnake/ext/plugins/plugin.py:59-63 | Two plugins with equal `repr` have equal names, and `repr` is `<Plugin name='` + `str` + `'>` |
| Plugins.Admit | disnake/ext/plugins/plugin.py:50-57 | One construction succeeds exactly when the name is not taken; on failure it is a ValueError with the duplicate-name message; on success the name is added with the new plugin, no other entry changes, the size grows by one and the key-names-plugin invariant is kept |
| Plugins.Replay | disnake/ext/plugins/plugin.py:50-57 | A series of constructions reports one outcome per call and never removes a name |
| Plugins.ReplayAccepts | disnake/ext/plugins/plugin.py:51-57 | In a series of constructions, a call succeeds if and only if its name was neither in the starting table nor used by an earlier call |
| Plugins.ReplayKeys | disnake/ext/plugins/plugin.py:51-57 | After a series, the table's names are exactly the starting names plus the names of the calls |
| Plugins.ReplayKeeps | disnake/ext/plugins/plugin.py:51-52 | A series of constructions never replaces an entry that was already in the table |
| Plugins.ReplayHolds | disnake/ext/plugins/plugin.py:57 | Every successful call's plugin is in the final table under its own name |
| Plugins.ReplayNamed | disnake/ext/plugins/plugin.py:54-57 | The invariant that every key names the plugin stored under it survives any series of constructions |
| Plugins.ReplaySize | disnake/ext/plugins/plugin.py:51-57 | The table grows by exactly the number of successful calls |
| Plugins.AfterInitOncePerName | disnake/ext/plugins/plugin.py:23-57 | Starting from the empty table `init` leaves, a call succeeds if and only if it is the first use of its name, so every later call with that name fails |
| Plugins.Registry.constructor | disnake/ext/plugins/plugin.py:17-18 | Before `init` there is no bot and no plugin |
| Plugins.Registry.Init | disnake/ext/plugins/plugin.py:23-27 | `init` leaves the table empty and the stored bot equal to the argument |
| Plugins.Registry.NewPlugin | disnake/ext/plugins/plugin.py:50-57 | A taken name raises ValueError and changes nothing; otherwise a fresh plugin with that name and state is added exactly as `Admit` says; the bot is untouched and the invariant is kept |
| Plugins.RegisterTwice | tests/test_plugins.py:12-14 | Constructing a free name twice: the first call returns a plugin with that name and an empty state, the second raises the duplicate-name ValueError, and the table gains exactly the first plugin |

## Left out

- The bot types (`Bot`, `InteractionBot` and the auto-sharded variants) belong to the host framework; the bot is the type parameter `B` and is only stored.
- Plugins.Registry.NewPlugin: accepts `name` or `self` among the keyword arguments, where Python's argument binding raises TypeError before the constructor body runs; the model has no TypeError.
- `__slots__` and the typing of `**kwargs` are Python details; `state` is a `map<string, V>`.
- Allocation order: Python allocates the object before the duplicate-name check raises; the model allocates only on success, since that object is neither stored in the table nor returned to the caller.
- Rebinding the name: Python could rebind `name` after construction; the model makes it a constant, as the registry's uniqueness depends on it never changing.
- `init` empties the dictionary in place, so other references to the same dictionary see it empty; the model has one table and no aliases of it.
- Loading, unloading, command decorators and the host framework's `add_plugin` are not part of `plugin.py` and are not modelled; neither is a check that `init` was called first.
