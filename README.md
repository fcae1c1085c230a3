# MatterSound collision audio, modelled in Dafny

MatterSound is a matter-js plugin that plays a sound when physics bodies collide. The
plugin is built from a manifest of `{name, src}` audio definitions. Once every source has
loaded, it holds a table of named, loaded audio elements. The `Body.create` hook gives every
body a sound configuration. On each `collisionStart` event the plugin walks the colliding
pairs and asks one or both bodies to play.

A body's sound configuration has these parts:

- `audio`: the name of a table entry, or a resolver function.
- `alternateAudios`: an optional list of names played round-robin.
- `currentAudioIndex`: the round-robin index.
- `selfOnly`: when set, only that body sounds.

The model covers the plugin's collision-to-sound core, `src/lib/matter-sound/index.js`, in six modules:

- `Optional` (optional.dfy): `Option`. `None` stands for an absent or `undefined` JavaScript value.
- `Assets` (assets.dfy): manifest entries and their validity, rows of the loaded table, and
  the lookup by name (`audios.find`).
- `Bodies` (bodies.dfy): the sound configuration as a value, and the `Body` class whose
  `sound` field the plugin reads and writes.
- `Dispatch` (dispatch.dfy): the pure decisions, written as functions:
  - what one `playBodyCollisionAudio` request plays, whether it raises, and the new index (`Trigger`);
  - the `selfOnly` rule for a pair (`Decide`, `PairCalls`);
  - the requests of a whole event (`EventCalls`);
  - a sequence of requests applied to a log and a map of configurations (`Step`, `Run`).
- `Properties` (properties.dfy): lemmas that relate several requests:
  - composition;
  - an error ends the event;
  - round-robin cycling in closed form;
  - the unset-index quirk.
- `Plugin` (plugin.dfy): the `MatterSound` class. It holds the manifest, the loaded table and
  a log of every playback. Its methods are:
  - construction (`Create`);
  - the completion of loading (`Ready`);
  - `InitBody`;
  - `PlayBodyCollisionAudio`, written imperatively against the body's `sound` field;
  - the `collisionStart` handler (`CollisionStart`), a loop over the pairs. It is proved to
    leave the log and every body's configuration exactly as `Run` over `EventCalls` says.

Playing a cloned element and calling a resolver are not performed. Each is recorded as a
`Playback` appended to the plugin's log, carrying the body, the asset or resolver, the other
body where the source passes one, and the volume.

Three behaviours of the code are worth spelling out, and the model reproduces each as written:

- With `currentAudioIndex` unset, the first alternate played is the second entry of the list,
  not the first. Entries `['a','b','c']` play `'b'`, `'c'`, `'a'`, `'b'`
  (`FirstAlternateIsSecondEntry`, `AlternatesCycle`).
- An empty `alternateAudios` array is truthy, so it takes the alternates branch, finds no
  target and raises.
- A missing alternate raises when line 208 reads `targetAudio.name`. This happens after the
  `audio` branch has played, but before the alternate is played and before the index is
  written. The error is not caught: it leaves the `collisionStart` handler, so the remaining
  requests of that event are never made. Neither is B's request when A's raised (`Step`,
  `Run`, `ErrorEndsEvent`).

## Model

| member | source | states |
|---|---|---|
| `Plugin.MatterSound.Create` | src/lib/matter-sound/index.js:13-19 | Construction fails exactly when some entry lacks a non-empty `name` or `src` (the test of line 14, `Assets.ValidDef`). The load of every entry before the first invalid one is requested, in order, with its `src`. No entry after it is requested. A successful construction holds the manifest, has no table yet and an empty log. |
| `Plugin.MatterSound.Ready` | src/lib/matter-sound/index.js:20-29 | After loading, the table has the manifest's length and order. Row i is definition i with the i-th loaded element attached. |
| `Plugin.MatterSound.InitBody` | src/lib/matter-sound/index.js:52-58 | Afterwards the body always has a configuration. An existing one is kept unchanged; a body without one gets the empty configuration. |
| `Assets.Lookup` | src/lib/matter-sound/index.js:172-174 | A found index points into the table, at a row carrying the requested name. |
| `Assets.LookupFirst` | src/lib/matter-sound/index.js:204-206 | The row found is the first one with that name. Nothing is found exactly when no row carries the name. |
| `Dispatch.NextIndex` | src/lib/matter-sound/index.js:200-202 | The target index is always inside a non-empty list. From an index inside the list it is the successor modulo the length; from an index at or past the end it is 0. |
| `Dispatch.AudioBranch` | src/lib/matter-sound/index.js:167-196 | At most one playback, always of this body at the request's volume (`Dispatch.Volume`: the caller's, default 1, lines 167-169). A named `audio` plays the first row with that name, and plays nothing exactly when no row has it. A resolver `audio` is called once with the body, `otherBody` and the volume. No `audio` plays nothing. |
| `Dispatch.Trigger` | src/lib/matter-sound/index.js:166-223 | A request that raises leaves the index unchanged. |
| `Dispatch.TriggerOutcome` | src/lib/matter-sound/index.js:199-221 | The `audio` branch's playback always comes first. Without alternates nothing else happens. With alternates (even an empty list) the request raises exactly when the targeted name is missing, and then plays only the `audio` branch. Otherwise it plays that alternate last and moves the index onto it. |
| `Plugin.MatterSound.PlayBodyCollisionAudio` | src/lib/matter-sound/index.js:166-223 | The log grows by exactly what `Trigger` plays. The body's configuration changes only in `currentAudioIndex`, which becomes `Trigger`'s index. The error result is `Trigger`'s. |
| `Dispatch.Decide` | src/lib/matter-sound/index.js:108-127 | A sounds iff A is `selfOnly` or B is not. B sounds iff A is not `selfOnly`. Exactly one side sounds when either flag is set, and otherwise A sounds, then B. |
| `Dispatch.PairCalls` | src/lib/matter-sound/index.js:108-127 | The requests follow `Decide` side by side. Each passes the other body as `otherBody` and volume 1. |
| `Plugin.MatterSound.HandlePair` | src/lib/matter-sound/index.js:108-127 | Handling one pair leaves the heap exactly as running `PairCalls` on the model state says, error flag included. |
| `Plugin.MatterSound.HandleBoth` | src/lib/matter-sound/index.js:118-127 | With neither side `selfOnly`, the heap ends as A's step followed by B's step. When A's request raised, B's step changes nothing. |
| `Dispatch.EventCalls` | src/lib/matter-sound/index.js:74-138 | Every request of an event is for a configured body, and an event of n pairs issues between n and 2n requests. |
| `Properties.EventCallsBodies` | src/lib/matter-sound/index.js:77-127 | Every request of an event is for body A or body B of one of the event's pairs. |
| `Properties.EventCallsAt` | src/lib/matter-sound/index.js:77-127 | The pairs are handled in order: the requests from pair i on are pair i's requests, followed by those of the later pairs. |
| `Dispatch.Step` | src/lib/matter-sound/index.js:208-220 | One request keeps the set of configured bodies, and changes no configuration other than `currentAudioIndex`. Once an error has been raised, a further request changes nothing. |
| `Dispatch.Run` | src/lib/matter-sound/index.js:77-138 | A sequence of requests keeps the set of configured bodies and changes configurations only in `currentAudioIndex`. After an error nothing changes. |
| `Properties.RunAppend` | src/lib/matter-sound/index.js:77-138 | Requests compose: running `xs + ys` is running `xs`, then `ys` from the resulting state. |
| `Properties.PairRun` | src/lib/matter-sound/index.js:108-127 | A pair's requests amount to A's step alone, B's step alone, or A's step then B's, by the `selfOnly` rule. |
| `Properties.ErrorEndsEvent` | src/lib/matter-sound/index.js:204-210 | Once a request has raised, every later request of the event plays nothing and changes no configuration. |
| `Plugin.MatterSound.CollisionStart` | src/lib/matter-sound/index.js:74-139 | Every body of the event is configured. The final log, every body's configuration and the error result are those of `Run` over `EventCalls`, taken from the configurations at the start of the event. |
| `Properties.AlternateStep` | src/lib/matter-sound/index.js:199-221 | A request to a body whose alternates are all loaded, whatever its `audio`, plays the `audio` branch and then exactly the targeted alternate, and moves the index onto it, without error. |
| `Properties.AlternatesWalk` | src/lib/matter-sound/index.js:199-221 | k requests to such a body, whatever its `audio`, raise no error. Request i plays the `audio` branch and then the entry reached after i round-robin steps, and the index ends after k steps. |
| `Properties.AdvanceIsMod` | src/lib/matter-sound/index.js:200-202 | k round-robin steps from an index inside the list land on `(index + k) % length`. |
| `Properties.AlternatesCycle` | src/lib/matter-sound/index.js:199-221 | Successive requests cycle, whatever the body's `audio`: from index c, no error is raised, request i (from 1) plays the `audio` branch and then entry `(c + i) % n`, and after k requests the index is `(c + k) % n`. |
| `Properties.CyclePlaysWithoutAudio` | src/lib/matter-sound/index.js:199-221 | For a body without `audio`, each request plays exactly one entry: the j-th play (from 0) is entry `(c + j + 1) % n`. |
| `Properties.FirstAlternateIsSecondEntry` | src/lib/matter-sound/index.js:200-202 | With the index unset, whatever the `audio`, the first request plays the `audio` branch and then the list's second entry, and sets the index to 1. |

## Left out

- `src/lib/matter-sound/auxiliary.js` (`loadAudio`) is not part of this model. Loading is asynchronous browser I/O; `Ready` takes the loaded elements as an input sequence of opaque handles.
- The `ready` promise is modelled as the synchronous step `Ready`, and the `AssetLoadError` path (a failed load) is not modelled.
- `Plugin.MatterSound.Ready`: the table rows are fresh records. The source writes `element` into the caller's own manifest objects and reuses them as rows; that aliasing is not modelled.
- `cloneNode()`, setting `.volume`, `.play()` and `console.log` are foreign DOM calls. Each play is modelled only as an entry appended to the log.
- `Dispatch.AudioBranch`, `Dispatch.Step`, `Dispatch.Run`, `Plugin.MatterSound.CollisionStart`: a resolver function is opaque. Its call is recorded in the log, and it is assumed to return normally and to change no body's configuration. The source passes it `body` and `otherBody` and re-reads `body.plugin.sound` afterwards (lines 195-199). A resolver that throws would end the event just as a missing alternate does. One that edited a configuration would break two results: that requests change only `currentAudioIndex`, and that the handler decides every pair on the `selfOnly` flags held at the start of the event.
- The `install` hooks that `Matter.after` registers are matter-js plumbing. `InitBody` and `CollisionStart` are the operations those hooks call.
- The `beforeUpdate` velocity snapshot and the commented-out momentum-based volume (with `VOLUME_MAGNITUDE_MIN/MAX`) feed only dead code.
- The empty `collisionActive` and `collisionEnd` handlers do nothing.
- The `typeof bodyAudio === 'function'` branch at line 178 is never taken, because table rows are definition objects.
- `src/index.js` (demo wiring, rendering, input, instruments) is not part of this model.
- `Bodies.SoundConfig` holds only well-typed values: `currentAudioIndex` is a natural number (0 when unset, as `|| 0` reads it), and `alternateAudios` is a list of strings or absent. Other JavaScript values in those fields are not modelled.
- `Dispatch.Volume`: an explicit `volume: undefined` in the options, which `Object.assign` would copy over the default, is not modelled; an absent volume means 1.
- `Plugin.MatterSound.PlayBodyCollisionAudio` requires the table to be loaded and the body to be configured. The source would raise a `TypeError` on an unloaded table (unless there is neither a string `audio` nor `alternateAudios`), and on an unconfigured body. Both are treated as caller obligations: dispatch starts only after loading, and the `Body.create` hook configures every body.
- `Plugin.MatterSound.CollisionStart` requires every body of the event to be configured, for the same reason; the `TypeError` the source would raise otherwise is not modelled.
