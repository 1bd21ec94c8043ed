# Mode switching of the live audio effects page

A Dafny model of the one piece of logic in `scripts/app.js`: the state
machine that switches the microphone's routing between three effects
(`mute`, `bypass`, `distortion`) and shows the active one on the page.

- `Graph` (graph.dfy): the Web Audio graph, reduced to a set of directed
  connections over the nodes `Source`, `Highpass`, `Distortion` (the
  waveshaper) and `Destination`. `connect(a, b)` adds a→b; `disconnect()` on a
  node removes all of its outgoing connections.
- `Effects` (effects.dfy): the `effects` table. Each effect has a label, a
  `set` routine (`Activate`) and a `clear` routine (`Deactivate`), plus a
  reference topology `Wiring` that each mode is meant to leave in place.
  The store's `mode` value is `NoMode` (the initial `''`, which has no table
  entry) or `Chosen(e)`.
- `Controller` (controller.dfy): the state machine as values. `Trap` is the
  Proxy's `set` trap. `InitIfNotDone` and `Click` are the lazy initialisation
  and the button handlers. `Run` handles a sequence of clicks. `Consistent`
  is the invariant the trap keeps from startup on. A label is shown for the
  mode, and the graph is empty before initialisation and exactly the mode's
  wiring after it.
- `Page` (page.dfy): the script in its own imperative form. The class
  `Store` has the fields `mode`, `initialized`, `display` (the text of
  `.state-container`) and `edges`. Its methods `Set`, `UpdateDom`,
  `UpdateAudio`, `SetEffect`, `ClearEffect`, `InitIfNotDone`, `Click` and
  `Startup` change those fields step by step. Each is proved to agree with
  the matching `Controller` function.

The outcome of `init()` (microphone access granted or not) is an input to
each click. The initial text of the page is a constructor parameter.
(`label` is a Dafny keyword, so the displayed text is called `display`.)

Two consequences of the code's sequencing:
- When `init()` rejects, the `await` at `scripts/app.js:64` throws inside
  the promise executor, so lines 65 and 67 never run and the handler never
  resumes. `initialized` stays false, the mode is not written, and the next
  click calls `init()` again (`Controller.Click`, `Controller.RunWithoutInit`,
  `Page.Store.InitIfNotDone`).
- After a failed first click the page still shows "MUTE" from the startup
  write at line 147 (`Controller.Startup`).

## Model

| member | source | states |
|---|---|---|
| `Graph.Connect` | scripts/app.js:32 | `connect` adds the connection a→b and no other |
| `Graph.Disconnect` | scripts/app.js:35 | `disconnect()` removes exactly the outgoing connections of the node and keeps every other one |
| `Graph.DisconnectUndoesConnect` | scripts/app.js:34-36 | disconnecting `a` undoes any `a.connect(b)`, whatever else is connected |
| `Effects.Label` | scripts/app.js:25-39 | each table entry has its own label, "MUTE", "BYPASS" or "DISTORTION", and the label identifies the mode |
| `Effects.Activate` | scripts/app.js:24-48 | each effect's `set` adds exactly that mode's reference wiring to the graph |
| `Effects.Deactivate` | scripts/app.js:27-53 | each effect's `clear` removes exactly the outgoing connections of the nodes it disconnects: none for mute, source for bypass, source, highpass and waveshaper for distortion |
| `Effects.WiringLeavesCleared` | scripts/app.js:23-55 | every connection a mode wires starts at a node that the same mode's `clear` disconnects |
| `Effects.MuteIsInert` | scripts/app.js:26-27 | mute's `set` and `clear` leave any graph unchanged |
| `Effects.BypassClearDisconnectsSource` | scripts/app.js:34-36 | bypass's `clear` removes a connection if and only if it leaves the source |
| `Effects.ClearCancelsSet` | scripts/app.js:29-53 | `clear` after `set` of the same effect equals `clear` alone, on every graph |
| `Effects.ClearOwnWiring` | scripts/app.js:29-53 | clearing a mode's own wiring leaves no connection |
| `Effects.SwitchEffect` | scripts/app.js:142-143 | clearing the old mode's wiring and then setting the new one gives exactly the new mode's wiring |
| `Effects.ReapplyIdempotent` | scripts/app.js:142-143 | clear-then-set of one effect, applied twice, equals applying it once, on every graph |
| `Effects.SetThenClearLosesWiring` | scripts/app.js:142-143 | the opposite order (set before clear) would leave bypass or distortion, written over itself, with no connection at all |
| `Controller.Initial` | scripts/app.js:8-11 | the target object starts uninitialised with no connection, and is not yet consistent: the startup write is still to come |
| `Controller.Assign` | scripts/app.js:14 | `target[key] = value` changes the written field only |
| `Controller.Throws` | scripts/app.js:137 | `updateDom` throws exactly when the mode after the write is `''`; no write the page issues throws once a table mode is set |
| `Controller.Rewire` | scripts/app.js:141-144 | `updateAudio`'s clear-then-set always leaves the new mode's wiring connected, and exactly that wiring when the graph held the old mode's wiring (or nothing, for `''`) |
| `Controller.Trap` | scripts/app.js:12-16 | the trap writes exactly the given field; afterwards the label is the mode's table label, or unchanged when `effects['']` makes `updateDom` throw; while `initialized` is false the graph is untouched |
| `Controller.TrapPreservesConsistent` | scripts/app.js:140-145 | every write the page issues keeps the invariant: table mode, its label shown, graph empty before initialisation and exactly the mode's wiring after |
| `Controller.ModeWriteWires` | scripts/app.js:140-145 | writing mode `e` shows `e`'s label and leaves `e`'s wiring, or no connection before initialisation |
| `Controller.InitializingRewiresCurrentMode` | scripts/app.js:12-16 | the write `initialized = true` keeps the mode and leaves the graph wired for it |
| `Controller.SameModeTwice` | scripts/app.js:142-143 | writing the same mode twice gives the same state as writing it once |
| `Controller.Startup` | scripts/app.js:147 | the startup write from `''` shows "MUTE", keeps `initialized` false, connects nothing and establishes the invariant |
| `Controller.Resumes` | scripts/app.js:61-69 | `initIfNotDone` resolves when the store was initialised or `init()` succeeds and the write of `initialized` does not throw; once the mode is a table key, exactly when initialised or `init()` succeeded |
| `Controller.InitIfNotDone` | scripts/app.js:61-69 | `initialized` becomes true exactly when it was true or `init()` succeeded; the mode is kept; the invariant is kept and a fresh initialisation wires the current mode |
| `Controller.Click` | scripts/app.js:57-69 | a click sets `initialized` exactly when it was already set or `init()` succeeds; a failed `init()` changes nothing; a resumed handler shows and selects the clicked mode |
| `Controller.ClickPreservesConsistent` | scripts/app.js:57-59 | a click keeps the invariant, and an initialised store ends with the clicked mode and exactly its wiring |
| `Controller.Run` | scripts/app.js:57-59 | after a sequence of clicks the store is initialised exactly when it was already, or some click's `init()` succeeded |
| `Controller.RunConsistent` | scripts/app.js:57-59 | after any sequence of clicks the invariant holds, and an initialised store is wired for the last mode clicked only |
| `Controller.RunKeepsInitialized` | scripts/app.js:63-65 | `initialized` never goes back to false |
| `Controller.RunWithoutInit` | scripts/app.js:61-69 | while every `init()` fails, clicks leave the whole state unchanged, so the mode is never written |
| `Controller.InitSucceedsAtMostOnce` | scripts/app.js:61-69 | across any clicks, `init()` is called and succeeds at most once, and never once `initialized` holds |
| `Page.Store.constructor` | scripts/app.js:8-11 | the store starts with mode `''`, `initialized` false and no connection |
| `Page.Store.Connect` | scripts/app.js:32 | the method adds the connection as `Graph.Connect` does |
| `Page.Store.Disconnect` | scripts/app.js:35 | the method removes the node's outgoing connections as `Graph.Disconnect` does |
| `Page.Store.SetEffect` | scripts/app.js:24-48 | the `set` routines, call by call, change the graph as `Effects.Activate` does |
| `Page.Store.ClearEffect` | scripts/app.js:27-53 | the `clear` routines, call by call, change the graph as `Effects.Deactivate` does |
| `Page.Store.UpdateDom` | scripts/app.js:136-138 | shows the mode's label, or throws and keeps the text when the mode is `''` |
| `Page.Store.UpdateAudio` | scripts/app.js:140-145 | leaves the graph alone until `initialized`, then clears the old effect (if it has one) and sets the new one |
| `Page.Store.Set` | scripts/app.js:12-17 | the trap, step by step, ends in the state `Controller.Trap` gives and reports the throw `Controller.Throws` predicts |
| `Page.Store.Startup` | scripts/app.js:147 | the startup write ends in `Controller.Startup` and in a consistent store |
| `Page.Store.InitIfNotDone` | scripts/app.js:61-69 | writes `initialized = true` only after a successful `init()`; resolves exactly when `Controller.Resumes` holds: the store was initialised, or `init()` succeeded and the mode is a table key so the write of `initialized` does not throw |
| `Page.Store.Click` | scripts/app.js:57-59 | a click ends in `Controller.Click`'s state, calls `init()` exactly when the store was not initialised, and keeps the invariant with the clicked mode's wiring once initialised |

## Left out

- DOM access (`querySelector`, `innerHTML`, `addEventListener`): the label is
  the `display` field and each click is a method call.
- The `getUserMedia` shim, the promise plumbing of `init()`
  (`scripts/app.js:71-120`), and the creation of the `AudioContext`, the
  media stream source and the nodes. The outcome of `init()` is a boolean
  input. A retried `init()` creates fresh nodes; the model keeps one
  abstract set of nodes, which is harmless because nothing is connected
  before initialisation succeeds.
- Node parameters (filter type, `frequency.value = 400`, the waveshaper's
  `curve`): configuration with no routing behaviour.
- `makeDistortionCurve` (`scripts/app.js:122-134`): floating-point numerics
  over a `Float32Array`, outside what the model states.
- Clicks that overlap while `init()` is pending: two handlers could both see
  `initialized == false`. The model treats each click as running to completion
  before the next, so interleavings of pending `init()` calls are not modelled.
- The Proxy's `get` trap: an identity pass-through.
- Writes of other strings to `mode`, and writes of `false` to `initialized`.
  The page issues neither. `mode` ranges over `''` and the three table
  keys, and the invariant lemmas ask for writes the page issues (`Issued`).
- The trap's `undefined` return value: the model assumes `scripts/app.js`
  runs as a classic, non-strict script, where an assignment through a `set`
  trap that returns a falsy value does not throw. Under strict mode (for
  instance loaded as an ES module) every store write would throw after the
  trap ran, so `resolve()` at line 67 would be skipped after line 65 and the
  first successful click would not write the mode; that variant is not
  modelled. The TypeError from `updateDom` is modelled by `Throws`.
