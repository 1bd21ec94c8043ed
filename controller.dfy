/**
 * The mode-switching state machine, as values: the store's target object
 * together with the label shown on the page and the audio graph, the
 * Proxy's `set` trap, `initIfNotDone` and the click handlers.
 */
module Controller {
  import Graph
  import opened Effects

  /** The store's `mode` and `initialized`, the text of `.state-container`, and the graph's connections. */
  datatype State = State(mode: Mode, initialized: bool, display: string, edges: Graph.Edges)

  /** A property write `store.mode = …` or `store.initialized = …`. */
  datatype Write = ModeWrite(value: Mode) | InitializedWrite(flag: bool)

  /** The only writes the page issues: a table key to `mode`, `true` to `initialized`. */
  predicate Issued(w: Write)
  {
    match w
    case ModeWrite(m) => m.Chosen?
    case InitializedWrite(b) => b
  }

  /** The target object before any write, with the page's own initial text. */
  function Initial(pageLabel: string): (r: State)
    ensures !r.initialized && r.edges == {}
    ensures !Consistent(r)
  {
    State(NoMode, false, pageLabel, {})
  }

  /** `target[key] = value`: only the written field changes. */
  function Assign(s: State, w: Write): (r: State)
    ensures r.display == s.display && r.edges == s.edges
    ensures w.ModeWrite? ==> r.mode == w.value && r.initialized == s.initialized
    ensures w.InitializedWrite? ==> r.initialized == w.flag && r.mode == s.mode
  {
    match w
    case ModeWrite(m) => s.(mode := m)
    case InitializedWrite(b) => s.(initialized := b)
  }

  /**
   * `updateDom` throws a TypeError when the mode written is the empty string,
   * because `effects['']` is undefined; `updateAudio` is then never reached.
   */
  predicate Throws(s: State, w: Write)
    ensures Throws(s, w) <==> (w.ModeWrite? && w.value.NoMode?) || (w.InitializedWrite? && s.mode.NoMode?)
    ensures Issued(w) && s.mode.Chosen? ==> !Throws(s, w)
  {
    Assign(s, w).mode.NoMode?
  }

  /** The body of `updateAudio` once `initialized` holds: clear the old effect if it has one, then set the new one. */
  function Rewire(oldMode: Mode, newEffect: Effect, g: Graph.Edges): (r: Graph.Edges)
    ensures Wiring(newEffect) <= r
    ensures oldMode.NoMode? && g == {} ==> r == Wiring(newEffect)
    ensures oldMode.Chosen? && g == Wiring(oldMode.effect) ==> r == Wiring(newEffect)
  {
    var cleared := if oldMode.Chosen? then Deactivate(oldMode.effect, g) else g;
    Activate(newEffect, cleared)
  }

  /** The Proxy's `set` trap: remember the old mode, write the field, redraw the label, rewire the graph. */
  function Trap(s: State, w: Write): (r: State)
    ensures r.mode == (if w.ModeWrite? then w.value else s.mode)
    ensures r.initialized == (if w.InitializedWrite? then w.flag else s.initialized)
    ensures r.display == (if r.mode.Chosen? then Label(r.mode.effect) else s.display)
    ensures !r.initialized || r.mode.NoMode? ==> r.edges == s.edges
  {
    var t := Assign(s, w);
    if t.mode.NoMode? then t
    else
      var shown := t.(display := Label(t.mode.effect));
      if shown.initialized then shown.(edges := Rewire(s.mode, t.mode.effect, t.edges)) else shown
  }

  /**
   * The invariant the trap keeps once the startup write has run: a mode from
   * the table, its label on the page, and a graph that is empty before
   * initialisation and exactly the mode's wiring after it.
   */
  predicate Consistent(s: State)
  {
    && s.mode.Chosen?
    && s.display == Label(s.mode.effect)
    && s.edges == (if s.initialized then Wiring(s.mode.effect) else {})
  }

  /** Any issued write through the trap keeps the invariant. */
  lemma TrapPreservesConsistent(s: State, w: Write)
    requires Consistent(s) && Issued(w)
    ensures Consistent(Trap(s, w))
  {
  }

  /** With the invariant in force, a write leaves the graph wired for the mode written, or empty before initialisation. */
  lemma ModeWriteWires(s: State, e: Effect)
    requires Consistent(s)
    ensures Trap(s, ModeWrite(Chosen(e))).edges == (if s.initialized then Wiring(e) else {})
    ensures Trap(s, ModeWrite(Chosen(e))).display == Label(e)
  {
  }

  /**
   * `store.initialized = true` also runs the trap, with the old and the new
   * mode equal: the current effect is cleared and set again, and the graph
   * ends wired for the current mode.
   */
  lemma InitializingRewiresCurrentMode(s: State)
    requires Consistent(s)
    ensures Trap(s, InitializedWrite(true)).mode == s.mode
    ensures Trap(s, InitializedWrite(true)).edges == Wiring(s.mode.effect)
  {
  }

  /** Writing the same mode twice in a row ends in the same state as writing it once. */
  lemma SameModeTwice(s: State, e: Effect)
    requires Consistent(s)
    ensures Trap(Trap(s, ModeWrite(Chosen(e))), ModeWrite(Chosen(e))) == Trap(s, ModeWrite(Chosen(e)))
  {
  }

  /** The startup write `store.mode = 'mute'` from the empty mode. */
  function Startup(pageLabel: string): (r: State)
    ensures Consistent(r)
    ensures r.mode == Chosen(Mute) && !r.initialized && r.display == "MUTE" && r.edges == {}
  {
    Trap(Initial(pageLabel), ModeWrite(Chosen(Mute)))
  }

  /** Whether a click's `initIfNotDone` calls `init()`. */
  predicate CallsInit(s: State)
  {
    !s.initialized
  }

  /**
   * `initIfNotDone`: whether its promise resolves, the handler going on to
   * write the mode. It does not when `init()` rejects (the `await` throws
   * inside the executor, so `resolve` is never called), nor when the write of
   * `initialized` throws.
   */
  predicate Resumes(s: State, initOk: bool)
    ensures s.mode.Chosen? ==> (Resumes(s, initOk) <==> s.initialized || initOk)
    ensures !s.initialized && !initOk ==> !Resumes(s, initOk)
  {
    s.initialized || (initOk && !Throws(s, InitializedWrite(true)))
  }

  /** The state after `initIfNotDone`, whether or not it resolves. */
  function InitIfNotDone(s: State, initOk: bool): (r: State)
    ensures r.initialized == (s.initialized || initOk)
    ensures r.mode == s.mode
    ensures Consistent(s) ==> Consistent(r) && (r.initialized ==> r.edges == Wiring(s.mode.effect))
  {
    if s.initialized || !initOk then s else Trap(s, InitializedWrite(true))
  }

  /** A click on the button for `e`: `await initIfNotDone(); store.mode = e;`, with the outcome of `init()` given. */
  function Click(s: State, e: Effect, initOk: bool): (r: State)
    ensures r.initialized == (s.initialized || initOk)
    ensures !s.initialized && !initOk ==> r == s
    ensures Resumes(s, initOk) ==> r.mode == Chosen(e) && r.display == Label(e)
  {
    var t := InitIfNotDone(s, initOk);
    if Resumes(s, initOk) then Trap(t, ModeWrite(Chosen(e))) else t
  }

  /** A click keeps the invariant; when the store ends initialised the graph is exactly the clicked mode's wiring. */
  lemma ClickPreservesConsistent(s: State, e: Effect, initOk: bool)
    requires Consistent(s)
    ensures Consistent(Click(s, e, initOk))
    ensures Click(s, e, initOk).initialized ==>
      Click(s, e, initOk).mode == Chosen(e) && Click(s, e, initOk).edges == Wiring(e)
  {
  }

  /** One click: the button's mode and the outcome `init()` would have if it were called. */
  datatype Press = Press(effect: Effect, initOk: bool)

  /** A sequence of clicks, handled one after another. */
  function Run(s: State, presses: seq<Press>): (r: State)
    ensures r.initialized <==> s.initialized || exists i :: 0 <= i < |presses| && presses[i].initOk
    decreases |presses|
  {
    if presses == [] then s
    else
      var rest := presses[1..];
      assert forall i :: 0 <= i < |rest| ==> rest[i] == presses[i + 1];
      Run(Click(s, presses[0].effect, presses[0].initOk), rest)
  }

  /** How many clicks call `init()` and see it succeed. */
  function InitSuccesses(s: State, presses: seq<Press>): nat
    decreases |presses|
  {
    if presses == [] then 0
    else
      var here := if CallsInit(s) && presses[0].initOk then 1 else 0;
      here + InitSuccesses(Click(s, presses[0].effect, presses[0].initOk), presses[1..])
  }

  /** Every click sequence keeps the invariant; an initialised store ends wired for the last mode clicked. */
  lemma {:induction false} RunConsistent(s: State, presses: seq<Press>)
    requires Consistent(s)
    ensures Consistent(Run(s, presses))
    ensures Run(s, presses).initialized && presses != [] ==>
      Run(s, presses).mode == Chosen(presses[|presses| - 1].effect) &&
      Run(s, presses).edges == Wiring(presses[|presses| - 1].effect)
    decreases |presses|
  {
    if presses != [] {
      var p := presses[0];
      var t := Click(s, p.effect, p.initOk);
      ClickPreservesConsistent(s, p.effect, p.initOk);
      RunConsistent(t, presses[1..]);
      if |presses| > 1 {
        assert presses[1..][|presses[1..]| - 1] == presses[|presses| - 1];
      } else {
        assert presses[1..] == [];
      }
    }
  }

  /** `initialized` never returns to false once a click has set it. */
  lemma {:induction false} RunKeepsInitialized(s: State, presses: seq<Press>)
    requires s.initialized
    ensures Run(s, presses).initialized
    decreases |presses|
  {
    if presses != [] {
      RunKeepsInitialized(Click(s, presses[0].effect, presses[0].initOk), presses[1..]);
    }
  }

  /** While every `init()` has failed, the clicks change nothing at all: the mode is never written. */
  lemma {:induction false} RunWithoutInit(s: State, presses: seq<Press>)
    requires !Run(s, presses).initialized
    ensures Run(s, presses) == s
    decreases |presses|
  {
    if presses != [] {
      RunWithoutInit(Click(s, presses[0].effect, presses[0].initOk), presses[1..]);
    }
  }

  /** Initialisation succeeds at most once however many clicks there are; never after it already has. */
  lemma {:induction false} InitSucceedsAtMostOnce(s: State, presses: seq<Press>)
    ensures InitSuccesses(s, presses) <= 1
    ensures s.initialized ==> InitSuccesses(s, presses) == 0
    decreases |presses|
  {
    if presses != [] {
      var t := Click(s, presses[0].effect, presses[0].initOk);
      InitSucceedsAtMostOnce(t, presses[1..]);
    }
  }
}
