/**
 * The page script itself: the `store` object whose property writes run the
 * Proxy's `set` trap, the effect routines acting on the global audio nodes,
 * `updateDom`, `updateAudio`, `initIfNotDone` and the three click handlers.
 * Each method is proved to agree with the state machine of `Controller`.
 */
module Page {
  import Graph
  import opened Effects
  import Controller

  class Store {
    /** The proxied target: `{mode: '', initialized: false}`. */
    var mode: Mode
    var initialized: bool
    /** The text of the `.state-container` element. */
    var display: string
    /** The connections among `source`, `highpass`, `distortion` and the destination. */
    var edges: Graph.Edges

    function Snapshot(): Controller.State
      reads this
    {
      Controller.State(mode, initialized, display, edges)
    }

    /** The store as created, before the startup write; `pageLabel` is whatever the page shows initially. */
    constructor (pageLabel: string)
      ensures Snapshot() == Controller.Initial(pageLabel)
    {
      mode := NoMode;
      initialized := false;
      display := pageLabel;
      edges := {};
    }

    /** `a.connect(b)`. */
    method Connect(a: Graph.Node, b: Graph.Node)
      modifies this`edges
      ensures edges == Graph.Connect(old(edges), a, b)
    {
      edges := edges + {(a, b)};
    }

    /** `a.disconnect()`. */
    method Disconnect(a: Graph.Node)
      modifies this`edges
      ensures edges == Graph.Disconnect(old(edges), a)
    {
      edges := set x | x in edges && x.0 != a;
    }

    /** `effects[e].set(source, audioContext)`. */
    method SetEffect(e: Effect)
      modifies this`edges
      ensures edges == Activate(e, old(edges))
    {
      match e
      case Mute =>
      case Bypass =>
        Connect(Graph.Source, Graph.Destination);
      case Distortion =>
        Connect(Graph.Source, Graph.Highpass);
        Connect(Graph.Highpass, Graph.Distortion);
        Connect(Graph.Distortion, Graph.Destination);
    }

    /** `effects[e].clear(source, audioContext)`. */
    method ClearEffect(e: Effect)
      modifies this`edges
      ensures edges == Deactivate(e, old(edges))
    {
      match e
      case Mute =>
      case Bypass =>
        Disconnect(Graph.Source);
      case Distortion =>
        Disconnect(Graph.Source);
        Disconnect(Graph.Highpass);
        Disconnect(Graph.Distortion);
    }

    /**
     * `updateDom`: shows the current mode's label. Reading `.label` of the
     * missing entry `effects['']` throws, leaving the text as it was.
     */
    method UpdateDom() returns (threw: bool)
      modifies this`display
      ensures threw == mode.NoMode?
      ensures display == if threw then old(display) else Label(mode.effect)
    {
      if mode.NoMode? {
        threw := true;
      } else {
        threw := false;
        display := Label(mode.effect);
      }
    }

    /** `updateAudio(source, audioContext, newMode, oldMode)`: rewires only once `initialized` holds. */
    method UpdateAudio(newEffect: Effect, oldMode: Mode)
      modifies this`edges
      ensures edges == if initialized then Controller.Rewire(oldMode, newEffect, old(edges)) else old(edges)
    {
      if initialized {
        if oldMode.Chosen? {
          ClearEffect(oldMode.effect);
        }
        SetEffect(newEffect);
      }
    }

    /** A property write through the Proxy: the `set` trap. `threw` tells whether it raised. */
    method Set(w: Controller.Write) returns (threw: bool)
      modifies this
      ensures Snapshot() == Controller.Trap(old(Snapshot()), w)
      ensures threw == Controller.Throws(old(Snapshot()), w)
    {
      var oldMode := mode;
      match w {
        case ModeWrite(m) => mode := m;
        case InitializedWrite(b) => initialized := b;
      }
      threw := UpdateDom();
      if !threw {
        UpdateAudio(mode.effect, oldMode);
      }
    }

    /** The startup statement `store.mode = 'mute'`. */
    method Startup()
      requires Snapshot() == Controller.Initial(display)
      modifies this
      ensures Snapshot() == Controller.Startup(old(display))
      ensures Controller.Consistent(Snapshot())
    {
      var _ := Set(Controller.ModeWrite(Chosen(Mute)));
    }

    /**
     * `initIfNotDone`, with the outcome of `init()` given as `initOk`.
     * `resolved` is false when its promise never settles.
     */
    method InitIfNotDone(initOk: bool) returns (resolved: bool)
      modifies this
      ensures Snapshot() == Controller.InitIfNotDone(old(Snapshot()), initOk)
      ensures resolved == Controller.Resumes(old(Snapshot()), initOk)
    {
      if !initialized {
        if !initOk {
          // `await init()` throws inside the executor: `resolve` is never called.
          return false;
        }
        var threw := Set(Controller.InitializedWrite(true));
        if threw {
          return false;
        }
      }
      resolved := true;
    }

    /**
     * The click handler of the button for `e`. `initCalled` tells whether
     * `init()` was called; `resumed` whether the handler went on to write the mode.
     */
    method Click(e: Effect, initOk: bool) returns (initCalled: bool, resumed: bool)
      modifies this
      ensures Snapshot() == Controller.Click(old(Snapshot()), e, initOk)
      ensures initCalled == !old(initialized)
      ensures resumed == Controller.Resumes(old(Snapshot()), initOk)
      ensures Controller.Consistent(old(Snapshot())) ==> Controller.Consistent(Snapshot())
      ensures initialized && Controller.Consistent(old(Snapshot())) ==> mode == Chosen(e) && edges == Wiring(e)
    {
      ghost var before := Snapshot();
      if Controller.Consistent(before) {
        Controller.ClickPreservesConsistent(before, e, initOk);
      }
      initCalled := !initialized;
      resumed := InitIfNotDone(initOk);
      if resumed {
        var _ := Set(Controller.ModeWrite(Chosen(e)));
      }
    }
  }
}
