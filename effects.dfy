/**
 * The `effects` table: for each mode a display label, a `set` routine that
 * wires the graph for that mode and a `clear` routine that tears it down.
 */
module Effects {
  import Graph

  /** The three keys of the table. */
  datatype Effect = Mute | Bypass | Distortion

  /**
   * The value of the store's `mode` field: the initial empty string, which
   * has no entry in the table, or one of the table's keys.
   */
  datatype Mode = NoMode | Chosen(effect: Effect)

  /** `effects[e].label`. */
  function Label(e: Effect): (r: string)
    ensures r == "MUTE" <==> e == Mute
    ensures r == "BYPASS" <==> e == Bypass
    ensures r == "DISTORTION" <==> e == Distortion
  {
    match e
    case Mute => "MUTE"
    case Bypass => "BYPASS"
    case Distortion => "DISTORTION"
  }

  /** Reference topology: the connections that mode `e` is meant to leave in the graph. */
  function Wiring(e: Effect): Graph.Edges
  {
    match e
    case Mute => {}
    case Bypass => {(Graph.Source, Graph.Destination)}
    case Distortion =>
      {(Graph.Source, Graph.Highpass), (Graph.Highpass, Graph.Distortion), (Graph.Distortion, Graph.Destination)}
  }

  /** The nodes whose outgoing connections `effects[e].clear` drops. */
  function Disconnected(e: Effect): set<Graph.Node>
  {
    match e
    case Mute => {}
    case Bypass => {Graph.Source}
    case Distortion => {Graph.Source, Graph.Highpass, Graph.Distortion}
  }

  /** `effects[e].set`: adds exactly the wiring of `e` to what is already connected. */
  function Activate(e: Effect, g: Graph.Edges): (r: Graph.Edges)
    ensures r == g + Wiring(e)
  {
    match e
    case Mute => g
    case Bypass => Graph.Connect(g, Graph.Source, Graph.Destination)
    case Distortion =>
      var toFilter := Graph.Connect(g, Graph.Source, Graph.Highpass);
      var toShaper := Graph.Connect(toFilter, Graph.Highpass, Graph.Distortion);
      Graph.Connect(toShaper, Graph.Distortion, Graph.Destination)
  }

  /** `effects[e].clear`: drops every outgoing connection of the nodes `e` disconnects, and nothing else. */
  function Deactivate(e: Effect, g: Graph.Edges): (r: Graph.Edges)
    ensures r == Graph.DisconnectAll(g, Disconnected(e))
  {
    match e
    case Mute => g
    case Bypass => Graph.Disconnect(g, Graph.Source)
    case Distortion =>
      var s := Graph.Disconnect(g, Graph.Source);
      var h := Graph.Disconnect(s, Graph.Highpass);
      Graph.Disconnect(h, Graph.Distortion)
  }

  /** Every connection a mode wires starts at a node its own `clear` disconnects. */
  lemma WiringLeavesCleared(e: Effect)
    ensures forall x :: x in Wiring(e) ==> x.0 in Disconnected(e)
    ensures forall x :: x in Wiring(e) ==> x.1 == Graph.Destination || x.1 in Disconnected(e)
  {
  }

  /** `mute` neither connects nor disconnects anything. */
  lemma MuteIsInert(g: Graph.Edges)
    ensures Activate(Mute, g) == g
    ensures Deactivate(Mute, g) == g
  {
  }

  /** `bypass`'s `clear` removes every outgoing connection of the source and keeps all others. */
  lemma BypassClearDisconnectsSource(g: Graph.Edges)
    ensures forall x :: x in Deactivate(Bypass, g) <==> x in g && x.0 != Graph.Source
  {
  }

  /** `clear` after `set` of the same effect is the same as `clear` alone. */
  lemma ClearCancelsSet(e: Effect, g: Graph.Edges)
    ensures Deactivate(e, Activate(e, g)) == Deactivate(e, g)
  {
  }

  /** Clearing an effect's own wiring leaves the graph empty. */
  lemma ClearOwnWiring(e: Effect)
    ensures Deactivate(e, Wiring(e)) == {}
  {
  }

  /** Clearing the old effect's wiring and then setting the new one gives exactly the new wiring. */
  lemma SwitchEffect(from: Effect, to: Effect)
    ensures Activate(to, Deactivate(from, Wiring(from))) == Wiring(to)
  {
  }

  /** Clear-then-set of one effect is idempotent on every graph. */
  lemma ReapplyIdempotent(e: Effect, g: Graph.Edges)
    ensures Activate(e, Deactivate(e, Activate(e, Deactivate(e, g)))) == Activate(e, Deactivate(e, g))
  {
  }

  /**
   * The order matters: running `set` before `clear` when a mode that wires
   * something is written over itself would leave none of its wiring.
   */
  lemma SetThenClearLosesWiring(e: Effect)
    requires e != Mute
    ensures Deactivate(e, Activate(e, Wiring(e))) == {}
    ensures Deactivate(e, Activate(e, Wiring(e))) != Wiring(e)
  {
  }
}
