/**
 * The Web Audio graph of the page, reduced to the directed connections
 * between the four nodes it uses: the microphone source, the highpass
 * biquad filter, the waveshaper (held in the global `distortion`) and the
 * context's destination.
 */
module Graph {
  datatype Node = Source | Highpass | Distortion | Destination

  type Edge = (Node, Node)
  type Edges = set<Edge>

  /** `a.connect(b)`: adds the connection a→b and nothing else; connecting twice is harmless. */
  function Connect(g: Edges, a: Node, b: Node): (r: Edges)
    ensures (a, b) in r
    ensures g <= r && r - g <= {(a, b)}
  {
    g + {(a, b)}
  }

  /** `a.disconnect()` with no argument: removes every outgoing connection of `a`. */
  function Disconnect(g: Edges, a: Node): (r: Edges)
    ensures r <= g
    ensures forall e :: e in r ==> e.0 != a
    ensures forall e :: e in g && e.0 != a ==> e in r
  {
    set e | e in g && e.0 != a
  }

  /** Removes every outgoing connection of the nodes in `ns`. */
  function DisconnectAll(g: Edges, ns: set<Node>): Edges
  {
    set e | e in g && e.0 !in ns
  }

  /** A connection out of `a` is undone by disconnecting `a`, whatever else the graph holds. */
  lemma DisconnectUndoesConnect(g: Edges, a: Node, b: Node)
    ensures Disconnect(Connect(g, a, b), a) == Disconnect(g, a)
  {
  }
}
