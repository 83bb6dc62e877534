/** The context through which a local vertex function reads its vertex and records its effects. */
module VertexContext {
  import opened Options

  class Context<K, V, E, M> {
    var vertexValue: Option<V>
    var outMessages: seq<(K, M)>
    const edges: seq<(K, E)>
    const iteration: nat

    constructor (value: Option<V>, edges: seq<(K, E)>, iteration: nat)
      ensures vertexValue == value && outMessages == []
      ensures this.edges == edges && this.iteration == iteration
    {
      this.vertexValue := value;
      this.outMessages := [];
      this.edges := edges;
      this.iteration := iteration;
    }

    method SetNewVertexValue(value: V)
      modifies this`vertexValue
      ensures vertexValue == Some(value)
    {
      vertexValue := Some(value);
    }

    method SendMessage(target: K, message: M)
      modifies this`outMessages
      ensures outMessages == old(outMessages) + [(target, message)]
    {
      outMessages := outMessages + [(target, message)];
    }
  }

  /** One message to the target of every edge. */
  function Broadcast<K, E, M>(es: seq<(K, E)>, msg: M): seq<(K, M)> {
    seq(|es|, i requires 0 <= i < |es| => (es[i].0, msg))
  }

  /** Sending to every edge in turn. */
  method SendToAll<K, V, E, M>(context: Context<K, V, E, M>, message: M)
    modifies context`outMessages
    ensures context.outMessages == old(context.outMessages) + Broadcast(context.edges, message)
    ensures |context.outMessages| == |old(context.outMessages)| + |context.edges|
    ensures context.outMessages[..|old(context.outMessages)|] == old(context.outMessages)
    ensures forall i :: 0 <= i < |context.edges| ==>
              context.outMessages[|old(context.outMessages)| + i] == (context.edges[i].0, message)
  {
    for i := 0 to |context.edges|
      invariant context.outMessages == old(context.outMessages) + Broadcast(context.edges[..i], message)
    {
      context.SendMessage(context.edges[i].0, message);
    }
    assert context.edges[..|context.edges|] == context.edges;
  }
}
