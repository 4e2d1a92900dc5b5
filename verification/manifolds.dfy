/** The manifold graph: nodes keyed by id and an adjacency list per source id. */
module Manifolds {
  import opened Errors

  datatype ManifoldNode = ManifoldNode(id: string, data: string)

  /** The value of a `Manifold`: what `clone` copies and what the pipeline stages hand on. */
  datatype Graph = Graph(nodes: map<string, ManifoldNode>, edges: map<string, seq<string>>)

  /** `Manifold::new`: no nodes and no adjacency entries. */
  const Empty: Graph := Graph(map[], map[])

  /** Every adjacency source and every adjacency target is a node of the graph. */
  ghost predicate EdgesClosed(g: Graph) {
    && (forall from :: from in g.edges ==> from in g.nodes)
    && (forall from, to :: from in g.edges && to in g.edges[from] ==> to in g.nodes)
  }

  /** The adjacency list of `from`; empty when it has none (`entry(..).or_default()`). */
  function Successors(g: Graph, from: string): seq<string> {
    if from in g.edges then g.edges[from] else []
  }

  function EdgeErrorMessage(from: string, to: string): string {
    "Cannot add edge from " + from + " to " + to + ": Node(s) not found"
  }

  /** `add_node`: insert or overwrite by id (last write wins), never fails. */
  function InsertNode(g: Graph, node: ManifoldNode): (r: Graph)
    ensures r.edges == g.edges
    ensures node.id in r.nodes && r.nodes[node.id] == node
    ensures forall id :: id != node.id ==>
              (id in r.nodes <==> id in g.nodes) && (id in g.nodes ==> r.nodes[id] == g.nodes[id])
    ensures r.nodes.Keys == g.nodes.Keys + {node.id}
    ensures |r.nodes| == if node.id in g.nodes then |g.nodes| else |g.nodes| + 1
  {
    Graph(g.nodes[node.id := node], g.edges)
  }

  /** `add_edge`: fails, changing nothing, when either endpoint is missing; otherwise
      appends `to` at the end of `from`'s list, keeping duplicates. */
  function InsertEdge(g: Graph, from: string, to: string): (r: UorResult<Graph>)
    ensures r.Err? <==> from !in g.nodes || to !in g.nodes
    ensures r.Err? ==> r.error == General(EdgeErrorMessage(from, to))
    ensures r.Ok? ==> r.value.nodes == g.nodes
    ensures r.Ok? ==> r.value.edges.Keys == g.edges.Keys + {from}
    ensures r.Ok? ==> r.value.edges[from] == Successors(g, from) + [to]
    ensures r.Ok? ==> forall k :: k in g.edges && k != from ==> r.value.edges[k] == g.edges[k]
  {
    if from !in g.nodes || to !in g.nodes then Err(General(EdgeErrorMessage(from, to)))
    else Ok(Graph(g.nodes, g.edges[from := Successors(g, from) + [to]]))
  }

  /** A sequence of `add_node` calls, in order. */
  function InsertNodes(g: Graph, ns: seq<ManifoldNode>): Graph {
    if ns == [] then g else InsertNode(InsertNodes(g, ns[..|ns| - 1]), ns[|ns| - 1])
  }

  function Ids(ns: seq<ManifoldNode>): set<string> {
    set n | n in ns :: n.id
  }

  lemma IdsSnoc(init: seq<ManifoldNode>, last: ManifoldNode)
    ensures Ids(init + [last]) == Ids(init) + {last.id}
  {
    var ns := init + [last];
    forall id | id in Ids(ns) ensures id in Ids(init) + {last.id} {
      var n :| n in ns && n.id == id;
      if n != last { assert n in init; }
    }
    forall id | id in Ids(init) ensures id in Ids(ns) {
      var n :| n in init && n.id == id;
      assert n in ns;
    }
    assert last in ns;
  }

  lemma {:induction false} InsertNodesKeys(g: Graph, ns: seq<ManifoldNode>)
    ensures InsertNodes(g, ns).nodes.Keys == g.nodes.Keys + Ids(ns)
    ensures InsertNodes(g, ns).edges == g.edges
  {
    if ns != [] {
      var init, last := ns[..|ns| - 1], ns[|ns| - 1];
      assert ns == init + [last];
      var prev := InsertNodes(g, init);
      assert InsertNodes(g, ns) == InsertNode(prev, last);
      InsertNodesKeys(g, init);
      IdsSnoc(init, last);
      assert InsertNodes(g, ns).nodes.Keys == prev.nodes.Keys + {last.id};
    }
  }

  /** Repeated inserts into a new manifold leave one node per distinct id. */
  lemma NodeCountIsDistinctIds(ns: seq<ManifoldNode>)
    ensures |InsertNodes(Empty, ns).nodes| == |Ids(ns)|
  {
    InsertNodesKeys(Empty, ns);
    assert InsertNodes(Empty, ns).nodes.Keys == Ids(ns);
  }

  /** The node stored under an id is the last one inserted with that id. */
  lemma {:induction false} LastWriteWins(g: Graph, ns: seq<ManifoldNode>, k: nat)
    requires k < |ns|
    requires forall j :: k < j < |ns| ==> ns[j].id != ns[k].id
    ensures ns[k].id in InsertNodes(g, ns).nodes
    ensures InsertNodes(g, ns).nodes[ns[k].id] == ns[k]
  {
    if k < |ns| - 1 {
      LastWriteWins(g, ns[..|ns| - 1], k);
    }
  }

  lemma InsertNodePreservesClosed(g: Graph, node: ManifoldNode)
    requires EdgesClosed(g)
    ensures EdgesClosed(InsertNode(g, node))
  {
  }

  lemma InsertEdgePreservesClosed(g: Graph, from: string, to: string)
    requires EdgesClosed(g)
    ensures InsertEdge(g, from, to).Ok? ==> EdgesClosed(InsertEdge(g, from, to).value)
  {
    if InsertEdge(g, from, to).Ok? {
      var r := InsertEdge(g, from, to).value;
      forall k, t | k in r.edges && t in r.edges[k] ensures t in r.nodes {
        if k != from {
          assert r.edges[k] == g.edges[k];
        } else if t != to {
          assert t in Successors(g, from);
        }
      }
    }
  }

  /** Adding the same edge twice keeps both copies, in order. */
  lemma DuplicateEdgesKept(g: Graph, from: string, to: string)
    requires from in g.nodes && to in g.nodes
    ensures var once := InsertEdge(g, from, to).value;
            && InsertEdge(once, from, to).Ok?
            && Successors(InsertEdge(once, from, to).value, from) == Successors(g, from) + [to, to]
  {
  }

  /** `Manifold`: the graph whose maps `add_node` and `add_edge` update in place. */
  class Manifold {
    var nodes: map<string, ManifoldNode>
    var edges: map<string, seq<string>>

    function Value(): Graph
      reads this
    {
      Graph(nodes, edges)
    }

    ghost predicate Valid()
      reads this
    {
      EdgesClosed(Value())
    }

    /** `Manifold::new`. */
    constructor ()
      ensures Value() == Empty
      ensures Valid()
    {
      nodes := map[];
      edges := map[];
    }

    /** `Manifold::add_node`. */
    method AddNode(node: ManifoldNode)
      modifies this
      ensures Value() == InsertNode(old(Value()), node)
      ensures old(Valid()) ==> Valid()
    {
      nodes := nodes[node.id := node];
      if old(Valid()) {
        InsertNodePreservesClosed(old(Value()), node);
      }
    }

    /** `Manifold::add_edge`: atomic; on failure neither map changes. */
    method AddEdge(from: string, to: string) returns (r: UorResult<()>)
      modifies this
      ensures r.Err? <==> InsertEdge(old(Value()), from, to).Err?
      ensures r.Err? ==> r.error == InsertEdge(old(Value()), from, to).error && Value() == old(Value())
      ensures r.Ok? ==> Value() == InsertEdge(old(Value()), from, to).value
      ensures old(Valid()) ==> Valid()
    {
      if from !in nodes || to !in nodes {
        return Err(General(EdgeErrorMessage(from, to)));
      }
      var list := if from in edges then edges[from] else [];
      edges := edges[from := list + [to]];
      r := Ok(());
      if old(Valid()) {
        InsertEdgePreservesClosed(old(Value()), from, to);
      }
    }
  }

  /** A caller's view of the basic operations: two nodes, then the edge `A -> B`, leave two
      nodes and one adjacency list holding just `B`; an edge between unknown ids fails. */
  method BuildTwoNodeManifold() returns (nodeCount: nat, edgeCount: nat, adjacency: seq<string>, missing: UorResult<()>)
    ensures nodeCount == 2 && edgeCount == 1 && adjacency == ["B"]
    ensures missing.Err? && missing.error.General?
  {
    var manifold := new Manifold();
    manifold.AddNode(ManifoldNode("A", "DataA"));
    manifold.AddNode(ManifoldNode("B", "DataB"));
    var added := manifold.AddEdge("A", "B");
    assert added.Ok?;
    assert manifold.nodes.Keys == {"A", "B"} && manifold.edges.Keys == {"A"};
    nodeCount, edgeCount, adjacency := |manifold.nodes|, |manifold.edges|, manifold.edges["A"];
    var empty := new Manifold();
    missing := empty.AddEdge("X", "Y");
  }
}
