/**
 * The Graphviz graph the builder fills, abstracted to three dictionaries: clusters
 * (sub-graphs) by key, nodes by key and edges by (from, to, name). Every element is
 * retrieved or created by its key, so there is never more than one per key.
 */
module GraphStore {
  import opened Wrappers

  /** A cluster's label (field `text`: `label` is a Dafny keyword) and colour; a colour of None means the root graph's default. */
  datatype Cluster = Cluster(text: string, color: Option<string>)

  /** A node's label, fill colour and the clusters it has been placed in. */
  datatype Node = Node(text: string, fillColor: string, clusters: set<string>)

  /** An edge is identified by its two end nodes and its name. */
  datatype EdgeKey = EdgeKey(from: string, to: string, name: string)

  datatype Edge = Edge(color: string, penwidth: string, text: string)

  datatype Graph = Graph(clusters: map<string, Cluster>, nodes: map<string, Node>, edges: map<EdgeKey, Edge>)

  const EmptyGraph := Graph(map[], map[], map[])

  /**
   * A sub-graph as GetOrAddSubgraph creates it. Its label stands for the root
   * default, which every caller overwrites at once; None is the default colour.
   */
  const NewCluster := Cluster("", None)

  /**
   * A node as GetOrAddNode creates it, in no cluster yet. Its label and fill stand
   * for the root defaults, which every caller overwrites at once.
   */
  const NewNode := Node("", "", {})

  /**
   * GetOrAddSubgraph(key) followed by setting the label and, only when a colour
   * is given, the colour.
   */
  function WithCluster(g: Graph, key: string, text: string, color: Option<string>): (r: Graph)
    ensures r.clusters.Keys == g.clusters.Keys + {key}
    ensures r.clusters[key].text == text
    ensures color.Some? ==> r.clusters[key].color == color
    ensures color.None? ==> r.clusters[key].color == (if key in g.clusters then g.clusters[key].color else None)
    ensures forall k :: k in g.clusters && k != key ==> r.clusters[k] == g.clusters[k]
    ensures r.nodes == g.nodes && r.edges == g.edges
  {
    var c := if key in g.clusters then g.clusters[key] else NewCluster;
    g.(clusters := g.clusters[key := Cluster(text, if color.Some? then color else c.color)])
  }

  /**
   * GetOrAddNode(key) on the sub-graph `cluster`, followed by setting the label and
   * the fill colour. The node joins `cluster` and stays in the clusters it was in.
   */
  function WithNode(g: Graph, cluster: string, key: string, text: string, fillColor: string): (r: Graph)
    ensures r.nodes.Keys == g.nodes.Keys + {key}
    ensures r.nodes[key].text == text && r.nodes[key].fillColor == fillColor
    ensures r.nodes[key].clusters == (if key in g.nodes then g.nodes[key].clusters else {}) + {cluster}
    ensures forall k :: k in g.nodes && k != key ==> r.nodes[k] == g.nodes[k]
    ensures r.clusters == g.clusters && r.edges == g.edges
  {
    var n := if key in g.nodes then g.nodes[key] else NewNode;
    g.(nodes := g.nodes[key := Node(text, fillColor, n.clusters + {cluster})])
  }

  /** GetOrAddEdge(from, to, name) followed by setting colour, pen width and label. */
  function WithEdge(g: Graph, key: EdgeKey, color: string, penwidth: string, text: string): (r: Graph)
    ensures r.edges.Keys == g.edges.Keys + {key}
    ensures r.edges[key] == Edge(color, penwidth, text)
    ensures forall k :: k in g.edges && k != key ==> r.edges[k] == g.edges[k]
    ensures r.clusters == g.clusters && r.nodes == g.nodes
  {
    g.(edges := g.edges[key := Edge(color, penwidth, text)])
  }

  /**
   * Asking twice for the same cluster key yields one cluster: the second label wins,
   * and the colour is the second one if given, else the first one if given, else
   * whatever the cluster had.
   */
  lemma RepeatedClusterRequest(g: Graph, key: string, label1: string, color1: Option<string>, label2: string, color2: Option<string>)
    ensures var r := WithCluster(WithCluster(g, key, label1, color1), key, label2, color2);
      && r.clusters.Keys == g.clusters.Keys + {key}
      && r.clusters[key].text == label2
      && r.clusters[key].color == (if color2.Some? then color2 else if color1.Some? then color1
                                   else if key in g.clusters then g.clusters[key].color else None)
  {
  }

  /** Asking twice for the same node key yields one node, labelled and filled by the second request. */
  lemma RepeatedNodeRequest(g: Graph, cluster1: string, cluster2: string, key: string,
                            label1: string, fill1: string, label2: string, fill2: string)
    ensures var r := WithNode(WithNode(g, cluster1, key, label1, fill1), cluster2, key, label2, fill2);
      && r.nodes.Keys == g.nodes.Keys + {key}
      && r.nodes[key].text == label2 && r.nodes[key].fillColor == fill2
      && {cluster1, cluster2} <= r.nodes[key].clusters
  {
  }

  /** Asking twice for the same edge key yields one edge, with the second request's attributes. */
  lemma RepeatedEdgeRequest(g: Graph, key: EdgeKey, color1: string, penwidth1: string, label1: string,
                            color2: string, penwidth2: string, label2: string)
    ensures WithEdge(WithEdge(g, key, color1, penwidth1, label1), key, color2, penwidth2, label2)
         == WithEdge(g, key, color2, penwidth2, label2)
  {
  }

  /** The Graphviz root graph, updated in place by the builder. */
  class RootGraph {
    var clusters: map<string, Cluster>
    var nodes: map<string, Node>
    var edges: map<EdgeKey, Edge>

    /** RootGraph.CreateNew: a graph with no clusters, nodes or edges. */
    constructor ()
      ensures Value() == EmptyGraph
    {
      clusters, nodes, edges := map[], map[], map[];
    }

    /** The graph as a value. */
    function Value(): Graph
      reads this
    {
      Graph(clusters, nodes, edges)
    }
  }
}
