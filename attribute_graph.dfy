/** The attributed adjacency graph saved for each unit of work
    (`get_igraph_graph`): an igraph graph whose vertices are the areas that
    occur in some edge of the contiguity graph, named after them, joined as
    in that graph, and carrying each area's production vector as the vertex
    attribute `x`. */
module AttributeGraph {
  import opened Text
  import opened Instance

  /** `[v for edge in edges for v in edge]`, as a set. */
  function Endpoints(es: seq<(string, string)>): (vs: set<string>)
    ensures forall e :: e in es ==> e.0 in vs && e.1 in vs
    ensures forall v :: v in vs ==> exists e :: e in es && (v == e.0 || v == e.1)
  {
    if |es| == 0 then {} else {es[0].0, es[0].1} + Endpoints(es[1..])
  }

  /** The first position of `v` in `names`. */
  function IndexOf(names: seq<string>, v: string): (k: nat)
    requires v in names
    ensures k < |names| && names[k] == v
    ensures forall j :: 0 <= j < k ==> names[j] != v
  {
    if names[0] == v then 0 else 1 + IndexOf(names[1..], v)
  }

  /** `geo.loc[id]`: the row whose index label is `id`. The index (the
      CVEGEO key) is taken to be unique; were a label repeated, pandas would
      return all of its rows, which this function does not model. */
  function RowOf(rows: seq<Area>, id: string): (a: Area)
    requires id in Ids(rows)
    ensures a in rows && a.id == id
  {
    rows[IndexOf(Ids(rows), id)]
  }

  /** Edges given by vertex names, turned into pairs of vertex positions. */
  function Resolve(names: seq<string>, es: seq<(string, string)>): (r: seq<(nat, nat)>)
    requires forall k :: 0 <= k < |es| ==> es[k].0 in names && es[k].1 in names
    ensures |r| == |es|
    ensures forall k :: 0 <= k < |r| ==>
              r[k].0 < |names| && r[k].1 < |names| && (names[r[k].0], names[r[k].1]) == es[k]
  {
    seq(|es|, k requires 0 <= k < |es| => (IndexOf(names, es[k].0), IndexOf(names, es[k].1)))
  }

  /** An igraph graph: vertex `k` is named `names[k]` and carries the
      attribute `x[k]` (None until it is set); each edge joins two vertex
      positions. */
  class IGraph {
    var names: seq<string>
    var edgeList: seq<(nat, nat)>
    var x: seq<Option<seq<real>>>

    ghost predicate Valid()
      reads this
    {
      && |x| == |names|
      && forall k :: 0 <= k < |edgeList| ==> edgeList[k].0 < |names| && edgeList[k].1 < |names|
    }

    /** The edges, by the names of their end vertices. */
    function EdgesByName(): (es: seq<(string, string)>)
      reads this
      requires Valid()
      ensures |es| == |edgeList|
    {
      var ends, ns := edgeList, names;
      seq(|ends|, k requires 0 <= k < |ends| && ends[k].0 < |ns| && ends[k].1 < |ns| =>
        (ns[ends[k].0], ns[ends[k].1]))
    }

    /** `ig.Graph()`: no vertices, no edges. */
    constructor ()
      ensures Valid() && names == [] && edgeList == [] && x == []
    {
      names := [];
      edgeList := [];
      x := [];
    }

    /** `add_vertices(vs)`: one new vertex per name, after the existing ones,
        with no attribute value yet. */
    method AddVertices(vs: seq<string>)
      requires Valid()
      modifies this
      ensures Valid()
      ensures names == old(names) + vs && edgeList == old(edgeList)
      ensures x == old(x) + seq(|vs|, k => None)
    {
      names := names + vs;
      x := x + seq(|vs|, k => None);
    }

    /** `add_edges(es)` with edges given by vertex names: every name is
        looked up and the edges are appended in order; if some name is not
        a vertex the call fails and the graph is left as it was. */
    method AddEdges(es: seq<(string, string)>) returns (ok: bool)
      requires Valid()
      modifies this
      ensures Valid() && names == old(names) && x == old(x)
      ensures ok <==> forall k :: 0 <= k < |es| ==> es[k].0 in names && es[k].1 in names
      ensures ok ==> edgeList == old(edgeList) + Resolve(names, es)
      ensures ok ==> EdgesByName() == old(EdgesByName()) + es
      ensures !ok ==> edgeList == old(edgeList)
    {
      ok := forall k :: 0 <= k < |es| ==> es[k].0 in names && es[k].1 in names;
      if ok {
        ghost var before := EdgesByName();
        var added := Resolve(names, es);
        edgeList := edgeList + added;
        forall k | 0 <= k < |es| ensures EdgesByName()[|before| + k] == es[k] {
          assert edgeList[|before| + k] == added[k];
        }
        assert EdgesByName() == before + es;
      }
    }

    /** `vs["x"] = xs`: the attribute of vertex `k` becomes `xs[k]`. */
    method SetX(xs: seq<seq<real>>)
      requires Valid() && |xs| == |names|
      modifies this
      ensures Valid() && names == old(names) && edgeList == old(edgeList)
      ensures x == seq(|xs|, k requires 0 <= k < |xs| => Some(xs[k]))
    {
      x := seq(|xs|, k requires 0 <= k < |xs| => Some(xs[k]));
    }
  }

  /** `list(s)` of a set: every element once, in an order the set does not
      fix (any order is allowed here). */
  method Enumerate(s: set<string>) returns (r: seq<string>)
    ensures Distinct(r)
    ensures forall v :: v in r <==> v in s
  {
    r := [];
    var rest := s;
    while rest != {}
      invariant rest <= s
      invariant Distinct(r)
      invariant forall v :: v in r <==> v in s && v !in rest
      decreases rest
    {
      var v :| v in rest;
      r := r + [v];
      rest := rest - {v};
    }
  }

  /** What `get_igraph_graph` builds, as a value: the vertex names, the
      edges by name in `G_nx.edges` order, and the vector of every vertex. */
  datatype AttrGraph = AttrGraph(vertices: set<string>, edges: seq<(string, string)>,
                                 attrs: map<string, seq<real>>)

  /** Every pair listed by `Edges` joins two nodes of the graph. */
  lemma EndpointsAreNodes(g: Graph)
    requires g.WellFormed()
    ensures forall v :: v in Endpoints(Edges(g)) ==> v in g.nodes
  {
    forall v | v in Endpoints(Edges(g))
      ensures v in g.nodes
    {
      var e :| e in Edges(g) && (v == e.0 || v == e.1);
      var a, b := EdgesFromSound(g, 0, e);
    }
  }

  /** ... and so a row of the table, when every node is. */
  lemma EndpointsAreRows(g: Graph, geo: seq<Area>)
    requires g.WellFormed()
    requires forall k :: 0 <= k < |g.nodes| ==> g.nodes[k] in Ids(geo)
    ensures forall v :: v in Endpoints(Edges(g)) ==> v in Ids(geo)
  {
    EndpointsAreNodes(g);
    forall v | v in Endpoints(Edges(g)) ensures v in Ids(geo) {
      var j :| 0 <= j < |g.nodes| && g.nodes[j] == v;
    }
  }

  /** The specification of `get_igraph_graph(G_nx, geo)`. */
  function IGraphOf(g: Graph, geo: seq<Area>): (r: AttrGraph)
    requires g.WellFormed()
    requires forall k :: 0 <= k < |g.nodes| ==> g.nodes[k] in Ids(geo)
    ensures r.vertices == r.attrs.Keys && r.edges == Edges(g)
    ensures forall e :: e in r.edges ==> e.0 in r.vertices && e.1 in r.vertices
    ensures forall v :: v in r.vertices ==>
              exists k :: 0 <= k < |geo| && geo[k].id == v && r.attrs[v] == geo[k].attrs
  {
    EndpointsAreNodes(g);
    var vs := Endpoints(Edges(g));
    AttrGraph(vs, Edges(g), map v | v in vs :: RowOf(geo, v).attrs)
  }

  /** The `vectors` loop of `get_igraph_graph` and `list(vectors.values())`:
      the production vector of every name, stored under that name, read
      back in the order the names were first stored. */
  method CollectVectors(names: seq<string>, geo: seq<Area>) returns (values: seq<seq<real>>)
    requires Distinct(names)
    requires forall i :: 0 <= i < |names| ==> names[i] in Ids(geo)
    ensures |values| == |names|
    ensures forall i :: 0 <= i < |names| ==> values[i] == RowOf(geo, names[i]).attrs
  {
    var vectors: map<string, seq<real>> := map[];
    var keys: seq<string> := [];
    var k := 0;
    while k < |names|
      invariant 0 <= k <= |names|
      invariant keys == names[..k]
      invariant forall v :: v in vectors <==> v in names[..k]
      invariant forall i :: 0 <= i < k ==> vectors[names[i]] == RowOf(geo, names[i]).attrs
    {
      var v := names[k];
      if v !in vectors {
        keys := keys + [v];
      }
      vectors := vectors[v := RowOf(geo, v).attrs];
      assert names[..k + 1] == names[..k] + [v];
      k := k + 1;
    }
    assert keys == names;
    values := seq(|keys|, i requires 0 <= i < |keys| => vectors[keys[i]]);
  }

  /** `get_igraph_graph`: the vertices are the end points of the edges of
      `G_nx`, listed once each in the order the set gives; the edges are
      added by name; then every vertex gets the production vector of its
      row, collected through the `vectors` dictionary in vertex order. */
  method GetIGraphGraph(gnx: Graph, geo: seq<Area>) returns (G: IGraph)
    requires gnx.WellFormed()
    requires forall k :: 0 <= k < |gnx.nodes| ==> gnx.nodes[k] in Ids(geo)
    ensures fresh(G) && G.Valid() && Distinct(G.names)
    ensures forall v :: v in G.names <==> v in IGraphOf(gnx, geo).vertices
    ensures G.EdgesByName() == IGraphOf(gnx, geo).edges
    ensures forall k :: 0 <= k < |G.names| ==> G.x[k] == Some(IGraphOf(gnx, geo).attrs[G.names[k]])
  {
    G := new IGraph();
    var edges := Edges(gnx);
    var vertices := Enumerate(Endpoints(edges));
    G.AddVertices(vertices);
    var ok := G.AddEdges(edges);
    assert ok;
    var names := G.names;
    EndpointsAreRows(gnx, geo);
    var values := CollectVectors(names, geo);
    G.SetX(values);
    ghost var spec := IGraphOf(gnx, geo);
    assert spec.vertices == Endpoints(edges) && spec.edges == edges;
    assert G.names == vertices;
    forall k | 0 <= k < |G.names| ensures G.x[k] == Some(spec.attrs[G.names[k]]) {
      assert G.x[k] == Some(values[k]);
    }
  }

  /** The vertices of the attributed graph are exactly the areas that have
      at least one neighbour in the contiguity graph. */
  lemma {:induction false} IGraphVertices(g: Graph, geo: seq<Area>, v: string)
    requires g.WellFormed() && g.Undirected()
    requires forall k :: 0 <= k < |g.nodes| ==> g.nodes[k] in Ids(geo)
    ensures v in IGraphOf(g, geo).vertices <==>
              exists k, j :: 0 <= k < |g.nodes| && 0 <= j < |g.nodes| && g.nodes[k] == v && g.adj[k][j]
  {
    var es := Edges(g);
    if v in Endpoints(es) {
      var e :| e in es && (v == e.0 || v == e.1);
      var a, b := EdgesFromSound(g, 0, e);
      if v == e.0 {
        assert g.nodes[a] == v && g.adj[a][b];
      } else {
        assert g.nodes[b] == v && g.adj[b][a];
      }
    }
    if exists k, j :: 0 <= k < |g.nodes| && 0 <= j < |g.nodes| && g.nodes[k] == v && g.adj[k][j] {
      var k, j :| 0 <= k < |g.nodes| && 0 <= j < |g.nodes| && g.nodes[k] == v && g.adj[k][j];
      if k <= j {
        EdgesFromComplete(g, 0, k, j, (g.nodes[k], g.nodes[j]));
      } else {
        EdgesFromComplete(g, 0, j, k, (g.nodes[j], g.nodes[k]));
      }
    }
  }

  /** An area without neighbours (an island, say) is not a vertex of the
      attributed graph, although it is a node of the contiguity graph and
      an area of the flow instance. */
  lemma IsolatedAreaDropped(g: Graph, geo: seq<Area>, k: nat)
    requires g.WellFormed() && g.Undirected() && Distinct(g.nodes)
    requires forall i :: 0 <= i < |g.nodes| ==> g.nodes[i] in Ids(geo)
    requires k < |g.nodes| && forall j :: 0 <= j < |g.nodes| ==> !g.adj[k][j]
    ensures g.nodes[k] !in IGraphOf(g, geo).vertices
  {
    IGraphVertices(g, geo, g.nodes[k]);
  }

  /** When every area has a neighbour, every area is a vertex. */
  lemma AllAreasKept(g: Graph, geo: seq<Area>)
    requires g.WellFormed() && g.Undirected()
    requires forall i :: 0 <= i < |g.nodes| ==> g.nodes[i] in Ids(geo)
    requires forall k :: 0 <= k < |g.nodes| ==> exists j :: 0 <= j < |g.nodes| && g.adj[k][j]
    ensures IGraphOf(g, geo).vertices == set k | 0 <= k < |g.nodes| :: g.nodes[k]
  {
    EndpointsAreNodes(g);
    forall v | v in set k | 0 <= k < |g.nodes| :: g.nodes[k]
      ensures v in IGraphOf(g, geo).vertices
    {
      var k :| 0 <= k < |g.nodes| && g.nodes[k] == v;
      var j :| 0 <= j < |g.nodes| && g.adj[k][j];
      IGraphVertices(g, geo, v);
    }
  }
}
