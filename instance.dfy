/** Instance extraction: the contiguity graph over the areas of one unit of
    work (`create_graph_networkx`) and what the solver needs from it
    (`get_instance_information`): the node count, the node list, one
    neighbour list per node and the dense city-block distance matrix. */
module Instance {
  import opened Text

  /** The production columns of the processed table (economic-activity
      sectors), in table order. */
  const Columns: seq<string> := ["11", "21", "22", "23", "31-33", "43", "46",
                                 "48-49", "51", "52", "53", "54", "55", "56",
                                 "61", "62", "71", "72", "81"]

  /** One row of the processed table: its municipality code (the table
      index, CVEGEO), its state code (CVE_ENT) and its production vector,
      one value per column of `Columns`. The polygon is not modelled. */
  datatype Area = Area(id: string, ent: string, attrs: seq<real>)

  /** Every row has a value in every production column. */
  predicate Shaped(rows: seq<Area>) {
    forall k :: 0 <= k < |rows| ==> |rows[k].attrs| == |Columns|
  }

  /** The table index, in row order. */
  function Ids(rows: seq<Area>): (ids: seq<string>)
    ensures |ids| == |rows|
    ensures forall k :: 0 <= k < |rows| ==> ids[k] == rows[k].id
  {
    seq(|rows|, k requires 0 <= k < |rows| => rows[k].id)
  }

  predicate IsSquare<T>(m: seq<seq<T>>, n: nat) {
    |m| == n && forall i :: 0 <= i < n ==> |m[i]| == n
  }

  predicate SymmetricMatrix(w: seq<seq<int>>) {
    forall i, j :: 0 <= i < |w| && 0 <= j < |w| && j < |w[i]| && i < |w[j]| ==> w[i][j] == w[j][i]
  }

  /** An undirected networkx graph after relabelling: node `k` is called
      `nodes[k]`, and `adj[i][j]` says whether nodes `i` and `j` are joined. */
  datatype Graph = Graph(nodes: seq<string>, adj: seq<seq<bool>>) {
    predicate WellFormed() {
      IsSquare(adj, |nodes|)
    }

    /** Undirected: the edge relation is symmetric. */
    predicate Undirected()
      requires WellFormed()
    {
      forall i, j :: 0 <= i < |nodes| && 0 <= j < |nodes| ==> adj[i][j] == adj[j][i]
    }
  }

  /** `create_graph_networkx`: the graph of a contiguity matrix `w` whose row
      `k` belongs to area `ids[k]`, returned with the matrix itself. An
      undirected graph built from a matrix joins `i` and `j` when either
      entry between them is nonzero; relabelling names node `k` by `ids[k]`. */
  function CreateGraphNetworkx(ids: seq<string>, w: seq<seq<int>>): (r: (Graph, seq<seq<int>>))
    requires IsSquare(w, |ids|)
    ensures r.1 == w
    ensures r.0.nodes == ids && r.0.WellFormed() && r.0.Undirected()
  {
    var n := |ids|;
    (Graph(ids, seq(n, i requires 0 <= i < n =>
                      seq(n, j requires 0 <= j < n => w[i][j] != 0 || w[j][i] != 0))),
     w)
  }

  /** With a symmetric matrix, node `i` and node `j` are adjacent exactly when
      the matrix entry between them is nonzero. */
  lemma AdjacencyFollowsMatrix(ids: seq<string>, w: seq<seq<int>>, i: nat, j: nat)
    requires IsSquare(w, |ids|) && SymmetricMatrix(w)
    requires i < |ids| && j < |ids|
    ensures CreateGraphNetworkx(ids, w).0.adj[i][j] <==> w[i][j] != 0
  {
  }

  /** The names whose flag in `row` is set, in order. */
  function Select(names: seq<string>, row: seq<bool>): (r: seq<string>)
    requires |row| == |names|
    ensures |r| <= |names|
    ensures forall x :: x in r ==> x in names
  {
    if |names| == 0 then []
    else (if row[0] then [names[0]] else []) + Select(names[1..], row[1..])
  }

  lemma {:induction false} SelectMembership(names: seq<string>, row: seq<bool>, j: nat)
    requires |row| == |names| && j < |names|
    ensures row[j] ==> names[j] in Select(names, row)
    ensures Distinct(names) && names[j] in Select(names, row) ==> row[j]
  {
    if j > 0 {
      SelectMembership(names[1..], row[1..], j - 1);
      if Distinct(names) && names[j] in Select(names, row) {
        assert names[j] != names[0];
        assert names[j] in Select(names[1..], row[1..]);
      }
    }
  }

  /** `G.neighbors(node)` for the node in position `k`: the nodes joined to
      it, in node order. */
  function NeighborsAt(g: Graph, k: nat): (nb: seq<string>)
    requires g.WellFormed() && k < |g.nodes|
  {
    Select(g.nodes, g.adj[k])
  }

  /** With distinct node names, node `j` is listed among the neighbours of
      node `i` exactly when the two are joined. */
  lemma NeighborsAtMembership(g: Graph, i: nat, j: nat)
    requires g.WellFormed() && Distinct(g.nodes)
    requires i < |g.nodes| && j < |g.nodes|
    ensures g.nodes[j] in NeighborsAt(g, i) <==> g.adj[i][j]
  {
    SelectMembership(g.nodes, g.adj[i], j);
  }

  /** Neighbour lists are symmetric: `j` is a neighbour of `i` iff `i` is a
      neighbour of `j`. */
  lemma NeighborSymmetry(g: Graph, i: nat, j: nat)
    requires g.WellFormed() && g.Undirected() && Distinct(g.nodes)
    requires i < |g.nodes| && j < |g.nodes|
    ensures g.nodes[j] in NeighborsAt(g, i) <==> g.nodes[i] in NeighborsAt(g, j)
  {
    NeighborsAtMembership(g, i, j);
    NeighborsAtMembership(g, j, i);
  }

  /** `G.edges`: each edge once, as (node i, node j) with i <= j, walking
      the nodes in order and, for each, its later neighbours in order. */
  function Edges(g: Graph): (es: seq<(string, string)>)
    requires g.WellFormed()
  {
    EdgesFrom(g, 0)
  }

  function EdgesFrom(g: Graph, i: nat): (es: seq<(string, string)>)
    requires g.WellFormed() && i <= |g.nodes|
    decreases |g.nodes| - i
  {
    if i == |g.nodes| then [] else RowEdges(g, i, i) + EdgesFrom(g, i + 1)
  }

  function RowEdges(g: Graph, i: nat, j: nat): (es: seq<(string, string)>)
    requires g.WellFormed() && i < |g.nodes| && j <= |g.nodes|
    decreases |g.nodes| - j
  {
    if j == |g.nodes| then []
    else (if g.adj[i][j] then [(g.nodes[i], g.nodes[j])] else []) + RowEdges(g, i, j + 1)
  }

  /** Edge `e` joins node `a` to node `b`. */
  predicate EdgeAt(g: Graph, a: int, b: int, e: (string, string)) {
    && 0 <= a < |g.nodes| && 0 <= b < |g.nodes| && a < |g.adj| && b < |g.adj[a]|
    && g.adj[a][b] && e == (g.nodes[a], g.nodes[b])
  }

  /** Every pair listed for row `i` from column `j` on is an edge of row `i`. */
  lemma {:induction false} RowEdgesSound(g: Graph, i: nat, j: nat, e: (string, string)) returns (k: nat)
    requires g.WellFormed() && i < |g.nodes| && j <= |g.nodes|
    requires e in RowEdges(g, i, j)
    ensures j <= k && EdgeAt(g, i, k, e)
    decreases |g.nodes| - j
  {
    assert j < |g.nodes|;
    if g.adj[i][j] && e == (g.nodes[i], g.nodes[j]) {
      k := j;
    } else {
      k := RowEdgesSound(g, i, j + 1, e);
    }
  }

  /** Every edge of row `i` from column `j` on is listed for that row. */
  lemma {:induction false} RowEdgesComplete(g: Graph, i: nat, j: nat, k: nat, e: (string, string))
    requires g.WellFormed() && i < |g.nodes| && j <= |g.nodes|
    requires j <= k && EdgeAt(g, i, k, e)
    ensures e in RowEdges(g, i, j)
    decreases |g.nodes| - j
  {
    if k > j {
      RowEdgesComplete(g, i, j + 1, k, e);
    }
  }

  /** Every pair listed from row `i` on is an edge (a, b) with i <= a <= b. */
  lemma {:induction false} EdgesFromSound(g: Graph, i: nat, e: (string, string)) returns (a: nat, b: nat)
    requires g.WellFormed() && i <= |g.nodes|
    requires e in EdgesFrom(g, i)
    ensures i <= a <= b && EdgeAt(g, a, b, e)
    decreases |g.nodes| - i
  {
    assert i < |g.nodes|;
    assert EdgesFrom(g, i) == RowEdges(g, i, i) + EdgesFrom(g, i + 1);
    if e in RowEdges(g, i, i) {
      a := i;
      b := RowEdgesSound(g, i, i, e);
    } else {
      assert e in EdgesFrom(g, i + 1);
      a, b := EdgesFromSound(g, i + 1, e);
    }
  }

  /** Every edge (a, b) with i <= a <= b is listed from row `i` on. */
  lemma {:induction false} EdgesFromComplete(g: Graph, i: nat, a: nat, b: nat, e: (string, string))
    requires g.WellFormed() && i <= |g.nodes|
    requires i <= a <= b && EdgeAt(g, a, b, e)
    ensures e in EdgesFrom(g, i)
    decreases |g.nodes| - i
  {
    assert EdgesFrom(g, i) == RowEdges(g, i, i) + EdgesFrom(g, i + 1);
    if a == i {
      RowEdgesComplete(g, i, i, b, e);
    } else {
      EdgesFromComplete(g, i + 1, a, b, e);
    }
  }

  /** The edges listed by `Edges` are exactly the adjacent pairs, each
      oriented from the earlier node to the later one (or a self-loop), and
      with distinct node names each is listed once. */
  lemma EdgesMembership(g: Graph, e: (string, string))
    requires g.WellFormed()
    ensures e in Edges(g) <==> exists a, b :: 0 <= a <= b && EdgeAt(g, a, b, e)
    ensures Distinct(g.nodes) ==> Distinct(Edges(g))
  {
    if Distinct(g.nodes) {
      EdgesFromDistinct(g, 0);
    }
    if e in Edges(g) {
      var a, b := EdgesFromSound(g, 0, e);
    }
    if exists a, b :: 0 <= a <= b && EdgeAt(g, a, b, e) {
      var a, b :| 0 <= a <= b && EdgeAt(g, a, b, e);
      EdgesFromComplete(g, 0, a, b, e);
    }
  }

  /** With distinct names, row `i` lists each of its edges from column `j`
      on once. */
  lemma {:induction false} RowEdgesDistinct(g: Graph, i: nat, j: nat)
    requires g.WellFormed() && Distinct(g.nodes) && i < |g.nodes| && j <= |g.nodes|
    ensures Distinct(RowEdges(g, i, j))
    decreases |g.nodes| - j
  {
    if j < |g.nodes| {
      var rest := RowEdges(g, i, j + 1);
      RowEdgesDistinct(g, i, j + 1);
      var head := if g.adj[i][j] then [(g.nodes[i], g.nodes[j])] else [];
      forall x | x in head ensures x !in rest {
        if x in rest {
          var k := RowEdgesSound(g, i, j + 1, x);
        }
      }
      DistinctConcat(head, rest);
    }
  }

  /** With distinct names, no edge listed after row `i` starts at node `i`. */
  lemma LaterRowsStartElsewhere(g: Graph, i: nat)
    requires g.WellFormed() && Distinct(g.nodes) && i < |g.nodes|
    ensures forall y :: y in EdgesFrom(g, i + 1) ==> y.0 != g.nodes[i]
  {
    forall y | y in EdgesFrom(g, i + 1) ensures y.0 != g.nodes[i] {
      var a, b := EdgesFromSound(g, i + 1, y);
    }
  }

  /** With distinct names, the rows from `i` on list each edge once: the
      rows start their pairs with different nodes. */
  lemma {:induction false} EdgesFromDistinct(g: Graph, i: nat)
    requires g.WellFormed() && Distinct(g.nodes) && i <= |g.nodes|
    ensures Distinct(EdgesFrom(g, i))
    decreases |g.nodes| - i
  {
    if i < |g.nodes| {
      var row := RowEdges(g, i, i);
      var rest := EdgesFrom(g, i + 1);
      RowEdgesDistinct(g, i, i);
      EdgesFromDistinct(g, i + 1);
      LaterRowsStartElsewhere(g, i);
      forall x | x in row ensures x !in rest {
        var k := RowEdgesSound(g, i, i, x);
      }
      assert EdgesFrom(g, i) == row + rest;
      DistinctConcat(row, rest);
    }
  }

  function Abs(x: real): real {
    if x < 0.0 then -x else x
  }

  /** The city-block (Manhattan) distance between two production vectors:
      the sum of the absolute differences, column by column. */
  function CityBlock(x: seq<real>, y: seq<real>): (r: real)
    requires |x| == |y|
    ensures r >= 0.0
  {
    if |x| == 0 then 0.0 else Abs(x[0] - y[0]) + CityBlock(x[1..], y[1..])
  }

  lemma {:induction false} CityBlockSymmetric(x: seq<real>, y: seq<real>)
    requires |x| == |y|
    ensures CityBlock(x, y) == CityBlock(y, x)
  {
    if |x| > 0 {
      CityBlockSymmetric(x[1..], y[1..]);
    }
  }

  /** The distance is zero exactly between equal vectors. */
  lemma {:induction false} CityBlockZeroIff(x: seq<real>, y: seq<real>)
    requires |x| == |y|
    ensures CityBlock(x, y) == 0.0 <==> x == y
  {
    if |x| > 0 {
      CityBlockZeroIff(x[1..], y[1..]);
      assert x == [x[0]] + x[1..] && y == [y[0]] + y[1..];
    }
  }

  lemma {:induction false} CityBlockTriangle(x: seq<real>, y: seq<real>, z: seq<real>)
    requires |x| == |y| == |z|
    ensures CityBlock(x, z) <= CityBlock(x, y) + CityBlock(y, z)
  {
    if |x| > 0 {
      CityBlockTriangle(x[1..], y[1..], z[1..]);
    }
  }

  /** Rows of a table of vectors that all have the same length. */
  predicate SameWidth(vs: seq<seq<real>>) {
    forall i :: 0 <= i < |vs| ==> |vs[i]| == |vs[0]|
  }

  /** `cdist(X, X, metric='cityblock')`: every ordered pair of rows,
      including each row with itself. */
  function CityBlockMatrix(vs: seq<seq<real>>): (m: seq<seq<real>>)
    requires SameWidth(vs)
    ensures IsSquare(m, |vs|)
  {
    seq(|vs|, i requires 0 <= i < |vs| =>
      seq(|vs|, j requires 0 <= j < |vs| => CityBlock(vs[i], vs[j])))
  }

  /** The dense distance matrix is a metric table: zero on the diagonal,
      symmetric, non-negative, zero off the diagonal only between equal
      vectors, and obeying the triangle inequality. */
  lemma CityBlockMatrixIsMetric(vs: seq<seq<real>>)
    requires SameWidth(vs)
    ensures forall i :: 0 <= i < |vs| ==> CityBlockMatrix(vs)[i][i] == 0.0
    ensures forall i, j :: 0 <= i < |vs| && 0 <= j < |vs| ==>
              CityBlockMatrix(vs)[i][j] == CityBlockMatrix(vs)[j][i] >= 0.0
    ensures forall i, j :: 0 <= i < |vs| && 0 <= j < |vs| ==>
              (CityBlockMatrix(vs)[i][j] == 0.0 <==> vs[i] == vs[j])
    ensures forall i, j, k :: 0 <= i < |vs| && 0 <= j < |vs| && 0 <= k < |vs| ==>
              CityBlockMatrix(vs)[i][k] <= CityBlockMatrix(vs)[i][j] + CityBlockMatrix(vs)[j][k]
  {
    var m := CityBlockMatrix(vs);
    forall i, j | 0 <= i < |vs| && 0 <= j < |vs|
      ensures m[i][j] == m[j][i] >= 0.0 && (m[i][j] == 0.0 <==> vs[i] == vs[j])
    {
      CityBlockSymmetric(vs[i], vs[j]);
      CityBlockZeroIff(vs[i], vs[j]);
    }
    forall i, j, k | 0 <= i < |vs| && 0 <= j < |vs| && 0 <= k < |vs|
      ensures m[i][k] <= m[i][j] + m[j][k]
    {
      CityBlockTriangle(vs[i], vs[j], vs[k]);
    }
  }

  /** Two one-hot vectors lie at distance 2 from each other. */
  lemma TwoOneHotAreas()
    ensures CityBlockMatrix([[1.0, 0.0], [0.0, 1.0]]) == [[0.0, 2.0], [2.0, 0.0]]
  {
    var vs := [[1.0, 0.0], [0.0, 1.0]];
    var m := CityBlockMatrix(vs);
    assert CityBlock(vs[0], vs[1]) == 2.0 && CityBlock(vs[1], vs[0]) == 2.0;
    assert CityBlock(vs[0], vs[0]) == 0.0 && CityBlock(vs[1], vs[1]) == 0.0;
    assert m[0] == [0.0, 2.0] && m[1] == [2.0, 0.0];
  }

  /** A pandas data frame of reals with row and column labels. */
  datatype Table = Table(index: seq<string>, columns: seq<string>, cells: seq<seq<real>>) {
    predicate WellFormed() {
      |cells| == |index| && forall r :: 0 <= r < |cells| ==> |cells[r]| == |columns|
    }
  }

  /** The production vectors of the rows, in row order. */
  function Vectors(rows: seq<Area>): (vs: seq<seq<real>>)
    requires Shaped(rows)
    ensures |vs| == |rows| && SameWidth(vs)
    ensures forall k :: 0 <= k < |rows| ==> vs[k] == rows[k].attrs
  {
    seq(|rows|, k requires 0 <= k < |rows| => rows[k].attrs)
  }

  /** What `get_instance_information` returns: N, V, NB and D. */
  datatype Info = Info(n: int, v: seq<string>, nb: seq<seq<string>>, d: Table)

  /** `get_instance_information`: the node count and node list of the graph,
      the neighbour list of every node in node order, and the city-block
      distance between every ordered pair of rows, labelled by the table
      index on both axes. */
  function GetInstanceInformation(g: Graph, adjMatrix: seq<seq<int>>, geo: seq<Area>): (info: Info)
    requires g.WellFormed() && Shaped(geo)
    ensures info.n == |info.v| == |info.nb| && info.v == g.nodes
    ensures forall k :: 0 <= k < |info.nb| ==> info.nb[k] == NeighborsAt(g, k)
    ensures info.d.WellFormed() && info.d.index == info.d.columns == Ids(geo)
    ensures IsSquare(info.d.cells, |geo|)
  {
    var n := |g.nodes|;
    var nb := seq(n, k requires 0 <= k < n => NeighborsAt(g, k));
    var ids := Ids(geo);
    Info(n, g.nodes, nb, Table(ids, ids, CityBlockMatrix(Vectors(geo))))
  }

  /** The distances of the extracted instance are those of the city-block
      metric between the rows' production vectors: zero on the diagonal,
      symmetric and non-negative. */
  lemma InstanceDistances(g: Graph, adjMatrix: seq<seq<int>>, geo: seq<Area>)
    requires g.WellFormed() && Shaped(geo)
    ensures var d := GetInstanceInformation(g, adjMatrix, geo).d;
      && (forall i :: 0 <= i < |geo| ==> d.cells[i][i] == 0.0)
      && (forall i, j :: 0 <= i < |geo| && 0 <= j < |geo| ==>
            d.cells[i][j] == d.cells[j][i] >= 0.0 &&
            d.cells[i][j] == CityBlock(geo[i].attrs, geo[j].attrs))
  {
    CityBlockMatrixIsMetric(Vectors(geo));
  }

  /** A unit of work with a single area: one node, no neighbours, and the
      1x1 zero distance matrix. */
  lemma SingleArea(a: Area)
    requires |a.attrs| == |Columns|
    ensures var (g, w) := CreateGraphNetworkx([a.id], [[0]]);
      var info := GetInstanceInformation(g, w, [a]);
      info.n == 1 && info.v == [a.id] && info.nb == [[]] && info.d.cells == [[0.0]]
  {
    var (g, w) := CreateGraphNetworkx([a.id], [[0]]);
    var info := GetInstanceInformation(g, w, [a]);
    assert !g.adj[0][0];
    assert Select(g.nodes, g.adj[0]) == [] + Select([], []);
    assert info.nb[0] == [];
    CityBlockZeroIff(a.attrs, a.attrs);
    assert info.d.cells[0] == [0.0];
  }
}
