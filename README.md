# Instance generation for the p-regions problem on Mexican municipalities

This project models, in Dafny, the instance generator of the Mexican
states data repository: the scripts that turn a table of municipalities
(each with a polygon and a 19-entry vector of economic-activity
proportions) into optimisation instances for a p-regions solver.

The model covers five parts.

- The region-count policy `get_p_from_n`, in `region_count.dfy`. It also
  holds the driver's `if N > p` filter.
- The contiguity graph and its relabelling (`create_graph_networkx`) and
  the instance data `get_instance_information`, in `instance.dfy`. That
  data is the node count N, the node list V, one neighbour list per node
  and the dense city-block distance table D.
- The flow-instance serialiser `Create_Instance_Flow`, in
  `flow_instance.dfy`. A method appends to a string as the source does. It
  is proved equal to a line-by-line specification of the text grammar.
  `flow_parse.dfy` reads the text back, and a round-trip lemma shows that
  nothing is lost.
- The attributed igraph graph `get_igraph_graph`, in `attribute_graph.dfy`.
  It is a class whose vertices, edges and `x` attribute are updated in
  place.
- The driver `CreateInstances.py`, in `create_instances.dfy`. It loops over
  the 32 states (codes from `zfill(2)`, rows filtered by `CVE_ENT`) and
  writes flow files only for kept region counts. The whole-country block
  then writes a table and a graph but no flow file. What the script writes
  is recorded as a sequence of artifacts and proved equal to a plan.
  Each artifact carries a file name by kind, state code and region count;
  `Path` renders it as the script's f-strings do. `PathInjective`
  shows that, for two-character codes, names and paths correspond one to
  one, and `PlanPathsApart` that no two files the script writes share a
  path.

`text.dfy` holds the string primitives the source relies on: Python's
`join`, `split`, `str` of an integer, `zfill` and the text built by
appending newline-terminated lines. `join`, `str` and the appended text
come with the inverse that recovers what was rendered (`Split`,
`ParseInt`, splitting at newlines). `zfill` has no inverse here: its
contract gives the length and the zero padding, and
`CreateInstances.StateCodeInjective` shows that the two-digit codes it
produces are distinct.

The area and region sets are written with no space after `[` and one
before `]`: `I: [v1 v2 ... vN ]` (Scripts/utils.py:98), `K: [1 2 ... p ]`
(Scripts/utils.py:105).

Neighbour order: networkx lists the neighbours of a node in the order the
edges were inserted. For the symmetric contiguity matrix that order is
ascending row index, so `NeighborsAt` lists them in node order. Membership
(`NeighborsAtMembership`) does not depend on that choice.

## Model

| member | source | states |
|---|---|---|
| RegionCount.GetPFromN | Scripts/utils.py:62-74 | the result is three strictly increasing positive region counts, each one of 3, 5, 7, 10, 15, 20 |
| RegionCount.GetPFromNBoundaries | Scripts/utils.py:69-74 | at the band edges: 19 gives [3,5,7], 20 and 59 give [5,7,10], 60 gives [10,15,20] |
| RegionCount.GetPFromNMonotone | Scripts/utils.py:69-74 | a larger n never gets a smaller candidate at any position, so the smallest candidate never decreases |
| RegionCount.FlowTargets | Scripts/CreateInstances.py:58-59 | the kept counts are exactly the p of get_p_from_n(N) with N > p, at most three, strictly increasing |
| RegionCount.Keep | Scripts/CreateInstances.py:58-59 | filtering keeps exactly the elements below n, each taken from the input, and keeps an increasing input increasing |
| RegionCount.AllTargetsForLargerUnits | Scripts/CreateInstances.py:58-59 | from N = 20 every candidate is kept: [5,7,10] below 60 and [10,15,20] from 60 |
| RegionCount.TargetsForSmallUnits | Scripts/CreateInstances.py:58-59 | below 20 areas: nothing for N <= 3, [3] up to 5, [3,5] up to 7, [3,5,7] above 7 |
| Instance.CreateGraphNetworkx | Scripts/utils.py:14-35 | node k is named by the k-th index label, the graph is undirected and the matrix is returned unchanged |
| Instance.AdjacencyFollowsMatrix | Scripts/utils.py:28-33 | with a symmetric matrix, nodes i and j are adjacent iff entry (i, j) is nonzero |
| Instance.NeighborsAtMembership | Scripts/utils.py:54 | with distinct labels, node j is in the neighbour list of node i iff the two are adjacent |
| Instance.NeighborSymmetry | Scripts/utils.py:54 | j is a neighbour of i iff i is a neighbour of j |
| Instance.EdgesMembership | Scripts/utils.py:143 | `G.edges` lists exactly the adjacent pairs, from the earlier node to the later one, and with distinct labels each pair once |
| Instance.CityBlockMatrixIsMetric | Scripts/utils.py:57 | the city-block table has a zero diagonal, is symmetric and non-negative, is zero only between equal vectors and obeys the triangle inequality |
| Instance.TwoOneHotAreas | Scripts/utils.py:57 | the vectors [1,0] and [0,1] give the table [[0,2],[2,0]] |
| Instance.GetInstanceInformation | Scripts/utils.py:38-59 | N = len(V) = len(NB), V is the node list, NB[k] lists the neighbours of node k, and D is a square table labelled by the index on both axes |
| Instance.InstanceDistances | Scripts/utils.py:57-58 | D[i][j] is the city-block distance of rows i and j: zero diagonal, symmetric, non-negative |
| Instance.SingleArea | Scripts/utils.py:49-58 | a single area gives N = 1, V = [id], an empty neighbour list and D = [[0]] |
| FlowInstance.AppendAreas | Scripts/utils.py:95-98 | appends the `!n`, `n:`, `!I` and `I:` lines |
| FlowInstance.AppendRegions | Scripts/utils.py:101-105 | appends the `!p`, `p:`, `!K` and `K:` lines, K built from range(1, p+1) |
| FlowInstance.AppendNeighbors | Scripts/utils.py:108-113 | appends the neighbour section: comment, `N: [`, one line per pair of zip(V, NB) in order, `]` |
| FlowInstance.AppendRow | Scripts/utils.py:119-120 | appends the distance lines of one row, one per column, in column order |
| FlowInstance.AppendDistances | Scripts/utils.py:116-121 | appends the distance section: comment, `d: [`, one line per ordered pair with rows outer and columns inner, `]` |
| FlowInstance.CreateInstanceFlow | Scripts/utils.py:78-125 | the text written is exactly the specified lines, each followed by a newline |
| FlowInstance.FlowLineCount | Scripts/utils.py:95-121 | the text has 14 + min(len V, len NB) + rows x columns lines, so 14 + N + N^2 when all agree |
| FlowInstance.FlowHeader | Scripts/utils.py:95-105 | lines 1, 3, 5 and 7 hold N, the areas joined by spaces, p and the regions 1..p |
| FlowInstance.NeighborLineAt | Scripts/utils.py:110-112 | line 10 + k is `(V[k]) [NB[k] joined by spaces]` |
| FlowInstance.DistanceLineAt | Scripts/utils.py:116-121 | line 13 + m + r*C + c is `(index[r] columns[c]) D[r][c]`, the diagonal included, and the last line is `]` |
| FlowInstance.CommentLines | Scripts/utils.py:95-117 | exactly six lines start with `!`, one right before each of the sections n, I, p, K, N and d |
| FlowInstance.FlowTextLines | Scripts/utils.py:95-124 | without newlines in labels and values, the text has one newline per line and splits back into its lines |
| FlowParse.ParseFlow | Scripts/utils.py:95-121 | a text is read only when its line count fits its `n` line and its `I` line lists n areas; the data read has N areas, N neighbour lists and an N x N table |
| FlowParse.FlowRoundTrip | Scripts/utils.py:95-121 | reading the written text gives back N, V in order, p, every neighbour list and every distance exactly |
| AttributeGraph.IGraph.constructor | Scripts/utils.py:140 | a new graph has no vertices, no edges and no attribute values |
| AttributeGraph.IGraph.AddVertices | Scripts/utils.py:147 | one new vertex per name, after the existing ones, without an attribute value |
| AttributeGraph.IGraph.AddEdges | Scripts/utils.py:149 | edges given by name are appended in order when every name is a vertex; otherwise the call fails and nothing changes |
| AttributeGraph.IGraph.SetX | Scripts/utils.py:156 | vertex k gets the k-th vector as its `x` attribute |
| AttributeGraph.Enumerate | Scripts/utils.py:146 | `list(set)` lists every element of the set once, in some order |
| AttributeGraph.IGraphOf | Scripts/utils.py:143-156 | the vertices are the edge end points, the edges are `G_nx.edges`, and each vertex carries the vector of the row with its label |
| AttributeGraph.CollectVectors | Scripts/utils.py:152-156 | `list(vectors.values())` gives, for each vertex in order, the vector of its row |
| AttributeGraph.GetIGraphGraph | Scripts/utils.py:129-158 | the vertices are the distinct end points of the edges, the edges follow `G_nx.edges`, and vertex k carries the vector of its row |
| AttributeGraph.IGraphVertices | Scripts/utils.py:143-147 | an area is a vertex iff it has at least one neighbour |
| AttributeGraph.IsolatedAreaDropped | Scripts/utils.py:146 | an area with no neighbour is not a vertex of the attributed graph |
| AttributeGraph.AllAreasKept | Scripts/utils.py:146 | when every area has a neighbour, the vertices are exactly the areas |
| CreateInstances.StateCodeDigits | Scripts/CreateInstances.py:34 | the code of state i (0 to 99) is its two decimal digits, so states 1..32 get "01".."32" |
| CreateInstances.StateCodeInjective | Scripts/CreateInstances.py:33-34 | different state numbers get different codes, and no state gets the country code "00" |
| CreateInstances.StateRows | Scripts/CreateInstances.py:37 | a state's rows are exactly the table rows whose `CVE_ENT` is its code |
| CreateInstances.RowInExactlyOneState | Scripts/CreateInstances.py:33-37 | a row belongs to the rows of exactly one of the 32 states |
| CreateInstances.QueenMatrix | Scripts/utils.py:25-26 | for a symmetric touching relation, the matrix is square and symmetric, with 1 between two different touching areas and 0 elsewhere |
| CreateInstances.ContiguityGraph | Scripts/utils.py:25-33 | node k is the area of row k, and two different areas are joined iff one touches the other |
| CreateInstances.WriteFlows | Scripts/CreateInstances.py:58-61 | one flow file per kept region count, in order, each holding the serialised instance |
| CreateInstances.SaveGraph | Scripts/CreateInstances.py:52-55 | the pickled graph matches the attributed graph of the unit |
| CreateInstances.WriteState | Scripts/CreateInstances.py:34-61 | a state writes its rows, its graph and its flow files, in that order |
| CreateInstances.WriteCountry | Scripts/CreateInstances.py:67-78 | the country writes its rows and its graph |
| CreateInstances.CreateAllInstances | Scripts/CreateInstances.py:33-78 | the script writes states 1..32 in turn, then the whole country |
| CreateInstances.PathInjective | Scripts/CreateInstances.py:43-60 | for two-character codes, two file names give the same path iff they are the same kind, code and p |
| CreateInstances.UnitNamesApart | Scripts/CreateInstances.py:43-60 | a unit writes no two files under one name, and every name carries the unit's code |
| CreateInstances.StateNamesApart | Scripts/CreateInstances.py:34-60 | state i writes no two files under one name, and every name carries the code of i |
| CreateInstances.StatesNamesApart | Scripts/CreateInstances.py:33-60 | the states 1..hi-1 together write no two files under one name |
| CreateInstances.PlanNamesApart | Scripts/CreateInstances.py:33-78 | the whole script writes no two files under one name, each named after a two-character code |
| CreateInstances.PlanPathsApart | Scripts/CreateInstances.py:43-78 | any two files the script writes go to different paths: no file written overwrites another |
| CreateInstances.FlowPathInjective | Scripts/CreateInstances.py:60 | a flow file path gives back its state code and its region count |
| CreateInstances.FlowPlan | Scripts/CreateInstances.py:58-60 | a unit's flow files are one per kept region count, in order, the k-th named `{ent}_{p_k}.txt` |
| CreateInstances.FlowPlanAt | Scripts/CreateInstances.py:58-61 | the k-th flow file holds the text `Create_Instance_Flow` writes for the k-th kept region count |
| CreateInstances.UnitPlanShape | Scripts/CreateInstances.py:43-61 | a unit writes its table, then its graph, then its flow files; neither of the first two is a flow file |
| CreateInstances.UnitFlows | Scripts/CreateInstances.py:58-61 | the flow files follow the table and the graph in increasing p: at most three, none when N <= 3, three when N >= 20 |
| RegionCount.FlowTargetsCount | Scripts/CreateInstances.py:58-59 | at most three counts are kept: none when N <= 3, all three when N >= 20 |
| CreateInstances.UnitFlowEntry | Scripts/CreateInstances.py:58-60 | every flow file of a unit is named after the unit and a region count kept for it |
| CreateInstances.StateFlowEntry | Scripts/CreateInstances.py:33-60 | every flow file of state i is named after its code and a region count kept for its N rows |
| CreateInstances.StateOf | Scripts/CreateInstances.py:33-61 | everything written by the state loop up to state hi - 1 was written by one of those states |
| CreateInstances.FlowFileWritten | Scripts/CreateInstances.py:58-61 | filtering law: `{ent}_{p}.txt` is written iff p is in get_p_from_n(N) and N > p |
| CreateInstances.StateFlowFileWritten | Scripts/CreateInstances.py:37-61 | the filtering law for state i, with N the number of its rows |
| CreateInstances.CountryWritesNoFlow | Scripts/CreateInstances.py:67-78 | the country block writes `00.gpkg` and `00.pkl` and no flow file |
| CreateInstances.AllFlowFilesBelongToStates | Scripts/CreateInstances.py:33-78 | every flow file written belongs to one of the states 1..32 and to a region count kept for it |
| CreateInstances.FourTouchingAreas | Scripts/CreateInstances.py:47-61 | four mutually touching areas: every neighbour list holds exactly the other three, and only p = 3 is written |

## Left out

- Queen contiguity from polygons (`libpysal`, `weights.full()`) is a foreign library over geometry. It is a parameter `touches` between two areas, a symmetric relation (the type `Touching`), and the matrix is 1 between two different touching areas.
- `cdist` runs in floating point. Distances are exact `real`s and the production vectors are sequences of reals.
- Python's `str` of a float is a parameter `render` of the serialiser. The round trip assumes a reader `parseReal` that undoes it on every distance of the table, and a rendering without newlines.
- The `distance` parameter of `get_instance_information` is fixed to its default, the city-block metric. That is the only metric the driver uses.
- Files are not modelled: `open`/`write`/`close`, `to_file`, `write_pickle`, `os.makedirs` and `tqdm`. The serialiser returns the text it would write. The driver returns the sequence of artifacts it would write, with the pickled graph given by its vertex names, edges and `x` attribute.
- The centroid columns `x`, `y` (Scripts/CreateInstances.py:39-40, 68-69) are geometry computed in floating point and are not modelled.
- Scripts/PreprocessingData.py (reading, pivoting, joining and normalising the raw tables) is not part of this model. Its output is the input table.
- AttributeGraph.GetIGraphGraph: the vertex order comes from a Python set, whose iteration order is unspecified. The model picks any order and states membership only.
- Instance.CreateGraphNetworkx: the index labels (the CVEGEO key) are taken to be distinct. With a repeated label, `nx.relabel_nodes` would merge nodes and `geo.loc` would return several rows; neither is modelled, and the lemmas that depend on it (`NeighborsAtMembership`, the edge count in `EdgesMembership`) require distinct labels.
- igraph internals beyond names becoming vertices and name pairs becoming edges are not modelled.
- Instance.NeighborsAt: networkx's insertion-ordered adjacency is modelled as ascending node order. That is its order for a symmetric matrix.
