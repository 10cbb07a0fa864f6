/** The instance generator's driver (`CreateInstances.py`): for each of the
    32 states it writes the state's rows, its attributed adjacency graph and
    one flow instance per admissible region count; for the whole country it
    writes the rows and the graph only. Reading the processed table, the
    polygons, the centroid columns and the files themselves are outside the
    model: what is written is recorded as a sequence of artifacts. */
module CreateInstances {
  import opened Text
  import opened Instance
  import opened RegionCount
  import opened FlowInstance
  import opened AttributeGraph

  const FlowFolder: string := "../Instances/Flow Instances/"
  const GraphFolder: string := "../Instances/Graph Instances/"
  const GpkgFolder: string := "../Instances/GPKG Instances/"

  /** The code of the whole country, used in place of a state code. */
  const CountryCode: string := "00"

  /** `str(i).zfill(2)`: the two-digit code of state `i`. */
  function StateCode(i: int): string {
    ZFill(IntToString(i), 2)
  }

  /** The code of a state numbered 0..99 is its two decimal digits. */
  lemma StateCodeDigits(i: int)
    requires 0 <= i < 100
    ensures StateCode(i) == [DigitChar(i / 10), DigitChar(i % 10)]
  {
    if i < 10 {
      assert NatToString(i) == [DigitChar(i)];
      assert Repeat('0', 1) == ['0'];
    } else {
      assert NatToString(i / 10) == [DigitChar(i / 10)];
      assert NatToString(i) == [DigitChar(i / 10), DigitChar(i % 10)];
    }
  }

  /** Different state numbers get different codes, and no state numbered
      1..99 gets the country's code. */
  lemma StateCodeInjective(i: int, j: int)
    requires 0 <= i < 100 && 0 <= j < 100
    ensures StateCode(i) == StateCode(j) <==> i == j
    ensures 1 <= i ==> StateCode(i) != CountryCode
  {
    StateCodeDigits(i);
    StateCodeDigits(j);
    StateCodeDigits(0);
    if StateCode(i) == StateCode(j) {
      assert DigitChar(i / 10) == DigitChar(j / 10) && DigitChar(i % 10) == DigitChar(j % 10);
      assert i == (i / 10) * 10 + i % 10 && j == (j / 10) * 10 + j % 10;
    }
    if 1 <= i {
      assert StateCode(i) != StateCode(0);
    }
  }

  /** `df[df["CVE_ENT"] == ent]`: the rows of one state, in table order. */
  function StateRows(df: seq<Area>, ent: string): (r: seq<Area>)
    ensures |r| <= |df|
    ensures forall a :: a in r <==> a in df && a.ent == ent
    ensures Shaped(df) ==> Shaped(r)
  {
    if |df| == 0 then []
    else (if df[0].ent == ent then [df[0]] else []) + StateRows(df[1..], ent)
  }

  /** A row whose state code belongs to state `i` is among that state's rows
      and among no other state's rows. */
  lemma RowInExactlyOneState(df: seq<Area>, a: Area, i: int, j: int)
    requires a in df && a.ent == StateCode(i)
    requires 1 <= i <= 32 && 1 <= j <= 32
    ensures a in StateRows(df, StateCode(j)) <==> i == j
  {
    StateCodeInjective(i, j);
  }

  /** Which pairs of areas touch (share an edge or a corner). Touching is
      mutual, so queen contiguity is a symmetric relation. */
  type Touching = f: (Area, Area) -> bool | forall a, b :: f(a, b) == f(b, a)
    witness (a: Area, b: Area) => false

  /** `Queen.from_dataframe(geo).full()[0]`, given which pairs of areas
      touch: 1 between two different touching areas, 0 elsewhere, and the
      matrix is symmetric. */
  function QueenMatrix(rows: seq<Area>, touches: Touching): (w: seq<seq<int>>)
    ensures IsSquare(w, |rows|) && SymmetricMatrix(w)
    ensures forall i, j :: 0 <= i < |rows| && 0 <= j < |rows| ==>
              (w[i][j] == 1 <==> i != j && touches(rows[i], rows[j])) &&
              (w[i][j] == 0 <==> !(i != j && touches(rows[i], rows[j])))
  {
    seq(|rows|, i requires 0 <= i < |rows| =>
      seq(|rows|, j requires 0 <= j < |rows| => if i != j && touches(rows[i], rows[j]) then 1 else 0))
  }

  /** The contiguity graph of a unit of work: node `k` is the area of row
      `k`, and two different areas are joined when either touches the
      other. */
  lemma ContiguityGraph(rows: seq<Area>, touches: Touching, i: nat, j: nat)
    requires i < |rows| && j < |rows|
    ensures var g := CreateGraphNetworkx(Ids(rows), QueenMatrix(rows, touches)).0;
      g.nodes == Ids(rows) &&
      (g.adj[i][j] <==> i != j && (touches(rows[i], rows[j]) || touches(rows[j], rows[i])))
  {
  }

  /** The name of a file the driver writes, by kind: the rows of a unit
      (`{ent}.gpkg`), its graph (`{ent}.pkl`) or its flow instance for `p`
      regions (`{ent}_{p}.txt`). */
  datatype FileName =
    | GpkgName(code: string)
    | GraphName(code: string)
    | FlowName(code: string, p: int)

  /** The path the f-strings of the script build for a file name. */
  function Path(name: FileName): string {
    match name
    case GpkgName(code) => GpkgFolder + code + ".gpkg"
    case GraphName(code) => GraphFolder + code + ".pkl"
    case FlowName(code, p) => FlowFolder + code + "_" + IntToString(p) + ".txt"
  }

  /** What the driver writes: a table of rows (`.gpkg`), a pickled igraph
      graph given by its vertex names, its edges by name and its `x`
      attribute (`.pkl`), or a flow instance (`.txt`). */
  datatype Artifact =
    | Gpkg(name: FileName, rows: seq<Area>)
    | Pickle(name: FileName, names: seq<string>, edges: seq<(string, string)>, x: seq<Option<seq<real>>>)
    | FlowFile(name: FileName, text: string)

  /** What the driver is expected to write: a fixed artifact, or a pickled
      graph matching the attributed graph `spec` in any vertex order. */
  datatype Expected =
    | Exactly(artifact: Artifact)
    | GraphOf(name: FileName, spec: AttrGraph)

  /** A pickled graph that matches the specification `spec` up to the order
      of its vertices (which comes from a Python set). */
  ghost predicate PickleMatches(a: Artifact, name: FileName, spec: AttrGraph) {
    && a.Pickle? && a.name == name && Distinct(a.names) && |a.x| == |a.names|
    && (forall v :: v in a.names <==> v in spec.vertices)
    && a.edges == spec.edges
    && forall k :: 0 <= k < |a.names| ==> a.names[k] in spec.attrs && a.x[k] == Some(spec.attrs[a.names[k]])
  }

  ghost predicate Fulfils(a: Artifact, e: Expected) {
    match e
    case Exactly(b) => a == b
    case GraphOf(name, spec) => PickleMatches(a, name, spec)
  }

  ghost predicate Matches(out: seq<Artifact>, plan: seq<Expected>) {
    |out| == |plan| && forall k :: 0 <= k < |out| ==> Fulfils(out[k], plan[k])
  }

  lemma MatchesAppend(a: seq<Artifact>, pa: seq<Expected>, b: seq<Artifact>, pb: seq<Expected>)
    requires Matches(a, pa) && Matches(b, pb)
    ensures Matches(a + b, pa + pb)
  {
    forall k | 0 <= k < |a| + |b| ensures Fulfils((a + b)[k], (pa + pb)[k]) {
      if k >= |a| {
        assert (a + b)[k] == b[k - |a|] && (pa + pb)[k] == pb[k - |a|];
      }
    }
  }

  /** The contiguity graph of one unit of work (`create_graph_networkx`). */
  function UnitGraph(geo: seq<Area>, touches: Touching): (g: Graph)
    ensures g.WellFormed() && g.Undirected() && g.nodes == Ids(geo)
  {
    CreateGraphNetworkx(Ids(geo), QueenMatrix(geo, touches)).0
  }

  /** The instance data of one unit of work (`get_instance_information`). */
  function UnitInfo(geo: seq<Area>, touches: Touching): (info: Info)
    requires Shaped(geo)
    ensures info.n == |geo| && info.v == Ids(geo) && info.d.WellFormed()
  {
    GetInstanceInformation(UnitGraph(geo, touches), QueenMatrix(geo, touches), geo)
  }

  /** The flow instances of one unit: one per kept region count, in the
      order `get_p_from_n` lists them, each a flow file named after the
      unit and its region count. */
  function FlowPlan(code: string, info: Info, ps: seq<int>, render: real -> string): (plan: seq<Expected>)
    requires info.d.WellFormed()
    ensures |plan| == |ps|
    ensures forall k :: 0 <= k < |ps| ==> NameOf(plan[k]) == FlowName(code, ps[k])
    decreases |ps|
  {
    if |ps| == 0 then []
    else FlowPlan(code, info, ps[..|ps| - 1], render) + [Exactly(FlowOf(code, info, ps[|ps| - 1], render))]
  }

  /** The `k`-th flow instance of a unit is the file `Create_Instance_Flow`
      writes for its `k`-th kept region count. */
  lemma {:induction false} FlowPlanAt(code: string, info: Info, ps: seq<int>, render: real -> string, k: int)
    requires info.d.WellFormed() && 0 <= k < |ps|
    ensures FlowPlan(code, info, ps, render)[k] == Exactly(FlowOf(code, info, ps[k], render))
    decreases |ps|
  {
    if k < |ps| - 1 {
      FlowPlanAt(code, info, ps[..|ps| - 1], render, k);
    }
  }

  /** The flow instance file for `p` regions of the data `info`. */
  function FlowOf(code: string, info: Info, p: int, render: real -> string): Artifact
    requires info.d.WellFormed()
  {
    FlowFile(FlowName(code, p), FlowText(info.n, info.v, info.nb, info.d, p, render))
  }

  /** Everything written for one state: its rows, its graph, and its flow
      instances. */
  function UnitPlan(code: string, geo: seq<Area>, g: Graph, info: Info, render: real -> string): seq<Expected>
    requires UnitReady(geo, g, info)
  {
    [Exactly(Gpkg(GpkgName(code), geo))] + [GraphOf(GraphName(code), IGraphOf(g, geo))]
      + FlowPlan(code, info, FlowTargets(info.n), render)
  }

  /** The graph of a unit has the unit's rows as its nodes, and its
      distance table is well formed. */
  predicate UnitReady(geo: seq<Area>, g: Graph, info: Info) {
    g.WellFormed() && g.nodes == Ids(geo) && info.d.WellFormed()
  }

  /** Everything written for state `i`. */
  function StatePlan(df: seq<Area>, i: int, touches: Touching, render: real -> string): seq<Expected>
    requires Shaped(df)
  {
    var geo := StateRows(df, StateCode(i));
    UnitPlan(StateCode(i), geo, UnitGraph(geo, touches), UnitInfo(geo, touches), render)
  }

  /** Everything written for states `1 .. hi - 1`, state after state. */
  function StatesPlan(df: seq<Area>, hi: int, touches: Touching, render: real -> string): seq<Expected>
    requires Shaped(df)
    decreases hi
  {
    if hi <= 1 then [] else StatesPlan(df, hi - 1, touches, render) + StatePlan(df, hi - 1, touches, render)
  }

  /** Everything written for the whole country: its rows and its graph. */
  function CountryPlan(df: seq<Area>, touches: Touching): seq<Expected>
    requires Shaped(df)
  {
    [Exactly(Gpkg(GpkgName(CountryCode), df)), GraphOf(GraphName(CountryCode), IGraphOf(UnitGraph(df, touches), df))]
  }

  /** Everything the script writes, in order. */
  function Plan(df: seq<Area>, touches: Touching, render: real -> string): seq<Expected>
    requires Shaped(df)
  {
    StatesPlan(df, 33, touches, render) + CountryPlan(df, touches)
  }

  lemma KeepSnoc(ps: seq<int>, p: int, n: int)
    ensures Keep(ps + [p], n) == Keep(ps, n) + (if n > p then [p] else [])
  {
    if |ps| > 0 {
      KeepSnoc(ps[1..], p, n);
      assert (ps + [p])[1..] == ps[1..] + [p];
    } else {
      assert Keep([p], n) == (if n > p then [p] else []) + Keep([], n);
    }
  }

  /** The loop `for p in get_p_from_n(N): if N > p: Create_Instance_Flow(...)`. */
  method WriteFlows(code: string, info: Info, render: real -> string) returns (out: seq<Artifact>)
    requires info.d.WellFormed()
    ensures Matches(out, FlowPlan(code, info, FlowTargets(info.n), render))
  {
    var ps := GetPFromN(info.n);
    out := [];
    ghost var kept: seq<int> := [];
    var k := 0;
    while k < |ps|
      invariant 0 <= k <= |ps|
      invariant kept == Keep(ps[..k], info.n)
      invariant Matches(out, FlowPlan(code, info, kept, render))
    {
      var p := ps[k];
      KeepSnoc(ps[..k], p, info.n);
      assert ps[..k + 1] == ps[..k] + [p];
      if info.n > p {
        var flowName := FlowName(code, p);
        var text := CreateInstanceFlow(info.n, info.v, info.nb, info.d, p, render);
        FlowPlanSnoc(out, code, info, kept, p, render);
        out, kept := out + [FlowFile(flowName, text)], kept + [p];
      }
      k := k + 1;
    }
    assert ps[..|ps|] == ps;
  }

  /** One more flow instance written after those of `before`. */
  lemma FlowPlanSnoc(out: seq<Artifact>, code: string, info: Info, before: seq<int>, p: int,
                     render: real -> string)
    requires info.d.WellFormed() && Matches(out, FlowPlan(code, info, before, render))
    ensures Matches(out + [FlowOf(code, info, p, render)], FlowPlan(code, info, before + [p], render))
  {
    var a := FlowOf(code, info, p, render);
    MatchesOne(a, Exactly(a));
    MatchesAppend(out, FlowPlan(code, info, before, render), [a], [Exactly(a)]);
    assert (before + [p])[..|before|] == before;
  }

  /** The table, the graph and the flow instances of a unit, in that order,
      are what its plan asks for. */
  lemma UnitMatches(code: string, geo: seq<Area>, g: Graph, info: Info, render: real -> string,
                    graph: Artifact, flows: seq<Artifact>)
    requires UnitReady(geo, g, info)
    requires Fulfils(graph, GraphOf(GraphName(code), IGraphOf(g, geo)))
    requires Matches(flows, FlowPlan(code, info, FlowTargets(info.n), render))
    ensures Matches([Gpkg(GpkgName(code), geo)] + [graph] + flows, UnitPlan(code, geo, g, info, render))
  {
    var gpkg := Gpkg(GpkgName(code), geo);
    MatchesCons2(gpkg, graph, flows, Exactly(gpkg), GraphOf(GraphName(code), IGraphOf(g, geo)),
                 FlowPlan(code, info, FlowTargets(info.n), render));
  }

  /** Two artifacts followed by `rest`, against two expectations followed
      by `plan`. */
  lemma MatchesCons2(a: Artifact, b: Artifact, rest: seq<Artifact>, ea: Expected, eb: Expected, plan: seq<Expected>)
    requires Fulfils(a, ea) && Fulfils(b, eb) && Matches(rest, plan)
    ensures Matches([a] + [b] + rest, [ea] + [eb] + plan)
  {
    MatchesOne(a, ea);
    MatchesOne(b, eb);
    MatchesAppend([a], [ea], [b], [eb]);
    MatchesAppend([a] + [b], [ea] + [eb], rest, plan);
  }

  lemma MatchesOne(a: Artifact, e: Expected)
    requires Fulfils(a, e)
    ensures Matches([a], [e])
  {
  }

  /** The graph saved as a pickle: its vertex names, edges and `x`
      attribute. */
  method SaveGraph(name: FileName, g: Graph, geo: seq<Area>) returns (a: Artifact)
    requires g.WellFormed() && g.nodes == Ids(geo)
    ensures Fulfils(a, GraphOf(name, IGraphOf(g, geo)))
  {
    var G := GetIGraphGraph(g, geo);
    a := Pickle(name, G.names, G.EdgesByName(), G.x);
  }

  /** One iteration of the loop over the states. */
  method WriteState(df: seq<Area>, i: int, touches: Touching, render: real -> string)
    returns (out: seq<Artifact>)
    requires Shaped(df)
    ensures Matches(out, StatePlan(df, i, touches, render))
  {
    var ent := StateCode(i);
    var geo := StateRows(df, ent);
    out := [Gpkg(GpkgName(ent), geo)];
    var adjMatrix := QueenMatrix(geo, touches);
    var gnx := CreateGraphNetworkx(Ids(geo), adjMatrix).0;
    var info := GetInstanceInformation(gnx, adjMatrix, geo);
    var graph := SaveGraph(GraphName(ent), gnx, geo);
    out := out + [graph];
    var flows := WriteFlows(ent, info, render);
    UnitMatches(ent, geo, gnx, info, render, graph, flows);
    out := out + flows;
    assert StatePlan(df, i, touches, render) == UnitPlan(ent, geo, gnx, info, render);
  }

  /** The country block: the rows and the graph of the whole table, and no
      flow instance. */
  method WriteCountry(df: seq<Area>, touches: Touching) returns (out: seq<Artifact>)
    requires Shaped(df)
    ensures Matches(out, CountryPlan(df, touches))
  {
    var adjMatrix := QueenMatrix(df, touches);
    var gnx := CreateGraphNetworkx(Ids(df), adjMatrix).0;
    var graph := SaveGraph(GraphName(CountryCode), gnx, df);
    out := [Gpkg(GpkgName(CountryCode), df), graph];
  }

  /** The script: the states 1 to 32 in turn, then the whole country. */
  method CreateAllInstances(df: seq<Area>, touches: Touching, render: real -> string)
    returns (out: seq<Artifact>)
    requires Shaped(df)
    ensures Matches(out, Plan(df, touches, render))
  {
    out := [];
    for i := 1 to 33
      invariant Matches(out, StatesPlan(df, i, touches, render))
    {
      var state := WriteState(df, i, touches, render);
      MatchesAppend(out, StatesPlan(df, i, touches, render), state, StatePlan(df, i, touches, render));
      out := out + state;
    }
    var country := WriteCountry(df, touches);
    MatchesAppend(out, StatesPlan(df, 33, touches, render), country, CountryPlan(df, touches));
    out := out + country;
  }

  /** Two concatenations that agree, split at the same place, agree part by
      part. */
  lemma SplitEqual(a1: string, b1: string, a2: string, b2: string)
    requires a1 + b1 == a2 + b2 && (|a1| == |a2| || |b1| == |b2|)
    ensures a1 == a2 && b1 == b2
  {
    assert a1 == (a1 + b1)[..|a1|] && a2 == (a2 + b2)[..|a2|];
    assert b1 == (a1 + b1)[|a1|..] && b2 == (a2 + b2)[|a2|..];
  }

  /** The f-strings name files apart: for codes of one length, two file
      names give the same path exactly when they are the same name. */
  lemma PathInjective(n1: FileName, n2: FileName)
    requires |n1.code| == |n2.code|
    ensures Path(n1) == Path(n2) <==> n1 == n2
  {
    if Path(n1) == Path(n2) {
      match n1
      case GpkgName(c1) =>
        FolderMark(GpkgFolder, c1 + ".gpkg");
        OtherKinds(n2);
        NameInFolder(GpkgFolder, c1, n2.code, ".gpkg");
      case GraphName(c1) =>
        FolderMark(GraphFolder, c1 + ".pkl");
        OtherKinds(n2);
        NameInFolder(GraphFolder, c1, n2.code, ".pkl");
      case FlowName(c1, p1) =>
        FolderMark(FlowFolder, c1 + "_" + IntToString(p1) + ".txt");
        OtherKinds(n2);
        FlowPathInjective(c1, p1, n2.code, n2.p);
    }
  }

  /** The 15th character of a path tells its kind. */
  lemma OtherKinds(n: FileName)
    ensures |Path(n)| > 14
    ensures Path(n)[14] == match n case GpkgName(_) => 'P' case GraphName(_) => 'r' case FlowName(_, _) => 'l'
  {
    match n
    case GpkgName(c) => FolderMark(GpkgFolder, c + ".gpkg");
    case GraphName(c) => FolderMark(GraphFolder, c + ".pkl");
    case FlowName(c, p) => FolderMark(FlowFolder, c + "_" + IntToString(p) + ".txt");
  }

  /** Flow files of codes of one length are named apart: the path gives
      back the code and the region count. */
  lemma FlowPathInjective(c1: string, p1: int, c2: string, p2: int)
    requires |c1| == |c2| && Path(FlowName(c1, p1)) == Path(FlowName(c2, p2))
    ensures c1 == c2 && p1 == p2
  {
    SplitEqual(FlowFolder + c1 + "_" + IntToString(p1), ".txt", FlowFolder + c2 + "_" + IntToString(p2), ".txt");
    SplitEqual(FlowFolder + c1 + "_", IntToString(p1), FlowFolder + c2 + "_", IntToString(p2));
    SplitEqual(FlowFolder + c1, "_", FlowFolder + c2, "_");
    SplitEqual(FlowFolder, c1, FlowFolder, c2);
    IntToStringInjective(p1, p2);
  }

  /** Two names in one folder with one extension agree when their paths do. */
  lemma NameInFolder(folder: string, c1: string, c2: string, ext: string)
    requires folder + c1 + ext == folder + c2 + ext
    ensures c1 == c2
  {
    SplitEqual(folder + c1, ext, folder + c2, ext);
    SplitEqual(folder, c1, folder, c2);
  }

  /** The folder of a path decides its 15th character: `P` for the
      tables, `r` for the graphs, `l` for the flow instances. */
  lemma FolderMark(folder: string, rest: string)
    requires folder in {GpkgFolder, GraphFolder, FlowFolder}
    ensures |folder + rest| > 14
    ensures (folder + rest)[14] == (if folder == GpkgFolder then 'P' else if folder == GraphFolder then 'r' else 'l')
  {
    assert (folder + rest)[14] == folder[14];
  }

  /** A flow file is one named `{ent}_{p}.txt`. */
  predicate IsFlowFile(e: Expected) {
    NameOf(e).FlowName?
  }

  /** The name of the file an expected artifact is written to. */
  function NameOf(e: Expected): FileName {
    match e
    case Exactly(a) => a.name
    case GraphOf(name, _) => name
  }

  /** A unit's plan: its table, its graph, then its flow instances. */
  lemma UnitPlanShape(code: string, geo: seq<Area>, g: Graph, info: Info, render: real -> string)
    requires UnitReady(geo, g, info)
    ensures var ps := FlowTargets(info.n);
      var plan := UnitPlan(code, geo, g, info, render);
      && |plan| == 2 + |ps|
      && !IsFlowFile(plan[0]) && !IsFlowFile(plan[1])
      && plan[2..] == FlowPlan(code, info, ps, render)
  {
    var head := [Exactly(Gpkg(GpkgName(code), geo))] + [GraphOf(GraphName(code), IGraphOf(g, geo))];
    var flows := FlowPlan(code, info, FlowTargets(info.n), render);
    assert UnitPlan(code, geo, g, info, render) == head + flows;
    assert (head + flows)[2..] == flows;
  }

  /** The flow instances of a unit come after its table and its graph,
      one per region count kept for its `N` areas, in increasing order of
      p: at most three, none when `N <= 3`, all three when `N >= 20`. */
  lemma UnitFlows(code: string, geo: seq<Area>, g: Graph, info: Info, render: real -> string)
    requires UnitReady(geo, g, info)
    ensures var ps := FlowTargets(info.n);
      var plan := UnitPlan(code, geo, g, info, render);
      && |plan| == 2 + |ps| <= 5
      && plan[2..] == FlowPlan(code, info, ps, render)
      && (forall a, b :: 0 <= a < b < |ps| ==> ps[a] < ps[b])
      && (info.n <= 3 ==> |plan| == 2)
      && (info.n >= 20 ==> |plan| == 5)
  {
    UnitPlanShape(code, geo, g, info, render);
    FlowTargetsCount(info.n);
  }

  /** Which entries of a unit's plan are flow files, and under which names. */
  lemma FlowEntries(code: string, geo: seq<Area>, g: Graph, info: Info, render: real -> string)
    requires UnitReady(geo, g, info)
    ensures var ps := FlowTargets(info.n);
      var plan := UnitPlan(code, geo, g, info, render);
      && |plan| == 2 + |ps|
      && !IsFlowFile(plan[0]) && !IsFlowFile(plan[1])
      && forall j :: 2 <= j < |plan| ==> NameOf(plan[j]) == FlowName(code, ps[j - 2])
  {
    var plan := UnitPlan(code, geo, g, info, render);
    UnitPlanShape(code, geo, g, info, render);
    forall j | 2 <= j < |plan| ensures plan[j] == plan[2..][j - 2] {
    }
  }

  /** The filtering law: a unit gets the flow file `{ent}_{p}.txt` exactly
      when `p` is one of `get_p_from_n(N)` and `N > p`. */
  lemma FlowFileWritten(code: string, geo: seq<Area>, g: Graph, info: Info, render: real -> string, p: int)
    requires UnitReady(geo, g, info)
    ensures (exists e :: e in UnitPlan(code, geo, g, info, render) && NameOf(e) == FlowName(code, p))
        <==> p in GetPFromN(info.n) && info.n > p
  {
    FlowEntries(code, geo, g, info, render);
    FlowNamesIn(code, UnitPlan(code, geo, g, info, render), FlowTargets(info.n), p);
  }

  /** In a plan whose flow files are named after `ps`, there is one named
      after `p` exactly when `p` is in `ps`. */
  lemma FlowNamesIn(code: string, plan: seq<Expected>, ps: seq<int>, p: int)
    requires |plan| == 2 + |ps| && !IsFlowFile(plan[0]) && !IsFlowFile(plan[1])
    requires forall j :: 2 <= j < |plan| ==> NameOf(plan[j]) == FlowName(code, ps[j - 2])
    ensures (exists e :: e in plan && NameOf(e) == FlowName(code, p)) <==> p in ps
  {
    if e :| e in plan && NameOf(e) == FlowName(code, p) {
      var j :| 0 <= j < |plan| && plan[j] == e;
      assert ps[j - 2] in ps;
    }
    if p in ps {
      var k :| 0 <= k < |ps| && ps[k] == p;
      assert plan[k + 2] in plan;
    }
  }

  /** For state `i` the law reads: `{ent}_{p}.txt` is written exactly when
      `p` is one of `get_p_from_n(N)` for the state's `N` rows and `N > p`. */
  lemma StateFlowFileWritten(df: seq<Area>, i: int, touches: Touching, render: real -> string, p: int)
    requires Shaped(df)
    ensures var code := StateCode(i);
      var n := |StateRows(df, code)|;
      (exists e :: e in StatePlan(df, i, touches, render) && NameOf(e) == FlowName(code, p))
        <==> p in GetPFromN(n) && n > p
  {
    var code := StateCode(i);
    var geo := StateRows(df, code);
    var g := UnitGraph(geo, touches);
    var info := UnitInfo(geo, touches);
    assert StatePlan(df, i, touches, render) == UnitPlan(code, geo, g, info, render);
    FlowFileWritten(code, geo, g, info, render, p);
  }

  /** The whole-country block writes the table `00.gpkg` and the graph
      `00.pkl`, and no flow instance. */
  lemma CountryWritesNoFlow(df: seq<Area>, touches: Touching)
    requires Shaped(df)
    ensures var plan := CountryPlan(df, touches);
      && |plan| == 2
      && plan[0] == Exactly(Gpkg(GpkgName(CountryCode), df))
      && plan[1].GraphOf? && plan[1].name == GraphName(CountryCode)
      && forall e :: e in plan ==> !IsFlowFile(e)
  {
  }

  /** A flow file in state `i`'s plan is named after that state and a
      region count kept for it. */
  lemma StateFlowEntry(df: seq<Area>, i: int, touches: Touching, render: real -> string, e: Expected)
    returns (p: int)
    requires Shaped(df)
    requires e in StatePlan(df, i, touches, render) && IsFlowFile(e)
    ensures p in FlowTargets(|StateRows(df, StateCode(i))|) && NameOf(e) == FlowName(StateCode(i), p)
  {
    var code := StateCode(i);
    var geo := StateRows(df, code);
    var g := UnitGraph(geo, touches);
    var info := UnitInfo(geo, touches);
    assert StatePlan(df, i, touches, render) == UnitPlan(code, geo, g, info, render);
    p := UnitFlowEntry(code, geo, g, info, render, e);
  }

  /** A flow file in a unit's plan is named after the unit and a region
      count kept for it. */
  lemma UnitFlowEntry(code: string, geo: seq<Area>, g: Graph, info: Info, render: real -> string, e: Expected)
    returns (p: int)
    requires UnitReady(geo, g, info)
    requires e in UnitPlan(code, geo, g, info, render) && IsFlowFile(e)
    ensures p in FlowTargets(info.n) && NameOf(e) == FlowName(code, p)
  {
    FlowEntries(code, geo, g, info, render);
    p := FlowEntryIn(code, UnitPlan(code, geo, g, info, render), FlowTargets(info.n), e);
  }

  /** In a plan whose flow files are named after `ps`, each flow file is
      named after one of `ps`. */
  lemma FlowEntryIn(code: string, plan: seq<Expected>, ps: seq<int>, e: Expected) returns (p: int)
    requires |plan| == 2 + |ps| && !IsFlowFile(plan[0]) && !IsFlowFile(plan[1])
    requires forall j :: 2 <= j < |plan| ==> NameOf(plan[j]) == FlowName(code, ps[j - 2])
    requires e in plan && IsFlowFile(e)
    ensures p in ps && NameOf(e) == FlowName(code, p)
  {
    var j :| 0 <= j < |plan| && plan[j] == e;
    p := ps[j - 2];
  }

  /** Everything written before state `hi` was written for one of the
      states `1 .. hi - 1`: the returned `i`. */
  lemma {:induction false} StateOf(df: seq<Area>, hi: int, touches: Touching,
                                   render: real -> string, e: Expected)
    returns (i: int)
    requires Shaped(df) && e in StatesPlan(df, hi, touches, render)
    ensures 1 <= i < hi && e in StatePlan(df, i, touches, render)
    decreases hi
  {
    assert hi > 1;
    var prev := StatesPlan(df, hi - 1, touches, render);
    var last := StatePlan(df, hi - 1, touches, render);
    assert e in prev + last;
    if e in prev {
      i := StateOf(df, hi - 1, touches, render, e);
    } else {
      i := hi - 1;
    }
  }

  /** Every flow instance the script writes belongs to one of the states
      1..32 and to a region count kept for it (the returned `i` and `p`):
      the country block adds none. */
  lemma AllFlowFilesBelongToStates(df: seq<Area>, touches: Touching, render: real -> string, e: Expected)
    returns (i: int, p: int)
    requires Shaped(df)
    requires e in Plan(df, touches, render) && IsFlowFile(e)
    ensures 1 <= i <= 32 && p in FlowTargets(|StateRows(df, StateCode(i))|) && NameOf(e) == FlowName(StateCode(i), p)
  {
    CountryWritesNoFlow(df, touches);
    assert e in StatesPlan(df, 33, touches, render);
    i := StateOf(df, 33, touches, render, e);
    p := StateFlowEntry(df, i, touches, render, e);
  }

  /** Four areas that all touch one another: the contiguity graph is
      complete, every neighbour list holds exactly the other three areas,
      and the only flow instance is the one for 3 regions. */
  lemma FourTouchingAreas(geo: seq<Area>, touches: Touching)
    requires |geo| == 4 && Shaped(geo) && Distinct(Ids(geo))
    requires forall i, j :: 0 <= i < 4 && 0 <= j < 4 && i != j ==> touches(geo[i], geo[j])
    ensures var info := UnitInfo(geo, touches);
      && info.n == 4 && FlowTargets(info.n) == [3]
      && forall i, j :: 0 <= i < 4 && 0 <= j < 4 ==> (geo[j].id in info.nb[i] <==> i != j)
  {
    var g := UnitGraph(geo, touches);
    var info := UnitInfo(geo, touches);
    TargetsForSmallUnits(4);
    forall i, j | 0 <= i < 4 && 0 <= j < 4
      ensures geo[j].id in info.nb[i] <==> i != j
    {
      ContiguityGraph(geo, touches, i, j);
      NeighborsAtMembership(g, i, j);
    }
  }

  /** No two entries of a plan are written under one file name. */
  predicate NamesApart(plan: seq<Expected>) {
    forall a, b :: 0 <= a < b < |plan| ==> NameOf(plan[a]) != NameOf(plan[b])
  }

  lemma NamesApartConcat(p: seq<Expected>, q: seq<Expected>)
    requires NamesApart(p) && NamesApart(q)
    requires forall e, f :: e in p && f in q ==> NameOf(e) != NameOf(f)
    ensures NamesApart(p + q)
  {
    forall a, b | 0 <= a < b < |p + q| ensures NameOf((p + q)[a]) != NameOf((p + q)[b]) {
      if b >= |p| {
        assert (p + q)[b] == q[b - |p|];
        if a < |p| {
          assert (p + q)[a] in p;
        } else {
          assert (p + q)[a] == q[a - |p|];
        }
      }
    }
  }

  /** A unit's files are named apart and all after the unit's code: its
      table and its graph differ in kind, and its flow files in p. */
  lemma UnitNamesApart(code: string, geo: seq<Area>, g: Graph, info: Info, render: real -> string)
    requires UnitReady(geo, g, info)
    ensures var plan := UnitPlan(code, geo, g, info, render);
      NamesApart(plan) && forall e :: e in plan ==> NameOf(e).code == code
  {
    var plan := UnitPlan(code, geo, g, info, render);
    FlowEntries(code, geo, g, info, render);
    assert plan[0] == Exactly(Gpkg(GpkgName(code), geo));
    assert plan[1] == GraphOf(GraphName(code), IGraphOf(g, geo));
    NamedAfterCode(plan, code, FlowTargets(info.n));
  }

  /** A table, a graph and flow files for increasing region counts, all
      named after one code, are named apart. */
  lemma NamedAfterCode(plan: seq<Expected>, code: string, ps: seq<int>)
    requires |plan| == 2 + |ps| && NameOf(plan[0]) == GpkgName(code) && NameOf(plan[1]) == GraphName(code)
    requires forall j :: 2 <= j < |plan| ==> NameOf(plan[j]) == FlowName(code, ps[j - 2])
    requires forall a, b :: 0 <= a < b < |ps| ==> ps[a] < ps[b]
    ensures NamesApart(plan) && forall e :: e in plan ==> NameOf(e).code == code
  {
    forall a, b | 0 <= a < b < |plan| ensures NameOf(plan[a]) != NameOf(plan[b]) {
      if 2 <= a {
        assert ps[a - 2] < ps[b - 2];
      }
    }
  }

  /** State `i`'s files are named apart and all after its code. */
  lemma StateNamesApart(df: seq<Area>, i: int, touches: Touching, render: real -> string)
    requires Shaped(df)
    ensures var plan := StatePlan(df, i, touches, render);
      NamesApart(plan) && forall e :: e in plan ==> NameOf(e).code == StateCode(i)
  {
    var geo := StateRows(df, StateCode(i));
    var g := UnitGraph(geo, touches);
    var info := UnitInfo(geo, touches);
    assert StatePlan(df, i, touches, render) == UnitPlan(StateCode(i), geo, g, info, render);
    UnitNamesApart(StateCode(i), geo, g, info, render);
  }

  /** The states `1 .. hi - 1` write no two files under one name: each
      state's names carry its own code. */
  lemma {:induction false} StatesNamesApart(df: seq<Area>, hi: int, touches: Touching, render: real -> string)
    requires Shaped(df) && hi <= 100
    ensures NamesApart(StatesPlan(df, hi, touches, render))
    decreases hi
  {
    if hi > 1 {
      var prev := StatesPlan(df, hi - 1, touches, render);
      var last := StatePlan(df, hi - 1, touches, render);
      StatesNamesApart(df, hi - 1, touches, render);
      StateNamesApart(df, hi - 1, touches, render);
      forall e, f | e in prev && f in last ensures NameOf(e) != NameOf(f) {
        var j := StateOf(df, hi - 1, touches, render, e);
        StateNamesApart(df, j, touches, render);
        StateCodeInjective(j, hi - 1);
      }
      NamesApartConcat(prev, last);
    }
  }

  /** Every file the states write is named after a two-character code
      other than the country's. */
  lemma StateEntryCode(df: seq<Area>, hi: int, touches: Touching, render: real -> string, e: Expected)
    requires Shaped(df) && hi <= 100 && e in StatesPlan(df, hi, touches, render)
    ensures |NameOf(e).code| == 2 && NameOf(e).code != CountryCode
  {
    var j := StateOf(df, hi, touches, render, e);
    StateNamesApart(df, j, touches, render);
    StateCodeInjective(j, j);
    StateCodeDigits(j);
  }

  /** The states `1 .. hi - 1` and then the country write no two files
      under one name, each named after a two-character code. */
  lemma StatesThenCountryApart(df: seq<Area>, hi: int, touches: Touching, render: real -> string)
    requires Shaped(df) && hi <= 100
    ensures var plan := StatesPlan(df, hi, touches, render) + CountryPlan(df, touches);
      NamesApart(plan) && forall e :: e in plan ==> |NameOf(e).code| == 2
  {
    var states := StatesPlan(df, hi, touches, render);
    var country := CountryPlan(df, touches);
    StatesNamesApart(df, hi, touches, render);
    CountryWritesNoFlow(df, touches);
    assert NameOf(country[0]) == GpkgName(CountryCode) && NameOf(country[1]) == GraphName(CountryCode);
    forall e | e in states ensures |NameOf(e).code| == 2 && NameOf(e).code != CountryCode {
      StateEntryCode(df, hi, touches, render, e);
    }
    CodesApart(states, country, CountryCode);
  }

  /** Entries named apart within `p` and within `q`, where `q` names its
      files after one two-character code that `p` never uses, are named
      apart together. */
  lemma CodesApart(p: seq<Expected>, q: seq<Expected>, code: string)
    requires NamesApart(p) && NamesApart(q) && |code| == 2
    requires forall e :: e in p ==> |NameOf(e).code| == 2 && NameOf(e).code != code
    requires forall k :: 0 <= k < |q| ==> NameOf(q[k]).code == code
    ensures NamesApart(p + q) && forall e :: e in p + q ==> |NameOf(e).code| == 2
  {
    NamesApartConcat(p, q);
  }

  /** Every file the script writes is named after a two-character code, and
      no two under one name. */
  lemma PlanNamesApart(df: seq<Area>, touches: Touching, render: real -> string)
    requires Shaped(df)
    ensures var plan := Plan(df, touches, render);
      NamesApart(plan) && forall e :: e in plan ==> |NameOf(e).code| == 2
  {
    StatesThenCountryApart(df, 33, touches, render);
  }

  /** No file the script writes overwrites another: any two entries of the
      plan go to different paths. */
  lemma PlanPathsApart(df: seq<Area>, touches: Touching, render: real -> string)
    requires Shaped(df)
    ensures var plan := Plan(df, touches, render);
      forall a, b :: 0 <= a < b < |plan| ==> Path(NameOf(plan[a])) != Path(NameOf(plan[b]))
  {
    var plan := Plan(df, touches, render);
    PlanNamesApart(df, touches, render);
    forall a, b | 0 <= a < b < |plan| ensures Path(NameOf(plan[a])) != Path(NameOf(plan[b])) {
      assert plan[a] in plan && plan[b] in plan;
      PathInjective(NameOf(plan[a]), NameOf(plan[b]));
    }
  }
}
