/** The flow-instance serialiser (`Create_Instance_Flow`): the text the
    solver reads for one unit of work and one region count. `FlowLines`
    says which line goes where; `CreateInstanceFlow` builds the text by
    appending to a string, as the source does, and is proved to produce
    exactly those lines, each followed by a newline. */
module FlowInstance {
  import opened Text
  import opened Instance

  /** `list(range(lo, hi))`. */
  function Range(lo: int, hi: int): (r: seq<int>)
    ensures |r| == if hi > lo then hi - lo else 0
    ensures forall k :: 0 <= k < |r| ==> r[k] == lo + k
    decreases hi - lo
  {
    if lo >= hi then [] else [lo] + Range(lo + 1, hi)
  }

  /** `map(str, xs)`. */
  function Strs(xs: seq<int>): (r: seq<string>)
    ensures |r| == |xs|
  {
    seq(|xs|, k requires 0 <= k < |xs| => IntToString(xs[k]))
  }

  /** The line of the set of regions: `K: [1 2 ... p ]`. */
  function KLine(p: int): string {
    "K: [" + Join(" ", Strs(Range(1, p + 1))) + " ]"
  }

  /** The number and the set of areas, each after its `!` comment. */
  function AreaLines(n: int, v: seq<string>): (lines: seq<string>)
    ensures |lines| == 4
  {
    ["!n: Number of areas", "n: " + IntToString(n), "!I: Set if areas", "I: [" + Join(" ", v) + " ]"]
  }

  /** The number and the set of regions, each after its `!` comment. */
  function RegionLines(p: int): (lines: seq<string>)
    ensures |lines| == 4
  {
    ["!p: Number of regions", "p: " + IntToString(p), "!K: Set of regions", KLine(p)]
  }

  function NeighborLine(area: string, neighbors: seq<string>): string {
    "(" + area + ") [" + Join(" ", neighbors) + "]"
  }

  function Min(a: int, b: int): int {
    if a < b then a else b
  }

  /** One line per pair of `zip(V, NB)`: as many as the shorter list. */
  function NeighborLines(v: seq<string>, nb: seq<seq<string>>): (lines: seq<string>)
    ensures |lines| == Min(|v|, |nb|)
  {
    seq(Min(|v|, |nb|), k requires 0 <= k < Min(|v|, |nb|) => NeighborLine(v[k], nb[k]))
  }

  function DistanceLine(i: string, j: string, dist: real, render: real -> string): string {
    "(" + i + " " + j + ") " + render(dist)
  }

  /** The distance lines of row `r`, one per column, in column order. */
  function RowLines(d: Table, r: nat, render: real -> string): (lines: seq<string>)
    requires d.WellFormed() && r < |d.index|
    ensures |lines| == |d.columns|
  {
    seq(|d.columns|, c requires 0 <= c < |d.columns| =>
      DistanceLine(d.index[r], d.columns[c], d.cells[r][c], render))
  }

  /** The distance lines of the first `r` rows, row after row. */
  function RowsLines(d: Table, r: nat, render: real -> string): (lines: seq<string>)
    requires d.WellFormed() && r <= |d.index|
  {
    if r == 0 then [] else RowsLines(d, r - 1, render) + RowLines(d, r - 1, render)
  }

  /** Every ordered pair of the table, row index outer, column index inner. */
  function DistanceLines(d: Table, render: real -> string): seq<string>
    requires d.WellFormed()
  {
    RowsLines(d, |d.index|, render)
  }

  /** The neighbour section: its comment, the opening bracket, one line
      per area and the closing bracket. */
  function NeighborSection(v: seq<string>, nb: seq<seq<string>>): (lines: seq<string>)
    ensures |lines| == 3 + Min(|v|, |nb|)
  {
    ["!N: Node Neighbor Set", "N: ["] + NeighborLines(v, nb) + ["]"]
  }

  /** The distance section: its comment, the opening bracket, one line per
      ordered pair and the closing bracket. */
  function DistanceSection(d: Table, render: real -> string): (lines: seq<string>)
    requires d.WellFormed()
  {
    ["!d(i,j): distance list", "d: ["] + DistanceLines(d, render) + ["]"]
  }

  /** The whole instance, line by line, section after section. */
  function FlowLines(n: int, v: seq<string>, nb: seq<seq<string>>, d: Table, p: int,
                     render: real -> string): seq<string>
    requires d.WellFormed()
  {
    AreaLines(n, v) + RegionLines(p) + NeighborSection(v, nb) + DistanceSection(d, render)
  }

  /** The text `Create_Instance_Flow` writes. */
  function FlowText(n: int, v: seq<string>, nb: seq<seq<string>>, d: Table, p: int,
                    render: real -> string): string
    requires d.WellFormed()
  {
    Document(FlowLines(n, v, nb, d, p, render))
  }

  lemma DocumentSnoc(lines: seq<string>, line: string)
    ensures Document(lines + [line]) == Document(lines) + line + "\n"
  {
    DocumentAppend(lines, [line]);
  }

  /** Appending `line + "\n"` to a text that ends in the document of
      `lines` gives the document of `lines + [line]`. */
  lemma Emit(output: string, lines: seq<string>, line: string)
    ensures output + Document(lines) + line + "\n" == output + Document(lines + [line])
  {
    DocumentSnoc(lines, line);
  }

  /** The same for a block of lines. */
  lemma EmitAll(output: string, lines: seq<string>, more: seq<string>)
    ensures output + Document(lines) + Document(more) == output + Document(lines + more)
  {
    DocumentAppend(lines, more);
  }

  /** Appends the number and the set of areas. */
  method AppendAreas(output: string, n: int, v: seq<string>) returns (out: string)
    ensures out == output + Document(AreaLines(n, v))
  {
    ghost var written: seq<string> := [];
    out := output;
    assert out == output + Document(written);
    var line := "!n: Number of areas";
    Emit(output, written, line);
    out, written := out + line + "\n", written + [line];
    line := "n: " + IntToString(n);
    Emit(output, written, line);
    out, written := out + line + "\n", written + [line];
    line := "!I: Set if areas";
    Emit(output, written, line);
    out, written := out + line + "\n", written + [line];
    line := "I: [" + Join(" ", v) + " ]";
    Emit(output, written, line);
    out, written := out + line + "\n", written + [line];
    assert written == AreaLines(n, v);
  }

  /** Appends the number and the set of regions, the latter built from
      `list(range(1, p+1))`. */
  method AppendRegions(output: string, p: int) returns (out: string)
    ensures out == output + Document(RegionLines(p))
  {
    ghost var written: seq<string> := [];
    out := output;
    assert out == output + Document(written);
    var line := "!p: Number of regions";
    Emit(output, written, line);
    out, written := out + line + "\n", written + [line];
    line := "p: " + IntToString(p);
    Emit(output, written, line);
    out, written := out + line + "\n", written + [line];
    line := "!K: Set of regions";
    Emit(output, written, line);
    out, written := out + line + "\n", written + [line];
    var regions := Range(1, p + 1);
    line := "K: [" + Join(" ", Strs(regions)) + " ]";
    Emit(output, written, line);
    out, written := out + line + "\n", written + [line];
    assert written == RegionLines(p);
  }

  /** A section written as a comment line, an opening line, a body and a
      closing line is the document of those lines. */
  lemma SectionText(output: string, comment: string, opening: string, body: seq<string>, closing: string)
    ensures output + comment + "\n" + opening + "\n" + Document(body) + closing + "\n"
         == output + Document([comment, opening] + body + [closing])
  {
    DocumentAppend([comment, opening] + body, [closing]);
    DocumentAppend([comment, opening], body);
    assert Document([comment, opening]) == comment + "\n" + (opening + "\n" + "");
  }

  /** Appends the neighbour section: one line per pair of `zip(V, NB)`, in
      order, between the comment and the brackets. */
  method AppendNeighbors(output: string, v: seq<string>, nb: seq<seq<string>>) returns (out: string)
    ensures out == output + Document(NeighborSection(v, nb))
  {
    out := output + "!N: Node Neighbor Set" + "\n" + "N: [" + "\n";
    ghost var start := out;
    assert out == start + Document(NeighborLines(v, nb)[..0]);
    var m := Min(|v|, |nb|);
    var k := 0;
    while k < m
      invariant 0 <= k <= m
      invariant out == start + Document(NeighborLines(v, nb)[..k])
    {
      var neighborsStr := Join(" ", nb[k]);
      var line := "(" + v[k] + ") [" + neighborsStr + "]";
      Emit(start, NeighborLines(v, nb)[..k], line);
      assert NeighborLines(v, nb)[..k] + [line] == NeighborLines(v, nb)[..k + 1];
      out := out + line + "\n";
      k := k + 1;
    }
    assert NeighborLines(v, nb)[..m] == NeighborLines(v, nb);
    out := out + "]" + "\n";
    SectionText(output, "!N: Node Neighbor Set", "N: [", NeighborLines(v, nb), "]");
  }

  /** Appends the distance lines of row `r`, one per column of `D`. */
  method AppendRow(output: string, d: Table, r: nat, render: real -> string) returns (out: string)
    requires d.WellFormed() && r < |d.index|
    ensures out == output + Document(RowLines(d, r, render))
  {
    out := output;
    assert out == output + Document(RowLines(d, r, render)[..0]);
    var c := 0;
    while c < |d.columns|
      invariant 0 <= c <= |d.columns|
      invariant out == output + Document(RowLines(d, r, render)[..c])
    {
      var line := "(" + d.index[r] + " " + d.columns[c] + ") " + render(d.cells[r][c]);
      Emit(output, RowLines(d, r, render)[..c], line);
      assert RowLines(d, r, render)[..c] + [line] == RowLines(d, r, render)[..c + 1];
      out := out + line + "\n";
      c := c + 1;
    }
    assert RowLines(d, r, render)[..|d.columns|] == RowLines(d, r, render);
  }

  /** Appends the distance section: one line per ordered pair, the index of
      `D` in the outer loop and its columns in the inner loop. */
  method AppendDistances(output: string, d: Table, render: real -> string) returns (out: string)
    requires d.WellFormed()
    ensures out == output + Document(DistanceSection(d, render))
  {
    out := output + "!d(i,j): distance list" + "\n" + "d: [" + "\n";
    ghost var start := out;
    assert out == start + Document(RowsLines(d, 0, render));
    var r := 0;
    while r < |d.index|
      invariant 0 <= r <= |d.index|
      invariant out == start + Document(RowsLines(d, r, render))
    {
      EmitAll(start, RowsLines(d, r, render), RowLines(d, r, render));
      out := AppendRow(out, d, r, render);
      r := r + 1;
    }
    out := out + "]" + "\n";
    SectionText(output, "!d(i,j): distance list", "d: [", DistanceLines(d, render), "]");
  }

  /** `Create_Instance_Flow`, minus the file: the four sections appended to
      the text in turn. */
  method CreateInstanceFlow(n: int, v: seq<string>, nb: seq<seq<string>>, d: Table, p: int,
                            render: real -> string) returns (output: string)
    requires d.WellFormed()
    ensures output == FlowText(n, v, nb, d, p, render)
  {
    output := AppendAreas("", n, v);
    output := AppendRegions(output, p);
    output := AppendNeighbors(output, v, nb);
    output := AppendDistances(output, d, render);
    DocumentOfSections(AreaLines(n, v), RegionLines(p), NeighborSection(v, nb), DistanceSection(d, render));
  }

  /** The text of four sections written one after the other is the text of
      all their lines. */
  lemma DocumentOfSections(a: seq<string>, b: seq<string>, c: seq<string>, e: seq<string>)
    ensures "" + Document(a) + Document(b) + Document(c) + Document(e) == Document(a + b + c + e)
  {
    DocumentAppend(a, b);
    DocumentAppend(a + b, c);
    DocumentAppend(a + b + c, e);
  }

  lemma {:induction false} RowsLinesLength(d: Table, r: nat, render: real -> string)
    requires d.WellFormed() && r <= |d.index|
    ensures |RowsLines(d, r, render)| == r * |d.columns|
  {
    if r > 0 {
      RowsLinesLength(d, r - 1, render);
      assert (r - 1) * |d.columns| + |d.columns| == r * |d.columns|;
    }
  }

  lemma MulMonotone(a: nat, b: nat, c: nat)
    requires a <= b
    ensures a * c <= b * c
  {
  }

  /** The position of row `r`, column `c` in a row-major listing of rows
      of width `w`. */
  function RowMajor(r: nat, c: nat, w: nat): nat {
    r * w + c
  }

  /** Line `r * C + c` of the first `rows` rows is the distance line of
      row `r` and column `c`. */
  lemma {:induction false} RowsLinesAt(d: Table, rows: nat, r: nat, c: nat, render: real -> string)
    requires d.WellFormed() && rows <= |d.index| && r < rows && c < |d.columns|
    ensures |RowsLines(d, rows, render)| == rows * |d.columns|
    ensures RowMajor(r, c, |d.columns|) < rows * |d.columns|
    ensures RowsLines(d, rows, render)[RowMajor(r, c, |d.columns|)]
              == DistanceLine(d.index[r], d.columns[c], d.cells[r][c], render)
  {
    var w := |d.columns|;
    RowsLinesLength(d, rows, render);
    RowsLinesLength(d, rows - 1, render);
    assert (rows - 1) * w + w == rows * w;
    if r < rows - 1 {
      RowsLinesAt(d, rows - 1, r, c, render);
    } else {
      assert r * w == (rows - 1) * w;
    }
  }

  /** A flow instance has 14 lines besides one line per neighbour pair and
      one line per distance; with N areas everywhere that is 14 + N + N^2. */
  lemma FlowLineCount(n: int, v: seq<string>, nb: seq<seq<string>>, d: Table, p: int,
                      render: real -> string)
    requires d.WellFormed()
    ensures |FlowLines(n, v, nb, d, p, render)| == 14 + Min(|v|, |nb|) + |d.index| * |d.columns|
    ensures n == |v| == |nb| == |d.index| == |d.columns| ==>
              |FlowLines(n, v, nb, d, p, render)| == 14 + n + n * n
  {
    RowsLinesLength(d, |d.index|, render);
  }

  /** The header lines hold the number of areas, the areas separated by
      spaces, the number of regions and the regions 1..p, at fixed lines. */
  lemma FlowHeader(n: int, v: seq<string>, nb: seq<seq<string>>, d: Table, p: int,
                   render: real -> string)
    requires d.WellFormed()
    ensures var lines := FlowLines(n, v, nb, d, p, render);
      && |lines| >= 14
      && lines[1] == "n: " + IntToString(n)
      && lines[3] == "I: [" + Join(" ", v) + " ]"
      && lines[5] == "p: " + IntToString(p)
      && lines[7] == "K: [" + Join(" ", Strs(Range(1, p + 1))) + " ]"
      && lines[9] == "N: ["
  {
    FlowLineCount(n, v, nb, d, p, render);
  }

  /** Line `10 + k` is the neighbour line of the `k`-th area. */
  lemma NeighborLineAt(n: int, v: seq<string>, nb: seq<seq<string>>, d: Table, p: int,
                       render: real -> string, k: nat)
    requires d.WellFormed() && k < |v| && k < |nb|
    ensures 10 + k < |FlowLines(n, v, nb, d, p, render)|
    ensures FlowLines(n, v, nb, d, p, render)[10 + k] == "(" + v[k] + ") [" + Join(" ", nb[k]) + "]"
  {
    var ns := NeighborSection(v, nb);
    assert ns[2 + k] == NeighborLines(v, nb)[k];
    assert FlowLines(n, v, nb, d, p, render)[10 + k] == ns[2 + k];
  }

  /** Line `13 + m + r * C + c` is the distance between the area of row `r`
      and the area of column `c`, where `m` is the number of neighbour lines
      and `C` the number of columns: row-major order over every ordered
      pair, the diagonal included. The last line closes the list. */
  lemma DistanceLineAt(n: int, v: seq<string>, nb: seq<seq<string>>, d: Table, p: int,
                       render: real -> string, r: nat, c: nat)
    requires d.WellFormed() && r < |d.index| && c < |d.columns|
    ensures var lines := FlowLines(n, v, nb, d, p, render);
      var t := 13 + Min(|v|, |nb|) + RowMajor(r, c, |d.columns|);
      && t < |lines| - 1
      && lines[t] == "(" + d.index[r] + " " + d.columns[c] + ") " + render(d.cells[r][c])
      && lines[|lines| - 1] == "]"
  {
    var t := RowMajor(r, c, |d.columns|);
    RowsLinesAt(d, |d.index|, r, c, render);
    var ds := DistanceSection(d, render);
    var head := AreaLines(n, v) + RegionLines(p) + NeighborSection(v, nb);
    assert |head| == 11 + Min(|v|, |nb|);
    assert FlowLines(n, v, nb, d, p, render) == head + ds;
    OffsetInto(head, ds, 2 + t);
    OffsetInto(head, ds, |ds| - 1);
  }

  lemma OffsetInto(head: seq<string>, tail: seq<string>, i: nat)
    requires i < |tail|
    ensures (head + tail)[|head| + i] == tail[i]
  {
  }

  /** Every distance line opens with a parenthesis, and holds no newline
      when neither the labels nor the rendered values do. */
  lemma {:induction false} RowsLinesShape(d: Table, r: nat, render: real -> string)
    requires d.WellFormed() && r <= |d.index|
    ensures forall t :: 0 <= t < |RowsLines(d, r, render)| ==>
              |RowsLines(d, r, render)[t]| > 0 && RowsLines(d, r, render)[t][0] == '('
    ensures NewlineFree(d, render) ==> NoNewlines(RowsLines(d, r, render))
  {
    if r > 0 {
      RowsLinesShape(d, r - 1, render);
      var prev := RowsLines(d, r - 1, render);
      var row := RowLines(d, r - 1, render);
      assert RowsLines(d, r, render) == prev + row;
      forall t | 0 <= t < |prev| + |row|
        ensures |(prev + row)[t]| > 0 && (prev + row)[t][0] == '('
        ensures NewlineFree(d, render) ==> '\n' !in (prev + row)[t]
      {
        if t >= |prev| {
          var c := t - |prev|;
          assert (prev + row)[t] == DistanceLine(d.index[r - 1], d.columns[c], d.cells[r - 1][c], render);
        }
      }
    }
  }

  /** No label of the table and no rendered distance holds a newline. */
  ghost predicate NewlineFree(d: Table, render: real -> string) {
    && (forall r :: 0 <= r < |d.index| ==> '\n' !in d.index[r])
    && (forall c :: 0 <= c < |d.columns| ==> '\n' !in d.columns[c])
    && (forall x :: '\n' !in render(x))
  }

  ghost predicate NoNewlines(lines: seq<string>) {
    forall k :: 0 <= k < |lines| ==> '\n' !in lines[k]
  }

  /** Line `k` of `lines` is non-empty, and is a `!` comment exactly when
      `k` is 0 or, for a header section, 2. */
  ghost predicate SectionComments(lines: seq<string>, header: bool) {
    forall k :: 0 <= k < |lines| ==>
      |lines[k]| > 0 && (lines[k][0] == '!' <==> k == 0 || (header && k == 2))
  }

  /** The places of the comment lines in a flow instance with `m` neighbour
      lines: before n, I, p, K, N and d. */
  predicate IsCommentPlace(k: int, m: int) {
    k == 0 || k == 2 || k == 4 || k == 6 || k == 8 || k == 11 + m
  }

  lemma AreaLinesShape(n: int, v: seq<string>)
    ensures SectionComments(AreaLines(n, v), true)
    ensures NoNewlines(v) ==> NoNewlines(AreaLines(n, v))
  {
    if NoNewlines(v) {
      IntToStringChars(n);
      JoinAvoids(" ", v, '\n');
    }
  }

  lemma RegionLinesShape(p: int)
    ensures SectionComments(RegionLines(p), true)
    ensures NoNewlines(RegionLines(p))
  {
    IntToStringChars(p);
    var regions := Strs(Range(1, p + 1));
    forall k | 0 <= k < |regions| ensures '\n' !in regions[k] {
      IntToStringChars(Range(1, p + 1)[k]);
    }
    JoinAvoids(" ", regions, '\n');
  }

  lemma NeighborSectionShape(v: seq<string>, nb: seq<seq<string>>)
    ensures SectionComments(NeighborSection(v, nb), false)
    ensures NoNewlines(v) && (forall k :: 0 <= k < |nb| ==> NoNewlines(nb[k])) ==>
              NoNewlines(NeighborSection(v, nb))
  {
    var ns := NeighborSection(v, nb);
    forall k | 0 <= k < |ns|
      ensures |ns[k]| > 0 && (ns[k][0] == '!' <==> k == 0)
      ensures NoNewlines(v) && (forall j :: 0 <= j < |nb| ==> NoNewlines(nb[j])) ==> '\n' !in ns[k]
    {
      if 2 <= k < |ns| - 1 {
        assert ns[k] == NeighborLine(v[k - 2], nb[k - 2]);
        if NoNewlines(v) && (forall j :: 0 <= j < |nb| ==> NoNewlines(nb[j])) {
          JoinAvoids(" ", nb[k - 2], '\n');
        }
      }
    }
  }

  lemma DistanceSectionShape(d: Table, render: real -> string)
    requires d.WellFormed()
    ensures SectionComments(DistanceSection(d, render), false)
    ensures NewlineFree(d, render) ==> NoNewlines(DistanceSection(d, render))
  {
    var dl := DistanceLines(d, render);
    RowsLinesShape(d, |d.index|, render);
    var ds := DistanceSection(d, render);
    forall k | 2 <= k < |ds| - 1
      ensures ds[k] == dl[k - 2]
    {
    }
  }

  /** Exactly six lines are `!` comments, one right before each section:
      n, I, p, K, N and d, in that order; every other line starts with a
      value, a bracket or a parenthesis. */
  lemma CommentLines(n: int, v: seq<string>, nb: seq<seq<string>>, d: Table, p: int,
                     render: real -> string)
    requires d.WellFormed()
    ensures var lines := FlowLines(n, v, nb, d, p, render);
      forall k :: 0 <= k < |lines| ==>
        |lines[k]| > 0 && (lines[k][0] == '!' <==> IsCommentPlace(k, Min(|v|, |nb|)))
  {
    AreaLinesShape(n, v);
    RegionLinesShape(p);
    NeighborSectionShape(v, nb);
    DistanceSectionShape(d, render);
    CommentsOfSections(AreaLines(n, v), RegionLines(p), NeighborSection(v, nb), DistanceSection(d, render),
                       Min(|v|, |nb|));
  }

  /** Four sections with comments at their own places make a document with
      comments exactly at the shifted places. */
  lemma CommentsOfSections(al: seq<string>, rl: seq<string>, ns: seq<string>, ds: seq<string>, m: nat)
    requires |al| == 4 && |rl| == 4 && |ns| == 3 + m
    requires SectionComments(al, true) && SectionComments(rl, true)
    requires SectionComments(ns, false) && SectionComments(ds, false)
    ensures var lines := al + rl + ns + ds;
      forall k :: 0 <= k < |lines| ==> |lines[k]| > 0 && (lines[k][0] == '!' <==> IsCommentPlace(k, m))
  {
    var lines := al + rl + ns + ds;
    forall k | 0 <= k < |lines|
      ensures |lines[k]| > 0 && (lines[k][0] == '!' <==> IsCommentPlace(k, m))
    {
      if k < 4 {
        assert lines[k] == al[k];
      } else if k < 8 {
        assert lines[k] == rl[k - 4];
      } else if k < 11 + m {
        assert lines[k] == ns[k - 8];
      } else {
        assert lines[k] == ds[k - 11 - m];
      }
    }
  }

  lemma NoNewlinesAppend(a: seq<string>, b: seq<string>)
    requires NoNewlines(a) && NoNewlines(b)
    ensures NoNewlines(a + b)
  {
    forall k | 0 <= k < |a + b| ensures '\n' !in (a + b)[k] {
      if k >= |a| {
        assert (a + b)[k] == b[k - |a|];
      }
    }
  }

  /** The text holds one newline per line, and splitting it at newlines
      gives the lines back, as long as no area name and no rendered
      distance holds a newline. */
  lemma FlowTextLines(n: int, v: seq<string>, nb: seq<seq<string>>, d: Table, p: int,
                      render: real -> string)
    requires d.WellFormed() && NewlineFree(d, render)
    requires NoNewlines(v) && forall k :: 0 <= k < |nb| ==> NoNewlines(nb[k])
    ensures Count(FlowText(n, v, nb, d, p, render), '\n') == |FlowLines(n, v, nb, d, p, render)|
    ensures Split(FlowText(n, v, nb, d, p, render), '\n') == FlowLines(n, v, nb, d, p, render) + [""]
  {
    var al, rl, ns, ds := AreaLines(n, v), RegionLines(p), NeighborSection(v, nb), DistanceSection(d, render);
    AreaLinesShape(n, v);
    RegionLinesShape(p);
    NeighborSectionShape(v, nb);
    DistanceSectionShape(d, render);
    NoNewlinesAppend(al, rl);
    NoNewlinesAppend(al + rl, ns);
    NoNewlinesAppend(al + rl + ns, ds);
    var lines := FlowLines(n, v, nb, d, p, render);
    DocumentNewlines(lines);
    SplitDocument(lines);
  }
}
