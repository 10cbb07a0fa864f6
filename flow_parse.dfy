/** Reading a flow instance back, as the solver does: the number of areas,
    the areas, the number of regions, the neighbour lists and the distance
    of every ordered pair, each taken from the line the serialiser puts it
    on. The round trip says that nothing is lost or reordered on the way
    out: reading what `Create_Instance_Flow` writes gives back exactly the
    data it was given. */
module FlowParse {
  import opened Text
  import opened Instance
  import opened FlowInstance

  /** The data of one flow instance, as read from its text. */
  datatype FlowData = FlowData(n: int, v: seq<string>, p: int, nb: seq<seq<string>>, dist: seq<seq<real>>)

  /** Labels that can be told apart in a space-separated list on one line:
      not empty, with no space and no newline. */
  predicate Labels(s: seq<string>) {
    forall k :: 0 <= k < |s| ==> |s[k]| > 0 && ' ' !in s[k] && '\n' !in s[k]
  }

  /** `s` without its first `a` characters. */
  function Drop(s: string, a: nat): (r: string)
    ensures a <= |s| ==> s == s[..a] + r
  {
    if a <= |s| then s[a..] else ""
  }

  /** `s` without its first `a` and its last `b` characters. */
  function Inner(s: string, a: nat, b: nat): (r: string)
    ensures a + b <= |s| ==> s == s[..a] + r + s[|s| - b..]
  {
    if a + b <= |s| then s[a..|s| - b] else ""
  }

  /** The items of a space-separated list; the empty text is the empty list. */
  function Words(s: string): seq<string> {
    if s == "" then [] else Split(s, ' ')
  }

  /** A list of labels joined with single spaces reads back as the list. */
  lemma WordsJoin(items: seq<string>)
    requires Labels(items)
    ensures Words(Join(" ", items)) == items
  {
    if |items| > 0 {
      assert |Join(" ", items)| >= |items[0]| > 0;
      SplitJoin(items, ' ');
    }
  }

  /** Position `r * n + c` of an `n` by `n` row-major listing is inside it. */
  lemma RowMajorBelow(r: nat, c: nat, n: nat)
    requires r < n && c < n
    ensures RowMajor(r, c, n) < n * n
  {
    MulMonotone(r, n - 1, n);
    assert (n - 1) * n + n == n * n;
  }

  /** The place of the distance from area `r` to area `c` among the `n * n`
      distance lines. */
  function Cell(r: nat, c: nat, n: nat): (t: nat)
    requires r < n && c < n
    ensures t < n * n && t == RowMajor(r, c, n)
  {
    RowMajorBelow(r, c, n);
    RowMajor(r, c, n)
  }

  /** Reads a flow instance: the number of areas from the `n` line, the
      areas from the `I` line, the number of regions from the `p` line, the
      neighbours of the `k`-th area from the `k`-th line of the `N` section
      and the distance between areas `r` and `c` from line `r * N + c` of
      the `d` section, the value turned back into a number by `parseReal`.
      A text whose number of lines does not fit its `n` line, or whose `I`
      line does not list `n` areas, is rejected. */
  function ParseFlow(text: string, parseReal: string -> real): (r: Option<FlowData>)
    ensures r.Some? ==>
      && r.value.n >= 0 && |Split(text, '\n')| == 15 + r.value.n + r.value.n * r.value.n
      && |r.value.v| == |r.value.nb| == |r.value.dist| == r.value.n
      && forall k :: 0 <= k < r.value.n ==> |r.value.dist[k]| == r.value.n
  {
    var lines := Split(text, '\n');
    if |lines| < 2 then None
    else
      var n := ParseInt(Drop(lines[1], 3));
      if n < 0 || |lines| != 15 + n + n * n then None
      else
        var v := Words(Inner(lines[3], 4, 2));
        if |v| != n then None
        else
          Some(FlowData(n, v, ParseInt(Drop(lines[5], 3)), ReadNeighbors(lines, v),
                        ReadDistances(lines, v, parseReal)))
  }

  /** The neighbour lists: line `10 + k` lists those of area `k`, after its
      label in parentheses and the opening bracket, before the closing one. */
  function ReadNeighbors(lines: seq<string>, v: seq<string>): (nb: seq<seq<string>>)
    requires |lines| >= 10 + |v|
    ensures |nb| == |v|
  {
    seq(|v|, k requires 0 <= k < |v| => Words(Inner(lines[10 + k], |v[k]| + 4, 1)))
  }

  /** The distance table: line `13 + N + r * N + c` holds the distance from
      area `r` to area `c`, after the pair of labels in parentheses. */
  function ReadDistances(lines: seq<string>, v: seq<string>, parseReal: string -> real): (dist: seq<seq<real>>)
    requires |lines| >= 13 + |v| + |v| * |v|
    ensures |dist| == |v| && forall r :: 0 <= r < |v| ==> |dist[r]| == |v|
  {
    var n := |v|;
    seq(n, r requires 0 <= r < n =>
      seq(n, c requires 0 <= c < n =>
        parseReal(Drop(lines[13 + n + Cell(r, c, n)], |v[r]| + |v[c]| + 4))))
  }

  /** The facts the round trip needs of the arguments of the serialiser. */
  ghost predicate Readable(v: seq<string>, nb: seq<seq<string>>, d: Table,
                           render: real -> string, parseReal: string -> real)
  {
    && Labels(v) && |nb| == |v| && (forall k :: 0 <= k < |nb| ==> Labels(nb[k]))
    && d.WellFormed() && d.index == v && d.columns == v
    && (forall x :: '\n' !in render(x))
    && forall r, c :: 0 <= r < |v| && 0 <= c < |v| ==> parseReal(render(d.cells[r][c])) == d.cells[r][c]
  }

  /** The `n`, `I` and `p` lines read back as N, the areas and p. */
  lemma HeaderRead(v: seq<string>, nb: seq<seq<string>>, d: Table, p: int,
                   render: real -> string, parseReal: string -> real, split: seq<string>)
    requires Readable(v, nb, d, render, parseReal)
    requires split == FlowLines(|v|, v, nb, d, p, render) + [""]
    ensures |split| == 15 + |v| + |v| * |v|
    ensures ParseInt(Drop(split[1], 3)) == |v|
    ensures Words(Inner(split[3], 4, 2)) == v
    ensures ParseInt(Drop(split[5], 3)) == p
  {
    var n := |v|;
    var lines := FlowLines(n, v, nb, d, p, render);
    FlowLineCount(n, v, nb, d, p, render);
    FlowHeader(n, v, nb, d, p, render);
    assert split[1] == lines[1] && split[3] == lines[3] && split[5] == lines[5];
    assert Drop(lines[1], 3) == IntToString(n);
    IntToStringRoundTrip(n);
    assert Drop(lines[5], 3) == IntToString(p);
    IntToStringRoundTrip(p);
    assert Inner(lines[3], 4, 2) == Join(" ", v);
    WordsJoin(v);
  }

  /** Line `10 + k` of the text is the neighbour line of area `k`. */
  lemma NeighborLinesAt(v: seq<string>, nb: seq<seq<string>>, d: Table, p: int,
                        render: real -> string, split: seq<string>)
    requires |nb| == |v| && d.WellFormed()
    requires split == FlowLines(|v|, v, nb, d, p, render) + [""]
    ensures |split| >= 10 + |v|
    ensures forall k :: 0 <= k < |v| ==> split[10 + k] == NeighborLine(v[k], nb[k])
  {
    FlowLineCount(|v|, v, nb, d, p, render);
    forall k | 0 <= k < |v|
      ensures split[10 + k] == NeighborLine(v[k], nb[k])
    {
      NeighborLineAt(|v|, v, nb, d, p, render, k);
    }
  }

  /** Line `13 + N + r * N + c` of the text is the distance line of areas
      `r` and `c`. */
  lemma DistanceLinesAt(v: seq<string>, nb: seq<seq<string>>, d: Table, p: int,
                        render: real -> string, split: seq<string>)
    requires |nb| == |v| && d.WellFormed() && d.index == v && d.columns == v
    requires split == FlowLines(|v|, v, nb, d, p, render) + [""]
    ensures |split| >= 13 + |v| + |v| * |v|
    ensures forall r, c :: 0 <= r < |v| && 0 <= c < |v| ==>
              split[13 + |v| + Cell(r, c, |v|)] == DistanceLine(v[r], v[c], d.cells[r][c], render)
  {
    var n := |v|;
    FlowLineCount(n, v, nb, d, p, render);
    forall r, c | 0 <= r < n && 0 <= c < n
      ensures split[13 + n + Cell(r, c, n)] == DistanceLine(v[r], v[c], d.cells[r][c], render)
    {
      DistanceLineAt(n, v, nb, d, p, render, r, c);
    }
  }

  /** Neighbour lines read back as the neighbour lists. */
  lemma NeighborsReadAll(v: seq<string>, nb: seq<seq<string>>, split: seq<string>)
    requires Labels(v) && |nb| == |v| && forall k :: 0 <= k < |nb| ==> Labels(nb[k])
    requires |split| >= 10 + |v|
    requires forall k :: 0 <= k < |v| ==> split[10 + k] == NeighborLine(v[k], nb[k])
    ensures ReadNeighbors(split, v) == nb
  {
    forall k | 0 <= k < |v|
      ensures ReadNeighbors(split, v)[k] == nb[k]
    {
      assert Inner(split[10 + k], |v[k]| + 4, 1) == Join(" ", nb[k]);
      WordsJoin(nb[k]);
    }
  }

  /** A distance line without its pair of labels is the rendered value. */
  lemma DistanceValue(i: string, j: string, x: real, render: real -> string)
    ensures Drop(DistanceLine(i, j, x, render), |i| + |j| + 4) == render(x)
  {
    var line := DistanceLine(i, j, x, render);
    assert line == ("(" + i + " " + j + ") ") + render(x);
  }

  /** Distance lines read back as the distance table. */
  lemma DistancesReadAll(v: seq<string>, cells: seq<seq<real>>, render: real -> string,
                         parseReal: string -> real, split: seq<string>)
    requires |cells| == |v| && forall r :: 0 <= r < |v| ==> |cells[r]| == |v|
    requires forall r, c :: 0 <= r < |v| && 0 <= c < |v| ==> parseReal(render(cells[r][c])) == cells[r][c]
    requires |split| >= 13 + |v| + |v| * |v|
    requires forall r, c :: 0 <= r < |v| && 0 <= c < |v| ==>
               split[13 + |v| + Cell(r, c, |v|)] == DistanceLine(v[r], v[c], cells[r][c], render)
    ensures ReadDistances(split, v, parseReal) == cells
  {
    var n := |v|;
    forall r | 0 <= r < n
      ensures ReadDistances(split, v, parseReal)[r] == cells[r]
    {
      forall c | 0 <= c < n
        ensures ReadDistances(split, v, parseReal)[r][c] == cells[r][c]
      {
        ReadDistanceAt(split, v, parseReal, r, c);
        DistanceValue(v[r], v[c], cells[r][c], render);
      }
    }
  }

  lemma ReadDistanceAt(lines: seq<string>, v: seq<string>, parseReal: string -> real, r: nat, c: nat)
    requires |lines| >= 13 + |v| + |v| * |v| && r < |v| && c < |v|
    ensures ReadDistances(lines, v, parseReal)[r][c]
         == parseReal(Drop(lines[13 + |v| + Cell(r, c, |v|)], |v[r]| + |v[c]| + 4))
  {
  }

  /** The text splits at its newlines into its lines and an empty rest. */
  lemma TextLines(v: seq<string>, nb: seq<seq<string>>, d: Table, p: int,
                  render: real -> string, parseReal: string -> real)
    requires Readable(v, nb, d, render, parseReal)
    ensures Split(FlowText(|v|, v, nb, d, p, render), '\n') == FlowLines(|v|, v, nb, d, p, render) + [""]
  {
    assert NewlineFree(d, render);
    FlowTextLines(|v|, v, nb, d, p, render);
  }

  /** Round trip: for areas with readable labels, one neighbour list per
      area, the distance table indexed by the areas on both axes and a
      rendering of numbers free of newlines that `parseReal` undoes on every
      distance of the table, reading the text written
      for `p` regions gives back N, the areas in order, p, every neighbour
      list and every distance, exactly. */
  lemma FlowRoundTrip(v: seq<string>, nb: seq<seq<string>>, d: Table, p: int,
                      render: real -> string, parseReal: string -> real)
    requires Labels(v) && |nb| == |v| && forall k :: 0 <= k < |nb| ==> Labels(nb[k])
    requires d.WellFormed() && d.index == v && d.columns == v
    requires forall x :: '\n' !in render(x)
    requires forall r, c :: 0 <= r < |v| && 0 <= c < |v| ==> parseReal(render(d.cells[r][c])) == d.cells[r][c]
    ensures ParseFlow(FlowText(|v|, v, nb, d, p, render), parseReal) == Some(FlowData(|v|, v, p, nb, d.cells))
  {
    var n := |v|;
    var text := FlowText(n, v, nb, d, p, render);
    var split := Split(text, '\n');
    TextLines(v, nb, d, p, render, parseReal);
    HeaderRead(v, nb, d, p, render, parseReal, split);
    NeighborLinesAt(v, nb, d, p, render, split);
    NeighborsReadAll(v, nb, split);
    DistanceLinesAt(v, nb, d, p, render, split);
    DistancesReadAll(v, d.cells, render, parseReal, split);
  }
}
