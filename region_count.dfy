/** The region-count policy: how many regions to ask the solver for, as a
    function of the number of areas in a unit of work. */
module RegionCount {

  /** `get_p_from_n`: three candidate region counts, chosen by size band. */
  function GetPFromN(n: int): (ps: seq<int>)
    ensures |ps| == 3 && 0 < ps[0] < ps[1] < ps[2]
    ensures forall k :: 0 <= k < 3 ==> ps[k] in {3, 5, 7, 10, 15, 20}
  {
    if n < 20 then [3, 5, 7]
    else if n < 60 then [5, 7, 10]
    else [10, 15, 20]
  }

  /** The three size bands, stated at their edges. */
  lemma GetPFromNBoundaries()
    ensures GetPFromN(19) == [3, 5, 7]
    ensures GetPFromN(20) == [5, 7, 10]
    ensures GetPFromN(59) == [5, 7, 10]
    ensures GetPFromN(60) == [10, 15, 20]
  {
  }

  /** A larger unit of work never gets smaller candidates, position by
      position (so in particular the smallest candidate never decreases). */
  lemma GetPFromNMonotone(n: int, m: int)
    requires n <= m
    ensures forall k :: 0 <= k < 3 ==> GetPFromN(n)[k] <= GetPFromN(m)[k]
  {
  }

  /** The candidates of `get_p_from_n(n)` that the driver keeps: the loop
      `for p in get_p_from_n(N): if N > p`. */
  function FlowTargets(n: int): (ps: seq<int>)
    ensures |ps| <= 3
    ensures forall p :: p in ps <==> p in GetPFromN(n) && n > p
    ensures forall i, j :: 0 <= i < j < |ps| ==> ps[i] < ps[j]
  {
    Keep(GetPFromN(n), n)
  }

  /** The elements of `ps` below `n`, in their original order. */
  function Keep(ps: seq<int>, n: int): (r: seq<int>)
    ensures |r| <= |ps|
    ensures forall p :: p in r <==> p in ps && n > p
    ensures forall i :: 0 <= i < |r| ==> exists j :: 0 <= j < |ps| && r[i] == ps[j]
    ensures (forall i, j :: 0 <= i < j < |ps| ==> ps[i] < ps[j]) ==>
              forall i, j :: 0 <= i < j < |r| ==> r[i] < r[j]
  {
    if |ps| == 0 then []
    else if n > ps[0] then [ps[0]] + Keep(ps[1..], n)
    else Keep(ps[1..], n)
  }

  /** From 20 areas upwards every candidate is kept. */
  lemma {:induction false} AllTargetsForLargerUnits(n: int)
    requires n >= 20
    ensures FlowTargets(n) == GetPFromN(n)
    ensures 20 <= n < 60 ==> FlowTargets(n) == [5, 7, 10]
    ensures n >= 60 ==> FlowTargets(n) == [10, 15, 20]
  {
    var ps := GetPFromN(n);
    assert Keep(ps[2..], n) == [ps[2]] + Keep(ps[3..], n);
    assert Keep(ps[1..], n) == [ps[1]] + Keep(ps[1..][1..], n);
    assert ps[1..][1..] == ps[2..];
    assert [ps[0]] + ([ps[1]] + [ps[2]]) == ps;
  }

  /** Below 20 areas the kept targets are exactly the small counts below n. */
  lemma {:induction false} TargetsForSmallUnits(n: int)
    requires n < 20
    ensures n <= 3 ==> FlowTargets(n) == []
    ensures 3 < n <= 5 ==> FlowTargets(n) == [3]
    ensures 5 < n <= 7 ==> FlowTargets(n) == [3, 5]
    ensures 7 < n ==> FlowTargets(n) == [3, 5, 7]
  {
    var ps := GetPFromN(n);
    assert ps[1..] == [5, 7] && ps[1..][1..] == [7] && ps[1..][1..][1..] == [];
    var tail := Keep([7], n);
    assert tail == if n > 7 then [7] else [];
    var mid := Keep([5, 7], n);
    assert mid == if n > 5 then [5] + tail else tail;
    assert FlowTargets(n) == if n > 3 then [3] + mid else mid;
  }

  /** How many flow instances a unit of `n` areas gets: none when `n <= 3`,
      all three from 20 areas on, never more than three. */
  lemma FlowTargetsCount(n: int)
    ensures |FlowTargets(n)| <= 3
    ensures n <= 3 ==> |FlowTargets(n)| == 0
    ensures n >= 20 ==> |FlowTargets(n)| == 3
  {
    if n < 20 {
      TargetsForSmallUnits(n);
    } else {
      AllTargetsForLargerUnits(n);
    }
  }
}
