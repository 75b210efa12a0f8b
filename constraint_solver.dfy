/**
 * The conflict checker of the scheduler (`check_conflicts`).  It reports every
 * pair of draft assignments that book the same judge at overlapping times and
 * every assignment shorter than thirty minutes; the draft is feasible when it
 * reports nothing.  Times are whole seconds on one clock.
 */
module ConstraintSolver {
  import opened Text

  /** One draft hearing: the case number, the judge's name and the time span. */
  datatype Assignment = Assignment(caseLabel: string, judge: string, start: int, end: int)

  /** One entry of the conflict list. */
  datatype Conflict =
    | DoubleBooked(judge: string, first: string, second: string)
    | TooShort(caseLabel: string)

  /** The shortest acceptable hearing: 1800 seconds. */
  const MinDuration: int := 1800

  /** The text the checker appends for a conflict. */
  function Message(c: Conflict): string {
    match c
    case DoubleBooked(j, x, y) => "Judge " + j + " double-booked for " + x + " and " + y
    case TooShort(x) => "Case " + x + " has too short duration (<30 min)"
  }

  /** The two kinds of message can be told apart by their first word. */
  lemma MessageKinds(c: Conflict)
    ensures StartsWith(Message(c), "Judge ") <==> c.DoubleBooked?
    ensures StartsWith(Message(c), "Case ") <==> c.TooShort?
  {
    var m := Message(c);
    if c.DoubleBooked? {
      assert m[..6] == "Judge ";
      assert m[0] == 'J';
    } else {
      assert m[..5] == "Case ";
      assert m[0] == 'C';
    }
  }

  /** The half-open spans of a and b share an instant. */
  predicate Overlaps(a: Assignment, b: Assignment) {
    a.start < b.end && b.start < a.end
  }

  /** The condition under which the checker reports a double booking. */
  predicate Clash(a: Assignment, b: Assignment) {
    a.judge == b.judge && Overlaps(a, b)
  }

  predicate TooShortSpan(a: Assignment) {
    a.end - a.start < MinDuration
  }

  /** Hearings that only touch, or that have different judges, never clash. */
  lemma NoClashWhenTouchingOrApart(a: Assignment, b: Assignment)
    requires a.end == b.start || b.end == a.start || a.judge != b.judge
    ensures !Clash(a, b) && !Clash(b, a)
  {
  }

  // ---------------------------------------------------------------------------
  // Specification: the index pairs that clash, in the order the loops visit them

  /** Clashing pairs (i, k) with i < k < j. */
  function RowPairs(a: seq<Assignment>, i: nat, j: nat): (r: seq<(nat, nat)>)
    requires i < |a| && j <= |a|
    ensures forall m :: 0 <= m < |r| ==> r[m].0 == i && i < r[m].1 < j
    decreases j
  {
    if j <= i + 1 then []
    else RowPairs(a, i, j - 1) + (if Clash(a[i], a[j - 1]) then [(i, j - 1)] else [])
  }

  /** Clashing pairs whose first index is below i. */
  function PairsBefore(a: seq<Assignment>, i: nat): (r: seq<(nat, nat)>)
    requires i <= |a|
    ensures forall m :: 0 <= m < |r| ==> r[m].0 < i && r[m].0 < r[m].1 < |a|
  {
    if i == 0 then [] else PairsBefore(a, i - 1) + RowPairs(a, i - 1, |a|)
  }

  /** All clashing pairs of the draft. */
  function ClashPairs(a: seq<Assignment>): seq<(nat, nat)> {
    PairsBefore(a, |a|)
  }

  /** Indices k < j of the assignments that are too short. */
  function ShortIndices(a: seq<Assignment>, j: nat): (r: seq<nat>)
    requires j <= |a|
    ensures forall m :: 0 <= m < |r| ==> r[m] < j
  {
    if j == 0 then [] else ShortIndices(a, j - 1) + (if TooShortSpan(a[j - 1]) then [j - 1] else [])
  }

  predicate ValidPairs(a: seq<Assignment>, ps: seq<(nat, nat)>) {
    forall m :: 0 <= m < |ps| ==> ps[m].0 < |a| && ps[m].1 < |a|
  }

  function Bookings(a: seq<Assignment>, ps: seq<(nat, nat)>): (r: seq<Conflict>)
    requires ValidPairs(a, ps)
    ensures |r| == |ps|
  {
    seq(|ps|, m requires 0 <= m < |ps| => DoubleBooked(a[ps[m].0].judge, a[ps[m].0].caseLabel, a[ps[m].1].caseLabel))
  }

  function Shorts(a: seq<Assignment>, ks: seq<nat>): (r: seq<Conflict>)
    requires forall m :: 0 <= m < |ks| ==> ks[m] < |a|
    ensures |r| == |ks|
  {
    seq(|ks|, m requires 0 <= m < |ks| => TooShort(a[ks[m]].caseLabel))
  }

  /** The conflict list the checker returns. */
  function Conflicts(a: seq<Assignment>): seq<Conflict> {
    Bookings(a, ClashPairs(a)) + Shorts(a, ShortIndices(a, |a|))
  }

  // ---------------------------------------------------------------------------
  // The checker

  lemma BookingsSnoc(a: seq<Assignment>, ps: seq<(nat, nat)>, i: nat, j: nat)
    requires ValidPairs(a, ps) && i < |a| && j < |a|
    ensures ValidPairs(a, ps + [(i, j)])
    ensures Bookings(a, ps + [(i, j)]) == Bookings(a, ps) + [DoubleBooked(a[i].judge, a[i].caseLabel, a[j].caseLabel)]
  {
  }

  lemma ShortsSnoc(a: seq<Assignment>, ks: seq<nat>, k: nat)
    requires forall m :: 0 <= m < |ks| ==> ks[m] < |a|
    requires k < |a|
    ensures Shorts(a, ks + [k]) == Shorts(a, ks) + [TooShort(a[k].caseLabel)]
  {
  }

  /** One more column of row i adds the pair (i, j) exactly when it clashes. */
  lemma RowPairsStep(a: seq<Assignment>, i: nat, j: nat, ps: seq<(nat, nat)>)
    requires i < j < |a|
    requires ps == PairsBefore(a, i) + RowPairs(a, i, j)
    ensures ps + (if Clash(a[i], a[j]) then [(i, j)] else []) == PairsBefore(a, i) + RowPairs(a, i, j + 1)
  {
    var step := if Clash(a[i], a[j]) then [(i, j)] else [];
    assert RowPairs(a, i, j + 1) == RowPairs(a, i, j) + step;
    assert (PairsBefore(a, i) + RowPairs(a, i, j)) + step == PairsBefore(a, i) + (RowPairs(a, i, j) + step);
  }

  method CheckConflicts(a: seq<Assignment>) returns (feasible: bool, conflicts: seq<Conflict>)
    ensures conflicts == Conflicts(a)
    ensures feasible <==> conflicts == []
  {
    conflicts := [];
    var i := 0;
    while i < |a|
      invariant 0 <= i <= |a|
      invariant conflicts == Bookings(a, PairsBefore(a, i))
    {
      var j := i + 1;
      ghost var ps := PairsBefore(a, i);
      while j < |a|
        invariant i + 1 <= j <= |a|
        invariant ps == PairsBefore(a, i) + RowPairs(a, i, j)
        invariant ValidPairs(a, ps)
        invariant conflicts == Bookings(a, ps)
      {
        RowPairsStep(a, i, j, ps);
        if a[i].judge == a[j].judge {
          if a[i].start < a[j].end && a[j].start < a[i].end {
            BookingsSnoc(a, ps, i, j);
            conflicts := conflicts + [DoubleBooked(a[i].judge, a[i].caseLabel, a[j].caseLabel)];
            ps := ps + [(i, j)];
          }
        }
        j := j + 1;
      }
      i := i + 1;
    }
    var k := 0;
    ghost var booked := conflicts;
    while k < |a|
      invariant 0 <= k <= |a|
      invariant conflicts == booked + Shorts(a, ShortIndices(a, k))
    {
      if a[k].end - a[k].start < 1800 {
        ShortsSnoc(a, ShortIndices(a, k), k);
        conflicts := conflicts + [TooShort(a[k].caseLabel)];
      }
      k := k + 1;
    }
    feasible := |conflicts| == 0;
  }

  // ---------------------------------------------------------------------------
  // Properties

  lemma {:induction false} RowPairsExactly(a: seq<Assignment>, i: nat, j: nat, k: nat)
    requires i < |a| && j <= |a|
    ensures (i, k) in RowPairs(a, i, j) <==> i < k < j && Clash(a[i], a[k])
    decreases j
  {
    if j > i + 1 {
      RowPairsExactly(a, i, j - 1, k);
    }
  }

  lemma {:induction false} PairsBeforeExactly(a: seq<Assignment>, n: nat, i: nat, k: nat)
    requires n <= |a|
    ensures (i, k) in PairsBefore(a, n) <==> i < n && i < k < |a| && Clash(a[i], a[k])
  {
    if n > 0 {
      var pre, row := PairsBefore(a, n - 1), RowPairs(a, n - 1, |a|);
      assert PairsBefore(a, n) == pre + row;
      assert (i, k) in pre + row <==> (i, k) in pre || (i, k) in row;
      PairsBeforeExactly(a, n - 1, i, k);
      if i == n - 1 {
        RowPairsExactly(a, i, |a|, k);
      } else {
        assert (i, k) !in row;
      }
    }
  }

  /** A pair i < k is reported exactly when both hearings have the same judge and overlap. */
  lemma ClashPairsExactly(a: seq<Assignment>, i: nat, k: nat)
    ensures (i, k) in ClashPairs(a) <==> i < k < |a| && a[i].judge == a[k].judge
                                         && a[i].start < a[k].end && a[k].start < a[i].end
  {
    PairsBeforeExactly(a, |a|, i, k);
  }

  /** Hearings that only touch, or that have different judges, are never reported as a pair. */
  lemma TouchingOrApartNotReported(a: seq<Assignment>, i: nat, k: nat)
    requires i < k < |a|
    requires a[i].end == a[k].start || a[k].end == a[i].start || a[i].judge != a[k].judge
    ensures (i, k) !in ClashPairs(a)
  {
    ClashPairsExactly(a, i, k);
  }

  predicate LexLess(p: (nat, nat), q: (nat, nat)) {
    p.0 < q.0 || (p.0 == q.0 && p.1 < q.1)
  }

  predicate LexSorted(ps: seq<(nat, nat)>) {
    forall m, n :: 0 <= m < n < |ps| ==> LexLess(ps[m], ps[n])
  }

  lemma {:induction false} RowPairsSorted(a: seq<Assignment>, i: nat, j: nat)
    requires i < |a| && j <= |a|
    ensures LexSorted(RowPairs(a, i, j))
    decreases j
  {
    if j > i + 1 {
      RowPairsSorted(a, i, j - 1);
    }
  }

  lemma {:induction false} PairsBeforeSorted(a: seq<Assignment>, n: nat)
    requires n <= |a|
    ensures LexSorted(PairsBefore(a, n))
  {
    if n > 0 {
      PairsBeforeSorted(a, n - 1);
      RowPairsSorted(a, n - 1, |a|);
      var p := PairsBefore(a, n - 1);
      var q := RowPairs(a, n - 1, |a|);
      forall m, l | 0 <= m < l < |p + q| ensures LexLess((p + q)[m], (p + q)[l]) {
        if m < |p| && l >= |p| {
          assert (p + q)[m] == p[m] && (p + q)[l] == q[l - |p|];
        } else if m < |p| {
          assert (p + q)[m] == p[m] && (p + q)[l] == p[l];
        } else {
          assert (p + q)[m] == q[m - |p|] && (p + q)[l] == q[l - |p|];
        }
      }
    }
  }

  /** Pairs are reported in lexicographic (i, k) order, so no pair is reported twice. */
  lemma ClashPairsOrdered(a: seq<Assignment>)
    ensures LexSorted(ClashPairs(a))
  {
    PairsBeforeSorted(a, |a|);
  }

  /** Every double booking is listed before every "too short" entry. */
  lemma BookingsFirst(a: seq<Assignment>)
    ensures forall m :: 0 <= m < |ClashPairs(a)| ==> Conflicts(a)[m].DoubleBooked?
    ensures forall m :: |ClashPairs(a)| <= m < |Conflicts(a)| ==> Conflicts(a)[m].TooShort?
  {
  }

  lemma {:induction false} ShortIndicesExactly(a: seq<Assignment>, j: nat, k: nat)
    requires j <= |a|
    ensures k in ShortIndices(a, j) <==> k < j && a[k].end - a[k].start < 1800
  {
    if j > 0 {
      ShortIndicesExactly(a, j - 1, k);
    }
  }

  lemma {:induction false} ShortIndicesIncreasing(a: seq<Assignment>, j: nat)
    requires j <= |a|
    ensures forall m, n :: 0 <= m < n < |ShortIndices(a, j)| ==> ShortIndices(a, j)[m] < ShortIndices(a, j)[n]
  {
    if j > 0 {
      ShortIndicesIncreasing(a, j - 1);
    }
  }

  /**
   * One "too short" entry per assignment shorter than 1800 seconds, in draft
   * order, each naming that assignment's case.
   */
  lemma ShortEntriesExactly(a: seq<Assignment>)
    ensures forall k: nat :: k in ShortIndices(a, |a|) <==> k < |a| && a[k].end - a[k].start < 1800
    ensures forall m, n :: 0 <= m < n < |ShortIndices(a, |a|)| ==> ShortIndices(a, |a|)[m] < ShortIndices(a, |a|)[n]
    ensures |Conflicts(a)| == |ClashPairs(a)| + |ShortIndices(a, |a|)|
    ensures forall m :: 0 <= m < |ShortIndices(a, |a|)| ==>
              Conflicts(a)[|ClashPairs(a)| + m] == TooShort(a[ShortIndices(a, |a|)[m]].caseLabel)
  {
    forall k: nat ensures k in ShortIndices(a, |a|) <==> k < |a| && a[k].end - a[k].start < 1800 {
      ShortIndicesExactly(a, |a|, k);
    }
    ShortIndicesIncreasing(a, |a|);
  }

  lemma {:induction false} RowPairsCount(a: seq<Assignment>, i: nat, j: nat)
    requires i < |a| && j <= |a|
    ensures |RowPairs(a, i, j)| <= if j <= i + 1 then 0 else j - i - 1
    decreases j
  {
    if j > i + 1 {
      RowPairsCount(a, i, j - 1);
    }
  }

  /** The number of index pairs (i, k) with i < n and i < k < w. */
  function PairSlots(n: nat, w: nat): nat
    requires n <= w
  {
    if n == 0 then 0 else PairSlots(n - 1, w) + (w - n)
  }

  /** The closed form of PairSlots. */
  lemma {:induction false} PairSlotsClosed(n: nat, w: nat)
    requires n <= w
    ensures 2 * PairSlots(n, w) == n * (2 * w - n - 1)
  {
    if n > 0 {
      PairSlotsClosed(n - 1, w);
      assert (n - 1) * (2 * w - (n - 1) - 1) == n * (2 * w - n) - (2 * w - n);
    }
  }

  lemma {:induction false} PairsBeforeCount(a: seq<Assignment>, n: nat)
    requires n <= |a|
    ensures |PairsBefore(a, n)| <= PairSlots(n, |a|)
  {
    if n > 0 {
      var before, row := PairsBefore(a, n - 1), RowPairs(a, n - 1, |a|);
      assert |PairsBefore(a, n)| == |before| + |row|;
      PairsBeforeCount(a, n - 1);
      RowPairsCount(a, n - 1, |a|);
    }
  }

  /** At most n(n-1)/2 double bookings are reported for n assignments. */
  lemma ClashPairsBound(a: seq<Assignment>)
    ensures 2 * |ClashPairs(a)| <= |a| * (|a| - 1)
  {
    PairsBeforeCount(a, |a|);
    PairSlotsClosed(|a|, |a|);
  }

  /** No hearing shorter than the minimum: no duration entries at all. */
  lemma {:induction false} ShortIndicesNone(a: seq<Assignment>, j: nat)
    requires j <= |a|
    requires forall k :: 0 <= k < j ==> a[k].end - a[k].start >= MinDuration
    ensures ShortIndices(a, j) == []
  {
    if j > 0 {
      ShortIndicesNone(a, j - 1);
    }
  }

  /** An empty draft, or one hearing of at least thirty minutes, is feasible. */
  lemma SmallDraftFeasible(a: seq<Assignment>)
    requires |a| <= 1
    requires forall k :: 0 <= k < |a| ==> a[k].end - a[k].start >= MinDuration
    ensures Conflicts(a) == []
  {
    if |a| == 1 {
      assert RowPairs(a, 0, 1) == [];
      assert PairsBefore(a, 1) == [];
      assert ShortIndices(a, 1) == [];
    }
    assert ClashPairs(a) == [] && ShortIndices(a, |a|) == [];
    assert Bookings(a, []) == [];
    assert Shorts(a, []) == [];
  }

  /**
   * Two one-hour hearings for the same judge that start thirty minutes apart
   * are a double booking and nothing else.
   */
  lemma OverlappingHourSlots(t: int)
    ensures Conflicts([Assignment("C1", "J1", t, t + 3600), Assignment("C2", "J1", t + 1800, t + 5400)])
            == [DoubleBooked("J1", "C1", "C2")]
  {
    var a := [Assignment("C1", "J1", t, t + 3600), Assignment("C2", "J1", t + 1800, t + 5400)];
    assert RowPairs(a, 0, 1) == [];
    assert RowPairs(a, 0, 2) == [(0, 1)];
    assert RowPairs(a, 1, 2) == [];
    assert PairsBefore(a, 1) == [(0, 1)];
    assert ClashPairs(a) == [(0, 1)];
    assert ShortIndices(a, 1) == [];
    assert ShortIndices(a, 2) == [];
    assert Bookings(a, [(0, 1)]) == [DoubleBooked("J1", "C1", "C2")];
    assert Shorts(a, []) == [];
  }
}
