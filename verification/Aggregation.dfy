/** `plan_receipts`: totals per warehouse, SKU and unit, within the signed 64-bit contract. */
module Aggregation {
  import opened Model
  import opened Receiving

  datatype Group = Group(warehouse: Field, sku: Field, unit: Field)
  datatype PlanRow = PlanRow(group: Group, units: nat, lines: nat)

  const MAX_UNITS: nat := 9223372036854775807
  const AGGREGATE_OVERFLOW := Failure("AGGREGATE_OVERFLOW", DataQuality, false)

  function GroupOf(row: Accepted): Group {
    Group(row.warehouse, row.sku, row.unit)
  }

  // ----- What a total is -----

  function Units(rows: seq<Accepted>, g: Group): nat {
    if rows == [] then 0
    else Units(rows[..|rows| - 1], g) + if GroupOf(rows[|rows| - 1]) == g then rows[|rows| - 1].quantity else 0
  }

  function Lines(rows: seq<Accepted>, g: Group): nat {
    if rows == [] then 0
    else Lines(rows[..|rows| - 1], g) + if GroupOf(rows[|rows| - 1]) == g then 1 else 0
  }

  function AllUnits(rows: seq<Accepted>): nat {
    if rows == [] then 0 else AllUnits(rows[..|rows| - 1]) + rows[|rows| - 1].quantity
  }

  lemma {:induction false} UnitsOfConcat(a: seq<Accepted>, b: seq<Accepted>, g: Group)
    ensures Units(a + b, g) == Units(a, g) + Units(b, g)
    ensures Lines(a + b, g) == Lines(a, g) + Lines(b, g)
  {
    if b == [] {
      assert a + b == a;
    } else {
      UnitsOfConcat(a, b[..|b| - 1], g);
      assert (a + b)[..|a + b| - 1] == a + b[..|b| - 1];
    }
  }

  /** With the above: a group's totals are the sums over the rows with its warehouse, SKU and unit. */
  lemma TotalsOfOne(row: Accepted, g: Group)
    ensures Units([], g) == 0 && Lines([], g) == 0
    ensures var member := row.warehouse == g.warehouse && row.sku == g.sku && row.unit == g.unit;
            && Units([row], g) == (if member then row.quantity else 0)
            && Lines([row], g) == (if member then 1 else 0)
  {
    assert [row][..0] == [];
  }

  function PowerOfTwo(n: nat): nat {
    if n == 0 then 1 else 2 * PowerOfTwo(n - 1)
  }

  lemma {:induction false} PowersMultiply(a: nat, b: nat)
    ensures PowerOfTwo(a + b) == PowerOfTwo(a) * PowerOfTwo(b)
  {
    if a > 0 {
      PowersMultiply(a - 1, b);
    }
  }

  /** The largest total is the largest signed 64-bit number. */
  lemma LargestTotal()
    ensures MAX_UNITS == PowerOfTwo(63) - 1
  {
    assert PowerOfTwo(1) == 2 && PowerOfTwo(2) == 4 && PowerOfTwo(3) == 8 && PowerOfTwo(4) == 16;
    PowersMultiply(3, 4);
    PowersMultiply(4, 4);
    PowersMultiply(8, 7);
    PowersMultiply(8, 8);
    PowersMultiply(16, 15);
    PowersMultiply(16, 16);
    PowersMultiply(32, 31);
  }

  lemma Without(rows: seq<Accepted>, i: nat)
    requires i < |rows|
    ensures multiset(rows[..i] + rows[i + 1..]) == multiset(rows) - multiset{rows[i]}
  {
    assert rows == rows[..i] + [rows[i]] + rows[i + 1..];
  }

  lemma TotalsWithout(rows: seq<Accepted>, i: nat, g: Group)
    requires i < |rows|
    ensures var rest, one := rows[..i] + rows[i + 1..], GroupOf(rows[i]) == g;
            && Units(rows, g) == Units(rest, g) + (if one then rows[i].quantity else 0)
            && Lines(rows, g) == Lines(rest, g) + if one then 1 else 0
  {
    assert rows == rows[..i] + [rows[i]] + rows[i + 1..];
    UnitsOfConcat(rows[..i], rows[i + 1..], g);
    UnitsOfConcat(rows[..i] + [rows[i]], rows[i + 1..], g);
    UnitsOfConcat(rows[..i], [rows[i]], g);
    assert [rows[i]][..0] == [];
  }

  /** Totals do not depend on the order of the rows. */
  lemma {:induction false} TotalsIgnoreOrder(a: seq<Accepted>, b: seq<Accepted>, g: Group)
    requires multiset(a) == multiset(b)
    ensures Units(a, g) == Units(b, g) && Lines(a, g) == Lines(b, g)
    decreases |a|
  {
    if a == [] {
      assert |multiset(b)| == 0;
    } else {
      var init, row := a[..|a| - 1], a[|a| - 1];
      assert a == init + [row];
      assert row in multiset(b);
      var i :| 0 <= i < |b| && b[i] == row;
      Without(b, i);
      TotalsIgnoreOrder(init, b[..i] + b[i + 1..], g);
      TotalsWithout(b, i, g);
    }
  }

  lemma {:induction false} LinesArePositive(rows: seq<Accepted>, g: Group)
    ensures Lines(rows, g) > 0 <==> exists row :: row in rows && GroupOf(row) == g
  {
    if rows != [] {
      var init, last := rows[..|rows| - 1], rows[|rows| - 1];
      LinesArePositive(init, g);
      assert rows == init + [last];
      if row :| row in init && GroupOf(row) == g {
        assert row in rows;
      }
      if GroupOf(last) == g {
        assert last in rows;
      }
    }
  }

  // ----- The plan -----

  /** One row per group that occurs, with its full totals. */
  ghost predicate Tabulates(plan: seq<PlanRow>, rows: seq<Accepted>) {
    && (forall i, j | 0 <= i < j < |plan| :: plan[i].group != plan[j].group)
    && (forall p | p in plan :: p.units == Units(rows, p.group) && p.lines == Lines(rows, p.group) && p.lines > 0)
    && (forall row | row in rows :: exists p :: p in plan && p.group == Group(row.warehouse, row.sku, row.unit))
  }

  ghost predicate Totalled(totals: map<Group, (nat, nat)>, rows: seq<Accepted>) {
    && (forall g :: g in totals <==> Lines(rows, g) > 0)
    && (forall g | g in totals :: totals[g] == (Units(rows, g), Lines(rows, g)) && totals[g].0 <= MAX_UNITS)
    && (forall g | g !in totals :: Units(rows, g) == 0)
  }

  lemma TotalOne(totals: map<Group, (nat, nat)>, rows: seq<Accepted>, row: Accepted)
    requires Totalled(totals, rows)
    ensures var g := GroupOf(row);
            var entry := if g in totals then totals[g] else (0, 0);
            && entry.0 + row.quantity == Units(rows + [row], g)
            && (entry.0 + row.quantity <= MAX_UNITS ==>
                  Totalled(totals[g := (entry.0 + row.quantity, entry.1 + 1)], rows + [row]))
  {
    assert [row][..0] == [];
    forall g {
      UnitsOfConcat(rows, [row], g);
    }
  }

  /** `plan_receipts` without Spark. The running check raises exactly when some group's full total is out
      of range, whatever the order of the rows. */
  method PlanReceipts(rows: seq<Accepted>) returns (r: Outcome<seq<PlanRow>>)
    ensures r.Ok? <==> forall g :: Units(rows, g) <= MAX_UNITS
    ensures r.Ok? ==> Tabulates(r.value, rows)
    ensures r.Err? ==> r.error == AGGREGATE_OVERFLOW
  {
    var totals: map<Group, (nat, nat)> := map[];
    for i := 0 to |rows|
      invariant Totalled(totals, rows[..i])
    {
      var row := rows[i];
      var g := GroupOf(row);
      var entry := if g in totals then totals[g] else (0, 0);
      assert rows[..i + 1] == rows[..i] + [row];
      TotalOne(totals, rows[..i], row);
      if entry.0 + row.quantity > MAX_UNITS {
        assert rows == rows[..i + 1] + rows[i + 1..];
        UnitsOfConcat(rows[..i + 1], rows[i + 1..], g);
        return Err(AGGREGATE_OVERFLOW);
      }
      totals := totals[g := (entry.0 + row.quantity, entry.1 + 1)];
    }
    assert rows[..|rows|] == rows;
    forall g ensures Units(rows, g) <= MAX_UNITS {
      assert g in totals || g !in totals;
    }
    var plan := ListTotals(totals);
    ListedTotals(plan, totals, rows);
    r := Ok(plan);
  }

  /** `list(totals.values())`, in any order: the bytes written do not depend on it. */
  method ListTotals(totals: map<Group, (nat, nat)>) returns (plan: seq<PlanRow>)
    ensures forall i, j | 0 <= i < j < |plan| :: plan[i].group != plan[j].group
    ensures forall p | p in plan :: p.group in totals && totals[p.group] == (p.units, p.lines)
    ensures forall g | g in totals :: PlanRow(g, totals[g].0, totals[g].1) in plan
  {
    plan := [];
    var todo := totals.Keys;
    while todo != {}
      invariant todo <= totals.Keys
      invariant forall i, j | 0 <= i < j < |plan| :: plan[i].group != plan[j].group
      invariant forall p | p in plan :: p.group in totals && p.group !in todo && totals[p.group] == (p.units, p.lines)
      invariant forall g | g in totals && g !in todo :: PlanRow(g, totals[g].0, totals[g].1) in plan
    {
      var g :| g in todo;
      plan := plan + [PlanRow(g, totals[g].0, totals[g].1)];
      todo := todo - {g};
    }
  }

  lemma ListedTotals(plan: seq<PlanRow>, totals: map<Group, (nat, nat)>, rows: seq<Accepted>)
    requires Totalled(totals, rows)
    requires forall i, j | 0 <= i < j < |plan| :: plan[i].group != plan[j].group
    requires forall p | p in plan :: p.group in totals && totals[p.group] == (p.units, p.lines)
    requires forall g | g in totals :: PlanRow(g, totals[g].0, totals[g].1) in plan
    ensures Tabulates(plan, rows)
  {
    forall row | row in rows ensures exists p :: p in plan && p.group == GroupOf(row) {
      var g := GroupOf(row);
      LinesArePositive(rows, g);
      assert PlanRow(g, totals[g].0, totals[g].1) in plan;
    }
  }

  // ----- Conservation -----

  function PlannedUnits(plan: seq<PlanRow>): nat {
    if plan == [] then 0 else PlannedUnits(plan[..|plan| - 1]) + plan[|plan| - 1].units
  }

  function PlannedLines(plan: seq<PlanRow>): nat {
    if plan == [] then 0 else PlannedLines(plan[..|plan| - 1]) + plan[|plan| - 1].lines
  }

  /** The rows of the groups in `plan`. */
  function Covered(plan: seq<PlanRow>, rows: seq<Accepted>): seq<Accepted> {
    if rows == [] then []
    else
      var last := rows[|rows| - 1];
      Covered(plan, rows[..|rows| - 1]) + if InPlan(plan, GroupOf(last)) then [last] else []
  }

  predicate InPlan(plan: seq<PlanRow>, g: Group) {
    exists p | p in plan :: p.group == g
  }

  lemma InLongerPlan(plan: seq<PlanRow>, p: PlanRow, g: Group)
    ensures InPlan(plan + [p], g) <==> InPlan(plan, g) || p.group == g
  {
    assert forall q :: q in plan + [p] <==> q in plan || q == p;
    if InPlan(plan, g) {
      var q :| q in plan && q.group == g;
      assert q in plan + [p];
    }
    assert p in plan + [p];
  }

  lemma AllUnitsOne(rows: seq<Accepted>, row: Accepted)
    ensures AllUnits(rows + [row]) == AllUnits(rows) + row.quantity
    ensures rows + [] == rows
  {
    assert (rows + [row])[..|rows|] == rows;
  }

  lemma {:induction false} CoveredGrows(plan: seq<PlanRow>, p: PlanRow, rows: seq<Accepted>)
    requires forall q | q in plan :: q.group != p.group
    ensures AllUnits(Covered(plan + [p], rows)) == AllUnits(Covered(plan, rows)) + Units(rows, p.group)
    ensures |Covered(plan + [p], rows)| == |Covered(plan, rows)| + Lines(rows, p.group)
  {
    if rows != [] {
      var init, last := rows[..|rows| - 1], rows[|rows| - 1];
      CoveredGrows(plan, p, init);
      var before, after := Covered(plan, init), Covered(plan + [p], init);
      AllUnitsOne(before, last);
      AllUnitsOne(after, last);
      InLongerPlan(plan, p, GroupOf(last));
    }
  }

  lemma {:induction false} PlanCovers(plan: seq<PlanRow>, rows: seq<Accepted>)
    requires forall i, j | 0 <= i < j < |plan| :: plan[i].group != plan[j].group
    requires forall p | p in plan :: p.units == Units(rows, p.group) && p.lines == Lines(rows, p.group)
    ensures PlannedUnits(plan) == AllUnits(Covered(plan, rows)) && PlannedLines(plan) == |Covered(plan, rows)|
  {
    if plan == [] {
      NothingCovered(rows);
    } else {
      var init, p := plan[..|plan| - 1], plan[|plan| - 1];
      PlanCovers(init, rows);
      assert plan == init + [p];
      CoveredGrows(init, p, rows);
    }
  }

  lemma {:induction false} NothingCovered(rows: seq<Accepted>)
    ensures Covered([], rows) == []
  {
    if rows != [] {
      NothingCovered(rows[..|rows| - 1]);
    }
  }

  lemma {:induction false} EverythingCovered(plan: seq<PlanRow>, rows: seq<Accepted>)
    requires forall row | row in rows :: InPlan(plan, GroupOf(row))
    ensures Covered(plan, rows) == rows
  {
    hide InPlan;
    if rows != [] {
      var init, last := rows[..|rows| - 1], rows[|rows| - 1];
      assert forall row | row in init :: row in rows;
      EverythingCovered(plan, init);
      assert last in rows && rows == init + [last];
    }
  }

  /** No unit and no line is lost or counted twice. */
  lemma PlanConserves(plan: seq<PlanRow>, rows: seq<Accepted>)
    requires Tabulates(plan, rows)
    ensures PlannedUnits(plan) == AllUnits(rows) && PlannedLines(plan) == |rows|
  {
    PlanCovers(plan, rows);
    assert forall row | row in rows :: InPlan(plan, GroupOf(row));
    EverythingCovered(plan, rows);
  }

  /** The plan file is the same for every order of the accepted rows. */
  lemma PlanIgnoresOrder(p: seq<PlanRow>, a: seq<Accepted>, q: seq<PlanRow>, b: seq<Accepted>, text: PlanRow -> string)
    requires Tabulates(p, a) && Tabulates(q, b) && multiset(a) == multiset(b) && Injective(text)
    ensures Sorted(p, text) == Sorted(q, text)
  {
    TabulatesSame(p, a, q, b);
    TabulatesSame(q, b, p, a);
    forall x ensures multiset(p)[x] == multiset(q)[x] {
      OnceEach(p, x);
      OnceEach(q, x);
    }
    assert multiset(p) == multiset(q);
    SortedIgnoresOrder(p, q, text);
  }

  lemma TabulatesSame(p: seq<PlanRow>, a: seq<Accepted>, q: seq<PlanRow>, b: seq<Accepted>)
    requires Tabulates(p, a) && Tabulates(q, b) && multiset(a) == multiset(b)
    ensures forall x | x in p :: x in q
  {
    forall x | x in p ensures x in q {
      LinesArePositive(a, x.group);
      var row :| row in a && GroupOf(row) == x.group;
      assert row in multiset(b);
      var y :| y in q && y.group == x.group;
      TotalsIgnoreOrder(a, b, x.group);
    }
  }

  lemma {:induction false} OnceEach(plan: seq<PlanRow>, x: PlanRow)
    requires forall i, j | 0 <= i < j < |plan| :: plan[i].group != plan[j].group
    ensures multiset(plan)[x] == if x in plan then 1 else 0
  {
    if plan != [] {
      var init, last := plan[..|plan| - 1], plan[|plan| - 1];
      assert plan == init + [last];
      OnceEach(init, x);
      forall i | 0 <= i < |init| ensures init[i] != last {
        assert plan[i].group != plan[|plan| - 1].group;
      }
    }
  }
}
