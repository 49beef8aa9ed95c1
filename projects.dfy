/** Per-project profitability: the ledger without its "General" rows, grouped
    by project (`groupby('Proyecto')`, which lists the groups in ascending key
    order), with income, direct costs, gross margin and margin percentage per
    project. */
module Projects {
  import opened Transactions
  import opened Finance

  // ---------------------------------------------------------------------------
  // Group keys in ascending string order.

  /** Python's `<` on `str`: code point by code point, a proper prefix first.
      No string is below itself. */
  predicate Below(a: string, b: string)
    ensures Below(a, b) ==> a != b
    ensures |a| < |b| && a == b[..|a|] ==> Below(a, b)
  {
    if a == [] then b != []
    else if b == [] then false
    else if a[0] != b[0] then a[0] < b[0]
    else
      assert |a| < |b| && a == b[..|a|] ==> a[1..] == b[1..][..|a[1..]|];
      Below(a[1..], b[1..])
  }

  lemma {:induction false} BelowTransitive(a: string, b: string, c: string)
    requires Below(a, b) && Below(b, c)
    ensures Below(a, c)
  {
    if a != [] && a[0] == b[0] && b[0] == c[0] {
      BelowTransitive(a[1..], b[1..], c[1..]);
    }
  }

  lemma {:induction false} BelowTotal(a: string, b: string)
    requires a != b
    ensures Below(a, b) || Below(b, a)
  {
    if a != [] && b != [] && a[0] == b[0] {
      assert a == [a[0]] + a[1..] && b == [b[0]] + b[1..];
      BelowTotal(a[1..], b[1..]);
    }
  }

  /** Keys in strictly ascending order (so also free of repeats). */
  predicate StrictlySorted(keys: seq<string>) {
    forall i, j :: 0 <= i < j < |keys| ==> Below(keys[i], keys[j])
  }

  predicate Distinct(keys: seq<string>) {
    forall i, j :: 0 <= i < j < |keys| ==> keys[i] != keys[j]
  }

  lemma StrictlySortedDistinct(keys: seq<string>)
    requires StrictlySorted(keys)
    ensures Distinct(keys)
  {
  }

  /** Add a key to a sorted key list, unless it is already there. */
  function Insert(keys: seq<string>, p: string): (r: seq<string>)
    requires StrictlySorted(keys)
    ensures StrictlySorted(r)
    ensures forall x :: x in r <==> x in keys || x == p
  {
    if keys == [] then [p]
    else if p == keys[0] then keys
    else if Below(p, keys[0]) then
      assert forall j :: 0 <= j < |keys| ==> Below(p, keys[j]) by {
        forall j | 0 <= j < |keys| ensures Below(p, keys[j]) {
          if j > 0 {
            BelowTransitive(p, keys[0], keys[j]);
          }
        }
      }
      [p] + keys
    else
      BelowTotal(p, keys[0]);
      var rest := Insert(keys[1..], p);
      assert forall x :: x in rest ==> Below(keys[0], x) by {
        forall x | x in rest ensures Below(keys[0], x) {
          if x != p {
            var j :| 0 <= j < |keys[1..]| && keys[1..][j] == x;
            assert keys[j + 1] == x;
          }
        }
      }
      assert StrictlySorted([keys[0]] + rest) by {
        forall i, j | 0 <= i < j < |[keys[0]] + rest|
          ensures Below(([keys[0]] + rest)[i], ([keys[0]] + rest)[j])
        {
          assert ([keys[0]] + rest)[j] == rest[j - 1];
          if i > 0 {
            assert ([keys[0]] + rest)[i] == rest[i - 1];
          }
        }
      }
      assert forall x :: x in keys <==> x == keys[0] || x in keys[1..] by {
        assert keys == [keys[0]] + keys[1..];
      }
      [keys[0]] + rest
  }

  /** Some row of the ledger belongs to the project. */
  predicate Occurs(rows: seq<Transaction>, p: string) {
    exists i :: 0 <= i < |rows| && rows[i].project == p
  }

  /** The projects of a ledger's non-"General" rows, ascending, each once. */
  function Keys(rows: seq<Transaction>): (ks: seq<string>)
    ensures StrictlySorted(ks)
    ensures forall p :: p in ks <==> p != General && Occurs(rows, p)
  {
    if rows == [] then []
    else
      var pre := rows[..|rows| - 1];
      var last := rows[|rows| - 1];
      var ks := Keys(pre);
      assert forall i :: 0 <= i < |pre| ==> pre[i] == rows[i];
      if last.project == General then ks else Insert(ks, last.project)
  }

  // ---------------------------------------------------------------------------
  // The table.

  /** A percentage as pandas computes it from a ratio and `fillna(0)`:
      a finite value, or the signed infinity of a non-zero number over zero. */
  datatype Percent = Finite(value: real) | PlusInfinity | MinusInfinity

  /** `(margin / income * 100).fillna(0)`: 0/0 is NaN and becomes 0, a
      non-zero margin over zero income is an infinity of the margin's sign. */
  function MarginPercent(margin: int, income: int): (r: Percent)
    ensures income != 0 ==> r.Finite? && r.value * income as real == margin as real * 100.0
    ensures income == 0 && margin == 0 ==> r == Finite(0.0)
    ensures income == 0 && margin > 0 ==> r == PlusInfinity
    ensures income == 0 && margin < 0 ==> r == MinusInfinity
  {
    if income != 0 then Finite(margin as real / income as real * 100.0)
    else if margin > 0 then PlusInfinity
    else if margin < 0 then MinusInfinity
    else Finite(0.0)
  }

  datatype ProjectRow = ProjectRow(project: string, income: int, directCosts: int, grossMargin: int, marginPct: Percent)

  /** The row of one project: its own rows' income and direct costs, their
      difference and its percentage. With non-negative amounts the figures are
      non-negative and the margin is at most the income; a project without
      rows has all-zero figures. */
  function Summary(rows: seq<Transaction>, p: string): (r: ProjectRow)
    ensures r.project == p
    ensures r.grossMargin == r.income - r.directCosts
    ensures r.marginPct == MarginPercent(r.grossMargin, r.income)
    ensures AllNonNegative(rows) ==> 0 <= r.income && 0 <= r.directCosts && r.grossMargin <= r.income
    ensures !Occurs(rows, p) ==> r.income == 0 && r.directCosts == 0 && r.marginPct == Finite(0.0)
  {
    var own := Select(rows, ProjectIs(p));
    assert AllNonNegative(rows) ==> AllNonNegative(own);
    assert !Occurs(rows, p) ==> own == [] by {
      if own != [] {
        assert own[0] in rows;
      }
    }
    var income := Income(own);
    var costs := DirectCosts(own);
    ProjectRow(p, income, costs, income - costs, MarginPercent(income - costs, income))
  }

  function Summaries(rows: seq<Transaction>, keys: seq<string>): (t: seq<ProjectRow>)
    ensures |t| == |keys|
    ensures forall i :: 0 <= i < |t| ==> t[i] == Summary(rows, keys[i])
  {
    if keys == [] then [] else [Summary(rows, keys[0])] + Summaries(rows, keys[1..])
  }

  /** The table has a row for the project. */
  predicate Listed(t: seq<ProjectRow>, p: string) {
    exists i :: 0 <= i < |t| && t[i].project == p
  }

  /** The per-project table. It lists each project other than "General" that
      has a row, once, in ascending name order; each entry's income and direct
      costs are the sums over that project's own rows, and its margin is their
      difference. */
  function ProjectTable(rows: seq<Transaction>): (t: seq<ProjectRow>)
    ensures forall i, j :: 0 <= i < j < |t| ==> Below(t[i].project, t[j].project)
    ensures forall i, j :: 0 <= i < j < |t| ==> t[i].project != t[j].project
    ensures forall p :: Listed(t, p) <==> p != General && Occurs(rows, p)
    ensures forall i :: 0 <= i < |t| ==>
              && t[i].income == Income(Select(rows, ProjectIs(t[i].project)))
              && t[i].directCosts == DirectCosts(Select(rows, ProjectIs(t[i].project)))
              && t[i].grossMargin == t[i].income - t[i].directCosts
  {
    var ks := Keys(rows);
    var t := Summaries(rows, ks);
    StrictlySortedDistinct(ks);
    assert forall p :: Listed(t, p) <==> p != General && Occurs(rows, p) by {
      forall p ensures Listed(t, p) <==> p != General && Occurs(rows, p) {
        if p in ks {
          var i :| 0 <= i < |ks| && ks[i] == p;
          assert t[i].project == p;
        }
      }
    }
    t
  }

  // ---------------------------------------------------------------------------
  // Totals.

  /** Sum, over the given projects, of one filtered sum of each project's rows. */
  function SumOverProjects(rows: seq<Transaction>, keys: seq<string>, s: Selector): int {
    if keys == [] then 0
    else SumWhere(Select(rows, ProjectIs(keys[0])), s) + SumOverProjects(rows, keys[1..], s)
  }

  lemma SelectAppend(rows: seq<Transaction>, t: Transaction, s: Selector)
    ensures Select(rows + [t], s) == if Matches(t, s) then Select(rows, s) + [t] else Select(rows, s)
  {
    assert (rows + [t])[..|rows|] == rows;
  }

  lemma DistinctTail(keys: seq<string>)
    requires keys != [] && Distinct(keys)
    ensures Distinct(keys[1..]) && keys[0] !in keys[1..]
  {
    var rest := keys[1..];
    forall i, j | 0 <= i < j < |rest| ensures rest[i] != rest[j] {
      assert rest[i] == keys[i + 1] && rest[j] == keys[j + 1];
    }
    forall j | 0 <= j < |rest| ensures rest[j] != keys[0] {
      assert rest[j] == keys[j + 1];
    }
  }

  /** One more ledger row adds its contribution to the one listed project it belongs to. */
  lemma {:induction false} SumOverProjectsAppend(rows: seq<Transaction>, t: Transaction, keys: seq<string>, s: Selector)
    requires Distinct(keys)
    ensures SumOverProjects(rows + [t], keys, s)
            == SumOverProjects(rows, keys, s) + (if t.project in keys then Contribution(t, s) else 0)
  {
    if keys != [] {
      var k0, rest := keys[0], keys[1..];
      DistinctTail(keys);
      SumOverProjectsAppend(rows, t, rest, s);
      SelectAppend(rows, t, ProjectIs(k0));
      SumWhereAppend(Select(rows, ProjectIs(k0)), t, s);
      assert keys == [k0] + rest;
      assert t.project in keys <==> t.project == k0 || t.project in rest;
    }
  }

  /** Summed over a list of distinct projects that excludes "General" and covers
      every other project of the ledger, a filtered sum equals the ledger's
      filtered sum minus that of its "General" rows. */
  lemma {:induction false} SumOverProjectsTotal(rows: seq<Transaction>, keys: seq<string>, s: Selector)
    requires Distinct(keys)
    requires General !in keys
    requires forall i :: 0 <= i < |rows| && rows[i].project != General ==> rows[i].project in keys
    ensures SumOverProjects(rows, keys, s) == SumWhere(rows, s) - SumWhere(Select(rows, ProjectIs(General)), s)
  {
    if rows == [] {
      assert forall k :: 0 <= k < |keys| ==> SumWhere(Select(rows, ProjectIs(keys[k])), s) == 0;
      SumOverProjectsZero(keys, s);
    } else {
      var pre := rows[..|rows| - 1];
      var t := rows[|rows| - 1];
      assert rows == pre + [t];
      assert forall i :: 0 <= i < |pre| ==> pre[i] == rows[i];
      SumOverProjectsTotal(pre, keys, s);
      SumOverProjectsAppend(pre, t, keys, s);
      SumWhereAppend(pre, t, s);
      SelectAppend(pre, t, ProjectIs(General));
      SumWhereAppend(Select(pre, ProjectIs(General)), t, s);
    }
  }

  lemma {:induction false} SumOverProjectsZero(keys: seq<string>, s: Selector)
    ensures SumOverProjects([], keys, s) == 0
  {
    if keys != [] {
      SumOverProjectsZero(keys[1..], s);
    }
  }

  function TableIncome(t: seq<ProjectRow>): int {
    if t == [] then 0 else t[0].income + TableIncome(t[1..])
  }

  function TableDirectCosts(t: seq<ProjectRow>): int {
    if t == [] then 0 else t[0].directCosts + TableDirectCosts(t[1..])
  }

  function TableGrossMargin(t: seq<ProjectRow>): int {
    if t == [] then 0 else t[0].grossMargin + TableGrossMargin(t[1..])
  }

  lemma {:induction false} SummariesTotals(rows: seq<Transaction>, keys: seq<string>)
    ensures TableIncome(Summaries(rows, keys)) == SumOverProjects(rows, keys, KindIs(Ingreso))
    ensures TableDirectCosts(Summaries(rows, keys)) == SumOverProjects(rows, keys, CategoryIs(CostoDirecto))
    ensures TableGrossMargin(Summaries(rows, keys))
            == SumOverProjects(rows, keys, KindIs(Ingreso)) - SumOverProjects(rows, keys, CategoryIs(CostoDirecto))
  {
    if keys != [] {
      SummariesTotals(rows, keys[1..]);
      assert Summaries(rows, keys)[1..] == Summaries(rows, keys[1..]);
    }
  }

  /** Summed over all projects, the table's income, direct costs and gross
      margin equal the ledger's figures less those of its "General" rows. */
  lemma ProjectTableTotals(rows: seq<Transaction>)
    ensures var t := ProjectTable(rows);
      var general := Select(rows, ProjectIs(General));
      && TableIncome(t) == Income(rows) - Income(general)
      && TableDirectCosts(t) == DirectCosts(rows) - DirectCosts(general)
      && TableGrossMargin(t) == (Income(rows) - DirectCosts(rows)) - (Income(general) - DirectCosts(general))
  {
    var ks := Keys(rows);
    StrictlySortedDistinct(ks);
    SummariesTotals(rows, ks);
    SumOverProjectsTotal(rows, ks, KindIs(Ingreso));
    SumOverProjectsTotal(rows, ks, CategoryIs(CostoDirecto));
  }

  lemma SeedKeys()
    ensures Keys(SeedLedger()) == ["Consultoría X", "Implementación Y"]
  {
    var l := SeedLedger();
    var x, y := "Consultoría X", "Implementación Y";
    assert l[..1][..0] == [] && l[..2][..1] == l[..1] && l[..3][..2] == l[..2];
    assert l[..4][..3] == l[..3] && l[..|l| - 1] == l[..4];
    assert Keys(l[..1]) == [x];
    assert Keys(l[..2]) == [x];
    assert Keys(l[..4]) == [x];
    assert y != x && y[0] != x[0] && !Below(y, x) && [x][1..] == [];
    assert Insert([x], y) == [x] + Insert([], y);
    assert Keys(l) == Insert([x], y);
  }

  lemma SeedSelections()
    ensures var l := SeedLedger();
      && Select(l, ProjectIs("Consultoría X")) == [l[0], l[1]]
      && Select(l, ProjectIs("Implementación Y")) == [l[4]]
  {
    var l := SeedLedger();
    var x, y := "Consultoría X", "Implementación Y";
    assert l[..1][..0] == [] && l[..2][..1] == l[..1] && l[..3][..2] == l[..2];
    assert l[..4][..3] == l[..3] && l[..|l| - 1] == l[..4];
    assert Select(l[..1], ProjectIs(x)) == [l[0]];
    assert Select(l[..2], ProjectIs(x)) == [l[0], l[1]];
    assert Select(l[..4], ProjectIs(x)) == [l[0], l[1]];
    assert Select(l[..1], ProjectIs(y)) == [] && Select(l[..2], ProjectIs(y)) == [];
    assert Select(l[..3], ProjectIs(y)) == [] && Select(l[..4], ProjectIs(y)) == [];
  }

  lemma SeedSummaryX()
    ensures Summary(SeedLedger(), "Consultoría X")
            == ProjectRow("Consultoría X", 5000000, 2000000, 3000000, Finite(60.0))
  {
    var l := SeedLedger();
    SeedSelections();
    PairSums(l[0], l[1], KindIs(Ingreso));
    PairSums(l[0], l[1], CategoryIs(CostoDirecto));
  }

  lemma SeedSummaryY()
    ensures Summary(SeedLedger(), "Implementación Y")
            == ProjectRow("Implementación Y", 3500000, 0, 3500000, Finite(100.0))
  {
    var l := SeedLedger();
    SeedSelections();
    assert [l[4]][..0] == [];
  }

  /** The table for the session's starting ledger. */
  lemma SeedProjectTable()
    ensures ProjectTable(SeedLedger()) == [
      ProjectRow("Consultoría X", 5000000, 2000000, 3000000, Finite(60.0)),
      ProjectRow("Implementación Y", 3500000, 0, 3500000, Finite(100.0))]
  {
    SeedKeys();
    SeedSummaryX();
    SeedSummaryY();
  }
}
