/** The management-accounting KPIs of the ledger (`calcular_kpis_financieros`):
    income, gross margin, EBITDA and the gross-margin percentage. */
module Finance {
  import opened Transactions
  import opened Ratios

  /** Income counts the rows whose type is "Ingreso": never more than the
      ledger total when amounts are non-negative. */
  function Income(rows: seq<Transaction>): (r: int)
    ensures AllNonNegative(rows) ==> 0 <= r <= Total(rows)
  {
    SumWhere(rows, KindIs(Ingreso))
  }

  /** Direct costs are picked by category, whatever the row's type. */
  function DirectCosts(rows: seq<Transaction>): (r: int)
    ensures AllNonNegative(rows) ==> 0 <= r <= Total(rows)
  {
    SumWhere(rows, CategoryIs(CostoDirecto))
  }

  /** Administrative expenses are picked by category, whatever the row's type. */
  function AdminExpenses(rows: seq<Transaction>): (r: int)
    ensures AllNonNegative(rows) ==> 0 <= r <= Total(rows)
  {
    SumWhere(rows, CategoryIs(GastoAdmin))
  }

  datatype Kpis = Kpis(income: int, grossMargin: int, ebitda: int, marginPct: real)

  /** The four figures the governance board shows for a ledger. */
  function ComputeKpis(rows: seq<Transaction>): (k: Kpis)
    ensures k.income == Income(rows)
    ensures k.grossMargin == Income(rows) - DirectCosts(rows)
    ensures k.ebitda == Income(rows) - DirectCosts(rows) - AdminExpenses(rows)
    ensures k.income <= 0 ==> k.marginPct == 0.0
    ensures k.income > 0 ==> k.marginPct * k.income as real == k.grossMargin as real * 100.0
  {
    var income := Income(rows);
    var grossMargin := income - DirectCosts(rows);
    var ebitda := grossMargin - AdminExpenses(rows);
    Kpis(income, grossMargin, ebitda, GuardedPercent(grossMargin, income))
  }

  /** A row that is not income and whose category is neither direct cost nor
      administrative expense ("Egreso" / "Impuestos", say) can be inserted
      anywhere in the ledger without changing any KPI. */
  lemma NeutralRowKeepsKpis(a: seq<Transaction>, t: Transaction, b: seq<Transaction>)
    requires t.kind != Ingreso
    requires t.category != CostoDirecto && t.category != GastoAdmin
    ensures ComputeKpis(a + [t] + b) == ComputeKpis(a + b)
  {
    SumWhereIgnores(a, t, b, KindIs(Ingreso));
    SumWhereIgnores(a, t, b, CategoryIs(CostoDirecto));
    SumWhereIgnores(a, t, b, CategoryIs(GastoAdmin));
  }

  /** Because costs are picked by category, an "Ingreso" row filed as
      "Costo Directo" raises income and direct costs alike and leaves gross
      margin and EBITDA where they were. */
  lemma IncomeFiledAsDirectCost(rows: seq<Transaction>, t: Transaction)
    requires t.kind == Ingreso && t.category == CostoDirecto
    ensures Income(rows + [t]) == Income(rows) + t.amount
    ensures DirectCosts(rows + [t]) == DirectCosts(rows) + t.amount
    ensures ComputeKpis(rows + [t]).grossMargin == ComputeKpis(rows).grossMargin
    ensures ComputeKpis(rows + [t]).ebitda == ComputeKpis(rows).ebitda
  {
    SumWhereAppend(rows, t, KindIs(Ingreso));
    SumWhereAppend(rows, t, CategoryIs(CostoDirecto));
    SumWhereAppend(rows, t, CategoryIs(GastoAdmin));
  }

  /** Over a ledger of non-negative amounts: income is non-negative, EBITDA never
      exceeds gross margin, gross margin never exceeds income, and a margin
      percentage over positive income is at most 100, is non-negative exactly
      when direct costs do not exceed income, and is exactly 100 exactly when
      there are no direct costs. */
  lemma KpiBounds(rows: seq<Transaction>)
    requires AllNonNegative(rows)
    ensures var k := ComputeKpis(rows);
      && 0 <= k.income
      && k.ebitda <= k.grossMargin <= k.income
      && (k.income > 0 ==>
            && k.marginPct <= 100.0
            && (k.marginPct >= 0.0 <==> DirectCosts(rows) <= Income(rows))
            && (k.marginPct == 100.0 <==> DirectCosts(rows) == 0))
  {
    var k := ComputeKpis(rows);
    if k.income > 0 {
      PercentBelow(k.grossMargin, k.income, 0);
      PercentBelow(k.grossMargin, k.income, 100);
      assert k.grossMargin * 100 <= 100 * k.income;
    }
  }

  /** The figures the board shows for the session's starting ledger. */
  lemma SeedKpis()
    ensures var k := ComputeKpis(SeedLedger());
      && k.income == 8500000
      && k.grossMargin == 6500000
      && k.ebitda == 5550000
      && k.marginPct * 17.0 == 1300.0
  {
    SeedSums(KindIs(Ingreso));
    SeedSums(CategoryIs(CostoDirecto));
    SeedSums(CategoryIs(GastoAdmin));
  }
}
