/** Rows of the financial ledger ("finanzas") and the filter-and-sum
    expressions that every report over it is built from
    (`df[df[col] == v]['Monto'].sum()`). */
module Transactions {

  /** The ledger's "Tipo" column: the entry form offers exactly these two values. */
  datatype Kind = Ingreso | Egreso

  /** The ledger's "Categoria" column: the chart of accounts the entry form offers. */
  datatype Category = Ventas | CostoDirecto | GastoAdmin | Impuestos

  /** One ledger row. Amounts are whole currency units. */
  datatype Transaction = Transaction(
    date: string,
    concept: string,
    kind: Kind,
    category: Category,
    amount: int,
    project: string)

  /** The project name of overhead rows that belong to no project. */
  const General: string := "General"

  /** A column-equals-value row filter of the ledger. */
  datatype Selector = KindIs(kind: Kind) | CategoryIs(category: Category) | ProjectIs(project: string)

  predicate Matches(t: Transaction, s: Selector) {
    match s
    case KindIs(k) => t.kind == k
    case CategoryIs(c) => t.category == c
    case ProjectIs(p) => t.project == p
  }

  /** Every amount in the ledger is non-negative (the entry form's minimum is 0). */
  predicate AllNonNegative(rows: seq<Transaction>) {
    forall i :: 0 <= i < |rows| ==> rows[i].amount >= 0
  }

  /** Sum of all amounts (`df['Monto'].sum()`); never negative over a
      ledger of non-negative amounts. */
  function Total(rows: seq<Transaction>): (r: int)
    ensures AllNonNegative(rows) ==> r >= 0
  {
    if rows == [] then 0
    else
      assert forall i :: 0 <= i < |rows| - 1 ==> rows[..|rows| - 1][i] == rows[i];
      Total(rows[..|rows| - 1]) + rows[|rows| - 1].amount
  }

  /** The rows the selector picks, in ledger order (`df[df[col] == v]`). */
  function Select(rows: seq<Transaction>, s: Selector): (r: seq<Transaction>)
    ensures |r| <= |rows|
    ensures forall i :: 0 <= i < |r| ==> Matches(r[i], s) && r[i] in rows
    ensures forall i :: 0 <= i < |rows| && Matches(rows[i], s) ==> rows[i] in r
  {
    if rows == [] then []
    else
      var pre := Select(rows[..|rows| - 1], s);
      var last := rows[|rows| - 1];
      assert forall i :: 0 <= i < |rows| - 1 ==> rows[i] == rows[..|rows| - 1][i];
      if Matches(last, s) then pre + [last] else pre
  }

  /** What one row adds to a filtered sum. */
  function Contribution(t: Transaction, s: Selector): int {
    if Matches(t, s) then t.amount else 0
  }

  /** Sum of the amounts of the rows the selector picks
      (`df[df[col] == v]['Monto'].sum()`), computed in one pass. Over
      non-negative amounts it lies between 0 and the plain sum. */
  function SumWhere(rows: seq<Transaction>, s: Selector): (r: int)
    ensures AllNonNegative(rows) ==> 0 <= r <= Total(rows)
  {
    if rows == [] then 0
    else
      var pre := rows[..|rows| - 1];
      assert forall i :: 0 <= i < |pre| ==> pre[i] == rows[i];
      SumWhere(pre, s) + Contribution(rows[|rows| - 1], s)
  }

  lemma TotalAppend(rows: seq<Transaction>, t: Transaction)
    ensures Total(rows + [t]) == Total(rows) + t.amount
  {
    assert (rows + [t])[..|rows|] == rows;
  }

  /** Filtering keeps every picked row as often as the ledger holds it and
      drops every other row. */
  lemma {:induction false} SelectCounts(rows: seq<Transaction>, s: Selector)
    ensures forall x :: multiset(Select(rows, s))[x] == (if Matches(x, s) then multiset(rows)[x] else 0)
  {
    if rows != [] {
      var pre := rows[..|rows| - 1];
      var last := rows[|rows| - 1];
      SelectCounts(pre, s);
      assert rows == pre + [last];
      assert multiset(rows) == multiset(pre) + multiset{last};
      if Matches(last, s) {
        assert multiset(Select(pre, s) + [last]) == multiset(Select(pre, s)) + multiset{last};
      }
    }
  }

  /** The filtered sum is the plain sum of the filtered table. */
  lemma {:induction false} SumWhereIsTotalOfSelect(rows: seq<Transaction>, s: Selector)
    ensures SumWhere(rows, s) == Total(Select(rows, s))
  {
    if rows != [] {
      var pre := rows[..|rows| - 1];
      SumWhereIsTotalOfSelect(pre, s);
      if Matches(rows[|rows| - 1], s) {
        TotalAppend(Select(pre, s), rows[|rows| - 1]);
      }
    }
  }

  /** Filtering keeps ledger order: the filtered table of a concatenation is
      the concatenation of the filtered tables. With `Select([t], s)` being
      `[t]` or `[]`, this fixes the result row by row. */
  lemma {:induction false} SelectConcat(a: seq<Transaction>, b: seq<Transaction>, s: Selector)
    ensures Select(a + b, s) == Select(a, s) + Select(b, s)
  {
    if b == [] {
      assert a + b == a;
    } else {
      var b' := b[..|b| - 1];
      SelectConcat(a, b', s);
      assert (a + b)[..|a + b| - 1] == a + b';
      if Matches(b[|b| - 1], s) {
        assert Select(a, s) + (Select(b', s) + [b[|b| - 1]])
            == (Select(a, s) + Select(b', s)) + [b[|b| - 1]];
      }
    }
  }

  /** Filtered sums split over concatenated ledgers. */
  lemma {:induction false} SumWhereConcat(a: seq<Transaction>, b: seq<Transaction>, s: Selector)
    ensures SumWhere(a + b, s) == SumWhere(a, s) + SumWhere(b, s)
  {
    if b == [] {
      assert a + b == a;
    } else {
      var b' := b[..|b| - 1];
      SumWhereConcat(a, b', s);
      assert (a + b)[..|a + b| - 1] == a + b';
    }
  }

  /** Appending one row adds its amount to exactly the filtered sums it matches. */
  lemma SumWhereAppend(rows: seq<Transaction>, t: Transaction, s: Selector)
    ensures SumWhere(rows + [t], s) == SumWhere(rows, s) + Contribution(t, s)
  {
    assert (rows + [t])[..|rows|] == rows;
  }

  /** One more row of a ledger's prefix adds that row's amount when it is picked. */
  lemma SumWherePrefix(rows: seq<Transaction>, k: nat, s: Selector)
    requires k < |rows|
    ensures SumWhere(rows[..k + 1], s) == SumWhere(rows[..k], s) + Contribution(rows[k], s)
  {
    assert rows[..k + 1] == rows[..k] + [rows[k]];
    SumWhereAppend(rows[..k], rows[k], s);
  }

  lemma PairSums(a: Transaction, b: Transaction, s: Selector)
    ensures SumWhere([a, b], s) == Contribution(a, s) + Contribution(b, s)
  {
    var ab := [a, b];
    assert ab[..0] == [] && ab[..2] == ab;
    SumWherePrefix(ab, 0, s);
    SumWherePrefix(ab, 1, s);
  }

  /** A row the selector does not pick can be inserted anywhere without changing the sum. */
  lemma SumWhereIgnores(a: seq<Transaction>, t: Transaction, b: seq<Transaction>, s: Selector)
    requires !Matches(t, s)
    ensures SumWhere(a + [t] + b, s) == SumWhere(a + b, s)
  {
    SumWhereConcat(a + [t], b, s);
    SumWhereAppend(a, t, s);
    SumWhereConcat(a, b, s);
  }

  /** The ledger the session starts with. */
  function SeedLedger(): seq<Transaction> {
    [ Transaction("2023-10-01", "Factura Cliente A", Ingreso, Ventas, 5000000, "Consultoría X"),
      Transaction("2023-10-05", "Pago Consultor Senior", Egreso, CostoDirecto, 2000000, "Consultoría X"),
      Transaction("2023-10-10", "Licencias Software", Egreso, GastoAdmin, 150000, General),
      Transaction("2023-10-15", "Arriendo Oficina", Egreso, GastoAdmin, 800000, General),
      Transaction("2023-10-20", "Factura Cliente B", Ingreso, Ventas, 3500000, "Implementación Y") ]
  }

  /** Any filtered sum of the starting ledger, row by row. */
  lemma SeedSums(s: Selector)
    ensures var l := SeedLedger();
      SumWhere(l, s) == Contribution(l[0], s) + Contribution(l[1], s) + Contribution(l[2], s)
                        + Contribution(l[3], s) + Contribution(l[4], s)
  {
    var l := SeedLedger();
    assert l[..0] == [] && l[..5] == l;
    SumWherePrefix(l, 0, s);
    SumWherePrefix(l, 1, s);
    SumWherePrefix(l, 2, s);
    SumWherePrefix(l, 3, s);
    SumWherePrefix(l, 4, s);
  }
}
