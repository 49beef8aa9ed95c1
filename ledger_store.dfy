/** The session's in-memory ledger table, grown in place by the
    "register a new transaction" form. */
module LedgerStore {
  import opened Transactions
  import opened Finance

  class Ledger {
    var rows: seq<Transaction>

    /** Every row the form can store has a non-negative amount. */
    ghost predicate Valid()
      reads this
    {
      AllNonNegative(rows)
    }

    /** A new session starts from the seeded ledger. */
    constructor ()
      ensures Valid()
      ensures rows == SeedLedger()
    {
      rows := SeedLedger();
    }

    /** Store a submitted row at the end of the table. */
    method Append(t: Transaction)
      requires Valid()
      requires t.amount >= 0
      modifies this
      ensures Valid()
      ensures rows == old(rows) + [t]
      ensures |rows| == |old(rows)| + 1
      ensures forall i :: 0 <= i < |old(rows)| ==> rows[i] == old(rows)[i]
      ensures Income(rows) == old(Income(rows)) + (if t.kind == Ingreso then t.amount else 0)
      ensures Income(rows) >= old(Income(rows))
      ensures Income(rows) > old(Income(rows)) <==> t.kind == Ingreso && t.amount > 0
      ensures DirectCosts(rows) >= old(DirectCosts(rows))
      ensures AdminExpenses(rows) >= old(AdminExpenses(rows))
    {
      SumWhereAppend(rows, t, KindIs(Ingreso));
      SumWhereAppend(rows, t, CategoryIs(CostoDirecto));
      SumWhereAppend(rows, t, CategoryIs(GastoAdmin));
      rows := rows + [t];
    }

    /** The KPIs of the current table, as the board and the P&L read them. */
    method CurrentKpis() returns (k: Kpis)
      requires Valid()
      ensures k == ComputeKpis(rows)
      ensures 0 <= k.income && k.ebitda <= k.grossMargin <= k.income
    {
      KpiBounds(rows);
      k := ComputeKpis(rows);
    }
  }

  /** Appending to a ledger of non-negative amounts never lowers income, whatever
      the row's type and category. */
  lemma {:induction false} AppendsNeverLowerIncome(rows: seq<Transaction>, added: seq<Transaction>)
    requires AllNonNegative(added)
    ensures Income(rows + added) >= Income(rows)
  {
    if added == [] {
      assert rows + added == rows;
    } else {
      var pre := added[..|added| - 1];
      assert AllNonNegative(pre) by {
        forall i | 0 <= i < |pre| ensures pre[i].amount >= 0 {
          assert pre[i] == added[i];
        }
      }
      AppendsNeverLowerIncome(rows, pre);
      assert rows + added == (rows + pre) + [added[|added| - 1]];
      SumWhereAppend(rows + pre, added[|added| - 1], KindIs(Ingreso));
    }
  }
}
