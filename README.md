# Management-suite dashboard: bookkeeping arithmetic

This project models, in Dafny, the arithmetic core of the "Sistema de Gestión QD"
dashboard (`ai_studio_code.py`), a single-page Streamlit app.

- **Financial ledger.** A table of transactions ("finanzas"). Each row has a date, a concept, a type (`Ingreso`/`Egreso`), a category (`Ventas`, `Costo Directo`, `Gasto Admin`, `Impuestos`), an amount and a project.
  - The session starts from a seeded ledger.
  - The entry form appends rows with a non-negative amount.
  - `calcular_kpis_financieros` derives income, gross margin, EBITDA and the gross-margin percentage.
  - Income is selected by type. Direct costs and administrative expenses are selected by category, whatever the row's type. The model keeps this.
- **Sales pipeline.** A table of opportunities with a stage, a value and a whole-number probability.
  - Total value.
  - Probability-weighted forecast, Σ value·probability/100. The governance board and the pipeline tab use the same figure, so both are the one function `Pipeline.Forecast`.
  - Sales funnel: values grouped by stage and ordered Lead < Propuesta < Negociación < Ganado < Perdido.
- **Proposal calculator.**
  - Cost = hours·hourly cost + external expenses.
  - Margin = price − cost.
  - Margin % is 0 when the price is not positive.
  - The warning is shown exactly when margin % < 30.
- **Per-project profitability.** The ledger without its "General" rows, grouped by project in ascending name order. Each project gets its income, direct costs, gross margin and margin percentage.

Modules, one per component:

- `Transactions`: rows, selectors, filter-and-sum.
- `Ratios`: the guarded percentage.
- `Finance`: KPIs.
- `LedgerStore`: the session ledger as a class with `Append`.
- `Pipeline`: total value, forecast and funnel.
- `Pricing`: the proposal calculator.
- `Projects`: the per-project table.

The pandas expressions are filter-and-sum over whole tables, so they are modelled as functions over `seq`. The ledger is grown in place in the session state, so it is a class whose `Append` method reassigns a `seq` field.

Numbers are modelled as follows:

- Amounts are unbounded integers.
- Percentages are exact `real`s where the source computes floats.
- A project's margin percentage follows pandas:
  - non-zero income gives a finite value;
  - 0/0 is NaN, which `fillna(0)` turns into 0;
  - a non-zero margin over zero income is an infinity of the margin's sign, which `fillna` leaves in place (`Projects.Percent`).

## Model

| member | source | states |
|---|---|---|
| `Transactions.Total` | ai_studio_code.py:51-53 | the plain sum of a ledger's amounts is never negative when no amount is |
| `Transactions.Select` | ai_studio_code.py:51-53 | the filtered table holds only matching ledger rows and every matching row, and is never longer than the ledger |
| `Transactions.SelectCounts` | ai_studio_code.py:51-53 | each matching row occurs in the filtered table exactly as often as in the ledger; non-matching rows not at all |
| `Transactions.SelectConcat` | ai_studio_code.py:51-53 | the filtered table of a concatenation is the concatenation of the filtered tables, so ledger order is kept |
| `Transactions.SumWhere` | ai_studio_code.py:51-53 | over non-negative amounts a filtered sum lies between 0 and the ledger total |
| `Transactions.SumWhereIsTotalOfSelect` | ai_studio_code.py:51-53 | a filtered sum equals the plain sum of the filtered table |
| `Transactions.SumWhereConcat` | ai_studio_code.py:51-53 | filtered sums split over concatenated ledgers |
| `Transactions.SumWhereIgnores` | ai_studio_code.py:51-53 | a row the filter does not pick can be inserted anywhere without changing the sum |
| `Ratios.GuardedPercent` | ai_studio_code.py:57 | the result is 0 when the denominator is not positive; otherwise result·denominator = 100·numerator |
| `Ratios.PercentBelow` | ai_studio_code.py:199-202 | with a positive denominator, percent < t iff 100·part < t·whole, and percent = t iff 100·part = t·whole |
| `Finance.Income` | ai_studio_code.py:51 | the 'Ingreso' sum lies between 0 and the ledger total over non-negative amounts |
| `Finance.DirectCosts` | ai_studio_code.py:52 | the 'Costo Directo' sum lies between 0 and the ledger total over non-negative amounts |
| `Finance.AdminExpenses` | ai_studio_code.py:53 | the 'Gasto Admin' sum lies between 0 and the ledger total over non-negative amounts |
| `Finance.ComputeKpis` | ai_studio_code.py:50-59 | income is the 'Ingreso' sum; gross margin = income − direct costs; EBITDA = income − direct costs − admin expenses; margin % is 0 when income ≤ 0, else margin%·income = 100·gross margin |
| `Finance.NeutralRowKeepsKpis` | ai_studio_code.py:51-53 | a non-income row outside 'Costo Directo' and 'Gasto Admin' (e.g. Egreso/Impuestos) inserted anywhere leaves all four KPIs unchanged |
| `Finance.IncomeFiledAsDirectCost` | ai_studio_code.py:51-56 | an 'Ingreso' row filed as 'Costo Directo' raises income and direct costs by its amount and leaves gross margin and EBITDA unchanged |
| `Finance.KpiBounds` | ai_studio_code.py:55-57 | over non-negative amounts: 0 ≤ income, EBITDA ≤ gross margin ≤ income; with income > 0, margin % ≤ 100, ≥ 0 iff direct costs ≤ income, = 100 iff no direct costs |
| `Finance.SeedKpis` | ai_studio_code.py:23-29 | the seeded ledger gives income 8,500,000, gross margin 6,500,000, EBITDA 5,550,000 and margin % 1300/17 |
| `LedgerStore.Ledger.constructor` | ai_studio_code.py:21-30 | a new session's ledger is the seeded ledger, all amounts non-negative |
| `LedgerStore.Ledger.Append` | ai_studio_code.py:119-121 | the ledger grows by exactly the submitted row with earlier rows unchanged; income rises by the amount iff the row is 'Ingreso' and never falls; direct costs and admin expenses never fall |
| `LedgerStore.Ledger.CurrentKpis` | ai_studio_code.py:74-75 | the KPIs read from the stored ledger, with 0 ≤ income and EBITDA ≤ gross margin ≤ income |
| `LedgerStore.AppendsNeverLowerIncome` | ai_studio_code.py:115-121 | any run of appended non-negative rows leaves income at least where it was |
| `Pipeline.TotalValue` | ai_studio_code.py:174 | the total pipeline value is never negative when no value is |
| `Pipeline.Forecast` | ai_studio_code.py:81 | the sum of per-row Valor·Probabilidad/100 (also line 175) is the integer Σ Valor·Probabilidad divided by 100 |
| `Pipeline.ForecastBounds` | ai_studio_code.py:174-175 | with values ≥ 0 and probabilities in [0,100], 0 ≤ forecast ≤ total pipeline value |
| `Pipeline.SeedForecast` | ai_studio_code.py:34-38 | the seeded pipeline totals 14,500,000 with a weighted forecast of 5,450,000 |
| `Pipeline.StageValue` | ai_studio_code.py:157 | a stage no opportunity is at sums to 0 |
| `Pipeline.FunnelOver` | ai_studio_code.py:157-161 | the grouped rows for a stage list: at most one per listed stage, each from the list and holding its stage's value sum |
| `Pipeline.Funnel` | ai_studio_code.py:157-161 | funnel rows are in strictly increasing stage rank (so each stage once); a stage has a row iff some opportunity is at it; each row holds its stage's value sum |
| `Pipeline.StageValuesPartitionTotal` | ai_studio_code.py:157 | the five stage sums add up to the total pipeline value |
| `Pipeline.FunnelSumsToTotal` | ai_studio_code.py:157-161 | the funnel rows' values add up to the total pipeline value |
| `Pricing.Evaluate` | ai_studio_code.py:189-202 | cost = hours·hourly cost + external expenses; margin + cost = price; margin % is 0 when price ≤ 0, else margin%·price = 100·margin; warning iff margin % < 30 |
| `Pricing.WarningIffCostAboveSeventyPercent` | ai_studio_code.py:199-205 | the warning is shown iff price ≤ 0 or 10·cost > 7·price |
| `Pricing.NonPositivePriceWarns` | ai_studio_code.py:191-202 | a non-positive price always warns, with margin % 0 |
| `Pricing.MoreHoursKeepWarning` | ai_studio_code.py:189-202 | more hours at a non-negative hourly cost never clear a warning |
| `Pricing.HigherPriceKeepsHealthy` | ai_studio_code.py:189-205 | raising the price never turns a healthy proposal into a warning |
| `Pricing.DefaultProposalIsHealthy` | ai_studio_code.py:184-187 | the default inputs give cost 550,000, margin 450,000, 45% and no warning |
| `Projects.Below` | ai_studio_code.py:217 | the string order of group keys is irreflexive and puts a proper prefix first |
| `Projects.BelowTransitive` | ai_studio_code.py:217 | the string order of group keys is transitive |
| `Projects.BelowTotal` | ai_studio_code.py:217 | any two different project names are ordered one way or the other |
| `Projects.Insert` | ai_studio_code.py:217 | adding a key keeps the key list strictly ascending and its elements are the old keys plus the new one |
| `Projects.Keys` | ai_studio_code.py:217 | group keys are strictly ascending, and a name is a key iff it is not "General" and some row has it |
| `Projects.MarginPercent` | ai_studio_code.py:225 | finite with value·income = 100·margin when income ≠ 0; 0 for 0/0; +∞ or −∞ by the margin's sign over zero income |
| `Projects.Summary` | ai_studio_code.py:218-225 | a project's row: margin = income − costs with its pandas percentage; over non-negative amounts income and costs are ≥ 0 and margin ≤ income; a project without rows has all-zero figures |
| `Projects.Summaries` | ai_studio_code.py:217-222 | one table row per key, in key order, each the summary of that project's own rows |
| `Projects.ProjectTable` | ai_studio_code.py:217-224 | projects in ascending order, each once; a project is listed iff it is not "General" and has a row; income and direct costs are sums over its own rows; margin = income − costs |
| `Projects.SumOverProjectsTotal` | ai_studio_code.py:217-221 | over distinct keys covering every non-"General" project, per-project sums add up to the ledger sum minus the "General" rows' sum |
| `Projects.ProjectTableTotals` | ai_studio_code.py:217-224 | the table's income, direct costs and gross margin totals equal the ledger's figures less those of the "General" rows |
| `Projects.SeedProjectTable` | ai_studio_code.py:23-29 | the seeded ledger gives Consultoría X 5,000,000/2,000,000/3,000,000 (60%) and Implementación Y 3,500,000/0/3,500,000 (100%) |

## Left out

- Page configuration, CSS, sidebar, module navigation, metrics widgets, expanders, tabs and forms (lines 8-16, 62-64, 69-73, 76-80, 83-89, 92-114, 116-118): presentation only. The KPI read at lines 74-75 and the forecast at line 81 are modelled. The form's `min_value=0` on the amount becomes the `requires` of `Append`.
- Plotly charts and the type/category pivot (lines 130-138, 166-167, 236-237): the pivot only feeds a chart.
- `st.data_editor` rewrites of the pipeline and task tables (lines 90-91, 171-172): arbitrary user edits with no rule to state. The task table is not modelled.
- Dates and the display sort by date (lines 109, 141): presentation only.
- Currency and percent formatting in f-strings and `style.format`: presentation only.
- Stage, type and category are closed datatypes, because the form and the seed data only produce those values. A free-text stage typed into the data editor, which pandas would place as NaN, is not modelled.
- A ledger whose rows all belong to "General": pandas' `groupby().apply` over an empty frame yields no `Ingresos` column, so line 224 would fail. The model returns an empty table instead. The seeded rows cannot be removed, so the session never reaches this state.
- 64-bit integer overflow in pandas sums: amounts are unbounded integers.
- Floating-point rounding: percentages and the forecast are exact reals.
- `ai_studio_code.py` contains no discounted-cash-flow, IRR, Monte Carlo, operating-leverage or growth-rate calculation; none is modelled.
- Undefined ratios follow the code: 0 for a non-positive denominator in the KPI and proposal percentages (lines 57, 191), and `fillna(0)` with ±∞ kept for the project table (line 225).
