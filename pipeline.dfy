/** The sales pipeline ("pipeline"): total value, probability-weighted
    forecast and the sales funnel grouped by stage. */
module Pipeline {

  /** The funnel's stages; the declared order is the funnel's order. */
  datatype Stage = Lead | Propuesta | Negociacion | Ganado | Perdido

  /** Position of a stage in the funnel. */
  function Rank(s: Stage): (r: nat)
    ensures r < 5
  {
    match s
    case Lead => 0
    case Propuesta => 1
    case Negociacion => 2
    case Ganado => 3
    case Perdido => 4
  }

  /** The ordered category list the funnel is sorted by. */
  function FunnelOrder(): seq<Stage> {
    [Lead, Propuesta, Negociacion, Ganado, Perdido]
  }

  /** One opportunity; probability is a whole percentage. */
  datatype Opportunity = Opportunity(client: string, service: string, stage: Stage, value: int, probability: int)

  /** Sum of the opportunities' values (`df['Valor'].sum()`); never negative
      when no value is. */
  function TotalValue(ops: seq<Opportunity>): (r: int)
    ensures (forall i :: 0 <= i < |ops| ==> ops[i].value >= 0) ==> r >= 0
  {
    if ops == [] then 0
    else
      assert forall i :: 0 <= i < |ops| - 1 ==> ops[..|ops| - 1][i] == ops[i];
      TotalValue(ops[..|ops| - 1]) + ops[|ops| - 1].value
  }

  /** Sum of value times probability, in whole units (before dividing by 100). */
  function WeightedSum(ops: seq<Opportunity>): int {
    if ops == [] then 0
    else WeightedSum(ops[..|ops| - 1]) + ops[|ops| - 1].value * ops[|ops| - 1].probability
  }

  /** The weighted forecast: each row's `Valor * Probabilidad / 100`, summed.
      The board's "weighted pipeline" and the pipeline tab's forecast are this one figure.
      Summing the per-row quotients is dividing the integer weighted sum once. */
  function Forecast(ops: seq<Opportunity>): (r: real)
    ensures r * 100.0 == WeightedSum(ops) as real
  {
    if ops == [] then 0.0
    else Forecast(ops[..|ops| - 1]) + (ops[|ops| - 1].value * ops[|ops| - 1].probability) as real / 100.0
  }

  predicate WellFormed(ops: seq<Opportunity>) {
    forall i :: 0 <= i < |ops| ==> ops[i].value >= 0 && 0 <= ops[i].probability <= 100
  }

  lemma {:induction false} WeightedSumBounds(ops: seq<Opportunity>)
    requires WellFormed(ops)
    ensures 0 <= WeightedSum(ops) <= 100 * TotalValue(ops)
  {
    if ops != [] {
      var pre := ops[..|ops| - 1];
      var o := ops[|ops| - 1];
      assert WellFormed(pre) by {
        forall i | 0 <= i < |pre| ensures pre[i].value >= 0 && 0 <= pre[i].probability <= 100 {
          assert pre[i] == ops[i];
        }
      }
      WeightedSumBounds(pre);
      assert 0 <= o.value * o.probability <= o.value * 100 by {
        assert o.value * (100 - o.probability) >= 0;
      }
    }
  }

  /** With non-negative values and probabilities in [0, 100], the forecast lies
      between 0 and the total pipeline value. */
  lemma ForecastBounds(ops: seq<Opportunity>)
    requires WellFormed(ops)
    ensures 0.0 <= Forecast(ops) <= TotalValue(ops) as real
  {
    WeightedSumBounds(ops);
  }

  /** The pipeline the session starts with. */
  function SeedPipeline(): seq<Opportunity> {
    [ Opportunity("Empresa Alpha", "Estrategia", Propuesta, 4500000, 50),
      Opportunity("Empresa Beta", "Auditoría", Negociacion, 2000000, 80),
      Opportunity("Empresa Gamma", "Outsourcing", Lead, 8000000, 20) ]
  }

  lemma SeedForecast()
    ensures TotalValue(SeedPipeline()) == 14500000
    ensures Forecast(SeedPipeline()) == 5450000.0
  {
    var s := SeedPipeline();
    var s1, s2 := s[..1], s[..2];
    assert s1[..0] == [] && s2[..1] == s1 && s[..2] == s2;
    assert TotalValue(s1) == 4500000 && Forecast(s1) == 2250000.0;
    assert TotalValue(s2) == 6500000 && Forecast(s2) == 3850000.0;
  }

  // ---------------------------------------------------------------------------
  // Funnel: `groupby('Etapa')['Valor'].sum()`, then sorted by stage rank.

  /** Some opportunity is at this stage (so the grouping has a row for it). */
  predicate Present(ops: seq<Opportunity>, s: Stage) {
    exists i :: 0 <= i < |ops| && ops[i].stage == s
  }

  /** Sum of the values of the opportunities at one stage; a stage nobody is at sums to 0. */
  function StageValue(ops: seq<Opportunity>, s: Stage): (r: int)
    ensures !Present(ops, s) ==> r == 0
  {
    if ops == [] then 0
    else
      assert forall i :: 0 <= i < |ops| - 1 ==> ops[..|ops| - 1][i] == ops[i];
      StageValue(ops[..|ops| - 1], s) + (if ops[|ops| - 1].stage == s then ops[|ops| - 1].value else 0)
  }

  datatype FunnelEntry = FunnelEntry(stage: Stage, value: int)

  /** The funnel rows include one for the stage. */
  predicate HasRow(f: seq<FunnelEntry>, s: Stage) {
    exists i :: 0 <= i < |f| && f[i].stage == s
  }

  /** The grouped rows for the given stages, in the given order: at most one
      row per stage, each from the given stages and holding its stage sum. */
  function FunnelOver(ops: seq<Opportunity>, stages: seq<Stage>): (r: seq<FunnelEntry>)
    ensures |r| <= |stages|
    ensures forall i :: 0 <= i < |r| ==> r[i].stage in stages && r[i].value == StageValue(ops, r[i].stage)
  {
    if stages == [] then []
    else
      (if Present(ops, stages[0]) then [FunnelEntry(stages[0], StageValue(ops, stages[0]))] else [])
      + FunnelOver(ops, stages[1..])
  }

  /** The funnel table (`groupby('Etapa')['Valor'].sum()` sorted by stage):
      each stage that occurs appears exactly once, stages are in rank order
      (Lead < Propuesta < Negociación < Ganado < Perdido), and each row holds
      the sum of its stage's values. */
  function Funnel(ops: seq<Opportunity>): (f: seq<FunnelEntry>)
    ensures forall i, j :: 0 <= i < j < |f| ==> Rank(f[i].stage) < Rank(f[j].stage)
    ensures forall i :: 0 <= i < |f| ==> f[i].value == StageValue(ops, f[i].stage)
    ensures forall s :: HasRow(f, s) <==> Present(ops, s)
  {
    var f := FunnelOver(ops, FunnelOrder());
    FunnelOverRanked(ops, FunnelOrder(), f);
    FunnelOverStages(ops, FunnelOrder(), f);
    f
  }

  function EntriesTotal(f: seq<FunnelEntry>): int {
    if f == [] then 0 else f[0].value + EntriesTotal(f[1..])
  }

  predicate RankIncreasing(stages: seq<Stage>) {
    forall i, j :: 0 <= i < j < |stages| ==> Rank(stages[i]) < Rank(stages[j])
  }

  lemma RankIncreasingTail(stages: seq<Stage>)
    requires stages != [] && RankIncreasing(stages)
    ensures RankIncreasing(stages[1..])
    ensures forall k :: 0 <= k < |stages[1..]| ==> Rank(stages[0]) < Rank(stages[1..][k])
  {
    var rest := stages[1..];
    forall i, j | 0 <= i < j < |rest| ensures Rank(rest[i]) < Rank(rest[j]) {
      assert rest[i] == stages[i + 1] && rest[j] == stages[j + 1];
    }
    forall k | 0 <= k < |rest| ensures Rank(stages[0]) < Rank(rest[k]) {
      assert rest[k] == stages[k + 1];
    }
  }

  /** `FunnelOver` keeps the order of rank-ordered stages. */
  lemma {:induction false} FunnelOverRanked(ops: seq<Opportunity>, stages: seq<Stage>, f: seq<FunnelEntry>)
    requires RankIncreasing(stages)
    requires f == FunnelOver(ops, stages)
    ensures forall i, j :: 0 <= i < j < |f| ==> Rank(f[i].stage) < Rank(f[j].stage)
  {
    if stages != [] {
      RankIncreasingTail(stages);
      var tail := FunnelOver(ops, stages[1..]);
      FunnelOverRanked(ops, stages[1..], tail);
      var head := if Present(ops, stages[0]) then [FunnelEntry(stages[0], StageValue(ops, stages[0]))] else [];
      assert f == head + tail;
      forall i, j | 0 <= i < j < |f| ensures Rank(f[i].stage) < Rank(f[j].stage) {
        assert f[j] == tail[j - |head|];
        if i < |head| {
          assert f[i].stage == stages[0];
          assert tail[j - |head|].stage in stages[1..];
        } else {
          assert f[i] == tail[i - |head|];
        }
      }
    }
  }

  /** A given stage some opportunity is at has a row in `FunnelOver`. */
  lemma {:induction false} FunnelOverCovers(ops: seq<Opportunity>, stages: seq<Stage>, f: seq<FunnelEntry>, s: Stage)
    requires f == FunnelOver(ops, stages)
    requires s in stages && Present(ops, s)
    ensures HasRow(f, s)
  {
    var tail := FunnelOver(ops, stages[1..]);
    var head := if Present(ops, stages[0]) then [FunnelEntry(stages[0], StageValue(ops, stages[0]))] else [];
    assert f == head + tail;
    if s == stages[0] {
      assert f[0].stage == s;
    } else {
      assert s in stages[1..] by {
        assert stages == [stages[0]] + stages[1..];
      }
      FunnelOverCovers(ops, stages[1..], tail, s);
      var i :| 0 <= i < |tail| && tail[i].stage == s;
      assert f[|head| + i] == tail[i];
    }
  }

  /** A stage with a row in `FunnelOver` has some opportunity at it. */
  lemma {:induction false} FunnelOverOnlyPresent(ops: seq<Opportunity>, stages: seq<Stage>, f: seq<FunnelEntry>, s: Stage)
    requires f == FunnelOver(ops, stages)
    requires HasRow(f, s)
    ensures Present(ops, s)
  {
    var tail := FunnelOver(ops, stages[1..]);
    var head := if Present(ops, stages[0]) then [FunnelEntry(stages[0], StageValue(ops, stages[0]))] else [];
    assert f == head + tail;
    var i :| 0 <= i < |f| && f[i].stage == s;
    if i >= |head| {
      assert tail[i - |head|] == f[i];
      FunnelOverOnlyPresent(ops, stages[1..], tail, s);
    }
  }

  /** Every stage has a row in `FunnelOver` over all five stages exactly when
      some opportunity is at it. */
  lemma FunnelOverStages(ops: seq<Opportunity>, stages: seq<Stage>, f: seq<FunnelEntry>)
    requires stages == FunnelOrder() && f == FunnelOver(ops, stages)
    ensures forall s :: HasRow(f, s) <==> Present(ops, s)
  {
    forall s ensures HasRow(f, s) <==> Present(ops, s) {
      if Present(ops, s) {
        assert stages[Rank(s)] == s;
        FunnelOverCovers(ops, stages, f, s);
      }
      if HasRow(f, s) {
        FunnelOverOnlyPresent(ops, stages, f, s);
      }
    }
  }

  /** Every opportunity is at exactly one stage, so the stage sums add up to the total. */
  lemma {:induction false} StageValuesPartitionTotal(ops: seq<Opportunity>)
    ensures StageValue(ops, Lead) + StageValue(ops, Propuesta) + StageValue(ops, Negociacion)
            + StageValue(ops, Ganado) + StageValue(ops, Perdido) == TotalValue(ops)
  {
    if ops != [] {
      StageValuesPartitionTotal(ops[..|ops| - 1]);
    }
  }

  /** The funnel's rows add up to the total pipeline value. */
  lemma FunnelSumsToTotal(ops: seq<Opportunity>)
    ensures EntriesTotal(Funnel(ops)) == TotalValue(ops)
  {
    StageValuesPartitionTotal(ops);
    EntriesTotalConcat(ops, FunnelOrder());
    var v := (s: Stage) => StageValue(ops, s);
    assert StagesTotal(ops, [Perdido]) == v(Perdido) + StagesTotal(ops, []);
    assert StagesTotal(ops, [Ganado, Perdido]) == v(Ganado) + StagesTotal(ops, [Perdido]);
    assert StagesTotal(ops, [Negociacion, Ganado, Perdido]) == v(Negociacion) + StagesTotal(ops, [Ganado, Perdido]);
    assert StagesTotal(ops, [Propuesta, Negociacion, Ganado, Perdido])
        == v(Propuesta) + StagesTotal(ops, [Negociacion, Ganado, Perdido]);
    assert StagesTotal(ops, FunnelOrder()) == v(Lead) + StagesTotal(ops, [Propuesta, Negociacion, Ganado, Perdido]);
  }

  lemma {:induction false} EntriesTotalConcat(ops: seq<Opportunity>, stages: seq<Stage>)
    ensures EntriesTotal(FunnelOver(ops, stages)) == StagesTotal(ops, stages)
  {
    if stages != [] {
      EntriesTotalConcat(ops, stages[1..]);
      var tail := FunnelOver(ops, stages[1..]);
      if Present(ops, stages[0]) {
        var e := FunnelEntry(stages[0], StageValue(ops, stages[0]));
        assert ([e] + tail)[1..] == tail;
      } else {
        assert [] + tail == tail;
      }
    }
  }

  /** Sum of the stage values of the given stages, present or not. */
  function StagesTotal(ops: seq<Opportunity>, stages: seq<Stage>): int {
    if stages == [] then 0 else StageValue(ops, stages[0]) + StagesTotal(ops, stages[1..])
  }
}
