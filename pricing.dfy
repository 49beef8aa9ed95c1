/** The proposal calculator ("Calculadora de Propuestas"): project cost,
    projected margin, margin percentage and the 30% minimum-margin warning. */
module Pricing {
  import opened Ratios

  /** The calculator's inputs: sale price, estimated hours, average cost per
      hour and direct external expenses (travel, software). */
  datatype Proposal = Proposal(price: int, hours: int, hourlyCost: int, externalCosts: int)

  datatype Quote = Quote(totalCost: int, margin: int, marginPct: real, warning: bool)

  /** The minimum healthy margin, in percent. */
  const MinMarginPct: int := 30

  function Evaluate(p: Proposal): (q: Quote)
    ensures q.totalCost == p.hours * p.hourlyCost + p.externalCosts
    ensures q.margin + q.totalCost == p.price
    ensures p.price <= 0 ==> q.marginPct == 0.0
    ensures p.price > 0 ==> q.marginPct * p.price as real == q.margin as real * 100.0
    ensures q.warning <==> q.marginPct < MinMarginPct as real
  {
    var totalCost := p.hours * p.hourlyCost + p.externalCosts;
    var margin := p.price - totalCost;
    var pct := GuardedPercent(margin, p.price);
    Quote(totalCost, margin, pct, pct < MinMarginPct as real)
  }

  /** The warning in whole numbers: it is shown exactly when the price is not
      positive or the cost exceeds 70% of the price. */
  lemma WarningIffCostAboveSeventyPercent(p: Proposal)
    ensures Evaluate(p).warning <==> p.price <= 0 || 10 * Evaluate(p).totalCost > 7 * p.price
  {
    var q := Evaluate(p);
    if p.price > 0 {
      PercentBelow(q.margin, p.price, MinMarginPct);
    }
  }

  /** A proposal with no positive price always warns. */
  lemma NonPositivePriceWarns(p: Proposal)
    requires p.price <= 0
    ensures Evaluate(p).warning
    ensures Evaluate(p).marginPct == 0.0
  {
  }

  /** More hours at a non-negative hourly cost never clear a warning. */
  lemma MoreHoursKeepWarning(p: Proposal, extraHours: nat)
    requires p.hourlyCost >= 0
    requires Evaluate(p).warning
    ensures Evaluate(p.(hours := p.hours + extraHours)).warning
  {
    var p' := p.(hours := p.hours + extraHours);
    WarningIffCostAboveSeventyPercent(p);
    WarningIffCostAboveSeventyPercent(p');
    assert p'.hours * p.hourlyCost == p.hours * p.hourlyCost + extraHours * p.hourlyCost;
    assert extraHours * p.hourlyCost >= 0;
  }

  /** A higher price never raises a warning that was not there. */
  lemma HigherPriceKeepsHealthy(p: Proposal, raise: nat)
    requires !Evaluate(p).warning
    ensures !Evaluate(p.(price := p.price + raise)).warning
  {
    WarningIffCostAboveSeventyPercent(p);
    WarningIffCostAboveSeventyPercent(p.(price := p.price + raise));
  }

  /** The calculator's starting inputs: 1,000,000 price, 20 hours at 25,000,
      50,000 external; the result is a healthy 45% margin. */
  lemma DefaultProposalIsHealthy()
    ensures var q := Evaluate(Proposal(1000000, 20, 25000, 50000));
      && q.totalCost == 550000
      && q.margin == 450000
      && q.marginPct == 45.0
      && !q.warning
  {
    PercentBelow(450000, 1000000, 45);
  }
}
