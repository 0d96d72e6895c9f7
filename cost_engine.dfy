/** `calculateCosts`: the fixed chain of arithmetic from a job to its nine-field
    cost breakdown. */
module CostEngine {
  import opened Wrappers
  import opened Types

  function CalculateCosts(job: Job): (b: CostBreakdown)
    // the breakdown is internally consistent, whatever the job holds
    ensures b.subtotal == b.materialCost + b.powerCost + b.laborCost + b.maintenanceCost
                          + b.packagingCost + b.shippingCost
    ensures b.maintenanceCost == (b.materialCost + b.powerCost + b.laborCost) * job.maintenanceBuffer / 100.0
    ensures b.markupAmount == b.subtotal * job.markup / 100.0
    ensures b.total == b.subtotal + b.markupAmount
    // packaging and shipping are carried over unchanged
    ensures b.packagingCost == job.packagingCost && b.shippingCost == job.shippingCost
  {
    var materialCost := (job.filamentWeight / 1000.0) * job.filamentCostPerKg;
    var powerCost := (job.powerConsumption / 1000.0) * job.printTime * job.electricityCostPerHour;
    var laborCost := job.printTime * job.laborRate;
    var maintenanceCost := (materialCost + powerCost + laborCost) * (job.maintenanceBuffer / 100.0);
    var subtotal := materialCost + powerCost + laborCost + maintenanceCost
                    + job.packagingCost + job.shippingCost;
    var markupAmount := subtotal * (job.markup / 100.0);
    var total := subtotal + markupAmount;
    CostBreakdown(materialCost, powerCost, laborCost, maintenanceCost,
                  job.packagingCost, job.shippingCost, subtotal, markupAmount, total)
  }

  predicate NonNegativeInputs(job: Job) {
    job.printTime >= 0.0 && job.filamentCostPerKg >= 0.0 && job.filamentWeight >= 0.0 &&
    job.electricityCostPerHour >= 0.0 && job.powerConsumption >= 0.0 && job.laborRate >= 0.0 &&
    job.maintenanceBuffer >= 0.0 && job.packagingCost >= 0.0 && job.shippingCost >= 0.0 &&
    job.markup >= 0.0
  }

  /** With all job fields non-negative, so is every field of the breakdown, and the
      markup never lowers the price. */
  lemma NonNegativeBreakdown(job: Job)
    requires NonNegativeInputs(job)
    ensures var b := CalculateCosts(job);
      b.materialCost >= 0.0 && b.powerCost >= 0.0 && b.laborCost >= 0.0 &&
      b.maintenanceCost >= 0.0 && b.packagingCost >= 0.0 && b.shippingCost >= 0.0 &&
      b.subtotal >= 0.0 && b.markupAmount >= 0.0 && b.total >= b.subtotal
  {
    var b := CalculateCosts(job);
    MulNonNeg(job.filamentWeight / 1000.0, job.filamentCostPerKg);
    MulNonNeg(job.powerConsumption / 1000.0, job.printTime);
    MulNonNeg((job.powerConsumption / 1000.0) * job.printTime, job.electricityCostPerHour);
    MulNonNeg(job.printTime, job.laborRate);
    MulNonNeg(b.materialCost + b.powerCost + b.laborCost, job.maintenanceBuffer / 100.0);
    MulNonNeg(b.subtotal, job.markup / 100.0);
  }

  lemma MulNonNeg(x: real, y: real)
    requires x >= 0.0 && y >= 0.0
    ensures x * y >= 0.0
  {
  }

  lemma MulMonotone(x: real, y: real, k: real)
    requires x <= y && k >= 0.0
    ensures x * k <= y * k
  {
  }

  /** A longer print never costs less: raising `printTime` with every other field
      fixed does not lower the power cost, the labor cost or the total. */
  lemma PrintTimeMonotone(job: Job, longer: real)
    requires NonNegativeInputs(job)
    requires longer >= job.printTime
    ensures var b, b' := CalculateCosts(job), CalculateCosts(job.(printTime := longer));
      b.powerCost <= b'.powerCost && b.laborCost <= b'.laborCost && b.total <= b'.total
  {
    var job' := job.(printTime := longer);
    ProductionCostsMonotone(job, longer);
    var b, b' := CalculateCosts(job), CalculateCosts(job');
    TotalClosedForm(job);
    TotalClosedForm(job');
    TotalMonotoneInBase(b.materialCost + b.powerCost + b.laborCost, b'.materialCost + b'.powerCost + b'.laborCost,
                        job.maintenanceBuffer, job.packagingCost + job.shippingCost, job.markup);
  }

  lemma ProductionCostsMonotone(job: Job, longer: real)
    requires NonNegativeInputs(job)
    requires longer >= job.printTime
    ensures var b, b' := CalculateCosts(job), CalculateCosts(job.(printTime := longer));
      b.materialCost == b'.materialCost && b.powerCost <= b'.powerCost && b.laborCost <= b'.laborCost
  {
    PowerCostMonotone(job.powerConsumption / 1000.0, job.electricityCostPerHour, job.printTime, longer);
    MulMonotone(job.printTime, longer, job.laborRate);
  }

  lemma PowerCostMonotone(kw: real, rate: real, t: real, t': real)
    requires kw >= 0.0 && rate >= 0.0 && t <= t'
    ensures kw * t * rate <= kw * t' * rate
  {
    MulMonotone(t, t', kw);
    assert kw * t <= kw * t';
    MulMonotone(kw * t, kw * t', rate);
  }

  lemma TotalMonotoneInBase(base: real, base': real, buffer: real, flat: real, markup: real)
    requires base <= base' && buffer >= 0.0 && markup >= 0.0 && flat >= 0.0
    ensures (base * (1.0 + buffer / 100.0) + flat) * (1.0 + markup / 100.0)
         <= (base' * (1.0 + buffer / 100.0) + flat) * (1.0 + markup / 100.0)
  {
    MulMonotone(base, base', 1.0 + buffer / 100.0);
    MulMonotone(base * (1.0 + buffer / 100.0) + flat, base' * (1.0 + buffer / 100.0) + flat, 1.0 + markup / 100.0);
  }

  /** The total in closed form: the maintenance percentage scales the production
      costs, and the markup percentage scales everything. */
  lemma TotalClosedForm(job: Job)
    ensures var b := CalculateCosts(job);
      b.total == ((b.materialCost + b.powerCost + b.laborCost) * (1.0 + job.maintenanceBuffer / 100.0)
                  + (job.packagingCost + job.shippingCost)) * (1.0 + job.markup / 100.0)
  {
  }

  /** The application's starting job. */
  lemma DefaultJobBreakdown()
    ensures CalculateCosts(DefaultJob) ==
      CostBreakdown(1.25, 0.1296, 60.0, 6.13796, 2.0, 8.0, 77.51756, 23.255268, 100.772828)
  {
  }
}
