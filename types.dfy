/** The records the calculator passes around: the print job, the cost
    breakdown, the risk assessment and the catalog entry shape. */
module Types {
  import opened Wrappers

  /** Optional manual geometry: lengths in mm, volume in cm³ as the form stores it. */
  datatype Dimensions = Dimensions(length: real, width: real, height: real, volume: real)

  /** A browser `File`, reduced to what the calculator reads from it. */
  datatype FileRef = FileRef(name: string, size: nat)

  datatype Job = Job(
    id: string,
    name: string,
    file: Option<FileRef>,
    dimensions: Option<Dimensions>,
    printTime: real,              // hours
    filamentType: string,
    filamentCostPerKg: real,
    filamentWeight: real,         // grams
    printerName: string,
    electricityCostPerHour: real, // price per kWh despite the name
    powerConsumption: real,       // watts
    laborRate: real,              // per hour
    maintenanceBuffer: real,      // percent
    packagingCost: real,
    shippingCost: real,
    markup: real)                 // percent

  datatype CostBreakdown = CostBreakdown(
    materialCost: real,
    powerCost: real,
    laborCost: real,
    maintenanceCost: real,
    packagingCost: real,
    shippingCost: real,
    subtotal: real,
    markupAmount: real,
    total: real)

  datatype RiskLevel = Low | Medium | High

  /** A savings percentage. Dividing by a zero cost per kg gives -Infinity
      for every catalog entry (all catalog costs are positive). */
  datatype Savings = Finite(percent: real) | MinusInfinity

  datatype Alternative = Alternative(name: string, costPerKg: real, benefits: seq<string>, savings: Savings)

  datatype AIInsights = AIInsights(
    riskLevel: RiskLevel,
    riskPercentage: real,
    failureReasons: seq<string>,
    recommendedBuffer: real,
    alternativeFilaments: seq<Alternative>)

  datatype FilamentType = FilamentType(
    name: string,
    costPerKg: real,
    density: real,   // g/cm³
    printTemp: real,
    bedTemp: real,
    properties: seq<string>)

  datatype Printer = Printer(name: string, powerConsumption: real, maxVolume: string)

  /** The job the application starts with. */
  const DefaultJob: Job := Job("1", "", None, None, 4.0, "PLA", 25.0, 50.0, "Ender 3 V2",
                               0.12, 270.0, 15.0, 10.0, 2.0, 8.0, 30.0)
}
