/** The built-in, read-only filament and printer catalogs and their shape facts. */
module Filaments {
  import opened Types

  const FilamentTypes: seq<FilamentType> := [
    FilamentType("PLA", 25.0, 1.24, 210.0, 60.0,
      ["Easy to print", "Biodegradable", "Low odor", "Good surface finish"]),
    FilamentType("ABS", 28.0, 1.04, 250.0, 100.0,
      ["Strong", "Heat resistant", "Chemical resistant", "Flexible"]),
    FilamentType("PETG", 32.0, 1.27, 235.0, 85.0,
      ["Clear", "Chemical resistant", "Strong", "Food safe"]),
    FilamentType("TPU", 45.0, 1.20, 220.0, 50.0,
      ["Flexible", "Rubber-like", "Tear resistant", "Shore A 95"]),
    FilamentType("Wood Fill", 38.0, 1.28, 200.0, 60.0,
      ["Wood-like finish", "Sandable", "Stainable", "Natural feel"]),
    FilamentType("Carbon Fiber", 85.0, 1.40, 270.0, 110.0,
      ["Ultra strong", "Lightweight", "Conductive", "Professional grade"])
  ]

  const Printers: seq<Printer> := [
    Printer("Ender 3 V2", 270.0, "220×220×250mm"),
    Printer("Prusa i3 MK3S+", 120.0, "250×210×210mm"),
    Printer("Bambu Lab X1 Carbon", 350.0, "256×256×256mm"),
    Printer("Ultimaker S3", 221.0, "230×190×200mm"),
    Printer("Formlabs Form 3", 65.0, "145×145×185mm"),
    Printer("Custom Printer", 200.0, "Variable")
  ]

  predicate FilamentNamesDistinct(cat: seq<FilamentType>) {
    forall i, j :: 0 <= i < j < |cat| ==> cat[i].name != cat[j].name
  }

  lemma FilamentCatalogShape()
    ensures |FilamentTypes| == 6
    ensures FilamentNamesDistinct(FilamentTypes)
    ensures forall f :: f in FilamentTypes ==> |f.properties| == 4
    ensures forall f :: f in FilamentTypes ==> f.printTemp > f.bedTemp
  {
  }

  lemma FilamentCostBounds()
    ensures forall f :: f in FilamentTypes ==> 25.0 <= f.costPerKg <= 85.0
    ensures FilamentTypes[0].name == "PLA" && FilamentTypes[0].costPerKg == 25.0
    ensures FilamentTypes[5].name == "Carbon Fiber" && FilamentTypes[5].costPerKg == 85.0
    ensures forall f :: f in FilamentTypes ==> f.costPerKg > 0.0
  {
  }

  lemma PrinterCatalogShape()
    ensures |Printers| == 6
    ensures forall i, j :: 0 <= i < j < |Printers| ==> Printers[i].name != Printers[j].name
    ensures forall p :: p in Printers ==> p.powerConsumption > 0.0
  {
  }
}
