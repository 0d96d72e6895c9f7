/** The quote form's job handlers. Each builds a new job from the current one by
    spreading a partial record over it, so a handler changes only the fields it
    names; the form's own toggle for the manual dimension inputs is a small class. */
module QuoteForm {
  import opened Wrappers
  import opened Types
  import opened Filaments
  import opened Text

  /** A partial job: every field may be present or absent. `file` and `dimensions`
      are themselves optional, so a present value may still be "no file". */
  datatype JobPatch = JobPatch(
    id: Option<string>,
    name: Option<string>,
    file: Option<Option<FileRef>>,
    dimensions: Option<Option<Dimensions>>,
    printTime: Option<real>,
    filamentType: Option<string>,
    filamentCostPerKg: Option<real>,
    filamentWeight: Option<real>,
    printerName: Option<string>,
    electricityCostPerHour: Option<real>,
    powerConsumption: Option<real>,
    laborRate: Option<real>,
    maintenanceBuffer: Option<real>,
    packagingCost: Option<real>,
    shippingCost: Option<real>,
    markup: Option<real>)

  const NoChange := JobPatch(None, None, None, None, None, None, None, None, None, None,
                             None, None, None, None, None, None)

  /** `{ ...job, ...updates }`: present fields replace, absent fields are kept. */
  function UpdateJob(job: Job, p: JobPatch): (r: Job)
    ensures p.id.None? ==> r.id == job.id
    ensures p.id.Some? ==> r.id == p.id.value
    ensures p.name.None? ==> r.name == job.name
    ensures p.name.Some? ==> r.name == p.name.value
    ensures p.file.None? ==> r.file == job.file
    ensures p.file.Some? ==> r.file == p.file.value
    ensures p.dimensions.None? ==> r.dimensions == job.dimensions
    ensures p.dimensions.Some? ==> r.dimensions == p.dimensions.value
    ensures p.printTime.None? ==> r.printTime == job.printTime
    ensures p.printTime.Some? ==> r.printTime == p.printTime.value
    ensures p.filamentType.None? ==> r.filamentType == job.filamentType
    ensures p.filamentType.Some? ==> r.filamentType == p.filamentType.value
    ensures p.filamentCostPerKg.None? ==> r.filamentCostPerKg == job.filamentCostPerKg
    ensures p.filamentCostPerKg.Some? ==> r.filamentCostPerKg == p.filamentCostPerKg.value
    ensures p.filamentWeight.None? ==> r.filamentWeight == job.filamentWeight
    ensures p.filamentWeight.Some? ==> r.filamentWeight == p.filamentWeight.value
    ensures p.printerName.None? ==> r.printerName == job.printerName
    ensures p.printerName.Some? ==> r.printerName == p.printerName.value
    ensures p.electricityCostPerHour.None? ==> r.electricityCostPerHour == job.electricityCostPerHour
    ensures p.electricityCostPerHour.Some? ==> r.electricityCostPerHour == p.electricityCostPerHour.value
    ensures p.powerConsumption.None? ==> r.powerConsumption == job.powerConsumption
    ensures p.powerConsumption.Some? ==> r.powerConsumption == p.powerConsumption.value
    ensures p.laborRate.None? ==> r.laborRate == job.laborRate
    ensures p.laborRate.Some? ==> r.laborRate == p.laborRate.value
    ensures p.maintenanceBuffer.None? ==> r.maintenanceBuffer == job.maintenanceBuffer
    ensures p.maintenanceBuffer.Some? ==> r.maintenanceBuffer == p.maintenanceBuffer.value
    ensures p.packagingCost.None? ==> r.packagingCost == job.packagingCost
    ensures p.packagingCost.Some? ==> r.packagingCost == p.packagingCost.value
    ensures p.shippingCost.None? ==> r.shippingCost == job.shippingCost
    ensures p.shippingCost.Some? ==> r.shippingCost == p.shippingCost.value
    ensures p.markup.None? ==> r.markup == job.markup
    ensures p.markup.Some? ==> r.markup == p.markup.value
  {
    Job(Pick(p.id, job.id), Pick(p.name, job.name), Pick(p.file, job.file),
        Pick(p.dimensions, job.dimensions), Pick(p.printTime, job.printTime),
        Pick(p.filamentType, job.filamentType), Pick(p.filamentCostPerKg, job.filamentCostPerKg),
        Pick(p.filamentWeight, job.filamentWeight), Pick(p.printerName, job.printerName),
        Pick(p.electricityCostPerHour, job.electricityCostPerHour),
        Pick(p.powerConsumption, job.powerConsumption), Pick(p.laborRate, job.laborRate),
        Pick(p.maintenanceBuffer, job.maintenanceBuffer), Pick(p.packagingCost, job.packagingCost),
        Pick(p.shippingCost, job.shippingCost), Pick(p.markup, job.markup))
  }

  /** An empty patch leaves the job as it was. */
  lemma UpdateJobNoChange(job: Job)
    ensures UpdateJob(job, NoChange) == job
  {
  }

  // ---------------------------------------------------------------- file name

  /** Where the pattern `\.[^/.]+$` matches: a dot followed, up to the end of the
      name, by at least one character that is neither `/` nor `.`. */
  predicate ExtensionAt(name: string, i: int) {
    0 <= i < |name| - 1 && name[i] == '.' &&
    forall k :: i < k < |name| ==> name[k] != '/' && name[k] != '.'
  }

  /** `name.replace(/\.[^/.]+$/, "")`: only the last dot can start a match. */
  function StripExtension(name: string): string
  {
    var i := LastIndexOf(name, '.');
    if 0 <= i < |name| - 1 && '/' !in name[i + 1..] then name[..i] else name
  }

  /** `StripExtension` removes exactly the text the pattern matches: the match, if
      any, is unique, and without a match the name is kept. */
  lemma StripExtensionSpec(name: string)
    ensures forall i :: ExtensionAt(name, i) ==> StripExtension(name) == name[..i]
    ensures forall i, j :: ExtensionAt(name, i) && ExtensionAt(name, j) ==> i == j
    ensures (forall i :: !ExtensionAt(name, i)) ==> StripExtension(name) == name
  {
    var i := LastIndexOf(name, '.');
    if 0 <= i < |name| - 1 && '/' !in name[i + 1..] {
      assert forall k :: i < k < |name| ==> name[k] == name[i + 1..][k - i - 1];
      assert ExtensionAt(name, i);
    }
    forall j | ExtensionAt(name, j)
      ensures j == i && '/' !in name[i + 1..]
    {
      NoSlashAfter(name, j);
    }
  }

  lemma NoSlashAfter(name: string, j: int)
    requires ExtensionAt(name, j)
    ensures '/' !in name[j + 1..]
  {
    var tail := name[j + 1..];
    forall k | 0 <= k < |tail|
      ensures tail[k] != '/'
    {
      assert tail[k] == name[j + 1 + k];
    }
  }

  lemma StripExtensionOfModelFile()
    ensures StripExtension("phone_case.stl") == "phone_case"
  {
    StripExtensionSpec("phone_case.stl");
    assert ExtensionAt("phone_case.stl", 10);
  }

  /** Only the last extension goes. */
  lemma StripExtensionOfDottedName()
    ensures StripExtension("bracket.v2.3mf") == "bracket.v2"
  {
    StripExtensionSpec("bracket.v2.3mf");
    assert ExtensionAt("bracket.v2.3mf", 10);
  }

  /** A dot inside a directory part, or a trailing dot, is no extension. */
  lemma StripExtensionKeepsName()
    ensures StripExtension("parts.v1/model") == "parts.v1/model"
    ensures StripExtension("trailing.") == "trailing."
  {
    var s := "parts.v1/model";
    assert s[8] == '/' && s[5] == '.';
    assert forall k :: 5 < k < |s| ==> s[k] != '.';
    assert LastIndexOf(s, '.') == 5;
    assert s[6..][2] == '/';
  }

  // ---------------------------------------------------------------- handlers

  /** `handleFileSelect` of the form: a file sets `file` and the name without its
      extension; no file clears `file` and keeps the name. */
  function SelectFile(job: Job, file: Option<FileRef>): Job
  {
    match file
    case Some(f) => UpdateJob(job, NoChange.(file := Some(Some(f)), name := Some(StripExtension(f.name))))
    case None => UpdateJob(job, NoChange.(file := Some(None)))
  }

  lemma SelectFileEffect(job: Job, file: Option<FileRef>)
    ensures file.Some? ==> SelectFile(job, file) == job.(file := file, name := StripExtension(file.value.name))
    ensures file.None? ==> SelectFile(job, file) == job.(file := None)
  {
  }

  /** `calculateVolume`: volume from the three lengths, mm³ to cm³. */
  function CalculateVolume(job: Job): Job
  {
    if job.dimensions.Some? then
      var d := job.dimensions.value;
      UpdateJob(job, NoChange.(dimensions := Some(Some(d.(volume := d.length * d.width * d.height / 1000.0)))))
    else job
  }

  /** The volume becomes the product of the lengths over 1000, the lengths stay,
      nothing else changes; without dimensions the job is unchanged. Recomputing
      a second time changes nothing more. */
  lemma CalculateVolumeSpec(job: Job)
    ensures CalculateVolume(job).dimensions.Some? <==> job.dimensions.Some?
    ensures job.dimensions.None? ==> CalculateVolume(job) == job
    ensures var r := CalculateVolume(job);
      job.dimensions.Some? ==>
        var d := job.dimensions.value;
        var e := r.dimensions.value;
        e.length == d.length && e.width == d.width && e.height == d.height &&
        e.volume * 1000.0 == d.length * d.width * d.height &&
        r == job.(dimensions := r.dimensions)
    ensures CalculateVolume(CalculateVolume(job)) == CalculateVolume(job)
  {
    var r := CalculateVolume(job);
    if job.dimensions.Some? {
      var e := r.dimensions.value;
      var r2 := CalculateVolume(r);
      var e2 := r2.dimensions.value;
      assert e2.length == e.length && e2.width == e.width && e2.height == e.height;
      assert e2.volume == e.volume;
      assert e2 == e;
      assert r2 == r.(dimensions := r2.dimensions);
    }
  }

  /** The position `find(x => x.name === name)` stops at, over the list's names, or -1. */
  function NameIndex(names: seq<string>, name: string): (i: int)
    ensures -1 <= i < |names|
    ensures i == -1 <==> name !in names
    ensures i >= 0 ==> names[i] == name && forall k :: 0 <= k < i ==> names[k] != name
  {
    if names == [] then -1
    else if names[0] == name then 0
    else
      var j := NameIndex(names[1..], name);
      if j == -1 then -1 else j + 1
  }

  function FilamentNames(cat: seq<FilamentType>): seq<string> {
    seq(|cat|, k requires 0 <= k < |cat| => cat[k].name)
  }

  function PrinterNames(cat: seq<Printer>): seq<string> {
    seq(|cat|, k requires 0 <= k < |cat| => cat[k].name)
  }

  /** `handleFilamentChange` */
  function ChangeFilament(job: Job, filamentName: string): Job
  {
    var i := NameIndex(FilamentNames(FilamentTypes), filamentName);
    if i >= 0 then
      UpdateJob(job, NoChange.(filamentType := Some(filamentName),
                               filamentCostPerKg := Some(FilamentTypes[i].costPerKg)))
    else job
  }

  /** A catalog name sets the filament and its catalog price and nothing else; any
      other name leaves the job unchanged. */
  lemma ChangeFilamentSpec(job: Job, filamentName: string, i: nat)
    requires i < |FilamentTypes| && FilamentTypes[i].name == filamentName
    ensures ChangeFilament(job, filamentName) ==
      job.(filamentType := filamentName, filamentCostPerKg := FilamentTypes[i].costPerKg)
  {
    FilamentCatalogShape();
    var names := FilamentNames(FilamentTypes);
    assert names[i] == filamentName;
    var j := NameIndex(names, filamentName);
    assert names[j] == FilamentTypes[j].name;
  }

  lemma ChangeFilamentUnknown(job: Job, filamentName: string)
    requires forall f :: f in FilamentTypes ==> f.name != filamentName
    ensures ChangeFilament(job, filamentName) == job
  {
  }

  /** `handlePrinterChange` */
  function ChangePrinter(job: Job, printerName: string): Job
  {
    var i := NameIndex(PrinterNames(Printers), printerName);
    if i >= 0 then
      UpdateJob(job, NoChange.(printerName := Some(printerName),
                               powerConsumption := Some(Printers[i].powerConsumption)))
    else job
  }

  /** A catalog printer sets its name and power draw and nothing else; any other
      name leaves the job unchanged. */
  lemma ChangePrinterSpec(job: Job, printerName: string, i: nat)
    requires i < |Printers| && Printers[i].name == printerName
    ensures ChangePrinter(job, printerName) ==
      job.(printerName := printerName, powerConsumption := Printers[i].powerConsumption)
  {
    PrinterCatalogShape();
    var names := PrinterNames(Printers);
    assert names[i] == printerName;
    var j := NameIndex(names, printerName);
    assert names[j] == Printers[j].name;
  }

  lemma ChangePrinterUnknown(job: Job, printerName: string)
    requires forall p :: p in Printers ==> p.name != printerName
    ensures ChangePrinter(job, printerName) == job
  {
  }

  // ---------------------------------------------------------------- typed fields

  /** `parseFloat(text) || 0`: an input that does not parse (`None`) is stored as 0. */
  function ParsedOrZero(input: Option<real>): real {
    if input.Some? then input.value else 0.0
  }

  datatype DimensionField = Length | Width | Height | Volume

  function DimensionValue(d: Dimensions, field: DimensionField): real {
    match field
    case Length => d.length
    case Width => d.width
    case Height => d.height
    case Volume => d.volume
  }

  /** The `onChange` of one dimension input: that field takes the parsed value, the
      other three keep their value or become 0 when there were no dimensions. */
  function EditDimension(job: Job, field: DimensionField, input: Option<real>): Job
  {
    var cur := if job.dimensions.Some? then job.dimensions.value else Dimensions(0.0, 0.0, 0.0, 0.0);
    var v := ParsedOrZero(input);
    var d := match field
      case Length => Dimensions(v, cur.width, cur.height, cur.volume)
      case Width => Dimensions(cur.length, v, cur.height, cur.volume)
      case Height => Dimensions(cur.length, cur.width, v, cur.volume)
      case Volume => Dimensions(cur.length, cur.width, cur.height, v);
    UpdateJob(job, NoChange.(dimensions := Some(Some(d))))
  }

  /** Editing a dimension sets that field, keeps or zeroes the others, leaves the
      volume as it was when a length is edited, and touches no other job field. */
  lemma EditDimensionSpec(job: Job, field: DimensionField, input: Option<real>, other: DimensionField)
    ensures var r := EditDimension(job, field, input);
      r.dimensions.Some? && r == job.(dimensions := r.dimensions) &&
      DimensionValue(r.dimensions.value, field) == ParsedOrZero(input)
    ensures var r := EditDimension(job, field, input);
      other != field ==>
        DimensionValue(r.dimensions.value, other) ==
          (if job.dimensions.Some? then DimensionValue(job.dimensions.value, other) else 0.0)
  {
  }

  /** Editing a length and then leaving the field recomputes the volume from the new
      length: the edit alone does not. */
  lemma EditThenBlur(job: Job, input: Option<real>)
    requires job.dimensions.Some?
    ensures var d := job.dimensions.value;
      CalculateVolume(EditDimension(job, Length, input)).dimensions.value.volume ==
        ParsedOrZero(input) * d.width * d.height / 1000.0
  {
  }

  datatype NumericField =
    | PrintTime | FilamentWeight | FilamentCostPerKg | PowerConsumption | ElectricityCost
    | LaborRate | MaintenanceBuffer | PackagingCost | ShippingCost | Markup

  function FieldValue(job: Job, field: NumericField): real {
    match field
    case PrintTime => job.printTime
    case FilamentWeight => job.filamentWeight
    case FilamentCostPerKg => job.filamentCostPerKg
    case PowerConsumption => job.powerConsumption
    case ElectricityCost => job.electricityCostPerHour
    case LaborRate => job.laborRate
    case MaintenanceBuffer => job.maintenanceBuffer
    case PackagingCost => job.packagingCost
    case ShippingCost => job.shippingCost
    case Markup => job.markup
  }

  /** The patch one numeric input hands to `updateJob`. */
  function NumberPatch(field: NumericField, v: real): JobPatch {
    match field
    case PrintTime => NoChange.(printTime := Some(v))
    case FilamentWeight => NoChange.(filamentWeight := Some(v))
    case FilamentCostPerKg => NoChange.(filamentCostPerKg := Some(v))
    case PowerConsumption => NoChange.(powerConsumption := Some(v))
    case ElectricityCost => NoChange.(electricityCostPerHour := Some(v))
    case LaborRate => NoChange.(laborRate := Some(v))
    case MaintenanceBuffer => NoChange.(maintenanceBuffer := Some(v))
    case PackagingCost => NoChange.(packagingCost := Some(v))
    case ShippingCost => NoChange.(shippingCost := Some(v))
    case Markup => NoChange.(markup := Some(v))
  }

  /** The `onChange` of one numeric input. */
  function SetNumber(job: Job, field: NumericField, input: Option<real>): Job {
    UpdateJob(job, NumberPatch(field, ParsedOrZero(input)))
  }

  /** The edited field takes the parsed value (0 when the text does not parse), every
      other numeric field keeps its value, and so do the text, file and geometry fields. */
  lemma SetNumberSpec(job: Job, field: NumericField, input: Option<real>, other: NumericField)
    ensures FieldValue(SetNumber(job, field, input), field) == ParsedOrZero(input)
    ensures other != field ==> FieldValue(SetNumber(job, field, input), other) == FieldValue(job, other)
    ensures var r := SetNumber(job, field, input);
      r.id == job.id && r.name == job.name && r.file == job.file && r.dimensions == job.dimensions &&
      r.filamentType == job.filamentType && r.printerName == job.printerName
  {
  }

  /** The form's own state: whether the manual dimension inputs were toggled on,
      next to the job it edits on the application's behalf. */
  class QuoteFormView {
    var job: Job
    var showManualInput: bool

    constructor (job: Job)
      ensures this.job == job && !showManualInput
    {
      this.job := job;
      showManualInput := false;
    }

    /** The dimension inputs show when toggled on or when no file is chosen. */
    predicate DimensionInputsVisible()
      reads this
    {
      showManualInput || job.file.None?
    }

    /** The form's file handler: updates the job and, for a file, hides the manual inputs. */
    method OnFileSelect(file: Option<FileRef>)
      modifies this
      ensures job == SelectFile(old(job), file)
      ensures showManualInput == (if file.Some? then false else old(showManualInput))
      ensures file.Some? ==> !DimensionInputsVisible()
      ensures file.None? ==> DimensionInputsVisible()
    {
      job := SelectFile(job, file);
      if file.Some? {
        showManualInput := false;
      }
    }

    method ToggleManualInput()
      modifies this
      ensures showManualInput == !old(showManualInput) && job == old(job)
    {
      showManualInput := !showManualInput;
    }

    /** Any job handler's result handed back through `onJobUpdate`. */
    method ApplyUpdate(patch: JobPatch)
      modifies this
      ensures job == UpdateJob(old(job), patch) && showManualInput == old(showManualInput)
    {
      job := UpdateJob(job, patch);
    }
  }
}
