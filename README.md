# 3D-print quote calculator: a verified model of its core

The calculator prices a 3D-printing job and rates how risky the print is. This
project models its logic in Dafny and proves properties of it. The model covers:

- **Cost engine** (`CostEngine`): a fixed chain of arithmetic from a job record to a
  nine-field cost breakdown. The breakdown covers material, power, labor,
  maintenance, packaging, shipping, subtotal, markup and total.
- **Risk advisor** (`RiskAdvisor`, `Alternatives`):
  - threshold rules on geometry, volume and print time that ratchet up a risk
    level, a failure percentage and a recommended cost buffer, and collect the
    reasons;
  - a ranking of alternative filaments: the three other catalog filaments with
    the highest savings, which may be negative (a dearer filament still appears).
- **Display formatters** (`Formatting`): weight in g or kg, and duration in hours
  and minutes. `Number.prototype.toFixed` is written out exactly.
- **Catalogs** (`Filaments`): the read-only filament and printer catalogs.
- **Quote table** (`MockDatabase`): the in-memory table of saved quotes and
  filament presets. It supports select, insert, update of the first record with
  an id, delete of the first record with an id, and a "Quote not found" error.
- **Quote form** (`QuoteForm`): the handlers that edit the job. Each spreads a
  partial record over the job, so it changes only the fields it names.
- **Upload box** (`FileUpload`): the extension and size check, and the selected
  file and error state.

Shared modules:

- `Wrappers` holds `Option` and `Result`.
- `JsMath` holds `Math.floor`, `Math.round` and `Math.max` on exact reals.
- `Text` holds decimal rendering, ASCII lower-casing, `lastIndexOf` and `join`.
- `Types` holds the records.

### Numbers

All numbers are exact `real`s. `Math.round(x)` is `floor(x + 0.5)`. Two divisions
can have a zero divisor, and the model gives each the outcome JavaScript produces:

- **Aspect ratio, `max(length, width) / height` with height 0.** A positive
  numerator gives +Infinity, so the rule fires and the risk is high. A zero
  numerator gives NaN and a negative one gives -Infinity, so the rule does not
  fire. `RiskAdvisor.AspectRatioExceeds` spells out all three cases.
- **Savings percentage, with a job cost per kg of 0.** Every catalog cost is
  positive, so every savings value is -Infinity. `Types.Savings` has a
  `MinusInfinity` case for it. The sort comparator then compares -Infinity with
  -Infinity and gets NaN. A NaN comparison counts as "equal", so the stable sort
  keeps catalog order (`Alternatives.ZeroCostRanking`). The sort is stable for
  finite ties as well (`Alternatives.SortIsStable`).

### Notes on the code

- The volume rule compares the stored volume with the literal 500000.
  `calculateVolume` stores volume in cm³ (length·width·height/1000), so the rule
  fires only above 0.5 m³, not at 500 cm³ as the comment beside it says. The
  model keeps the literal comparison.
- For the application's starting job, the code computes:
  - maintenance 6.13796, which is 10% of 1.25 + 0.1296 + 60;
  - subtotal 77.51756;
  - markup 23.255268;
  - total 100.772828.

  `CostEngine.DefaultJobBreakdown` states these figures.
- `formatTime` can print "1h 60m" (for 1.995 hours). The minutes are rounded after
  the hours are split off, with no carry (`Formatting.TimeParts`,
  `Formatting.TimeExamples`).
- Ids are not unique. `insert` may create a duplicate, and update and delete act
  on the first match only (`MockDatabase.FindIndexAppend`,
  `MockDatabase.DeleteRevealsNextMatch`).

### How the imperative parts are modelled

- **`generateAIInsights`** reassigns its variables rule by rule. The method
  `RiskAdvisor.GenerateAIInsights` does the same, and is proved equal to
  `RiskAdvisor.Assess`. `Assess` folds the list of rules that fire with a
  "take the worse" step. The ratchet, bounds and ordering lemmas are stated
  about that fold.
- **The quote table** is the class `MockDatabase.QuoteStore`. Its `seq` fields are
  reassigned by its methods. Ids and timestamps are parameters.
- **The upload box state** is the class `FileUpload.FileUploadState`.
- **The form's manual-input toggle** is the class `QuoteForm.QuoteFormView`.

## Model

| member | source | states |
|---|---|---|
| JsMath.Floor | src/utils/calculations.ts:122 | the result is the largest integer not above the argument |
| JsMath.Round | src/utils/calculations.ts:88 | the result is the nearest integer, with halves rounded up: n − 0.5 ≤ x < n + 0.5 |
| JsMath.Max | src/utils/calculations.ts:49 | the result is at least each argument and equal to one of them |
| Text.NatToString | src/utils/calculations.ts:125-131 | a template literal renders a natural number as non-empty decimal digits; a leading '0' occurs only in "0" itself |
| Text.ParseNatToString | src/utils/calculations.ts:125-131 | reading the rendered digits back gives the number |
| Text.IntToString | src/utils/calculations.ts:125-131 | a non-negative integer renders as digits that read back as the integer; a negative one as '-' followed by the digits of its magnitude |
| Text.Join | src/components/FileUpload.tsx:25 | `join(', ')` of the accepted types; specified through `FileUpload.DefaultMessages`, which states the rendered list ".stl, .3mf" |
| Text.ToLowerChar | src/components/FileUpload.tsx:22 | an upper-case ASCII letter maps to its lower-case letter; every other character is kept |
| Text.ToLower | src/components/FileUpload.tsx:22 | the result has the same length, and each character is lower-cased in place |
| Text.LastIndexOf | src/components/FileUpload.tsx:22 | the result is -1 exactly when the character is absent; otherwise it holds the character and no later position does |
| Filaments.FilamentCatalogShape | src/data/filaments.ts:3-52 | the catalog has six filaments with pairwise-distinct names, four property tags each, and print temperature above bed temperature |
| Filaments.FilamentCostBounds | src/data/filaments.ts:3-52 | every cost per kg is positive and lies in 25..85; the minimum is PLA at 25 and the maximum is Carbon Fiber at 85 |
| Filaments.PrinterCatalogShape | src/data/filaments.ts:54-61 | the catalog has six printers with distinct names and positive power draw |
| CostEngine.CalculateCosts | src/utils/calculations.ts:4-37 | subtotal is the sum of the six cost lines; maintenance is the buffer percentage of material + power + labor only; markup is the markup percentage of subtotal; total is subtotal + markup; packaging and shipping are copied from the job |
| CostEngine.NonNegativeBreakdown | src/utils/calculations.ts:6-24 | with non-negative job fields every breakdown field is non-negative, and total ≥ subtotal |
| CostEngine.ProductionCostsMonotone | src/utils/calculations.ts:6-12 | a longer print time keeps material cost the same and never lowers power or labor cost |
| CostEngine.PrintTimeMonotone | src/utils/calculations.ts:9-24 | a longer print time, with everything else fixed, never lowers power cost, labor cost or total |
| CostEngine.TotalClosedForm | src/utils/calculations.ts:15-24 | total = ((material + power + labor)·(1 + buffer/100) + packaging + shipping)·(1 + markup/100) |
| CostEngine.DefaultJobBreakdown | src/utils/calculations.ts:4-37 | the starting job gives material 1.25, power 0.1296, labor 60, maintenance 6.13796, subtotal 77.51756, markup 23.255268, total 100.772828 |
| Alternatives.SavingsOf | src/utils/calculations.ts:83-88 | savings are -Infinity exactly when the current cost is 0; finite savings are whole hundredths within 0.005 of (current − candidate)/current·100, non-negative for a cheaper filament and non-positive for a dearer one |
| Alternatives.ToAlternative | src/utils/calculations.ts:82-89 | the record built for one catalog filament; specified by `Alternatives.RankedEntries` and `Alternatives.DefaultJobPricing` |
| Alternatives.Candidates | src/utils/calculations.ts:80-90 | the filtered and mapped catalog; specified by `Alternatives.CandidatesSpec` and `Alternatives.CandidatesComplete` |
| Alternatives.Take | src/utils/calculations.ts:92 | `slice(0, n)` returns the first min(n, length) elements |
| Alternatives.CandidatesSpec | src/utils/calculations.ts:80-90 | each candidate is the mapped record of a catalog filament other than the job's, and there are no more candidates than catalog entries |
| Alternatives.CandidatesComplete | src/utils/calculations.ts:80-90 | every catalog filament other than the job's becomes a candidate |
| Alternatives.CandidatesSnoc | src/utils/calculations.ts:80-90 | candidates keep catalog order: a filament appended to the catalog appends its record, unless it is the job's own filament |
| Alternatives.CandidatesOfOthers | src/utils/calculations.ts:80-81 | when no entry has the job's filament name, the filter keeps every entry |
| Alternatives.CandidatesCount | src/utils/calculations.ts:80-81 | with distinct catalog names, at most one entry is dropped |
| Alternatives.AtLeast | src/utils/calculations.ts:91 | the comparator `b.savings - a.savings` read as "a may stay before b", with NaN (-Infinity against -Infinity) counting as equal; specified by `Alternatives.AtLeastTotal` and `Alternatives.AtLeastTransitive` |
| Alternatives.AtLeastTotal | src/utils/calculations.ts:91 | any two savings values are comparable under the comparator |
| Alternatives.AtLeastTransitive | src/utils/calculations.ts:91 | the comparator's ordering is transitive |
| Alternatives.InsertPermutes | src/utils/calculations.ts:91 | an insertion step adds exactly the inserted element to the multiset |
| Alternatives.InsertSorted | src/utils/calculations.ts:91 | inserting into a sequence sorted by non-increasing savings keeps it sorted |
| Alternatives.InsertBounded | src/utils/calculations.ts:91 | inserting keeps every element at or below a common upper bound on savings |
| Alternatives.SortBySavings | src/utils/calculations.ts:91 | the stable comparator sort; specified by `Alternatives.SortBySavingsSpec` and `Alternatives.SortIsStable` |
| Alternatives.SortBySavingsSpec | src/utils/calculations.ts:91 | the sort returns a permutation of its input, ordered by non-increasing savings |
| Alternatives.SortIsStable | src/utils/calculations.ts:91 | for every savings value, the entries with that value appear in the sorted result in their input order, so ties keep catalog order |
| Alternatives.SortKeepsEqualSavings | src/utils/calculations.ts:91 | when every savings value is -Infinity (all compare equal), the stable sort keeps the input order |
| Alternatives.RankAlternatives | src/utils/calculations.ts:80-92 | filter, map, sort and `slice(0, 3)`; specified by `Alternatives.RankAlternativesSpec`, `Alternatives.RankingIsTopThree` and `Alternatives.RankedEntries` |
| Alternatives.Ranking | src/utils/calculations.ts:80-92 | the ranking over the built-in catalog; specified by `Alternatives.RankingShape` and `Alternatives.DefaultJobRanking` |
| Alternatives.RankAlternativesSpec | src/utils/calculations.ts:80-92 | the ranking has min(3, #candidates) entries, sorted by non-increasing savings; it never names the job's filament and is a sub-multiset of the candidates |
| Alternatives.RankedEntries | src/utils/calculations.ts:82-89 | every ranked entry carries a catalog filament's name and cost, its first two property tags as benefits, and savings in whole hundredths |
| Alternatives.RankingShape | src/utils/calculations.ts:80-92 | for any job, the catalog ranking has exactly three entries, each with two benefits |
| Alternatives.RankingIsTopThree | src/utils/calculations.ts:91-92 | every candidate left out saves no more than the last ranked entry |
| Alternatives.DefaultJobPricing | src/utils/calculations.ts:82-89 | for PLA at 25 per kg, each other catalog filament maps to the expected record with rounded savings |
| Alternatives.DefaultJobCandidatesValue | src/utils/calculations.ts:80-90 | for PLA at 25 per kg, the candidates are the five other filaments in catalog order |
| Alternatives.DefaultJobSorted | src/utils/calculations.ts:91 | for the starting job, sorting orders the candidates ABS, PETG, Wood Fill, TPU, Carbon Fiber |
| Alternatives.DefaultJobRankingValue | src/utils/calculations.ts:80-92 | for the starting job, the ranking is the ABS, PETG and Wood Fill records |
| Alternatives.DefaultJobRanking | src/utils/calculations.ts:80-92 | for PLA at 25 per kg, the ranked names are ABS, PETG, Wood Fill |
| Alternatives.ZeroCostRanking | src/utils/calculations.ts:83-92 | with a cost per kg of 0, every savings value is -Infinity and the ranking is the first three candidates in catalog order |
| RiskAdvisor.AspectRatioExceeds | src/utils/calculations.ts:48-51 | `Math.max(length, width) / height > 10`, with the IEEE outcomes at height 0; specified by `RiskAdvisor.ZeroHeightIsHighRisk` |
| RiskAdvisor.FiredRules | src/utils/calculations.ts:47-77 | the rules that fire, in test order; specified by `RiskAdvisor.FiredRulesShape` |
| RiskAdvisor.Escalate | src/utils/calculations.ts:63-76 | one firing rule's reassignments: the worse level, `Math.max` of percentage and buffer, and its reason pushed; specified by `RiskAdvisor.ApplyRulesRatchet` |
| RiskAdvisor.ApplyRules | src/utils/calculations.ts:51-77 | the fold of the fired rules; specified by `RiskAdvisor.ApplyRulesRatchet`, `RiskAdvisor.ApplyRulesBounds` and `RiskAdvisor.RiskNeverDecreases` |
| RiskAdvisor.Assess | src/utils/calculations.ts:39-105 | the insights record as a fold; specified by `RiskAdvisor.GenerateAIInsights`, `RiskAdvisor.RiskBounds` and `RiskAdvisor.LowRiskExactlyWhenNoRuleFires` |
| RiskAdvisor.Worse | src/utils/calculations.ts:64 | the combined level is the more severe of the two |
| RiskAdvisor.GenerateAIInsights | src/utils/calculations.ts:39-105 | the reassigning method returns exactly the folded assessment, and the failure reasons are never empty |
| RiskAdvisor.ApplyRulesSnoc | src/utils/calculations.ts:51-77 | applying one more rule escalates the state the earlier rules produced |
| RiskAdvisor.ApplyRulesRatchet | src/utils/calculations.ts:63-76 | applying rules never lowers level, percentage or buffer; a High level stays High; the reasons gain exactly the rules' reasons in order |
| RiskAdvisor.RiskNeverDecreases | src/utils/calculations.ts:51-77 | at every intermediate rule the level, percentage and buffer are at most the final ones, and a High level reached early is still High at the end |
| RiskAdvisor.ApplyRulesBounds | src/utils/calculations.ts:41-77 | the percentage stays in 5..25 and the buffer in 0..15; once any rule fires the level is not Low, the percentage is at least 12 and the buffer at least 8 |
| RiskAdvisor.FiredRulesShape | src/utils/calculations.ts:47-77 | at most three rules fire, in the order geometry, volume, time; the aspect-ratio rule and the tall-print rule never both fire |
| RiskAdvisor.FailureReasons | src/utils/calculations.ts:94-96 | the reasons are the fired rules' reasons in rule order, or the single default reason when none fired; they are never empty |
| RiskAdvisor.GeometryReasonsExclusive | src/utils/calculations.ts:51-61 | the aspect-ratio reason and the tall-print reason never appear together |
| RiskAdvisor.LowRiskExactlyWhenNoRuleFires | src/utils/calculations.ts:41-96 | the level is Low exactly when no rule fires, and then the percentage is 5, the buffer 0 and the reasons the single default reason |
| RiskAdvisor.RiskBounds | src/utils/calculations.ts:41-77 | the percentage always lies in 5..25 and the buffer in 0..15 |
| RiskAdvisor.LongPrintWithoutGeometry | src/utils/calculations.ts:72-77 | with no dimensions and a print longer than 24 h, the result is Medium, 18, 12 with the long-print reason alone |
| RiskAdvisor.AspectRatioAlone | src/utils/calculations.ts:51-55 | when only the aspect-ratio rule fires, the result is High, 25, 15 with its reason alone |
| RiskAdvisor.AspectRatioKeepsHigh | src/utils/calculations.ts:63-73 | once the aspect-ratio rule fires, the volume and time rules cannot lower the level from High |
| RiskAdvisor.ZeroHeightIsHighRisk | src/utils/calculations.ts:49-51 | a zero height with a positive length or width divides to +Infinity, and the risk is High |
| Formatting.ToFixed | src/utils/calculations.ts:116-118 | `Number.prototype.toFixed(f)`; specified by `Formatting.ToFixedDigits` and `Formatting.ToFixedWhole` |
| Formatting.FormatWeight | src/utils/calculations.ts:114-119 | `formatWeight`; specified by `Formatting.WeightUnit`, `Formatting.WeightInKilograms` and `Formatting.WeightInGrams` |
| Formatting.FormatTime | src/utils/calculations.ts:121-132 | `formatTime`; specified by `Formatting.TimeParts`, `Formatting.TimeUnits` and `Formatting.TimeExamples` |
| Formatting.ScaledRound | src/utils/calculations.ts:116-118 | the whole number of 10^-f units `toFixed` shows; specified by `Formatting.ScaledRoundValue` |
| Formatting.ToFixedNegative | src/utils/calculations.ts:116-118 | a negative number shows "-" followed by what its magnitude shows |
| Formatting.NegativeZeroExample | src/utils/calculations.ts:118 | `(-0.4).toFixed(0)` is "-0", so `formatWeight(-0.4)` shows "-0 g" |
| Formatting.FixedDigitsValue | src/utils/calculations.ts:116 | the digits with the point inserted show exactly f decimals and at least one integer digit, and read back as the scaled value |
| Formatting.ScaledRoundValue | src/utils/calculations.ts:116-118 | for non-negative x, the digits `toFixed` shows are x·10^f rounded half up |
| Formatting.ToFixedDigits | src/utils/calculations.ts:116 | `x.toFixed(f)` for non-negative x shows f decimals, and its digits read as the scaled, rounded value |
| Formatting.ToFixedWhole | src/utils/calculations.ts:118 | `x.toFixed(0)` for non-negative x is the digits of x rounded |
| Formatting.WeightUnit | src/utils/calculations.ts:114-119 | the text ends in " kg" exactly when grams ≥ 1000, and in " g" exactly when grams < 1000 |
| Formatting.WeightInKilograms | src/utils/calculations.ts:115-116 | 1500 g renders as "1.50 kg" |
| Formatting.WeightInGrams | src/utils/calculations.ts:118 | 500 g renders as "500 g" |
| Formatting.HoursPart | src/utils/calculations.ts:122 | `Math.floor(hours)`; specified by `Formatting.TimeParts` |
| Formatting.MinutesPart | src/utils/calculations.ts:123 | `Math.round((hours - h) * 60)`; specified by `Formatting.TimeParts` |
| Formatting.TimeParts | src/utils/calculations.ts:121-123 | the minute part lies in 0..60, and hours·60 + minutes is the duration in minutes, rounded |
| Formatting.TimeUnits | src/utils/calculations.ts:125-131 | "h" appears exactly when the whole hours are non-zero; "m" appears exactly when there are no whole hours or the rounded minutes are non-zero |
| Formatting.TimeReadsBack | src/utils/calculations.ts:121-132 | for a non-negative duration, the digits before "h" read as the whole hours, and the digits before the final "m" read as the rounded minutes |
| Formatting.TimeExamples | src/utils/calculations.ts:121-131 | 4.5 h renders as "4h 30m", 1.995 h as "1h 60m" (no carry), and 0.25 h as "15m" |
| MockDatabase.FindIndex | src/lib/database/mock.ts:105 | the result is -1 exactly when no quote has the id; otherwise it is the first position with that id |
| MockDatabase.FromDraft | src/lib/database/mock.ts:94-99 | the inserted record carries the draft's fields, the given id, and the two clock readings as created_at and updated_at |
| MockDatabase.Merge | src/lib/database/mock.ts:110-114 | each field present in the updates replaces the stored one; each absent field is kept; updated_at is always the new timestamp |
| MockDatabase.RemoveAt | src/lib/database/mock.ts:125 | the list is one shorter; records before the index stay put and records after it move down by one |
| MockDatabase.PresetFromDraft | src/lib/database/mock.ts:136-140 | the inserted preset carries the draft's fields, the given id and the timestamp |
| MockDatabase.QuoteStore.constructor | src/lib/database/mock.ts:16-84 | the table starts with the one sample quote and the two presets |
| MockDatabase.QuoteStore.SelectQuotes | src/lib/database/mock.ts:89-91 | returns the current list and changes nothing |
| MockDatabase.QuoteStore.InsertQuote | src/lib/database/mock.ts:93-102 | appends exactly the new record at the end, returns it, and leaves earlier records and the presets unchanged |
| MockDatabase.QuoteStore.UpdateQuote | src/lib/database/mock.ts:104-117 | with an absent id it returns "Quote not found" and changes nothing; otherwise it replaces only the first match with the merged record, keeps the length, and returns the stored record |
| MockDatabase.QuoteStore.DeleteQuote | src/lib/database/mock.ts:119-127 | with an absent id it returns "Quote not found" and changes nothing; otherwise it removes exactly the first match, returns it, and keeps the order of the rest |
| MockDatabase.QuoteStore.SelectPresets | src/lib/database/mock.ts:131-133 | returns the current presets and changes nothing |
| MockDatabase.QuoteStore.InsertPreset | src/lib/database/mock.ts:135-143 | appends exactly one preset with the given id and timestamp; earlier presets and the quotes are unchanged |
| MockDatabase.FindIndexAppend | src/lib/database/mock.ts:96-105 | appending a record never changes which record an id already present reaches; a new id is found at the end |
| MockDatabase.DeleteRevealsNextMatch | src/lib/database/mock.ts:120-125 | after a delete, the id reaches the next record that carried it, if any |
| MockDatabase.UpdateKeepsLookup | src/lib/database/mock.ts:105-114 | an update that does not change the id keeps every id lookup where it was |
| MockDatabase.MergeIdempotent | src/lib/database/mock.ts:110-114 | applying the same update twice at the same time equals applying it once |
| MockDatabase.MergeNoUpdates | src/lib/database/mock.ts:110-114 | an empty update only refreshes updated_at |
| MockDatabase.MergeStampsNow | src/lib/database/mock.ts:112-113 | an updated_at supplied in the updates is overwritten by the new timestamp |
| Wrappers.Pick | src/components/QuoteForm.tsx:22-24 | one field of an object spread: a present update wins, an absent one keeps the current value |
| QuoteForm.UpdateJob | src/components/QuoteForm.tsx:22-24 | each field present in the patch replaces the job's field; each absent field is kept |
| QuoteForm.UpdateJobNoChange | src/components/QuoteForm.tsx:22-24 | an empty patch leaves the job unchanged |
| QuoteForm.StripExtension | src/components/QuoteForm.tsx:30 | `name.replace(/\.[^/.]+$/, '')`; specified by `QuoteForm.StripExtensionSpec` |
| QuoteForm.StripExtensionSpec | src/components/QuoteForm.tsx:30 | the name loses exactly the text the pattern `\.[^/.]+$` matches; the match, if any, is unique, and without one the name is kept |
| QuoteForm.StripExtensionOfModelFile | src/components/QuoteForm.tsx:30 | "phone_case.stl" becomes "phone_case" |
| QuoteForm.StripExtensionOfDottedName | src/components/QuoteForm.tsx:30 | only the last extension is removed: "bracket.v2.3mf" becomes "bracket.v2" |
| QuoteForm.StripExtensionKeepsName | src/components/QuoteForm.tsx:30 | a dot followed by a '/' later in the name, or a trailing dot, is not an extension, and the name is kept |
| QuoteForm.SelectFile | src/components/QuoteForm.tsx:26-35 | `handleFileSelect`'s job update; specified by `QuoteForm.SelectFileEffect` |
| QuoteForm.SelectFileEffect | src/components/QuoteForm.tsx:26-35 | choosing a file sets the file and the name without its extension; clearing sets no file and keeps the name; nothing else changes |
| QuoteForm.CalculateVolume | src/components/QuoteForm.tsx:38-46 | `calculateVolume`; specified by `QuoteForm.CalculateVolumeSpec` |
| QuoteForm.CalculateVolumeSpec | src/components/QuoteForm.tsx:38-46 | volume·1000 becomes length·width·height; the lengths and every other field are kept; with no dimensions nothing changes; recomputing again changes nothing |
| QuoteForm.NameIndex | src/components/QuoteForm.tsx:49 | the result is -1 exactly when the name is absent; otherwise it is the first position holding it, as `find` over the filament or printer names |
| QuoteForm.ChangeFilament | src/components/QuoteForm.tsx:48-56 | `handleFilamentChange`; specified by `QuoteForm.ChangeFilamentSpec` and `QuoteForm.ChangeFilamentUnknown` |
| QuoteForm.ChangeFilamentSpec | src/components/QuoteForm.tsx:48-56 | a catalog filament name sets the filament type and that entry's cost per kg, and nothing else |
| QuoteForm.ChangeFilamentUnknown | src/components/QuoteForm.tsx:48-56 | a name not in the catalog leaves the job unchanged |
| QuoteForm.ChangePrinter | src/components/QuoteForm.tsx:58-66 | `handlePrinterChange`; specified by `QuoteForm.ChangePrinterSpec` and `QuoteForm.ChangePrinterUnknown` |
| QuoteForm.ChangePrinterSpec | src/components/QuoteForm.tsx:58-66 | a catalog printer name sets the printer name and that entry's power consumption, and nothing else |
| QuoteForm.ChangePrinterUnknown | src/components/QuoteForm.tsx:58-66 | a name not in the catalog leaves the job unchanged |
| QuoteForm.ParsedOrZero | src/components/QuoteForm.tsx:107-343 | `parseFloat(text)`, falling back to 0, on an already parsed input; specified by `QuoteForm.EditDimensionSpec` and `QuoteForm.SetNumberSpec` |
| QuoteForm.EditDimension | src/components/QuoteForm.tsx:104-167 | a dimension input's change handler; specified by `QuoteForm.EditDimensionSpec` |
| QuoteForm.EditDimensionSpec | src/components/QuoteForm.tsx:104-167 | the edited dimension takes the parsed value, or 0 when the text does not parse; the other three keep their values, or 0 when there were no dimensions; no other job field changes |
| QuoteForm.EditThenBlur | src/components/QuoteForm.tsx:104-113 | editing the length does not recompute the volume; leaving the field then recomputes it from the new length |
| QuoteForm.SetNumber | src/components/QuoteForm.tsx:191-343 | a numeric input's change handler; specified by `QuoteForm.SetNumberSpec` |
| QuoteForm.SetNumberSpec | src/components/QuoteForm.tsx:191-343 | the edited numeric field takes the parsed value, or 0 when it does not parse; every other numeric field and the id, name, file, dimensions, filament and printer are kept |
| QuoteForm.QuoteFormView.constructor | src/components/QuoteForm.tsx:19-20 | the manual dimension inputs start toggled off |
| QuoteForm.QuoteFormView.OnFileSelect | src/components/QuoteForm.tsx:26-35 | the job is updated by the file handler; choosing a file turns the manual inputs off and hides them; clearing it shows them |
| QuoteForm.QuoteFormView.ToggleManualInput | src/components/QuoteForm.tsx:89 | the toggle flips and the job is unchanged |
| QuoteForm.QuoteFormView.ApplyUpdate | src/components/QuoteForm.tsx:22-24 | the job becomes the patched job and the toggle is unchanged |
| FileUpload.SliceFrom | src/components/FileUpload.tsx:22 | `slice(start)` with an in-range start is the suffix from start; a negative start gives the last min(-start, length) characters |
| FileUpload.Extension | src/components/FileUpload.tsx:22 | `name.toLowerCase().slice(name.lastIndexOf('.'))`; specified by `FileUpload.ExtensionFromLastDot`, `FileUpload.ExtensionWithoutDot` and `FileUpload.ExtensionIgnoresCase` |
| FileUpload.ExtensionFromLastDot | src/components/FileUpload.tsx:22 | with a dot in the name, the extension is the lower-cased text from the last dot; it starts with the dot and holds no other dot |
| FileUpload.ExtensionWithoutDot | src/components/FileUpload.tsx:22 | with no dot, the "extension" is the lower-cased last character, so it is at most one character long |
| FileUpload.ExtensionIgnoresCase | src/components/FileUpload.tsx:22 | lower-casing the name first gives the same extension |
| FileUpload.Validate | src/components/FileUpload.tsx:21-36 | a type not in the accepted list is refused first; otherwise a size above maxSize·1024·1024 is too large; otherwise the file is accepted |
| FileUpload.ErrorMessage | src/components/FileUpload.tsx:25-34 | the error text is empty exactly when the file is accepted |
| FileUpload.UpperCaseExtension | src/components/FileUpload.tsx:22 | "MODEL.STL" has the extension ".stl" |
| FileUpload.UpperCaseNameAccepted | src/components/FileUpload.tsx:14-35 | under the defaults, "MODEL.STL" within 50 MB is accepted |
| FileUpload.NoDotRejected | src/components/FileUpload.tsx:14-27 | under the default types, a name with no dot is refused as an unsupported type |
| FileUpload.SizeLimit | src/components/FileUpload.tsx:29-32 | for an accepted type, a size exactly at the limit is accepted, one byte more is too large, and acceptance means size ≤ limit |
| FileUpload.DefaultMessages | src/components/FileUpload.tsx:25-30 | under the defaults, the messages read "File type not supported. Please upload: .stl, .3mf" and "File too large. Maximum size: 50MB" |
| FileUpload.FileUploadState.constructor | src/components/FileUpload.tsx:12-19 | the box starts with no file and no error |
| FileUpload.FileUploadState.ValidateFile | src/components/FileUpload.tsx:21-36 | returns true exactly when the file is accepted, sets the error text to match the verdict, and keeps the selection |
| FileUpload.FileUploadState.HandleFileSelect | src/components/FileUpload.tsx:38-43 | an accepted file becomes the selection and is passed to the parent; otherwise the selection is kept and the parent is not called |
| FileUpload.FileUploadState.RemoveFile | src/components/FileUpload.tsx:62-66 | the selection and the error are cleared, and the parent receives no file |

## Left out

- `formatCurrency` is left out. It is a thin wrapper over `Intl.NumberFormat`,
  whose locale tables are outside the model.
- `toFixed` for magnitudes of 1e21 and above (exponent notation) is not modelled.
  Such weights are not realistic.
- IEEE-754 rounding artefacts are not modelled: every number is an exact real. The
  only infinities and NaNs modelled are the two divisions by zero described above.
- NaN inputs are not modelled. A job field that is NaN would make every comparison
  false.
- `async`/Promise wrappers, `Date.now()` and `new Date()` are left out. The table
  methods are synchronous, and ids and timestamps are parameters.
- `MockDatabase.QuoteStore.SelectQuotes` returns the list by value. The code
  hands out the live array, so later mutations through that reference (aliasing)
  are not captured.
- `MockDatabase.QuoteStore.SelectPresets` returns the presets by value. The code
  hands out the live `mockFilamentPresets` array, so aliasing is not captured
  here either.
- `MockDatabase.Merge`: an update that sets a field explicitly to `undefined` is not
  modelled. Absent and present fields are.
- `QuoteForm.SetNumberSpec` and `QuoteForm.EditDimensionSpec` take the already
  parsed number. `parseFloat`'s text grammar is not modelled, and neither are the
  `|| 0` cases for a parsed 0 or -0, which give the same value.
- `Text.ToLowerChar`: `toLowerCase` is modelled on ASCII only. Other characters
  are kept, so non-ASCII case mapping is not captured.
- `Text.ToLower`: lower-cases character by character, so full Unicode case mapping
  (which can change length) is not captured.
- `FileUpload.ExtensionFromLastDot` inherits the ASCII-only lower-casing of
  `Text.ToLower`.
- `FileUpload.Validate`: `maxSize` is a whole number of megabytes. Fractional
  limits are not modelled.
- Drag-and-drop state (`dragActive`, drop events) and the file input's change event
  are left out. They only forward the first file to `handleFileSelect`, which is
  modelled.
- The remote database client, the choice between it and the in-memory table,
  configuration, analytics and export side effects are left out. They are network
  or browser calls outside the model.
- Rendering and toasts are left out. So is the application's effect that
  recomputes the breakdown and insights when the job changes.
- The seeded quote's stored breakdown and insights are kept as the literal figures.
  They are hand-rounded, and no lemma relates them to `CalculateCosts` or
  `GenerateAIInsights`.
