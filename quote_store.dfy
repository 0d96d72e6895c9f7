/** The in-memory quote table that stands in for the database: a list of saved
    quotes and a list of filament presets, with select, insert, update-by-id and
    delete-by-id. Ids and timestamps are supplied by the caller. */
module MockDatabase {
  import opened Wrappers
  import opened Types

  datatype QuoteStatus = Draft | Sent | Accepted | Rejected

  datatype SavedQuote = SavedQuote(
    id: string,
    createdAt: string,
    updatedAt: string,
    name: string,
    jobData: Job,
    breakdownData: CostBreakdown,
    insightsData: AIInsights,
    totalCost: real,
    status: Option<QuoteStatus>)

  /** What `insert` accepts: a saved quote without its id and timestamps. */
  datatype QuoteDraft = QuoteDraft(
    name: string,
    jobData: Job,
    breakdownData: CostBreakdown,
    insightsData: AIInsights,
    totalCost: real,
    status: Option<QuoteStatus>)

  /** A partial saved quote: every field may be present or absent. */
  datatype QuoteUpdates = QuoteUpdates(
    id: Option<string>,
    createdAt: Option<string>,
    updatedAt: Option<string>,
    name: Option<string>,
    jobData: Option<Job>,
    breakdownData: Option<CostBreakdown>,
    insightsData: Option<AIInsights>,
    totalCost: Option<real>,
    status: Option<QuoteStatus>)

  const NoUpdates := QuoteUpdates(None, None, None, None, None, None, None, None, None)

  datatype FilamentPreset = FilamentPreset(
    id: string,
    createdAt: string,
    name: string,
    costPerKg: real,
    density: real,
    printTemp: real,
    bedTemp: real,
    properties: seq<string>,
    isDefault: bool)

  /** What the preset `insert` accepts: a preset without id and timestamp. */
  datatype PresetDraft = PresetDraft(
    name: string,
    costPerKg: real,
    density: real,
    printTemp: real,
    bedTemp: real,
    properties: seq<string>,
    isDefault: bool)

  datatype DbError = DbError(message: string)

  const NotFound := DbError("Quote not found")

  /** The one quote the table starts with. Its breakdown and insights are stored
      figures, not recomputed ones. */
  const SeedQuote := SavedQuote(
    "1", "2025-01-01T10:00:00Z", "2025-01-01T10:00:00Z", "Sample Phone Case",
    Job("1", "Sample Phone Case", None, None, 3.5, "PLA", 25.0, 45.0, "Ender 3 V2",
        0.12, 270.0, 15.0, 10.0, 2.0, 8.0, 30.0),
    CostBreakdown(1.125, 0.113, 52.5, 5.374, 2.0, 8.0, 69.112, 20.734, 89.846),
    AIInsights(Low, 8.0, ["Model appears suitable for reliable printing"], 0.0, []),
    89.846, Some(Draft))

  const SeedPresets := [
    FilamentPreset("1", "2025-01-01T00:00:00Z", "PLA Premium", 28.0, 1.24, 210.0, 60.0,
                   ["Easy to print", "Biodegradable", "Low odor", "Premium quality"], false),
    FilamentPreset("2", "2025-01-01T00:00:00Z", "ABS Professional", 32.0, 1.04, 250.0, 100.0,
                   ["Industrial grade", "Heat resistant", "Chemical resistant", "Durable"], false)
  ]

  /** `findIndex` by id: the position of the first quote with that id, or -1. */
  function FindIndex(quotes: seq<SavedQuote>, id: string): (i: int)
    ensures -1 <= i < |quotes|
    ensures i == -1 <==> forall k :: 0 <= k < |quotes| ==> quotes[k].id != id
    ensures i >= 0 ==> quotes[i].id == id && forall k :: 0 <= k < i ==> quotes[k].id != id
  {
    if |quotes| == 0 then -1
    else if quotes[0].id == id then 0
    else
      var j := FindIndex(quotes[1..], id);
      if j == -1 then -1 else j + 1
  }

  /** The record `insert` stores: the draft's fields, the given id, and the two
      clock readings taken for creation and last update. */
  function FromDraft(d: QuoteDraft, id: string, created: string, updated: string): (q: SavedQuote)
    ensures q.id == id && q.createdAt == created && q.updatedAt == updated
    ensures q.name == d.name && q.jobData == d.jobData && q.breakdownData == d.breakdownData
    ensures q.insightsData == d.insightsData && q.totalCost == d.totalCost && q.status == d.status
  {
    SavedQuote(id, created, updated, d.name, d.jobData, d.breakdownData, d.insightsData, d.totalCost, d.status)
  }

  /** `{ ...q, ...u, updated_at: now }`: every field the update carries replaces the
      stored one, every absent field is kept, and the update stamp is always `now`. */
  function Merge(q: SavedQuote, u: QuoteUpdates, now: string): (r: SavedQuote)
    ensures r.updatedAt == now
    ensures u.id.None? ==> r.id == q.id
    ensures u.id.Some? ==> r.id == u.id.value
    ensures u.createdAt.None? ==> r.createdAt == q.createdAt
    ensures u.createdAt.Some? ==> r.createdAt == u.createdAt.value
    ensures u.name.None? ==> r.name == q.name
    ensures u.name.Some? ==> r.name == u.name.value
    ensures u.jobData.None? ==> r.jobData == q.jobData
    ensures u.jobData.Some? ==> r.jobData == u.jobData.value
    ensures u.breakdownData.None? ==> r.breakdownData == q.breakdownData
    ensures u.breakdownData.Some? ==> r.breakdownData == u.breakdownData.value
    ensures u.insightsData.None? ==> r.insightsData == q.insightsData
    ensures u.insightsData.Some? ==> r.insightsData == u.insightsData.value
    ensures u.totalCost.None? ==> r.totalCost == q.totalCost
    ensures u.totalCost.Some? ==> r.totalCost == u.totalCost.value
    ensures u.status.None? ==> r.status == q.status
    ensures u.status.Some? ==> r.status == u.status
  {
    SavedQuote(
      Pick(u.id, q.id),
      Pick(u.createdAt, q.createdAt),
      now,
      Pick(u.name, q.name),
      Pick(u.jobData, q.jobData),
      Pick(u.breakdownData, q.breakdownData),
      Pick(u.insightsData, q.insightsData),
      Pick(u.totalCost, q.totalCost),
      if u.status.Some? then u.status else q.status)
  }

  /** `splice(i, 1)` on the list: everything before `i` stays put, everything after
      moves down by one. */
  function RemoveAt<T>(s: seq<T>, i: nat): (r: seq<T>)
    requires i < |s|
    ensures |r| == |s| - 1
    ensures forall j :: 0 <= j < i ==> r[j] == s[j]
    ensures forall j :: i <= j < |r| ==> r[j] == s[j + 1]
  {
    s[..i] + s[i + 1..]
  }

  /** The preset `insert` stores. */
  function PresetFromDraft(d: PresetDraft, id: string, now: string): (p: FilamentPreset)
    ensures p.id == id && p.createdAt == now && p.name == d.name && p.costPerKg == d.costPerKg
    ensures p.density == d.density && p.printTemp == d.printTemp && p.bedTemp == d.bedTemp
    ensures p.properties == d.properties && p.isDefault == d.isDefault
  {
    FilamentPreset(id, now, d.name, d.costPerKg, d.density, d.printTemp, d.bedTemp,
                   d.properties, d.isDefault)
  }

  class QuoteStore {
    var quotes: seq<SavedQuote>
    var presets: seq<FilamentPreset>

    constructor ()
      ensures quotes == [SeedQuote] && presets == SeedPresets
    {
      quotes := [SeedQuote];
      presets := SeedPresets;
    }

    /** `quotes.select`: the current list, nothing changed. */
    method SelectQuotes() returns (data: seq<SavedQuote>)
      ensures data == quotes
    {
      data := quotes;
    }

    /** `quotes.insert`: appends one record and returns it. */
    method InsertQuote(draft: QuoteDraft, id: string, created: string, updated: string)
      returns (data: seq<SavedQuote>)
      modifies this
      ensures data == [FromDraft(draft, id, created, updated)]
      ensures quotes == old(quotes) + data
      ensures presets == old(presets)
    {
      var newQuote := FromDraft(draft, id, created, updated);
      quotes := quotes + [newQuote];
      data := [newQuote];
    }

    /** `quotes.update`: merges the updates into the first quote with `id` and returns
      the stored record, or fails with "Quote not found" and changes nothing. */
    method UpdateQuote(id: string, updates: QuoteUpdates, now: string)
      returns (r: Result<seq<SavedQuote>, DbError>)
      modifies this
      ensures presets == old(presets)
      ensures FindIndex(old(quotes), id) == -1 ==> r == Err(NotFound) && quotes == old(quotes)
      ensures var i := FindIndex(old(quotes), id);
        i >= 0 ==>
          quotes == old(quotes)[i := Merge(old(quotes)[i], updates, now)] &&
          r == Ok([quotes[i]])
    {
      var index := FindIndex(quotes, id);
      if index == -1 {
        return Err(NotFound);
      }
      quotes := quotes[index := Merge(quotes[index], updates, now)];
      r := Ok([quotes[index]]);
    }

    /** `quotes.delete`: removes the first quote with `id` and returns it, or fails
      with "Quote not found" and changes nothing. */
    method DeleteQuote(id: string) returns (r: Result<seq<SavedQuote>, DbError>)
      modifies this
      ensures presets == old(presets)
      ensures FindIndex(old(quotes), id) == -1 ==> r == Err(NotFound) && quotes == old(quotes)
      ensures var i := FindIndex(old(quotes), id);
        i >= 0 ==> quotes == RemoveAt(old(quotes), i) && r == Ok([old(quotes)[i]])
    {
      var index := FindIndex(quotes, id);
      if index == -1 {
        return Err(NotFound);
      }
      var deleted := [quotes[index]];
      quotes := RemoveAt(quotes, index);
      r := Ok(deleted);
    }

    /** `filament_presets.select`: the current list, nothing changed. */
    method SelectPresets() returns (data: seq<FilamentPreset>)
      ensures data == presets
    {
      data := presets;
    }

    /** `filament_presets.insert`: appends one preset and returns it. */
    method InsertPreset(draft: PresetDraft, id: string, now: string)
      returns (data: seq<FilamentPreset>)
      modifies this
      ensures data == [PresetFromDraft(draft, id, now)]
      ensures presets == old(presets) + data
      ensures quotes == old(quotes)
    {
      var newPreset := PresetFromDraft(draft, id, now);
      presets := presets + [newPreset];
      data := [newPreset];
    }
  }

  /** Appending never changes which record an id reaches when the id is already
      present: a duplicate id inserted later is shadowed by the earlier one. */
  lemma {:induction false} FindIndexAppend(quotes: seq<SavedQuote>, q: SavedQuote, id: string)
    ensures FindIndex(quotes, id) >= 0 ==> FindIndex(quotes + [q], id) == FindIndex(quotes, id)
    ensures FindIndex(quotes, id) == -1 && q.id == id ==> FindIndex(quotes + [q], id) == |quotes|
    ensures FindIndex(quotes, id) == -1 && q.id != id ==> FindIndex(quotes + [q], id) == -1
  {
    var s := quotes + [q];
    assert forall k :: 0 <= k < |quotes| ==> s[k] == quotes[k];
    assert s[|quotes|] == q;
  }

  /** After a delete, the id reaches the next record that carried it, if any:
      only the first match is ever removed. */
  lemma DeleteRevealsNextMatch(quotes: seq<SavedQuote>, id: string)
    requires FindIndex(quotes, id) >= 0
    ensures var i := FindIndex(quotes, id);
      var j := FindIndex(quotes[i + 1..], id);
      FindIndex(RemoveAt(quotes, i), id) == if j == -1 then -1 else i + j
  {
    var i := FindIndex(quotes, id);
    var rest := quotes[i + 1..];
    var j := FindIndex(rest, id);
    var r := RemoveAt(quotes, i);
    assert forall k :: i <= k < |r| ==> r[k] == rest[k - i];
    if j == -1 {
      assert forall k :: 0 <= k < |r| ==> r[k].id != id;
    } else {
      assert r[i + j] == rest[j];
      assert forall k :: 0 <= k < i + j ==> r[k].id != id;
    }
  }

  /** An update that leaves the id alone keeps every lookup where it was. */
  lemma UpdateKeepsLookup(quotes: seq<SavedQuote>, i: nat, u: QuoteUpdates, now: string, id: string)
    requires i < |quotes| && u.id.None?
    ensures FindIndex(quotes[i := Merge(quotes[i], u, now)], id) == FindIndex(quotes, id)
  {
    var s := quotes[i := Merge(quotes[i], u, now)];
    assert forall k :: 0 <= k < |quotes| ==> s[k].id == quotes[k].id;
  }

  /** Applying the same update twice, at the same time, is the same as applying it once. */
  lemma MergeIdempotent(q: SavedQuote, u: QuoteUpdates, now: string)
    ensures Merge(Merge(q, u, now), u, now) == Merge(q, u, now)
  {
  }

  /** An empty update only refreshes the timestamp. */
  lemma MergeNoUpdates(q: SavedQuote, now: string)
    ensures Merge(q, NoUpdates, now) == q.(updatedAt := now)
  {
  }

  /** A supplied `updatedAt` is always overwritten by the update's own timestamp. */
  lemma MergeStampsNow(q: SavedQuote, stamp: string, now: string)
    ensures Merge(q, NoUpdates.(updatedAt := Some(stamp)), now) == q.(updatedAt := now)
  {
  }
}
