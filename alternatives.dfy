/** The alternative-filament ranking of `generateAIInsights`: drop the job's own
    filament, price every other catalog entry against the job's cost per kg, sort
    by savings (highest first, stable) and keep the first three. */
module Alternatives {
  import opened Types
  import opened Filaments
  import opened JsMath

  /** `x` is a whole number of hundredths. */
  predicate Hundredths(x: real) {
    (x * 100.0).Floor as real == x * 100.0
  }

  /** Savings of switching from `current` to `candidate` per kg, in percent rounded to
      hundredths. A zero `current` divides a negative number by zero: -Infinity. */
  function SavingsOf(current: real, candidate: real): (s: Savings)
    requires candidate > 0.0
    ensures s.MinusInfinity? <==> current == 0.0
    ensures s.Finite? ==>
      s.percent - 0.005 <= (current - candidate) / current * 100.0 < s.percent + 0.005
    ensures s.Finite? ==> Hundredths(s.percent)
    ensures s.Finite? && candidate < current ==> s.percent >= 0.0
    ensures s.Finite? && current > 0.0 && candidate > current ==> s.percent <= 0.0
  {
    if current == 0.0 then MinusInfinity
    else
      var savings := ((current - candidate) / current) * 100.0;
      Finite(Round(savings * 100.0) as real / 100.0)
  }

  /** `xs.slice(0, n)` */
  function Take<T>(xs: seq<T>, n: nat): (r: seq<T>)
    ensures |r| == if |xs| <= n then |xs| else n
    ensures r == xs[..|r|]
  {
    if |xs| <= n then xs else xs[..n]
  }

  predicate PositiveCosts(cat: seq<FilamentType>) {
    forall f :: f in cat ==> f.costPerKg > 0.0
  }

  function ToAlternative(job: Job, f: FilamentType): Alternative
    requires f.costPerKg > 0.0
  {
    Alternative(f.name, f.costPerKg, Take(f.properties, 2), SavingsOf(job.filamentCostPerKg, f.costPerKg))
  }

  /** The catalog's other entries, in catalog order, priced against the job. */
  function Candidates(job: Job, cat: seq<FilamentType>): seq<Alternative>
    requires PositiveCosts(cat)
  {
    if cat == [] then []
    else if cat[0].name == job.filamentType then Candidates(job, cat[1..])
    else [ToAlternative(job, cat[0])] + Candidates(job, cat[1..])
  }

  /** Every candidate is a priced catalog entry other than the job's own filament. */
  lemma {:induction false} CandidatesSpec(job: Job, cat: seq<FilamentType>)
    requires PositiveCosts(cat)
    ensures |Candidates(job, cat)| <= |cat|
    ensures forall a :: a in Candidates(job, cat) ==>
      exists f :: f in cat && f.name != job.filamentType && a == ToAlternative(job, f)
  {
    if cat != [] {
      CandidatesSpec(job, cat[1..]);
      forall a | a in Candidates(job, cat[1..])
        ensures exists f :: f in cat && f.name != job.filamentType && a == ToAlternative(job, f)
      {
        var f :| f in cat[1..] && f.name != job.filamentType && a == ToAlternative(job, f);
        assert f in cat;
      }
    }
  }

  /** Conversely, every catalog entry other than the job's own filament is a candidate. */
  lemma {:induction false} CandidatesComplete(job: Job, cat: seq<FilamentType>)
    requires PositiveCosts(cat)
    ensures forall f :: f in cat && f.name != job.filamentType ==> ToAlternative(job, f) in Candidates(job, cat)
  {
    if cat != [] {
      CandidatesComplete(job, cat[1..]);
      forall f | f in cat && f.name != job.filamentType
        ensures ToAlternative(job, f) in Candidates(job, cat)
      {
        if f != cat[0] {
          assert f in cat[1..];
        }
      }
    }
  }

  /** Candidates keep catalog order: a filament added at the end of the catalog adds
      its record, if any, at the end of the candidates. */
  lemma {:induction false} CandidatesSnoc(job: Job, cat: seq<FilamentType>, f: FilamentType)
    requires PositiveCosts(cat + [f])
    ensures PositiveCosts(cat)
    ensures Candidates(job, cat + [f]) ==
      Candidates(job, cat) + (if f.name != job.filamentType then [ToAlternative(job, f)] else [])
  {
    assert forall g :: g in cat ==> g in cat + [f];
    if cat == [] {
      assert cat + [f] == [f];
      assert [f][1..] == [];
    } else {
      assert (cat + [f])[1..] == cat[1..] + [f];
      CandidatesSnoc(job, cat[1..], f);
    }
  }

  /** The sort comparator `b.savings - a.savings`, read as "a may stay before b".
      Two -Infinity savings subtract to NaN, which the sort treats as equal. */
  predicate AtLeast(a: Savings, b: Savings) {
    match (a, b)
    case (Finite(x), Finite(y)) => x >= y
    case (Finite(_), MinusInfinity) => true
    case (MinusInfinity, Finite(_)) => false
    case (MinusInfinity, MinusInfinity) => true
  }

  predicate SortedBySavings(s: seq<Alternative>) {
    forall i, j :: 0 <= i < j < |s| ==> AtLeast(s[i].savings, s[j].savings)
  }

  lemma AtLeastTotal(a: Savings, b: Savings)
    ensures AtLeast(a, b) || AtLeast(b, a)
  {
  }

  lemma AtLeastTransitive(a: Savings, b: Savings, c: Savings)
    requires AtLeast(a, b) && AtLeast(b, c)
    ensures AtLeast(a, c)
  {
  }

  /** Place `x` before the first element it is at least as good as. */
  function Insert(x: Alternative, xs: seq<Alternative>): seq<Alternative>
  {
    if xs == [] || AtLeast(x.savings, xs[0].savings) then [x] + xs
    else [xs[0]] + Insert(x, xs[1..])
  }

  lemma {:induction false} InsertPermutes(x: Alternative, xs: seq<Alternative>)
    ensures multiset(Insert(x, xs)) == multiset(xs) + multiset{x}
  {
    if !(xs == [] || AtLeast(x.savings, xs[0].savings)) {
      assert xs == [xs[0]] + xs[1..];
      InsertPermutes(x, xs[1..]);
    }
  }

  lemma {:induction false} InsertSorted(x: Alternative, xs: seq<Alternative>)
    requires SortedBySavings(xs)
    ensures SortedBySavings(Insert(x, xs))
  {
    if xs == [] || AtLeast(x.savings, xs[0].savings) {
      InsertSortedAhead(x, xs);
    } else {
      InsertSorted(x, xs[1..]);
      InsertSortedBehind(x, xs);
    }
  }

  lemma InsertSortedAhead(x: Alternative, xs: seq<Alternative>)
    requires SortedBySavings(xs)
    requires xs == [] || AtLeast(x.savings, xs[0].savings)
    ensures SortedBySavings([x] + xs)
  {
    var r := [x] + xs;
    forall i, j | 0 <= i < j < |r| ensures AtLeast(r[i].savings, r[j].savings) {
      if i == 0 && j > 1 {
        AtLeastTransitive(x.savings, xs[0].savings, xs[j - 1].savings);
      }
    }
  }

  /** An upper bound on `x` and on every element of `xs` bounds `Insert(x, xs)`. */
  lemma {:induction false} InsertBounded(z: Savings, x: Alternative, xs: seq<Alternative>)
    requires AtLeast(z, x.savings)
    requires forall i :: 0 <= i < |xs| ==> AtLeast(z, xs[i].savings)
    ensures forall y :: y in Insert(x, xs) ==> AtLeast(z, y.savings)
  {
    if !(xs == [] || AtLeast(x.savings, xs[0].savings)) {
      InsertBounded(z, x, xs[1..]);
    }
  }

  lemma InsertSortedBehind(x: Alternative, xs: seq<Alternative>)
    requires SortedBySavings(xs) && xs != [] && !AtLeast(x.savings, xs[0].savings)
    requires SortedBySavings(Insert(x, xs[1..]))
    ensures SortedBySavings(Insert(x, xs))
  {
    var rest := Insert(x, xs[1..]);
    AtLeastTotal(x.savings, xs[0].savings);
    InsertBounded(xs[0].savings, x, xs[1..]);
    var r := Insert(x, xs);
    assert r == [xs[0]] + rest;
    forall i, j | 0 <= i < j < |r| ensures AtLeast(r[i].savings, r[j].savings) {
      if i == 0 {
        assert r[j] == rest[j - 1];
        assert r[j] in rest;
      } else {
        assert r[i] == rest[i - 1] && r[j] == rest[j - 1];
      }
    }
  }

  /** A stable sort by non-increasing savings (insertion sort). */
  function SortBySavings(s: seq<Alternative>): seq<Alternative>
  {
    if s == [] then [] else Insert(s[0], SortBySavings(s[1..]))
  }

  /** The sort returns a permutation of its input, by non-increasing savings. */
  lemma {:induction false} SortBySavingsSpec(s: seq<Alternative>)
    ensures multiset(SortBySavings(s)) == multiset(s)
    ensures SortedBySavings(SortBySavings(s))
  {
    if s != [] {
      assert s == [s[0]] + s[1..];
      SortBySavingsSpec(s[1..]);
      InsertSorted(s[0], SortBySavings(s[1..]));
      InsertPermutes(s[0], SortBySavings(s[1..]));
    }
  }

  /** The entries of `s` whose savings equal `v`, in their order in `s`. */
  function WithSavings(s: seq<Alternative>, v: Savings): seq<Alternative>
  {
    if s == [] then [] else (if s[0].savings == v then [s[0]] else []) + WithSavings(s[1..], v)
  }

  lemma {:induction false} InsertStable(x: Alternative, xs: seq<Alternative>, v: Savings)
    ensures WithSavings(Insert(x, xs), v) == WithSavings([x], v) + WithSavings(xs, v)
  {
    assert WithSavings([x], v) == (if x.savings == v then [x] else []) + WithSavings([], v);
    if xs == [] || AtLeast(x.savings, xs[0].savings) {
      assert ([x] + xs)[1..] == xs;
    } else {
      var r := Insert(x, xs);
      InsertStable(x, xs[1..], v);
      assert r[1..] == Insert(x, xs[1..]);
      if x.savings == v {
        assert xs[0].savings != v;
      }
    }
  }

  /** The sort is stable: entries with equal savings keep their input order (as
      `Array.prototype.sort` does), so ties are broken by catalog order. */
  lemma {:induction false} SortIsStable(s: seq<Alternative>, v: Savings)
    ensures WithSavings(SortBySavings(s), v) == WithSavings(s, v)
  {
    if s != [] {
      SortIsStable(s[1..], v);
      InsertStable(s[0], SortBySavings(s[1..]), v);
      assert WithSavings([s[0]], v) == (if s[0].savings == v then [s[0]] else []) + WithSavings([], v);
    }
  }

  /** The first three of the sorted candidates. */
  function RankAlternatives(job: Job, cat: seq<FilamentType>): seq<Alternative>
    requires PositiveCosts(cat)
  {
    Take(SortBySavings(Candidates(job, cat)), 3)
  }

  /** At most three alternatives, sorted by non-increasing savings, drawn without
      repetition from the candidates (so never the job's own filament). */
  lemma RankAlternativesSpec(job: Job, cat: seq<FilamentType>)
    requires PositiveCosts(cat)
    ensures var r, c := RankAlternatives(job, cat), Candidates(job, cat);
      |r| == (if |c| <= 3 then |c| else 3) &&
      SortedBySavings(r) &&
      (forall a :: a in r ==> a.name != job.filamentType) &&
      multiset(r) <= multiset(c)
  {
    var c := Candidates(job, cat);
    var all := SortBySavings(c);
    SortBySavingsSpec(c);
    CandidatesSpec(job, cat);
    var r := Take(all, 3);
    assert all == r + all[|r|..];
    assert forall a :: a in r ==> a in c by {
      forall a | a in r ensures a in c {
        assert a in multiset(all);
      }
    }
  }

  /** The `alternativeFilaments` list for a job, ranked over the built-in catalog. */
  function Ranking(job: Job): seq<Alternative>
  {
    FilamentCostBounds();
    RankAlternatives(job, FilamentTypes)
  }

  function Names(r: seq<Alternative>): seq<string> {
    if r == [] then [] else [r[0].name] + Names(r[1..])
  }

  lemma {:induction false} CandidatesOfOthers(job: Job, cat: seq<FilamentType>)
    requires PositiveCosts(cat)
    requires forall f :: f in cat ==> f.name != job.filamentType
    ensures |Candidates(job, cat)| == |cat|
  {
    if cat != [] {
      CandidatesOfOthers(job, cat[1..]);
    }
  }

  /** With distinct names, at most one catalog entry is the job's own filament. */
  lemma {:induction false} CandidatesCount(job: Job, cat: seq<FilamentType>)
    requires PositiveCosts(cat) && FilamentNamesDistinct(cat)
    ensures |Candidates(job, cat)| >= |cat| - 1
  {
    if cat != [] {
      if cat[0].name == job.filamentType {
        forall f | f in cat[1..] ensures f.name != job.filamentType {
          var k :| 0 <= k < |cat[1..]| && cat[1..][k] == f;
          assert cat[k + 1] == f;
        }
        CandidatesOfOthers(job, cat[1..]);
      } else {
        CandidatesCount(job, cat[1..]);
      }
    }
  }

  /** Each ranked alternative is one of the catalog's other entries: it carries that
      entry's cost, its first two property tags as benefits and a savings figure
      rounded to hundredths. */
  lemma RankedEntries(job: Job, cat: seq<FilamentType>)
    requires PositiveCosts(cat)
    requires forall f :: f in cat ==> |f.properties| >= 2
    ensures forall a :: a in RankAlternatives(job, cat) ==>
      exists f :: f in cat && f.name != job.filamentType && a.name == f.name &&
                  a.costPerKg == f.costPerKg && a.benefits == f.properties[..2] && |a.benefits| == 2
    ensures forall a :: a in RankAlternatives(job, cat) && a.savings.Finite? ==>
      Hundredths(a.savings.percent)
  {
    var r := RankAlternatives(job, cat);
    RankAlternativesSpec(job, cat);
    forall a | a in r
      ensures exists f :: f in cat && f.name != job.filamentType && a.name == f.name &&
                          a.costPerKg == f.costPerKg && a.benefits == f.properties[..2] && |a.benefits| == 2
      ensures a.savings.Finite? ==> Hundredths(a.savings.percent)
    {
      assert a in multiset(r);
      CandidatesSpec(job, cat);
      assert a in Candidates(job, cat);
      var f :| f in cat && f.name != job.filamentType && a == ToAlternative(job, f);
      assert a.benefits == f.properties[..2];
      assert a.savings == SavingsOf(job.filamentCostPerKg, f.costPerKg);
    }
  }

  /** Three alternatives are always offered from the built-in catalog. */
  lemma RankingShape(job: Job)
    ensures |Ranking(job)| == 3
    ensures forall a :: a in Ranking(job) ==> |a.benefits| == 2
  {
    FilamentCatalogShape();
    FilamentCostBounds();
    CandidatesCount(job, FilamentTypes);
    RankAlternativesSpec(job, FilamentTypes);
    RankedEntries(job, FilamentTypes);
  }

  /** Every candidate left out of the ranking saves no more than the last one kept. */
  lemma RankingIsTopThree(job: Job, cat: seq<FilamentType>)
    requires PositiveCosts(cat)
    ensures var r := RankAlternatives(job, cat);
      forall c :: c in Candidates(job, cat) ==> c in r || AtLeast(r[|r| - 1].savings, c.savings)
  {
    var all := SortBySavings(Candidates(job, cat));
    var r := RankAlternatives(job, cat);
    SortBySavingsSpec(Candidates(job, cat));
    RankAlternativesSpec(job, cat);
    assert r == Take(all, 3);
    forall c | c in Candidates(job, cat) ensures c in r || AtLeast(r[|r| - 1].savings, c.savings) {
      assert c in multiset(all);
      var k :| 0 <= k < |all| && all[k] == c;
      if k >= |r| {
        assert all[|r| - 1] == r[|r| - 1];
      } else {
        assert r[k] == c;
      }
    }
  }

  /** The starting job's candidates, priced against PLA at 25 per kg, in catalog order. */
  const DefaultJobCandidates: seq<Alternative> := [
    Alternative("ABS", 28.0, ["Strong", "Heat resistant"], Finite(-12.0)),
    Alternative("PETG", 32.0, ["Clear", "Chemical resistant"], Finite(-28.0)),
    Alternative("TPU", 45.0, ["Flexible", "Rubber-like"], Finite(-80.0)),
    Alternative("Wood Fill", 38.0, ["Wood-like finish", "Sandable"], Finite(-52.0)),
    Alternative("Carbon Fiber", 85.0, ["Ultra strong", "Lightweight"], Finite(-240.0))
  ]

  lemma DefaultJobPricing()
    ensures forall i :: 1 <= i < 6 ==>
      FilamentTypes[i].costPerKg > 0.0 && ToAlternative(DefaultJob, FilamentTypes[i]) == DefaultJobCandidates[i - 1]
  {
    FilamentCostBounds();
    assert ((25.0 - 28.0) / 25.0) * 100.0 == -12.0 && Round(-1200.0) == -1200;
    assert ((25.0 - 32.0) / 25.0) * 100.0 == -28.0 && Round(-2800.0) == -2800;
    assert ((25.0 - 45.0) / 25.0) * 100.0 == -80.0 && Round(-8000.0) == -8000;
    assert ((25.0 - 38.0) / 25.0) * 100.0 == -52.0 && Round(-5200.0) == -5200;
    assert ((25.0 - 85.0) / 25.0) * 100.0 == -240.0 && Round(-24000.0) == -24000;
  }

  lemma DefaultJobCandidatesValue()
    ensures Candidates(DefaultJob, FilamentTypes) == DefaultJobCandidates
  {
    var job, cat, c := DefaultJob, FilamentTypes, DefaultJobCandidates;
    FilamentCostBounds();
    DefaultJobPricing();
    assert Candidates(job, cat[6..]) == [];
    assert Candidates(job, cat[5..]) == c[4..];
    assert Candidates(job, cat[4..]) == c[3..];
    assert Candidates(job, cat[3..]) == c[2..];
    assert Candidates(job, cat[2..]) == c[1..];
    assert Candidates(job, cat[1..]) == c;
  }

  lemma SortCons(x: Alternative, s: seq<Alternative>)
    ensures SortBySavings([x] + s) == Insert(x, SortBySavings(s))
  {
    assert ([x] + s)[1..] == s;
  }

  lemma NamesCons(x: Alternative, s: seq<Alternative>)
    ensures Names([x] + s) == [x.name] + Names(s)
  {
    assert ([x] + s)[1..] == s;
  }

  /** Sorting five candidates whose savings strictly decrease except that the
      fourth beats the third. */
  lemma SortFive(a: Alternative, b: Alternative, c: Alternative, d: Alternative, e: Alternative)
    requires a.savings.Finite? && b.savings.Finite? && c.savings.Finite? && d.savings.Finite? && e.savings.Finite?
    requires a.savings.percent > b.savings.percent > d.savings.percent > c.savings.percent > e.savings.percent
    ensures SortBySavings([a, b, c, d, e]) == [a, b, d, c, e]
  {
    SortCons(e, []);
    assert SortBySavings([e]) == [e];
    SortCons(d, [e]);
    assert SortBySavings([d, e]) == [d, e];
    SortCons(c, [d, e]);
    assert Insert(c, [e]) == [c, e];
    assert SortBySavings([c, d, e]) == [d, c, e];
    SortCons(b, [c, d, e]);
    assert SortBySavings([b, c, d, e]) == [b, d, c, e];
    SortCons(a, [b, c, d, e]);
  }

  lemma NamesOfThree(a: Alternative, b: Alternative, c: Alternative)
    ensures Names([a, b, c]) == [a.name, b.name, c.name]
  {
    NamesCons(c, []);
    NamesCons(b, [c]);
    NamesCons(a, [b, c]);
  }

  /** The starting job (PLA at 25 per kg) is offered ABS, PETG and Wood Fill, in that order. */
  lemma DefaultJobRanking()
    ensures Names(Ranking(DefaultJob)) == ["ABS", "PETG", "Wood Fill"]
  {
    DefaultJobRankingValue();
    var c := DefaultJobCandidates;
    NamesOfThree(c[0], c[1], c[3]);
  }

  lemma DefaultJobSorted()
    ensures var c := DefaultJobCandidates; SortBySavings(c) == [c[0], c[1], c[3], c[2], c[4]]
  {
    var c := DefaultJobCandidates;
    assert c == [c[0], c[1], c[2], c[3], c[4]];
    SortFive(c[0], c[1], c[2], c[3], c[4]);
  }

  lemma DefaultJobRankingValue()
    ensures var c := DefaultJobCandidates; Ranking(DefaultJob) == [c[0], c[1], c[3]]
  {
    DefaultJobCandidatesValue();
    DefaultJobSorted();
    FilamentCostBounds();
    var c := DefaultJobCandidates;
    var sorted := [c[0], c[1], c[3], c[2], c[4]];
    assert Take(sorted, 3) == [c[0], c[1], c[3]];
  }

  lemma {:induction false} SortKeepsEqualSavings(s: seq<Alternative>)
    requires forall a :: a in s ==> a.savings.MinusInfinity?
    ensures SortBySavings(s) == s
  {
    if s != [] {
      SortKeepsEqualSavings(s[1..]);
      assert s == [s[0]] + s[1..];
    }
  }

  /** A zero cost per kg prices every other entry at -Infinity; the sort then sees only
      ties and, being stable, keeps catalog order. */
  lemma ZeroCostRanking(job: Job)
    requires job.filamentCostPerKg == 0.0
    ensures PositiveCosts(FilamentTypes) && Ranking(job) == Take(Candidates(job, FilamentTypes), 3)
    ensures forall a :: a in Ranking(job) ==> a.savings == MinusInfinity
  {
    FilamentCostBounds();
    var c := Candidates(job, FilamentTypes);
    CandidatesSpec(job, FilamentTypes);
    forall a | a in c ensures a.savings.MinusInfinity? {
      var f :| f in FilamentTypes && f.name != job.filamentType && a == ToAlternative(job, f);
    }
    SortKeepsEqualSavings(c);
    forall a | a in Ranking(job) ensures a.savings == MinusInfinity {
      assert Ranking(job) == c[..|Ranking(job)|];
    }
  }
}
