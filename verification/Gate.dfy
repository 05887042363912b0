/** The evaluation report (report.py) and the regression gate that re-checks it (gate.py). */
module Gate {
  import opened Prelude

  datatype Case = Case(id: string, status: string, scores: map<string, real>)
  datatype Aggregate = Aggregate(scorer: string, mean: real)
  datatype Report = Report(dataset: string, seeds: int, caseCount: int, quality: seq<Aggregate>, cases: seq<Case>)

  /** What can be wrong with one candidate's own evidence. */
  datatype Fault =
    | BadAggregates
    | NoEvidence
    | BadSeeds
    | BadMean
    | RepeatedCases
    | NotCompleted(id: string)
    | BadScores(id: string)
    | Mismatch(scorer: string)

  datatype Side = Current | Baseline

  datatype GateError = Evidence(side: Side, fault: Fault) | MissingScorer(scorer: string) | OtherDataset | OtherCases

  datatype Regression = Regression(scorer: string, baseline: real, current: real, delta: real)
  datatype GateResult = GateResult(passed: bool, regressions: seq<Regression>, errors: seq<GateError>)

  function ScoreOf(c: Case, name: string): real {
    if name in c.scores then c.scores[name] else 0.0
  }

  function Total(cases: seq<Case>, name: string): real {
    if cases == [] then 0.0 else Total(cases[..|cases| - 1], name) + ScoreOf(cases[|cases| - 1], name)
  }

  function Mean(cases: seq<Case>, name: string): real
    requires cases != []
  {
    Total(cases, name) / |cases| as real
  }

  lemma MeanOfOne(c: Case, name: string)
    ensures Mean([c], name) == if name in c.scores then c.scores[name] else 0.0
  {
    var one := [c];
    assert one[..|one| - 1] == [];
    assert Total(one, name) == Total([], name) + ScoreOf(c, name);
    assert Mean(one, name) == ScoreOf(c, name) / 1.0;
  }

  lemma {:induction false} TotalOfParts(a: seq<Case>, b: seq<Case>, name: string)
    ensures Total(a + b, name) == Total(a, name) + Total(b, name)
  {
    if b == [] {
      assert a + b == a;
    } else {
      TotalOfParts(a, b[..|b| - 1], name);
      assert (a + b)[..|a + b| - 1] == a + b[..|b| - 1];
    }
  }

  /** Every case weighs the same: a mean is what the means of two parts make by their sizes. */
  lemma MeanOfParts(a: seq<Case>, b: seq<Case>, name: string)
    requires a != [] && b != []
    ensures Mean(a + b, name) * (|a| + |b|) as real == Mean(a, name) * |a| as real + Mean(b, name) * |b| as real
  {
    TotalOfParts(a, b, name);
  }

  function ScorerNames(r: Report): (names: seq<string>)
    ensures |names| == |r.quality| && forall i :: 0 <= i < |names| ==> names[i] == r.quality[i].scorer
  {
    seq(|r.quality|, i requires 0 <= i < |r.quality| => r.quality[i].scorer)
  }

  function CaseIds(cases: seq<Case>): (ids: seq<string>)
    ensures |ids| == |cases| && forall i :: 0 <= i < |ids| ==> ids[i] == cases[i].id
  {
    seq(|cases|, i requires 0 <= i < |cases| => cases[i].id)
  }

  // ----- Aggregation

  ghost predicate Scored(cases: seq<Case>, name: string) {
    exists i :: 0 <= i < |cases| && name in cases[i].scores
  }

  /** A report that aggregate may build: one mean per scorer that any case mentions, missing scores as 0. */
  ghost predicate AggregateOf(r: Report, dataset: string, seeds: int, results: seq<Case>) {
    && r.dataset == dataset && r.seeds == seeds && r.cases == results && r.caseCount == |results|
    && NoDup(ScorerNames(r))
    && (forall name :: name in ScorerNames(r) <==> Scored(results, name))
    && (forall q :: q in r.quality ==> q.mean == if results == [] then 0.0 else Mean(results, q.scorer))
  }

  lemma ScoredMore(cases: seq<Case>, i: nat)
    requires i < |cases|
    ensures forall name :: Scored(cases[..i + 1], name) <==> Scored(cases[..i], name) || name in cases[i].scores
  {
  }

  /** aggregate; the keys of one case's scores are visited in an arbitrary order. */
  method AggregateResults(dataset: string, seeds: int, results: seq<Case>) returns (report: Report)
    ensures AggregateOf(report, dataset, seeds, results)
  {
    var names: seq<string> := [];
    for i := 0 to |results|
      invariant NoDup(names)
      invariant forall name :: name in names <==> Scored(results[..i], name)
    {
      var keys := results[i].scores.Keys;
      while keys != {}
        invariant NoDup(names) && keys <= results[i].scores.Keys
        invariant forall name :: name in names <==> Scored(results[..i], name) || name in results[i].scores.Keys - keys
      {
        var name :| name in keys;
        keys := keys - {name};
        if name !in names {
          names := names + [name];
        }
      }
      ScoredMore(results, i);
    }
    TakeAll(results);
    var quality := seq(|names|, i requires 0 <= i < |names| =>
      Aggregate(names[i], if results == [] then 0.0 else Mean(results, names[i])));
    report := Report(dataset, seeds, |results|, quality, results);
    assert ScorerNames(report) == names;
  }

  // ----- What the gate accepts

  predicate InUnit(x: real) {
    0.0 <= x <= 1.0
  }

  function Abs(x: real): real {
    if x < 0.0 then -x else x
  }

  /** math.isclose with both tolerances at 1e-9. */
  predicate IsClose(a: real, b: real) {
    var d, tolerance := Abs(a - b), 0.000000001;
    a == b || d <= Abs(tolerance * a) || d <= Abs(tolerance * b) || d <= tolerance
  }

  /** Close: within 1e-9 of each other, absolutely or relative to the larger one. */
  lemma IsCloseExactly(a: real, b: real)
    ensures
      var larger := if (if a < 0.0 then -a else a) < (if b < 0.0 then -b else b) then b else a;
      var size := if larger < 0.0 then -larger else larger;
      var tolerance := if size <= 1.0 then 0.000000001 else 0.000000001 * size;
      IsClose(a, b) <==> -tolerance <= a - b <= tolerance
  {
  }

  function NameSet(r: Report): set<string> {
    set name | name in ScorerNames(r)
  }

  predicate GoodScores(r: Report, c: Case) {
    && c.scores.Keys == NameSet(r)
    && (forall name :: name in c.scores ==> InUnit(c.scores[name]))
  }

  /** All cases have the score, and their mean is not the aggregate's. */
  predicate Contradicted(cases: seq<Case>, q: Aggregate) {
    && cases != [] && (forall c :: c in cases ==> q.scorer in c.scores)
    && !IsClose(q.mean, Mean(cases, q.scorer))
  }

  /** Only a mean over a score that every case has can be contradicted, and by more than rounding. */
  lemma ContradictedExactly(cases: seq<Case>, q: Aggregate)
    ensures Contradicted(cases, q) <==>
              && cases != [] && (forall i :: 0 <= i < |cases| ==> q.scorer in cases[i].scores)
              && !IsClose(q.mean, Mean(cases, q.scorer))
  {
    forall c | c in cases
      ensures exists i :: 0 <= i < |cases| && cases[i] == c
    {
    }
  }

  ghost predicate CaseFault(r: Report, cases: seq<Case>, f: Fault) {
    match f
    case NotCompleted(id) => exists c :: c in cases && c.id == id && c.status != "completed"
    case BadScores(id) => exists c :: c in cases && c.id == id && !GoodScores(r, c)
    case _ => false
  }

  ghost predicate MeanFault(r: Report, quality: seq<Aggregate>, f: Fault) {
    f.Mismatch? && exists q :: q in quality && q.scorer == f.scorer && Contradicted(r.cases, q)
  }

  /** Fault f is present in candidate r. */
  ghost predicate Faulty(r: Report, f: Fault) {
    match f
    case BadAggregates => r.quality == [] || !NoDup(ScorerNames(r))
    case NoEvidence => r.caseCount < 1 || |r.cases| != r.caseCount
    case BadSeeds => r.seeds < 1
    case BadMean => exists q :: q in r.quality && !InUnit(q.mean)
    case RepeatedCases => !NoDup(CaseIds(r.cases))
    case Mismatch(_) => MeanFault(r, r.quality, f)
    case _ => CaseFault(r, r.cases, f)
  }

  /** No fault at all, said at once. */
  ghost predicate Faultless(r: Report) {
    && r.quality != [] && NoDup(ScorerNames(r))
    && 1 <= r.caseCount == |r.cases| && r.seeds >= 1 && NoDup(CaseIds(r.cases))
    && (forall q :: q in r.quality ==> InUnit(q.mean) && !Contradicted(r.cases, q))
    && (forall c :: c in r.cases ==> c.status == "completed" && GoodScores(r, c))
  }

  lemma FaultlessHasNoFault(r: Report)
    ensures Faultless(r) <==> forall f :: !Faulty(r, f)
  {
    if forall f :: !Faulty(r, f) {
      assert !Faulty(r, BadSeeds) && !Faulty(r, NoEvidence) && !Faulty(r, RepeatedCases);
      assert !Faulty(r, BadAggregates) && !Faulty(r, BadMean);
      forall q | q in r.quality
        ensures !Contradicted(r.cases, q)
      {
        assert !Faulty(r, Mismatch(q.scorer));
      }
      forall c | c in r.cases
        ensures c.status == "completed" && GoodScores(r, c)
      {
        assert !Faulty(r, NotCompleted(c.id)) && !Faulty(r, BadScores(c.id));
      }
    }
  }

  /** Error e is present in the comparison. */
  ghost predicate Wrong(report: Report, baseline: Option<Report>, e: GateError) {
    match e
    case Evidence(Current, fault) => Faulty(report, fault)
    case Evidence(Baseline, fault) => baseline.Some? && Faulty(baseline.value, fault)
    case MissingScorer(name) => baseline.Some? && name in ScorerNames(baseline.value) && name !in ScorerNames(report)
    case OtherDataset =>
      baseline.Some? && (report.dataset != baseline.value.dataset || report.seeds != baseline.value.seeds)
    case OtherCases => baseline.Some? && Elems(CaseIds(report.cases)) != Elems(CaseIds(baseline.value.cases))
  }

  /** r is the record of a scorer whose aggregate fell by more than the limit. */
  ghost predicate Fell(report: Report, base: Report, limit: real, r: Regression) {
    && Aggregate(r.scorer, r.current) in report.quality && Aggregate(r.scorer, r.baseline) in base.quality
    && r.delta == r.current - r.baseline < -limit
  }

  /** What passing the gate means. */
  ghost predicate Passes(report: Report, baseline: Option<Report>, limit: real) {
    && InUnit(limit)
    && (forall e :: !Wrong(report, baseline, e))
    && (baseline.Some? ==> forall r :: !Fell(report, baseline.value, limit, r))
  }

  // ----- The gate

  method CheckCases(r: Report) returns (faults: seq<Fault>)
    ensures forall f :: f in faults <==> CaseFault(r, r.cases, f)
  {
    faults := [];
    for i := 0 to |r.cases|
      invariant forall f :: f in faults <==> CaseFault(r, r.cases[..i], f)
    {
      var c, before := r.cases[i], r.cases[..i];
      if c.status != "completed" { faults := faults + [NotCompleted(c.id)]; }
      if !GoodScores(r, c) { faults := faults + [BadScores(c.id)]; }
      TakeMore(r.cases, i);
      assert forall d :: d in r.cases[..i + 1] <==> d in before || d == c;
    }
    TakeAll(r.cases);
  }

  method CheckMeans(r: Report) returns (faults: seq<Fault>)
    ensures forall f :: f in faults <==> MeanFault(r, r.quality, f)
  {
    faults := [];
    for i := 0 to |r.quality|
      invariant forall f :: f in faults <==> MeanFault(r, r.quality[..i], f)
    {
      var q, before := r.quality[i], r.quality[..i];
      if Contradicted(r.cases, q) { faults := faults + [Mismatch(q.scorer)]; }
      TakeMore(r.quality, i);
      assert forall d :: d in r.quality[..i + 1] <==> d in before || d == q;
    }
    TakeAll(r.quality);
  }

  method Repeats(names: seq<string>) returns (repeats: bool)
    ensures repeats <==> !NoDup(names)
  {
    var distinct := set name | name in names;
    assert distinct == Elems(names);
    CardNoDup(names);
    if NoDup(names) { NoDupCard(names); }
    repeats := |names| != |distinct|;
  }

  /** One round of the loop over the two candidates: every fault of the candidate, and no other. */
  method CheckEvidence(r: Report) returns (faults: seq<Fault>)
    ensures forall f :: f in faults <==> Faulty(r, f)
  {
    faults := [];
    var repeated := Repeats(ScorerNames(r));
    if r.quality == [] || repeated { faults := faults + [BadAggregates]; }
    if r.caseCount < 1 || |r.cases| != r.caseCount { faults := faults + [NoEvidence]; }
    if r.seeds < 1 { faults := faults + [BadSeeds]; }
    if exists q :: q in r.quality && !InUnit(q.mean) { faults := faults + [BadMean]; }
    repeated := Repeats(CaseIds(r.cases));
    if repeated { faults := faults + [RepeatedCases]; }
    var caseFaults := CheckCases(r);
    var meanFaults := CheckMeans(r);
    faults := faults + caseFaults + meanFaults;
  }

  method Labelled(side: Side, faults: seq<Fault>) returns (errors: seq<GateError>)
    ensures forall e :: e in errors <==> e.Evidence? && e.side == side && e.fault in faults
  {
    errors := seq(|faults|, i requires 0 <= i < |faults| => Evidence(side, faults[i]));
    forall f | f in faults
      ensures Evidence(side, f) in errors
    {
      var i :| 0 <= i < |faults| && faults[i] == f;
      assert errors[i] == Evidence(side, f);
    }
  }

  method CompareCoverage(report: Report, base: Report) returns (errors: seq<GateError>)
    ensures forall e :: e in errors <==> !e.Evidence? && Wrong(report, Some(base), e)
  {
    errors := [];
    var missing := NameSet(base) - NameSet(report);
    ghost var all := missing;
    while missing != {}
      invariant missing <= all
      invariant forall e :: e in errors <==> e.MissingScorer? && e.scorer in all - missing
    {
      var name :| name in missing;
      missing := missing - {name};
      errors := errors + [MissingScorer(name)];
    }
    if report.dataset != base.dataset || report.seeds != base.seeds { errors := errors + [OtherDataset]; }
    var mine, theirs := set id | id in CaseIds(report.cases), set id | id in CaseIds(base.cases);
    assert mine == Elems(CaseIds(report.cases)) && theirs == Elems(CaseIds(base.cases));
    if mine != theirs { errors := errors + [OtherCases]; }
  }

  /** base_by_name: the baseline's mean by scorer; with repeated scorers the last would win. */
  function MeanByName(quality: seq<Aggregate>): map<string, real> {
    if quality == [] then map[]
    else
      var last := quality[|quality| - 1];
      MeanByName(quality[..|quality| - 1])[last.scorer := last.mean]
  }

  lemma {:induction false} MeanByNameFinds(quality: seq<Aggregate>)
    requires forall i, j :: 0 <= i < j < |quality| ==> quality[i].scorer != quality[j].scorer
    ensures forall name, mean :: name in MeanByName(quality) && MeanByName(quality)[name] == mean <==>
              Aggregate(name, mean) in quality
  {
    if quality == [] {
    } else {
      var front, last := quality[..|quality| - 1], quality[|quality| - 1];
      MeanByNameFinds(front);
      assert quality == front + [last];
    }
  }

  method FindRegressions(report: Report, base: Report, limit: real) returns (regressions: seq<Regression>)
    requires NoDup(ScorerNames(base))
    ensures forall r :: r in regressions <==> Fell(report, base, limit, r)
  {
    assert forall i :: 0 <= i < |base.quality| ==> ScorerNames(base)[i] == base.quality[i].scorer;
    MeanByNameFinds(base.quality);
    var baseByName := MeanByName(base.quality);
    regressions := [];
    for i := 0 to |report.quality|
      invariant forall r :: r in regressions <==>
        Aggregate(r.scorer, r.current) in report.quality[..i] && Fell(report, base, limit, r)
    {
      var q, before := report.quality[i], report.quality[..i];
      TakeMore(report.quality, i);
      assert forall d :: d in report.quality[..i + 1] <==> d in before || d == q;
      if q.scorer in baseByName {
        var mean := baseByName[q.scorer];
        assert Aggregate(q.scorer, mean) in base.quality;
        var delta := q.mean - mean;
        if delta < -limit {
          regressions := regressions + [Regression(q.scorer, mean, q.mean, delta)];
        }
      }
    }
    TakeAll(report.quality);
  }

  /** evaluate_gate: the errors are exactly what is wrong, and the regressions exactly what fell. */
  method EvaluateGate(report: Report, baseline: Option<Report>, limit: real)
    returns (result: Result<GateResult, string>)
    ensures result.Failure? <==> limit < 0.0 || limit > 1.0
    ensures result.Success? ==> (result.value.passed <==> Passes(report, baseline, limit))
    ensures result.Success? ==> forall e :: e in result.value.errors <==> Wrong(report, baseline, e)
    ensures result.Success? ==> forall r :: r in result.value.regressions <==>
              result.value.errors == [] && baseline.Some? && Fell(report, baseline.value, limit, r)
  {
    if !InUnit(limit) { return Failure("max_regression must be between zero and one"); }
    var faults := CheckEvidence(report);
    var errors := Labelled(Current, faults);
    if baseline.Some? {
      faults := CheckEvidence(baseline.value);
      var more := Labelled(Baseline, faults);
      var comparison := CompareCoverage(report, baseline.value);
      errors := errors + more + comparison;
    }
    assert forall e :: e in errors <==> Wrong(report, baseline, e);
    if errors != [] {
      assert Wrong(report, baseline, errors[0]);
    }
    if errors != [] || baseline.None? {
      return Success(GateResult(errors == [], [], errors));
    }
    assert !Wrong(report, baseline, Evidence(Baseline, BadAggregates));
    var regressions := FindRegressions(report, baseline.value, limit);
    if regressions != [] {
      assert Fell(report, baseline.value, limit, regressions[0]);
    }
    return Success(GateResult(regressions == [], regressions, []));
  }

  // ----- What the two together promise

  ghost predicate SameScorers(results: seq<Case>, names: set<string>) {
    forall c :: c in results ==> c.scores.Keys == names
  }

  lemma SharedScorers(results: seq<Case>, names: set<string>)
    requires results != [] && SameScorers(results, names)
    ensures forall name :: Scored(results, name) <==> name in names
  {
    assert results[0] in results;
    forall name | Scored(results, name)
      ensures name in names
    {
      var i :| 0 <= i < |results| && name in results[i].scores;
      assert results[i] in results;
    }
  }

  /** Evidence fit for the gate: completed, differently named cases with one nonempty set of unit scores. */
  ghost predicate Sound(seeds: int, results: seq<Case>) {
    && seeds >= 1 && results != [] && NoDup(CaseIds(results))
    && (forall c :: c in results ==> c.status == "completed")
    && results[0].scores.Keys != {} && SameScorers(results, results[0].scores.Keys)
    && (forall c, name :: c in results && name in c.scores ==> InUnit(c.scores[name]))
  }

  lemma {:induction false} TotalInUnit(cases: seq<Case>, name: string)
    requires forall c :: c in cases ==> InUnit(ScoreOf(c, name))
    ensures 0.0 <= Total(cases, name) <= |cases| as real
  {
    if cases == [] {
    } else {
      TotalInUnit(cases[..|cases| - 1], name);
      assert cases[|cases| - 1] in cases;
    }
  }

  lemma Ratio(t: real, n: real)
    requires 0.0 <= t <= n && n > 0.0
    ensures InUnit(t / n)
  {
    var q := t / n;
    assert q * n == t;
    assert q > 1.0 ==> (q - 1.0) * n > 0.0;
    assert q < 0.0 ==> q * n < 0.0;
  }

  lemma MeanInUnit(cases: seq<Case>, name: string)
    requires cases != [] && forall c :: c in cases ==> InUnit(ScoreOf(c, name))
    ensures InUnit(Mean(cases, name))
  {
    TotalInUnit(cases, name);
    Ratio(Total(cases, name), |cases| as real);
  }

  lemma NamesOf(r: Report)
    ensures forall name :: name in ScorerNames(r) <==> exists q :: q in r.quality && q.scorer == name
  {
    forall q | q in r.quality
      ensures q.scorer in ScorerNames(r)
    {
      var i :| 0 <= i < |r.quality| && r.quality[i] == q;
      assert ScorerNames(r)[i] == q.scorer;
    }
  }

  lemma MeanIsItself(results: seq<Case>, name: string)
    requires results != []
    ensures IsClose(Mean(results, name), Mean(results, name))
  {
  }

  lemma SoundScores(r: Report, results: seq<Case>, names: set<string>)
    requires SameScorers(results, names) && NameSet(r) == names
    requires forall c, name :: c in results && name in c.scores ==> InUnit(c.scores[name])
    ensures forall c :: c in results ==> GoodScores(r, c)
  {
    hide NameSet;
  }

  lemma SoundAggregate(r: Report, dataset: string, seeds: int, results: seq<Case>)
    requires AggregateOf(r, dataset, seeds, results) && Sound(seeds, results)
    ensures Faultless(r)
  {
    hide Mean, IsClose, Scored, ScorerNames, SameScorers;
    NamesOf(r);
    var names := results[0].scores.Keys;
    SharedScorers(results, names);
    assert NameSet(r) == names;
    SoundScores(r, results, names);
    forall q | q in r.quality
      ensures InUnit(q.mean) && !Contradicted(r.cases, q)
    {
      MeanInUnit(results, q.scorer);
      MeanIsItself(results, q.scorer);
    }
    var name :| name in names;
    assert name in ScorerNames(r);
  }

  /** An aggregated report shows no fault exactly when the results it was made from are sound. */
  lemma AggregateIsFaultless(r: Report, dataset: string, seeds: int, results: seq<Case>)
    requires AggregateOf(r, dataset, seeds, results)
    ensures Faultless(r) <==> Sound(seeds, results)
  {
    hide Contradicted, Mean, Scored;
    if Sound(seeds, results) {
      SoundAggregate(r, dataset, seeds, results);
    }
    if Faultless(r) {
      assert results[0] in results && GoodScores(r, results[0]);
      assert ScorerNames(r)[0] in NameSet(r);
      assert SameScorers(results, NameSet(r));
    }
  }

  /** Alone, an aggregated report passes the gate exactly when its results are sound. */
  lemma AggregatePassesAlone(r: Report, dataset: string, seeds: int, results: seq<Case>, limit: real)
    requires AggregateOf(r, dataset, seeds, results) && InUnit(limit)
    ensures Passes(r, None, limit) <==> Sound(seeds, results)
  {
    hide Sound, Faultless, Faulty, AggregateOf;
    AggregateIsFaultless(r, dataset, seeds, results);
    FaultlessHasNoFault(r);
    forall f | Faulty(r, f)
      ensures Wrong(r, None, Evidence(Current, f))
    {
    }
  }

  lemma FaultlessSides(report: Report, base: Report)
    ensures (forall e :: !Wrong(report, Some(base), e)) <==>
              && Faultless(report) && Faultless(base)
              && Elems(ScorerNames(base)) <= Elems(ScorerNames(report))
              && report.dataset == base.dataset && report.seeds == base.seeds
              && Elems(CaseIds(report.cases)) == Elems(CaseIds(base.cases))
  {
    var baseline := Some(base);
    FaultlessHasNoFault(report);
    FaultlessHasNoFault(base);
    if forall e :: !Wrong(report, baseline, e) {
      forall f
        ensures !Faulty(report, f) && !Faulty(base, f)
      {
        assert !Wrong(report, baseline, Evidence(Current, f)) && !Wrong(report, baseline, Evidence(Baseline, f));
      }
      forall name | name in ScorerNames(base)
        ensures name in ScorerNames(report)
      {
        assert !Wrong(report, baseline, MissingScorer(name));
      }
      assert !Wrong(report, baseline, OtherDataset) && !Wrong(report, baseline, OtherCases);
    }
  }

  lemma FallsShowInTheMeans(report: Report, base: Report, limit: real)
    requires AggregateOf(report, report.dataset, report.seeds, report.cases) && report.cases != []
    requires AggregateOf(base, base.dataset, base.seeds, base.cases) && base.cases != []
    ensures forall r :: Fell(report, base, limit, r) ==>
              Scored(base.cases, r.scorer) && Mean(report.cases, r.scorer) < Mean(base.cases, r.scorer) - limit
  {
    hide Mean, Scored;
    NamesOf(report);
    NamesOf(base);
  }

  /**
   Against an aggregated baseline, an aggregated report passes exactly when both rest on sound
   results over the same dataset, seeds and cases, and no scorer of the baseline lost more than the
   limit in its mean over the cases. Scorers the baseline lacks do not matter.
   */
  lemma AggregatesPass(report: Report, base: Report, limit: real)
    requires AggregateOf(report, report.dataset, report.seeds, report.cases)
    requires AggregateOf(base, base.dataset, base.seeds, base.cases)
    requires InUnit(limit)
    ensures Passes(report, Some(base), limit) <==>
              && Sound(report.seeds, report.cases) && Sound(base.seeds, base.cases)
              && report.dataset == base.dataset && report.seeds == base.seeds
              && Elems(CaseIds(report.cases)) == Elems(CaseIds(base.cases))
              && (forall name :: Scored(base.cases, name) ==>
                    Scored(report.cases, name) && Mean(report.cases, name) >= Mean(base.cases, name) - limit)
  {
    hide Contradicted, GoodScores, Mean, Faultless, Wrong;
    AggregateIsFaultless(report, report.dataset, report.seeds, report.cases);
    AggregateIsFaultless(base, base.dataset, base.seeds, base.cases);
    FaultlessSides(report, base);
    NamesOf(report);
    NamesOf(base);
    if Passes(report, Some(base), limit) {
      forall name | Scored(base.cases, name)
        ensures Scored(report.cases, name) && Mean(report.cases, name) >= Mean(base.cases, name) - limit
      {
        assert name in ScorerNames(base) && name in Elems(ScorerNames(base));
        var b :| b in base.quality && b.scorer == name;
        assert name in ScorerNames(report);
        var q :| q in report.quality && q.scorer == name;
        assert b == Aggregate(name, b.mean) && q == Aggregate(name, q.mean);
        assert !Fell(report, base, limit, Regression(name, b.mean, q.mean, q.mean - b.mean));
      }
    } else if Sound(report.seeds, report.cases) && Sound(base.seeds, base.cases) {
      FallsShowInTheMeans(report, base, limit);
    }
  }

  lemma OneOfThemFell(a: Report, b: Report, c: Report, m1: real, m2: real, limit: real)
    requires Elems(ScorerNames(a)) <= Elems(ScorerNames(b)) && limit == m1 + m2
    ensures forall r :: Fell(c, a, limit, r) ==> exists r' :: Fell(b, a, m1, r') || Fell(c, b, m2, r')
  {
    NamesOf(a);
    NamesOf(b);
    forall r | Fell(c, a, limit, r)
      ensures exists r' :: Fell(b, a, m1, r') || Fell(c, b, m2, r')
    {
      assert r.scorer in Elems(ScorerNames(a)) && r.scorer in Elems(ScorerNames(b));
      var q :| q in b.quality && q.scorer == r.scorer;
      assert q == Aggregate(r.scorer, q.mean);
      var first := Regression(r.scorer, r.baseline, q.mean, q.mean - r.baseline);
      var second := Regression(r.scorer, q.mean, r.current, r.current - q.mean);
      assert Fell(b, a, m1, first) || Fell(c, b, m2, second);
    }
  }

  /** Passing gates compose: what B may lose against A and C against B, C may lose against A. */
  lemma GatesCompose(a: Report, b: Report, c: Report, m1: real, m2: real)
    requires Passes(b, Some(a), m1) && Passes(c, Some(b), m2) && m1 + m2 <= 1.0
    ensures Passes(c, Some(a), m1 + m2)
  {
    hide Contradicted, GoodScores, Faultless, Wrong;
    FaultlessSides(b, a);
    FaultlessSides(c, b);
    FaultlessSides(c, a);
    NamesOf(b);
    OneOfThemFell(a, b, c, m1, m2, m1 + m2);
  }

  lemma StatedMeanIsClose(r: Report, q: Aggregate)
    requires q in r.quality && Faultless(r)
    ensures r.cases != [] && Abs(q.mean - Mean(r.cases, q.scorer)) <= 0.000000001
  {
    NamesOf(r);
    forall c | c in r.cases
      ensures q.scorer in c.scores && InUnit(ScoreOf(c, q.scorer))
    {
      assert GoodScores(r, c);
      assert q.scorer in NameSet(r);
    }
    MeanInUnit(r.cases, q.scorer);
  }

  /**
   Whoever wrote the two reports, passing bounds the loss in the cases themselves: the aggregates
   the gate compares are each within 1e-9 of the mean of the scores that came with them.
   */
  lemma PassingBoundsTheCases(report: Report, base: Report, limit: real, name: string)
    requires Passes(report, Some(base), limit) && name in ScorerNames(base)
    ensures report.cases != [] && base.cases != []
    ensures Mean(report.cases, name) >= Mean(base.cases, name) - limit - 0.000000002
  {
    hide Contradicted, GoodScores, Faultless, Wrong, Mean;
    FaultlessSides(report, base);
    NamesOf(report);
    NamesOf(base);
    assert name in Elems(ScorerNames(base)) && name in Elems(ScorerNames(report));
    var q :| q in report.quality && q.scorer == name;
    var b :| b in base.quality && b.scorer == name;
    assert q == Aggregate(name, q.mean) && b == Aggregate(name, b.mean);
    StatedMeanIsClose(report, q);
    StatedMeanIsClose(base, b);
    assert !Fell(report, base, limit, Regression(name, b.mean, q.mean, q.mean - b.mean));
  }
}
