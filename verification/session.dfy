/** One pass of the calculator page: collect the parameters of both
    alternatives (defaults, possibly replaced by entered values), pass the
    final guard on absent probabilities, evaluate both alternatives and
    recommend one.

    An entered probability pair replaces the default pair only when it passes
    validation; an invalid pair is reported as an error and the default pair
    stays in use, while the entered units and prices are still taken. Hence
    the guard that stops the page when a probability is absent never fires.
 */
module Session {
  import opened Probability
  import opened Evaluator
  import opened Decision

  /** The values held by the sidebar on one pass. `b` and `c` carry the
      entered units, prices and probabilities of alternatives "(b)" and "(c)". */
  datatype Form = Form(customize: bool, b: Alternative, c: Alternative, cost: real)

  /** An alternative after collection: its probabilities may still be absent. */
  datatype Collected = Collected(first: Scenario, second: Scenario, p1: Option<real>, p2: Option<real>)

  /** What the page shows: nothing (the pass was stopped), or both evaluated
      alternatives with the recommendation. */
  datatype Page =
    | Stopped
    | Shown(b: Alternative, c: Alternative, cost: real,
            resultB: Evaluation, resultC: Evaluation, choice: Choice)

  // ---------------------------------------------------------------------------
  // Default parameters

  const DefaultB: Alternative := Alternative(Scenario(100000, 550.0), Scenario(75000, 550.0), 0.6, 0.4)
  const DefaultC: Alternative := Alternative(Scenario(75000, 750.0), Scenario(70000, 750.0), 0.7, 0.3)
  const DefaultCost: real := 100000.0

  // ---------------------------------------------------------------------------
  // Ranges the input widgets enforce

  predicate ScenarioInWidgetRange(s: Scenario) {
    s.units <= 1000000 && 0.0 <= s.price <= 10000.0
  }

  predicate AlternativeInWidgetRange(a: Alternative) {
    && ScenarioInWidgetRange(a.first)
    && ScenarioInWidgetRange(a.second)
    && InUnitRange(a.p1)
    && InUnitRange(a.p2)
  }

  predicate InWidgetRange(f: Form) {
    && AlternativeInWidgetRange(f.b)
    && AlternativeInWidgetRange(f.c)
    && 0.0 <= f.cost <= 1000000.0
  }

  // ---------------------------------------------------------------------------
  // Collection, guard, evaluation

  /** Collects one alternative. Without customisation the defaults are used.
      With it, the entered scenarios are used, and the entered probabilities
      only when they pass validation; otherwise the default pair stays. */
  function CollectAlternative(customize: bool, default: Alternative, entered: Alternative): (r: Collected)
    ensures r.p1.Some? && r.p2.Some?
    ensures !customize ==> r == Collected(default.first, default.second, Some(default.p1), Some(default.p2))
    ensures customize ==> r.first == entered.first && r.second == entered.second
    ensures customize && SumsToOne(entered.p1, entered.p2) ==>
              r.p1 == Some(entered.p1) && r.p2 == Some(entered.p2)
    ensures customize && !SumsToOne(entered.p1, entered.p2) ==>
              r.p1 == Some(default.p1) && r.p2 == Some(default.p2)
  {
    if !customize then
      Collected(default.first, default.second, Some(default.p1), Some(default.p2))
    else
      var current: MaybePair := (Some(default.p1), Some(default.p2));
      var requested := Request(entered.p1, entered.p2);
      var probs := if requested.0.Some? then requested else current;
      Collected(entered.first, entered.second, probs.0, probs.1)
  }

  /** The study cost: the entered one when customising, the default otherwise. */
  function CollectCost(f: Form): real
  {
    if f.customize then f.cost else DefaultCost
  }

  /** The final guard: both alternatives, when none of the four probabilities
      is absent, and nothing otherwise. */
  function Ready(b: Collected, c: Collected): (r: Option<(Alternative, Alternative)>)
    ensures r.Some? <==> b.p1.Some? && b.p2.Some? && c.p1.Some? && c.p2.Some?
    ensures r.Some? ==> r.value.0.first == b.first && r.value.0.second == b.second
                        && r.value.1.first == c.first && r.value.1.second == c.second
                        && Some(r.value.0.p1) == b.p1 && Some(r.value.0.p2) == b.p2
                        && Some(r.value.1.p1) == c.p1 && Some(r.value.1.p2) == c.p2
  {
    if b.p1.None? || b.p2.None? || c.p1.None? || c.p2.None? then None
    else Some((Alternative(b.first, b.second, b.p1.value, b.p2.value),
               Alternative(c.first, c.second, c.p1.value, c.p2.value)))
  }

  /** One full pass over the form. The page is always shown; it holds the
      entered units and prices when customising and the whole default
      alternatives otherwise, the matching study cost, the "(b)" and "(c)"
      evaluations of exactly those alternatives, and their recommendation. */
  function Run(f: Form): (p: Page)
    ensures p.Shown?
    ensures f.customize ==> p.b.first == f.b.first && p.b.second == f.b.second
                            && p.c.first == f.c.first && p.c.second == f.c.second
                            && p.cost == f.cost
    ensures !f.customize ==> p.b == DefaultB && p.c == DefaultC && p.cost == DefaultCost
    ensures p.resultB == EvaluateGross(p.b) && p.resultC == EvaluateNet(p.c, p.cost)
    ensures p.choice == Recommend(p.resultB.emv, p.resultC.emv)
  {
    var b := CollectAlternative(f.customize, DefaultB, f.b);
    var c := CollectAlternative(f.customize, DefaultC, f.c);
    var cost := CollectCost(f);
    match Ready(b, c)
    case None => Stopped
    case Some((altB, altC)) =>
      var resultB := EvaluateGross(altB);
      var resultC := EvaluateNet(altC, cost);
      Shown(altB, altC, cost, resultB, resultC, Recommend(resultB.emv, resultC.emv))
  }

  // ---------------------------------------------------------------------------
  // Properties of a pass

  /** The guard on absent probabilities never stops a pass: every pass shows
      a page whose probability pairs both pass validation, each pair being
      the entered one or the default one. */
  lemma GuardNeverFires(f: Form)
    ensures Run(f).Shown?
    ensures SumsToOne(Run(f).b.p1, Run(f).b.p2) && SumsToOne(Run(f).c.p1, Run(f).c.p2)
    ensures (Run(f).b.p1, Run(f).b.p2) in {(f.b.p1, f.b.p2), (DefaultB.p1, DefaultB.p2)}
    ensures (Run(f).c.p1, Run(f).c.p2) in {(f.c.p1, f.c.p2), (DefaultC.p1, DefaultC.p2)}
  {
    var b := CollectAlternative(f.customize, DefaultB, f.b);
    var c := CollectAlternative(f.customize, DefaultC, f.c);
    assert Ready(b, c).Some?;
  }

  /** A shown page carries the evaluations of exactly the collected
      alternatives, and recommends "(c)" only on a strictly greater EMV. */
  lemma ShownPageIsConsistent(f: Form)
    ensures Run(f).Shown?
    ensures Run(f).resultB.revenue1 == GrossRevenue(Run(f).b.first)
    ensures Run(f).resultB.revenue2 == GrossRevenue(Run(f).b.second)
    ensures Run(f).resultB.emv == Expected(Outcomes(Run(f).resultB, Run(f).b))
    ensures Run(f).resultC.emv == Expected(Outcomes(Run(f).resultC, Run(f).c))
    ensures Run(f).resultC.revenue1 == GrossRevenue(Run(f).c.first) - CollectCost(f)
    ensures Run(f).resultC.revenue2 == GrossRevenue(Run(f).c.second) - CollectCost(f)
    ensures Run(f).choice == OptionC <==> Run(f).resultC.emv > Run(f).resultB.emv
    ensures f.customize && SumsToOne(f.b.p1, f.b.p2) ==> Run(f).b == f.b
    ensures f.customize && SumsToOne(f.c.p1, f.c.p2) ==> Run(f).c == f.c
    ensures f.customize && !SumsToOne(f.b.p1, f.b.p2) ==>
              Run(f).b == Alternative(f.b.first, f.b.second, DefaultB.p1, DefaultB.p2)
    ensures f.customize && !SumsToOne(f.c.p1, f.c.p2) ==>
              Run(f).c == Alternative(f.c.first, f.c.second, DefaultC.p1, DefaultC.p2)
  {
    GuardNeverFires(f);
  }

  /** Without customisation the page reproduces the reference values, and
      recommends "(c)". */
  lemma DefaultsReproduceReference(f: Form)
    requires !f.customize
    ensures Run(f) == Shown(DefaultB, DefaultC, DefaultCost,
                            Evaluation(55000000.0, 41250000.0, 49500000.0),
                            Evaluation(56150000.0, 52400000.0, 55025000.0),
                            OptionC)
  {
  }

  /** The page opens customised, with every widget at its starting value:
      the default units, prices and cost, but both probability pairs at
      0.5/0.5. That pair passes the check and replaces the defaults. */
  lemma OpeningPage()
    ensures var f := Form(true,
                          Alternative(DefaultB.first, DefaultB.second, 0.5, 0.5),
                          Alternative(DefaultC.first, DefaultC.second, 0.5, 0.5),
                          DefaultCost);
            Run(f).resultB == Evaluation(55000000.0, 41250000.0, 48125000.0)
            && Run(f).resultC == Evaluation(56150000.0, 52400000.0, 54275000.0)
            && Run(f).choice == OptionC
  {
  }

  /** With inputs inside the widget ranges, which are only drawn when
      customising, the revenues of "(b)" lie in [0, 1e10] and its EMV is
      non-negative, while the EMV of "(c)" loses at most the study cost,
      inflated by the probability tolerance. */
  lemma ShownPageWithinRanges(f: Form)
    requires f.customize ==> InWidgetRange(f)
    ensures Run(f).Shown?
    ensures 0.0 <= Run(f).resultB.revenue1 <= 10000000000.0
    ensures 0.0 <= Run(f).resultB.revenue2 <= 10000000000.0
    ensures Run(f).resultB.emv >= 0.0
    ensures Run(f).resultC.emv >= -(Run(f).cost * (1.0 + Tolerance))
  {
    GuardNeverFires(f);
    var p := Run(f);
    assert AlternativeInWidgetRange(p.b) && AlternativeInWidgetRange(p.c) by {
      if !f.customize {
        assert p.b == DefaultB && p.c == DefaultC;
      }
    }
    assert p.cost >= 0.0;
    GrossWithinRanges(p.b);
    NetWithinRanges(p.c, p.cost);
  }

  lemma GrossWithinRanges(a: Alternative)
    requires AlternativeInWidgetRange(a)
    ensures 0.0 <= EvaluateGross(a).revenue1 <= 10000000000.0
    ensures 0.0 <= EvaluateGross(a).revenue2 <= 10000000000.0
    ensures EvaluateGross(a).emv >= 0.0
  {
    var r := EvaluateGross(a);
    ScenarioRevenueBounds(a.first);
    ScenarioRevenueBounds(a.second);
    ExpectedAtLeast(Outcomes(r, a), 0.0);
  }

  lemma NetWithinRanges(a: Alternative, cost: real)
    requires AlternativeInWidgetRange(a) && SumsToOne(a.p1, a.p2) && cost >= 0.0
    ensures EvaluateNet(a, cost).emv >= -(cost * (1.0 + Tolerance))
  {
    var r := EvaluateNet(a, cost);
    var os := Outcomes(r, a);
    ScenarioRevenueBounds(a.first);
    ScenarioRevenueBounds(a.second);
    ExpectedOfPair(os[0], os[1]);
    ExpectedAtLeast(os, -cost);
    ProductNonNegative(cost, 1.0 + Tolerance - TotalProb(os));
  }

  lemma ScenarioRevenueBounds(s: Scenario)
    requires ScenarioInWidgetRange(s)
    ensures 0.0 <= GrossRevenue(s) <= 10000000000.0
  {
    var u := s.units as real;
    assert 0.0 <= u <= 1000000.0;
    ProductNonNegative(u, s.price);
    ProductNonNegative(1000000.0 - u, s.price);
    ProductNonNegative(1000000.0, 10000.0 - s.price);
  }
}
