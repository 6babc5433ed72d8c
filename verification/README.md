# Expected Monetary Value calculator — a Dafny model

The calculator compares two business alternatives. Each alternative has two
mutually exclusive scenarios. Each scenario has a unit volume, a unit price and
a probability. The page computes each alternative's Expected Monetary Value
(EMV), which is the probability-weighted sum of the scenario revenues, and
recommends one alternative.

- Alternative "(b)" uses gross revenue per scenario: units × price. The source
  computes it with `calcular_vme_opcion_a`.
- Alternative "(c)" first takes a one-time study cost off each scenario's
  revenue. The source computes it with `calcular_vme_opcion_b`.
- The function suffixes a/b in the source correspond to the page labels
  (b)/(c). The model uses the page labels.

The model has four modules:

- `Probability` (probability.dfy): the check an entered probability pair must
  pass. Its sum must lie within 1e-6 of one. The tolerance is the exact
  rational 1/1000000. On failure the check yields a pair of absent values.
- `Evaluator` (evaluator.dfy): the two evaluators over exact reals. It also
  has an independent reference definition of expected value, a
  weighted sum over a list of outcomes, with lemmas that relate the two
  evaluators to it and to each other.
- `Decision` (decision.dfy): the recommendation rule. "(c)" wins only with a
  strictly greater EMV, so a tie goes to "(b)".
- `Session` (session.dfy): one pass of the page. It starts from the default
  parameters. Entered values replace them when the user customises. An entered
  probability pair replaces the default pair only when it passes the check. A
  final guard stops the page if a probability is absent. Both alternatives are
  then evaluated and one is recommended.

The page opens with customisation switched on (app_vme.py:67) and both
probability pairs at 0.5/0.5 (app_vme.py:7-8). It therefore first shows an EMV
of 48,125,000 for "(b)" and 54,275,000 for "(c)" (`Session.OpeningPage`). The
reference values of `Session.DefaultsReproduceReference` appear only after
customisation is switched off.

An entered pair that fails the check shows an error in the sidebar
(app_vme.py:11), and the default pair stays in use (app_vme.py:80-81, 94-95).
The entered units and prices are still used. `Session.GuardNeverFires` proves
that the guard at app_vme.py:98-100 never stops a pass.

## Model

| member | source | states |
|---|---|---|
| `Probability.Request` | app_vme.py:10-13 | the pair is accepted iff its sum lies in the closed interval [1 − 1e-6, 1 + 1e-6]; an accepted pair is returned unchanged, and a rejected one gives both components absent |
| `Probability.BoundaryExamples` | app_vme.py:10-13 | {0.5, 0.5} and {1.0, 0.0} pass; {0.5, 0.49} and {0.6, 0.5} fail; a sum off by 5e-7 still passes, and one off by 2e-6 fails |
| `Evaluator.EvaluateGross` | app_vme.py:15-19 | each reported revenue is its scenario's units × price, and the EMV equals the reference weighted sum of those revenues with the alternative's probabilities |
| `Evaluator.EvaluateNet` | app_vme.py:21-27 | each reported revenue is units × price minus the study cost, and the EMV equals the reference weighted sum of those net revenues |
| `Evaluator.ZeroCostIsGross` | app_vme.py:15-27 | with study cost 0 the "(c)" evaluator returns exactly the triple the "(b)" evaluator returns on the same alternative |
| `Evaluator.NetIsShiftedGross` | app_vme.py:15-27 | for any cost, the net revenues are the gross ones minus the cost, and the net EMV is the gross EMV minus cost × (p1 + p2) |
| `Evaluator.NetIsGrossMinusCost` | app_vme.py:21-27 | when p1 + p2 = 1 exactly, the "(c)" EMV is the gross EMV minus the study cost |
| `Evaluator.NetNearGrossMinusCost` | app_vme.py:21-27 | for a pair that passes the 1e-6 check, the "(c)" EMV differs from gross EMV minus the cost by at most cost × 1e-6 |
| `Evaluator.NothingSoldLosesCost` | app_vme.py:21-27 | with zero units or zero price in both scenarios and p1 + p2 = 1, the gross EMV is 0 and the "(c)" EMV is −cost |
| `Evaluator.EmvBetweenRevenues` | app_vme.py:15-27 | with non-negative probabilities summing to one, an evaluator's EMV lies between its smaller and its larger scenario revenue |
| `Decision.Recommend` | app_vme.py:118-121 | the recommended alternative has the larger EMV; "(c)" is chosen iff its EMV is strictly greater, so equal EMVs recommend "(b)" |
| `Session.CollectAlternative` | app_vme.py:59-95 | collected probabilities are never absent; without customisation the defaults are used; with it the entered scenarios are used, and the entered probabilities replace the defaults iff they pass the check |
| `Session.Run` | app_vme.py:97-121 | every pass is shown; with customisation the page holds the entered units, prices and study cost, without it the whole default alternatives and cost; the shown results are the "(b)" and "(c)" evaluations of exactly those alternatives and that cost, and the choice is their recommendation (this contract also covers the cost selection of `Session.CollectCost`, app_vme.py:65 and 92) |
| `Session.Ready` | app_vme.py:98-100 | the guard lets a pass through iff none of the four probabilities is absent, and passes the collected values on unchanged |
| `Session.GuardNeverFires` | app_vme.py:79-100 | every pass is shown, never stopped; both shown probability pairs pass the check, and each is the entered pair or the default pair (0.6/0.4 for "(b)", 0.7/0.3 for "(c)") |
| `Session.ShownPageIsConsistent` | app_vme.py:103-121 | on a shown page the "(b)" revenues are the gross revenues of the shown scenarios and the "(c)" revenues are those minus the collected cost, each EMV is the reference weighted sum of its revenues; it recommends "(c)" iff that EMV is strictly greater; valid entered alternatives reach the evaluators unchanged, and an invalid pair keeps the entered units and prices with the default probabilities |
| `Session.DefaultsReproduceReference` | app_vme.py:59-121 | without customisation, "(b)" has revenues 55,000,000 / 41,250,000 and EMV 49,500,000; "(c)" has net revenues 56,150,000 / 52,400,000 and EMV 55,025,000; the recommendation is "(c)" |
| `Session.OpeningPage` | app_vme.py:67-95 | with the toggle on and every widget at its starting value (default units, prices and cost, probabilities 0.5/0.5), "(b)" shows revenues 55,000,000 / 41,250,000 and EMV 48,125,000; "(c)" shows 56,150,000 / 52,400,000 and EMV 54,275,000; the recommendation is "(c)" |
| `Session.ShownPageWithinRanges` | app_vme.py:72-92 | when customising with inputs inside the widget ranges, or not customising at all, "(b)" revenues lie in [0, 1e10] and its EMV is non-negative; the "(c)" EMV is at least −cost × (1 + 1e-6) |
| `Session.GrossWithinRanges` | app_vme.py:15-19 | for an alternative inside the widget ranges, gross revenues lie in [0, 1e10] and the gross EMV is non-negative |
| `Session.NetWithinRanges` | app_vme.py:21-27 | for an alternative inside the widget ranges whose pair passes the check, the "(c)" EMV is at least −cost × (1 + 1e-6) |

## Left out

- Streamlit rendering is not modelled. This covers the page config, expander, sidebar headers, the error and warning messages, `st.stop`, metrics, the success message and the bar chart. It is presentation only. `Session.Page` records what a pass would display.
- `mostrar_resultados` (app_vme.py:29-45) and the pandas tables are not modelled. They only format numbers through a foreign library.
- The input widgets (app_vme.py:7-8, 72-92) are inputs to the model. Their ranges become the predicate `Session.InWidgetRange`, which only `Session.ShownPageWithinRanges` assumes, and only when customising.
- IEEE-754 floating point is not modelled. All amounts are exact reals and unit counts are naturals. The 1e-6 tolerance exists to absorb float drift, which cannot occur over reals.
- The page has no export or download.
- Interaction state across reruns is not modelled. Each pass is the pure function `Session.Run` of the sidebar's values.
