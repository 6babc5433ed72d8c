/** The Expected Monetary Value (EMV) evaluators of the two alternatives.

    Alternative "(b)" weights each scenario's gross revenue (units times unit
    price) by its probability. Alternative "(c)" first subtracts a one-time
    study cost from each scenario's revenue and then weights the net revenues.
    Both evaluators return the per-scenario revenues together with the EMV.

    Quantities are exact reals; unit counts are natural numbers.
 */
module Evaluator {
  import opened Probability

  /** One of two mutually exclusive future outcomes of an alternative. */
  datatype Scenario = Scenario(units: nat, price: real)

  /** An alternative's two scenarios with their probabilities. */
  datatype Alternative = Alternative(first: Scenario, second: Scenario, p1: real, p2: real)

  /** The result triple of an evaluator: revenue per scenario and the EMV. */
  datatype Evaluation = Evaluation(revenue1: real, revenue2: real, emv: real)

  /** A payoff together with the probability of receiving it. */
  datatype Outcome = Outcome(payoff: real, prob: real)

  // ---------------------------------------------------------------------------
  // Reference definition of the expected value of a list of weighted outcomes

  /** The probability-weighted sum of the payoffs. */
  function Expected(os: seq<Outcome>): real
  {
    if |os| == 0 then 0.0 else os[0].payoff * os[0].prob + Expected(os[1..])
  }

  /** The sum of the probabilities. */
  function TotalProb(os: seq<Outcome>): real
  {
    if |os| == 0 then 0.0 else os[0].prob + TotalProb(os[1..])
  }

  /** The same outcomes with `c` taken off every payoff; the probabilities,
      and so their total, are left alone. */
  function Shift(os: seq<Outcome>, c: real): (s: seq<Outcome>)
    ensures TotalProb(s) == TotalProb(os)
  {
    if |os| == 0 then []
    else
      var rest := Shift(os[1..], c);
      var s := [Outcome(os[0].payoff - c, os[0].prob)] + rest;
      assert s[1..] == rest;
      s
  }

  /** The two weighted outcomes an evaluation of `a` reports. */
  function Outcomes(e: Evaluation, a: Alternative): seq<Outcome>
  {
    [Outcome(e.revenue1, a.p1), Outcome(e.revenue2, a.p2)]
  }

  lemma ExpectedOfPair(x: Outcome, y: Outcome)
    ensures Expected([x, y]) == x.payoff * x.prob + y.payoff * y.prob
    ensures TotalProb([x, y]) == x.prob + y.prob
  {
    var s := [x, y];
    assert s[1..] == [y] && [y][1..] == [];
    assert Expected([y]) == y.payoff * y.prob + Expected([]);
    assert TotalProb([y]) == y.prob + TotalProb([]);
    assert Expected(s) == x.payoff * x.prob + Expected([y]);
    assert TotalProb(s) == x.prob + TotalProb([y]);
  }

  /** Taking `c` off every payoff takes `c` times the total probability off
      the expected value. */
  lemma {:induction false} ExpectedShift(os: seq<Outcome>, c: real)
    ensures Expected(Shift(os, c)) == Expected(os) - c * TotalProb(os)
  {
    if |os| > 0 {
      var s := Shift(os, c);
      ExpectedShift(os[1..], c);
      calc {
        Expected(s);
        (os[0].payoff - c) * os[0].prob + Expected(Shift(os[1..], c));
        (os[0].payoff - c) * os[0].prob + Expected(os[1..]) - c * TotalProb(os[1..]);
        Expected(os) - c * TotalProb(os);
      }
    }
  }

  /** With non-negative probabilities, a lower bound on every payoff scales
      to a lower bound on the expected value. */
  lemma {:induction false} ExpectedAtLeast(os: seq<Outcome>, lo: real)
    requires forall i :: 0 <= i < |os| ==> os[i].prob >= 0.0 && os[i].payoff >= lo
    ensures Expected(os) >= lo * TotalProb(os)
  {
    if |os| > 0 {
      ExpectedAtLeast(os[1..], lo);
      var o := os[0];
      assert (o.payoff - lo) * o.prob >= 0.0;
    }
  }

  /** With non-negative probabilities, an upper bound on every payoff scales
      to an upper bound on the expected value. */
  lemma {:induction false} ExpectedAtMost(os: seq<Outcome>, hi: real)
    requires forall i :: 0 <= i < |os| ==> os[i].prob >= 0.0 && os[i].payoff <= hi
    ensures Expected(os) <= hi * TotalProb(os)
  {
    if |os| > 0 {
      ExpectedAtMost(os[1..], hi);
      var o := os[0];
      assert (hi - o.payoff) * o.prob >= 0.0;
    }
  }

  // ---------------------------------------------------------------------------
  // The two evaluators

  /** Revenue of a scenario before any cost: units sold times unit price. */
  function GrossRevenue(s: Scenario): real
  {
    s.units as real * s.price
  }

  /** Alternative "(b)": gross revenue per scenario and its weighted sum. */
  function EvaluateGross(a: Alternative): (r: Evaluation)
    ensures r.revenue1 == GrossRevenue(a.first) && r.revenue2 == GrossRevenue(a.second)
    ensures r.emv == Expected(Outcomes(r, a))
  {
    var revenue1 := a.first.units as real * a.first.price;
    var revenue2 := a.second.units as real * a.second.price;
    var emv := (revenue1 * a.p1) + (revenue2 * a.p2);
    ExpectedOfPair(Outcome(revenue1, a.p1), Outcome(revenue2, a.p2));
    Evaluation(revenue1, revenue2, emv)
  }

  /** Alternative "(c)": gross revenue minus the study cost per scenario, and
      the weighted sum of these net revenues. */
  function EvaluateNet(a: Alternative, cost: real): (r: Evaluation)
    ensures r.revenue1 == GrossRevenue(a.first) - cost
    ensures r.revenue2 == GrossRevenue(a.second) - cost
    ensures r.emv == Expected(Outcomes(r, a))
  {
    var gross1 := a.first.units as real * a.first.price;
    var net1 := gross1 - cost;
    var gross2 := a.second.units as real * a.second.price;
    var net2 := gross2 - cost;
    var emv := (net1 * a.p1) + (net2 * a.p2);
    ExpectedOfPair(Outcome(net1, a.p1), Outcome(net2, a.p2));
    Evaluation(net1, net2, emv)
  }

  // ---------------------------------------------------------------------------
  // Properties relating the evaluators

  /** With no study cost, alternative "(c)" is evaluated exactly like "(b)". */
  lemma ZeroCostIsGross(a: Alternative)
    ensures EvaluateNet(a, 0.0) == EvaluateGross(a)
  {
  }

  /** Net evaluation is the gross evaluation with the study cost taken off each
      revenue, and the cost weighted by the total probability taken off the EMV. */
  lemma NetIsShiftedGross(a: Alternative, cost: real)
    ensures EvaluateNet(a, cost).revenue1 == EvaluateGross(a).revenue1 - cost
    ensures EvaluateNet(a, cost).revenue2 == EvaluateGross(a).revenue2 - cost
    ensures EvaluateNet(a, cost).emv == EvaluateGross(a).emv - cost * (a.p1 + a.p2)
  {
    var g := EvaluateGross(a);
    var n := EvaluateNet(a, cost);
    var os := Outcomes(g, a);
    assert os[1..] == [os[1]] && [os[1]][1..] == [];
    assert Shift([os[1]], cost) == [Outcome(os[1].payoff - cost, os[1].prob)];
    assert Outcomes(n, a) == Shift(os, cost);
    ExpectedShift(Outcomes(g, a), cost);
    ExpectedOfPair(Outcome(g.revenue1, a.p1), Outcome(g.revenue2, a.p2));
  }

  /** When the probabilities sum to exactly one, the study cost comes straight
      off the EMV. */
  lemma NetIsGrossMinusCost(a: Alternative, cost: real)
    requires a.p1 + a.p2 == 1.0
    ensures EvaluateNet(a, cost).emv == EvaluateGross(a).emv - cost
  {
    NetIsShiftedGross(a, cost);
  }

  /** For a validated pair, whose sum may be off by up to the tolerance, the
      EMV of "(c)" is within `cost * Tolerance` of gross EMV minus the cost. */
  lemma NetNearGrossMinusCost(a: Alternative, cost: real)
    requires SumsToOne(a.p1, a.p2)
    requires cost >= 0.0
    ensures Abs(EvaluateNet(a, cost).emv - (EvaluateGross(a).emv - cost)) <= cost * Tolerance
  {
    NetIsShiftedGross(a, cost);
    var d := a.p1 + a.p2 - 1.0;
    assert EvaluateNet(a, cost).emv - (EvaluateGross(a).emv - cost) == -(cost * d);
    assert -Tolerance <= d <= Tolerance;
    ProductNonNegative(cost, Tolerance - d);
    ProductNonNegative(cost, Tolerance + d);
  }

  lemma ProductNonNegative(x: real, y: real)
    requires x >= 0.0 && y >= 0.0
    ensures x * y >= 0.0
  {
  }

  /** Selling nothing in either scenario (zero units or zero price) earns
      nothing gross, and leaves only the study cost as a loss. */
  lemma NothingSoldLosesCost(a: Alternative, cost: real)
    requires a.p1 + a.p2 == 1.0
    requires a.first.units == 0 || a.first.price == 0.0
    requires a.second.units == 0 || a.second.price == 0.0
    ensures EvaluateGross(a).emv == 0.0
    ensures EvaluateNet(a, cost).emv == -cost
  {
    NetIsGrossMinusCost(a, cost);
  }

  /** With non-negative probabilities summing to one, an EMV lies between the
      smaller and the larger of its two scenario revenues. */
  lemma EmvBetweenRevenues(e: Evaluation, a: Alternative)
    requires e.emv == Expected(Outcomes(e, a))
    requires a.p1 >= 0.0 && a.p2 >= 0.0 && a.p1 + a.p2 == 1.0
    ensures e.emv >= if e.revenue1 <= e.revenue2 then e.revenue1 else e.revenue2
    ensures e.emv <= if e.revenue1 <= e.revenue2 then e.revenue2 else e.revenue1
  {
    var os := Outcomes(e, a);
    ExpectedOfPair(os[0], os[1]);
    var lo := if e.revenue1 <= e.revenue2 then e.revenue1 else e.revenue2;
    var hi := if e.revenue1 <= e.revenue2 then e.revenue2 else e.revenue1;
    ExpectedAtLeast(os, lo);
    ExpectedAtMost(os, hi);
  }
}
