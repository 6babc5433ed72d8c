/** The recommendation rule: alternative "(c)" is recommended only when its
    EMV is strictly greater than that of alternative "(b)"; a tie goes to "(b)",
    the alternative without a study cost.
 */
module Decision {

  /** The two alternatives as labelled on the page. */
  datatype Choice = OptionB | OptionC

  /** The EMV belonging to a choice, given the EMVs of both alternatives. */
  function EmvOf(c: Choice, emvB: real, emvC: real): real
  {
    match c
    case OptionB => emvB
    case OptionC => emvC
  }

  /** The recommended alternative: one with the largest EMV, and "(b)" on a tie. */
  function Recommend(emvB: real, emvC: real): (c: Choice)
    ensures EmvOf(c, emvB, emvC) >= emvB && EmvOf(c, emvB, emvC) >= emvC
    ensures emvB == emvC ==> c == OptionB
    ensures c == OptionC <==> emvC > emvB
  {
    if emvC > emvB then OptionC else OptionB
  }
}
