/** Classifies a risk score: at least 0.7 blocks, at least 0.4 sends to review, anything lower approves. */
module DecisionEngine {
  import opened Wrappers
  import opened FraudTypes

  const REVIEW_THRESHOLD: real := 0.4
  const BLOCK_THRESHOLD: real := 0.7

  /** `decide`; a missing score counts as 0. */
  function Decide(riskScore: Option<real>): (d: DecisionType)
    ensures var score := OrElse(riskScore, 0.0);
      && (d == BLOCKED <==> score >= BLOCK_THRESHOLD)
      && (d == REVIEW <==> REVIEW_THRESHOLD <= score < BLOCK_THRESHOLD)
      && (d == APPROVED <==> score < REVIEW_THRESHOLD)
  {
    var score := if riskScore.None? then 0.0 else riskScore.value;
    if score >= BLOCK_THRESHOLD then BLOCKED
    else if score >= REVIEW_THRESHOLD then REVIEW
    else APPROVED
  }

  /** How severe a verdict is. */
  function Severity(d: DecisionType): nat
  {
    match d
    case APPROVED => 0
    case REVIEW => 1
    case BLOCKED => 2
  }

  /** A higher score never gets a milder verdict. */
  lemma DecideMonotone(a: real, b: real)
    requires a <= b
    ensures Severity(Decide(Some(a))) <= Severity(Decide(Some(b)))
  {
  }

  /** 0.7000 blocks, 0.6500 reviews, 0.3999 and a missing score approve. */
  lemma DecideExamples()
    ensures Decide(Some(0.7)) == BLOCKED
    ensures Decide(Some(0.65)) == REVIEW
    ensures Decide(Some(0.3999)) == APPROVED
    ensures Decide(None) == APPROVED
  {
  }
}
