/** `_decide` of `risk_processor.py`: the step function from the combined score
    to a decision and the severity of its alert. */
module Classification {

  datatype Decision = Allow | Review | Block
  datatype Severity = Info | Warning | Critical
  datatype Verdict = Verdict(decision: Decision, severity: Severity)

  const ReviewThreshold: real := 0.9
  const BlockThreshold: real := 1.5

  /** The severity that goes with each decision. */
  function SeverityFor(d: Decision): Severity {
    match d
    case Allow => Info
    case Review => Warning
    case Block => Critical
  }

  /** The order of the decisions from the most to the least lenient. */
  function Rank(d: Decision): nat {
    match d
    case Allow => 0
    case Review => 1
    case Block => 2
  }

  /** Total over every score; each band includes its lower bound. */
  function Decide(combined: real): (v: Verdict)
    ensures v.decision == Block <==> combined >= BlockThreshold
    ensures v.decision == Review <==> ReviewThreshold <= combined < BlockThreshold
    ensures v.decision == Allow <==> combined < ReviewThreshold
    ensures v.severity == SeverityFor(v.decision)
  {
    if combined >= 1.5 then Verdict(Block, Critical)
    else if combined >= 0.9 then Verdict(Review, Warning)
    else Verdict(Allow, Info)
  }

  /** A higher combined score never gets a more lenient decision. */
  lemma DecideMonotone(x: real, y: real)
    requires x <= y
    ensures Rank(Decide(x).decision) <= Rank(Decide(y).decision)
  {
  }

  function DecisionText(d: Decision): string {
    match d
    case Allow => "ALLOW"
    case Review => "REVIEW"
    case Block => "BLOCK"
  }

  function SeverityText(s: Severity): string {
    match s
    case Info => "INFO"
    case Warning => "WARNING"
    case Critical => "CRITICAL"
  }
}
