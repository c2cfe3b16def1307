/**
 * The rule catalogue (internal/fraud/rules.go): what a rule is, what a
 * decision is, and the three example rules the detector falls back to.
 */
module Rules {
  import opened Wrappers
  import opened Values

  /** The verdict strings "approve", "flag" and "deny" of a decision. */
  datatype Verdict = Approve | Flag | Deny

  /**
   * A configurable rule. `decision` is the rule's own hint; the engine only
   * acts on "deny" and "flag", any other string leaves the verdict alone.
   */
  datatype FraudRule = FraudRule(
    id: string,
    description: string,
    threshold: real,
    scoreImpact: real,
    decision: string,
    enabled: bool,
    condition: Event -> Result<bool, string>)  // the Go field `Predicate`

  /** The outcome of one evaluation. */
  datatype FraudDecision = FraudDecision(overallScore: real, decision: Verdict, reasons: seq<string>)

  const HighAmountId := "HIGH_AMOUNT_TRANSACTION"
  const SuspiciousIpId := "SUSPICIOUS_IP_ORIGIN"
  const HighVelocityId := "HIGH_VELOCITY_CUSTOMER"

  const HighAmountDescription := "Flags transactions with amounts exceeding a high threshold."
  const SuspiciousIpDescription := "Flags transactions originating from suspicious IP addresses."
  const HighVelocityDescription := "Flags customers with unusually high transaction velocity."

  /** HIGH_AMOUNT_TRANSACTION: a numeric `amount` above 1000; a missing or non-numeric amount does not trigger. */
  function HighAmountPredicate(data: Event): Result<bool, string>
  {
    match NumberField(data, "amount")
    case Some(amount) => Success(amount > 1000.0)
    case None => Success(false)
  }

  /** SUSPICIOUS_IP_ORIGIN: a string `origin` equal to "suspicious_ip". */
  function SuspiciousIpPredicate(data: Event): Result<bool, string>
  {
    match StringField(data, "origin")
    case Some(origin) => Success(origin == "suspicious_ip")
    case None => Success(false)
  }

  /** HIGH_VELOCITY_CUSTOMER: a placeholder; the detector evaluates velocity itself. */
  function HighVelocityPredicate(data: Event): Result<bool, string>
  {
    Success(false)
  }

  function DefaultRules(): seq<FraudRule>
  {
    [ FraudRule(HighAmountId, HighAmountDescription, 1000.0, 50.0, "flag", true, HighAmountPredicate),
      FraudRule(SuspiciousIpId, SuspiciousIpDescription, 1.0, 70.0, "flag", true, SuspiciousIpPredicate),
      FraudRule(HighVelocityId, HighVelocityDescription, 5.0, 60.0, "flag", true, HighVelocityPredicate) ]
  }

  /** The default catalogue: three enabled "flag" rules, in this order, with these weights and thresholds. */
  lemma DefaultRulesShape()
    ensures var rules := DefaultRules();
      && |rules| == 3
      && rules[0].id == HighAmountId && rules[1].id == SuspiciousIpId && rules[2].id == HighVelocityId
      && rules[0].scoreImpact == 50.0 && rules[1].scoreImpact == 70.0 && rules[2].scoreImpact == 60.0
      && rules[0].threshold == 1000.0 && rules[1].threshold == 1.0 && rules[2].threshold == 5.0
      && forall i :: 0 <= i < |rules| ==> rules[i].enabled && rules[i].decision == "flag"
  {
  }

  /** What each default predicate decides; none of them ever reports an error. */
  lemma DefaultPredicates(data: Event)
    ensures HighAmountPredicate(data) == Success("amount" in data && data["amount"].Num? && data["amount"].num > 1000.0)
    ensures SuspiciousIpPredicate(data) == Success("origin" in data && data["origin"] == Str("suspicious_ip"))
    ensures HighVelocityPredicate(data) == Success(false)
    ensures forall r :: r in DefaultRules() ==> r.condition(data).Success?
  {
  }
}
