/**
 * The rule-based detector (internal/fraud/detector.go). The engine walks the
 * rule list in order and keeps a running decision; `Scan` is that walk as a
 * function over a prefix of the list, and `CheckTransaction` is the loop,
 * proved to compute `Evaluate`.
 */
module Detector {
  import opened Wrappers
  import opened Values
  import opened Rules
  import opened Repository

  /** The velocity rule's lookback window: 24 hours, in nanoseconds. */
  const VelocityLookback: int := 24 * 60 * 60 * 1_000_000_000

  const HighRiskScore: real := 100.0
  const MediumRiskScore: real := 50.0

  datatype RuleBasedFraudDetector = RuleBasedFraudDetector(repo: FraudDataRepository, rules: seq<FraudRule>)

  /** The constructor: an empty rule list is replaced by the default catalogue. */
  function NewRuleBasedFraudDetector(repo: FraudDataRepository, rules: seq<FraudRule>): (d: RuleBasedFraudDetector)
    ensures d.repo == repo && d.rules != []
    ensures rules != [] ==> d.rules == rules
    ensures rules == [] ==> d.rules == DefaultRules()
  {
    RuleBasedFraudDetector(repo, if rules == [] then DefaultRules() else rules)
  }

  /** The decision the loop starts from. */
  const Initial := FraudDecision(0.0, Approve, [])

  /** The IP rule's reputation test: a stored entry whose "is_vpn" is the boolean true. */
  predicate IsVpn(ipData: Option<Attributes>)
  {
    ipData.Some? && "is_vpn" in ipData.value && ipData.value["is_vpn"] == Bool(true)
  }

  /**
   * Whether one enabled rule triggers on the event. The velocity and IP
   * rules are recognised by their identifier and read the repository; every
   * other rule runs its own predicate. Errors carry the rule identifier.
   */
  function Triggered(repo: FraudDataRepository, rule: FraudRule, data: Event): Result<bool, string>
  {
    if rule.id == HighVelocityId then
      match StringField(data, "customer_id")
      case None => Success(false)
      case Some(customerId) =>
        match repo.getTransactionHistory(customerId, VelocityLookback)
        case Failure(err) => Failure("failed to get transaction history for rule " + rule.id + ": " + err)
        case Success(history) => Success(|history| as real > rule.threshold)
    else if rule.id == SuspiciousIpId then
      match StringField(data, "origin")
      case None => Success(false)
      case Some(origin) =>
        match repo.getIPData(origin)
        case Failure(err) => Failure("failed to get IP data for rule " + rule.id + ": " + err)
        case Success(ipData) => Success(IsVpn(ipData) || origin == "suspicious_ip")
    else
      match rule.condition(data)
      case Failure(err) => Failure("error evaluating rule " + rule.id + ": " + err)
      case Success(triggered) => Success(triggered)
  }

  /** A triggered rule's contribution: its weight, its description, and its hint. */
  function Fire(acc: FraudDecision, rule: FraudRule): FraudDecision
  {
    FraudDecision(
      acc.overallScore + rule.scoreImpact,
      if rule.decision == "deny" then Deny
      else if rule.decision == "flag" && acc.decision != Deny then Flag
      else acc.decision,
      acc.reasons + [rule.description])
  }

  /** A result after which the loop does nothing more: an error, or a deny. */
  predicate Stopped(acc: Result<FraudDecision, string>)
  {
    acc.Failure? || acc.value.decision == Deny
  }

  /** One pass of the loop body. */
  function Step(acc: Result<FraudDecision, string>, repo: FraudDataRepository, rule: FraudRule, data: Event): Result<FraudDecision, string>
  {
    if Stopped(acc) || !rule.enabled then acc
    else
      match Triggered(repo, rule, data)
      case Failure(err) => Failure(err)
      case Success(triggered) => if triggered then Success(Fire(acc.value, rule)) else acc
  }

  /** The loop run over `rules` from `start`. */
  function Scan(start: Result<FraudDecision, string>, repo: FraudDataRepository, rules: seq<FraudRule>, data: Event): Result<FraudDecision, string>
    decreases |rules|
  {
    if rules == [] then start
    else Step(Scan(start, repo, rules[..|rules| - 1], data), repo, rules[|rules| - 1], data)
  }

  /** After a loop that did not deny, the score thresholds decide. */
  function ApplyThresholds(acc: FraudDecision): FraudDecision
  {
    if acc.decision == Deny then acc
    else if acc.overallScore >= HighRiskScore then acc.(decision := Deny)
    else if acc.overallScore >= MediumRiskScore then acc.(decision := Flag)
    else acc
  }

  /** What `CheckTransaction` returns for an event. */
  function Evaluate(d: RuleBasedFraudDetector, data: Event): Result<FraudDecision, string>
  {
    match Scan(Success(Initial), d.repo, d.rules, data)
    case Failure(err) => Failure(err)
    case Success(acc) => Success(ApplyThresholds(acc))
  }

  /** Running the loop over `xs + ys` is running it over `xs`, then over `ys`. */
  lemma {:induction false} ScanAppend(start: Result<FraudDecision, string>, repo: FraudDataRepository, xs: seq<FraudRule>, ys: seq<FraudRule>, data: Event)
    ensures Scan(start, repo, xs + ys, data) == Scan(Scan(start, repo, xs, data), repo, ys, data)
    decreases |ys|
  {
    if ys == [] {
      assert xs + ys == xs;
    } else {
      var init := ys[..|ys| - 1];
      ScanAppend(start, repo, xs, init, data);
      assert (xs + ys)[..|xs + ys| - 1] == xs + init;
    }
  }

  /** One more rule is one more step of the loop. */
  lemma ScanNext(start: Result<FraudDecision, string>, repo: FraudDataRepository, rules: seq<FraudRule>, i: nat, data: Event)
    requires i < |rules|
    ensures Scan(start, repo, rules[..i + 1], data) == Step(Scan(start, repo, rules[..i], data), repo, rules[i], data)
  {
    assert rules[..i + 1][..i] == rules[..i];
  }

  /** Once stopped, the loop changes nothing: later rules are never evaluated. */
  lemma {:induction false} StoppedIsFinal(start: Result<FraudDecision, string>, repo: FraudDataRepository, rules: seq<FraudRule>, data: Event)
    requires Stopped(start)
    ensures Scan(start, repo, rules, data) == start
    decreases |rules|
  {
    if rules != [] {
      StoppedIsFinal(start, repo, rules[..|rules| - 1], data);
    }
  }

  /** A prefix that stops the loop fixes the result of the whole list. */
  lemma StoppedPrefix(start: Result<FraudDecision, string>, repo: FraudDataRepository, rules: seq<FraudRule>, k: nat, data: Event)
    requires k <= |rules|
    requires Stopped(Scan(start, repo, rules[..k], data))
    ensures Scan(start, repo, rules, data) == Scan(start, repo, rules[..k], data)
  {
    ScanAppend(start, repo, rules[..k], rules[k..], data);
    assert rules[..k] + rules[k..] == rules;
    StoppedIsFinal(Scan(start, repo, rules[..k], data), repo, rules[k..], data);
  }

  /** How an error from evaluating `rule` begins: it names the failing lookup and the rule. */
  function ErrorPrefix(rule: FraudRule): string
  {
    (if rule.id == HighVelocityId then "failed to get transaction history for rule "
     else if rule.id == SuspiciousIpId then "failed to get IP data for rule "
     else "error evaluating rule ") + rule.id + ": "
  }

  /**
   * The `switch` on the rule identifier inside the loop: the velocity and IP
   * rules query the repository, every other rule runs its predicate, and an
   * error is wrapped with the rule identifier.
   */
  method EvaluateRule(repo: FraudDataRepository, rule: FraudRule, transactionData: Event) returns (outcome: Result<bool, string>)
    ensures outcome == Triggered(repo, rule, transactionData)
    ensures outcome.Failure? ==> ErrorPrefix(rule) <= outcome.error
  {
    var isTriggered := false;
    if rule.id == HighVelocityId {
      var customerId := StringField(transactionData, "customer_id");
      if customerId.Some? {
        var history := repo.getTransactionHistory(customerId.value, VelocityLookback);
        if history.Failure? {
          return Failure("failed to get transaction history for rule " + rule.id + ": " + history.error);
        }
        isTriggered := |history.value| as real > rule.threshold;
      }
    } else if rule.id == SuspiciousIpId {
      var origin := StringField(transactionData, "origin");
      if origin.Some? {
        var ipData := repo.getIPData(origin.value);
        if ipData.Failure? {
          return Failure("failed to get IP data for rule " + rule.id + ": " + ipData.error);
        }
        isTriggered := IsVpn(ipData.value) || origin.value == "suspicious_ip";
      }
    } else {
      var predicateOutcome := rule.condition(transactionData);
      if predicateOutcome.Failure? {
        return Failure("error evaluating rule " + rule.id + ": " + predicateOutcome.error);
      }
      isTriggered := predicateOutcome.value;
    }
    return Success(isTriggered);
  }

  /** `RuleBasedFraudDetector.CheckTransaction`. */
  method CheckTransaction(d: RuleBasedFraudDetector, transactionData: Event) returns (result: Result<FraudDecision, string>)
    ensures result == Evaluate(d, transactionData)
  {
    var decision := Initial;
    var totalScore: real := 0.0;
    for i := 0 to |d.rules|
      invariant decision.decision != Deny
      invariant Scan(Success(Initial), d.repo, d.rules[..i], transactionData) == Success(decision.(overallScore := totalScore))
    {
      var rule := d.rules[i];
      ScanNext(Success(Initial), d.repo, d.rules, i, transactionData);
      if !rule.enabled {
        continue;
      }
      var outcome := EvaluateRule(d.repo, rule, transactionData);
      if outcome.Failure? {
        StoppedPrefix(Success(Initial), d.repo, d.rules, i + 1, transactionData);
        return Failure(outcome.error);
      }
      if outcome.value {
        totalScore := totalScore + rule.scoreImpact;
        decision := decision.(reasons := decision.reasons + [rule.description]);
        if rule.decision == "deny" {
          decision := decision.(decision := Deny);
          StoppedPrefix(Success(Initial), d.repo, d.rules, i + 1, transactionData);
          break;
        } else if rule.decision == "flag" && decision.decision != Deny {
          decision := decision.(decision := Flag);
        }
      }
    }
    assert d.rules[..|d.rules|] == d.rules;
    decision := decision.(overallScore := totalScore);
    if decision.decision != Deny {
      if totalScore >= HighRiskScore {
        decision := decision.(decision := Deny);
      } else if totalScore >= MediumRiskScore {
        decision := decision.(decision := Flag);
      }
    }
    return Success(decision);
  }

  /** The outcome of a payment-link or payment-channel check: a verdict and its reason. */
  datatype LinkVerdict = LinkVerdict(suspicious: bool, reason: string)
  datatype ChannelVerdict = ChannelVerdict(fraudulent: bool, reason: string)

  const BlacklistedLink := "http://malicious-site.com"

  /** A placeholder: no pattern is recognised yet. */
  function ContainsSuspiciousPattern(link: string): (suspicious: bool)
    ensures !suspicious
  {
    false
  }

  /**
   * `RuleBasedFraudDetector.TrackPaymentLink`: an error for a missing,
   * non-string or empty `url`; otherwise suspicious exactly for the one
   * blacklisted address.
   */
  function TrackPaymentLink(linkData: Event): (r: Result<LinkVerdict, string>)
    ensures r.Failure? <==> !HasNonEmptyString(linkData, "url")
    ensures r.Success? ==> (r.value.suspicious <==> linkData["url"] == Str(BlacklistedLink))
  {
    match StringField(linkData, "url")
    case None => Failure("payment link URL is missing or invalid")
    case Some(link) =>
      if link == "" then Failure("payment link URL is missing or invalid")
      else if link == BlacklistedLink then Success(LinkVerdict(true, "Payment link " + link + " is on a blacklisted domain"))
      else if ContainsSuspiciousPattern(link) then Success(LinkVerdict(true, "Payment link " + link + " contains suspicious patterns"))
      else Success(LinkVerdict(false, "Payment link appears safe"))
  }

  /** The two transactions the placeholder channel checks know to be fraudulent. */
  predicate KnownFraud(channel: string, transactionId: string)
  {
    (channel == "credit_card" && transactionId == "fraud_cc_txn_123")
    || (channel == "bank_transfer" && transactionId == "fraud_bank_txn_456")
  }

  /**
   * The placeholder check of one transaction on one channel: only the two
   * known transactions are fraudulent, other transactions on a supported
   * channel are validated, and any other channel is reported as unsupported.
   */
  function ChannelCheck(channel: string, transactionId: string): (v: ChannelVerdict)
    ensures v.fraudulent <==> KnownFraud(channel, transactionId)
    ensures channel !in {"credit_card", "bank_transfer"} ==>
      v == ChannelVerdict(false, "Unsupported or unknown payment channel: " + channel)
    ensures channel in {"credit_card", "bank_transfer"} && !KnownFraud(channel, transactionId) ==>
      v == ChannelVerdict(false, "Payment channel transaction validated")
    ensures KnownFraud(channel, transactionId) ==>
      v.reason == "Transaction " + transactionId
        + (if channel == "credit_card" then " via credit card" else " via bank transfer") + " is fraudulent"
  {
    if channel == "credit_card" then
      if transactionId == "fraud_cc_txn_123"
      then ChannelVerdict(true, "Transaction " + transactionId + " via credit card is fraudulent")
      else ChannelVerdict(false, "Payment channel transaction validated")
    else if channel == "bank_transfer" then
      if transactionId == "fraud_bank_txn_456"
      then ChannelVerdict(true, "Transaction " + transactionId + " via bank transfer is fraudulent")
      else ChannelVerdict(false, "Payment channel transaction validated")
    else ChannelVerdict(false, "Unsupported or unknown payment channel: " + channel)
  }

  /**
   * `RuleBasedFraudDetector.ValidatePaymentChannel`: an error unless
   * `channel_type` and `transaction_id` are non-empty strings; otherwise the
   * channel check of that transaction.
   */
  function ValidatePaymentChannel(channelData: Event): (r: Result<ChannelVerdict, string>)
    ensures r.Failure? <==> !HasNonEmptyString(channelData, "channel_type") || !HasNonEmptyString(channelData, "transaction_id")
    ensures r.Success? ==> r.value == ChannelCheck(channelData["channel_type"].str, channelData["transaction_id"].str)
    ensures r.Success? ==> (r.value.fraudulent <==> KnownFraud(channelData["channel_type"].str, channelData["transaction_id"].str))
  {
    match StringField(channelData, "channel_type")
    case None => Failure("payment channel type is missing or invalid")
    case Some(channel) =>
      if channel == "" then Failure("payment channel type is missing or invalid")
      else
        match StringField(channelData, "transaction_id")
        case None => Failure("transaction ID is missing or invalid")
        case Some(transactionId) =>
          if transactionId == "" then Failure("transaction ID is missing or invalid")
          else Success(ChannelCheck(channel, transactionId))
  }
}
