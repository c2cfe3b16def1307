/**
 * What the rule engine promises, proved about `Evaluate` (and so, through
 * the postcondition of `CheckTransaction`, about the loop).
 */
module DetectorProperties {
  import opened Wrappers
  import opened Values
  import opened Rules
  import opened Repository
  import opened Detector

  /**
   * The two rules that read the repository: the velocity rule counts the
   * customer's last 24 hours against its threshold, the IP rule asks for the
   * origin's reputation. A missing or non-string field means "not
   * triggered" without asking the repository, whatever it would answer.
   */
  lemma RepositoryRuleTriggers(repo: FraudDataRepository, other: FraudDataRepository, rule: FraudRule, data: Event)
    ensures rule.id == HighVelocityId ==>
      (Triggered(repo, rule, data) == Success(true) <==>
         StringField(data, "customer_id").Some?
         && var history := repo.getTransactionHistory(data["customer_id"].str, VelocityLookback);
            history.Success? && |history.value| as real > rule.threshold)
    ensures rule.id == SuspiciousIpId ==>
      (Triggered(repo, rule, data) == Success(true) <==>
         StringField(data, "origin").Some?
         && var ipData := repo.getIPData(data["origin"].str);
            ipData.Success? && (IsVpn(ipData.value) || data["origin"].str == "suspicious_ip"))
    ensures rule.id == HighVelocityId && !StringField(data, "customer_id").Some? ==>
      Triggered(repo, rule, data) == Triggered(other, rule, data) == Success(false)
    ensures rule.id == SuspiciousIpId && !StringField(data, "origin").Some? ==>
      Triggered(repo, rule, data) == Triggered(other, rule, data) == Success(false)
  {
  }

  /** Disabled rules are inert: dropping one changes nothing, whatever its predicate would say. */
  lemma DisabledRuleIsInert(repo: FraudDataRepository, pre: seq<FraudRule>, rule: FraudRule, post: seq<FraudRule>, data: Event)
    requires !rule.enabled
    ensures Evaluate(RuleBasedFraudDetector(repo, pre + [rule] + post), data)
         == Evaluate(RuleBasedFraudDetector(repo, pre + post), data)
  {
    var start := Success(Initial);
    ScanAppend(start, repo, pre + [rule], post, data);
    ScanAppend(start, repo, pre, [rule], data);
    assert [rule][..0] == [];
    ScanAppend(start, repo, pre, post, data);
  }

  /**
   * A triggered "deny" rule ends the evaluation: the verdict is deny, its
   * weight and description are the last ones added, and no later rule is
   * looked at (the result is the same for every `post`).
   */
  lemma TriggeredDenyEndsEvaluation(
    repo: FraudDataRepository, pre: seq<FraudRule>, rule: FraudRule, post: seq<FraudRule>, data: Event, acc: FraudDecision)
    requires Scan(Success(Initial), repo, pre, data) == Success(acc) && acc.decision != Deny
    requires rule.enabled && rule.decision == "deny" && Triggered(repo, rule, data) == Success(true)
    ensures Evaluate(RuleBasedFraudDetector(repo, pre + [rule] + post), data)
         == Success(FraudDecision(acc.overallScore + rule.scoreImpact, Deny, acc.reasons + [rule.description]))
  {
    var start := Success(Initial);
    ScanAppend(start, repo, pre + [rule], post, data);
    ScanAppend(start, repo, pre, [rule], data);
    assert [rule][..0] == [];
    StoppedIsFinal(Scan(start, repo, pre + [rule], data), repo, post, data);
  }

  /**
   * An enabled rule that errs, reached before any deny, aborts the
   * evaluation with exactly its error, whatever rules follow.
   */
  lemma ErrorAbortsEvaluation(
    repo: FraudDataRepository, pre: seq<FraudRule>, rule: FraudRule, post: seq<FraudRule>, data: Event,
    acc: FraudDecision, err: string)
    requires Scan(Success(Initial), repo, pre, data) == Success(acc) && acc.decision != Deny
    requires rule.enabled && Triggered(repo, rule, data) == Failure(err)
    ensures Evaluate(RuleBasedFraudDetector(repo, pre + [rule] + post), data) == Failure(err)
  {
    var start := Success(Initial);
    ScanAppend(start, repo, pre + [rule], post, data);
    ScanAppend(start, repo, pre, [rule], data);
    assert [rule][..0] == [];
    StoppedIsFinal(Scan(start, repo, pre + [rule], data), repo, post, data);
  }

  /** With non-negative weights the running score never goes down, and reasons are only appended. */
  lemma ScoreNeverDecreases(repo: FraudDataRepository, rules: seq<FraudRule>, k: nat, data: Event, before: FraudDecision, after: FraudDecision)
    requires forall i :: 0 <= i < |rules| ==> rules[i].scoreImpact >= 0.0
    requires k < |rules|
    requires Scan(Success(Initial), repo, rules[..k], data) == Success(before)
    requires Scan(Success(Initial), repo, rules[..k + 1], data) == Success(after)
    ensures before.overallScore <= after.overallScore
    ensures before.reasons <= after.reasons
  {
    assert rules[..k + 1][..k] == rules[..k];
  }

  /** A rule the loop evaluates that triggers. */
  ghost predicate Fires(repo: FraudDataRepository, rule: FraudRule, data: Event)
  {
    rule.enabled && Triggered(repo, rule, data) == Success(true)
  }

  /**
   * The rules that contribute to a decision, in catalogue order: the enabled
   * rules that trigger, up to and including the first triggered "deny" rule.
   */
  ghost function FiredRules(repo: FraudDataRepository, rules: seq<FraudRule>, data: Event): seq<FraudRule>
    decreases |rules|
  {
    if rules == [] then []
    else if Fires(repo, rules[0], data) then
      if rules[0].decision == "deny" then [rules[0]] else [rules[0]] + FiredRules(repo, rules[1..], data)
    else FiredRules(repo, rules[1..], data)
  }

  function TotalImpact(rules: seq<FraudRule>): real
    decreases |rules|
  {
    if rules == [] then 0.0 else rules[0].scoreImpact + TotalImpact(rules[1..])
  }

  function Descriptions(rules: seq<FraudRule>): seq<string>
    decreases |rules|
  {
    if rules == [] then [] else [rules[0].description] + Descriptions(rules[1..])
  }

  ghost predicate AnyHint(rules: seq<FraudRule>, hint: string)
  {
    exists i :: 0 <= i < |rules| && rules[i].decision == hint
  }

  lemma AnyHintCons(rule: FraudRule, rest: seq<FraudRule>, hint: string)
    ensures AnyHint([rule] + rest, hint) <==> rule.decision == hint || AnyHint(rest, hint)
  {
    var all := [rule] + rest;
    if rule.decision == hint {
      assert all[0].decision == hint;
    }
    if AnyHint(rest, hint) {
      var i :| 0 <= i < |rest| && rest[i].decision == hint;
      assert all[i + 1] == rest[i];
    }
    if AnyHint(all, hint) && rule.decision != hint {
      var i :| 0 <= i < |all| && all[i].decision == hint;
      assert rest[i - 1] == all[i];
    }
  }

  /**
   * Firing a non-deny rule and then the rest of the fired rules adds up to
   * firing the whole list from the state before.
   */
  lemma FireThenRest(rule: FraudRule, fired: seq<FraudRule>, acc: FraudDecision, result: FraudDecision)
    requires rule.decision != "deny" && acc.decision != Deny
    requires var acc' := Fire(acc, rule);
      && result.overallScore == acc'.overallScore + TotalImpact(fired)
      && result.reasons == acc'.reasons + Descriptions(fired)
      && result.decision == (if AnyHint(fired, "deny") then Deny else if AnyHint(fired, "flag") then Flag else acc'.decision)
    ensures var all := [rule] + fired;
      && result.overallScore == acc.overallScore + TotalImpact(all)
      && result.reasons == acc.reasons + Descriptions(all)
      && result.decision == (if AnyHint(all, "deny") then Deny else if AnyHint(all, "flag") then Flag else acc.decision)
  {
    var all := [rule] + fired;
    assert all[1..] == fired;
    AnyHintCons(rule, fired, "deny");
    AnyHintCons(rule, fired, "flag");
  }

  /** Running the loop over a non-empty list is one step for its first rule, then the rest. */
  lemma ScanFront(start: Result<FraudDecision, string>, repo: FraudDataRepository, rules: seq<FraudRule>, data: Event)
    requires rules != []
    ensures Scan(start, repo, rules, data) == Scan(Step(start, repo, rules[0], data), repo, rules[1..], data)
  {
    ScanAppend(start, repo, [rules[0]], rules[1..], data);
    assert [rules[0]] + rules[1..] == rules;
    assert [rules[0]][..0] == [];
  }

  /** The loop from any undecided state adds exactly the fired rules' weights, descriptions and hints. */
  lemma {:induction false} ScanMatchesFiredRules(
    repo: FraudDataRepository, rules: seq<FraudRule>, data: Event, acc: FraudDecision, result: FraudDecision)
    requires acc.decision != Deny
    requires Scan(Success(acc), repo, rules, data) == Success(result)
    ensures var fired := FiredRules(repo, rules, data);
      && result.overallScore == acc.overallScore + TotalImpact(fired)
      && result.reasons == acc.reasons + Descriptions(fired)
      && result.decision == (if AnyHint(fired, "deny") then Deny else if AnyHint(fired, "flag") then Flag else acc.decision)
    decreases |rules|
  {
    var fired := FiredRules(repo, rules, data);
    if rules == [] {
      assert !AnyHint(fired, "deny") && !AnyHint(fired, "flag");
    } else {
      var rule, rest := rules[0], rules[1..];
      ScanFront(Success(acc), repo, rules, data);
      var next := Step(Success(acc), repo, rule, data);
      if next.Failure? {
        StoppedIsFinal(next, repo, rest, data);
        assert false;
      } else if !Fires(repo, rule, data) {
        assert next == Success(acc);
        ScanMatchesFiredRules(repo, rest, data, acc, result);
      } else if rule.decision == "deny" {
        StoppedIsFinal(next, repo, rest, data);
        assert fired == [rule];
        assert AnyHint(fired, "deny") by { assert fired[0].decision == "deny"; }
      } else {
        var acc' := Fire(acc, rule);
        ScanMatchesFiredRules(repo, rest, data, acc', result);
        var fired' := FiredRules(repo, rest, data);
        assert fired == [rule] + fired';
        FireThenRest(rule, fired', acc, result);
      }
    }
  }

  /**
   * The engine's whole promise for a successful evaluation: the score is the
   * sum of the fired rules' weights, the reasons are their descriptions in
   * catalogue order, and the verdict is deny after a fired deny rule or at a
   * score of 100, otherwise flag at a score of 50 or after a fired flag rule,
   * otherwise approve.
   */
  lemma EvaluateMatchesFiredRules(d: RuleBasedFraudDetector, data: Event, result: FraudDecision)
    requires Evaluate(d, data) == Success(result)
    ensures var fired := FiredRules(d.repo, d.rules, data);
      && result.overallScore == TotalImpact(fired)
      && result.reasons == Descriptions(fired)
      && result.decision ==
           if AnyHint(fired, "deny") || result.overallScore >= HighRiskScore then Deny
           else if result.overallScore >= MediumRiskScore || AnyHint(fired, "flag") then Flag
           else Approve
  {
    var acc := Scan(Success(Initial), d.repo, d.rules, data).value;
    ScanMatchesFiredRules(d.repo, d.rules, data, Initial, acc);
  }

  /** An error can only be one that an enabled rule's evaluation reported. */
  lemma {:induction false} ScanErrorComesFromARule(
    start: Result<FraudDecision, string>, repo: FraudDataRepository, rules: seq<FraudRule>, data: Event, err: string)
    requires start.Success?
    requires Scan(start, repo, rules, data) == Failure(err)
    ensures exists i :: 0 <= i < |rules| && rules[i].enabled && Triggered(repo, rules[i], data) == Failure(err)
    decreases |rules|
  {
    var init, last := rules[..|rules| - 1], rules[|rules| - 1];
    var prev := Scan(start, repo, init, data);
    if prev.Failure? {
      ScanErrorComesFromARule(start, repo, init, data, err);
      var i :| 0 <= i < |init| && init[i].enabled && Triggered(repo, init[i], data) == Failure(err);
      assert rules[i] == init[i];
    } else {
      assert last.enabled && Triggered(repo, last, data) == Failure(err);
    }
  }

  /** If no enabled rule's evaluation fails, the loop does not fail. */
  lemma {:induction false} ScanSucceedsWithoutErrors(
    start: Result<FraudDecision, string>, repo: FraudDataRepository, rules: seq<FraudRule>, data: Event)
    requires start.Success?
    requires forall i :: 0 <= i < |rules| && rules[i].enabled ==> Triggered(repo, rules[i], data).Success?
    ensures Scan(start, repo, rules, data).Success?
    decreases |rules|
  {
    if rules != [] {
      var init := rules[..|rules| - 1];
      assert forall i :: 0 <= i < |init| ==> init[i] == rules[i];
      ScanSucceedsWithoutErrors(start, repo, init, data);
    }
  }

  /**
   * A repository or predicate error aborts the evaluation with no decision,
   * and an evaluation in which no enabled rule errs always yields one.
   */
  lemma EvaluateErrors(d: RuleBasedFraudDetector, data: Event)
    ensures Evaluate(d, data).Failure? ==>
      exists i :: 0 <= i < |d.rules| && d.rules[i].enabled && Triggered(d.repo, d.rules[i], data) == Failure(Evaluate(d, data).error)
    ensures (forall i :: 0 <= i < |d.rules| && d.rules[i].enabled ==> Triggered(d.repo, d.rules[i], data).Success?) ==>
      Evaluate(d, data).Success?
  {
    var s := Scan(Success(Initial), d.repo, d.rules, data);
    if s.Failure? {
      ScanErrorComesFromARule(Success(Initial), d.repo, d.rules, data, s.error);
    }
    if forall i :: 0 <= i < |d.rules| && d.rules[i].enabled ==> Triggered(d.repo, d.rules[i], data).Success? {
      ScanSucceedsWithoutErrors(Success(Initial), d.repo, d.rules, data);
    }
  }

  /** A catalogue without "deny" hints never stops the loop early. */
  lemma {:induction false} NoDenyHintNoEarlyDeny(
    start: Result<FraudDecision, string>, repo: FraudDataRepository, rules: seq<FraudRule>, data: Event)
    requires start.Success? && start.value.decision != Deny
    requires forall i :: 0 <= i < |rules| ==> rules[i].decision != "deny"
    ensures var s := Scan(start, repo, rules, data); s.Success? ==> s.value.decision != Deny
    decreases |rules|
  {
    if rules != [] {
      var init := rules[..|rules| - 1];
      assert forall i :: 0 <= i < |init| ==> init[i] == rules[i];
      NoDenyHintNoEarlyDeny(start, repo, init, data);
    }
  }

  /** With the default catalogue and any repository, only a score of 100 or more denies. */
  lemma DefaultRulesDenyOnlyOnScore(repo: FraudDataRepository, data: Event, result: FraudDecision)
    requires Evaluate(RuleBasedFraudDetector(repo, DefaultRules()), data) == Success(result)
    ensures result.decision == Deny <==> result.overallScore >= HighRiskScore
  {
    DefaultRulesShape();
    NoDenyHintNoEarlyDeny(Success(Initial), repo, DefaultRules(), data);
  }

  /** The detector's test of a transaction amount. */
  predicate HighAmount(data: Event)
  {
    NumberField(data, "amount").Some? && NumberField(data, "amount").value > 1000.0
  }

  /** The detector's test of an origin: flagged as a VPN in the IP data, or the literal "suspicious_ip". */
  predicate SuspiciousOrigin(ipData: map<string, Attributes>, data: Event)
  {
    match StringField(data, "origin")
    case None => false
    case Some(origin) => (origin in ipData && IsVpn(Some(ipData[origin]))) || origin == "suspicious_ip"
  }

  /** The detector's velocity test: more than 5 of the customer's records in the last 24 hours. */
  predicate HighVelocity(transactions: map<string, seq<TransactionRecord>>, now: int, data: Event)
  {
    match StringField(data, "customer_id")
    case None => false
    case Some(customerId) => |RecentTransactions(StoredHistory(transactions, customerId), now - VelocityLookback)| as real > 5.0
  }

  function WeightIf(triggered: bool, weight: real): real
  {
    if triggered then weight else 0.0
  }

  function ReasonIf(triggered: bool, description: string): seq<string>
  {
    if triggered then [description] else []
  }

  /** Each default rule, evaluated against an in-memory repository. */
  lemma DefaultTriggersOnSnapshot(
    transactions: map<string, seq<TransactionRecord>>,
    ipData: map<string, Attributes>,
    deviceData: map<string, Attributes>,
    now: int, data: Event)
    ensures var repo, rules := Snapshot(transactions, ipData, deviceData, now), DefaultRules();
      && Triggered(repo, rules[0], data) == Success(HighAmount(data))
      && Triggered(repo, rules[1], data) == Success(SuspiciousOrigin(ipData, data))
      && Triggered(repo, rules[2], data) == Success(HighVelocity(transactions, now, data))
  {
  }

  /**
   * The default catalogue over an in-memory repository, in closed form:
   * amount over 1000 adds 50, a suspicious origin adds 70, more than five
   * recent transactions add 60; 100 or more denies, 50 or more flags.
   */
  lemma DefaultRulesOnSnapshot(
    transactions: map<string, seq<TransactionRecord>>,
    ipData: map<string, Attributes>,
    deviceData: map<string, Attributes>,
    now: int, data: Event)
    ensures var amount, origin, velocity :=
              HighAmount(data), SuspiciousOrigin(ipData, data), HighVelocity(transactions, now, data);
            var score := WeightIf(amount, 50.0) + WeightIf(origin, 70.0) + WeightIf(velocity, 60.0);
      Evaluate(RuleBasedFraudDetector(Snapshot(transactions, ipData, deviceData, now), DefaultRules()), data)
      == Success(FraudDecision(
           score,
           if score >= 100.0 then Deny else if score >= 50.0 then Flag else Approve,
           ReasonIf(amount, HighAmountDescription) + ReasonIf(origin, SuspiciousIpDescription)
             + ReasonIf(velocity, HighVelocityDescription)))
  {
    var repo := Snapshot(transactions, ipData, deviceData, now);
    var rules := DefaultRules();
    var amount, origin, velocity :=
      HighAmount(data), SuspiciousOrigin(ipData, data), HighVelocity(transactions, now, data);
    DefaultTriggersOnSnapshot(transactions, ipData, deviceData, now, data);
    var r0, r1, r2 := rules[0], rules[1], rules[2];
    assert rules[..1] == [r0] && [r0][..0] == [];
    assert rules[..2] == [r0, r1] && [r0, r1][..1] == [r0];
    assert rules == [r0, r1, r2] && [r0, r1, r2][..2] == [r0, r1];
    var a0 := if amount then Fire(Initial, r0) else Initial;
    var a1 := if origin then Fire(a0, r1) else a0;
    var a2 := if velocity then Fire(a1, r2) else a1;
    assert Scan(Success(Initial), repo, [r0], data) == Success(a0);
    assert Scan(Success(Initial), repo, [r0, r1], data) == Success(a1);
    assert Scan(Success(Initial), repo, rules, data) == Success(a2);
    var score := WeightIf(amount, 50.0) + WeightIf(origin, 70.0) + WeightIf(velocity, 60.0);
    assert a2.overallScore == score;
    assert a2.reasons == ReasonIf(amount, HighAmountDescription) + ReasonIf(origin, SuspiciousIpDescription)
      + ReasonIf(velocity, HighVelocityDescription);
    assert a2.decision == if amount || origin || velocity then Flag else Approve;
  }

  /** The default catalogue with an empty repository denies a large payment from a suspicious origin. */
  lemma HighRiskScenario(now: int)
    ensures Evaluate(
              NewRuleBasedFraudDetector(Snapshot(map[], map[], map[], now), []),
              map["customer_id" := Str("c1"), "amount" := Num(1500.0), "currency" := Str("NGN"), "origin" := Str("suspicious_ip")])
         == Success(FraudDecision(120.0, Deny, [HighAmountDescription, SuspiciousIpDescription]))
  {
    var data := map["customer_id" := Str("c1"), "amount" := Num(1500.0), "currency" := Str("NGN"), "origin" := Str("suspicious_ip")];
    DefaultRulesOnSnapshot(map[], map[], map[], now, data);
    assert RecentTransactions([], now - VelocityLookback) == [];
    assert HighAmount(data) && SuspiciousOrigin(map[], data) && !HighVelocity(map[], now, data);
    assert NewRuleBasedFraudDetector(Snapshot(map[], map[], map[], now), [])
        == RuleBasedFraudDetector(Snapshot(map[], map[], map[], now), DefaultRules());
    assert [HighAmountDescription] + [SuspiciousIpDescription] + [] == [HighAmountDescription, SuspiciousIpDescription];
  }

  /** ... and approves a small payment from a clean origin with no reasons. */
  lemma CleanScenario(now: int)
    ensures Evaluate(
              NewRuleBasedFraudDetector(Snapshot(map[], map[], map[], now), []),
              map["customer_id" := Str("c2"), "amount" := Num(10.0), "currency" := Str("NGN"), "origin" := Str("clean")])
         == Success(FraudDecision(0.0, Approve, []))
  {
    var data := map["customer_id" := Str("c2"), "amount" := Num(10.0), "currency" := Str("NGN"), "origin" := Str("clean")];
    DefaultRulesOnSnapshot(map[], map[], map[], now, data);
    assert RecentTransactions([], now - VelocityLookback) == [];
    assert !HighAmount(data) && !SuspiciousOrigin(map[], data) && !HighVelocity(map[], now, data);
    assert NewRuleBasedFraudDetector(Snapshot(map[], map[], map[], now), [])
        == RuleBasedFraudDetector(Snapshot(map[], map[], map[], now), DefaultRules());
  }

  /** The engine itself approves every event when handed no rules (the constructor never does this). */
  lemma EmptyCatalogueApproves(repo: FraudDataRepository, data: Event)
    ensures Evaluate(RuleBasedFraudDetector(repo, []), data) == Success(Initial)
    ensures Initial.decision == Approve && Initial.reasons == [] && Initial.overallScore == 0.0
  {
  }
}
