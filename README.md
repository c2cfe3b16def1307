# Kodrapay fraud-service: a Dafny model of the rule engine and link validator

This project models the core of the fraud service:

- the rule-based detector that scores a transaction event against a catalogue of fraud rules
  (`internal/fraud/detector.go`, `internal/fraud/rules.go`);
- the in-memory fraud data repository it reads velocity and IP reputation from
  (`internal/repository/fraud_data_repository.go`);
- the service layer that validates payment links against the transaction service's record
  (`internal/services/fraud_service.go`).

The modules follow the Go packages:

| module | models |
|---|---|
| `Wrappers` | `Option` and `Result` |
| `Values` | decoded JSON payloads (`map[string]interface{}`) as a map of tagged values; a Go type assertion is a lookup that checks the tag |
| `Text` | `strconv.Atoi` / `strconv.ParseInt(s, 10, 64)` as one signed 64-bit decimal parser, `%d` formatting, `strings.Contains`, `strings.TrimRight` |
| `Rules` | `FraudRule`, `FraudDecision`, `DefaultRules` and its three predicates |
| `Repository` | the `FraudDataRepository` interface, given as three lookup functions that may fail, and `InMemoryFraudDataRepository` as a class whose three maps are updated in place |
| `Detector` | `RuleBasedFraudDetector` |
| `DetectorProperties` | what the engine promises |
| `Services` | `FraudService` |
| `ServiceProperties` | what the link validator promises |

Detector:

- The scoring loop of `CheckTransaction` is a `method` with a `for` loop.
- Its postcondition ties the result to `Evaluate`, a fold (`Scan`) of one loop step over the rule list, followed by the score thresholds.
- What `Evaluate` computes is then proved against an independent reference, `FiredRules`: the enabled rules that trigger, up to and including the first triggered deny rule.
- The score is their total weight, the reasons are their descriptions in order, and the verdict follows the deny/flag hints and the 100/50 thresholds.

Environment:

- The current time (`time.Now()`) is a parameter `now`, in nanoseconds.
- The value of `TRANSACTION_SERVICE_URL` is a parameter of `NewFraudService`.

Link validation:

- URL parsing (`url.Parse` then `Query()`) is an oracle `parseUrl`.
- The HTTP exchange with the transaction service is an oracle `authority` from the request URL to one of: request not built, transport error, or a reply. A reply carries a status, a body and the JSON decoding of the body.
- `GetTransactionDetailsByReference` classifies that reply exactly as the Go code does.

## Model

| member | source | states |
|---|---|---|
| Rules.DefaultRulesShape | internal/fraud/rules.go:15-61 | The default catalogue has exactly three rules: HIGH_AMOUNT_TRANSACTION, SUSPICIOUS_IP_ORIGIN, HIGH_VELOCITY_CUSTOMER, in that order. All are enabled with hint "flag". Weights are 50/70/60 and thresholds 1000/1/5. |
| Rules.DefaultPredicates | internal/fraud/rules.go:24-57 | The amount predicate holds iff `amount` is a number above 1000. The origin predicate holds iff `origin` is the string "suspicious_ip". The velocity predicate is always false. No default predicate ever errs. |
| Detector.NewRuleBasedFraudDetector | internal/fraud/detector.go:26-31 | The repository is kept. A non-empty rule list is kept; an empty one is replaced by the default catalogue. So a constructed detector never has an empty list. |
| Detector.EvaluateRule | internal/fraud/detector.go:47-72 | The dispatch on the rule identifier returns exactly whether the rule triggers, or an error. An error starts with the name of the failing lookup and the rule identifier. |
| Detector.CheckTransaction | internal/fraud/detector.go:34-101 | The loop (skip disabled rules; velocity and IP rules dispatched by id to the repository; others run their predicate; add weight and description when triggered; break on a deny hint; then thresholds 100/50) returns exactly `Evaluate` of the detector and event, error outcomes included. |
| Detector.ScanAppend | internal/fraud/detector.go:41-86 | Running the loop over `xs + ys` is running it over `xs` and then over `ys` from that state. |
| Detector.ScanNext | internal/fraud/detector.go:41-86 | Running the loop over one more rule is one more loop step. |
| Detector.StoppedIsFinal | internal/fraud/detector.go:54-81 | After an error or a deny, no further rule changes the result. |
| Detector.StoppedPrefix | internal/fraud/detector.go:54-81 | If a prefix of the list already stops the loop, the whole list gives the same result as that prefix. |
| Detector.ContainsSuspiciousPattern | internal/fraud/detector.go:124-127 | Always false: no suspicious pattern is recognised in any link. |
| Detector.TrackPaymentLink | internal/fraud/detector.go:104-121 | It errs exactly when `url` is missing, not a string, or empty. Otherwise the link is suspicious iff it is the blacklisted address. |
| Detector.ChannelCheck | internal/fraud/detector.go:145-161 | Only "fraud_cc_txn_123" by credit card and "fraud_bank_txn_456" by bank transfer are fraudulent, with the "Transaction … via … is fraudulent" reason. Any other transaction on those two channels is "Payment channel transaction validated". Any other channel gets "Unsupported or unknown payment channel: <channel>". |
| Detector.ValidatePaymentChannel | internal/fraud/detector.go:130-162 | It errs exactly when `channel_type` or `transaction_id` is missing, not a string, or empty. Otherwise the verdict and reason are the channel check of that transaction, so it is fraudulent only for the two known transactions. |
| DetectorProperties.RepositoryRuleTriggers | internal/fraud/detector.go:50-66 | The velocity rule triggers iff `customer_id` is a string and its 24-hour history has more records than the threshold. The IP rule triggers iff `origin` is a string and its IP data has `is_vpn` true or the origin is "suspicious_ip". A missing field means "not triggered" whatever the repository holds. |
| DetectorProperties.DisabledRuleIsInert | internal/fraud/detector.go:41-44 | Removing a disabled rule from anywhere in the catalogue leaves the evaluation unchanged, whatever its predicate would return. |
| DetectorProperties.TriggeredDenyEndsEvaluation | internal/fraud/detector.go:75-81 | A triggered, enabled rule with hint "deny" ends the evaluation with verdict deny. Its weight and description are the last added, and the result does not depend on any later rule. |
| DetectorProperties.ScoreNeverDecreases | internal/fraud/detector.go:75-77 | With non-negative weights, one more rule never lowers the running score, and reasons are only ever appended. |
| DetectorProperties.AnyHintCons | internal/fraud/detector.go:79-84 | A catalogue has a rule with a given hint iff its first rule has it or the rest does. |
| DetectorProperties.FireThenRest | internal/fraud/detector.go:75-84 | Firing a non-deny rule and then the rest of the fired rules gives the same score, reasons and verdict as firing the whole list at once. |
| DetectorProperties.ScanFront | internal/fraud/detector.go:41-86 | Running the loop over a non-empty list is one step for its first rule, then the loop over the rest. |
| DetectorProperties.ScanMatchesFiredRules | internal/fraud/detector.go:41-86 | From any undecided state, the loop adds exactly the fired rules' total weight and their descriptions in catalogue order. The verdict becomes deny if a fired rule says deny, else flag if one says flag, else stays as it was. |
| DetectorProperties.EvaluateMatchesFiredRules | internal/fraud/detector.go:75-97 | A successful evaluation has score equal to the sum of the fired rules' weights and reasons equal to their descriptions. The verdict is deny after a fired deny rule or at score >= 100, else flag at score >= 50 or after a fired flag rule, else approve. |
| DetectorProperties.ScanErrorComesFromARule | internal/fraud/detector.go:54-71 | A failed loop failed with the error of some enabled rule's evaluation. |
| DetectorProperties.ScanSucceedsWithoutErrors | internal/fraud/detector.go:54-71 | If no enabled rule errs, the loop succeeds. |
| DetectorProperties.EvaluateErrors | internal/fraud/detector.go:54-71 | A repository or predicate error aborts the evaluation with that error and no decision. An evaluation in which no enabled rule errs always yields a decision. |
| DetectorProperties.ErrorAbortsEvaluation | internal/fraud/detector.go:54-71 | An enabled rule reached before any deny whose evaluation errs makes the whole evaluation fail with exactly that error, whatever rules follow it. Together with `EvaluateErrors` this gives both directions. |
| DetectorProperties.NoDenyHintNoEarlyDeny | internal/fraud/detector.go:79-84 | A catalogue with no "deny" hint never stops the loop with a deny. |
| DetectorProperties.DefaultRulesDenyOnlyOnScore | internal/fraud/rules.go:22-52 | With the default catalogue and any repository, the verdict is deny iff the score is at least 100. |
| DetectorProperties.DefaultTriggersOnSnapshot | internal/fraud/detector.go:50-72 | Against an in-memory repository, the three default rules trigger exactly on a high amount, a suspicious origin, and high velocity, and never err. |
| DetectorProperties.DefaultRulesOnSnapshot | internal/fraud/detector.go:34-101 | Closed form of the default catalogue over an in-memory repository: add 50 for an amount above 1000, 70 for a VPN or "suspicious_ip" origin, and 60 for more than five records in the last 24 hours. The reasons are those rules' descriptions in order; 100 denies and 50 flags. |
| DetectorProperties.HighRiskScenario | internal/fraud/rules.go:16-60 | Default rules and an empty repository: {customer_id c1, amount 1500, currency NGN, origin suspicious_ip} scores 120, is denied, and has the amount and IP reasons. |
| DetectorProperties.CleanScenario | internal/fraud/rules.go:16-60 | Default rules and an empty repository: {amount 10, origin clean} scores 0 and is approved with no reasons. |
| DetectorProperties.EmptyCatalogueApproves | internal/fraud/detector.go:35-39 | The engine with an explicitly empty rule list approves every event with score 0 and no reasons. |
| Repository.RecentIsSubsequence | internal/repository/fraud_data_repository.go:47-51 | The windowed history is an order-preserving subsequence of the stored list. |
| Repository.RecentCounts | internal/repository/fraud_data_repository.go:47-51 | Every record after the cutoff is kept as often as it is stored, and no other record is kept. |
| Repository.RecentMembers | internal/repository/fraud_data_repository.go:47-51 | A record is in the window iff it is stored and strictly after the cutoff. |
| Repository.SnapshotNeverFails | internal/repository/fraud_data_repository.go:41-73 | The in-memory repository never reports an error for a history, IP or device lookup. |
| Repository.InMemoryFraudDataRepository.constructor | internal/repository/fraud_data_repository.go:32-38 | A new repository has three empty maps. |
| Repository.InMemoryFraudDataRepository.GetTransactionHistory | internal/repository/fraud_data_repository.go:41-55 | The filtering loop returns the stored records strictly after `now - lookback`, in stored order. An unknown customer gets the empty list. The result is what the repository interface answers. |
| Repository.InMemoryFraudDataRepository.GetIPData | internal/repository/fraud_data_repository.go:58-64 | It returns the stored entry for a known address and nothing (Go's nil) for an unknown one, never an error. |
| Repository.InMemoryFraudDataRepository.GetDeviceData | internal/repository/fraud_data_repository.go:67-73 | It returns the stored entry for a known device and nothing for an unknown one, never an error. |
| Repository.InMemoryFraudDataRepository.AddTransaction | internal/repository/fraud_data_repository.go:76-78 | It appends the record to that customer's list (creating it if absent). The other customers and the other two maps are unchanged. |
| Repository.InMemoryFraudDataRepository.AddIPData | internal/repository/fraud_data_repository.go:81-83 | It replaces the entry for that address only; the other maps are unchanged. |
| Repository.InMemoryFraudDataRepository.AddDeviceData | internal/repository/fraud_data_repository.go:86-88 | It replaces the entry for that device only; the other maps are unchanged. |
| Repository.AppendedHistory | internal/repository/fraud_data_repository.go:76-78 | After seeding one customer, that customer's history is the old one plus the record at the end, and every other customer's history is unchanged. |
| Repository.RecentAfterAppend | internal/repository/fraud_data_repository.go:47-51 | A record appended after the window's start appears at the end of the windowed history; one before it changes nothing. |
| Text.ParseInt64 | internal/services/fraud_service.go:223-237 | A string parses iff it is an optional sign followed by one or more ASCII digits and nothing else, and its value fits in 64 bits. The result is that signed value. |
| Text.LeadingZeroValue | internal/services/fraud_service.go:223-237 | A leading zero does not change the value of a digit string. |
| Text.ParseLeadingZero | internal/services/fraud_service.go:223-237 | "0" + digits and "+" + digits parse to the same result as the digits alone. |
| Text.ParseRejectsNonDigit | internal/services/fraud_service.go:223-237 | A non-digit anywhere after the first character makes the string unparsable, so "5x" is an invalid number. |
| Text.FormatInt | internal/services/fraud_service.go:261-267 | The printed form is non-empty and starts with '-' iff the number is negative. |
| Text.FormatNatValue | internal/services/fraud_service.go:261-267 | The digits printed for a natural number have exactly that value. |
| Text.ParseFormatRoundTrip | internal/services/fraud_service.go:223-267 | Parsing the printed form of any 64-bit integer gives that integer back. |
| Text.ContainsInfix | internal/services/fraud_service.go:247 | A string contains every one of its infixes. |
| Text.TrimRight | internal/services/fraud_service.go:141 | The result is a prefix of the input that does not end in the cut character, and everything removed was that character. |
| Services.NewFraudService | internal/services/fraud_service.go:44-62 | The detector is kept. The address is the caller's if non-empty, else the environment's if non-empty, else the default. So it is never empty. |
| Services.CheckTransaction | internal/services/fraud_service.go:66-78 | It returns the detector's evaluation: the decision, or the error with no decision. |
| Services.ValidatePaymentChannel | internal/services/fraud_service.go:100-112 | It returns the detector's answer unchanged: the same error, or the same verdict and reason. So it errs under the detector's conditions and is fraudulent only for the two known transactions. |
| Services.RequestUrl | internal/services/fraud_service.go:141 | The request address is the base URL with all its trailing slashes cut (and no other character), followed by `/transactions/` and the reference. |
| Services.GetTransactionDetailsByReference | internal/services/fraud_service.go:133-185 | A record is returned iff the address is configured and the reply is a 200 whose body decodes; it is the decoded record. Each failure has its own Go error text: URL not configured; request not created; transport error; 404 as "transaction with reference … not found"; any other non-200 as "transaction service returned status <code>: <body>"; undecodable body. |
| Services.QueryGet | internal/services/fraud_service.go:203-211 | It returns the value of the first pair with that key, and "" when no pair has it (as `url.Values.Get` does). |
| Services.CheckLinkParameters | internal/services/fraud_service.go:215-281 | The link is not suspicious iff all four parameters are present, both numbers parse, the transaction service returns a record, and merchant, amount and currency equal the record's. The reason is then "Payment link is legitimate". |
| Services.CheckLinkQuery | internal/services/fraud_service.go:199-219 | Reads the first value of `ref`, `merchant_id`, `amount` and `currency` (and of `mode`, which is ignored). The link is not suspicious iff those four values match the record. If any of them is empty, the verdict is suspicious for missing parameters. |
| Services.ValidatePaymentLink | internal/services/fraud_service.go:189-283 | An unparsable URL is suspicious with the invalid-format reason. Otherwise the link is not suspicious iff its query matches the record. The result is always a verdict, never an error. |
| Services.TrackPaymentLink | internal/services/fraud_service.go:84-96 | A missing, non-string or empty `url` is suspicious with "Invalid or missing URL in link data", without validation. Otherwise the result, verdict and reason, is the link validation's for that URL. |
| ServiceProperties.MissingParametersSkipFetch | internal/services/fraud_service.go:215-219 | With any of ref, merchant_id, amount or currency empty, the link is suspicious for missing parameters whatever the transaction service would answer. |
| ServiceProperties.MalformedNumbersSkipFetch | internal/services/fraud_service.go:223-237 | A malformed merchant id is reported before a malformed amount, and neither outcome depends on the transaction service. |
| ServiceProperties.FetchFailureReasons | internal/services/fraud_service.go:241-255 | A fetch error containing "not found" gives the "reference … not found" reason; any other fetch error is embedded in the reason. |
| ServiceProperties.NotFoundReplyReason | internal/services/fraud_service.go:161-249 | A 404 from the transaction service makes the link suspicious with the "reference … not found" reason. |
| ServiceProperties.ServerErrorMentioningNotFound | internal/services/fraud_service.go:167-249 | A 500 reply whose body is "route not found" is also reported as an unknown reference: the classification reads the error text, not the status. |
| ServiceProperties.FirstMismatchIsReported | internal/services/fraud_service.go:259-281 | With a record in hand, merchant, then amount, then currency are compared. Only the first mismatch is reported, with both values; a full match is legitimate. |
| ServiceProperties.QueryGetSkipsOtherKey | internal/services/fraud_service.go:203-211 | A pair for another key in front of a query does not change the value read for a key. |
| ServiceProperties.QueryGetSkipsPair | internal/services/fraud_service.go:203-211 | A pair for another key anywhere in a query does not change the value read for a key. |
| ServiceProperties.ModeIsIgnored | internal/services/fraud_service.go:211-213 | Inserting a `mode` parameter with any value anywhere in the query never changes the verdict. |
| ServiceProperties.LinkFromRecordIsLegitimate | internal/services/fraud_service.go:223-281 | A link whose parameters are printed from the authoritative record itself (with its reference and non-empty currency) is legitimate. |
| ServiceProperties.QueryGetCons | internal/services/fraud_service.go:203-211 | Reading a key from a query with a literal first pair takes that pair's value if the key matches, else reads the rest. |
| ServiceProperties.ParseScenarioNumbers | internal/services/fraud_service.go:223-237 | "5" and "1000" parse to 5 and 1000, and 5 and 9 print as "5" and "9". |
| ServiceProperties.MerchantMismatchScenarioReason | internal/services/fraud_service.go:261 | The reason printed for merchant 5 against merchant 9 is "Merchant ID mismatch: link has 5, original has 9". |
| ServiceProperties.TamperedMerchantScenario | internal/services/fraud_service.go:259-263 | A link for tx1 naming merchant 5, when the record has merchant 9, is suspicious with "Merchant ID mismatch: link has 5, original has 9". |
| ServiceProperties.MissingAmountScenario | internal/services/fraud_service.go:215-219 | A link with ref, merchant_id and currency but no amount is suspicious for missing parameters. |

Two behaviours of the code worth knowing:

- `NewRuleBasedFraudDetector` replaces an empty rule list by `DefaultRules`, so a constructed detector never has an empty list. The empty-list case (`EmptyCatalogueApproves`) arises only when the engine is used directly. A list whose rules are all disabled or never trigger approves every event too.
- An unknown reference is recognised by the substring "not found" in the fetch error, not by the 404 status. `ServerErrorMentioningNotFound` shows the consequence.

## Left out

- HTTP handlers, routing, rate limiting and the API-key middleware (`internal/handlers`, `internal/routes`, `internal/middleware`): framework plumbing. The handlers' mandatory-field checks are not imposed on the engine, which handles any event.
- Configuration loading (`internal/config/config.go`): environment reads. The one read inside `NewFraudService` is a parameter.
- The `Evaluate` and `Rules` stubs of the service and the DTOs (`internal/services/fraud.go`, `internal/dto/risk.go`, `fraud_service.go:114-129`): they return constants.
- Context and cancellation: the `ctx` parameters are dropped.
- Network I/O of `GetTransactionDetailsByReference`, and JSON decoding: both are the `authority` oracle. The reply body is given as a string, and its decoding as a `Result`.
- `url.Parse` and `Query()`: the oracle `parseUrl` returns the key/value pairs in order, with percent-decoding already done. An unparsable URL is `None`.
- Detector.CheckTransaction: scores are exact reals, so float64 rounding in `totalScore += rule.ScoreImpact` and in the threshold comparisons is not modelled.
- Text.ParseInt64: `strconv.Atoi` is modelled with the 64-bit range of `strconv.ParseInt`, as on a 64-bit platform. Go's error values are reduced to `None`.
- Error texts are modelled as strings with the Go prefixes. Go's `%w` wrapping is plain concatenation, and `%d` of a status is `FormatInt`.
- Services.TransactionResponse: the fields `CustomerName`, `Description` and `CreatedAt` are not modelled; the validator never reads them.
- Repository.InMemoryFraudDataRepository: Go map aliasing is not modelled. A stored IP or device map is a value, so a caller cannot later mutate the stored entry through a shared reference.
- Detector.RuleBasedFraudDetector: the detector holds a repository value, not a pointer to the in-memory repository. Built from `InMemoryFraudDataRepository.AsRepository(now)`, that value is a snapshot of the maps at one moment with a fixed `now`. The Go detector would see later `AddTransaction`/`AddIPData`/`AddDeviceData` seeding and reads `time.Now()` on every history lookup. A caller rebuilds the detector from `AsRepository(now)` for each check.
- Time is an integer count of nanoseconds. `time.Time.After` is a strict `>` on it, and the 24-hour lookback is `86400 * 10^9`.
