/** What the payment-link validator promises, proved about `CheckLinkQuery` and `ValidatePaymentLink`. */
module ServiceProperties {
  import opened Wrappers
  import opened Text
  import opened Services
  import Detector

  /** A link missing any of the four parameters is suspicious whatever the transaction service would say: it is not asked. */
  lemma MissingParametersSkipFetch(
    s: FraudService, a1: string -> AuthorityReply, a2: string -> AuthorityReply,
    reference: string, merchantIdStr: string, amountStr: string, currency: string)
    requires reference == "" || merchantIdStr == "" || amountStr == "" || currency == ""
    ensures CheckLinkParameters(s, a1, reference, merchantIdStr, amountStr, currency)
         == CheckLinkParameters(s, a2, reference, merchantIdStr, amountStr, currency)
         == Detector.LinkVerdict(true, MissingParametersReason)
  {
  }

  /** A malformed merchant id is reported before a malformed amount, and neither reaches the service. */
  lemma MalformedNumbersSkipFetch(
    s: FraudService, a1: string -> AuthorityReply, a2: string -> AuthorityReply,
    reference: string, merchantIdStr: string, amountStr: string, currency: string)
    requires reference != "" && merchantIdStr != "" && amountStr != "" && currency != ""
    requires ParseInt64(merchantIdStr).None? || ParseInt64(amountStr).None?
    ensures CheckLinkParameters(s, a1, reference, merchantIdStr, amountStr, currency)
         == CheckLinkParameters(s, a2, reference, merchantIdStr, amountStr, currency)
         == Detector.LinkVerdict(true, if ParseInt64(merchantIdStr).None? then InvalidMerchantReason else InvalidAmountReason)
  {
  }

  /** Well-formed parameters: all four present, both numbers parse. */
  predicate WellFormed(reference: string, merchantIdStr: string, amountStr: string, currency: string)
  {
    && reference != "" && merchantIdStr != "" && amountStr != "" && currency != ""
    && ParseInt64(merchantIdStr).Some? && ParseInt64(amountStr).Some?
  }

  /**
   * A failed fetch makes the link suspicious: an error mentioning "not found"
   * as an unknown reference, every other error with its text embedded.
   */
  lemma FetchFailureReasons(
    s: FraudService, authority: string -> AuthorityReply,
    reference: string, merchantIdStr: string, amountStr: string, currency: string, err: string)
    requires WellFormed(reference, merchantIdStr, amountStr, currency)
    requires GetTransactionDetailsByReference(s, authority, reference) == Failure(err)
    ensures CheckLinkParameters(s, authority, reference, merchantIdStr, amountStr, currency)
         == Detector.LinkVerdict(true, if Contains(err, "not found") then ReferenceNotFoundReason(reference) else FetchErrorReason(err))
  {
  }

  /** A 404 from the transaction service is reported as an unknown reference. */
  lemma NotFoundReplyReason(
    s: FraudService, authority: string -> AuthorityReply,
    reference: string, merchantIdStr: string, amountStr: string, currency: string)
    requires WellFormed(reference, merchantIdStr, amountStr, currency) && s.transactionServiceUrl != ""
    requires var reply := authority(RequestUrl(s.transactionServiceUrl, reference));
      reply.Replied? && reply.status == 404
    ensures CheckLinkParameters(s, authority, reference, merchantIdStr, amountStr, currency)
         == Detector.LinkVerdict(true, ReferenceNotFoundReason(reference))
  {
    var err := NotFoundMessage(reference);
    ContainsInfix("transaction with reference " + reference + " ", "not found", "");
    assert err == "transaction with reference " + reference + " " + "not found" + "";
    FetchFailureReasons(s, authority, reference, merchantIdStr, amountStr, currency, err);
  }

  /**
   * As written, the classification looks at the error text, not the status:
   * a server error whose body mentions "not found" is also reported as an
   * unknown reference.
   */
  lemma ServerErrorMentioningNotFound(
    s: FraudService, authority: string -> AuthorityReply,
    reference: string, merchantIdStr: string, amountStr: string, currency: string)
    requires WellFormed(reference, merchantIdStr, amountStr, currency) && s.transactionServiceUrl != ""
    requires authority(RequestUrl(s.transactionServiceUrl, reference)) == Replied(500, "route not found", Failure(""))
    ensures CheckLinkParameters(s, authority, reference, merchantIdStr, amountStr, currency)
         == Detector.LinkVerdict(true, ReferenceNotFoundReason(reference))
  {
    var prefix := "transaction service returned status " + FormatInt(500) + ": ";
    var err := prefix + "route not found";
    assert GetTransactionDetailsByReference(s, authority, reference) == Failure(err);
    ContainsInfix(prefix + "route ", "not found", "");
    assert err == prefix + "route " + "not found" + "";
    FetchFailureReasons(s, authority, reference, merchantIdStr, amountStr, currency, err);
  }

  /**
   * With a record in hand, the link is checked against it field by field:
   * merchant first, then amount, then currency; only the first mismatch is
   * reported, with both values; a full match is legitimate.
   */
  lemma FirstMismatchIsReported(
    s: FraudService, authority: string -> AuthorityReply,
    reference: string, merchantIdStr: string, amountStr: string, currency: string, original: TransactionResponse)
    requires WellFormed(reference, merchantIdStr, amountStr, currency)
    requires GetTransactionDetailsByReference(s, authority, reference) == Success(original)
    ensures var merchantId, amount := ParseInt64(merchantIdStr).value, ParseInt64(amountStr).value;
      CheckLinkParameters(s, authority, reference, merchantIdStr, amountStr, currency) ==
        if merchantId != original.merchantId then Detector.LinkVerdict(true, MerchantMismatchReason(merchantId, original.merchantId))
        else if amount != original.amount then Detector.LinkVerdict(true, AmountMismatchReason(amount, original.amount))
        else if currency != original.currency then Detector.LinkVerdict(true, CurrencyMismatchReason(currency, original.currency))
        else Detector.LinkVerdict(false, LegitimateReason)
  {
  }

  /** Another key in front does not change what `Get` returns for a key. */
  lemma QueryGetSkipsOtherKey(query: Query, other: (string, string), key: string)
    requires other.0 != key
    ensures QueryGet([other] + query, key) == QueryGet(query, key)
  {
    assert ([other] + query)[1..] == query;
  }

  /** A pair for another key, wherever it stands, does not change the value read for a key. */
  lemma {:induction false} QueryGetSkipsPair(q1: Query, other: (string, string), q2: Query, key: string)
    requires other.0 != key
    ensures QueryGet(q1 + [other] + q2, key) == QueryGet(q1 + q2, key)
    decreases |q1|
  {
    if q1 == [] {
      assert q1 + [other] + q2 == [other] + q2 && q1 + q2 == q2;
      QueryGetSkipsOtherKey(q2, other, key);
    } else {
      QueryGetSkipsPair(q1[1..], other, q2, key);
      assert (q1 + [other] + q2)[1..] == q1[1..] + [other] + q2;
      assert (q1 + q2)[1..] == q1[1..] + q2;
    }
  }

  /** The optional `mode` parameter never changes the outcome, whatever its value and wherever it stands. */
  lemma ModeIsIgnored(s: FraudService, authority: string -> AuthorityReply, q1: Query, q2: Query, mode: string)
    ensures CheckLinkQuery(s, authority, q1 + [("mode", mode)] + q2) == CheckLinkQuery(s, authority, q1 + q2)
  {
    QueryGetSkipsPair(q1, ("mode", mode), q2, "ref");
    QueryGetSkipsPair(q1, ("mode", mode), q2, "merchant_id");
    QueryGetSkipsPair(q1, ("mode", mode), q2, "amount");
    QueryGetSkipsPair(q1, ("mode", mode), q2, "currency");
  }

  /**
   * Completeness: a link whose parameters are printed from the authoritative
   * record itself is legitimate.
   */
  lemma LinkFromRecordIsLegitimate(s: FraudService, authority: string -> AuthorityReply, original: TransactionResponse, reference: string)
    requires reference != "" && original.currency != ""
    requires Int64Min <= original.merchantId <= Int64Max && Int64Min <= original.amount <= Int64Max
    requires GetTransactionDetailsByReference(s, authority, reference) == Success(original)
    ensures CheckLinkParameters(s, authority, reference, FormatInt(original.merchantId), FormatInt(original.amount), original.currency)
         == Detector.LinkVerdict(false, LegitimateReason)
  {
    ParseFormatRoundTrip(original.merchantId);
    ParseFormatRoundTrip(original.amount);
  }

  /** The first value of a key in a query of literal pairs. */
  lemma QueryGetCons(key: string, value: string, rest: Query, wanted: string)
    ensures QueryGet([(key, value)] + rest, wanted) == if key == wanted then value else QueryGet(rest, wanted)
  {
    assert ([(key, value)] + rest)[1..] == rest;
  }

  /** The link's literal merchant id and amount, read as Go's `strconv.ParseInt` reads them. */
  lemma ParseScenarioNumbers()
    ensures ParseInt64("5") == Some(5) && ParseInt64("1000") == Some(1000)
    ensures FormatInt(5) == "5" && FormatInt(9) == "9"
  {
    assert "5" == FormatInt(5);
    ParseFormatRoundTrip(5);
    assert FormatNat(1) == "1";
    assert FormatNat(10) == "10";
    assert FormatNat(100) == "100";
    assert FormatNat(1000) == "1000";
    ParseFormatRoundTrip(1000);
  }

  /** The reason printed for merchant 5 against merchant 9. */
  lemma MerchantMismatchScenarioReason()
    ensures MerchantMismatchReason(5, 9) == "Merchant ID mismatch: link has 5, original has 9"
  {
    ParseScenarioNumbers();
  }

  /**
   * A tampered link: the link names merchant 5 where the transaction
   * service's record for tx1 has merchant 9.
   */
  lemma TamperedMerchantScenario(s: FraudService, authority: string -> AuthorityReply, original: TransactionResponse)
    requires GetTransactionDetailsByReference(s, authority, "tx1") == Success(original)
    requires original.merchantId == 9
    ensures CheckLinkParameters(s, authority, "tx1", "5", "1000", "NGN")
         == Detector.LinkVerdict(true, "Merchant ID mismatch: link has 5, original has 9")
  {
    ParseScenarioNumbers();
    FirstMismatchIsReported(s, authority, "tx1", "5", "1000", "NGN", original);
    MerchantMismatchScenarioReason();
  }

  /** A link missing its amount is suspicious for missing parameters, whatever the service would say. */
  lemma MissingAmountScenario(s: FraudService, authority: string -> AuthorityReply)
    ensures CheckLinkQuery(s, authority, [("ref", "tx1"), ("merchant_id", "5"), ("currency", "NGN")])
         == Detector.LinkVerdict(true, MissingParametersReason)
  {
    var query := [("ref", "tx1"), ("merchant_id", "5"), ("currency", "NGN")];
    QueryGetCons("currency", "NGN", [], "amount");
    QueryGetCons("merchant_id", "5", [("currency", "NGN")], "amount");
    QueryGetCons("ref", "tx1", [("merchant_id", "5"), ("currency", "NGN")], "amount");
    assert query == [("ref", "tx1")] + ([("merchant_id", "5")] + [("currency", "NGN")]);
  }
}
