/**
 * The fraud service (internal/services/fraud_service.go): pass-throughs to
 * the detector, and the payment-link validator that cross-checks a link's
 * query parameters against the transaction service's record. URL parsing
 * and the HTTP exchange are external: `External` supplies them.
 */
module Services {
  import opened Wrappers
  import opened Values
  import opened Text
  import opened Rules
  import Detector

  /** The fields of the transaction service's JSON record. */
  datatype TransactionResponse = TransactionResponse(
    id: int,
    reference: string,
    merchantId: int,
    customerEmail: string,
    customerId: int,
    amount: int,
    currency: string,
    status: string)

  /** What one GET to the transaction service can come to. */
  datatype AuthorityReply =
    | RequestNotCreated(err: string)  // the request could not be built
    | TransportFailed(err: string)    // the HTTP client returned an error
    | Replied(status: int, body: string, decoded: Result<TransactionResponse, string>)

  /** A parsed query string: its key/value pairs in order of appearance. */
  type Query = seq<(string, string)>

  /** `url.Parse(...)` followed by `Query()`, and the transaction service itself. */
  datatype External = External(parseUrl: string -> Option<Query>, authority: string -> AuthorityReply)

  datatype FraudService = FraudService(detector: Detector.RuleBasedFraudDetector, transactionServiceUrl: string)

  /** The address used when neither the caller nor the environment names one. */
  const DefaultTransactionServiceUrl := "http://transaction-service:7000"

  /**
   * `NewFraudService`: an empty address falls back to the value of the
   * `TRANSACTION_SERVICE_URL` environment variable (passed in as
   * `environmentUrl`), and that to the default, so a service built here
   * always has an address.
   */
  function NewFraudService(detector: Detector.RuleBasedFraudDetector, transactionServiceUrl: string, environmentUrl: string): (s: FraudService)
    ensures s.detector == detector && s.transactionServiceUrl != ""
    ensures s.transactionServiceUrl in {transactionServiceUrl, environmentUrl, DefaultTransactionServiceUrl}
    ensures transactionServiceUrl != "" ==> s.transactionServiceUrl == transactionServiceUrl
    ensures transactionServiceUrl == "" && environmentUrl != "" ==> s.transactionServiceUrl == environmentUrl
  {
    var url :=
      if transactionServiceUrl != "" then transactionServiceUrl
      else if environmentUrl != "" then environmentUrl
      else DefaultTransactionServiceUrl;
    FraudService(detector, url)
  }

  /** `FraudService.CheckTransaction`: the detector's decision, or its error with no decision. */
  method CheckTransaction(s: FraudService, transactionData: Event) returns (result: Result<FraudDecision, string>)
    ensures result == Detector.Evaluate(s.detector, transactionData)
  {
    result := Detector.CheckTransaction(s.detector, transactionData);
    if result.Failure? {
      return Failure(result.error);
    }
  }

  /** `FraudService.ValidatePaymentChannel`: the detector's answer, its errors passed on. */
  function ValidatePaymentChannel(s: FraudService, channelData: Event): (r: Result<Detector.ChannelVerdict, string>)
    ensures r == Detector.ValidatePaymentChannel(channelData)
    ensures r.Failure? <==> !HasNonEmptyString(channelData, "channel_type") || !HasNonEmptyString(channelData, "transaction_id")
    ensures r.Success? ==>
      (r.value.fraudulent <==> Detector.KnownFraud(channelData["channel_type"].str, channelData["transaction_id"].str))
  {
    match Detector.ValidatePaymentChannel(channelData)
    case Failure(err) => Failure(err)
    case Success(verdict) => Success(verdict)
  }

  /** The request address: the base URL without trailing slashes, then /transactions/<reference>. */
  function RequestUrl(serviceUrl: string, reference: string): (url: string)
    ensures exists n :: (
      && 0 <= n <= |serviceUrl|
      && url == serviceUrl[..n] + "/transactions/" + reference
      && (n == 0 || serviceUrl[n - 1] != '/')
      && forall i :: n <= i < |serviceUrl| ==> serviceUrl[i] == '/')
  {
    var base := TrimRight(serviceUrl, '/');
    assert base == serviceUrl[..|base|];
    base + "/transactions/" + reference
  }

  function NotFoundMessage(reference: string): string
  {
    "transaction with reference " + reference + " not found"
  }

  /**
   * `GetTransactionDetailsByReference` with the network replaced by
   * `authority`: only a 200 reply whose body decodes yields a record; a 404
   * is the "not found" error; every other failure has its own message.
   */
  function GetTransactionDetailsByReference(s: FraudService, authority: string -> AuthorityReply, reference: string): (r: Result<TransactionResponse, string>)
    ensures r.Success? <==>
      s.transactionServiceUrl != ""
      && var reply := authority(RequestUrl(s.transactionServiceUrl, reference));
         reply.Replied? && reply.status == 200 && reply.decoded.Success?
    ensures s.transactionServiceUrl != "" && authority(RequestUrl(s.transactionServiceUrl, reference)).Replied?
      && authority(RequestUrl(s.transactionServiceUrl, reference)).status == 404
      ==> r == Failure(NotFoundMessage(reference))
    ensures s.transactionServiceUrl == "" ==> r == Failure("transaction service URL not configured")
    ensures s.transactionServiceUrl != "" ==>
      var reply := authority(RequestUrl(s.transactionServiceUrl, reference));
      && (reply.RequestNotCreated? ==> r == Failure("failed to create request to transaction service: " + reply.err))
      && (reply.TransportFailed? ==> r == Failure("failed to get transaction from transaction service: " + reply.err))
      && (reply.Replied? && reply.status != 404 && reply.status != 200 ==>
            r == Failure("transaction service returned status " + FormatInt(reply.status) + ": " + reply.body))
      && (reply.Replied? && reply.status == 200 && reply.decoded.Failure? ==>
            r == Failure("failed to decode transaction response from transaction service: " + reply.decoded.error))
      && (reply.Replied? && reply.status == 200 && reply.decoded.Success? ==> r == Success(reply.decoded.value))
  {
    if s.transactionServiceUrl == "" then Failure("transaction service URL not configured")
    else
      match authority(RequestUrl(s.transactionServiceUrl, reference))
      case RequestNotCreated(err) => Failure("failed to create request to transaction service: " + err)
      case TransportFailed(err) => Failure("failed to get transaction from transaction service: " + err)
      case Replied(status, body, decoded) =>
        if status == 404 then Failure(NotFoundMessage(reference))
        else if status != 200 then Failure("transaction service returned status " + FormatInt(status) + ": " + body)
        else
          match decoded
          case Failure(err) => Failure("failed to decode transaction response from transaction service: " + err)
          case Success(tx) => Success(tx)
  }

  /** `url.Values.Get`: the first value stored for `key`, or "" when there is none. */
  function QueryGet(query: Query, key: string): (v: string)
    ensures v != "" ==> exists i :: 0 <= i < |query| && query[i] == (key, v)
    ensures forall i :: 0 <= i < |query| && query[i].0 == key && (forall j :: 0 <= j < i ==> query[j].0 != key) ==>
      v == query[i].1
    ensures (forall i :: 0 <= i < |query| ==> query[i].0 != key) ==> v == ""
    decreases |query|
  {
    if query == [] then ""
    else if query[0].0 == key then query[0].1
    else QueryGet(query[1..], key)
  }

  const InvalidUrlReason := "Invalid payment link URL format"
  const MissingParametersReason := "Missing required parameters in payment link (ref, merchant_id, amount, currency)"
  const InvalidMerchantReason := "Invalid merchant_id format in payment link"
  const InvalidAmountReason := "Invalid amount format in payment link"
  const LegitimateReason := "Payment link is legitimate"

  function ReferenceNotFoundReason(reference: string): string
  {
    "Transaction reference " + reference + " not found for payment link"
  }

  function FetchErrorReason(err: string): string
  {
    "Error fetching original transaction details: " + err
  }

  function MerchantMismatchReason(link: int, original: int): string
  {
    "Merchant ID mismatch: link has " + FormatInt(link) + ", original has " + FormatInt(original)
  }

  function AmountMismatchReason(link: int, original: int): string
  {
    "Amount mismatch: link has " + FormatInt(link) + ", original has " + FormatInt(original)
  }

  function CurrencyMismatchReason(link: string, original: string): string
  {
    "Currency mismatch: link has " + link + ", original has " + original
  }

  /**
   * The reference definition of a legitimate link: all four parameters are
   * present, merchant and amount parse as integers, the transaction service
   * returns a record, and the record has exactly that merchant, amount and
   * currency.
   */
  ghost predicate MatchesAuthority(
    s: FraudService, authority: string -> AuthorityReply,
    reference: string, merchantIdStr: string, amountStr: string, currency: string)
  {
    var fetched := GetTransactionDetailsByReference(s, authority, reference);
    && reference != "" && currency != ""
    && fetched.Success?
    && ParseInt64(merchantIdStr) == Some(fetched.value.merchantId)
    && ParseInt64(amountStr) == Some(fetched.value.amount)
    && currency == fetched.value.currency
  }

  /** The checks of `ValidatePaymentLink` on the link's parameters, in their order. */
  function CheckLinkParameters(
    s: FraudService, authority: string -> AuthorityReply,
    reference: string, merchantIdStr: string, amountStr: string, currency: string): (r: Detector.LinkVerdict)
    ensures !r.suspicious <==> MatchesAuthority(s, authority, reference, merchantIdStr, amountStr, currency)
    ensures !r.suspicious ==> r.reason == LegitimateReason
  {
    if reference == "" || merchantIdStr == "" || amountStr == "" || currency == "" then
      Detector.LinkVerdict(true, MissingParametersReason)
    else
      match ParseInt64(merchantIdStr)
      case None => Detector.LinkVerdict(true, InvalidMerchantReason)
      case Some(merchantId) =>
        match ParseInt64(amountStr)
        case None => Detector.LinkVerdict(true, InvalidAmountReason)
        case Some(amount) =>
          match GetTransactionDetailsByReference(s, authority, reference)
          case Failure(err) =>
            if Contains(err, "not found") then Detector.LinkVerdict(true, ReferenceNotFoundReason(reference))
            else Detector.LinkVerdict(true, FetchErrorReason(err))
          case Success(original) =>
            if original.merchantId != merchantId then
              Detector.LinkVerdict(true, MerchantMismatchReason(merchantId, original.merchantId))
            else if original.amount != amount then
              Detector.LinkVerdict(true, AmountMismatchReason(amount, original.amount))
            else if original.currency != currency then
              Detector.LinkVerdict(true, CurrencyMismatchReason(currency, original.currency))
            else Detector.LinkVerdict(false, LegitimateReason)
  }

  /**
   * The query-string part of `ValidatePaymentLink`: the first value of each
   * parameter is read (`mode` too, and then ignored) and checked.
   */
  function CheckLinkQuery(s: FraudService, authority: string -> AuthorityReply, query: Query): (r: Detector.LinkVerdict)
    ensures !r.suspicious <==> MatchesAuthority(s, authority, QueryGet(query, "ref"), QueryGet(query, "merchant_id"),
                                                QueryGet(query, "amount"), QueryGet(query, "currency"))
    ensures (QueryGet(query, "ref") == "" || QueryGet(query, "merchant_id") == ""
             || QueryGet(query, "amount") == "" || QueryGet(query, "currency") == "") ==>
      r == Detector.LinkVerdict(true, MissingParametersReason)
  {
    var reference := QueryGet(query, "ref");
    var merchantIdStr := QueryGet(query, "merchant_id");
    var amountStr := QueryGet(query, "amount");
    var currency := QueryGet(query, "currency");
    var _ := QueryGet(query, "mode");
    CheckLinkParameters(s, authority, reference, merchantIdStr, amountStr, currency)
  }

  /** A link is legitimate when its URL parses and its query matches the authority's record. */
  ghost predicate LinkIsLegitimate(s: FraudService, ext: External, linkUrl: string)
  {
    && ext.parseUrl(linkUrl).Some?
    && var query := ext.parseUrl(linkUrl).value;
       MatchesAuthority(s, ext.authority, QueryGet(query, "ref"), QueryGet(query, "merchant_id"),
                        QueryGet(query, "amount"), QueryGet(query, "currency"))
  }

  /**
   * `FraudService.ValidatePaymentLink`. It never reports an error: every
   * outcome is a verdict with a reason, and only a link that agrees with the
   * transaction service on merchant, amount and currency is not suspicious.
   */
  function ValidatePaymentLink(s: FraudService, ext: External, linkUrl: string): (r: Detector.LinkVerdict)
    ensures !r.suspicious <==> LinkIsLegitimate(s, ext, linkUrl)
    ensures ext.parseUrl(linkUrl).None? ==> r == Detector.LinkVerdict(true, InvalidUrlReason)
  {
    match ext.parseUrl(linkUrl)
    case None => Detector.LinkVerdict(true, InvalidUrlReason)
    case Some(query) => CheckLinkQuery(s, ext.authority, query)
  }

  /**
   * `FraudService.TrackPaymentLink`: a missing, non-string or empty `url`
   * is suspicious without further checks; any other is validated.
   */
  function TrackPaymentLink(s: FraudService, ext: External, linkData: Event): (r: Detector.LinkVerdict)
    ensures !HasNonEmptyString(linkData, "url") ==> r == Detector.LinkVerdict(true, "Invalid or missing URL in link data")
    ensures HasNonEmptyString(linkData, "url") ==> r == ValidatePaymentLink(s, ext, linkData["url"].str)
    ensures !r.suspicious <==> HasNonEmptyString(linkData, "url") && LinkIsLegitimate(s, ext, linkData["url"].str)
  {
    match StringField(linkData, "url")
    case None => Detector.LinkVerdict(true, "Invalid or missing URL in link data")
    case Some(urlStr) =>
      if urlStr == "" then Detector.LinkVerdict(true, "Invalid or missing URL in link data")
      else ValidatePaymentLink(s, ext, urlStr)
  }
}
