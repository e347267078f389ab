/**
 * `POST /api/stripe/checkout`: checks the request, checks the server's payment
 * configuration, asks the payment provider for a checkout session for the $197 package
 * and answers with the session's id and url. The provider is an opaque function from the
 * session parameters to a session or a thrown error's message.
 */
module CheckoutRoute {
  import opened Text
  import opened Wrappers
  import opened JsValue

  /** The environment the route reads: `STRIPE_SECRET_KEY` and `NEXT_PUBLIC_BASE_URL`. */
  datatype Config = Config(secretKey: Option<string>, baseUrl: Option<string>)

  /** A JSON response: its status and its body. */
  datatype Response = Response(status: int, body: Json)

  /** The parameters of `checkout.sessions.create`. */
  datatype SessionParams = SessionParams(
    mode: string,
    currency: string,
    productName: string,
    productDescription: string,
    unitAmount: int,
    quantity: Json,
    successUrl: string,
    cancelUrl: string,
    metadata: map<string, Json>,
    customerEmail: Json,
    billingAddressCollection: string)

  /** What the provider returns for a created session. */
  datatype Session = Session(id: string, url: Option<string>)

  /** The response, and the session parameters if the provider was called. */
  datatype Outcome = Outcome(response: Response, request: Option<SessionParams>)

  const MissingDataError := "Lead data and scan ID are required"
  const ConfigError := "Stripe configuration required"
  const ConfigErrorDetails :=
    "Please set up your Stripe keys " + "in .env.local. See STRIPE_SETUP.md " + "for instructions."
  const CheckoutError := "Failed to create checkout session"
  const ProductName := "Cleanup & Verification Package"
  const ProductDescription := "Complete compliance cleanup package with ongoing protection"
  /** The success url is `<domain>/confirmation?scanId=<scanId>&session_id={CHECKOUT_SESSION_ID}`. */
  const SuccessPath := "/confirmation?scanId="
  const SessionIdQuery := "&session_id={CHECKOUT_SESSION_ID}"
  const CancelPath := "/checkout-cancelled"
  const CheckoutErrorType := "STRIPE_CHECKOUT_ERROR"
  const ConfigErrorType := "STRIPE_CONFIG_ERROR"
  const DefaultDomain := "http://localhost:3000"
  /** $197.00 in cents. */
  const UnitAmount := 19700

  /**
   * The message of the TypeError thrown when the parsed body is `null` and cannot be
   * destructured (V8's wording).
   */
  const NullBodyMessage := "Cannot destructure property 'leadData' of '(intermediate value)' as it is null."

  /** `isUsingPlaceholderKey`: no key, an empty key, or a key holding `placeholder`. */
  predicate UsesPlaceholderKey(config: Config) {
    config.secretKey.None? || config.secretKey.value == "" || Contains(config.secretKey.value, "placeholder")
  }

  /** `process.env.NEXT_PUBLIC_BASE_URL || 'http://localhost:3000'` */
  function Domain(config: Config): (d: string)
    ensures config.baseUrl.Some? && config.baseUrl.value != "" ==> d == config.baseUrl.value
    ensures config.baseUrl.None? || config.baseUrl.value == "" ==> d == DefaultDomain
  {
    if config.baseUrl.Some? && config.baseUrl.value != "" then config.baseUrl.value else DefaultDomain
  }

  function ErrorBody(error: string): Json {
    Obj(map["error" := Str(error)])
  }

  function DetailedErrorBody(error: string, details: string, kind: string): Json {
    Obj(map["error" := Str(error), "details" := Str(details), "type" := Str(kind)])
  }

  /** The metadata stored on the session: the scan id and lead fields as sent, a falsy phone as `''`. */
  function Metadata(leadData: Json, scanId: Json): (m: map<string, Json>)
    ensures m.Keys == {"scanId", "businessName", "ownerName", "email", "phone"}
    ensures m["scanId"] == scanId
    ensures m["businessName"] == Get(leadData, "businessName")
    ensures m["ownerName"] == Get(leadData, "ownerName")
    ensures m["email"] == Get(leadData, "email")
    ensures !Falsy(Get(leadData, "phone")) ==> m["phone"] == Get(leadData, "phone")
    ensures Falsy(Get(leadData, "phone")) ==> m["phone"] == Str("")
  {
    map[
      "scanId" := scanId,
      "businessName" := Get(leadData, "businessName"),
      "ownerName" := Get(leadData, "ownerName"),
      "email" := Get(leadData, "email"),
      "phone" := Or(Get(leadData, "phone"), Str(""))]
  }

  /**
   * The parameters sent to the provider for a request that passed both guards: a one-off
   * $197 payment whose success url carries the scan id between the confirmation path and
   * the session id placeholder, and whose receipt goes to the lead's email.
   */
  function Params(leadData: Json, scanId: Json, quantity: Json, domain: string): (p: SessionParams)
    ensures p.mode == "payment" && p.currency == "usd" && p.unitAmount == UnitAmount
    ensures StartsWith(p.successUrl, domain + SuccessPath) && EndsWith(p.successUrl, SessionIdQuery)
    ensures |domain + SuccessPath| + |SessionIdQuery| <= |p.successUrl|
      && p.successUrl[|domain + SuccessPath|..|p.successUrl| - |SessionIdQuery|] == ToJsString(scanId)
    ensures StartsWith(p.cancelUrl, domain)
    ensures "scanId" in p.metadata && p.metadata["scanId"] == scanId
    ensures "email" in p.metadata && p.customerEmail == p.metadata["email"]
  {
    SessionParams(
      "payment",
      "usd",
      ProductName,
      ProductDescription,
      UnitAmount,
      quantity,
      domain + SuccessPath + ToJsString(scanId) + SessionIdQuery,
      domain + CancelPath,
      Metadata(leadData, scanId),
      Get(leadData, "email"),
      "required")
  }

  /** `const { quantity = 1 } = body`: the default applies only when the property is `undefined`. */
  function Quantity(body: Json): (q: Json)
    ensures Get(body, "quantity") == Undefined ==> q == Num(1)
    ensures Get(body, "quantity") != Undefined ==> q == Get(body, "quantity")
  {
    var q := Get(body, "quantity");
    if q == Undefined then Num(1) else q
  }

  /**
   * The handler. `body` is the parsed request body or the parse error's message; `provider`
   * creates the session or fails with a message. Every thrown error becomes a 500.
   */
  function Post(body: Result<Json, string>, config: Config, provider: SessionParams -> Result<Session, string>): (r: Outcome)
    ensures r.response.body.Obj?
    ensures r.response.status in {200, 400, 500}
    ensures r.response.status == 200 <==> "sessionId" in r.response.body.fields
    ensures r.response.status != 200 <==> "error" in r.response.body.fields
    ensures r.response.status == 400 ==> r.request.None?
    ensures r.response.status == 500 ==>
      Get(r.response.body, "error") == Str(CheckoutError) && Get(r.response.body, "type") == Str(CheckoutErrorType)
    ensures body.Failure? || body.value == Null ==> r.response.status == 500 && r.request.None?
  {
    if body.Failure? then
      Outcome(Response(500, DetailedErrorBody(CheckoutError, body.error, CheckoutErrorType)), None)
    else if body.value == Null then
      Outcome(Response(500, DetailedErrorBody(CheckoutError, NullBodyMessage, CheckoutErrorType)), None)
    else
      var leadData := Get(body.value, "leadData");
      var scanId := Get(body.value, "scanId");
      if Falsy(leadData) || Falsy(scanId) then
        Outcome(Response(400, ErrorBody(MissingDataError)), None)
      else if UsesPlaceholderKey(config) then
        Outcome(Response(400, DetailedErrorBody(ConfigError, ConfigErrorDetails, ConfigErrorType)), None)
      else
        var params := Params(leadData, scanId, Quantity(body.value), Domain(config));
        match provider(params)
        case Failure(message) =>
          Outcome(Response(500, DetailedErrorBody(CheckoutError, message, CheckoutErrorType)), Some(params))
        case Success(session) =>
          var url := if session.url.Some? then Str(session.url.value) else Null;
          Outcome(Response(200, Obj(map["sessionId" := Str(session.id), "url" := url])), Some(params))
  }

  /** The body fields the guards look at, for a body that parsed to something other than `null`. */
  predicate HasRequiredData(body: Json) {
    !Falsy(Get(body, "leadData")) && !Falsy(Get(body, "scanId"))
  }

  /** Missing lead data or scan id is reported first, whatever the configuration, and no session is created. */
  lemma MissingDataFirst(body: Json, config: Config, provider: SessionParams -> Result<Session, string>)
    requires body != Null && !HasRequiredData(body)
    ensures Post(Success(body), config, provider) == Outcome(Response(400, ErrorBody(MissingDataError)), None)
  {
  }

  /** With the data present, a placeholder key gives the configuration error and no session. */
  lemma PlaceholderKeyCreatesNoSession(body: Json, config: Config, provider: SessionParams -> Result<Session, string>)
    requires body != Null && HasRequiredData(body) && UsesPlaceholderKey(config)
    ensures var out := Post(Success(body), config, provider);
      && out.request == None
      && out.response.status == 400
      && Get(out.response.body, "type") == Str(ConfigErrorType)
      && Get(out.response.body, "details") == Str(ConfigErrorDetails)
  {
  }

  /**
   * The provider is called exactly when both guards pass, and then with the fixed price,
   * the lead's metadata and the redirect urls built on the domain.
   */
  lemma ProviderCalledOnlyPastGuards(body: Result<Json, string>, config: Config, provider: SessionParams -> Result<Session, string>)
    ensures var out := Post(body, config, provider);
      out.request.Some? <==> body.Success? && body.value != Null && HasRequiredData(body.value) && !UsesPlaceholderKey(config)
    ensures var out := Post(body, config, provider);
      out.request.Some? ==>
        var p := out.request.value;
        var domain := Domain(config);
        && p.unitAmount == 19700 && p.currency == "usd" && p.mode == "payment"
        && p.quantity == Quantity(body.value)
        && p.successUrl == domain + SuccessPath + ToJsString(Get(body.value, "scanId")) + SessionIdQuery
        && p.cancelUrl == domain + CancelPath
        && p.metadata == Metadata(Get(body.value, "leadData"), Get(body.value, "scanId"))
        && p.customerEmail == Get(Get(body.value, "leadData"), "email")
  {
  }

  /** Every answer is 200, 400 or 500, and only a created session gives 200. */
  lemma StatusCodes(body: Result<Json, string>, config: Config, provider: SessionParams -> Result<Session, string>)
    ensures var out := Post(body, config, provider);
      && out.response.status in {200, 400, 500}
      && (out.response.status == 200 <==> out.request.Some? && provider(out.request.value).Success?)
  {
  }

  /** Success answers with exactly the session's id and url. */
  lemma SuccessEchoesSession(body: Result<Json, string>, config: Config, provider: SessionParams -> Result<Session, string>)
    requires Post(body, config, provider).response.status == 200
    ensures var out := Post(body, config, provider);
      var session := provider(out.request.value).value;
      && out.response.body.Obj?
      && out.response.body.fields.Keys == {"sessionId", "url"}
      && out.response.body.fields["sessionId"] == Str(session.id)
      && (session.url.Some? ==> out.response.body.fields["url"] == Str(session.url.value))
      && (session.url.None? ==> out.response.body.fields["url"] == Null)
  {
  }

  /** A provider failure is reported as a 500 carrying the provider's message. */
  /**
   * A body that cannot be read as JSON, or that parses to `null` (whose destructuring throws),
   * lands in the catch: 500 with the checkout error type, and the provider is not called.
   */
  lemma BodyErrorIs500(body: Result<Json, string>, config: Config, provider: SessionParams -> Result<Session, string>)
    requires body.Failure? || body.value == Null
    ensures var out := Post(body, config, provider);
      && out.request.None?
      && out.response.status == 500
      && Get(out.response.body, "type") == Str(CheckoutErrorType)
      && (body.Failure? ==> Get(out.response.body, "details") == Str(body.error))
      && (body.Success? ==> Get(out.response.body, "details") == Str(NullBodyMessage))
  {
  }

  lemma ProviderFailureIs500(body: Result<Json, string>, config: Config, provider: SessionParams -> Result<Session, string>)
    requires var out := Post(body, config, provider); out.request.Some? && provider(out.request.value).Failure?
    ensures var out := Post(body, config, provider);
      && out.response.status == 500
      && Get(out.response.body, "type") == Str(CheckoutErrorType)
      && Get(out.response.body, "details") == Str(provider(out.request.value).error)
  {
  }
}
