/**
 * The checkout modal's client logic: the testimonial carousel, the scan id it generates,
 * and how it turns the checkout endpoint's reply into a redirect or an alert. The network
 * and the clock are inputs.
 */
module CheckoutClient {
  import opened Text
  import opened Wrappers
  import opened JsValue
  import Content
  import CheckoutRoute
  import ReportTemplate
  import Retention
  import Sampling
  import WebhookRoute

  /** The lead captured by the funnel's form. */
  datatype LeadData = LeadData(email: string, businessName: string, ownerName: string, phone: string)

  const EmptyLead := LeadData("", "", "", "")

  /** The lead as the request body serialises it. */
  function LeadJson(lead: LeadData): Json {
    Obj(map["email" := Str(lead.email), "businessName" := Str(lead.businessName),
            "ownerName" := Str(lead.ownerName), "phone" := Str(lead.phone)])
  }

  /** `JSON.stringify({ leadData, scanId })`, as the route parses it back. */
  function RequestBody(lead: LeadData, scanId: string): Json {
    Obj(map["leadData" := LeadJson(lead), "scanId" := Str(scanId)])
  }

  // ---------------------------------------------------------------------------------------
  // Scan ids

  const ScanIdPrefix := "CCFP-"

  /**
   * `CCFP-${Date.now()}-${Math.random().toString(36).substr(2, 9).toUpperCase()}`.
   * `fraction` is the random number's base-36 digits after `0.`.
   */
  function ScanId(now: nat, fraction: string): (id: string)
    ensures StartsWith(id, ScanIdPrefix)
    ensures |id| == 6 + |NatToDecimal(now)| + Sampling.Min(9, |fraction|)
  {
    ScanIdPrefix + NatToDecimal(now) + "-" + UpperAsciiString(fraction[..Sampling.Min(9, |fraction|)])
  }

  /** The random part: at most nine characters, with no lower-case letter left. */
  lemma ScanIdSuffix(now: nat, fraction: string)
    ensures var id := ScanId(now, fraction);
      var suffix := id[6 + |NatToDecimal(now)|..];
      && |suffix| <= 9
      && id[5 + |NatToDecimal(now)|] == '-'
      && id[5..5 + |NatToDecimal(now)|] == NatToDecimal(now)
      && forall i :: 0 <= i < |suffix| ==> !('a' <= suffix[i] <= 'z')
  {
    var id := ScanId(now, fraction);
    var d := NatToDecimal(now);
    var suffix := UpperAsciiString(fraction[..Sampling.Min(9, |fraction|)]);
    assert id == ScanIdPrefix + d + "-" + suffix;
    assert id[6 + |d|..] == suffix;
    assert id[5..5 + |d|] == d;
  }

  /** The timestamp can be read back from a scan id: two ids made at different times differ. */
  lemma {:induction false} ScanIdDeterminesTime(now1: nat, f1: string, now2: nat, f2: string)
    requires ScanId(now1, f1) == ScanId(now2, f2)
    ensures now1 == now2
  {
    var id := ScanId(now1, f1);
    var d1, d2 := NatToDecimal(now1), NatToDecimal(now2);
    ScanIdSuffix(now1, f1);
    ScanIdSuffix(now2, f2);
    assert d1 == id[5..5 + |d1|] == d2;
    DecimalInjective(now1, now2);
  }

  /** The report generated for a scan is the sweep's candidate `<scanId>.pdf` and ages out after seven days. */
  lemma ScanReportIsSwept(now: nat, fraction: string, mtime: int, later: int)
    ensures var name := ReportTemplate.ReportFileName(ScanId(now, fraction));
      && Retention.IsReport(name)
      && name[..|ScanId(now, fraction)|] == ScanId(now, fraction)
      && (Retention.Expired(name, mtime, later) <==> mtime < later - Retention.RetentionMs)
  {
  }

  // ---------------------------------------------------------------------------------------
  // Submitting the checkout request

  /** What `fetch` settles to: a network failure, or the status with the parsed body or the parse error. */
  datatype FetchOutcome = NetworkError(message: string) | Reply(status: int, body: Result<Json, string>)

  /** The page either navigates to the checkout url or shows an alert. */
  datatype SubmitResult = Redirect(url: string) | Alert(text: string)

  const SetupPhrase := "Stripe configuration required"
  const SetupAlert := "Stripe is not configured yet. Please set up your Stripe keys in .env.local. See STRIPE_SETUP.md for instructions."
  const DefaultFailure := "Failed to create checkout session"
  const NoUrlMessage := "No checkout URL received"
  /** V8's messages for reading `details`, or destructuring `url`, from a `null` body. */
  const NullDetailsMessage := "Cannot read properties of null (reading 'details')"
  const NullUrlMessage := "Cannot destructure property 'url' of '(intermediate value)' as it is null."

  predicate IsOk(status: int) {
    200 <= status <= 299
  }

  /** The url to navigate to, or the message of the error the `try` block throws. */
  function Classify(outcome: FetchOutcome): (r: Result<string, string>)
    ensures outcome.Reply? && !IsOk(outcome.status) && outcome.body.Success? && outcome.body.value.Obj? ==>
      r == Failure(ToJsString(Or(Get(outcome.body.value, "details"), Str(DefaultFailure))))
    ensures outcome.Reply? && IsOk(outcome.status) && outcome.body.Success? && outcome.body.value.Obj? ==>
      (Falsy(Get(outcome.body.value, "url")) <==> r == Failure(NoUrlMessage))
    ensures r.Success? ==> outcome.Reply? && IsOk(outcome.status) && outcome.body.Success?
    ensures (outcome.Reply? && IsOk(outcome.status) && outcome.body.Success? && outcome.body.value.Obj?
             && !Falsy(Get(outcome.body.value, "url")))
      ==> r == Success(ToJsString(Get(outcome.body.value, "url")))
    ensures outcome.NetworkError? ==> r == Failure(outcome.message)
    ensures outcome.Reply? && outcome.body.Failure? ==> r == Failure(outcome.body.error)
    ensures outcome.Reply? && outcome.body == Success(Null) ==> r.Failure?
  {
    match outcome
    case NetworkError(message) => Failure(message)
    case Reply(status, body) =>
      if body.Failure? then Failure(body.error)
      else if !IsOk(status) then
        if body.value == Null then Failure(NullDetailsMessage)
        else Failure(ToJsString(Or(Get(body.value, "details"), Str(DefaultFailure))))
      else if body.value == Null then Failure(NullUrlMessage)
      else
        var url := Get(body.value, "url");
        if Falsy(url) then Failure(NoUrlMessage) else Success(ToJsString(url))
  }

  /** The alert for an error message: the setup notice only when the message names the missing configuration. */
  function AlertText(message: string): (text: string)
    ensures Contains(message, SetupPhrase) ==> text == SetupAlert
    ensures !Contains(message, SetupPhrase) ==> text == "Payment error: " + message
  {
    if Contains(message, SetupPhrase) then SetupAlert else "Payment error: " + message
  }

  /**
   * What submitting does with the reply: a redirect only for an ok, parsed reply with a
   * url; otherwise the setup notice or a `Payment error: ` alert.
   */
  function Submit(outcome: FetchOutcome): (r: SubmitResult)
    ensures r.Redirect? ==>
      (outcome.Reply? && IsOk(outcome.status) && outcome.body.Success?
       && !Falsy(Get(outcome.body.value, "url")) && r.url == ToJsString(Get(outcome.body.value, "url")))
    ensures r.Alert? ==> r.text == SetupAlert || StartsWith(r.text, "Payment error: ")
  {
    match Classify(outcome)
    case Success(url) => Redirect(url)
    case Failure(message) => Alert(AlertText(message))
  }

  /** The route's configuration-error details do not hold the phrase the client looks for. */
  lemma DetailsLackSetupPhrase()
    ensures !Contains(CheckoutRoute.ConfigErrorDetails, SetupPhrase)
  {
    var d := CheckoutRoute.ConfigErrorDetails;
    var p := SetupPhrase;
    assert 'q' !in d;
    forall i | 0 <= i <= |d| - |p| ensures !OccursAt(d, p, i) {
      assert d[i..i + |p|][23] == d[i + 23] && p[23] == 'q';
      assert d[i + 23] in d;
    }
  }

  /**
   * A configuration error from the route never produces the setup notice: the phrase is in
   * the reply's `error`, but the client reads `details`, so the generic payment alert shows.
   */
  lemma ConfigErrorShowsGenericAlert(lead: LeadData, scanId: string, config: CheckoutRoute.Config,
                                     provider: CheckoutRoute.SessionParams -> Result<CheckoutRoute.Session, string>)
    requires scanId != "" && CheckoutRoute.UsesPlaceholderKey(config)
    ensures var reply := CheckoutRoute.Post(Success(RequestBody(lead, scanId)), config, provider).response;
      && reply.status == 400
      && Get(reply.body, "error") == Str(SetupPhrase)
      && Submit(Reply(reply.status, Success(reply.body))) == Alert("Payment error: " + CheckoutRoute.ConfigErrorDetails)
      && Submit(Reply(reply.status, Success(reply.body))) != Alert(SetupAlert)
  {
    var reply := CheckoutRoute.Post(Success(RequestBody(lead, scanId)), config, provider).response;
    assert reply == CheckoutRoute.Response(400, CheckoutRoute.DetailedErrorBody(
      CheckoutRoute.ConfigError, CheckoutRoute.ConfigErrorDetails, CheckoutRoute.ConfigErrorType));
    ConfigReplyAlert();
  }

  /** The route's configuration-error reply makes the client alert `Payment error: ` and the details. */
  lemma ConfigReplyAlert()
    ensures var body := CheckoutRoute.DetailedErrorBody(
        CheckoutRoute.ConfigError, CheckoutRoute.ConfigErrorDetails, CheckoutRoute.ConfigErrorType);
      && Submit(Reply(400, Success(body))) == Alert("Payment error: " + CheckoutRoute.ConfigErrorDetails)
      && Submit(Reply(400, Success(body))) != Alert(SetupAlert)
  {
    var body := CheckoutRoute.DetailedErrorBody(
      CheckoutRoute.ConfigError, CheckoutRoute.ConfigErrorDetails, CheckoutRoute.ConfigErrorType);
    assert Get(body, "details") == Str(CheckoutRoute.ConfigErrorDetails);
    DetailsLackSetupPhrase();
    assert SetupAlert != "Payment error: " + CheckoutRoute.ConfigErrorDetails by {
      assert |SetupAlert| == 113;
    }
  }

  /** The request the client sends always passes the route's data guard. */
  lemma ClientRequestHasRequiredData(lead: LeadData, now: nat, fraction: string)
    ensures CheckoutRoute.HasRequiredData(RequestBody(lead, ScanId(now, fraction)))
  {
  }

  /** The session metadata carries the lead's fields as typed; an empty phone is stored as `''`. */
  lemma MetadataCarriesLead(lead: LeadData, scanId: string)
    ensures var m := CheckoutRoute.Metadata(LeadJson(lead), Str(scanId));
      && m["scanId"] == Str(scanId) && m["email"] == Str(lead.email)
      && m["businessName"] == Str(lead.businessName) && m["ownerName"] == Str(lead.ownerName)
      && m["phone"] == Str(lead.phone)
  {
  }

  /** The provider keeps metadata values as strings. */
  function StoredMetadata(m: map<string, Json>): map<string, string> {
    map k | k in m :: ToJsString(m[k])
  }

  /**
   * The lead the client sends comes back to the webhook: when the route creates a session
   * for the client's request, a completed-checkout event carrying that session's metadata
   * is logged with the scan id, business, owner and email the client sent.
   */
  lemma LeadReachesWebhook(lead: LeadData, scanId: string, config: CheckoutRoute.Config,
                           provider: CheckoutRoute.SessionParams -> Result<CheckoutRoute.Session, string>,
                           sessionId: string, amount: Json, paymentStatus: Json)
    requires CheckoutRoute.Post(Success(RequestBody(lead, scanId)), config, provider).request.Some?
    ensures var params := CheckoutRoute.Post(Success(RequestBody(lead, scanId)), config, provider).request.value;
      var event := WebhookRoute.Event("checkout.session.completed", sessionId,
        Some(StoredMetadata(params.metadata)), amount, paymentStatus);
      WebhookRoute.NoteFor(event) == Some(WebhookRoute.PaymentRecord(Some(scanId), Some(lead.businessName),
        Some(lead.ownerName), Some(lead.email), amount, paymentStatus))
  {
    var params := CheckoutRoute.Post(Success(RequestBody(lead, scanId)), config, provider).request.value;
    CheckoutRoute.ProviderCalledOnlyPastGuards(Success(RequestBody(lead, scanId)), config, provider);
    StoredLead(lead, scanId);
  }

  /** The metadata the route builds from the client's request, as the provider stores it. */
  lemma StoredLead(lead: LeadData, scanId: string)
    ensures var stored := StoredMetadata(CheckoutRoute.Metadata(LeadJson(lead), Str(scanId)));
      && WebhookRoute.Lookup(stored, "scanId") == Some(scanId)
      && WebhookRoute.Lookup(stored, "businessName") == Some(lead.businessName)
      && WebhookRoute.Lookup(stored, "ownerName") == Some(lead.ownerName)
      && WebhookRoute.Lookup(stored, "email") == Some(lead.email)
  {
    MetadataCarriesLead(lead, scanId);
  }

  /** With a real key and a session that has a url, the client is sent to exactly that url. */
  lemma SuccessfulCheckoutRedirects(lead: LeadData, now: nat, fraction: string, config: CheckoutRoute.Config,
                                    provider: CheckoutRoute.SessionParams -> Result<CheckoutRoute.Session, string>)
    requires !CheckoutRoute.UsesPlaceholderKey(config)
    requires var out := CheckoutRoute.Post(Success(RequestBody(lead, ScanId(now, fraction))), config, provider);
      out.request.Some? && provider(out.request.value).Success?
      && provider(out.request.value).value.url.Some? && provider(out.request.value).value.url.value != ""
    ensures var out := CheckoutRoute.Post(Success(RequestBody(lead, ScanId(now, fraction))), config, provider);
      Submit(Reply(out.response.status, Success(out.response.body)))
        == Redirect(provider(out.request.value).value.url.value)
  {
    var body := RequestBody(lead, ScanId(now, fraction));
    var out := CheckoutRoute.Post(Success(body), config, provider);
    var session := provider(out.request.value).value;
    assert out.response == CheckoutRoute.Response(200, Obj(map["sessionId" := Str(session.id), "url" := Str(session.url.value)]));
    SessionReplyRedirects(session.id, session.url.value);
  }

  /** An ok reply carrying a non-empty url sends the page there. */
  lemma SessionReplyRedirects(id: string, url: string)
    requires url != ""
    ensures Submit(Reply(200, Success(Obj(map["sessionId" := Str(id), "url" := Str(url)])))) == Redirect(url)
  {
    var fields := map["sessionId" := Str(id), "url" := Str(url)];
    assert Get(Obj(fields), "url") == Str(url);
  }

  // ---------------------------------------------------------------------------------------
  // Stateful parts of the modal

  /** The carousel's next index: one further, wrapping to 0 after the last. */
  function NextIndex(i: int, len: nat): (r: int)
    requires len > 0
    ensures 0 <= r < len
    ensures 0 <= i < len - 1 ==> r == i + 1
    ensures i == len - 1 ==> r == 0
  {
    (i + 1) % len
  }

  /** The index after `n` ticks from `i`. */
  function TicksFrom(i: int, len: nat, n: nat): int
    requires len > 0
  {
    if n == 0 then i else NextIndex(TicksFrom(i, len, n - 1), len)
  }

  /** Within one cycle, `n` ticks move the index `n` places, wrapping once past the end. */
  lemma {:induction false} TicksWithinCycle(i: int, len: nat, n: nat)
    requires 0 <= i < len && n <= len
    ensures TicksFrom(i, len, n) == if i + n < len then i + n else i + n - len
  {
    if n > 0 {
      TicksWithinCycle(i, len, n - 1);
    }
  }

  /** Ticking `a` times and then `b` times is ticking `a + b` times. */
  lemma {:induction false} TicksCompose(i: int, len: nat, a: nat, b: nat)
    requires len > 0
    ensures TicksFrom(TicksFrom(i, len, a), len, b) == TicksFrom(i, len, a + b)
  {
    if b > 0 {
      TicksCompose(i, len, a, b - 1);
    }
  }

  /**
   * After as many ticks as there are testimonials the carousel is back where it started,
   * and not before; from then on it repeats.
   */
  lemma FullCycleReturns(i: int, len: nat, n: nat)
    requires 0 <= i < len
    ensures TicksFrom(i, len, len) == i
    ensures 0 < n < len ==> TicksFrom(i, len, n) != i
    ensures TicksFrom(i, len, len + n) == TicksFrom(i, len, n)
  {
    TicksWithinCycle(i, len, len);
    if n < len {
      TicksWithinCycle(i, len, n);
    }
    TicksCompose(i, len, len, n);
  }

  /** `TestimonialsCarousel`: the index of the testimonial on show. */
  class Carousel {
    var currentIndex: int
    const count: nat

    ghost predicate Valid()
      reads this
    {
      0 <= currentIndex < count
    }

    constructor ()
      ensures Valid() && currentIndex == 0 && count == |Content.Testimonials|
    {
      currentIndex := 0;
      count := |Content.Testimonials|;
    }

    /** The four-second interval. */
    method Tick()
      requires Valid()
      modifies this
      ensures Valid() && currentIndex == NextIndex(old(currentIndex), count)
    {
      currentIndex := (currentIndex + 1) % count;
    }

    /** Clicking the dot for testimonial `i`. */
    method SelectDot(i: int)
      requires 0 <= i < count
      modifies this
      ensures Valid() && currentIndex == i
    {
      currentIndex := i;
    }
  }

  /** The checkout modal's submit handler and its processing flag. */
  class CheckoutForm {
    var isProcessing: bool
    const leadData: LeadData

    constructor (leadData: LeadData)
      ensures !isProcessing && this.leadData == leadData
    {
      isProcessing := false;
      this.leadData := leadData;
    }

    /**
     * `handleSubmit`: `now` and `fraction` are the clock and random draw, `send` the
     * endpoint's answer to a request body. The flag goes up at once and comes down only on
     * the error path; a redirect leaves it up while the browser navigates away.
     */
    method HandleSubmit(now: nat, fraction: string, send: Json -> FetchOutcome)
      returns (scanId: string, result: SubmitResult)
      modifies this
      ensures scanId == ScanId(now, fraction)
      ensures result == Submit(send(RequestBody(leadData, scanId)))
      ensures isProcessing <==> result.Redirect?
    {
      isProcessing := true;
      scanId := ScanId(now, fraction);
      result := Submit(send(RequestBody(leadData, scanId)));
      if result.Alert? {
        isProcessing := false;
      }
    }
  }
}
