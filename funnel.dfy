/**
 * The landing page's scan funnel: URL entry and validation, the simulated scan, and the
 * three gated steps that follow it (results preview, lead capture, cleanup offer), with the
 * page's smaller widgets: the risk badge, the penalty calculator, the FAQ accordion, the
 * scarcity counter and the scan status ticker.
 *
 * Each handler is specified by a function on the page's state (`State`); the class `Home`
 * holds that state in fields and its methods change them as the handlers do.
 */
module Funnel {
  import opened Text
  import opened Wrappers
  import Content
  import Sampling
  import CheckoutClient
  import JsValue

  const EmptyUrlError := "Please enter a website URL"
  const InvalidUrlError := "Please enter a valid URL (e.g., example.com or https://example.com)"

  // ---------------------------------------------------------------------------------------
  // URL validation

  predicate HasScheme(url: string) {
    StartsWith(url, "http://") || StartsWith(url, "https://")
  }

  /** An address without `http://` or `https://` gets `https://` in front; others are kept. */
  function Normalize(url: string): (r: string)
    ensures HasScheme(r)
    ensures r == url <==> HasScheme(url)
    ensures EndsWith(r, url)
  {
    if HasScheme(url) then url else "https://" + url
  }

  /** Normalising twice is normalising once. */
  lemma NormalizeIdempotent(url: string)
    ensures Normalize(Normalize(url)) == Normalize(url)
  {
  }

  /**
   * The `URL` constructor, seen through the protocol it reports: `None` when it throws.
   * Its parsing rules are not modelled.
   */
  type UrlParser = string -> Option<string>

  /** `validateUrl`: the normalised address parses and its protocol is `http:` or `https:`. */
  function ValidateUrl(url: string, parse: UrlParser): bool {
    var protocol := parse(Normalize(url));
    protocol.Some? && (protocol.value == "http:" || protocol.value == "https:")
  }

  /** A parser that reports the scheme the string starts with, as every URL parser does. */
  ghost predicate ReportsScheme(parse: UrlParser) {
    forall s :: parse(s).Some? ==>
      (StartsWith(s, "http://") ==> parse(s).value == "http:")
      && (StartsWith(s, "https://") ==> parse(s).value == "https:")
  }

  /** Since the checked address always carries a web scheme, the protocol check never rejects anything that parses. */
  lemma ValidIffParses(url: string, parse: UrlParser)
    requires ReportsScheme(parse)
    ensures ValidateUrl(url, parse) <==> parse(Normalize(url)).Some?
  {
  }

  // ---------------------------------------------------------------------------------------
  // The page state and its handlers

  datatype State = State(
    isScanning: bool,
    showResults: bool,
    showCheckout: bool,
    showDashboard: bool,
    urlInput: string,
    urlError: string,
    scannedUrl: string,
    currentStep: int,
    leadData: CheckoutClient.LeadData)

  const Init := State(false, false, false, false, "", "", "", 1, CheckoutClient.EmptyLead)

  /** The three fields the lead form marks `required`. */
  predicate LeadComplete(lead: CheckoutClient.LeadData) {
    lead.email != "" && lead.businessName != "" && lead.ownerName != ""
  }

  /** What the user or a timer can do on the page. */
  datatype Event =
    | EditUrl(value: string)
    | ScanStart(parse: UrlParser)
    | ScanComplete
    | UnlockReport
    | EditLead(lead: CheckoutClient.LeadData)
    | LeadCapture
    | ProceedToCleanupOffer
    | ProceedToCheckout
    | CheckoutComplete
    | CloseAll
    | BackToHome
    | Reload

  /**
   * `handleScanStart`: an error message for blank input (`!urlInput.trim()`, which is
   * `Blank` by `TrimEmptyIffBlank`) or invalid input, otherwise the scan starts.
   */
  function StartScan(s: State, parse: UrlParser): (r: State)
    ensures r.(urlError := s.urlError, scannedUrl := s.scannedUrl, isScanning := s.isScanning) == s
    ensures r.urlError in {"", EmptyUrlError, InvalidUrlError}
    ensures r.urlError == "" <==> !Blank(s.urlInput) && ValidateUrl(s.urlInput, parse)
    ensures r.urlError == "" ==> r.isScanning && HasScheme(r.scannedUrl)
  {
    if Blank(s.urlInput) then s.(urlError := EmptyUrlError)
    else if !ValidateUrl(s.urlInput, parse) then s.(urlError := InvalidUrlError)
    else s.(urlError := "", scannedUrl := Normalize(s.urlInput), isScanning := true)
  }

  /** `handleCloseAll`: every overlay closes and the address is cleared; the step and the lead stay. */
  function CloseOverlays(s: State): (r: State)
    ensures PageUncovered(r) && r.urlInput == "" && r.scannedUrl == ""
    ensures r.currentStep == s.currentStep && r.leadData == s.leadData && r.urlError == s.urlError
  {
    s.(isScanning := false, showResults := false, showCheckout := false, showDashboard := false,
       urlInput := "", scannedUrl := "")
  }

  /**
   * The state after an event. No event opens the dashboard, only `ProceedToCheckout` opens
   * the checkout, only editing the lead or reloading changes it, and only a completed scan,
   * the two step buttons and a reload move the step.
   */
  function Next(s: State, e: Event): (r: State)
    ensures r.showDashboard ==> s.showDashboard
    ensures r.showCheckout ==> s.showCheckout || e.ProceedToCheckout?
    ensures r.leadData != s.leadData ==> e.EditLead? || e.Reload?
    ensures r.currentStep != s.currentStep ==> e.ScanComplete? || e.UnlockReport? || e.LeadCapture? || e.Reload?
  {
    match e
    case EditUrl(value) => s.(urlInput := value, urlError := "")
    case ScanStart(parse) => StartScan(s, parse)
    case ScanComplete => s.(isScanning := false, showResults := true, currentStep := 1)
    case UnlockReport => s.(currentStep := 2)
    case EditLead(lead) => s.(leadData := lead)
    case LeadCapture => s.(currentStep := 3)
    case ProceedToCleanupOffer => s.(showResults := false)
    case ProceedToCheckout => s.(showResults := false, showCheckout := true)
    case CheckoutComplete => s.(showCheckout := false)
    case CloseAll => CloseOverlays(s)
    case BackToHome => s.(showResults := false)
    case Reload => Init
  }

  /** Starting a scan is the page's `ScanStart` event. */
  lemma NextOnScanStart(s: State, parse: UrlParser)
    ensures Next(s, ScanStart(parse)) == StartScan(s, parse)
  {
  }

  /** No overlay covers the page, so its address field and scan buttons can be used. */
  predicate PageUncovered(s: State) {
    !s.isScanning && !s.showResults && !s.showCheckout && !s.showDashboard
  }

  /**
   * The events the rendered page can deliver: each overlay offers its own handler, the
   * lead form submits only with its required fields filled, and the close buttons of the
   * step screens reload the page. `ProceedToCheckout`, `BackToHome` and `CheckoutComplete`
   * are handlers that nothing on the page calls. A scan's completion callback is queued by
   * a timer that is never cancelled (by Enter, and again when the progress bar fills), so
   * a completion can arrive at any time after a scan has started, even after the results
   * are shown, until the page reloads: `scannedUrl` is set when a scan starts and cleared
   * only by a reload or by closing the overlays.
   */
  predicate Enabled(s: State, e: Event) {
    match e
    case EditUrl(_) => PageUncovered(s)
    case ScanStart(_) => PageUncovered(s)
    case ScanComplete => s.scannedUrl != ""
    case UnlockReport => s.showResults && s.currentStep == 1
    case EditLead(_) => s.showResults && s.currentStep == 2
    case LeadCapture => s.showResults && s.currentStep == 2 && LeadComplete(s.leadData)
    case ProceedToCleanupOffer => s.showResults && s.currentStep == 3
    case ProceedToCheckout => false
    case CheckoutComplete => false
    case CloseAll => s.showCheckout || s.showDashboard
    case BackToHome => false
    case Reload => s.showResults
  }

  /**
   * What holds in every state the page can reach: the step is 1, 2 or 3, a running scan has
   * a normalised address, the cleanup offer is only reached with a complete lead (the lead
   * save being one step, see `Home.HandleLeadCapture`), and the checkout and dashboard
   * overlays stay closed.
   */
  predicate Inv(s: State) {
    && 1 <= s.currentStep <= 3
    && (s.isScanning ==> HasScheme(s.scannedUrl))
    && (s.currentStep == 3 ==> LeadComplete(s.leadData))
    && !s.showCheckout && !s.showDashboard
  }

  /** Blank or invalid input only sets the matching message; a valid one starts the scan on the normalised address. */
  lemma ScanStartOutcomes(s: State, parse: UrlParser)
    ensures var r := StartScan(s, parse);
      && (Blank(s.urlInput) ==> r.urlError == EmptyUrlError && r.isScanning == s.isScanning && r.scannedUrl == s.scannedUrl)
      && (!Blank(s.urlInput) && !ValidateUrl(s.urlInput, parse) ==>
            r.urlError == InvalidUrlError && r.isScanning == s.isScanning && r.scannedUrl == s.scannedUrl)
      && (r.isScanning && !s.isScanning ==> ValidateUrl(s.urlInput, parse))
      && (!Blank(s.urlInput) && ValidateUrl(s.urlInput, parse) ==>
            r.urlError == "" && r.isScanning && r.scannedUrl == Normalize(s.urlInput) && HasScheme(r.scannedUrl))
      && r.currentStep == s.currentStep && r.leadData == s.leadData && r.urlInput == s.urlInput
      && r.showResults == s.showResults && r.showCheckout == s.showCheckout && r.showDashboard == s.showDashboard
  {
  }

  /** Every enabled event keeps the invariant. */
  lemma NextPreservesInv(s: State, e: Event)
    requires Inv(s) && Enabled(s, e)
    ensures Inv(Next(s, e))
  {
    if e.ScanStart? {
      ScanStartOutcomes(s, e.parse);
    }
  }

  /**
   * The step moves only forward and one at a time, 1 to 2 by unlocking and 2 to 3 by
   * submitting the lead; only a finished scan or a reload sends it back to 1.
   */
  lemma StepAdvancesInOrder(s: State, e: Event)
    requires Inv(s) && Enabled(s, e)
    ensures var r := Next(s, e);
      || r.currentStep == s.currentStep
      || (e.UnlockReport? && s.currentStep == 1 && r.currentStep == 2)
      || (e.LeadCapture? && s.currentStep == 2 && r.currentStep == 3)
      || ((e.ScanComplete? || e.Reload?) && r.currentStep == 1)
  {
  }

  /** Whether each event of a sequence is enabled when it happens. */
  predicate EnabledRun(s: State, events: seq<Event>)
    decreases |events|
  {
    events == [] || (Enabled(s, events[0]) && EnabledRun(Next(s, events[0]), events[1..]))
  }

  function Run(s: State, events: seq<Event>): State
    decreases |events|
  {
    if events == [] then s else Run(Next(s, events[0]), events[1..])
  }

  /** Any sequence of page events from an invariant state ends in an invariant state. */
  lemma {:induction false} RunPreservesInv(s: State, events: seq<Event>)
    requires Inv(s) && EnabledRun(s, events)
    ensures Inv(Run(s, events))
    decreases |events|
  {
    if events != [] {
      NextPreservesInv(s, events[0]);
      RunPreservesInv(Next(s, events[0]), events[1..]);
    }
  }

  /**
   * From a fresh page, whatever the user does, the checkout and dashboard overlays never
   * open, and the cleanup offer is only shown for a lead with its required fields, as long
   * as no edit falls inside the lead save's one-second wait.
   */
  lemma ReachableFromInit(events: seq<Event>)
    requires EnabledRun(Init, events)
    ensures var r := Run(Init, events);
      && !r.showCheckout && !r.showDashboard
      && 1 <= r.currentStep <= 3
      && (r.showResults && r.currentStep == 3 ==> LeadComplete(r.leadData))
  {
    RunPreservesInv(Init, events);
  }

  /** The page component: the state fields and the handlers that set them. */
  class Home {
    var isScanning: bool
    var showResults: bool
    var showCheckout: bool
    var showDashboard: bool
    var urlInput: string
    var urlError: string
    var scannedUrl: string
    var currentStep: int
    var leadData: CheckoutClient.LeadData
    /** The five-digit number shown on the step screens. */
    const scanId: int

    function Snapshot(): State
      reads this
    {
      State(isScanning, showResults, showCheckout, showDashboard, urlInput, urlError, scannedUrl,
        currentStep, leadData)
    }

    /** `draw` is `Math.floor(Math.random() * 90000)`. */
    constructor (draw: nat)
      requires draw < 90000
      ensures Snapshot() == Init && 10000 <= scanId <= 99999
    {
      isScanning, showResults, showCheckout, showDashboard := false, false, false, false;
      urlInput, urlError, scannedUrl := "", "", "";
      currentStep := 1;
      leadData := CheckoutClient.EmptyLead;
      scanId := draw + 10000;
    }

    /** The address field's `onChange`. */
    method EditUrl(value: string)
      modifies this
      ensures Snapshot() == Next(old(Snapshot()), Event.EditUrl(value))
    {
      urlInput := value;
      urlError := "";
    }

    /** `handleScanStart`; its effect is `Next` on `ScanStart(parse)` (see `NextOnScanStart`). */
    method HandleScanStart(parse: UrlParser)
      modifies this
      ensures Snapshot() == StartScan(old(Snapshot()), parse)
    {
      if Blank(urlInput) {
        urlError := EmptyUrlError;
        return;
      }
      if !ValidateUrl(urlInput, parse) {
        urlError := InvalidUrlError;
        return;
      }
      var normalizedUrl := Normalize(urlInput);
      urlError := "";
      scannedUrl := normalizedUrl;
      isScanning := true;
    }

    method HandleScanComplete()
      modifies this
      ensures Snapshot() == Next(old(Snapshot()), ScanComplete)
    {
      isScanning := false;
      showResults := true;
      currentStep := 1;
    }

    method HandleUnlockReport()
      modifies this
      ensures Snapshot() == Next(old(Snapshot()), UnlockReport)
    {
      currentStep := 2;
    }

    /** The lead form's `onChange` handlers, each replacing the whole lead record. */
    method SetLeadData(lead: CheckoutClient.LeadData)
      modifies this
      ensures Snapshot() == Next(old(Snapshot()), EditLead(lead))
    {
      leadData := lead;
    }

    /**
     * `handleLeadCapture`, with its simulated one-second save and the step change taken as
     * one step. The page leaves the form editable during that second; edits made then are
     * not interleaved here.
     */
    method HandleLeadCapture()
      modifies this
      ensures Snapshot() == Next(old(Snapshot()), LeadCapture)
    {
      currentStep := 3;
    }

    /**
     * `handleProceedToCleanupOffer`: hides the step screens, then posts the lead with a
     * fresh `CCFP-` id and redirects or alerts exactly as the checkout modal does.
     */
    method HandleProceedToCleanupOffer(now: nat, fraction: string, send: JsValue.Json -> CheckoutClient.FetchOutcome)
      returns (checkoutId: string, result: CheckoutClient.SubmitResult)
      modifies this
      ensures Snapshot() == Next(old(Snapshot()), ProceedToCleanupOffer)
      ensures checkoutId == CheckoutClient.ScanId(now, fraction)
      ensures result == CheckoutClient.Submit(send(CheckoutClient.RequestBody(leadData, checkoutId)))
    {
      showResults := false;
      checkoutId := CheckoutClient.ScanId(now, fraction);
      result := CheckoutClient.Submit(send(CheckoutClient.RequestBody(leadData, checkoutId)));
    }

    method HandleProceedToCheckout()
      modifies this
      ensures Snapshot() == Next(old(Snapshot()), ProceedToCheckout)
    {
      showResults := false;
      showCheckout := true;
    }

    /** `handleCheckoutComplete`, without its local storage write and redirect. */
    method HandleCheckoutComplete()
      modifies this
      ensures Snapshot() == Next(old(Snapshot()), CheckoutComplete)
    {
      showCheckout := false;
    }

    method HandleCloseAll()
      modifies this
      ensures Snapshot() == Next(old(Snapshot()), CloseAll)
    {
      isScanning := false;
      showResults := false;
      showCheckout := false;
      showDashboard := false;
      urlInput := "";
      scannedUrl := "";
    }

    method HandleBackToHome()
      modifies this
      ensures Snapshot() == Next(old(Snapshot()), BackToHome)
    {
      showResults := false;
    }
  }

  // ---------------------------------------------------------------------------------------
  // The results preview's risk badge

  /** `violations.some(...)` over the severity. */
  predicate AnyWithSeverity(violations: seq<Content.Violation>, severity: string) {
    exists v :: v in violations && v.severity == severity
  }

  /** The badge level: `high` if any violation is high, else `moderate` if any is moderate, else `low`. */
  function RiskLevel(violations: seq<Content.Violation>): (r: string)
    ensures r in Content.RiskLevels
    ensures r == "low" <==> forall v :: v in violations ==> v.severity != "high" && v.severity != "moderate"
  {
    if AnyWithSeverity(violations, "high") then "high"
    else if AnyWithSeverity(violations, "moderate") then "moderate"
    else "low"
  }

  /** The order of severities: low, moderate, high; an unknown severity ranks with low. */
  function Rank(severity: string): nat {
    if severity == "high" then 2 else if severity == "moderate" then 1 else 0
  }

  /** The badge shows the highest severity among the violations. */
  lemma RiskLevelIsMaxSeverity(violations: seq<Content.Violation>)
    ensures forall v :: v in violations ==> Rank(v.severity) <= Rank(RiskLevel(violations))
    ensures violations != [] ==> exists v :: v in violations && Rank(v.severity) == Rank(RiskLevel(violations))
  {
    var level := RiskLevel(violations);
    if violations != [] && level == "low" {
      assert Rank(violations[0].severity) == 0;
    }
  }

  /** A preview of at least one catalogue violation is never rated low, so its badge reads high or moderate. */
  lemma PreviewNeverLow(perm: seq<nat>, count: int)
    requires Sampling.IsPermutation(perm, |Content.Violations|) && count > 0
    ensures RiskLevel(Content.GetRandomViolations(perm, count)) != "low"
    ensures var badge := Content.GetRiskLevelStyle(RiskLevel(Content.GetRandomViolations(perm, count))).labelText;
      badge == "High Risk" || badge == "Moderate Risk"
  {
    var picked := Content.GetRandomViolations(perm, count);
    assert picked[0] in Content.Violations;
    Content.CatalogueSeverities();
    NotLowWithRatedEntry(picked, picked[0]);
  }

  /** A list holding an entry rated high or moderate is not rated low. */
  lemma NotLowWithRatedEntry(violations: seq<Content.Violation>, v: Content.Violation)
    requires v in violations && (v.severity == "high" || v.severity == "moderate")
    ensures RiskLevel(violations) == "high" || RiskLevel(violations) == "moderate"
  {
    assert AnyWithSeverity(violations, v.severity);
  }

  // ---------------------------------------------------------------------------------------
  // The penalty calculator

  /** A JavaScript number as these computations produce it: an integer or `NaN`. */
  datatype Num = NaN | Int(value: int)

  /** The longest prefix of decimal digits. */
  function DigitPrefix(s: string): (r: string)
    ensures |r| <= |s| && r == s[..|r|]
    ensures forall i :: 0 <= i < |r| ==> '0' <= r[i] <= '9'
    ensures |r| < |s| ==> !('0' <= s[|r|] <= '9')
  {
    if s != [] && '0' <= s[0] <= '9' then [s[0]] + DigitPrefix(s[1..]) else []
  }

  /** `parseInt(s)` in base 10: leading whitespace, an optional sign, then digits up to the first non-digit. */
  function ParseInt(s: string): Num {
    ParseSigned(TrimStart(s))
  }

  /** An optional sign, then the digit prefix of the rest. */
  function ParseSigned(t: string): Num {
    if t != [] && t[0] == '-' then Negate(ParseDigits(t[1..]))
    else if t != [] && t[0] == '+' then ParseDigits(t[1..])
    else ParseDigits(t)
  }

  /** The value of the digit prefix, or `NaN` when there is none. */
  function ParseDigits(t: string): Num {
    var digits := DigitPrefix(t);
    if digits == [] then NaN else Int(DecimalValue(digits))
  }

  function Negate(x: Num): Num {
    if x.NaN? then NaN else Int(0 - x.value)
  }

  /** A string that starts with something other than whitespace is read without trimming. */
  lemma ParseIntUntrimmed(s: string)
    requires s != [] && !IsJsWhitespace(s[0])
    ensures ParseInt(s) == ParseSigned(s)
  {
  }

  lemma SignOrDigitIsNotWhitespace(c: char)
    requires c == '-' || '0' <= c <= '9'
    ensures !IsJsWhitespace(c)
  {
  }

  /** A string of digits is its own digit prefix. */
  lemma DigitPrefixOfDigits(s: string)
    requires forall i :: 0 <= i < |s| ==> '0' <= s[i] <= '9'
    ensures DigitPrefix(s) == s
  {
    var digits := DigitPrefix(s);
    assert digits == s[..|s|];
  }

  /** `parseInt` of a string of digits is their decimal value. */
  lemma ParseIntOfDigits(s: string)
    requires s != [] && forall i :: 0 <= i < |s| ==> '0' <= s[i] <= '9'
    ensures ParseInt(s) == Int(DecimalValue(s))
  {
    SignOrDigitIsNotWhitespace(s[0]);
    ParseIntUntrimmed(s);
    DigitPrefixOfDigits(s);
  }

  /** The decimal text of `m` is read as `m`. */
  lemma ParseDigitsOfDecimal(m: nat)
    ensures ParseDigits(NatToDecimal(m)) == Int(m)
  {
    DigitPrefixOfDigits(NatToDecimal(m));
    DecimalRoundTrip(m);
  }

  /** `-` followed by the decimal text of `m` is read as `-m`. */
  lemma ParseIntOfNegated(m: nat)
    ensures ParseInt("-" + NatToDecimal(m)) == Int(0 - m)
  {
    var t := "-" + NatToDecimal(m);
    SignOrDigitIsNotWhitespace(t[0]);
    ParseIntUntrimmed(t);
    assert t[1..] == NatToDecimal(m);
    ParseDigitsOfDecimal(m);
  }

  /** `parseInt` reads back the decimal text of any integer, negative ones included. */
  lemma ParseIntOfDecimal(n: int)
    ensures ParseInt(IntToDecimal(n)) == Int(n)
  {
    if n < 0 {
      ParseIntOfNegated(-n);
    } else {
      ParseIntOfDigits(NatToDecimal(n));
      DecimalRoundTrip(n);
    }
  }

  /** `Math.round(n * tenths / 10)` for an integer `n`: halves round up. */
  function RoundTenths(n: int, tenths: nat): int {
    (n * tenths + 5) / 10
  }

  /** `transactions ? Math.round(parseInt(transactions) * 0.k) : 0` */
  function MonthlyViolations(transactions: string, tenths: nat): Num {
    if transactions == "" then Int(0)
    else match ParseInt(transactions)
      case NaN => NaN
      case Int(n) => Int(RoundTenths(n, tenths))
  }

  /** Twelve months at $5,000 per violation. */
  function AnnualPenalty(monthly: Num): Num {
    match monthly
    case NaN => NaN
    case Int(m) => Int(m * 5000 * 12)
  }

  const MinExposure := 15000
  const MaxExposure := 250000

  /** `Math.min(Math.max(x, 15000), 250000)`; `NaN` stays `NaN`. */
  function Cap(x: Num): (r: Num)
    ensures x.Int? <==> r.Int?
    ensures r.Int? ==> MinExposure <= r.value <= MaxExposure
    ensures r.Int? && MinExposure <= x.value <= MaxExposure ==> r == x
  {
    match x
    case NaN => NaN
    case Int(v) => Int(if v < MinExposure then MinExposure else if v > MaxExposure then MaxExposure else v)
  }

  /** The displayed range `[cappedLow, cappedHigh]`. */
  function Exposure(transactions: string): (Num, Num) {
    (Cap(AnnualPenalty(MonthlyViolations(transactions, 1))), Cap(AnnualPenalty(MonthlyViolations(transactions, 3))))
  }

  lemma RoundTenthsMonotone(n: int)
    ensures n >= 0 ==> 0 <= RoundTenths(n, 1) <= RoundTenths(n, 3)
    ensures n < 0 ==> RoundTenths(n, 1) <= 0 && RoundTenths(n, 3) <= 0
  {
    if n >= 0 {
      assert n * 1 + 5 <= n * 3 + 5;
    }
  }

  /** For a count `n`, both ends lie in [15000, 250000] and the low end is at most the high end. */
  lemma ExposureOfCount(n: int)
    ensures var low := Cap(AnnualPenalty(Int(RoundTenths(n, 1))));
      var high := Cap(AnnualPenalty(Int(RoundTenths(n, 3))));
      && low.Int? && high.Int?
      && MinExposure <= low.value <= high.value <= MaxExposure
  {
    RoundTenthsMonotone(n);
    var lo, hi := RoundTenths(n, 1), RoundTenths(n, 3);
    if n >= 0 {
      assert lo * 5000 * 12 <= hi * 5000 * 12;
    } else {
      assert lo * 5000 * 12 <= 0 && hi * 5000 * 12 <= 0;
    }
  }

  /**
   * Empty input shows the minimum at both ends; for numeric input both ends lie in
   * [15000, 250000] and the low end is at most the high end; for input `parseInt` cannot
   * read both ends are `NaN`.
   */
  lemma ExposureBounds(transactions: string)
    ensures transactions == "" ==> Exposure(transactions) == (Int(MinExposure), Int(MinExposure))
    ensures transactions != "" && ParseInt(transactions).Int? ==>
      var (low, high) := Exposure(transactions);
      && low.Int? && high.Int?
      && MinExposure <= low.value <= high.value <= MaxExposure
    ensures transactions != "" && ParseInt(transactions).NaN? ==> Exposure(transactions) == (NaN, NaN)
  {
    if transactions == "" {
      assert RoundTenths(0, 1) == 0 && RoundTenths(0, 3) == 0;
    } else {
      ExposureOfParsed(transactions, ParseInt(transactions));
    }
  }

  /** The range for non-empty input, in terms of what `parseInt` made of it. */
  lemma ExposureOfParsed(transactions: string, parsed: Num)
    requires transactions != "" && parsed == ParseInt(transactions)
    ensures parsed.Int? ==>
      var (low, high) := Exposure(transactions);
      && low.Int? && high.Int?
      && MinExposure <= low.value <= high.value <= MaxExposure
    ensures parsed.NaN? ==> Exposure(transactions) == (NaN, NaN)
  {
    if parsed.Int? {
      ExposureOfCount(parsed.value);
    }
  }

  /** `RiskCalculator`: the typed count and whether the estimate has been requested. */
  class RiskCalculator {
    var transactions: string
    var calculated: bool

    constructor ()
      ensures transactions == "" && !calculated
    {
      transactions := "";
      calculated := false;
    }

    /** The input's `onChange`. */
    method SetTransactions(value: string)
      modifies this
      ensures transactions == value && calculated == old(calculated)
    {
      transactions := value;
    }

    /** `calculateRisk`: the estimate is shown once a positive count has been entered. */
    method CalculateRisk()
      modifies this
      ensures transactions == old(transactions)
      ensures calculated <==> old(calculated) || (ParseInt(transactions).Int? && ParseInt(transactions).value > 0)
    {
      var num := ParseInt(transactions);
      if num.Int? && num.value > 0 {
        calculated := true;
      }
    }

    /** The range on display, when the estimate panel is rendered. */
    function Shown(): Option<(Num, Num)>
      reads this
    {
      if calculated && transactions != "" then Some(Exposure(transactions)) else None
    }
  }

  // ---------------------------------------------------------------------------------------
  // The FAQ accordion

  /** `s.filter(i => i !== x)` */
  function Remove(s: seq<int>, x: int): (r: seq<int>)
    ensures x !in r
    ensures forall j :: j != x ==> (j in r <==> j in s)
    ensures |r| <= |s|
  {
    if s == [] then []
    else if s[0] == x then Remove(s[1..], x)
    else [s[0]] + Remove(s[1..], x)
  }

  /** `toggleItem`: drop the index if it is open, otherwise append it. */
  function Toggle(open: seq<int>, index: int): seq<int> {
    if index in open then Remove(open, index) else open + [index]
  }

  /** Toggling flips the index's membership and leaves every other index as it was. */
  lemma ToggleFlipsOnlyIndex(open: seq<int>, index: int)
    ensures index in Toggle(open, index) <==> index !in open
    ensures forall j :: j != index ==> (j in Toggle(open, index) <==> j in open)
  {
  }

  /** Toggling twice restores which items are open. */
  lemma ToggleTwice(open: seq<int>, index: int)
    ensures forall j :: j in Toggle(Toggle(open, index), index) <==> j in open
  {
    ToggleFlipsOnlyIndex(open, index);
    ToggleFlipsOnlyIndex(Toggle(open, index), index);
  }

  /** Removing keeps a list free of repeats. */
  lemma {:induction false} RemoveKeepsDistinct(s: seq<int>, x: int)
    requires Sampling.Distinct(s)
    ensures Sampling.Distinct(Remove(s, x))
  {
    if s != [] {
      assert Sampling.Distinct(s[1..]);
      RemoveKeepsDistinct(s[1..], x);
      if s[0] != x {
        assert s[0] !in s[1..];
        assert s[0] !in Remove(s[1..], x);
      }
    }
  }

  /** The open list never holds an index twice. */
  lemma ToggleKeepsDistinct(open: seq<int>, index: int)
    requires Sampling.Distinct(open)
    ensures Sampling.Distinct(Toggle(open, index))
  {
    if index in open {
      RemoveKeepsDistinct(open, index);
    }
  }

  class Faq {
    var openItems: seq<int>

    constructor ()
      ensures openItems == []
    {
      openItems := [];
    }

    method ToggleItem(index: int)
      modifies this
      ensures openItems == Toggle(old(openItems), index)
    {
      openItems := if index in openItems then Remove(openItems, index) else openItems + [index];
    }
  }

  // ---------------------------------------------------------------------------------------
  // Interval counters

  /** The floor the scarcity counter never drops below. */
  const ScarcityFloor := 5

  /** One scarcity tick: stay at or below 5, otherwise drop by the random `drop` (0 or 1). */
  function NextRemaining(prev: int, drop: int): (r: int)
    requires 0 <= drop <= 1
    ensures prev <= ScarcityFloor ==> r == prev
    ensures prev > ScarcityFloor ==> ScarcityFloor <= r <= prev && r >= prev - 1
  {
    if prev <= ScarcityFloor then prev else prev - drop
  }

  predicate Draws(drops: seq<int>) {
    forall i :: 0 <= i < |drops| ==> 0 <= drops[i] <= 1
  }

  function RemainingAfter(start: int, drops: seq<int>): int
    requires Draws(drops)
  {
    if drops == [] then start else NextRemaining(RemainingAfter(start, drops[..|drops| - 1]), drops[|drops| - 1])
  }

  /** From the configured count, the counter stays between 5 and that count, whatever the draws. */
  lemma {:induction false} RemainingStaysInRange(drops: seq<int>)
    requires Draws(drops)
    ensures ScarcityFloor <= RemainingAfter(Content.CurrentCount, drops) <= Content.CurrentCount
  {
    if drops != [] {
      var prefix := drops[..|drops| - 1];
      assert Draws(prefix);
      RemainingStaysInRange(prefix);
    }
  }

  class ScarcityTimer {
    var remainingScans: int

    constructor ()
      ensures remainingScans == Content.CurrentCount
    {
      remainingScans := Content.CurrentCount;
    }

    /** The thirty-second interval; `drop` is `Math.floor(Math.random() * 2)`. */
    method Tick(drop: int)
      requires 0 <= drop <= 1
      modifies this
      ensures remainingScans == NextRemaining(old(remainingScans), drop)
    {
      if remainingScans > ScarcityFloor {
        remainingScans := remainingScans - drop;
      }
    }
  }

  /** The scan simulation's nine status lines. */
  const StatusCount := 9

  /** One status tick: advance unless the next index would run past the last line. */
  function NextStatus(prev: int): (r: int)
    ensures prev + 1 < StatusCount ==> r == prev + 1
    ensures prev + 1 >= StatusCount ==> r == prev
  {
    if prev + 1 >= StatusCount then prev else prev + 1
  }

  function StatusAfter(ticks: nat): int {
    if ticks == 0 then 0 else NextStatus(StatusAfter(ticks - 1))
  }

  /** The status shown after `n` ticks is line `min(n, 8)`: it climbs and then holds on the last line. */
  lemma {:induction false} StatusClimbsThenHolds(ticks: nat)
    ensures StatusAfter(ticks) == Sampling.Min(ticks, StatusCount - 1)
  {
    if ticks > 0 {
      StatusClimbsThenHolds(ticks - 1);
    }
  }

  class ScanSimulation {
    var currentStatus: int

    constructor ()
      ensures currentStatus == 0
    {
      currentStatus := 0;
    }

    method Tick()
      modifies this
      ensures currentStatus == NextStatus(old(currentStatus))
    {
      var next := currentStatus + 1;
      if next < StatusCount {
        currentStatus := next;
      }
    }
  }
}
