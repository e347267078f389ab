/** The landing page's static configuration: the violation catalogue, risk styles and testimonials. */
module Content {
  import Sampling

  datatype Violation = Violation(id: string, title: string, description: string, severity: string, rule: string)

  /** The fixed catalogue the scan preview samples from. */
  const Violations: seq<Violation> := [
    Violation("ada-title-iii", "ADA Title III – Missing Alt Text on Images",
      "Images lack descriptive alt text for screen readers", "high", "ADA Title III, Section 36.303"),
    Violation("sb-474-cookies", "California SB-474 – Cookie Banner Missing Consent Options",
      "Cookie consent banner lacks proper opt-in/opt-out options", "high", "California SB-474, Civil Code 1798.140"),
    Violation("doj-accessibility", "DOJ Website Compliance – Missing Accessibility Statement",
      "Website lacks required accessibility statement and contact info", "moderate", "DOJ ADA Compliance Guidelines"),
    Violation("ccpa-privacy", "CCPA Privacy Policy – Missing Consumer Rights Section",
      "Privacy policy lacks required CCPA consumer rights disclosure", "moderate", "CCPA Civil Code 1798.100-1798.199"),
    Violation("ftc-pricing", "FTC Pricing Disclosure – Hidden Fees in Checkout",
      "Additional fees not clearly disclosed before checkout", "high", "FTC Act Section 5, 15 U.S.C. \U{A7} 45"),
    Violation("ada-navigation", "ADA Navigation – Missing Skip Links",
      "Website lacks skip navigation links for keyboard users", "moderate", "ADA Title III, Section 36.303")
  ]

  datatype RiskStyle = RiskStyle(color: string, bgColor: string, borderColor: string, labelText: string)

  const HighStyle := RiskStyle("#dc2626", "#fef2f2", "#fecaca", "High Risk")
  const ModerateStyle := RiskStyle("#f97316", "#fff7ed", "#fed7aa", "Moderate Risk")
  const LowStyle := RiskStyle("#eab308", "#fefce8", "#fde047", "Low Risk")

  const RiskLevels: map<string, RiskStyle> := map["high" := HighStyle, "moderate" := ModerateStyle, "low" := LowStyle]

  /** Scarcity settings: the weekly allowance and the count the timer starts from. */
  const WeeklyLimit := 50
  const CurrentCount := 23

  datatype Testimonial = Testimonial(quote: string, author: string, role: string, location: string)

  const Testimonials: seq<Testimonial> := [
    Testimonial("This saved us from a $50K lawsuit. The templates made fixing everything so easy.",
      "Sarah M.", "Restaurant Owner", "Los Angeles"),
    Testimonial("We had no idea about these violations. Fixed them all in one weekend.",
      "Mike R.", "Gym Owner", "San Diego"),
    Testimonial("The ongoing monitoring gives us peace of mind. Worth every penny.",
      "Jennifer L.", "E-commerce Director", "San Francisco")
  ]

  /**
   * `getRandomViolations(count = 3)`: the first `Math.min(count, 6)` entries of a reordered
   * copy of the catalogue. The catalogue itself is a constant and is never reordered.
   */
  function GetRandomViolations(perm: seq<nat>, count: int := 3): (r: seq<Violation>)
    requires Sampling.IsPermutation(perm, |Violations|)
    ensures count >= 0 ==> |r| == Sampling.Min(count, |Violations|)
    ensures forall v :: v in r ==> v in Violations
    ensures forall i, j :: 0 <= i < j < |r| ==> r[i].id != r[j].id
  {
    CatalogueIdsDistinct();
    SampleKeepsIdsDistinct(Violations, perm, count);
    Sampling.Sample(Violations, perm, count)
  }

  /** A sample of a list whose ids are distinct is drawn from it and has distinct ids. */
  lemma SampleKeepsIdsDistinct(catalogue: seq<Violation>, perm: seq<nat>, count: int)
    requires Sampling.IsPermutation(perm, |catalogue|)
    requires forall i, j :: 0 <= i < j < |catalogue| ==> catalogue[i].id != catalogue[j].id
    ensures var r := Sampling.Sample(catalogue, perm, count);
      && (count >= 0 ==> |r| == Sampling.Min(count, |catalogue|))
      && (forall v :: v in r ==> v in catalogue)
      && (forall i, j :: 0 <= i < j < |r| ==> r[i].id != r[j].id)
  {
    Sampling.SampleFromSource(catalogue, perm, count);
    var r := Sampling.Sample(catalogue, perm, count);
    forall i, j | 0 <= i < j < |r| ensures r[i].id != r[j].id {
      assert r[i] == catalogue[perm[i]] && r[j] == catalogue[perm[j]];
    }
  }

  /** `getRiskLevelStyle(level)`: the style of a known level, and the moderate style for any other key. */
  function GetRiskLevelStyle(level: string): (r: RiskStyle)
    ensures r in RiskLevels.Values
    ensures level == "high" ==> r == HighStyle && r.labelText == "High Risk"
    ensures level == "low" ==> r == LowStyle && r.labelText == "Low Risk"
    ensures level != "high" && level != "low" ==> r == ModerateStyle && r.labelText == "Moderate Risk"
  {
    if level in RiskLevels then RiskLevels[level] else RiskLevels["moderate"]
  }

  /** No two catalogue entries share an id. */
  lemma CatalogueIdsDistinct()
    ensures forall i, j :: 0 <= i < j < |Violations| ==> Violations[i].id != Violations[j].id
  {
  }

  /** Every catalogue entry is rated `high` or `moderate`; none is `low`. */
  lemma CatalogueSeverities()
    ensures forall v :: v in Violations ==> v.severity == "high" || v.severity == "moderate"
  {
  }
}
