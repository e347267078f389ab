/**
 * The compliance report generator: fills the HTML template's `{{field}}` placeholders with a
 * chain of global replaces, renders it to `<reportsDir>/<scanId>.pdf`, and formats the
 * violation list. The template file, the headless renderer and the file system are inputs.
 */
module ReportTemplate {
  import opened Text
  import opened Wrappers
  import Replace
  import Sampling
  import Retention

  datatype ReportData = ReportData(
    scanId: string,
    date: string,
    businessName: string,
    ownerName: string,
    email: string,
    violationsCount: nat,
    violationsList: string)

  /** `{{key}}` */
  function Token(key: string): string {
    "{{" + key + "}}"
  }

  /** The seven placeholder names, in the order the chain replaces them. */
  const Fields: seq<string> :=
    ["scanId", "date", "businessName", "ownerName", "email", "violationsCount", "violationsList"]

  /** The text inserted for each placeholder. */
  function FieldValue(data: ReportData, key: string): Option<string> {
    if key == "scanId" then Some(data.scanId)
    else if key == "date" then Some(data.date)
    else if key == "businessName" then Some(data.businessName)
    else if key == "ownerName" then Some(data.ownerName)
    else if key == "email" then Some(data.email)
    else if key == "violationsCount" then Some(NatToDecimal(data.violationsCount))
    else if key == "violationsList" then Some(data.violationsList)
    else None
  }

  /** The replace chain, in the source's order: every occurrence of each placeholder in turn. */
  function FillPlaceholders(template: string, data: ReportData): string {
    var t1 := Replace.ReplaceAll(template, Token("scanId"), data.scanId);
    var t2 := Replace.ReplaceAll(t1, Token("date"), data.date);
    var t3 := Replace.ReplaceAll(t2, Token("businessName"), data.businessName);
    var t4 := Replace.ReplaceAll(t3, Token("ownerName"), data.ownerName);
    var t5 := Replace.ReplaceAll(t4, Token("email"), data.email);
    var t6 := Replace.ReplaceAll(t5, Token("violationsCount"), NatToDecimal(data.violationsCount));
    Replace.ReplaceAll(t6, Token("violationsList"), data.violationsList)
  }

  /** A template in which none of the seven placeholders occurs comes back unchanged. */
  lemma FillWithoutPlaceholders(template: string, data: ReportData)
    requires forall k :: k in Fields ==> !Contains(template, Token(k))
    ensures FillPlaceholders(template, data) == template
  {
    assert Fields[0] == "scanId" && Fields[1] == "date" && Fields[2] == "businessName";
    assert Fields[3] == "ownerName" && Fields[4] == "email" && Fields[5] == "violationsCount";
    assert Fields[6] == "violationsList";
    Replace.ReplaceAbsent(template, Token("scanId"), data.scanId);
    Replace.ReplaceAbsent(template, Token("date"), data.date);
    Replace.ReplaceAbsent(template, Token("businessName"), data.businessName);
    Replace.ReplaceAbsent(template, Token("ownerName"), data.ownerName);
    Replace.ReplaceAbsent(template, Token("email"), data.email);
    Replace.ReplaceAbsent(template, Token("violationsCount"), NatToDecimal(data.violationsCount));
    Replace.ReplaceAbsent(template, Token("violationsList"), data.violationsList);
  }

  /** A field value `$&` re-inserts the placeholder it was meant to replace. */
  lemma DollarAmpersandKeepsPlaceholder(key: string)
    ensures Replace.ReplaceAll(Token(key), Token(key), "$&") == Token(key)
  {
    var p, rep := Token(key), "$&";
    assert rep[0] == '$' && rep[1] == '&' && rep[1] in "$&`'" && rep[2..] == [];
    assert Replace.Expand(rep, p, [], []) == p;
    assert p[..|p|] == p && p[|p|..] == [];
    assert Replace.ReplaceFrom([], p, p, rep) == p + Replace.ReplaceFrom(p, [], p, rep);
  }

  // ---------------------------------------------------------------------------------------
  // The template as literal text and placeholders, to compare the chain with a simultaneous
  // substitution.

  datatype Segment = Lit(text: string) | Hole(key: string)

  /** The template text a list of segments spells. */
  function Spell(t: seq<Segment>): string {
    if t == [] then "" else SpellSegment(t[0]) + Spell(t[1..])
  }

  function SpellSegment(g: Segment): string {
    match g
    case Lit(x) => x
    case Hole(k) => Token(k)
  }

  /** Text in which no placeholder can start: no `{{`, and no trailing `{`. */
  predicate NoOpening(x: string) {
    !Contains(x, "{{") && !EndsWith(x, "{")
  }

  predicate BraceFree(k: string) {
    '{' !in k && '}' !in k
  }

  /** Literal parts open no placeholder and placeholder names hold no braces. */
  predicate WellFormed(t: seq<Segment>) {
    forall g :: g in t ==> (g.Lit? ==> NoOpening(g.text)) && (g.Hole? ==> BraceFree(g.key))
  }

  /** Every placeholder named `key` becomes the literal `value`. */
  function Fill(t: seq<Segment>, key: string, value: string): (r: seq<Segment>)
    ensures |r| == |t|
  {
    seq(|t|, i requires 0 <= i < |t| => if t[i] == Hole(key) then Lit(value) else t[i])
  }

  /** Simultaneous substitution: each known placeholder at once becomes its field's text. */
  function Resolve(t: seq<Segment>, data: ReportData): (r: seq<Segment>)
    ensures |r| == |t|
  {
    seq(|t|, i requires 0 <= i < |t| =>
      if t[i].Hole? && FieldValue(data, t[i].key).Some? then Lit(FieldValue(data, t[i].key).value) else t[i])
  }

  lemma NoOpeningSuffix(x: string)
    requires NoOpening(x) && x != []
    ensures NoOpening(x[1..])
  {
    var x' := x[1..];
    forall i | 0 <= i <= |x'| - |"{{"| ensures !OccursAt(x', "{{", i) {
      assert x'[i..i + 2] == x[i + 1..i + 3];
      assert !OccursAt(x, "{{", i + 1);
    }
  }

  /** A placeholder cannot start inside a non-empty prefix that opens none. */
  lemma NoTokenAtStart(x: string, y: string, k: string)
    requires NoOpening(x) && x != []
    ensures var s := x + y; |s| < |Token(k)| || s[..|Token(k)|] != Token(k)
  {
    var s := x + y;
    var p := Token(k);
    if |s| >= |p| && s[..|p|] == p {
      assert s[0] == s[..|p|][0] == '{' && s[1] == s[..|p|][1] == '{';
      assert x[0] == '{';
      if |x| > 1 {
        assert x[0..2] == "{{";
        assert OccursAt(x, "{{", 0);
      }
      assert false;
    }
  }

  /** Substitution passes over a prefix in which no occurrence of a placeholder starts. */
  lemma {:induction false} SubstituteSkips(x: string, y: string, k: string, v: string)
    requires NoOpening(x)
    ensures Replace.Substitute(x + y, Token(k), v) == x + Replace.Substitute(y, Token(k), v)
    decreases |x|
  {
    var p := Token(k);
    var s := x + y;
    if x == [] {
      assert s == y;
    } else if |s| < |p| {
      assert Replace.Substitute(y, p, v) == y;
    } else {
      NoTokenAtStart(x, y, k);
      assert s[1..] == x[1..] + y;
      NoOpeningSuffix(x);
      SubstituteSkips(x[1..], y, k, v);
      assert s[0] == x[0];
      assert x == [x[0]] + x[1..];
    }
  }

  /** A placeholder with another name is not a match for `Token(k)`. */
  lemma OtherTokenNoMatch(key: string, y: string, k: string)
    requires BraceFree(key) && BraceFree(k) && key != k
    ensures var s := Token(key) + y; |s| < |Token(k)| || s[..|Token(k)|] != Token(k)
  {
    var s := Token(key) + y;
    var p := Token(k);
    if |s| >= |p| {
      if |key| == |k| {
        var j :| 0 <= j < |k| && key[j] != k[j];
        assert s[2 + j] == key[j] && p[2 + j] == k[j];
        assert s[..|p|][2 + j] != p[2 + j];
      } else if |key| > |k| {
        assert s[2 + |k|] == key[|k|] && key[|k|] in key;
        assert s[..|p|][2 + |k|] != p[2 + |k|];
      } else {
        assert p[2 + |key|] == k[|key|] && k[|key|] in k;
        assert s[..|p|][2 + |key|] != p[2 + |key|];
      }
    }
  }

  /** What follows the first brace of a placeholder opens no placeholder. */
  lemma TokenTailOpensNothing(key: string)
    requires BraceFree(key)
    ensures NoOpening("{" + key + "}}")
  {
    var rest := "{" + key + "}}";
    forall i | 0 <= i <= |rest| - |"{{"| ensures !OccursAt(rest, "{{", i) {
      if i < |key| {
        assert rest[i + 1] == key[i];
      }
      assert rest[i + 1] != '{';
      assert rest[i..i + 2][1] == rest[i + 1];
    }
    assert rest[|rest| - 1..] == "}";
  }

  /** Substitution passes over a placeholder with another name. */
  lemma SubstituteSkipsOtherToken(key: string, y: string, k: string, v: string)
    requires BraceFree(key) && BraceFree(k) && key != k
    ensures Replace.Substitute(Token(key) + y, Token(k), v) == Token(key) + Replace.Substitute(y, Token(k), v)
  {
    var s := Token(key) + y;
    var p := Token(k);
    var rest := "{" + key + "}}";
    var sub := Replace.Substitute(y, p, v);
    OtherTokenNoMatch(key, y, k);
    assert Token(key) == ['{'] + rest;
    assert s == ['{'] + (rest + y);
    TokenTailOpensNothing(key);
    SubstituteSkips(rest, y, k, v);
    if |s| < |p| {
      assert sub == y;
    } else {
      assert s[1..] == rest + y;
      assert Replace.Substitute(s, p, v) == ['{'] + (rest + sub);
      ConcatAssoc(['{'], rest, sub);
    }
  }

  /** Concatenation regroups, stated once so the solver need not search for it. */
  lemma ConcatAssoc(a: string, b: string, c: string)
    ensures a + (b + c) == (a + b) + c
  {
  }

  /** A placeholder with the name is replaced by the value. */
  lemma SubstituteToken(y: string, k: string, v: string)
    ensures Replace.Substitute(Token(k) + y, Token(k), v) == v + Replace.Substitute(y, Token(k), v)
  {
    var s := Token(k) + y;
    assert s[..|Token(k)|] == Token(k) && s[|Token(k)|..] == y;
  }

  lemma SpellCons(g: Segment, t: seq<Segment>)
    ensures Spell([g] + t) == SpellSegment(g) + Spell(t)
  {
    assert ([g] + t)[1..] == t;
  }

  /** One replace of the chain fills exactly the placeholders with its name. */
  lemma {:induction false} SubstituteFills(t: seq<Segment>, k: string, v: string)
    requires WellFormed(t) && BraceFree(k)
    ensures Replace.Substitute(Spell(t), Token(k), v) == Spell(Fill(t, k, v))
    decreases |t|
  {
    if t != [] {
      var g, rest := t[0], t[1..];
      assert t == [g] + rest;
      assert Fill(t, k, v) == [Fill(t, k, v)[0]] + Fill(rest, k, v);
      SpellCons(g, rest);
      SpellCons(Fill(t, k, v)[0], Fill(rest, k, v));
      assert WellFormed(rest) by {
        forall h | h in rest ensures h in t { }
      }
      SubstituteFills(rest, k, v);
      match g
      case Lit(x) => SubstituteSkips(x, Spell(rest), k, v);
      case Hole(key) =>
        if key == k {
          SubstituteToken(Spell(rest), k, v);
        } else {
          SubstituteSkipsOtherToken(key, Spell(rest), k, v);
        }
    }
  }

  /** Filling with a value that opens no placeholder keeps a template well formed. */
  lemma FillWellFormed(t: seq<Segment>, k: string, v: string)
    requires WellFormed(t) && NoOpening(v)
    ensures WellFormed(Fill(t, k, v))
  {
    forall g | g in Fill(t, k, v)
      ensures (g.Lit? ==> NoOpening(g.text)) && (g.Hole? ==> BraceFree(g.key))
    {
      var i :| 0 <= i < |t| && Fill(t, k, v)[i] == g;
      assert t[i] in t;
    }
  }

  /** A value fit for the chain: it opens no placeholder and has no `$` pattern. */
  predicate PlainValue(v: string) {
    NoOpening(v) && '$' !in v
  }

  predicate PlainData(data: ReportData) {
    && PlainValue(data.scanId) && PlainValue(data.date) && PlainValue(data.businessName)
    && PlainValue(data.ownerName) && PlainValue(data.email) && PlainValue(data.violationsList)
  }

  /** The decimal count never opens a placeholder nor holds `$`. */
  lemma DecimalIsPlain(n: nat)
    ensures PlainValue(NatToDecimal(n))
  {
    var d := NatToDecimal(n);
    NoCharNoPattern(d, "{{");
  }

  /** The seven placeholder names hold no braces. */
  lemma FieldNamesBraceFree()
    ensures BraceFree("scanId") && BraceFree("date") && BraceFree("businessName") && BraceFree("ownerName")
    ensures BraceFree("email") && BraceFree("violationsCount") && BraceFree("violationsList")
  {
  }

  /** One replace of the chain on a well formed template, as a fill. */
  lemma ChainStep(t: seq<Segment>, k: string, v: string)
    requires WellFormed(t) && BraceFree(k) && PlainValue(v)
    ensures Replace.ReplaceAll(Spell(t), Token(k), v) == Spell(Fill(t, k, v))
    ensures WellFormed(Fill(t, k, v))
  {
    Replace.ReplaceIsSubstitute([], Spell(t), Token(k), v);
    SubstituteFills(t, k, v);
    FillWellFormed(t, k, v);
  }

  /** The seven fills in the chain's order. */
  function FillAll(t: seq<Segment>, data: ReportData): seq<Segment> {
    var t1 := Fill(t, "scanId", data.scanId);
    var t2 := Fill(t1, "date", data.date);
    var t3 := Fill(t2, "businessName", data.businessName);
    var t4 := Fill(t3, "ownerName", data.ownerName);
    var t5 := Fill(t4, "email", data.email);
    var t6 := Fill(t5, "violationsCount", NatToDecimal(data.violationsCount));
    Fill(t6, "violationsList", data.violationsList)
  }

  /** Filling the seven names one after another fills each placeholder once, with its own field. */
  lemma FillAllResolves(t: seq<Segment>, data: ReportData)
    ensures FillAll(t, data) == Resolve(t, data)
  {
    var r := FillAll(t, data);
    forall i | 0 <= i < |t| ensures r[i] == Resolve(t, data)[i] {
    }
  }

  /**
   * When the template's literal text opens no placeholder and no field value opens a
   * placeholder or holds a `$`, the sequential chain of replaces equals substituting all
   * seven placeholders at once; other placeholders stay as they are.
   */
  lemma ChainIsSimultaneous(t: seq<Segment>, data: ReportData)
    requires WellFormed(t) && PlainData(data)
    ensures FillPlaceholders(Spell(t), data) == Spell(Resolve(t, data))
  {
    var count := NatToDecimal(data.violationsCount);
    DecimalIsPlain(data.violationsCount);
    FieldNamesBraceFree();
    var t1 := Fill(t, "scanId", data.scanId);
    ChainStep(t, "scanId", data.scanId);
    var t2 := Fill(t1, "date", data.date);
    ChainStep(t1, "date", data.date);
    var t3 := Fill(t2, "businessName", data.businessName);
    ChainStep(t2, "businessName", data.businessName);
    var t4 := Fill(t3, "ownerName", data.ownerName);
    ChainStep(t3, "ownerName", data.ownerName);
    var t5 := Fill(t4, "email", data.email);
    ChainStep(t4, "email", data.email);
    var t6 := Fill(t5, "violationsCount", count);
    ChainStep(t5, "violationsCount", count);
    ChainStep(t6, "violationsList", data.violationsList);
    FillAllResolves(t, data);
  }

  // ---------------------------------------------------------------------------------------
  // The generated file and the violation list.

  /** `path.join(reportsDir, `${scanId}.pdf`)` for a directory path without a trailing `/`. */
  function ReportPath(reportsDir: string, scanId: string): string {
    reportsDir + "/" + ReportFileName(scanId)
  }

  function ReportFileName(scanId: string): (name: string)
    ensures Retention.IsReport(name)
    ensures |name| == |scanId| + 4 && name[..|scanId|] == scanId
  {
    scanId + ".pdf"
  }

  /** Distinct scan ids name distinct files, so the file stem is the scan id exactly. */
  lemma ReportFileNameInjective(a: string, b: string)
    requires ReportFileName(a) == ReportFileName(b)
    ensures a == b
  {
    assert a == ReportFileName(a)[..|a|];
  }

  /**
   * `generateComplianceReport(data)`. `template` is the template file's content, or None when
   * reading it throws; `rendered` says whether the renderer produced the PDF, and `closed`
   * whether `browser.close()` then returned normally. The file `<scanId>.pdf` is written,
   * with mtime `now`, exactly when the template was read and rendered; the call succeeds
   * and returns its path only when the browser also closed. Any failure, including a close
   * that throws after the file was written, gives `Failed to generate compliance report`.
   */
  method GenerateComplianceReport(
    dir: Retention.ReportsDir, reportsDir: string, data: ReportData,
    template: Option<string>, rendered: bool, closed: bool, now: int)
    returns (result: Result<string, string>, html: string)
    requires dir.Valid()
    modifies dir
    ensures dir.Valid() && dir.present
    ensures template.Some? ==> html == FillPlaceholders(template.value, data)
    ensures result.Success? <==> template.Some? && rendered && closed
    ensures result.Success? ==> result.value == ReportPath(reportsDir, data.scanId)
    ensures result.Failure? ==> result.error == "Failed to generate compliance report"
    ensures template.Some? && rendered ==> dir.files == old(dir.files)[ReportFileName(data.scanId) := now]
    ensures !(template.Some? && rendered) ==> dir.files == old(dir.files)
  {
    if !dir.present {
      dir.present := true;
    }
    html := "";
    if template.None? {
      return Failure("Failed to generate compliance report"), html;
    }
    html := template.value;
    html := Replace.ReplaceAll(html, Token("scanId"), data.scanId);
    html := Replace.ReplaceAll(html, Token("date"), data.date);
    html := Replace.ReplaceAll(html, Token("businessName"), data.businessName);
    html := Replace.ReplaceAll(html, Token("ownerName"), data.ownerName);
    html := Replace.ReplaceAll(html, Token("email"), data.email);
    html := Replace.ReplaceAll(html, Token("violationsCount"), NatToDecimal(data.violationsCount));
    html := Replace.ReplaceAll(html, Token("violationsList"), data.violationsList);
    if !rendered {
      return Failure("Failed to generate compliance report"), html;
    }
    dir.files := dir.files[ReportFileName(data.scanId) := now];
    if !closed {
      return Failure("Failed to generate compliance report"), html;
    }
    result := Success(ReportPath(reportsDir, data.scanId));
  }

  /**
   * `getRandomViolations(count = 3)` on the list loaded from the violations file: the random
   * sort reorders the loaded array in place (as `perm` says), then the first
   * `Math.min(count, length)` entries are returned.
   */
  method GetRandomViolations(loaded: array<string>, perm: seq<nat>, count: int := 3)
    returns (picked: seq<string>)
    requires Sampling.IsPermutation(perm, loaded.Length)
    modifies loaded
    ensures loaded[..] == Sampling.Permute(old(loaded[..]), perm)
    ensures picked == Sampling.Sample(old(loaded[..]), perm, count)
  {
    var original := loaded[..];
    for i := 0 to loaded.Length
      invariant forall j :: 0 <= j < i ==> loaded[j] == original[perm[j]]
    {
      loaded[i] := original[perm[i]];
    }
    picked := loaded[..Sampling.SliceEnd(count, loaded.Length)];
  }

  const ListSeparator := "\n            "

  function ListItem(v: string): string {
    "<li>" + v + "</li>"
  }

  /** `formatViolationsList(violations)`: one `<li>` per violation, joined by the separator. */
  function FormatViolationsList(violations: seq<string>): string {
    if violations == [] then ""
    else if |violations| == 1 then ListItem(violations[0])
    else ListItem(violations[0]) + ListSeparator + FormatViolationsList(violations[1..])
  }

  /** Appending a violation appends one separator and one item, so items keep input order. */
  lemma {:induction false} FormatAppend(violations: seq<string>, v: string)
    requires violations != []
    ensures FormatViolationsList(violations + [v])
      == FormatViolationsList(violations) + ListSeparator + ListItem(v)
    decreases |violations|
  {
    var vs := violations + [v];
    assert vs[0] == violations[0];
    if |violations| > 1 {
      assert vs[1..] == violations[1..] + [v];
      FormatAppend(violations[1..], v);
    } else {
      assert vs[1..] == [v];
    }
  }

  /** The list's length: every item adds its text plus 9 tag characters, every gap 13. */
  lemma {:induction false} FormatLength(violations: seq<string>)
    requires violations != []
    ensures |FormatViolationsList(violations)| == TotalLength(violations) + 9 * |violations| + 13 * (|violations| - 1)
    decreases |violations|
  {
    if |violations| > 1 {
      FormatLength(violations[1..]);
    }
  }

  function TotalLength(vs: seq<string>): nat {
    if vs == [] then 0 else |vs[0]| + TotalLength(vs[1..])
  }
}
