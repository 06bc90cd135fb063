/**
  * The three independent ways the plugin turns a check's free-text result
  * into a severity:
  *   - RowStatus: the CSS class of a row in the category table, a
  *     case-insensitive first-match substring ladder;
  *   - StatusClass: the CSS class of a line in a dashboard summary box, an
  *     exact, case-sensitive match on six literals;
  *   - Severity: the bucket the AJAX summary endpoint counts a check in, a
  *     different case-insensitive ladder that ends in a default bucket.
  * They disagree with each other; the lemmas at the end pin the
  * disagreements down on concrete results the probes produce.
  */
module Status {
  import opened Strings

  // ---------------------------------------------------------------------
  // Table rows (Site_Vitals_Table::column_default)
  // ---------------------------------------------------------------------

  datatype RowStatus = RowGood | RowNeedsAttention | RowNeedsImprovement

  function RowCssClass(r: RowStatus): string {
    match r
    case RowGood => "site-vital-status-good"
    case RowNeedsAttention => "site-vital-status-needs-attention"
    case RowNeedsImprovement => "site-vital-status-needs-improvement"
  }

  /** The ladder on an already lower-cased status. */
  function RowStatusOfLower(s: string): RowStatus {
    if Contains(s, "no caching detected") then RowNeedsAttention
    else if Contains(s, "needs attention") then RowNeedsAttention
    else if Contains(s, "needs improvement") || Contains(s, "needs optimization") then RowNeedsImprovement
    else RowGood
  }

  /** strtolower first, then the ladder. */
  function RowStatusOf(result: string): RowStatus {
    RowStatusOfLower(Lower(result))
  }

  // ---------------------------------------------------------------------
  // Dashboard summary lines (Site_Vitals_For_WordPress::get_status_class)
  // ---------------------------------------------------------------------

  /** A PHP `switch` on a string compares with ==, which for these non-numeric labels is string equality. */
  function StatusClass(status: string): (r: string)
    ensures r == "status-good" <==> status == "Good" || status == "Caching Active"
    ensures r == "status-warning" <==> status == "Needs Attention" || status == "Needs Optimization"
    ensures r == "status-danger" <==> status == "Needs Improvement" || status == "No Caching Detected"
    ensures r == "status-default" <==> status !in StatusClassLabels()
  {
    match status
    case "Good" => "status-good"
    case "Needs Attention" => "status-warning"
    case "Needs Improvement" => "status-danger"
    case "No Caching Detected" => "status-danger"
    case "Caching Active" => "status-good"
    case "Needs Optimization" => "status-warning"
    case _ => "status-default"
  }

  /** The six case labels of get_status_class. */
  function StatusClassLabels(): set<string> {
    {"Good", "Needs Attention", "Needs Improvement", "No Caching Detected", "Caching Active", "Needs Optimization"}
  }

  // ---------------------------------------------------------------------
  // Summary counts (site_vitals_get_category_data)
  // ---------------------------------------------------------------------

  datatype Bucket = Good | Warning | Danger

  predicate IsGoodPhrase(s: string) {
    Contains(s, "good") || Contains(s, "caching active")
  }

  predicate IsWarningPhrase(s: string) {
    || Contains(s, "needs attention")
    || Contains(s, "needs optimization")
    || Contains(s, "no caching detected")
    || Contains(s, "no seo plugins detected")
    || Contains(s, "no sitemap found")
    || Contains(s, "fair")
  }

  /** The ladder on an already lower-cased status. */
  function BucketOfLower(s: string): Bucket {
    if IsGoodPhrase(s) then Good
    else if IsWarningPhrase(s) then Warning
    else if Contains(s, "needs improvement") then Danger
    else Warning
  }

  /** strtolower first, then the ladder. */
  function Severity(status: string): Bucket {
    BucketOfLower(Lower(status))
  }

  /** A good phrase wins over every warning or danger phrase. */
  lemma GoodFirst(status: string)
    ensures Severity(status) == Good <==> IsGoodPhrase(Lower(status))
  {
  }

  /** Warning: a warning phrase without a good phrase, or nothing recognised at all. */
  lemma WarningCases(status: string)
    ensures Severity(status) == Warning <==>
      !IsGoodPhrase(Lower(status)) &&
      (IsWarningPhrase(Lower(status)) || !Contains(Lower(status), "needs improvement"))
  {
  }

  /** Danger is reached only by "needs improvement", and only past the first two rungs. */
  lemma DangerOnlyNeedsImprovement(status: string)
    ensures Severity(status) == Danger <==>
      Contains(Lower(status), "needs improvement") &&
      !IsGoodPhrase(Lower(status)) && !IsWarningPhrase(Lower(status))
  {
  }

  /** Lower-casing first makes the bucket insensitive to the case of the status. */
  lemma {:induction false} SeverityIgnoresCase(a: string, b: string)
    requires Lower(a) == Lower(b)
    ensures Severity(a) == Severity(b)
  {
  }

  // A row the table colours as needing attention is never counted as danger,
  // and a row counted as danger is always coloured as needing improvement.

  lemma RowAttentionNotDanger(status: string)
    requires RowStatusOf(status) == RowNeedsAttention
    ensures Severity(status) != Danger
  {
  }

  lemma DangerIsRowImprovement(status: string)
    requires Severity(status) == Danger
    ensures RowStatusOf(status) == RowNeedsImprovement
  {
  }

  /**
    * The row ladder on the lower-cased status: an attention phrase first,
    * then an improvement or optimization phrase, and good otherwise.
    */
  lemma RowLadderCases(status: string)
    ensures RowStatusOf(status) == RowNeedsAttention <==>
      Contains(Lower(status), "no caching detected") || Contains(Lower(status), "needs attention")
    ensures RowStatusOf(status) == RowNeedsImprovement <==>
      !Contains(Lower(status), "no caching detected") && !Contains(Lower(status), "needs attention") &&
      (Contains(Lower(status), "needs improvement") || Contains(Lower(status), "needs optimization"))
    ensures RowStatusOf(status) == RowGood <==>
      !Contains(Lower(status), "no caching detected") && !Contains(Lower(status), "needs attention") &&
      !Contains(Lower(status), "needs improvement") && !Contains(Lower(status), "needs optimization")
  {
  }

  // ---------------------------------------------------------------------
  // Absent letters rule phrases out: every good phrase has a 'g', every
  // warning phrase an 'a' or a 'c', and so on.
  // ---------------------------------------------------------------------

  lemma NoGoodPhrase(s: string)
    requires 'g' !in s
    ensures !IsGoodPhrase(s)
  {
    AbsentChar(s, "good", 0);
    AbsentChar(s, "caching active", 6);
  }

  lemma NoWarningPhrase(s: string)
    requires 'a' !in s && 'c' !in s
    ensures !IsWarningPhrase(s)
  {
    AbsentChar(s, "needs attention", 6);
    AbsentChar(s, "needs optimization", 13);
    AbsentChar(s, "no caching detected", 3);
    AbsentChar(s, "no seo plugins detected", 19);
    AbsentChar(s, "no sitemap found", 8);
    AbsentChar(s, "fair", 1);
  }

  /** Without 'a' there is neither "no caching detected" nor "needs attention". */
  lemma NoAttentionPhrase(s: string)
    requires 'a' !in s
    ensures !Contains(s, "no caching detected") && !Contains(s, "needs attention")
  {
    AbsentChar(s, "no caching detected", 4);
    AbsentChar(s, "needs attention", 6);
  }

  /** Without 'm' there is neither "needs improvement" nor "needs optimization". */
  lemma NoImprovementPhrase(s: string)
    requires 'm' !in s
    ensures !Contains(s, "needs improvement") && !Contains(s, "needs optimization")
  {
    AbsentChar(s, "needs improvement", 7);
    AbsentChar(s, "needs optimization", 10);
  }

  // ---------------------------------------------------------------------
  // Concrete statuses produced by the probes. Each example first lowers
  // the literal (a lemma of its own, to keep each proof small), then
  // runs the ladders on the lowered text.
  // ---------------------------------------------------------------------

  /** Both ladders see only the lower-cased status. */
  lemma LowerThenLadders(status: string, s: string)
    requires Lower(status) == s
    ensures Severity(status) == BucketOfLower(s) && RowStatusOf(status) == RowStatusOfLower(s)
  {
  }

  lemma LowerGood() ensures Lower("Good") == "good" {}
  lemma LowerTimedGood() ensures Lower("Good (0.52s)") == "good (0.52s)" {}
  lemma LowerTimedNeedsImprovement() ensures Lower("Needs Improvement (1.23s)") == "needs improvement (1.23s)" {}
  lemma LowerNoCaching() ensures Lower("No Caching Detected") == "no caching detected" {}
  lemma LowerNeedsOptimization() ensures Lower("Needs Optimization") == "needs optimization" {}
  lemma LowerError() ensures Lower("Error") == "error" {}
  lemma LowerFair() ensures Lower("Fair") == "fair" {}
  lemma LowerUnchecked() ensures Lower("Unchecked") == "unchecked" {}
  lemma LowerSeoPluginActive() ensures Lower("SEO Plugin Active") == "seo plugin active" {}
  lemma LowerNoSeoPlugins() ensures Lower("No SEO Plugins Detected") == "no seo plugins detected" {}

  /** A status starting with "good" and without 'a' or 'm' is good for both ladders. */
  lemma LaddersOnGood(s: string)
    requires MatchAt(s, "good", 0) && 'a' !in s && 'm' !in s
    ensures BucketOfLower(s) == Good && RowStatusOfLower(s) == RowGood
  {
    NoAttentionPhrase(s);
    NoImprovementPhrase(s);
  }

  lemma SeverityOfGood()
    ensures Severity("Good") == Good
    ensures RowStatusOf("Good") == RowGood
    ensures StatusClass("Good") == "status-good"
  {
    var s := "good";
    LowerGood();
    LowerThenLadders("Good", s);
    assert MatchAt(s, "good", 0) && 'a' !in s && 'm' !in s;
    LaddersOnGood(s);
  }

  /** The timed probes append the measurement: the dashboard no longer recognises the status. */
  lemma TimedGood()
    ensures Severity("Good (0.52s)") == Good
    ensures RowStatusOf("Good (0.52s)") == RowGood
    ensures StatusClass("Good (0.52s)") == "status-default"
  {
    var s := "good (0.52s)";
    LowerTimedGood();
    LowerThenLadders("Good (0.52s)", s);
    LettersOfTimedGood(s);
    LaddersOnGood(s);
  }

  lemma LettersOfTimedGood(s: string)
    requires s == "good (0.52s)"
    ensures MatchAt(s, "good", 0) && 'a' !in s && 'm' !in s
  {
  }

  /** A slow timed probe is danger for the counter and the table, but the dashboard no longer recognises it. */
  lemma TimedNeedsImprovement()
    ensures Severity("Needs Improvement (1.23s)") == Danger
    ensures RowStatusOf("Needs Improvement (1.23s)") == RowNeedsImprovement
    ensures StatusClass("Needs Improvement (1.23s)") == "status-default"
  {
    var s := "needs improvement (1.23s)";
    LowerTimedNeedsImprovement();
    LowerThenLadders("Needs Improvement (1.23s)", s);
    LettersOfTimedNeedsImprovement(s);
    LaddersOnImprovement(s);
  }

  lemma LettersOfTimedNeedsImprovement(s: string)
    requires s == "needs improvement (1.23s)"
    ensures 'g' !in s && 'a' !in s && 'c' !in s && MatchAt(s, "needs improvement", 0)
  {
  }

  lemma LaddersOnImprovement(s: string)
    requires 'g' !in s && 'a' !in s && 'c' !in s && MatchAt(s, "needs improvement", 0)
    ensures BucketOfLower(s) == Danger && RowStatusOfLower(s) == RowNeedsImprovement
  {
    NoGoodPhrase(s);
    NoWarningPhrase(s);
    NoAttentionPhrase(s);
  }

  /** "No Caching Detected": a warning for the counter and the table, danger for the dashboard. */
  lemma NoCachingDisagreement()
    ensures Severity("No Caching Detected") == Warning
    ensures RowStatusOf("No Caching Detected") == RowNeedsAttention
    ensures StatusClass("No Caching Detected") == "status-danger"
  {
    var s := "no caching detected";
    LowerNoCaching();
    LowerThenLadders("No Caching Detected", s);
    LettersOfNoCaching(s);
    LaddersOnNoCaching(s);
  }

  lemma LettersOfNoCaching(s: string)
    requires s == "no caching detected"
    ensures 'v' !in s && MatchAt(s, "no caching detected", 0)
    ensures forall j :: 0 <= j < |s| - 1 ==> !(s[j] == 'g' && s[j + 1] == 'o')
  {
  }

  lemma LaddersOnNoCaching(s: string)
    requires 'v' !in s && MatchAt(s, "no caching detected", 0)
    requires forall j :: 0 <= j < |s| - 1 ==> !(s[j] == 'g' && s[j + 1] == 'o')
    ensures BucketOfLower(s) == Warning && RowStatusOfLower(s) == RowNeedsAttention
  {
    AbsentPair(s, "good", 0);
    AbsentChar(s, "caching active", 12);
  }

  /** "Needs Optimization": a warning for the counter and the dashboard, improvement for the table. */
  lemma NeedsOptimizationDisagreement()
    ensures Severity("Needs Optimization") == Warning
    ensures RowStatusOf("Needs Optimization") == RowNeedsImprovement
    ensures StatusClass("Needs Optimization") == "status-warning"
  {
    var s := "needs optimization";
    LowerNeedsOptimization();
    LowerThenLadders("Needs Optimization", s);
    LettersOfNeedsOptimization(s);
    LaddersOnOptimization(s);
  }

  lemma LettersOfNeedsOptimization(s: string)
    requires s == "needs optimization"
    ensures 'g' !in s && 'c' !in s && MatchAt(s, "needs optimization", 0)
    ensures forall j :: 0 <= j < |s| - 1 ==> !(s[j] == 't' && s[j + 1] == 't')
  {
  }

  lemma LaddersOnOptimization(s: string)
    requires 'g' !in s && 'c' !in s && MatchAt(s, "needs optimization", 0)
    requires forall j :: 0 <= j < |s| - 1 ==> !(s[j] == 't' && s[j + 1] == 't')
    ensures BucketOfLower(s) == Warning && RowStatusOfLower(s) == RowNeedsImprovement
  {
    NoGoodPhrase(s);
    AbsentChar(s, "no caching detected", 3);
    AbsentPair(s, "needs attention", 7);
  }

  /** "Error": unrecognised, so a warning for the counter but a good-looking row. */
  lemma ErrorDisagreement()
    ensures Severity("Error") == Warning
    ensures RowStatusOf("Error") == RowGood
    ensures StatusClass("Error") == "status-default"
  {
    var s := "error";
    LowerError();
    LowerThenLadders("Error", s);
    assert 'g' !in s && 'a' !in s && 'm' !in s;
    LaddersOnUnrecognised(s);
  }

  /** Without 'g', 'a' or 'm' nothing is recognised: warning for the counter, good for the table. */
  lemma LaddersOnUnrecognised(s: string)
    requires 'g' !in s && 'a' !in s && 'm' !in s
    ensures BucketOfLower(s) == Warning && RowStatusOfLower(s) == RowGood
  {
    NoGoodPhrase(s);
    NoAttentionPhrase(s);
    NoImprovementPhrase(s);
  }

  /** "Fair" from the code-optimization probe: a warning for the counter, a good-looking row. */
  lemma FairDisagreement()
    ensures Severity("Fair") == Warning
    ensures RowStatusOf("Fair") == RowGood
    ensures StatusClass("Fair") == "status-default"
  {
    var s := "fair";
    LowerFair();
    LowerThenLadders("Fair", s);
    assert 'g' !in s && 'm' !in s && 'c' !in s && 'e' !in s && MatchAt(s, "fair", 0);
    LaddersOnFair(s);
  }

  lemma LaddersOnFair(s: string)
    requires 'g' !in s && 'm' !in s && 'c' !in s && 'e' !in s && MatchAt(s, "fair", 0)
    ensures BucketOfLower(s) == Warning && RowStatusOfLower(s) == RowGood
  {
    NoGoodPhrase(s);
    AbsentChar(s, "no caching detected", 3);
    AbsentChar(s, "needs attention", 1);
    NoImprovementPhrase(s);
  }

  /** Statuses no rule names fall to the warning bucket, never to danger; the empty status is one. */
  lemma UnrecognisedIsWarning()
    ensures Severity("Unchecked") == Warning
    ensures Severity("SEO Plugin Active") == Warning
    ensures Severity("") == Warning
  {
    LowerUnchecked();
    LowerThenLadders("Unchecked", "unchecked");
    assert 'g' !in "unchecked" && 'm' !in "unchecked";
    WarningWithoutGM("unchecked");
    LowerSeoPluginActive();
    LowerThenLadders("SEO Plugin Active", "seo plugin active");
    LettersOfSeoPluginActive("seo plugin active");
    WarningWithoutDH("seo plugin active");
    LowerThenLadders("", "");
    WarningWithoutGM("");
  }

  lemma LettersOfSeoPluginActive(s: string)
    requires s == "seo plugin active"
    ensures 'd' !in s && 'h' !in s
  {
  }

  lemma WarningWithoutGM(s: string)
    requires 'g' !in s && 'm' !in s
    ensures BucketOfLower(s) == Warning
  {
    NoGoodPhrase(s);
    NoImprovementPhrase(s);
  }

  lemma WarningWithoutDH(s: string)
    requires 'd' !in s && 'h' !in s
    ensures BucketOfLower(s) == Warning
  {
    AbsentChar(s, "good", 3);
    AbsentChar(s, "caching active", 3);
    AbsentChar(s, "needs improvement", 3);
  }

  /** The table colours these as good although neither is a success. */
  lemma RowGoodForNonSuccesses()
    ensures RowStatusOf("Unchecked") == RowGood
    ensures RowStatusOf("No SEO Plugins Detected") == RowGood
  {
    LowerUnchecked();
    LowerThenLadders("Unchecked", "unchecked");
    assert 'a' !in "unchecked" && 'm' !in "unchecked";
    RowGoodWithoutAM("unchecked");
    LowerNoSeoPlugins();
    LowerThenLadders("No SEO Plugins Detected", "no seo plugins detected");
    LettersOfNoSeoPlugins("no seo plugins detected");
    RowGoodWithoutAM("no seo plugins detected");
  }

  lemma LettersOfNoSeoPlugins(s: string)
    requires s == "no seo plugins detected"
    ensures 'a' !in s && 'm' !in s
  {
  }

  lemma RowGoodWithoutAM(s: string)
    requires 'a' !in s && 'm' !in s
    ensures RowStatusOfLower(s) == RowGood
  {
    NoAttentionPhrase(s);
    NoImprovementPhrase(s);
  }

  lemma LowerNeedsAttention() ensures Lower("Needs Attention") == "needs attention" {}
  lemma LowerNoSitemap() ensures Lower("No Sitemap Found") == "no sitemap found" {}

  /** "Needs Attention": the one failing status all three classifiers agree is a warning. */
  lemma NeedsAttentionAgreement()
    ensures Severity("Needs Attention") == Warning
    ensures RowStatusOf("Needs Attention") == RowNeedsAttention
    ensures StatusClass("Needs Attention") == "status-warning"
  {
    var s := "needs attention";
    LowerNeedsAttention();
    LowerThenLadders("Needs Attention", s);
    LettersOfNeedsAttention(s);
    LaddersOnAttention(s);
  }

  lemma LettersOfNeedsAttention(s: string)
    requires s == "needs attention"
    ensures 'g' !in s && 'c' !in s && MatchAt(s, "needs attention", 0)
  {
  }

  lemma LaddersOnAttention(s: string)
    requires 'g' !in s && 'c' !in s && MatchAt(s, "needs attention", 0)
    ensures BucketOfLower(s) == Warning && RowStatusOfLower(s) == RowNeedsAttention
  {
    NoGoodPhrase(s);
    AbsentChar(s, "no caching detected", 3);
  }

  /** "No Sitemap Found": a warning for the counter, a good-looking row, no dashboard class. */
  lemma NoSitemapDisagreement()
    ensures Severity("No Sitemap Found") == Warning
    ensures RowStatusOf("No Sitemap Found") == RowGood
    ensures StatusClass("No Sitemap Found") == "status-default"
  {
    var s := "no sitemap found";
    LowerNoSitemap();
    LowerThenLadders("No Sitemap Found", s);
    LettersOfNoSitemap(s);
    LaddersOnNoSitemap(s);
  }

  lemma LettersOfNoSitemap(s: string)
    requires s == "no sitemap found"
    ensures 'g' !in s && 'c' !in s && MatchAt(s, "no sitemap found", 0)
    ensures forall j :: 0 <= j < |s| - 1 ==> !(s[j] == 'n' && s[j + 1] == 'e')
  {
  }

  lemma LaddersOnNoSitemap(s: string)
    requires 'g' !in s && 'c' !in s && MatchAt(s, "no sitemap found", 0)
    requires forall j :: 0 <= j < |s| - 1 ==> !(s[j] == 'n' && s[j + 1] == 'e')
    ensures BucketOfLower(s) == Warning && RowStatusOfLower(s) == RowGood
  {
    NoGoodPhrase(s);
    AbsentChar(s, "no caching detected", 3);
    AbsentPair(s, "needs attention", 0);
    AbsentPair(s, "needs improvement", 0);
    AbsentPair(s, "needs optimization", 0);
  }
}
