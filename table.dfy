/**
  * The list table of one category: the fixed, ordered list of checks it
  * runs, the rows it builds from the probes' answers, and the cell it
  * renders for each column.
  *
  * A probe is opaque: an `Oracle` answers each call. Every row calls its
  * probe twice, once for the result and once for the recommendation, so
  * the oracle is told which of the two calls it is answering.
  */
module Table {
  import opened Strings
  import opened Status
  import opened Probes
  import opened Registry

  /** The probes the tables call. */
  datatype Probe =
    | PageLoadSpeed | ImageOptimization | CodeOptimization | ThirdPartyScripts
    | DatabaseOptimization | CachingStatus | ServerResponseTime
    | SslCertificate | PluginUpdate | ThemeUpdate | CoreUpdate | LoginSecurity
    | SecurityHeaders | FilePermissions
    | SeoMetaTags | SeoPluginDetection | ImageAltText | Sitemap
    | MobileResponsiveness | NavigationClarity | NotFoundPages | PageLoadTime | FontReadability
    | ContentFreshness | BrokenLinks | ContentLength | MediaUsage | DuplicateContent
    | RevisionCount | TaxonomyUsage
    | PhpVersion | MaxUploadSize | MemoryLimit | GzipCompression
    | AltText | ColorContrast | KeyboardNavigation | AriaRoles | FormLabels
    | HeadingStructure | LinkDescriptions

  /** Which of a row's two calls of its probe is being answered. */
  datatype Call = ForResult | ForRecommendation

  /** The answers of the probes. */
  type Oracle = (Probe, Call) -> CheckResult

  /** One table row: the check's name, its result and its recommendation. */
  datatype Row = Row(check: string, result: string, recommendation: string)

  /** The checks each category runs, by display name, in the order they are listed. */
  function CategoryProbes(category: string): seq<(string, Probe)> {
    match category
    case "performance" => [
      ("Page Load Speed", PageLoadSpeed), ("Image Optimization", ImageOptimization),
      ("Code Optimization", CodeOptimization), ("Third-Party Scripts", ThirdPartyScripts),
      ("Database Optimization", DatabaseOptimization), ("Caching Status", CachingStatus),
      ("Server Response Time", ServerResponseTime)]
    case "security" => [
      ("SSL Certificate", SslCertificate), ("Plugin Update Status", PluginUpdate),
      ("Theme Update Status", ThemeUpdate), ("WordPress Core Update Status", CoreUpdate),
      ("Login Security (2FA)", LoginSecurity), ("Security Headers", SecurityHeaders),
      ("File Permissions", FilePermissions)]
    case "seo" => [
      ("SEO Meta Tags", SeoMetaTags), ("SEO Plugin Detection", SeoPluginDetection),
      ("Image Alt Text", ImageAltText), ("Sitemap Presence", Sitemap)]
    case "ux" => [
      ("Mobile Responsiveness", MobileResponsiveness), ("Navigation Clarity", NavigationClarity),
      ("404 Error Pages", NotFoundPages), ("Page Load Time on Key Pages", PageLoadTime),
      ("Font Readability", FontReadability)]
    case "content" => [
      ("Content Freshness", ContentFreshness), ("Broken Links", BrokenLinks),
      ("Content Length", ContentLength), ("Media Usage", MediaUsage),
      ("Duplicate Content", DuplicateContent), ("Revision Count", RevisionCount),
      ("Taxonomy Usage", TaxonomyUsage)]
    case "technical" => [
      ("Caching Status", CachingStatus), ("PHP Version", PhpVersion),
      ("Database Optimization", DatabaseOptimization), ("Max Upload Size", MaxUploadSize),
      ("Memory Limit", MemoryLimit), ("Server Response Time", ServerResponseTime),
      ("Gzip Compression", GzipCompression)]
    case "compliance" => [
      ("Alt Text for Images", AltText), ("Color Contrast", ColorContrast),
      ("Keyboard Navigation", KeyboardNavigation), ("ARIA Roles and Landmarks", AriaRoles),
      ("Form Labels", FormLabels), ("Heading Structure", HeadingStructure),
      ("Link Descriptions", LinkDescriptions)]
    case _ => []
  }

  /** The row of one check: the result of the first call, the recommendation of the second. */
  function RowOf(entry: (string, Probe), oracle: Oracle): Row {
    Row(entry.0, oracle(entry.1, ForResult).result, oracle(entry.1, ForRecommendation).recommendation)
  }

  /** The rows of a category, one per listed check, in order. */
  function Checks(category: string, oracle: Oracle): (rows: seq<Row>)
    ensures |rows| == |CategoryProbes(category)|
    ensures forall i :: 0 <= i < |rows| ==> rows[i] == RowOf(CategoryProbes(category)[i], oracle)
  {
    seq(|CategoryProbes(category)|, i requires 0 <= i < |CategoryProbes(category)| => RowOf(CategoryProbes(category)[i], oracle))
  }

  /** The number of rows of each category; any other value has none. */
  lemma RowCounts(oracle: Oracle)
    ensures |Checks("performance", oracle)| == 7
    ensures |Checks("security", oracle)| == 7
    ensures |Checks("seo", oracle)| == 4
    ensures |Checks("ux", oracle)| == 5
    ensures |Checks("content", oracle)| == 7
    ensures |Checks("technical", oracle)| == 7
    ensures |Checks("compliance", oracle)| == 7
  {
  }

  /** Exactly the registered categories have checks. */
  lemma ChecksOnlyForCategories(category: string, oracle: Oracle)
    ensures Checks(category, oracle) != [] <==> IsCategory(category)
  {
    CategorySlugs(category);
  }

  /** The names and their order do not depend on what the probes answer. */
  lemma CheckNamesFixed(category: string, o1: Oracle, o2: Oracle, i: nat)
    requires i < |Checks(category, o1)|
    ensures i < |Checks(category, o2)|
    ensures Checks(category, o1)[i].check == Checks(category, o2)[i].check
  {
  }

  /** When a probe answers both calls alike, every row is one answer of that probe. */
  lemma RowsOfSteadyProbes(category: string, oracle: Oracle, i: nat)
    requires forall p :: oracle(p, ForResult) == oracle(p, ForRecommendation)
    requires i < |Checks(category, oracle)|
    ensures CheckResult(Checks(category, oracle)[i].result, Checks(category, oracle)[i].recommendation)
            == oracle(CategoryProbes(category)[i].1, ForResult)
  {
  }

  /** A probe that changes its answer between the two calls gives a row no single run produced. */
  lemma MixedRow()
    ensures Checks("seo", (p: Probe, c: Call) => if c == ForResult then CheckResult("Good", "a") else CheckResult("No Sitemap Found", "b"))[3]
            == Row("Sitemap Presence", "Good", "b")
  {
  }

  /** The `check` column is rendered as a box; any other column as the item's own text. */
  datatype Cell = Box(statusClass: string, check: string, result: string, recommendation: string) | Text(value: string)

  /** `$item[$column_name]`: a missing key reads as the empty string. */
  function Field(item: Row, column: string): string {
    match column
    case "check" => item.check
    case "result" => item.result
    case "recommendation" => item.recommendation
    case _ => ""
  }

  /** column_default: the box of the check column, coloured by the row ladder, or the plain field. */
  function ColumnDefault(item: Row, column: string): (cell: Cell)
    ensures column == "check" <==> cell.Box?
    ensures cell.Box? ==> cell == Box(RowCssClass(RowStatusOf(item.result)), item.check, item.result, item.recommendation)
    ensures column != "check" ==> cell == Text(Field(item, column))
  {
    var statusClass := RowCssClass(RowStatusOf(item.result));
    if column == "check" then Box(statusClass, item.check, item.result, item.recommendation)
    else Text(Field(item, column))
  }

  /** The other columns show exactly the item's value, and nothing for a key a row does not have. */
  lemma ColumnDefaultFields(item: Row)
    ensures ColumnDefault(item, "result") == Text(item.result)
    ensures ColumnDefault(item, "recommendation") == Text(item.recommendation)
    ensures forall c :: c != "check" && c != "result" && c != "recommendation" ==> ColumnDefault(item, c) == Text("")
  {
  }

  /** The only column the table declares: `check`, titled "Check". */
  const Columns: seq<(string, string)> := [("check", "Check")]

  class SiteVitalsTable {
    var category: string
    var columnHeaders: seq<(string, string)>
    var items: seq<Row>

    /** The constructor keeps a registered category and otherwise uses "performance". */
    constructor (requested: string)
      ensures category == Fallback(requested)
      ensures IsCategory(category)
      ensures columnHeaders == [] && items == []
    {
      var c := requested;
      if !IsCategory(c) {
        c := "performance";
      }
      category := c;
      columnHeaders := [];
      items := [];
    }

    /** get_category_checks: one row per listed check, appended in order. */
    method GetCategoryChecks(oracle: Oracle) returns (checks: seq<Row>)
      ensures checks == Checks(category, oracle)
    {
      var entries := CategoryProbes(category);
      checks := [];
      for i := 0 to |entries|
        invariant checks == Checks(category, oracle)[..i]
      {
        var (name, probe) := entries[i];
        checks := checks + [Row(name, oracle(probe, ForResult).result, oracle(probe, ForRecommendation).recommendation)];
      }
    }

    /** prepare_items: the single `check` column, and the category's rows as the items. */
    method PrepareItems(oracle: Oracle)
      modifies this
      ensures category == old(category)
      ensures columnHeaders == Columns
      ensures items == Checks(category, oracle)
    {
      columnHeaders := Columns;
      items := GetCategoryChecks(oracle);
    }
  }
}
