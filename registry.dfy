/**
  * The fixed, ordered registry of check categories (slug and label) and
  * the settings page's choice between the overview dashboard, one
  * category's table and the invalid-category notice.
  */
module Registry {
  import opened Strings

  /** The categories, in the order the dashboard and activation visit them. */
  const Categories: seq<(string, string)> := [
    ("performance", "Performance"),
    ("security", "Security"),
    ("seo", "SEO"),
    ("ux", "User Experience (UX)"),
    ("content", "Content Management"),
    ("technical", "Technical Config"),
    ("compliance", "Accessibility")
  ]

  predicate IsCategory(slug: string) {
    exists i :: 0 <= i < |Categories| && Categories[i].0 == slug
  }

  /** The registered slugs, spelled out. */
  lemma CategorySlugs(slug: string)
    ensures IsCategory(slug) <==>
      slug == "performance" || slug == "security" || slug == "seo" || slug == "ux"
      || slug == "content" || slug == "technical" || slug == "compliance"
  {
    if slug == "performance" { assert Categories[0].0 == slug; }
    if slug == "security" { assert Categories[1].0 == slug; }
    if slug == "seo" { assert Categories[2].0 == slug; }
    if slug == "ux" { assert Categories[3].0 == slug; }
    if slug == "content" { assert Categories[4].0 == slug; }
    if slug == "technical" { assert Categories[5].0 == slug; }
    if slug == "compliance" { assert Categories[6].0 == slug; }
  }

  /** The slugs are pairwise distinct, so the registry is a well-formed dictionary. */
  lemma SlugsDistinct()
    ensures forall i, j :: 0 <= i < j < |Categories| ==> Categories[i].0 != Categories[j].0
  {
  }

  /** The label registered for a slug, if any. */
  function LabelOf(slug: string): (r: Option<string>)
    ensures r.Some? <==> IsCategory(slug)
    ensures r.Some? ==> exists i :: 0 <= i < |Categories| && Categories[i] == (slug, r.value)
  {
    LabelIn(Categories, slug)
  }

  function LabelIn(entries: seq<(string, string)>, slug: string): (r: Option<string>)
    ensures r.Some? <==> exists i :: 0 <= i < |entries| && entries[i].0 == slug
    ensures r.Some? ==> exists i :: 0 <= i < |entries| && entries[i] == (slug, r.value)
  {
    if entries == [] then None
    else if entries[0].0 == slug then Some(entries[0].1)
    else
      var r := LabelIn(entries[1..], slug);
      assert forall i :: 0 <= i < |entries| - 1 ==> entries[1..][i] == entries[i + 1];
      r
  }

  /**
    * The table's category check: a registered slug is kept, anything
    * else becomes "performance".
    */
  function Fallback(slug: string): (r: string)
    ensures IsCategory(r)
    ensures IsCategory(slug) ==> r == slug
    ensures !IsCategory(slug) ==> r == "performance"
  {
    assert Categories[0].0 == "performance";
    if IsCategory(slug) then slug else "performance"
  }

  lemma FallbackIdempotent(slug: string)
    ensures Fallback(Fallback(slug)) == Fallback(slug)
  {
  }

  /** What the page shows under its heading for one category. */
  datatype Body = CategoryTable(slug: string) | InvalidCategory

  /** The settings page: the overview, or one category's page. */
  datatype Page =
    | Dashboard(summaries: seq<(string, string)>)
    | CategoryPage(title: string, intro: string, body: Body)

  /**
    * settings_page: with no category, one summary per registry entry in
    * registry order; otherwise the registered label (or "Site Vitals"),
    * an introduction naming it in lower case, and the table only for a
    * registered slug.
    */
  function SettingsPage(category: Option<string>): (p: Page)
    ensures category.None? <==> p.Dashboard?
    ensures p.Dashboard? ==> p.summaries == Categories
    ensures category.Some? ==> p.intro == "Review the site vitals for " + Lower(p.title) + "."
    ensures category.Some? ==> (p.body.CategoryTable? <==> IsCategory(category.value))
  {
    match category
    case None => Dashboard(Categories)
    case Some(slug) =>
      var title := if LabelOf(slug).Some? then LabelOf(slug).value else "Site Vitals";
      CategoryPage(title, "Review the site vitals for " + Lower(title) + ".",
        if LabelOf(slug).Some? then CategoryTable(slug) else InvalidCategory)
  }

  /** A registered category's page is titled with its registered label. */
  lemma SettingsPageTitle(slug: string)
    requires IsCategory(slug)
    ensures exists i :: 0 <= i < |Categories| && Categories[i] == (slug, SettingsPage(Some(slug)).title)
  {
  }

  /** An unknown slug gets the generic title and the invalid-category notice. */
  lemma SettingsPageUnknown(slug: string)
    requires !IsCategory(slug)
    ensures SettingsPage(Some(slug)) == CategoryPage("Site Vitals", "Review the site vitals for site vitals.", InvalidCategory)
  {
    LowerSiteVitals();
  }

  lemma LowerSiteVitals() ensures Lower("Site Vitals") == "site vitals" {}

  /** A registered slug shows its own table, never another category's. */
  lemma SettingsPageTable(slug: string)
    requires IsCategory(slug)
    ensures SettingsPage(Some(slug)).body == CategoryTable(slug)
  {
  }
}
