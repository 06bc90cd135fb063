/**
  * How the three classifiers read the statuses of the modelled probes.
  * None of these probes can reach the summary's danger bucket: each
  * reports "Good" or one failing status that counts as a warning.
  */
module ProbeStatus {
  import opened Status
  import opened Probes

  /** "Good" or "Needs Attention": all three classifiers agree. */
  lemma AttentionStatuses(result: string)
    requires result == "Good" || result == "Needs Attention"
    ensures Severity(result) == if result == "Good" then Good else Warning
    ensures RowStatusOf(result) == if result == "Good" then RowGood else RowNeedsAttention
    ensures StatusClass(result) == if result == "Good" then "status-good" else "status-warning"
  {
    SeverityOfGood();
    NeedsAttentionAgreement();
  }

  /** "Good" or "Needs Optimization": the row ladder alone calls the failure an improvement. */
  lemma OptimizationStatuses(result: string)
    requires result == "Good" || result == "Needs Optimization"
    ensures Severity(result) == if result == "Good" then Good else Warning
    ensures RowStatusOf(result) == if result == "Good" then RowGood else RowNeedsImprovement
    ensures StatusClass(result) == if result == "Good" then "status-good" else "status-warning"
  {
    SeverityOfGood();
    NeedsOptimizationDisagreement();
  }

  /** "Good" or "Fair": the failure is a counted warning but looks good in the table. */
  lemma FairStatuses(result: string)
    requires result == "Good" || result == "Fair"
    ensures Severity(result) == if result == "Good" then Good else Warning
    ensures RowStatusOf(result) == RowGood
    ensures StatusClass(result) == if result == "Good" then "status-good" else "status-default"
  {
    SeverityOfGood();
    FairDisagreement();
  }

  /** "Good" or "No Sitemap Found": likewise a warning that looks good in the table. */
  lemma SitemapStatuses(result: string)
    requires result == "Good" || result == "No Sitemap Found"
    ensures Severity(result) == if result == "Good" then Good else Warning
    ensures RowStatusOf(result) == RowGood
    ensures StatusClass(result) == if result == "Good" then "status-good" else "status-default"
  {
    SeverityOfGood();
    NoSitemapDisagreement();
  }

  lemma DatabaseCounted(transients: int, revisions: int)
    ensures Severity(DatabaseCheck(transients, revisions).result) ==
      if transients <= DatabaseLimit && revisions <= DatabaseLimit then Good else Warning
    ensures RowStatusOf(DatabaseCheck(transients, revisions).result) ==
      if transients <= DatabaseLimit && revisions <= DatabaseLimit then RowGood else RowNeedsImprovement
  {
    OptimizationStatuses(DatabaseCheck(transients, revisions).result);
  }

  lemma MaxUploadCounted(maxUpload: int, sizeFormat: int -> string)
    ensures Severity(MaxUploadCheck(maxUpload, sizeFormat).result) ==
      if maxUpload >= RecommendedUploadSize then Good else Warning
  {
    AttentionStatuses(MaxUploadCheck(maxUpload, sizeFormat).result);
  }

  lemma MemoryLimitCounted(memoryLimit: int, sizeFormat: int -> string)
    ensures Severity(MemoryLimitCheck(memoryLimit, sizeFormat).result) ==
      if memoryLimit >= RecommendedMemoryLimit then Good else Warning
  {
    AttentionStatuses(MemoryLimitCheck(memoryLimit, sizeFormat).result);
  }

  /** Too many stylesheets or scripts is counted as a warning, yet the row stays green. */
  lemma CodeOptimizationCounted(cssFiles: nat, jsFiles: nat)
    ensures Severity(CodeOptimizationCheck(cssFiles, jsFiles).result) ==
      if cssFiles > ExcessiveFileCount || jsFiles > ExcessiveFileCount then Warning else Good
    ensures RowStatusOf(CodeOptimizationCheck(cssFiles, jsFiles).result) == RowGood
  {
    FairStatuses(CodeOptimizationCheck(cssFiles, jsFiles).result);
  }

  lemma MediaUsageCounted(totalPosts: int, postsWithMedia: int)
    ensures Severity(MediaUsageCheck(totalPosts, postsWithMedia).result) ==
      if totalPosts > postsWithMedia then Warning else Good
  {
    AttentionStatuses(MediaUsageCheck(totalPosts, postsWithMedia).result);
  }

  lemma SecurityHeadersCounted(missing: seq<string>)
    ensures Severity(SecurityHeadersReport(missing).result) == if missing == [] then Good else Warning
  {
    AttentionStatuses(SecurityHeadersReport(missing).result);
  }

  lemma FilePermissionsCounted(insecure: seq<string>)
    ensures Severity(FilePermissionsReport(insecure).result) == if insecure == [] then Good else Warning
  {
    AttentionStatuses(FilePermissionsReport(insecure).result);
  }

  lemma ImageOptimizationCounted(large: seq<string>)
    ensures Severity(ImageOptimizationReport(large).result) == if large == [] then Good else Warning
    ensures RowStatusOf(ImageOptimizationReport(large).result) == if large == [] then RowGood else RowNeedsImprovement
  {
    OptimizationStatuses(ImageOptimizationReport(large).result);
  }

  /** A missing sitemap is counted as a warning, yet the row stays green. */
  lemma SitemapCounted(found: bool)
    ensures Severity(SitemapReport(found).result) == if found then Good else Warning
    ensures RowStatusOf(SitemapReport(found).result) == RowGood
  {
    SitemapStatuses(SitemapReport(found).result);
  }

  lemma NotFoundCounted(count: nat)
    ensures Severity(NotFoundReport(count).result) == if count == 0 then Good else Warning
  {
    AttentionStatuses(NotFoundReport(count).result);
  }
}
