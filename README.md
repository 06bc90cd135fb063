# Site Vitals for WordPress — a Dafny model of its decision layer

Site Vitals for WordPress is an admin plugin. It runs about forty diagnostic probes grouped into seven categories: performance, security, SEO, user experience, content, technical configuration and accessibility. It shows each category as a list table of rows (check, result, recommendation). An AJAX endpoint answers a category with the number of its checks in three buckets (good, warning, danger), caching the rows in a twelve-hour transient. Activation fills that cache for every category and schedules an hourly update event; deactivation removes the event.

This project models the parts of the plugin that decide and aggregate:

- **Strings** (`strings.dfy`): ASCII `strtolower`, `ucwords`, `str_replace` of one character, `strpos(...) !== false` as `Contains`, `implode`. It also defines a small `Option`.
- **Status** (`status.dfy`): the three classifiers of a result string:
  - the row class of `column_default`;
  - the exact `switch` of `get_status_class`;
  - the bucket ladder of the summary endpoint.

  It includes lemmas that pin down where they agree and where they disagree.
- **Headers** (`headers.dfy`): the fallback `getallheaders`. It has a loop over the server variables and the HTTP_NAME → Http-Name conversion. The proofs show the shape of the converted names, and that `X-XSS-Protection` is never produced.
- **Registry** (`registry.dfy`): the ordered category registry, the constructor's fallback to `performance`, and the settings page branching.
- **Probes** (`probes.dfy`): the decision rules of ten probes, as functions of their measurements:
  - the database, upload size, memory limit, code optimisation and media usage thresholds;
  - the missing-security-headers list;
  - the octal file-mode test;
  - the large-image filter;
  - the first-hit sitemap search;
  - the 404 counter.

  Each probe's loop is a method proved against a specification function.
- **ProbeStatus** (`probe_status.dfy`): how the classifiers read each modelled probe's results. None of them can reach the danger bucket.
- **Table** (`table.dfy`): the `Site_Vitals_Table` class. Its constructor falls back to `performance`. `get_category_checks` appends one row per listed check, and each row calls its probe twice. The class also has `prepare_items` and `column_default`. Probes are opaque: an `Oracle` answers each probe call.
- **Activation** (`activation.dfy`): the transient store, the summary endpoint (`site_vitals_get_category_data`), activation, and the schedule/unschedule pair. These sit on a `Site` class that holds the transients and the pending event.

The clock (`now`), the caller's capability, the posted form field, `sanitize_text_field` (an abstract `Sanitizer` applied to the field before the empty test and the cache key), the probes' answers, HEAD responses, file modes and sizes, header maps and database counts are all parameters. `size_format` is a parameter function.

## Model

| member | source | states |
|---|---|---|
| Strings.Lower | site-vitals-for-wordpress.php:127 | strtolower: the result has no upper-case letter, only upper-case letters change, and length is kept |
| Strings.LowerIdempotent | includes/activation.php:76 | lower-casing an already lower-cased status changes nothing |
| Strings.ReplaceChar | includes/helper-functions.php:14 | str_replace of one character: the searched character no longer occurs (unless it is the replacement), and every other character occurs in the result iff it occurs in the input |
| Status.RowLadderCases | classes/Site_Vitals_Table.php:343-353 | row class: needs-attention iff "no caching detected" or "needs attention" occurs in the lower-cased status; needs-improvement iff neither but "needs improvement" or "needs optimization"; good iff none of the four |
| Status.StatusClass | site-vitals-for-wordpress.php:1568-1585 | exact, case-sensitive: good iff Good/Caching Active, warning iff Needs Attention/Needs Optimization, danger iff Needs Improvement/No Caching Detected, default iff none of the six labels |
| Status.GoodFirst | includes/activation.php:76-80 | counted good iff the lower-cased status contains "good" or "caching active", whatever else it contains |
| Status.WarningCases | includes/activation.php:81-97 | counted as warning iff not good and either a warning phrase occurs or "needs improvement" does not |
| Status.DangerOnlyNeedsImprovement | includes/activation.php:91-93 | counted as danger iff "needs improvement" occurs and no good or warning phrase does |
| Status.SeverityIgnoresCase | includes/activation.php:76 | statuses equal after lower-casing land in the same bucket |
| Status.RowAttentionNotDanger | includes/activation.php:78-97 | a row coloured needs-attention is never counted as danger |
| Status.DangerIsRowImprovement | classes/Site_Vitals_Table.php:344-353 | a row counted as danger is always coloured needs-improvement |
| Status.SeverityOfGood | site-vitals-for-wordpress.php:1570-1571 | "Good" is good for all three classifiers |
| Status.TimedGood | site-vitals-for-wordpress.php:196 | "Good (0.52s)" is counted good and coloured good, but get_status_class gives status-default |
| Status.TimedNeedsImprovement | site-vitals-for-wordpress.php:196 | "Needs Improvement (1.23s)" is danger and needs-improvement, but status-default |
| Status.NoCachingDisagreement | includes/activation.php:84 | "No Caching Detected": counted warning, coloured needs-attention, status-danger |
| Status.NeedsOptimizationDisagreement | classes/Site_Vitals_Table.php:351 | "Needs Optimization": counted warning, coloured needs-improvement, status-warning |
| Status.ErrorDisagreement | includes/activation.php:94-97 | "Error": counted warning, coloured good, status-default |
| Status.FairDisagreement | includes/activation.php:87 | "Fair": counted warning, coloured good, status-default |
| Status.UnrecognisedIsWarning | includes/activation.php:76 | "Unchecked", "SEO Plugin Active" and a missing result ("") are counted as warnings |
| Status.RowGoodForNonSuccesses | classes/Site_Vitals_Table.php:344-353 | "Unchecked" and "No SEO Plugins Detected" are coloured good |
| Status.NeedsAttentionAgreement | site-vitals-for-wordpress.php:1572-1573 | "Needs Attention": warning, needs-attention, status-warning |
| Status.NoSitemapDisagreement | includes/activation.php:86 | "No Sitemap Found": counted warning, coloured good, status-default |
| Headers.GetAllHeaders | includes/helper-functions.php:8-19 | the loop over the server variables yields the left-to-right fold HeadersOf |
| Headers.ConvertNameAt | includes/helper-functions.php:14 | per character, independently of the pipeline: '_' and ' ' become '-', a word start is upper-cased, every other character lower-cased; length kept |
| Headers.ConvertNameClean | includes/helper-functions.php:14 | a converted name has no '_' and no ' ' |
| Headers.ConvertNameSegments | includes/helper-functions.php:14 | an upper-case letter past the start follows '-' or another word delimiter |
| Headers.NeverXssProtection | includes/helper-functions.php:14 | no name converts to "X-XSS-Protection" |
| Headers.ConvertFrameOptions | includes/helper-functions.php:13-14 | X_FRAME_OPTIONS converts to X-Frame-Options |
| Headers.ConvertXssProtection | includes/helper-functions.php:14 | X_XSS_PROTECTION converts to X-Xss-Protection |
| Headers.HeadersDomain | includes/helper-functions.php:11-15 | a header is present iff some HTTP_ variable converts to its name |
| Headers.HeadersLastWins | includes/helper-functions.php:11-15 | a present header holds the value of the last variable converting to its name |
| Headers.HeadersSize | includes/helper-functions.php:11-15 | there are at most as many headers as HTTP_ variables |
| Headers.HeaderKeysClean | includes/helper-functions.php:14-15 | no output key contains '_' or ' ' |
| Headers.FallbackLacksXssProtection | includes/helper-functions.php:8-19 | the fallback's output never has an X-XSS-Protection key |
| Headers.EffectiveHeaders | includes/helper-functions.php:8-19 | the host's own headers when it has getallheaders; otherwise exactly the fallback's map HeadersOf(server), which lacks X-XSS-Protection |
| Registry.CategorySlugs | site-vitals-for-wordpress.php:47-55 | a slug is registered iff it is one of the seven keys |
| Registry.SlugsDistinct | site-vitals-for-wordpress.php:47-55 | the registry's keys are pairwise distinct |
| Registry.LabelOf | site-vitals-for-wordpress.php:117 | a label exists iff the slug is registered, and it is that slug's registry label |
| Registry.LabelIn | site-vitals-for-wordpress.php:117 | array lookup: present iff some entry has the key, and then that entry's value |
| Registry.Fallback | classes/Site_Vitals_Table.php:22-24 | the result is registered; a registered slug is kept, any other becomes "performance" |
| Registry.FallbackIdempotent | classes/Site_Vitals_Table.php:22-26 | falling back twice is falling back once |
| Registry.SettingsPage | site-vitals-for-wordpress.php:99-137 | null gives the dashboard over the registry in order; otherwise the intro is built from the lower-cased title, and a table is shown iff the slug is registered |
| Registry.SettingsPageTitle | site-vitals-for-wordpress.php:117 | for a registered slug the title is its registry label |
| Registry.SettingsPageUnknown | site-vitals-for-wordpress.php:117-133 | an unknown slug gets title "Site Vitals", the intro for "site vitals", and "Invalid category." |
| Registry.SettingsPageTable | site-vitals-for-wordpress.php:129-130 | a registered slug shows its own table |
| Probes.DatabaseCheck | site-vitals-for-wordpress.php:1277-1292 | Good iff transients <= 100 and revisions <= 100, otherwise Needs Optimization; the recommendation of each branch |
| Probes.MaxUploadCheck | site-vitals-for-wordpress.php:1300-1317 | Good iff the size >= 10 MiB, otherwise Needs Attention; the recommendation of each branch |
| Probes.MemoryLimitCheck | site-vitals-for-wordpress.php:1324-1341 | Good iff the limit >= 128 MiB, otherwise Needs Attention; the recommendation of each branch |
| Probes.CodeOptimizationCheck | site-vitals-for-wordpress.php:233-248 | Fair iff more than 10 CSS or more than 10 JS files, otherwise Good; the recommendation of each branch |
| Probes.MediaUsageCheck | site-vitals-for-wordpress.php:1019-1035 | Needs Attention iff total posts exceed posts with media (a negative difference is Good); the recommendation of each branch |
| Probes.Absent | site-vitals-for-wordpress.php:455-463 | a name is reported iff it is one of the checked names and has no header |
| Probes.SecurityHeadersReport | site-vitals-for-wordpress.php:465-478 | Good iff nothing is missing, otherwise Needs Attention |
| Probes.SecurityHeadersCheck | site-vitals-for-wordpress.php:450-479 | the three tests report the absent names among X-Content-Type-Options, X-Frame-Options, X-XSS-Protection in that order |
| Probes.AbsentOfThree | site-vitals-for-wordpress.php:455-463 | the filter over the three names is the concatenation of the three tests' appends |
| Probes.SecurityHeadersNeedXss | site-vitals-for-wordpress.php:461-465 | without X-XSS-Protection the check reports it and needs attention |
| Probes.OctalLength | site-vitals-for-wordpress.php:494 | a mode's octal string is shorter than three digits iff the mode is below 64 |
| Probes.OctalTail | site-vitals-for-wordpress.php:494 | the last three characters of the octal string are the mode's three low octal digits |
| Probes.PermissionTest | site-vitals-for-wordpress.php:494 | the last three octal characters are "644" iff mode mod 512 == 420 |
| Probes.InsecureFilesAre | site-vitals-for-wordpress.php:493-497 | a name is reported iff some existing file of that name has mode mod 512 != 420 |
| Probes.FilePermissionsReport | site-vitals-for-wordpress.php:499-511 | Good iff no file is insecure, otherwise Needs Attention |
| Probes.FilePermissionsCheck | site-vitals-for-wordpress.php:486-512 | the loop reports, in order, the names the octal test rejects |
| Probes.LargeImagesAre | site-vitals-for-wordpress.php:211-215 | a name is listed iff some image of that name is larger than 500 KiB |
| Probes.LargeImagesEmpty | site-vitals-for-wordpress.php:211-217 | nothing is listed iff every image is at most 500 KiB |
| Probes.ImageOptimizationReport | site-vitals-for-wordpress.php:217-225 | Good iff nothing is listed, otherwise Needs Optimization |
| Probes.ImageOptimizationCheck | site-vitals-for-wordpress.php:206-226 | the loop lists, in order, the basenames of the large images |
| Probes.FirstHit | site-vitals-for-wordpress.php:655-661 | every candidate before the answer fails, and the answer (when in range) succeeds |
| Probes.FirstHitIs | site-vitals-for-wordpress.php:655-661 | the first hit is unique: any index with those two properties is it |
| Probes.SitemapReport | site-vitals-for-wordpress.php:663-672 | Good iff found, otherwise No Sitemap Found |
| Probes.SitemapCheck | site-vitals-for-wordpress.php:645-673 | Good iff some candidate answers 200 without error; the search stops at the first hit, after exactly that many requests |
| Probes.CountNotFound | site-vitals-for-wordpress.php:796-802 | the count is at most the number of pages, and zero iff no page answers 404 |
| Probes.NotFoundReport | site-vitals-for-wordpress.php:804-818 | Good iff the count is zero, otherwise Needs Attention |
| Probes.NotFoundCheck | site-vitals-for-wordpress.php:790-819 | the loop counts the 404 answers; Good iff no page answers 404 |
| ProbeStatus.DatabaseCounted | site-vitals-for-wordpress.php:1277-1279 | the database result is counted good within the limits and as a warning otherwise; the row colour follows |
| ProbeStatus.MaxUploadCounted | site-vitals-for-wordpress.php:1303 | the upload result is counted good iff at least 10 MiB, otherwise as a warning |
| ProbeStatus.MemoryLimitCounted | site-vitals-for-wordpress.php:1327 | the memory result is counted good iff at least 128 MiB, otherwise as a warning |
| ProbeStatus.CodeOptimizationCounted | site-vitals-for-wordpress.php:237-239 | too many files is counted as a warning, yet the row is coloured good |
| ProbeStatus.MediaUsageCounted | site-vitals-for-wordpress.php:1019-1020 | missing media is counted as a warning, otherwise good |
| ProbeStatus.SecurityHeadersCounted | site-vitals-for-wordpress.php:465 | the result is counted good iff no header is missing, otherwise as a warning |
| ProbeStatus.FilePermissionsCounted | site-vitals-for-wordpress.php:499 | the result is counted good iff no file is insecure, otherwise as a warning |
| ProbeStatus.ImageOptimizationCounted | site-vitals-for-wordpress.php:217 | large images are counted as a warning and coloured needs-improvement |
| ProbeStatus.SitemapCounted | site-vitals-for-wordpress.php:663 | a missing sitemap is counted as a warning, yet the row is coloured good |
| ProbeStatus.NotFoundCounted | site-vitals-for-wordpress.php:804 | the result is counted good iff no 404 answer, otherwise as a warning |
| Table.Checks | classes/Site_Vitals_Table.php:77-327 | one row per listed check, in the listed order, each from its probe's result call and recommendation call |
| Table.RowCounts | classes/Site_Vitals_Table.php:80-326 | 7, 7, 4, 5, 7, 7 and 7 rows for the seven categories |
| Table.ChecksOnlyForCategories | classes/Site_Vitals_Table.php:80-326 | a category has rows iff it is registered; anything else takes the default branch and has none |
| Table.CheckNamesFixed | classes/Site_Vitals_Table.php:80-326 | the row names and their order do not depend on the probes' answers |
| Table.RowsOfSteadyProbes | classes/Site_Vitals_Table.php:84-85 | when a probe answers both calls alike, the row is exactly that answer |
| Table.MixedRow | classes/Site_Vitals_Table.php:173-177 | a probe that changes between its two calls gives a row whose result and recommendation come from different runs |
| Table.ColumnDefault | classes/Site_Vitals_Table.php:343-363 | the check column is a box coloured by the row ladder; any other column is the item's field |
| Table.ColumnDefaultFields | classes/Site_Vitals_Table.php:362 | result and recommendation columns show those values, every other column the empty string |
| Table.SiteVitalsTable.constructor | classes/Site_Vitals_Table.php:18-33 | the category is the requested one when registered, "performance" otherwise |
| Table.SiteVitalsTable.GetCategoryChecks | classes/Site_Vitals_Table.php:77-327 | the appending loop returns exactly the category's rows |
| Table.SiteVitalsTable.PrepareItems | classes/Site_Vitals_Table.php:41-45 | a single "check" column, items set to the category's rows, category unchanged |
| Activation.CacheKeyInjective | includes/activation.php:59 | distinct categories have distinct cache keys |
| Activation.SetThenGet | includes/activation.php:68 | a transient reads back until its time runs out, and not after |
| Activation.SetKeepsOthers | includes/activation.php:68 | setting one key leaves every other key's reading unchanged |
| Activation.CountPartition | includes/activation.php:71-98 | good + warning + danger is the number of rows: each row is counted once |
| Activation.CountPositive | includes/activation.php:75-98 | a bucket's count is positive iff some row falls in it |
| Activation.DangerRowsNeedImprovement | includes/activation.php:91-93 | a positive danger count means some row's status mentions "needs improvement" |
| Activation.CountSeverities | includes/activation.php:71-98 | the counting loop yields each bucket's count, and the three add up to the number of rows |
| Activation.RefusedWithoutCapability | includes/activation.php:49-51 | without the capability: "No permission." and the store is untouched |
| Activation.RefusedWithoutCategory | includes/activation.php:53-56 | an absent field, or one that sanitize_text_field turns into "" or "0": "No category provided." and the store is untouched |
| Activation.HitCountsCache | includes/activation.php:58-62 | on a hit under the sanitized key the cached rows are counted and nothing is written |
| Activation.MissComputesAndCaches | includes/activation.php:62-69 | on a miss the table's rows are counted and stored under "site_vitals_" + the sanitized category for 43200 seconds |
| Activation.UnknownCategoryCachesPerformance | includes/activation.php:59-68 | an unknown sanitized category caches the performance rows under its own key and leaves the performance key alone |
| Activation.SuccessCountsAll | includes/activation.php:71-104 | a successful answer's three counts add up to the number of rows fetched |
| Activation.AnswerStableWhileCached | includes/activation.php:58-69 | within twelve hours of a miss a repeated request gives the same answer and writes nothing |
| Activation.CacheAllKeeps | includes/activation.php:19-27 | activation leaves a key no entry names as it was |
| Activation.CacheAllWrites | includes/activation.php:19-27 | the last entry naming a slug decides its cached rows, stored for 43200 seconds |
| Activation.ActivationCachesEveryCategory | includes/activation.php:14-28 | after activation each of the seven categories' rows is cached under its key for twelve hours |
| Activation.ActivationKeepsOtherKeys | includes/activation.php:14-28 | activation writes no key besides the seven |
| Activation.Schedule | includes/activation.php:117-121 | a pending event is kept; otherwise an event is scheduled at now |
| Activation.Unschedule | includes/activation.php:133-138 | afterwards nothing is pending; a zero or absent timestamp is left as it is |
| Activation.ScheduleIdempotent | includes/activation.php:117-121 | scheduling twice is scheduling once |
| Activation.UnscheduleAfterSchedule | includes/activation.php:117-138 | deactivation after activation leaves nothing pending |
| Activation.Site.GetCategoryData | includes/activation.php:45-105 | the endpoint's answer and new store are those of CategoryData, which tests and keys on the sanitized field; the schedule is unchanged |
| Activation.Site.PluginActivate | includes/activation.php:14-28 | the store becomes the registry's tables cached in order; the schedule is unchanged |
| Activation.Site.CacheCategories | includes/activation.php:19-27 | the loop over the entries caches each one's table rows in order |
| Activation.Site.ScheduleUpdate | includes/activation.php:117-121 | the event becomes Schedule of the old one; the store is unchanged |
| Activation.Site.UnscheduleUpdate | includes/activation.php:133-138 | the event becomes Unschedule of the old one; the store is unchanged |

## Left out

- HTML output, escaping (`esc_html`, `wp_kses_post`), menus, script enqueueing and the JavaScript interface. These are presentation only; escaping and translation are taken as the identity.
- The nonce check of the summary endpoint. It is WordPress authentication and aborts before anything modelled happens.
- The update-checker bootstrap, a foreign library.
- The probes' I/O: HTTP requests, SQL queries, `glob`, `filesize` and `fileperms`. Their outcomes are parameters: HEAD responses as a function, counts, file modes and sizes.
- The floating-point timing probes (page load speed, server response time, third-party scripts, page load time), the `version_compare` probes, the regex probes and every other probe body. These appear only as opaque oracle answers. Their result strings are used as examples for the classifiers.
- `get_categories()` is called but never defined. It is modelled as the `$categories` registry.
- `update_site_vitals` is hooked to the event but never defined, so the event's effect is not modelled.
- `display_category_summary` calls the private `get_category_checks` from outside the table class, which PHP refuses at run time, so the dashboard's summaries are not computed. `SettingsPage` only lists them in registry order.
- Table.SiteVitalsTable.GetCategoryChecks: the source appends to `$checks` in one `switch` branch per category. The model loops over the branch's ordered list of (name, probe) pairs, which appends the same rows.
- Probes.MaxUploadCheck: the recommendation branch tests `'Good' === $result` after translation. The model compares the untranslated result, so it matches the source only when "Good" is not translated.
- Probes.MemoryLimitCheck: the same `'Good' === $result` caveat as the upload check.
- Activation.GetTransient: expiry is a comparison with the clock. Deletion of expired entries and any object cache are not modelled.
- Activation.Site.ScheduleUpdate: the recurrence ("hourly") and WordPress's duplicate-event rules are not modelled. The pending event is just its next timestamp.
- Activation.Site.PluginActivate: every table is prepared against the same oracle, so the model does not capture probes that answer differently from one category to the next.
- Activation.CountSeverities: every row has a `result` key. The case of a missing key, which reads as "", is covered by `Status.UnrecognisedIsWarning`.
- PHP's loose typing: database counts are integers and `$_SERVER` values are strings. Strict comparisons on raw database values in other probes are not modelled.
- Table.Checks: probes are assumed to return. In the source a probe that throws (for example `count()` on the `false` that `glob` can return, at site-vitals-for-wordpress.php:235-237) aborts `prepare_items` and with it the whole request or activation: no JSON answer and nothing cached. The code has no per-probe guard that would turn such a failure into an "Error" row, and the model has none either.
- Activation.CategoryData: the same assumption. A throwing probe on a cache miss would end the request before the transient is written (includes/activation.php:63-68); the model always answers and caches.
- Activation.CategoryData: `sanitize_text_field` is an abstract `Sanitizer` parameter. What it strips (tags, line breaks, repeated whitespace, leading and trailing blanks) is not modelled, so which raw fields are refused or map to a category depends on that parameter.
- Activation.ActivationCachesEveryCategory: one `now` serves every clock read. In the source each `set_transient` reads the clock after its table's probes (some of them HTTP requests) have run, so each category's expiry is somewhat later than the previous one's. Likewise the endpoint's write (includes/activation.php:68) happens later than its read (line 60). "Each key expires at now + 43200" holds only for a frozen clock.
- Activation.Site.PluginActivate: the same frozen-clock simplification as Activation.ActivationCachesEveryCategory.
- Registry.SettingsPage: the default argument `$category = 'performance'` (site-vitals-for-wordpress.php:99) has no counterpart. The model's `Option<string>` tells only null apart from a given string. Which value the admin menu callbacks actually pass is WordPress hook plumbing and is not modelled.
- Strings.Lower: only ASCII letters change case, as in `strtolower` since PHP 8.2. Multibyte text is not modelled.
