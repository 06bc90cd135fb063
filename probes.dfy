/**
  * The decision rules of the diagnostic probes. What a probe measures
  * (HTTP answers, database counts, file sizes and modes, the response
  * headers) is an input; what the model captures is how it turns those
  * measurements into a result and a recommendation.
  *
  * Translation and escaping are the identity here: every status and
  * message is the English literal the plugin passes to them.
  */
module Probes {
  import opened Strings

  /** What every probe returns: a status and a human-readable recommendation. */
  datatype CheckResult = CheckResult(result: string, recommendation: string)

  /** The answer to one HEAD request: a transport error, or a response code. */
  datatype HttpResponse = WpError | Response(code: int)

  // ---------------------------------------------------------------------
  // Integer thresholds
  // ---------------------------------------------------------------------

  const DatabaseLimit := 100
  const RecommendedUploadSize := 10 * 1024 * 1024
  const RecommendedMemoryLimit := 128 * 1024 * 1024
  const ExcessiveFileCount := 10
  const LargeImageSize := 500 * 1024

  // The messages of the failing branches, with their placeholders filled in.

  function DatabaseAdvice(transients: int, revisions: int): string {
    "Database optimization recommended: " + Decimal(AbsInt(transients)) + " transients and "
    + Decimal(AbsInt(revisions)) + " post revisions detected."
  }

  function UploadAdvice(size: string): string {
    "Current max upload size is " + size + ". Consider increasing it for larger media files."
  }

  function MemoryAdvice(limit: string, recommended: string): string {
    "Current memory limit is " + limit + ". Consider increasing it to at least " + recommended + "."
  }

  function MediaAdvice(missing: int): string {
    "<strong>" + Decimal(AbsInt(missing)) + " posts</strong> are missing featured images. Consider adding media to enrich content."
  }

  /** Database check over the counts of transients and of post revisions. */
  function DatabaseCheck(transients: int, revisions: int): (c: CheckResult)
    ensures c.result == "Good" <==> transients <= DatabaseLimit && revisions <= DatabaseLimit
    ensures c.result == "Good" || c.result == "Needs Optimization"
    ensures c.result == "Good" ==> c.recommendation == "Database is optimized."
    ensures c.result != "Good" ==> c.recommendation == DatabaseAdvice(transients, revisions)
  {
    if transients > DatabaseLimit || revisions > DatabaseLimit then
      CheckResult("Needs Optimization", DatabaseAdvice(transients, revisions))
    else
      CheckResult("Good", "Database is optimized.")
  }

  /**
    * Max upload size check; `sizeFormat` is WordPress' human-readable
    * byte formatter. The recommendation is chosen by comparing the
    * result with "Good".
    */
  function MaxUploadCheck(maxUpload: int, sizeFormat: int -> string): (c: CheckResult)
    ensures c.result == "Good" <==> maxUpload >= RecommendedUploadSize
    ensures c.result == "Good" || c.result == "Needs Attention"
    ensures c.result == "Good" ==> c.recommendation == "Max upload size is sufficient."
    ensures c.result != "Good" ==> c.recommendation == UploadAdvice(sizeFormat(maxUpload))
  {
    var result := if maxUpload >= RecommendedUploadSize then "Good" else "Needs Attention";
    var recommendation :=
      if result == "Good" then "Max upload size is sufficient."
      else UploadAdvice(sizeFormat(maxUpload));
    CheckResult(result, recommendation)
  }

  /** Memory limit check, over the limit in bytes. */
  function MemoryLimitCheck(memoryLimit: int, sizeFormat: int -> string): (c: CheckResult)
    ensures c.result == "Good" <==> memoryLimit >= RecommendedMemoryLimit
    ensures c.result == "Good" || c.result == "Needs Attention"
    ensures c.result == "Good" ==> c.recommendation == "Memory limit is sufficient."
    ensures c.result != "Good" ==> c.recommendation == MemoryAdvice(sizeFormat(memoryLimit), sizeFormat(RecommendedMemoryLimit))
  {
    var result := if memoryLimit >= RecommendedMemoryLimit then "Good" else "Needs Attention";
    var recommendation :=
      if result == "Good" then "Memory limit is sufficient."
      else MemoryAdvice(sizeFormat(memoryLimit), sizeFormat(RecommendedMemoryLimit));
    CheckResult(result, recommendation)
  }

  /** Code optimization check, over the numbers of stylesheets and scripts in the theme. */
  function CodeOptimizationCheck(cssFiles: nat, jsFiles: nat): (c: CheckResult)
    ensures c.result == "Fair" <==> cssFiles > ExcessiveFileCount || jsFiles > ExcessiveFileCount
    ensures c.result == "Good" || c.result == "Fair"
    ensures c.result == "Good" ==> c.recommendation == "Code optimization is at an acceptable level."
    ensures c.result == "Fair" ==> c.recommendation == "Consider removing or consolidating unused CSS/JS files."
  {
    if cssFiles > ExcessiveFileCount || jsFiles > ExcessiveFileCount then
      CheckResult("Fair", "Consider removing or consolidating unused CSS/JS files.")
    else
      CheckResult("Good", "Code optimization is at an acceptable level.")
  }

  /**
    * Media usage check over the number of published posts and of posts
    * with a featured image. A negative difference reads as good.
    */
  function MediaUsageCheck(totalPosts: int, postsWithMedia: int): (c: CheckResult)
    ensures c.result == "Needs Attention" <==> totalPosts > postsWithMedia
    ensures c.result == "Good" || c.result == "Needs Attention"
    ensures c.result == "Good" ==> c.recommendation == "All posts include featured images or media."
    ensures c.result != "Good" ==> c.recommendation == MediaAdvice(totalPosts - postsWithMedia)
  {
    var missing := totalPosts - postsWithMedia;
    if missing > 0 then
      CheckResult("Needs Attention", MediaAdvice(missing))
    else
      CheckResult("Good", "All posts include featured images or media.")
  }

  // ---------------------------------------------------------------------
  // Security headers
  // ---------------------------------------------------------------------

  /** The headers the security probe requires, in the order it reports them. */
  const SecurityHeaderNames: seq<string> := ["X-Content-Type-Options", "X-Frame-Options", "X-XSS-Protection"]

  /** The names in `names` that are not keys of `headers`, in order. */
  function Absent(names: seq<string>, headers: map<string, string>): (r: seq<string>)
    ensures forall n :: n in r <==> n in names && n !in headers
    ensures |r| <= |names|
  {
    if names == [] then []
    else (if names[0] in headers then [] else [names[0]]) + Absent(names[1..], headers)
  }

  /** The report for a list of missing headers. */
  function SecurityHeadersReport(missing: seq<string>): (c: CheckResult)
    ensures c.result == "Good" <==> missing == []
    ensures c.result == "Good" || c.result == "Needs Attention"
  {
    if missing == [] then CheckResult("Good", "All recommended security headers are present.")
    else CheckResult("Needs Attention",
      "Missing security headers: " + Implode(", ", missing) + ". Consider adding them to improve security.")
  }

  /** The security probe: three presence tests, each appending the missing name. */
  method SecurityHeadersCheck(headers: map<string, string>) returns (c: CheckResult)
    ensures c == SecurityHeadersReport(Absent(SecurityHeaderNames, headers))
  {
    var missing: seq<string> := [];
    if "X-Content-Type-Options" !in headers {
      missing := missing + ["X-Content-Type-Options"];
    }
    ghost var first := missing;
    if "X-Frame-Options" !in headers {
      missing := missing + ["X-Frame-Options"];
    }
    ghost var second := missing[|first|..];
    if "X-XSS-Protection" !in headers {
      missing := missing + ["X-XSS-Protection"];
    }
    ghost var third := missing[|first| + |second|..];
    assert missing == first + second + third;
    AbsentOfThree(headers, first, second, third);
    c := SecurityHeadersReport(missing);
  }

  lemma AbsentOfThree(headers: map<string, string>, first: seq<string>, second: seq<string>, third: seq<string>)
    requires first == if "X-Content-Type-Options" in headers then [] else ["X-Content-Type-Options"]
    requires second == if "X-Frame-Options" in headers then [] else ["X-Frame-Options"]
    requires third == if "X-XSS-Protection" in headers then [] else ["X-XSS-Protection"]
    ensures Absent(SecurityHeaderNames, headers) == first + second + third
  {
    var n := SecurityHeaderNames;
    assert n[1..][1..][1..] == [];
    assert Absent(n[1..][1..], headers) == third;
    assert Absent(n[1..], headers) == second + third;
    assert Absent(n, headers) == first + (second + third);
  }

  /** Without "X-XSS-Protection" the security probe never reports good, and names that header. */
  lemma SecurityHeadersNeedXss(headers: map<string, string>)
    requires "X-XSS-Protection" !in headers
    ensures "X-XSS-Protection" in Absent(SecurityHeaderNames, headers)
    ensures SecurityHeadersReport(Absent(SecurityHeaderNames, headers)).result == "Needs Attention"
  {
  }

  // ---------------------------------------------------------------------
  // File permissions
  // ---------------------------------------------------------------------

  /** sprintf('%o', n): the octal digits of n, most significant first. */
  function OctalString(n: nat): (r: string)
    ensures |r| >= 1
  {
    if n < 8 then [DigitChar(n)] else OctalString(n / 8) + [DigitChar(n % 8)]
  }

  /** substr(s, -3): the last three characters, or all of a shorter string. */
  function LastThree(s: string): (r: string)
    ensures |r| == if |s| < 3 then |s| else 3
    ensures r <= s || |s| >= 3
    ensures |s| >= 3 ==> r == s[|s| - 3..]
  {
    if |s| <= 3 then s else s[|s| - 3..]
  }

  /** The octal rendering is short exactly for small modes. */
  lemma {:induction false} OctalLength(n: nat)
    ensures n < 64 <==> |OctalString(n)| < 3
  {
    if n >= 8 {
      OctalLength(n / 8);
    }
  }

  /** The last octal digit of any number. */
  lemma OctalLast(n: nat)
    ensures OctalString(n)[|OctalString(n)| - 1] == DigitChar(n % 8)
  {
  }

  lemma OctalSnoc(n: nat)
    requires n >= 8
    ensures OctalString(n) == OctalString(n / 8) + [DigitChar(n % 8)]
  {
  }

  /** The last three octal digits of a mode of at least three digits. */
  lemma OctalTail(n: nat)
    requires n >= 64
    ensures LastThree(OctalString(n)) == [DigitChar(n / 8 / 8 % 8), DigitChar(n / 8 % 8), DigitChar(n % 8)]
  {
    var q := n / 8;
    var p := q / 8;
    OctalSnoc(n);
    OctalSnoc(q);
    OctalLast(p);
    var s := OctalString(p);
    var t := s + [DigitChar(q % 8)] + [DigitChar(n % 8)];
    assert OctalString(n) == t;
    assert t[|t| - 3..] == [s[|s| - 1], DigitChar(q % 8), DigitChar(n % 8)];
  }

  /** Base-8 digits: the last three are 6, 4, 4 exactly when the remainder modulo 512 is 420. */
  lemma OctalDigitsOf644(n: nat)
    ensures (n / 8 / 8 % 8 == 6 && n / 8 % 8 == 4 && n % 8 == 4) <==> n % 512 == 420
  {
    var d, q := n % 8, n / 8;
    var c, p := q % 8, q / 8;
    var b, a := p % 8, p / 8;
    assert n == 8 * q + d;
    assert q == 8 * p + c;
    assert p == 8 * a + b;
    assert n == 512 * a + (64 * b + 8 * c + d);
    assert 0 <= 64 * b + 8 * c + d < 512;
    ModOfSum(n, a, 64 * b + 8 * c + d);
  }

  lemma ModOfSum(n: nat, a: nat, r: nat)
    requires n == 512 * a + r && r < 512
    ensures n % 512 == r
  {
  }

  /**
    * The probe's test `substr(sprintf('%o', mode), -3) !== '644'` holds
    * exactly when the permission bits (the mode modulo 512) are not 0644.
    */
  lemma PermissionTest(mode: nat)
    ensures LastThree(OctalString(mode)) == "644" <==> mode % 512 == 420
  {
    OctalLength(mode);
    if mode >= 64 {
      OctalTail(mode);
      OctalDigitsOf644(mode);
    }
  }

  /** A file the permission probe looks at: its base name, whether it exists, its mode. */
  datatype FileStat = FileStat(basename: string, exists_: bool, mode: nat)

  /** A file whose permission bits are not 0644 (420 in decimal). */
  predicate Insecure(f: FileStat) {
    f.exists_ && f.mode % 512 != 420
  }

  /** The insecure files, in order. */
  function InsecureFiles(files: seq<FileStat>): (r: seq<string>)
    ensures |r| <= |files|
  {
    if files == [] then []
    else InsecureFiles(files[..|files| - 1])
         + (if Insecure(files[|files| - 1]) then [files[|files| - 1].basename] else [])
  }

  /** File `i` is one the probe reports under `name`. */
  predicate ReportedAt(files: seq<FileStat>, i: int, name: string) {
    0 <= i < |files| && files[i].basename == name && Insecure(files[i])
  }

  /** A name is reported exactly when some file of that name exists with permission bits other than 0644. */
  lemma {:induction false} InsecureFilesAre(files: seq<FileStat>, name: string)
    ensures name in InsecureFiles(files) <==> exists i :: ReportedAt(files, i, name)
  {
    if files != [] {
      var n := |files| - 1;
      var init := files[..n];
      InsecureFilesAre(init, name);
      if name in InsecureFiles(files) {
        if ReportedAt(files, n, name) {
        } else {
          assert name in InsecureFiles(init);
          var i :| ReportedAt(init, i, name);
          assert ReportedAt(files, i, name);
        }
      }
      if exists i :: ReportedAt(files, i, name) {
        var i :| ReportedAt(files, i, name);
        if i < n {
          assert ReportedAt(init, i, name);
        }
      }
    }
  }

  function FilePermissionsReport(insecure: seq<string>): (c: CheckResult)
    ensures c.result == "Good" <==> insecure == []
    ensures c.result == "Good" || c.result == "Needs Attention"
  {
    if insecure == [] then CheckResult("Good", "File permissions are secure.")
    else CheckResult("Needs Attention",
      "Insecure file permissions detected for: " + Implode(", ", insecure) + ". Set permissions to 644 for enhanced security.")
  }

  /** The permission probe over wp-config.php and the uploads directory (in that order). */
  method FilePermissionsCheck(files: seq<FileStat>) returns (c: CheckResult)
    ensures c == FilePermissionsReport(InsecureFiles(files))
  {
    var insecure: seq<string> := [];
    var i := 0;
    while i < |files|
      invariant 0 <= i <= |files|
      invariant insecure == InsecureFiles(files[..i])
    {
      var f := files[i];
      assert files[..i + 1][..i] == files[..i];
      PermissionTest(f.mode);
      if f.exists_ && LastThree(OctalString(f.mode)) != "644" {
        insecure := insecure + [f.basename];
      }
      i := i + 1;
    }
    assert files[..|files|] == files;
    c := FilePermissionsReport(insecure);
  }

  // ---------------------------------------------------------------------
  // Image optimization
  // ---------------------------------------------------------------------

  /** An image in the uploads directory: its base name and size in bytes. */
  datatype Image = Image(basename: string, size: int)

  /** The base names of the images larger than 500 KiB, in order. */
  function LargeImages(images: seq<Image>): (r: seq<string>)
    ensures |r| <= |images|
  {
    if images == [] then []
    else LargeImages(images[..|images| - 1])
         + (if images[|images| - 1].size > LargeImageSize then [images[|images| - 1].basename] else [])
  }

  /** Image `i` is a large one called `name`. */
  predicate LargeAt(images: seq<Image>, i: int, name: string) {
    0 <= i < |images| && images[i].basename == name && images[i].size > LargeImageSize
  }

  /** A name is listed exactly when some image of that name is larger than 500 KiB. */
  lemma {:induction false} LargeImagesAre(images: seq<Image>, name: string)
    ensures name in LargeImages(images) <==> exists i :: LargeAt(images, i, name)
  {
    if images != [] {
      var n := |images| - 1;
      var init := images[..n];
      LargeImagesAre(init, name);
      if name in LargeImages(images) {
        if LargeAt(images, n, name) {
        } else {
          assert name in LargeImages(init);
          var i :| LargeAt(init, i, name);
          assert LargeAt(images, i, name);
        }
      }
      if exists i :: LargeAt(images, i, name) {
        var i :| LargeAt(images, i, name);
        if i < n {
          assert LargeAt(init, i, name);
        }
      }
    }
  }

  /** No large image means the list is empty, and conversely. */
  lemma {:induction false} LargeImagesEmpty(images: seq<Image>)
    ensures LargeImages(images) == [] <==> forall i :: 0 <= i < |images| ==> images[i].size <= LargeImageSize
  {
    if images != [] {
      var n := |images| - 1;
      LargeImagesEmpty(images[..n]);
      assert forall i :: 0 <= i < n ==> images[..n][i] == images[i];
    }
  }

  function ImageOptimizationReport(large: seq<string>): (c: CheckResult)
    ensures c.result == "Good" <==> large == []
    ensures c.result == "Good" || c.result == "Needs Optimization"
  {
    if large == [] then CheckResult("Good", "All images are optimized.")
    else CheckResult("Needs Optimization", "Consider compressing these images: " + Implode(", ", large))
  }

  /** The image probe: one pass over the uploads, collecting the large ones. */
  method ImageOptimizationCheck(images: seq<Image>) returns (c: CheckResult)
    ensures c == ImageOptimizationReport(LargeImages(images))
  {
    var large: seq<string> := [];
    for i := 0 to |images|
      invariant large == LargeImages(images[..i])
    {
      assert images[..i + 1][..i] == images[..i];
      if images[i].size > 500 * 1024 {
        large := large + [images[i].basename];
      }
    }
    assert images[..|images|] == images;
    c := ImageOptimizationReport(large);
  }

  // ---------------------------------------------------------------------
  // Sitemap search
  // ---------------------------------------------------------------------

  /** The sitemap locations tried, in order: generic, Yoast SEO, Rank Math, WordPress core. */
  const SitemapPaths: seq<string> := ["/sitemap.xml", "/sitemap_index.xml", "/sitemap/sitemap-index.xml", "/wp-sitemap.xml"]

  predicate IsOk(r: HttpResponse) {
    r.Response? && r.code == 200
  }

  /** The index of the first path answering 200, or |paths| when none does. */
  function FirstHit(paths: seq<string>, head: string -> HttpResponse): (k: nat)
    ensures k <= |paths|
    ensures forall j :: 0 <= j < k ==> !IsOk(head(paths[j]))
    ensures k < |paths| ==> IsOk(head(paths[k]))
  {
    if paths == [] then 0
    else if IsOk(head(paths[0])) then 0
    else 1 + FirstHit(paths[1..], head)
  }

  /** The first hit is determined by the answers before it. */
  lemma FirstHitIs(paths: seq<string>, head: string -> HttpResponse, k: nat)
    requires k <= |paths|
    requires forall j :: 0 <= j < k ==> !IsOk(head(paths[j]))
    requires k < |paths| ==> IsOk(head(paths[k]))
    ensures FirstHit(paths, head) == k
  {
  }

  function SitemapReport(found: bool): (c: CheckResult)
    ensures c.result == "Good" <==> found
    ensures found || c.result == "No Sitemap Found"
  {
    if found then CheckResult("Good", "Sitemap detected, which helps search engines index your site.")
    else CheckResult("No Sitemap Found", "No sitemap found. Consider adding a sitemap to improve search engine indexing.")
  }

  /**
    * The sitemap probe: HEAD requests in order, stopping at the first 200.
    * `head` answers the request for a path; `requests` is how many
    * requests were made.
    */
  method SitemapCheck(head: string -> HttpResponse) returns (c: CheckResult, requests: nat)
    ensures c.result == "Good" <==> exists i :: 0 <= i < |SitemapPaths| && IsOk(head(SitemapPaths[i]))
    ensures c == SitemapReport(FirstHit(SitemapPaths, head) < |SitemapPaths|)
    ensures requests == if FirstHit(SitemapPaths, head) < |SitemapPaths| then FirstHit(SitemapPaths, head) + 1 else |SitemapPaths|
  {
    var paths := SitemapPaths;
    var found := false;
    requests := 0;
    var i := 0;
    while i < |paths|
      invariant 0 <= i <= |paths|
      invariant requests == i
      invariant forall j :: 0 <= j < i ==> !IsOk(head(paths[j]))
      invariant !found
    {
      var response := head(paths[i]);
      requests := requests + 1;
      if response.Response? && response.code == 200 {
        found := true;
        break;
      }
      i := i + 1;
    }
    FirstHitIs(paths, head, i);
    c := SitemapReport(found);
  }

  // ---------------------------------------------------------------------
  // 404 pages
  // ---------------------------------------------------------------------

  /** The pages the 404 probe requests, expecting them not to exist. */
  const NotFoundPaths: seq<string> := ["/nonexistent-page", "/broken-link"]

  predicate IsNotFound(r: HttpResponse) {
    r.Response? && r.code == 404
  }

  /** The number of paths answering 404. */
  function CountNotFound(paths: seq<string>, head: string -> HttpResponse): (n: nat)
    ensures n <= |paths|
    ensures n == 0 <==> forall j :: 0 <= j < |paths| ==> !IsNotFound(head(paths[j]))
  {
    if paths == [] then 0
    else CountNotFound(paths[..|paths| - 1], head) + (if IsNotFound(head(paths[|paths| - 1])) then 1 else 0)
  }

  function NotFoundReport(count: nat): (c: CheckResult)
    ensures c.result == "Good" <==> count == 0
    ensures c.result == "Good" || c.result == "Needs Attention"
  {
    if count > 0 then CheckResult("Needs Attention",
      "Detected <strong>" + Decimal(count) + " pages</strong> returning 404 errors. Ensure no broken links or missing pages.")
    else CheckResult("Good", "No 404 error pages detected, navigation is clear.")
  }

  /** The 404 probe: counts the requested pages that answer 404. */
  method NotFoundCheck(head: string -> HttpResponse) returns (c: CheckResult)
    ensures c == NotFoundReport(CountNotFound(NotFoundPaths, head))
    ensures c.result == "Good" <==> forall j :: 0 <= j < |NotFoundPaths| ==> !IsNotFound(head(NotFoundPaths[j]))
  {
    var paths := NotFoundPaths;
    var errorCount := 0;
    for i := 0 to |paths|
      invariant errorCount == CountNotFound(paths[..i], head)
    {
      assert paths[..i + 1][..i] == paths[..i];
      var response := head(paths[i]);
      if response.Response? && response.code == 404 {
        errorCount := errorCount + 1;
      }
    }
    assert paths[..|paths|] == paths;
    c := NotFoundReport(errorCount);
  }
}
