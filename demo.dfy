/** The decision logic of `LeadGeneratorDemo` in demo.py: its own confidence
    score, its unweighted industry classifier, LinkedIn and location
    searches, the fallback from the rendered to the static extraction, and the
    batch run with its counts, its high-confidence set and its top three. */
module Demo {
  import opened Seqs
  import opened Text
  import opened Page
  import opened Extract
  import opened Industry
  import LeadGenerator

  /** The record the demo's extractors return on success; unlike
      lead_generator.py it keeps the technology stack as a list. */
  datatype DemoInfo = DemoInfo(
    domain: string,
    title: string,
    description: string,
    emails: seq<string>,
    phones: seq<string>,
    linkedin: string,
    industry: string,
    location: string,
    technologyStack: seq<string>,
    extractionMethod: Method
  )

  /** A success record, or the `{'domain': …, 'error': …}` record. */
  datatype DemoResult = DemoExtracted(info: DemoInfo) | DemoError(domain: string, error: string)

  // ---------------------------------------------------------------------
  // Confidence score

  /** `min(len(emails) * 10, 30)` when there are e-mails. */
  function DemoEmailPoints(info: DemoInfo): int
  {
    if info.emails == [] then 0
    else if |info.emails| * 10 <= 30 then |info.emails| * 10
    else 30
  }

  function DemoPhonePoints(info: DemoInfo): int
  {
    if info.phones != [] then 20 else 0
  }

  function DemoLinkedInPoints(info: DemoInfo): int
  {
    if info.linkedin != [] then 15 else 0
  }

  function DemoIndustryPoints(info: DemoInfo): int
  {
    if info.industry != [] && info.industry != Other then 15 else 0
  }

  function DemoTechnologyPoints(info: DemoInfo): int
  {
    if info.technologyStack != [] then 10 else 0
  }

  function DemoDescriptionPoints(info: DemoInfo): int
  {
    if |info.description| > 50 then 10 else 0
  }

  /** The rule table of `_calculate_confidence` before the clamp: the parts
      are capped at 30, 20, 15, 15, 10 and 10, which add up to 100, so the
      total lies in [0, 100] and `min(score, 100)` never changes it. */
  function DemoConfidencePoints(info: DemoInfo): (r: int)
    ensures 0 <= r <= 100
    ensures r % 5 == 0
    ensures info.emails == [] ==> r <= 70
  {
    var e, p, l := DemoEmailPoints(info), DemoPhonePoints(info), DemoLinkedInPoints(info);
    var n, t, d := DemoIndustryPoints(info), DemoTechnologyPoints(info), DemoDescriptionPoints(info);
    DemoPointsInFives(e, p, l, n, t, d);
    e + p + l + n + t + d
  }

  lemma DemoPointsInFives(e: int, p: int, l: int, n: int, t: int, d: int)
    requires e == 0 || e == 10 || e == 20 || e == 30
    requires (p == 0 || p == 20) && (l == 0 || l == 15) && (n == 0 || n == 15)
    requires (t == 0 || t == 10) && (d == 0 || d == 10)
    ensures (e + p + l + n + t + d) % 5 == 0
  {
    var u := (e + p + t + d) / 5;
    assert e + p + t + d == 5 * u;
    assert l + n == 5 * ((l + n) / 5);
  }

  /** `_calculate_confidence`, accumulating rule by rule and clamping at 100. */
  method DemoCalculateConfidence(info: DemoInfo) returns (score: int)
    ensures score == DemoConfidencePoints(info)
  {
    score := 0;
    if info.emails != [] {
      var emailPart := |info.emails| * 10;
      if emailPart > 30 {
        emailPart := 30;
      }
      score := score + emailPart;
    }
    if info.phones != [] {
      score := score + 20;
    }
    if info.linkedin != [] {
      score := score + 15;
    }
    if info.industry != [] && info.industry != Other {
      score := score + 15;
    }
    if info.technologyStack != [] {
      score := score + 10;
    }
    if |info.description| > 50 {
      score := score + 10;
    }
    score := if score < 100 then score else 100;
  }

  /** A record with three e-mails, a phone, a LinkedIn page, a known
      industry, a technology and a long description scores exactly 100: the
      caps add up to the clamp. */
  lemma DemoFullMarks(info: DemoInfo)
    requires |info.emails| >= 3 && info.phones != [] && info.linkedin != []
    requires info.industry != [] && info.industry != Other
    requires info.technologyStack != [] && |info.description| > 50
    ensures DemoConfidencePoints(info) == 100
  {
    assert DemoEmailPoints(info) == 30;
  }

  /** Without e-mails a record reaches 70 only when every other part is
      present. */
  lemma DemoHighConfidenceWithoutEmail(info: DemoInfo)
    requires info.emails == [] && DemoConfidencePoints(info) >= 70
    ensures info.phones != [] && info.linkedin != []
    ensures info.industry != [] && info.industry != Other
    ensures info.technologyStack != [] && |info.description| > 50
  {
    assert DemoEmailPoints(info) == 0;
  }

  /** Each further e-mail is worth ten points up to the third. */
  lemma DemoEmailPointsGrow(info: DemoInfo, e: string)
    requires |info.emails| < 3
    ensures DemoConfidencePoints(info.(emails := info.emails + [e])) == DemoConfidencePoints(info) + 10
  {
    var more := info.(emails := info.emails + [e]);
    assert DemoEmailPoints(more) == DemoEmailPoints(info) + 10;
    assert DemoPhonePoints(more) == DemoPhonePoints(info) && DemoLinkedInPoints(more) == DemoLinkedInPoints(info);
    assert DemoIndustryPoints(more) == DemoIndustryPoints(info);
    assert DemoTechnologyPoints(more) == DemoTechnologyPoints(info);
    assert DemoDescriptionPoints(more) == DemoDescriptionPoints(info);
  }

  // ---------------------------------------------------------------------
  // Industry

  /** The keyword table of the demo's `_classify_industry`: every keyword
      counts once, with no weights and no secondary keywords. */
  const DemoTable: Table := Table([
    Rule("SaaS/Software", ["saas", "software", "platform", "cloud", "api", "app", "tech"], [], 1),
    Rule("E-commerce", ["shop", "store", "ecommerce", "retail", "marketplace", "buy", "sell"], [], 1),
    Rule("Fintech", ["fintech", "banking", "payment", "finance", "crypto", "trading"], [], 1),
    Rule("Healthcare", ["health", "medical", "healthcare", "telemedicine", "patient"], [], 1),
    Rule("Communication", ["communication", "messaging", "chat", "video", "conference"], [], 1),
    Rule("Productivity", ["productivity", "workspace", "collaboration", "notes", "project"], [], 1),
    Rule("Marketing", ["marketing", "advertising", "seo", "social media", "analytics"], [], 1),
    Rule("Developer Tools", ["developer", "code", "github", "repository", "programming"], [], 1)
  ], 1)

  /** The demo's `_classify_industry`: the first industry, in table order,
      with the largest plain keyword count, or "Other" when no keyword occurs
      in the lower-cased text. */
  lemma DemoClassifyCharacterised(text: string)
    ensures forall i :: 0 <= i < |DemoTable.rules| ==>
      Scores(DemoTable, Lower(text))[i] == Hits(Lower(text), DemoTable.rules[i].primary)
    ensures Classify(DemoTable, text) == Other <==>
      forall i :: 0 <= i < |DemoTable.rules| ==> !ContainsAny(Lower(text), DemoTable.rules[i].primary)
    ensures Classify(DemoTable, text) != Other ==>
      exists i: nat :: IsFirstMax(Scores(DemoTable, Lower(text)), i) && Scores(DemoTable, Lower(text))[i] > 0
        && Classify(DemoTable, text) == DemoTable.rules[i].name
  {
    var lowered := Lower(text);
    DemoTablePlain();
    ClassifyCharacterised(DemoTable, text);
    forall i | 0 <= i < |DemoTable.rules|
      ensures Scores(DemoTable, lowered)[i] == Hits(lowered, DemoTable.rules[i].primary)
      ensures !ContainsAny(lowered, DemoTable.rules[i].secondary)
    {
      var r := DemoTable.rules[i];
      assert Hits(lowered, r.secondary) == 0;
      assert RuleScore(DemoTable, r, lowered) == Hits(lowered, r.primary);
    }
  }

  /** Every rule of the demo table has weight 1 and no secondary keywords. */
  lemma DemoTablePlain()
    ensures WellFormed(DemoTable) && DemoTable.primaryFactor == 1
    ensures forall i :: 0 <= i < |DemoTable.rules| ==>
      DemoTable.rules[i].secondary == [] && DemoTable.rules[i].weight == 1
  {
  }

  // ---------------------------------------------------------------------
  // LinkedIn and location

  /** What `re.compile(r'linkedin\.com/company')` looks for in an `href`. */
  const CompanyPageKey: string := "linkedin.com/company"

  /** The position of the first `href` holding `key`, or the number of
      anchors when none does. */
  function FirstContaining(anchors: seq<string>, key: string): (i: nat)
    ensures i <= |anchors|
    ensures i < |anchors| ==> Contains(anchors[i], key)
    ensures forall j :: 0 <= j < i ==> !Contains(anchors[j], key)
  {
    FirstWhere(anchors, (a: string) => Contains(a, key))
  }

  /** The demo's `_extract_linkedin`: the first `href` that mentions a
      LinkedIn company page, as written in the page, or "" when none does. */
  function DemoLinkedIn(anchors: seq<string>): (r: string)
    ensures r == [] <==> forall i :: 0 <= i < |anchors| ==> !Contains(anchors[i], CompanyPageKey)
    ensures r != [] ==> exists i :: (0 <= i < |anchors| && r == anchors[i] && Contains(r, CompanyPageKey)
      && forall j :: 0 <= j < i ==> !Contains(anchors[j], CompanyPageKey))
  {
    NotContainsShort([], CompanyPageKey);
    var i := FirstContaining(anchors, CompanyPageKey);
    if i < |anchors| then anchors[i] else []
  }

  /** The demo's `_extract_location`: the first match of the first pattern
      that matched anything; there is no "offices" check. */
  function DemoLocation(matches: seq<seq<string>>): (r: string)
    ensures (forall i :: 0 <= i < |matches| ==> matches[i] == []) ==> r == []
    ensures (exists i :: 0 <= i < |matches| && matches[i] != []) ==>
      exists i :: (0 <= i < |matches| && matches[i] != [] && r == matches[i][0]
        && forall j :: 0 <= j < i ==> matches[j] == [])
  {
    if matches == [] then []
    else if matches[0] != [] then matches[0][0]
    else
      var r := DemoLocation(matches[1..]);
      assert forall i :: 1 <= i < |matches| ==> matches[1..][i - 1] == matches[i];
      r
  }

  /** The two location searches differ only on "offices": when no pattern's
      first match reads "offices", the demo finds what lead_generator.py
      finds. */
  lemma {:induction false} DemoLocationAgrees(matches: seq<seq<string>>)
    requires forall i :: 0 <= i < |matches| && matches[i] != [] ==> Lower(matches[i][0]) != "offices"
    ensures DemoLocation(matches) == LeadGenerator.LeadLocation(matches)
  {
    if matches != [] && matches[0] == [] {
      assert forall i :: 0 <= i < |matches| - 1 ==> matches[1..][i] == matches[i + 1];
      DemoLocationAgrees(matches[1..]);
    }
  }

  // ---------------------------------------------------------------------
  // The two extraction paths

  /** What a successful `_extract_with_requests` record holds for `doc`. */
  predicate IsDemoStaticRecord(o: Oracles, domain: string, doc: Document, info: DemoInfo)
  {
    && info.domain == domain
    && info.title == CleanTitle(TitleText(doc.titleString))
    && info.description == MetaDescription(doc.metaContent)
    && DistinctPick(AcceptedEmails(doc.emailMatches, o.validEmail), 3, info.emails)
    && DistinctPick(Flatten(doc.phoneMatches[..Consulted(doc.phoneMatches)]), 2, info.phones)
    && info.linkedin == DemoLinkedIn(doc.anchors)
    && info.industry == Classify(DemoTable, doc.text)
    && info.location == DemoLocation(doc.locationMatches)
    && info.technologyStack == []
    && info.extractionMethod == BeautifulSoup
  }

  /** What the rendered record holds for `page`: the in-page e-mails through
      the same filter, at most two in-page phones, the in-page library list. */
  predicate IsDemoRenderedRecord(o: Oracles, domain: string, page: RenderedPage, info: DemoInfo)
  {
    && info.domain == domain
    && info.title == CleanTitle(page.title)
    && info.description == MetaDescription(page.doc.metaContent)
    && DistinctPick(AcceptedEmails(page.scriptEmails, o.validEmail), 3, info.emails)
    && info.phones == Take(page.scriptPhones, 2)
    && info.linkedin == DemoLinkedIn(page.doc.anchors)
    && info.industry == Classify(DemoTable, page.doc.text)
    && info.location == DemoLocation(page.doc.locationMatches)
    && info.technologyStack == page.scriptTechnologies
    && info.extractionMethod == Playwright
  }

  /** The outcome of the static path: the error record when the fetch
      raised, otherwise a static record of the document. */
  predicate DemoStaticOutcome(o: Oracles, domain: string, fetch: FetchOutcome, r: DemoResult)
  {
    && (fetch.FetchRaised? ==> r == DemoError(domain, fetch.message))
    && (fetch.Fetched? ==> r.DemoExtracted? && IsDemoStaticRecord(o, domain, fetch.doc, r.info))
  }

  /** `_extract_with_requests`: never raises; a failed GET or parse gives
      exactly the `{domain, error}` record. */
  method DemoExtractWithRequests(domain: string, fetch: FetchOutcome, o: Oracles) returns (r: DemoResult)
    ensures DemoStaticOutcome(o, domain, fetch, r)
  {
    match fetch
    case FetchRaised(message) =>
      return DemoError(domain, message);
    case Fetched(doc) =>
      var emails := FilterEmails(doc.emailMatches, o.validEmail);
      var phones := ExtractPhones(doc.phoneMatches);
      r := DemoExtracted(DemoInfo(
        domain,
        CleanTitle(TitleText(doc.titleString)),
        MetaDescription(doc.metaContent),
        emails,
        phones,
        DemoLinkedIn(doc.anchors),
        Classify(DemoTable, doc.text),
        DemoLocation(doc.locationMatches),
        [],
        BeautifulSoup));
  }

  /** `_extract_with_playwright`: the rendered record, or, when the browser
      session raises, whatever `_extract_with_requests` gives. */
  method DemoExtractWithPlaywright(domain: string, site: Site, o: Oracles) returns (r: DemoResult)
    ensures site.render.Rendered? ==> r.DemoExtracted? && IsDemoRenderedRecord(o, domain, site.render.page, r.info)
    ensures site.render.RenderRaised? ==> DemoStaticOutcome(o, domain, site.fetch, r)
  {
    match site.render
    case RenderRaised(_) =>
      r := DemoExtractWithRequests(domain, site.fetch, o);
    case Rendered(page) =>
      var emails := FilterEmails(page.scriptEmails, o.validEmail);
      r := DemoExtracted(DemoInfo(
        domain,
        CleanTitle(page.title),
        MetaDescription(page.doc.metaContent),
        emails,
        Take(page.scriptPhones, 2),
        DemoLinkedIn(page.doc.anchors),
        Classify(DemoTable, page.doc.text),
        DemoLocation(page.doc.locationMatches),
        page.scriptTechnologies,
        Playwright));
  }

  /** The rendered path is taken, and succeeds, for this site. */
  predicate DemoRenderedAt(usePlaywright: bool, playwrightAvailable: bool, site: Site)
  {
    usePlaywright && playwrightAvailable && site.render.Rendered?
  }

  /** `extract_company_info`: the rendered path when it is asked for and the
      browser backend is installed, the static path otherwise. A record is
      tagged 'Playwright' exactly when the rendered path was taken and
      succeeded; otherwise it is the static path's outcome. */
  method DemoExtractCompanyInfo(domain: string, usePlaywright: bool, playwrightAvailable: bool, site: Site, o: Oracles)
    returns (r: DemoResult)
    ensures DemoRenderedAt(usePlaywright, playwrightAvailable, site) ==>
      r.DemoExtracted? && IsDemoRenderedRecord(o, domain, site.render.page, r.info)
    ensures !DemoRenderedAt(usePlaywright, playwrightAvailable, site) ==> DemoStaticOutcome(o, domain, site.fetch, r)
  {
    if usePlaywright && playwrightAvailable {
      r := DemoExtractWithPlaywright(domain, site, o);
    } else {
      r := DemoExtractWithRequests(domain, site.fetch, o);
    }
  }

  /** The extraction ends in the error record exactly when the rendered path
      was not taken or raised and the static fetch raised; a success is
      tagged 'Playwright' exactly when the rendered path was taken and
      succeeded. */
  lemma DemoOutcomeTags(o: Oracles, domain: string, usePlaywright: bool, playwrightAvailable: bool, site: Site,
                        r: DemoResult)
    requires DemoRenderedAt(usePlaywright, playwrightAvailable, site) ==>
      r.DemoExtracted? && IsDemoRenderedRecord(o, domain, site.render.page, r.info)
    requires !DemoRenderedAt(usePlaywright, playwrightAvailable, site) ==> DemoStaticOutcome(o, domain, site.fetch, r)
    ensures r.DemoError? <==> DemoFailsAt(usePlaywright, playwrightAvailable, site)
    ensures r.DemoExtracted? ==>
      (r.info.extractionMethod == Playwright <==> DemoRenderedAt(usePlaywright, playwrightAvailable, site))
  {
  }

  /** Extraction of this site ends in the error record. */
  predicate DemoFailsAt(usePlaywright: bool, playwrightAvailable: bool, site: Site)
  {
    !DemoRenderedAt(usePlaywright, playwrightAvailable, site) && site.fetch.FetchRaised?
  }

  // ---------------------------------------------------------------------
  // Batch run

  /** The domains the batch run renders in the browser. */
  const RenderedDomains: seq<string> := ["stripe.com", "notion.so", "figma.com", "linear.app"]

  /** A success record with the `confidence_score` the batch run adds. */
  datatype ScoredResult = ScoredResult(info: DemoInfo, confidenceScore: int)

  /** The per-domain tallies of the batch run. */
  datatype DemoStats = DemoStats(standard: nat, enhanced: nat, errors: nat)

  function ResultDomains(results: seq<ScoredResult>): (r: seq<string>)
    ensures |r| == |results|
    ensures forall i :: 0 <= i < |results| ==> r[i] == results[i].info.domain
  {
    seq(|results|, i requires 0 <= i < |results| => results[i].info.domain)
  }

  /** The batch run renders `d` and the rendering succeeds. */
  predicate BatchRenderedAt(d: string, playwrightAvailable: bool, site: Site)
  {
    DemoRenderedAt(d in RenderedDomains, playwrightAvailable, site)
  }

  /** The batch run's extraction of `d` ends in the error record. */
  predicate BatchFailsAt(d: string, playwrightAvailable: bool, site: Site)
  {
    DemoFailsAt(d in RenderedDomains, playwrightAvailable, site)
  }

  /** The loop of `demo_batch_processing`: every domain is extracted, through
      the browser when it is one of the four listed; errors are counted and
      dropped, every success is scored and kept, and its method counted. */
  method BatchProcessing(domains: seq<string>, playwrightAvailable: bool, world: string -> Site, o: Oracles)
    returns (results: seq<ScoredResult>, stats: DemoStats)
    ensures |results| + stats.errors == |domains|
    ensures stats.standard + stats.enhanced == |results|
    ensures ResultDomains(results) == Filter(domains, (d: string) => !BatchFailsAt(d, playwrightAvailable, world(d)))
    ensures stats.errors == |Filter(domains, (d: string) => BatchFailsAt(d, playwrightAvailable, world(d)))|
    ensures stats.enhanced == |Filter(domains, (d: string) => BatchRenderedAt(d, playwrightAvailable, world(d)))|
    ensures forall i :: 0 <= i < |results| ==> results[i].confidenceScore == DemoConfidencePoints(results[i].info)
  {
    results := [];
    stats := DemoStats(0, 0, 0);
    ghost var fails := (d: string) => BatchFailsAt(d, playwrightAvailable, world(d));
    ghost var succeeds := (d: string) => !BatchFailsAt(d, playwrightAvailable, world(d));
    ghost var rendered := (d: string) => BatchRenderedAt(d, playwrightAvailable, world(d));
    var i := 0;
    while i < |domains|
      invariant i <= |domains|
      invariant ResultDomains(results) == Filter(domains[..i], succeeds)
      invariant stats.errors == |Filter(domains[..i], fails)|
      invariant stats.enhanced == |Filter(domains[..i], rendered)|
      invariant |results| + stats.errors == i
      invariant stats.standard + stats.enhanced == |results|
      invariant ScoredByDemo(results)
    {
      var domain := domains[i];
      FilterStep(domains, i, succeeds);
      FilterCountStep(domains, i, fails);
      FilterCountStep(domains, i, rendered);
      results, stats := BatchStep(domain, playwrightAvailable, world(domain), o, results, stats);
      i := i + 1;
    }
    assert domains[..i] == domains;
  }

  /** The loop body of `demo_batch_processing` for one domain: an error is
      counted, a success is counted by its method and kept with its score. */
  method BatchStep(domain: string, playwrightAvailable: bool, site: Site, o: Oracles,
                   results: seq<ScoredResult>, stats: DemoStats)
    returns (results': seq<ScoredResult>, stats': DemoStats)
    requires ScoredByDemo(results)
    ensures ScoredByDemo(results')
    ensures ResultDomains(results') ==
      ResultDomains(results) + if !BatchFailsAt(domain, playwrightAvailable, site) then [domain] else []
    ensures stats'.errors == stats.errors + if BatchFailsAt(domain, playwrightAvailable, site) then 1 else 0
    ensures stats'.enhanced == stats.enhanced + if BatchRenderedAt(domain, playwrightAvailable, site) then 1 else 0
    ensures |results'| + stats'.errors == |results| + stats.errors + 1
    ensures stats'.standard + stats'.enhanced - |results'| == stats.standard + stats.enhanced - |results|
  {
    var result, enhanced := ProcessBatchDomain(domain, playwrightAvailable, site, o);
    if result.None? {
      return results, stats.(errors := stats.errors + 1);
    }
    if enhanced {
      stats' := stats.(enhanced := stats.enhanced + 1);
    } else {
      stats' := stats.(standard := stats.standard + 1);
    }
    ResultDomainsAppend(results, result.value);
    ScoredByDemoAppend(results, result.value);
    results' := results + [result.value];
  }

  lemma ResultDomainsAppend(results: seq<ScoredResult>, r: ScoredResult)
    ensures ResultDomains(results + [r]) == ResultDomains(results) + [r.info.domain]
  {
  }

  /** Every result carries the demo score of its record. */
  predicate ScoredByDemo(results: seq<ScoredResult>)
  {
    forall k :: 0 <= k < |results| ==> results[k].confidenceScore == DemoConfidencePoints(results[k].info)
  }

  lemma ScoredByDemoAppend(results: seq<ScoredResult>, r: ScoredResult)
    requires ScoredByDemo(results) && r.confidenceScore == DemoConfidencePoints(r.info)
    ensures ScoredByDemo(results + [r])
  {
  }

  /** One pass of the batch loop: None is the error record; a success comes
      back scored, with `enhanced` telling whether it was rendered. */
  method ProcessBatchDomain(domain: string, playwrightAvailable: bool, site: Site, o: Oracles)
    returns (result: Option<ScoredResult>, enhanced: bool)
    ensures result.None? <==> BatchFailsAt(domain, playwrightAvailable, site)
    ensures result.Some? ==> (enhanced <==> BatchRenderedAt(domain, playwrightAvailable, site))
    ensures result.Some? ==> (result.value.info.domain == domain
      && result.value.confidenceScore == DemoConfidencePoints(result.value.info))
    ensures result.Some? && BatchRenderedAt(domain, playwrightAvailable, site) ==>
      IsDemoRenderedRecord(o, domain, site.render.page, result.value.info)
    ensures result.Some? && !BatchRenderedAt(domain, playwrightAvailable, site) ==>
      site.fetch.Fetched? && IsDemoStaticRecord(o, domain, site.fetch.doc, result.value.info)
  {
    var usePlaywright := domain in RenderedDomains;
    var r := DemoExtractCompanyInfo(domain, usePlaywright, playwrightAvailable, site, o);
    DemoOutcomeTags(o, domain, usePlaywright, playwrightAvailable, site, r);
    if r.DemoError? {
      return None, false;
    }
    var score := DemoCalculateConfidence(r.info);
    enhanced := r.info.extractionMethod == Playwright;
    result := Some(ScoredResult(r.info, score));
  }

  // ---------------------------------------------------------------------
  // Summary and ranking

  /** The results scoring at least 70. */
  function HighConfidence(results: seq<ScoredResult>): seq<ScoredResult>
  {
    Filter(results, (r: ScoredResult) => r.confidenceScore >= 70)
  }

  /** The high-confidence list holds exactly the results scoring 70 or more,
      in their order; a result in it without e-mails has every other part. */
  lemma HighConfidenceCharacterised(results: seq<ScoredResult>)
    requires forall i :: 0 <= i < |results| ==> results[i].confidenceScore == DemoConfidencePoints(results[i].info)
    ensures forall r :: r in HighConfidence(results) <==> r in results && r.confidenceScore >= 70
    ensures forall r :: r in HighConfidence(results) && r.info.emails == [] ==>
      r.info.phones != [] && r.info.linkedin != [] && r.info.technologyStack != [] && |r.info.description| > 50
  {
    forall r
      ensures r in HighConfidence(results) <==> r in results && r.confidenceScore >= 70
    {
      FilterMembership(results, (x: ScoredResult) => x.confidenceScore >= 70, r);
    }
    forall r | r in HighConfidence(results) && r.info.emails == []
      ensures r.info.phones != [] && r.info.linkedin != [] && r.info.technologyStack != [] && |r.info.description| > 50
    {
      var i :| 0 <= i < |results| && results[i] == r;
      DemoHighConfidenceWithoutEmail(r.info);
    }
  }

  /** Scores never increase along the list. */
  predicate SortedByScore(s: seq<ScoredResult>)
  {
    forall i, j :: 0 <= i < j < |s| ==> s[i].confidenceScore >= s[j].confidenceScore
  }

  /** The results with score `k`, in their order. */
  function WithScore(s: seq<ScoredResult>, k: int): seq<ScoredResult>
  {
    Filter(s, (r: ScoredResult) => r.confidenceScore == k)
  }

  /** Puts `x` after every entry of `s` scoring at least as much. */
  function InsertByScore(x: ScoredResult, s: seq<ScoredResult>): (r: seq<ScoredResult>)
    ensures |r| == |s| + 1
  {
    if s == [] then [x]
    else if s[0].confidenceScore >= x.confidenceScore then [s[0]] + InsertByScore(x, s[1..])
    else [x] + s
  }

  /** `sorted(results, key=confidence_score, reverse=True)`: Python's sort is
      stable, so equal scores keep their input order. */
  function SortByScore(s: seq<ScoredResult>): (r: seq<ScoredResult>)
    ensures |r| == |s|
  {
    if s == [] then [] else InsertByScore(s[|s| - 1], SortByScore(s[..|s| - 1]))
  }

  /** Insertion adds exactly the inserted element. */
  lemma {:induction false} InsertPermutes(x: ScoredResult, s: seq<ScoredResult>)
    ensures multiset(InsertByScore(x, s)) == multiset(s) + multiset{x}
  {
    if s != [] && s[0].confidenceScore >= x.confidenceScore {
      InsertPermutes(x, s[1..]);
      assert s == [s[0]] + s[1..];
    }
  }

  /** Insertion into a list sorted by score keeps it sorted. */
  lemma {:induction false} InsertSorted(x: ScoredResult, s: seq<ScoredResult>)
    requires SortedByScore(s)
    ensures SortedByScore(InsertByScore(x, s))
  {
    if s != [] && s[0].confidenceScore >= x.confidenceScore {
      var rest := InsertByScore(x, s[1..]);
      InsertSorted(x, s[1..]);
      InsertPermutes(x, s[1..]);
      forall j | 0 <= j < |rest|
        ensures s[0].confidenceScore >= rest[j].confidenceScore
      {
        assert rest[j] in multiset(s[1..]) + multiset{x};
        if rest[j] != x {
          assert rest[j] in s[1..];
        }
      }
      SortedCons(s[0], rest);
    }
  }

  /** A sorted list stays sorted under a head scoring at least as much as
      each of its entries. */
  lemma SortedCons(h: ScoredResult, rest: seq<ScoredResult>)
    requires SortedByScore(rest)
    requires forall j :: 0 <= j < |rest| ==> h.confidenceScore >= rest[j].confidenceScore
    ensures SortedByScore([h] + rest)
  {
    var r := [h] + rest;
    forall i, j | 0 <= i < j < |r|
      ensures r[i].confidenceScore >= r[j].confidenceScore
    {
      assert r[j] == rest[j - 1];
      if i > 0 {
        assert r[i] == rest[i - 1];
      }
    }
  }

  /** Inserting `x` into a sorted list appends it to the entries of its own
      score and leaves the entries of every other score alone. */
  lemma {:induction false} InsertStable(x: ScoredResult, s: seq<ScoredResult>, k: int)
    requires SortedByScore(s)
    ensures WithScore(InsertByScore(x, s), k) == WithScore(s, k) + (if x.confidenceScore == k then [x] else [])
  {
    var p := (r: ScoredResult) => r.confidenceScore == k;
    if s == [] {
      assert WithScore([x], k) == Filter([x], p);
    } else if s[0].confidenceScore >= x.confidenceScore {
      assert s == [s[0]] + s[1..];
      InsertStable(x, s[1..], k);
      FilterAppend([s[0]], InsertByScore(x, s[1..]), p);
      FilterAppend([s[0]], s[1..], p);
    } else {
      FilterAppend([x], s, p);
      if x.confidenceScore == k {
        FilterNone(s, p);
      }
    }
  }

  /** The ranking is sorted by score, highest first, is a permutation of the
      results, and keeps results of equal score in their input order. */
  lemma {:induction false} SortByScoreCorrect(s: seq<ScoredResult>)
    ensures SortedByScore(SortByScore(s))
    ensures multiset(SortByScore(s)) == multiset(s)
    ensures forall k :: WithScore(SortByScore(s), k) == WithScore(s, k)
  {
    if s != [] {
      var init, last := s[..|s| - 1], s[|s| - 1];
      SortByScoreCorrect(init);
      InsertSorted(last, SortByScore(init));
      InsertPermutes(last, SortByScore(init));
      assert s == init + [last];
      forall k
        ensures WithScore(SortByScore(s), k) == WithScore(s, k)
      {
        InsertStable(last, SortByScore(init), k);
      }
    }
  }

  /** The three leads the batch run shows: the first three of the ranking. */
  function TopLeads(results: seq<ScoredResult>): seq<ScoredResult>
  {
    Take(SortByScore(results), 3)
  }

  /** At most three leads, all drawn from the results, highest score first;
      a result scoring more than any of them is among them; and when there
      are at least three results, three are shown. */
  lemma TopLeadsCharacterised(results: seq<ScoredResult>)
    ensures |TopLeads(results)| == if |results| < 3 then |results| else 3
    ensures forall r :: r in TopLeads(results) ==> r in results
    ensures SortedByScore(TopLeads(results))
    ensures forall r, i :: (r in results && 0 <= i < |TopLeads(results)|
      && r.confidenceScore > TopLeads(results)[i].confidenceScore) ==> r in TopLeads(results)
  {
    var sorted := SortByScore(results);
    SortByScoreCorrect(results);
    var top := TopLeads(results);
    assert top == sorted[..|top|];
    forall r | r in top
      ensures r in results
    {
      assert r in multiset(sorted);
    }
    forall r, i | r in results && 0 <= i < |top| && r.confidenceScore > top[i].confidenceScore
      ensures r in top
    {
      assert r in multiset(sorted);
      var j :| 0 <= j < |sorted| && sorted[j] == r;
      assert sorted[i] == top[i];
      HigherScoreComesFirst(sorted, i, j);
      assert top[j] == r;
    }
  }

  /** In a sorted list an entry scoring more than the one at `i` stands
      before it. */
  lemma HigherScoreComesFirst(s: seq<ScoredResult>, i: nat, j: nat)
    requires SortedByScore(s) && i < |s| && j < |s|
    requires s[j].confidenceScore > s[i].confidenceScore
    ensures j < i
  {
  }
}
