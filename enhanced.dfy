/** The decision logic of enhanced_lead_generator.py: the in-order e-mail
    filter, the weighted industry classifier, the company size and revenue
    estimators, `AdvancedLeadScorer.calculate_advanced_score`, and
    `process_domain_enhanced` with its two extraction paths.

    `EnhancedLeadEnricher` calls seven helpers it does not define
    (`_clean_title`, `_extract_meta_description`, `_extract_location_advanced`,
    `_extract_emails_basic`, `_extract_phones_basic`, `_extract_linkedin_basic`,
    `_classify_industry_basic`), so both of its extraction paths raise
    `AttributeError` as written. The module models that behaviour
    (`ExtractAsWritten`, `ProcessDomainEnhancedAsWritten`) and, beside it, the
    evidently intended one, which takes demo.py's counterparts
    (`_clean_title`, `_extract_meta_description`, `_extract_location`,
    `_extract_emails_basic` with `_filter_emails`, `_extract_phones_basic`,
    `_extract_linkedin`, `_classify_industry`). */
module Enhanced {
  import opened Seqs
  import opened Text
  import opened Page
  import opened Extract
  import opened Industry
  import opened Demo

  // ---------------------------------------------------------------------
  // E-mail filter

  /** `_filter_emails` of enhanced_lead_generator.py: walk the list in
      order, keep what the validator accepts and the deny list lets through,
      stop at three. */
  method EnhancedFilterEmails(emails: seq<string>, valid: string -> bool) returns (r: seq<string>)
    ensures r == Take(AcceptedEmails(emails, valid), 3)
  {
    ghost var accepted := (e: string) => Accepted(valid, e);
    r := [];
    var i := 0;
    while i < |emails|
      invariant i <= |emails|
      invariant r == Filter(emails[..i], accepted)
      invariant |r| < 3
    {
      FilterStep(emails, i, accepted);
      var email := emails[i];
      i := i + 1;
      if Accepted(valid, email) {
        r := r + [email];
        if |r| >= 3 {
          FilterAppend(emails[..i], emails[i..], accepted);
          assert emails[..i] + emails[i..] == emails;
          assert (r + Filter(emails[i..], accepted))[..3] == r;
          return;
        }
      }
    }
    assert emails[..i] == emails;
  }

  /** The filter does not remove repeats: an accepted address listed twice
      comes back twice. */
  lemma EnhancedFilterKeepsRepeats(e: string, valid: string -> bool)
    requires Accepted(valid, e)
    ensures Take(AcceptedEmails([e, e], valid), 3) == [e, e]
  {
    var p := (x: string) => Accepted(valid, x);
    assert [e, e][..1] == [e] && [e][..0] == [];
    assert Filter([e], p) == [e];
    assert Filter([e, e], p) == [e, e];
  }

  /** On a list without repeats the in-order filter gives one of the answers
      the set-walking filter of lead_generator.py and demo.py may give. */
  lemma EnhancedFilterIsAPick(emails: seq<string>, valid: string -> bool)
    requires Distinct(emails)
    ensures DistinctPick(AcceptedEmails(emails, valid), 3, Take(AcceptedEmails(emails, valid), 3))
  {
    var accepted := (e: string) => Accepted(valid, e);
    var f := AcceptedEmails(emails, valid);
    FilterKeepsOrder(emails, accepted);
    var k := KeptIndices(emails, accepted);
    assert Distinct(f) by {
      forall i, j | 0 <= i < j < |f|
        ensures f[i] != f[j]
      {
        assert k[i] < k[j];
      }
    }
    var t := Take(f, 3);
    forall x | x in t
      ensures x in f
    {
      var i :| 0 <= i < |t| && t[i] == x;
      assert f[i] == x;
    }
  }

  // ---------------------------------------------------------------------
  // Industry

  /** The table of `_classify_industry_advanced`, weights times ten (1.5,
      1.3, 1.4, 1.2, 1.6 become 15, 13, 14, 12, 16) and primary keywords
      counted three times. */
  const EnhancedTable: Table := Table([
    Rule("SaaS/Software", ["saas", "software", "platform", "cloud", "api"],
      ["subscription", "dashboard", "integration", "automation"], 15),
    Rule("E-commerce", ["shop", "store", "ecommerce", "retail", "marketplace"],
      ["cart", "checkout", "product", "buy", "sell"], 13),
    Rule("Fintech", ["fintech", "banking", "payment", "finance", "crypto"],
      ["transaction", "wallet", "investment", "trading"], 14),
    Rule("Healthcare", ["health", "medical", "healthcare", "telemedicine"],
      ["patient", "doctor", "clinic", "diagnosis"], 12),
    Rule("AI/ML", ["artificial intelligence", "machine learning", "ai", "ml"],
      ["neural", "algorithm", "data science", "analytics"], 16)
  ], 3)

  /** `_classify_industry_advanced`: "Other" exactly when no keyword occurs in
      the lower-cased page; otherwise the first industry, in table order,
      with the largest `(3 * primary + secondary) * weight`. */
  lemma EnhancedClassifyCharacterised(content: string)
    ensures Classify(EnhancedTable, content) == Other <==>
      forall i :: 0 <= i < |EnhancedTable.rules| ==>
        !ContainsAny(Lower(content), EnhancedTable.rules[i].primary)
        && !ContainsAny(Lower(content), EnhancedTable.rules[i].secondary)
    ensures Classify(EnhancedTable, content) != Other ==>
      exists i: nat :: IsFirstMax(Scores(EnhancedTable, Lower(content)), i) && Scores(EnhancedTable, Lower(content))[i] > 0
        && Classify(EnhancedTable, content) == EnhancedTable.rules[i].name
  {
    assert WellFormed(EnhancedTable);
    ClassifyCharacterised(EnhancedTable, content);
  }

  /** "ml" is an AI/ML keyword, so a page whose markup contains "html" (as
      `page.content()` does) is never classified "Other". */
  lemma MarkupNeverOther(content: string)
    requires Contains(Lower(content), "html")
    ensures Classify(EnhancedTable, content) != Other
  {
    var lowered := Lower(content);
    assert "ht" + "ml" == "html";
    ContainsKeyTail(lowered, "ht", "ml");
    var ai := EnhancedTable.rules[4].primary;
    assert ai[3] == "ml";
    ContainsAnyIff(lowered, ai);
    EnhancedClassifyCharacterised(content);
  }

  /** `_classify_industry_advanced` as the source runs it, keyword by keyword. */
  method ClassifyIndustryAdvanced(content: string) returns (industry: string)
    ensures industry == Classify(EnhancedTable, content)
  {
    industry := ClassifyByKeywords(EnhancedTable, content);
  }

  // ---------------------------------------------------------------------
  // Size and revenue

  const LargeIndicators: seq<string> := ["fortune 500", "enterprise", "global", "worldwide", "international"]
  const MediumIndicators: seq<string> := ["startup", "growing", "scale", "expanding"]
  const SmallIndicators: seq<string> := ["small business", "local", "boutique", "independent"]

  const LargeSize: string := "Large (1000+ employees)"
  const MediumSize: string := "Medium (100-1000 employees)"
  const SmallSize: string := "Small (10-100 employees)"
  const Unknown: string := "Unknown"

  /** The comparison chain of `_estimate_company_size` on the three
      indicator counts. */
  function SizeFromCounts(large: nat, medium: nat, small: nat): (r: string)
    ensures r == Unknown <==> large == 0 && medium == 0 && small == 0
    ensures r == LargeSize <==> large > medium && large > small
    ensures large == medium && medium > small ==> r == MediumSize
    ensures medium == small && small > 0 && large <= medium ==> r == SmallSize
    ensures r == LargeSize || r == MediumSize || r == SmallSize || r == Unknown
  {
    if large > medium && large > small then LargeSize
    else if medium > small then MediumSize
    else if small > 0 then SmallSize
    else Unknown
  }

  /** `_estimate_company_size`: indicator counts on the lower-cased page. */
  function EstimateCompanySize(content: string): (r: string)
    ensures r == LargeSize || r == MediumSize || r == SmallSize || r == Unknown
  {
    var lowered := Lower(content);
    SizeFromCounts(Hits(lowered, LargeIndicators), Hits(lowered, MediumIndicators), Hits(lowered, SmallIndicators))
  }

  /** The size is "Unknown" exactly when no indicator of any size occurs in
      the lower-cased page. */
  lemma SizeUnknownIff(content: string)
    ensures EstimateCompanySize(content) == Unknown <==>
      !ContainsAny(Lower(content), LargeIndicators) && !ContainsAny(Lower(content), MediumIndicators)
      && !ContainsAny(Lower(content), SmallIndicators)
  {
    var lowered := Lower(content);
    HitsZeroIffNoneOccurs(lowered, LargeIndicators);
    HitsZeroIffNoneOccurs(lowered, MediumIndicators);
    HitsZeroIffNoneOccurs(lowered, SmallIndicators);
  }

  const BillionIndicators: seq<string> := ["billion", "unicorn", "ipo"]
  const MillionIndicators: seq<string> := ["million", "series", "funded"]
  const GrowthIndicators: seq<string> := ["revenue", "profitable", "growing"]

  /** `_estimate_revenue`: the first tier, from the top, with an indicator in
      the lower-cased page. */
  function EstimateRevenue(content: string): (r: string)
    ensures r == "$1B+" || r == "$10M-1B" || r == "$1M-10M" || r == Unknown
  {
    var lowered := Lower(content);
    if ContainsAny(lowered, BillionIndicators) then "$1B+"
    else if ContainsAny(lowered, MillionIndicators) then "$10M-1B"
    else if ContainsAny(lowered, GrowthIndicators) then "$1M-10M"
    else Unknown
  }

  /** All nine revenue indicators, highest tier first. */
  function RevenueIndicators(): seq<string>
  {
    BillionIndicators + MillionIndicators + GrowthIndicators
  }

  /** A billion-tier word decides alone; otherwise the estimate is "Unknown"
      exactly when none of the nine indicators occurs. */
  lemma RevenueCharacterised(content: string)
    ensures (exists i :: 0 <= i < |BillionIndicators| && Contains(Lower(content), BillionIndicators[i])) ==>
      EstimateRevenue(content) == "$1B+"
    ensures EstimateRevenue(content) == Unknown <==>
      forall i :: 0 <= i < |RevenueIndicators()| ==> !Contains(Lower(content), RevenueIndicators()[i])
  {
    var lowered := Lower(content);
    ContainsAnyIff(lowered, BillionIndicators);
    ContainsAnyAppend(lowered, BillionIndicators, MillionIndicators);
    ContainsAnyAppend(lowered, BillionIndicators + MillionIndicators, GrowthIndicators);
    ContainsAnyIff(lowered, RevenueIndicators());
  }

  /** The rank of a revenue estimate, "Unknown" lowest. */
  function RevenueRank(r: string): nat
  {
    if r == "$1B+" then 3 else if r == "$10M-1B" then 2 else if r == "$1M-10M" then 1 else 0
  }

  /** More text never lowers the revenue estimate. */
  lemma RevenueGrowsWithText(content: string, more: string)
    ensures RevenueRank(EstimateRevenue(content + more)) >= RevenueRank(EstimateRevenue(content))
  {
    LowerAppend(content, more);
    AnyStillOccurs(Lower(content), Lower(more), BillionIndicators);
    AnyStillOccurs(Lower(content), Lower(more), MillionIndicators);
    AnyStillOccurs(Lower(content), Lower(more), GrowthIndicators);
  }

  lemma LowerAppend(a: string, b: string)
    ensures Lower(a + b) == Lower(a) + Lower(b)
  {
  }

  /** A keyword of the list that occurs in `a` still occurs in `a + b`. */
  lemma AnyStillOccurs(a: string, b: string, keys: seq<string>)
    ensures ContainsAny(a, keys) ==> ContainsAny(a + b, keys)
  {
    ContainsAnyIff(a, keys);
    ContainsAnyIff(a + b, keys);
    if i :| 0 <= i < |keys| && Contains(a, keys[i]) {
      ContainsPrefix(a, b, keys[i]);
    }
  }

  // ---------------------------------------------------------------------
  // Records

  /** The record the enhanced enricher's extractors build; `socialMedia` is
      the dictionary that `social_media` holds as JSON text. */
  datatype EnhancedRecord = EnhancedRecord(
    domain: string,
    title: string,
    description: string,
    emails: seq<string>,
    phones: seq<string>,
    linkedin: string,
    socialMedia: map<string, string>,
    technologyStack: string,
    industry: string,
    location: string,
    employeeCount: string,
    revenueEstimate: string
  )

  /** A record, or the `{'domain': …, 'error': …}` record. */
  datatype EnhancedOutcome = EnhancedData(record: EnhancedRecord) | EnhancedError(domain: string, error: string)

  // ---------------------------------------------------------------------
  // Advanced score

  const TopTier: seq<string> := ["SaaS/Software", "Fintech", "AI/ML"]
  const MiddleTier: seq<string> := ["E-commerce", "Healthcare"]

  /** The industry part of the advanced score. */
  function IndustryTier(industry: string): (r: int)
    ensures r == 20 <==> industry in TopTier
    ensures r == 15 <==> industry in MiddleTier
    ensures r == 0 <==> industry == Other
    ensures r == 10 <==> industry !in TopTier && industry !in MiddleTier && industry != Other
  {
    if industry in TopTier then 20
    else if industry in MiddleTier then 15
    else if industry != Other then 10
    else 0
  }

  /** A record without an industry still earns the 10 points of an unlisted
      one: only "Other" earns nothing. */
  lemma EmptyIndustryEarnsTen()
    ensures IndustryTier([]) == 10
  {
    assert [] !in TopTier && [] !in MiddleTier;
  }

  /** The size part of the advanced score: the first of "Large", "Medium",
      "Small" that occurs in the estimate. */
  function SizeTier(size: string): int
  {
    if Contains(size, "Large") then 10
    else if Contains(size, "Medium") then 7
    else if Contains(size, "Small") then 5
    else 0
  }

  /** `len(technology_stack.split(','))`. */
  function TechCount(tech: string): nat
  {
    |SplitOn(tech, ',')|
  }

  /** Splitting on commas gives one more part than there are commas. */
  lemma {:induction false} TechCountIsCommasPlusOne(tech: string)
    ensures TechCount(tech) == multiset(tech)[','] + 1
  {
    if tech != [] {
      TechCountIsCommasPlusOne(tech[1..]);
      assert tech == [tech[0]] + tech[1..];
    }
  }

  function Capped(x: int, cap: int): int
  {
    if x <= cap then x else cap
  }

  /** The rule table of `calculate_advanced_score` before the clamp: the
      parts are capped at 25, 15, 15, 10, 20, 10 and 5, which add up to 100,
      so `min(score, 100)` never changes the total. */
  function AdvancedPoints(rec: EnhancedRecord): (r: int)
    ensures 0 <= r <= 100
  {
    EmailPart(rec) + PhonePart(rec) + SocialPart(rec) + TechPart(rec)
      + IndustryTier(rec.industry) + SizeTier(rec.employeeCount) + DescriptionPart(rec)
  }

  /** Eight points per e-mail, at most 25. */
  function EmailPart(rec: EnhancedRecord): int
  {
    if rec.emails != [] then Capped(|rec.emails| * 8, 25) else 0
  }

  /** Fifteen points for any phone. */
  function PhonePart(rec: EnhancedRecord): int
  {
    if rec.phones != [] then 15 else 0
  }

  /** Five points per social link, at most 15. */
  function SocialPart(rec: EnhancedRecord): int
  {
    Capped(|rec.socialMedia| * 5, 15)
  }

  /** Two points per listed technology, at most 10. */
  function TechPart(rec: EnhancedRecord): int
  {
    if rec.technologyStack != [] then Capped(TechCount(rec.technologyStack) * 2, 10) else 0
  }

  /** Five points for a description longer than 100 characters. */
  function DescriptionPart(rec: EnhancedRecord): int
  {
    if |rec.description| > 100 then 5 else 0
  }

  /** `AdvancedLeadScorer.calculate_advanced_score`, rule by rule. */
  method CalculateAdvancedScore(rec: EnhancedRecord) returns (score: int)
    ensures score == AdvancedPoints(rec)
  {
    score := 0;
    if rec.emails != [] {
      score := score + Capped(|rec.emails| * 8, 25);
    }
    assert score == EmailPart(rec);
    if rec.phones != [] {
      score := score + 15;
    }
    assert score == EmailPart(rec) + PhonePart(rec);
    score := score + Capped(|rec.socialMedia| * 5, 15);
    ghost var before := score;
    if rec.technologyStack != [] {
      var techCount := |SplitOn(rec.technologyStack, ',')|;
      score := score + Capped(techCount * 2, 10);
    }
    assert score == before + TechPart(rec);
    before := score;
    var industry := rec.industry;
    if industry in TopTier {
      score := score + 20;
    } else if industry in MiddleTier {
      score := score + 15;
    } else if industry != Other {
      score := score + 10;
    }
    assert score == before + IndustryTier(rec.industry);
    before := score;
    var size := rec.employeeCount;
    if Contains(size, "Large") {
      score := score + 10;
    } else if Contains(size, "Medium") {
      score := score + 7;
    } else if Contains(size, "Small") {
      score := score + 5;
    }
    assert score == before + SizeTier(rec.employeeCount);
    if |rec.description| > 100 {
      score := score + 5;
    }
    score := if score < 100 then score else 100;
  }

  /** The industry adds exactly its tier to the score, whatever else the
      record holds. */
  lemma IndustryAddsItsTier(rec: EnhancedRecord)
    ensures AdvancedPoints(rec) == AdvancedPoints(rec.(industry := Other)) + IndustryTier(rec.industry)
  {
    assert IndustryTier(Other) == 0;
  }

  /** A record with four e-mails, a phone, three social links, five
      technologies, a top-tier industry, a large company and a long
      description scores exactly 100. */
  lemma AdvancedFullMarks(rec: EnhancedRecord)
    requires |rec.emails| >= 4 && rec.phones != [] && |rec.socialMedia| >= 3
    requires rec.technologyStack != [] && TechCount(rec.technologyStack) >= 5
    requires rec.industry in TopTier && Contains(rec.employeeCount, "Large") && |rec.description| > 100
    ensures AdvancedPoints(rec) == 100
  {
  }

  // ---------------------------------------------------------------------
  // The two extraction paths, as intended

  /** What `_fallback_extraction` returns for `doc` once the helpers it calls
      exist: no location, size, revenue, social links or technologies. */
  predicate IsFallbackRecord(o: Oracles, domain: string, doc: Document, rec: EnhancedRecord)
  {
    && rec.domain == domain
    && rec.title == CleanTitle(TitleText(doc.titleString))
    && rec.description == MetaDescription(doc.metaContent)
    && DistinctPick(AcceptedEmails(doc.emailMatches, o.validEmail), 3, rec.emails)
    && DistinctPick(Flatten(doc.phoneMatches[..Consulted(doc.phoneMatches)]), 2, rec.phones)
    && rec.linkedin == DemoLinkedIn(doc.anchors)
    && rec.socialMedia == map[]
    && rec.technologyStack == []
    && rec.industry == Classify(DemoTable, doc.text)
    && rec.location == [] && rec.employeeCount == [] && rec.revenueEstimate == []
  }

  /** `_fallback_extraction` with demo.py's helpers: the error record when
      the fetch raises, otherwise the fallback record. */
  method FallbackExtraction(domain: string, fetch: FetchOutcome, o: Oracles) returns (r: EnhancedOutcome)
    ensures fetch.FetchRaised? ==> r == EnhancedError(domain, fetch.message)
    ensures fetch.Fetched? ==> r.EnhancedData? && IsFallbackRecord(o, domain, fetch.doc, r.record)
  {
    match fetch
    case FetchRaised(message) =>
      return EnhancedError(domain, message);
    case Fetched(doc) =>
      var emails := FilterEmails(doc.emailMatches, o.validEmail);
      var phones := ExtractPhones(doc.phoneMatches);
      r := EnhancedData(EnhancedRecord(
        domain,
        CleanTitle(TitleText(doc.titleString)),
        MetaDescription(doc.metaContent),
        emails,
        phones,
        DemoLinkedIn(doc.anchors),
        map[],
        [],
        Classify(DemoTable, doc.text),
        [], [], []));
  }

  /** A fallback record has no social links, technologies or size, so it
      scores at most 25 + 15 + 20 + 5 = 65. */
  lemma FallbackScoresAtMost65(o: Oracles, domain: string, doc: Document, rec: EnhancedRecord)
    requires IsFallbackRecord(o, domain, doc, rec)
    ensures AdvancedPoints(rec) <= 65
  {
    NoExtrasAtMost65(rec);
  }

  /** Without social links, technologies or a size estimate only the
      e-mails, phone, industry and description score. */
  lemma NoExtrasAtMost65(rec: EnhancedRecord)
    requires rec.socialMedia == map[] && rec.technologyStack == [] && rec.employeeCount == []
    ensures AdvancedPoints(rec) <= 65
  {
    NotContainsShort([], "Large");
    NotContainsShort([], "Medium");
    NotContainsShort([], "Small");
    assert SizeTier(rec.employeeCount) == 0;
    assert SocialPart(rec) == 0 && TechPart(rec) == 0;
  }

  /** The link the in-page script found for linkedin.com, or "". */
  function SocialLinkedIn(links: map<string, string>): string
  {
    if "linkedin.com" in links then links["linkedin.com"] else []
  }

  /** What `_extract_advanced_data` returns for a rendered page once the
      helpers it calls exist. */
  predicate IsAdvancedRecord(o: Oracles, domain: string, page: RenderedPage, rec: EnhancedRecord)
  {
    && rec.domain == domain
    && rec.title == CleanTitle(page.title)
    && rec.description == MetaDescription(page.doc.metaContent)
    && rec.emails == Take(AcceptedEmails(page.scriptEmails, o.validEmail), 3)
    && rec.phones == Take(page.scriptPhones, 2)
    && rec.linkedin == SocialLinkedIn(page.scriptSocialLinks)
    && rec.socialMedia == page.scriptSocialLinks
    && rec.technologyStack == JoinWith(page.scriptTechnologies, ", ")
    && rec.industry == Classify(EnhancedTable, page.doc.text)
    && rec.location == DemoLocation(page.doc.locationMatches)
    && rec.employeeCount == EstimateCompanySize(page.doc.text)
    && rec.revenueEstimate == EstimateRevenue(page.doc.text)
  }

  /** `extract_with_playwright` with the helpers in place: the advanced
      record of the rendered page, or the fallback when the session raises. */
  method ExtractEnhanced(domain: string, site: Site, o: Oracles) returns (r: EnhancedOutcome)
    ensures site.render.Rendered? ==> r.EnhancedData? && IsAdvancedRecord(o, domain, site.render.page, r.record)
    ensures site.render.RenderRaised? && site.fetch.FetchRaised? ==> r == EnhancedError(domain, site.fetch.message)
    ensures site.render.RenderRaised? && site.fetch.Fetched? ==>
      r.EnhancedData? && IsFallbackRecord(o, domain, site.fetch.doc, r.record)
  {
    match site.render
    case RenderRaised(_) =>
      r := FallbackExtraction(domain, site.fetch, o);
    case Rendered(page) =>
      var emails := EnhancedFilterEmails(page.scriptEmails, o.validEmail);
      var industry := ClassifyIndustryAdvanced(page.doc.text);
      r := EnhancedData(EnhancedRecord(
        domain,
        CleanTitle(page.title),
        MetaDescription(page.doc.metaContent),
        emails,
        Take(page.scriptPhones, 2),
        SocialLinkedIn(page.scriptSocialLinks),
        page.scriptSocialLinks,
        JoinWith(page.scriptTechnologies, ", "),
        industry,
        DemoLocation(page.doc.locationMatches),
        EstimateCompanySize(page.doc.text),
        EstimateRevenue(page.doc.text)));
  }

  // ---------------------------------------------------------------------
  // The two extraction paths, as written

  /** The message of the `AttributeError` the first missing helper raises. */
  const MissingCleanTitle: string := "'EnhancedLeadEnricher' object has no attribute '_clean_title'"

  /** `extract_with_playwright` as written: `_extract_advanced_data` raises
      at its first missing helper (or earlier, in the browser session), so
      the fallback always runs; the fallback raises at the same helper once
      the fetch succeeds, and its `except` turns either failure into the error
      record. */
  function ExtractAsWritten(domain: string, site: Site): (r: EnhancedOutcome)
    ensures r.EnhancedError? && r.domain == domain
  {
    match site.fetch
    case FetchRaised(message) => EnhancedError(domain, message)
    case Fetched(_) => EnhancedError(domain, MissingCleanTitle)
  }

  // ---------------------------------------------------------------------
  // process_domain_enhanced

  /** The `Lead` dataclass of enhanced_lead_generator.py; `socialMedia` is
      None for the dataclass default "" and otherwise the dictionary whose
      JSON text the field holds. */
  datatype EnhancedLead = EnhancedLead(
    companyName: string,
    domain: string,
    email: string,
    phone: string,
    linkedin: string,
    industry: string,
    employeeCount: string,
    revenueEstimate: string,
    location: string,
    description: string,
    confidenceScore: int,
    technologyStack: string,
    socialMedia: Option<map<string, string>>
  )

  /** The lead of the error branch: the domain as company name, score 0,
      every other field at its default. */
  function ErrorLead(domain: string): EnhancedLead
  {
    EnhancedLead(domain, domain, [], [], [], [], [], [], [], [], 0, [], None)
  }

  /** The lead built from a record and its score. */
  function LeadOfRecord(rec: EnhancedRecord, domain: string, score: int): EnhancedLead
  {
    EnhancedLead(rec.title, domain, FirstOr(rec.emails), FirstOr(rec.phones), rec.linkedin, rec.industry,
      rec.employeeCount, rec.revenueEstimate, rec.location, rec.description, score, rec.technologyStack,
      Some(rec.socialMedia))
  }

  /** `process_domain_enhanced` as written. */
  function ProcessDomainEnhancedAsWritten(domain: string, site: Site): EnhancedLead
  {
    match ExtractAsWritten(domain, site)
    case EnhancedError(_, _) => ErrorLead(domain)
    case EnhancedData(rec) => LeadOfRecord(rec, domain, AdvancedPoints(rec))
  }

  /** As written, every domain gives the zero lead, whatever the browser and
      the fetch return. */
  lemma AsWrittenAlwaysZeroLead(domain: string, site: Site)
    ensures ProcessDomainEnhancedAsWritten(domain, site) == ErrorLead(domain)
    ensures ProcessDomainEnhancedAsWritten(domain, site).confidenceScore == 0
    ensures ProcessDomainEnhancedAsWritten(domain, site).companyName == domain
  {
    var r := ExtractAsWritten(domain, site);
    assert r.EnhancedError?;
  }

  /** `process_domain_enhanced` with the helpers in place: the error record
      gives the zero lead; otherwise the record is scored and its title
      becomes the company name, empty or not. */
  method ProcessDomainEnhanced(domain: string, site: Site, o: Oracles) returns (lead: EnhancedLead)
    ensures site.render.RenderRaised? && site.fetch.FetchRaised? ==> lead == ErrorLead(domain)
    ensures !(site.render.RenderRaised? && site.fetch.FetchRaised?) ==>
      lead.domain == domain && lead.socialMedia.Some? && 0 <= lead.confidenceScore <= 100
    ensures site.render.Rendered? ==> lead.companyName == CleanTitle(site.render.page.title)
    ensures site.render.RenderRaised? && site.fetch.Fetched? ==>
      lead.companyName == CleanTitle(TitleText(site.fetch.doc.titleString)) && lead.confidenceScore <= 65
      && lead.location == [] && lead.employeeCount == [] && lead.revenueEstimate == []
      && lead.socialMedia == Some(map[])
  {
    var data := ExtractEnhanced(domain, site, o);
    if data.EnhancedError? {
      return ErrorLead(domain);
    }
    var confidence := CalculateAdvancedScore(data.record);
    if site.render.RenderRaised? {
      FallbackScoresAtMost65(o, domain, site.fetch.doc, data.record);
    }
    lead := LeadOfRecord(data.record, domain, confidence);
  }
}
