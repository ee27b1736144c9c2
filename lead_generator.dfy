/** The enrichment logic of lead_generator.py: the confidence score, the
    industry classifier with its domain overrides, the LinkedIn and location
    searches, the fallback e-mail guesser, and `LeadEnricher`, which chooses
    between the rendered and the static extraction of a domain. */
module LeadGenerator {
  import opened Seqs
  import opened Text
  import opened Page
  import opened Extract
  import opened Industry

  /** The record `extract_company_info` returns when extraction succeeds. */
  datatype CompanyInfo = CompanyInfo(
    domain: string,
    title: string,
    description: string,
    emails: seq<string>,
    phones: seq<string>,
    linkedin: string,
    industry: string,
    location: string,
    technologyStack: string,
    extractionMethod: Method
  )

  /** A success record, or the `{'domain': …, 'error': …}` record. */
  datatype Extraction = Extracted(info: CompanyInfo) | ErrorRecord(domain: string, error: string)

  // ---------------------------------------------------------------------
  // Confidence score

  /** The eight domains `calculate_confidence_score` rewards by exact name. */
  const HighValueDomains: seq<string> :=
    ["stripe.com", "zoom.us", "notion.so", "github.com", "shopify.com", "salesforce.com", "hubspot.com", "slack.com"]

  function EmailPoints(info: CompanyInfo): int
  {
    if info.emails != [] then 40 else 5
  }

  function PhonePoints(info: CompanyInfo): int
  {
    if info.phones != [] then 15 else 0
  }

  function DescriptionPoints(info: CompanyInfo): int
  {
    if |info.description| > 50 then 15 else 0
  }

  function TechnologyPoints(info: CompanyInfo): int
  {
    if info.technologyStack != [] && Strip(info.technologyStack) != [] then 10 else 0
  }

  function IndustryPoints(info: CompanyInfo, domain: string): int
  {
    if domain in HighValueDomains then 10
    else if info.industry != [] && info.industry != Other then 5
    else 0
  }

  function LinkedInPoints(info: CompanyInfo, domain: string): int
  {
    if info.linkedin != [] && Strip(info.linkedin) != [] then 10
    else if domain in HighValueDomains then 5
    else 0
  }

  /** The rule table of `calculate_confidence_score` before the clamp: every
      total is a multiple of five between 5 and 100, so `min(score, 100)` never
      changes it. */
  function ConfidencePoints(info: CompanyInfo, domain: string): (r: int)
    ensures 5 <= r <= 100
    ensures r % 5 == 0
    ensures info.emails != [] ==> r >= 40
    ensures info.emails == [] ==> r <= 65
  {
    var e, p, d, t := EmailPoints(info), PhonePoints(info), DescriptionPoints(info), TechnologyPoints(info);
    var n, l := IndustryPoints(info, domain), LinkedInPoints(info, domain);
    PointsInFives(e, p, d, t, n, l);
    e + p + d + t + n + l
  }

  lemma PointsInFives(e: int, p: int, d: int, t: int, n: int, l: int)
    requires (e == 5 || e == 40) && (p == 0 || p == 15) && (d == 0 || d == 15)
    requires (t == 0 || t == 10) && (n == 0 || n == 5 || n == 10) && (l == 0 || l == 5 || l == 10)
    ensures (e + p + d + t + n + l) % 5 == 0
  {
    var u := (e + p + d + t) / 5;
    assert e + p + d + t == 5 * u;
    assert n + l == 5 * ((n + l) / 5);
  }

  /** `calculate_confidence_score`, accumulating the score rule by rule and
      clamping at 100. */
  method CalculateConfidenceScore(info: CompanyInfo, domain: string) returns (score: int)
    ensures score == ConfidencePoints(info, domain)
  {
    var highValue := domain in HighValueDomains;
    score := 0;
    if info.emails != [] {
      score := score + 40;
    } else {
      score := score + 5;
    }
    assert score == EmailPoints(info);
    if info.phones != [] {
      score := score + 15;
    }
    assert score == EmailPoints(info) + PhonePoints(info);
    if |info.description| > 50 {
      score := score + 15;
    }
    assert score == EmailPoints(info) + PhonePoints(info) + DescriptionPoints(info);
    if info.technologyStack != [] && Strip(info.technologyStack) != [] {
      score := score + 10;
    }
    ghost var before := score;
    assert before == EmailPoints(info) + PhonePoints(info) + DescriptionPoints(info) + TechnologyPoints(info);
    if highValue {
      score := score + 10;
    } else if info.industry != [] && info.industry != Other {
      score := score + 5;
    }
    assert score == before + IndustryPoints(info, domain);
    if info.linkedin != [] && Strip(info.linkedin) != [] {
      score := score + 10;
    } else if highValue {
      score := score + 5;
    }
    assert score == before + IndustryPoints(info, domain) + LinkedInPoints(info, domain);
    score := if score < 100 then score else 100;
  }

  /** Having e-mails is worth exactly 35 points more than having none,
      whatever else the record holds. */
  lemma EmailsWorth35(info: CompanyInfo, domain: string)
    requires info.emails != []
    ensures ConfidencePoints(info, domain) == ConfidencePoints(info.(emails := []), domain) + 35
  {
    var none := info.(emails := []);
    assert EmailPoints(info) == 40 && EmailPoints(none) == 5;
    assert PhonePoints(none) == PhonePoints(info) && DescriptionPoints(none) == DescriptionPoints(info);
    assert TechnologyPoints(none) == TechnologyPoints(info);
    assert IndustryPoints(none, domain) == IndustryPoints(info, domain);
    assert LinkedInPoints(none, domain) == LinkedInPoints(info, domain);
  }

  /** The largest contributions add up to exactly 100, reached only by a
      high-value domain whose record has every field the rules reward. */
  lemma LeadFullMarks(info: CompanyInfo, domain: string)
    ensures ConfidencePoints(info, domain) == 100 <==>
      && info.emails != [] && info.phones != [] && |info.description| > 50
      && info.technologyStack != [] && Strip(info.technologyStack) != []
      && domain in HighValueDomains
      && info.linkedin != [] && Strip(info.linkedin) != []
  {
  }

  /** A high-value domain always gets its 10 industry points and at least 5
      LinkedIn points, whatever the page said. */
  lemma HighValueFloor(info: CompanyInfo, domain: string)
    requires domain in HighValueDomains
    ensures ConfidencePoints(info, domain) >= 20
  {
  }

  // ---------------------------------------------------------------------
  // Industry

  /** The domain-substring overrides of `_classify_industry`, in table order. */
  const DomainOverrides: seq<(string, string)> := [
    ("stripe.com", "Fintech"), ("stripe", "Fintech"),
    ("zoom.us", "Communication"), ("zoom", "Communication"),
    ("notion.so", "Productivity"), ("notion", "Productivity"),
    ("github.com", "Developer Tools"), ("github", "Developer Tools"),
    ("shopify.com", "E-commerce"), ("shopify", "E-commerce"),
    ("salesforce.com", "CRM/Software"), ("salesforce", "CRM/Software"),
    ("hubspot.com", "Marketing"), ("hubspot", "Marketing"),
    ("slack.com", "Communication"), ("slack", "Communication")
  ]

  /** The keyword table of `_classify_industry`, weights doubled
      (3.0, 2.5, 2.0, 1.5 become 6, 5, 4, 3) and primary keywords counted five
      times. */
  const LeadTable: Table := Table([
    Rule("Fintech",
      ["stripe", "payment", "fintech", "banking", "finance", "credit card", "transaction", "billing", "checkout"],
      ["money", "pay", "invoice", "merchant", "processing"], 6),
    Rule("Communication",
      ["zoom", "video", "meeting", "conference", "communication", "chat", "messaging"],
      ["call", "webinar", "collaboration", "remote", "voice"], 6),
    Rule("Productivity",
      ["notion", "productivity", "workspace", "notes", "organize", "document"],
      ["task", "project", "collaboration", "wiki"], 5),
    Rule("Developer Tools",
      ["github", "developer", "code", "programming", "repository", "git"],
      ["api", "development", "coding", "software development"], 5),
    Rule("E-commerce",
      ["shopify", "ecommerce", "e-commerce", "online store", "retail", "marketplace"],
      ["shop", "store", "cart", "checkout", "product", "buy", "sell"], 4),
    Rule("SaaS/Software",
      ["saas", "software", "platform", "cloud", "application"],
      ["subscription", "dashboard", "integration", "automation"], 3),
    Rule("Marketing",
      ["hubspot", "marketing", "advertising", "campaign", "lead generation"],
      ["seo", "social media", "analytics", "crm"], 3)
  ], 5)

  /** The value of the first override whose key occurs in `d`. */
  function OverrideFor(d: string, overrides: seq<(string, string)>): (r: Option<string>)
    ensures r.None? <==> forall i :: 0 <= i < |overrides| ==> !Contains(d, overrides[i].0)
    ensures r.Some? ==> exists i :: (0 <= i < |overrides| && Contains(d, overrides[i].0)
      && r.value == overrides[i].1 && forall j :: 0 <= j < i ==> !Contains(d, overrides[j].0))
  {
    if overrides == [] then None
    else if Contains(d, overrides[0].0) then Some(overrides[0].1)
    else
      var r := OverrideFor(d, overrides[1..]);
      assert forall i :: 1 <= i < |overrides| ==> overrides[1..][i - 1] == overrides[i];
      r
  }

  /** The label `_classify_industry` gives a page of `domain` with text `text`. */
  function LeadIndustry(text: string, domain: string): string
  {
    match OverrideFor(Lower(domain), DomainOverrides)
    case Some(v) => v
    case None => Classify(LeadTable, text)
  }

  /** `_classify_industry`: the overrides in order, then the keyword scores. */
  method ClassifyIndustry(text: string, domain: string) returns (industry: string)
    ensures industry == LeadIndustry(text, domain)
  {
    var overridden := FirstOverride(Lower(domain), DomainOverrides);
    if overridden.Some? {
      return overridden.value;
    }
    industry := ClassifyByKeywords(LeadTable, text);
  }

  /** The override loop of `_classify_industry`: the first key, in table
      order, that occurs in the lower-cased domain. */
  method FirstOverride(d: string, overrides: seq<(string, string)>) returns (r: Option<string>)
    ensures r == OverrideFor(d, overrides)
  {
    var i := 0;
    while i < |overrides|
      invariant i <= |overrides|
      invariant forall j :: 0 <= j < i ==> !Contains(d, overrides[j].0)
    {
      var (key, value) := overrides[i];
      if Contains(d, key) {
        OverrideFirstMatch(d, overrides, i);
        return Some(value);
      }
      i := i + 1;
    }
    return None;
  }

  /** When key `i` is the first that occurs, its value is the override. */
  lemma OverrideFirstMatch(d: string, overrides: seq<(string, string)>, i: nat)
    requires i < |overrides| && Contains(d, overrides[i].0)
    requires forall j :: 0 <= j < i ==> !Contains(d, overrides[j].0)
    ensures OverrideFor(d, overrides) == Some(overrides[i].1)
  {
    var r := OverrideFor(d, overrides);
    var k :| 0 <= k < |overrides| && Contains(d, overrides[k].0)
      && r.value == overrides[k].1 && forall j :: 0 <= j < k ==> !Contains(d, overrides[j].0);
    assert k == i;
  }

  /** A domain named in the override table is classified by its name alone:
      stripe.com is Fintech whatever its page says. */
  lemma StripeIsFintech(text: string)
    ensures LeadIndustry(text, "stripe.com") == "Fintech"
  {
    assert Lower("stripe.com") == "stripe.com";
    assert StartsWith("stripe.com", "stripe.com");
    OverrideFirstMatch("stripe.com", DomainOverrides, 0);
  }

  /** The keyword table is well formed, so without an override the label is
      "Other" exactly when no keyword occurs in the lower-cased text, and
      otherwise the first industry with the highest weighted count. */
  lemma LeadIndustryWithoutOverride(text: string, domain: string)
    requires OverrideFor(Lower(domain), DomainOverrides).None?
    ensures LeadIndustry(text, domain) == Other <==>
      forall i :: 0 <= i < |LeadTable.rules| ==>
        !ContainsAny(Lower(text), LeadTable.rules[i].primary) && !ContainsAny(Lower(text), LeadTable.rules[i].secondary)
    ensures LeadIndustry(text, domain) != Other ==>
      exists i: nat :: IsFirstMax(Scores(LeadTable, Lower(text)), i) && Scores(LeadTable, Lower(text))[i] > 0
        && LeadIndustry(text, domain) == LeadTable.rules[i].name
  {
    assert WellFormed(LeadTable);
    ClassifyCharacterised(LeadTable, text);
  }


  // ---------------------------------------------------------------------
  // E-mail fallback

  /** The substrings that disqualify a regex match in `_extract_emails_fallback`. */
  const FallbackDenyList: seq<string> := ["example", "test", "sample", ".png", ".jpg"]

  /** The six guessed addresses of `_extract_emails_fallback`, in order. */
  function CommonAddresses(domain: string): seq<string>
  {
    ["support@" + domain, "contact@" + domain, "hello@" + domain,
     "info@" + domain, "sales@" + domain, "help@" + domain]
  }

  /** The list `_extract_emails_fallback` builds before `list(set(…))[:3]`:
      the guessed addresses found in the lower-cased page, then the regex
      matches free of the deny list. */
  function FallbackCandidates(domain: string, content: string, found: seq<string>): seq<string>
  {
    Filter(CommonAddresses(domain), (a: string) => Contains(Lower(content), a))
      + Filter(found, (e: string) => !ContainsAny(Lower(e), FallbackDenyList))
  }

  /** `_extract_emails_fallback`: `found` is the regex's `findall` on the page. */
  method EmailsFallback(domain: string, content: string, found: seq<string>) returns (r: seq<string>)
    ensures DistinctPick(FallbackCandidates(domain, content, found), 3, r)
  {
    var common := CommonAddresses(domain);
    var contentLower := Lower(content);
    ghost var occurs := (a: string) => Contains(Lower(content), a);
    ghost var allowed := (e: string) => !ContainsAny(Lower(e), FallbackDenyList);
    var emails: seq<string> := [];
    var i := 0;
    while i < |common|
      invariant i <= |common|
      invariant emails == Filter(common[..i], occurs)
    {
      FilterStep(common, i, occurs);
      if Contains(contentLower, common[i]) {
        emails := emails + [common[i]];
      }
      i := i + 1;
    }
    assert common[..i] == common;
    var guessed := emails;
    var j := 0;
    while j < |found|
      invariant j <= |found|
      invariant emails == guessed + Filter(found[..j], allowed)
    {
      FilterStep(found, j, allowed);
      if !ContainsAny(Lower(found[j]), FallbackDenyList) {
        emails := emails + [found[j]];
      }
      j := j + 1;
    }
    assert found[..j] == found;
    r := PickDistinct(emails, 3);
  }

  /** Every fallback address is a guessed address that occurs in the
      lower-cased page or a regex match free of the deny list, and at most
      three come back. */
  lemma FallbackSources(domain: string, content: string, found: seq<string>, r: seq<string>)
    requires DistinctPick(FallbackCandidates(domain, content, found), 3, r)
    ensures |r| <= 3
    ensures forall e :: e in r ==>
      (e in CommonAddresses(domain) && Contains(Lower(content), e))
      || (e in found && !ContainsAny(Lower(e), FallbackDenyList))
  {
    forall e | e in r
      ensures (e in CommonAddresses(domain) && Contains(Lower(content), e))
        || (e in found && !ContainsAny(Lower(e), FallbackDenyList))
    {
      FilterMembership(CommonAddresses(domain), (a: string) => Contains(Lower(content), a), e);
      FilterMembership(found, (x: string) => !ContainsAny(Lower(x), FallbackDenyList), e);
    }
  }

  // ---------------------------------------------------------------------
  // LinkedIn

  /** The patterns of `_extract_linkedin`, in the order they are tried. */
  const LinkedInPatterns: seq<LinkedInPattern> := [CompanyPath, PersonPath, WwwCompanyPath]

  /** The host and first path segment every pattern starts from. */
  const LinkedInHost: string := "linkedin.com/"

  /** The literal start of each pattern's match. */
  function PatternPrefix(p: LinkedInPattern): (r: string)
    ensures Contains(r, LinkedInHost)
  {
    match p
    case CompanyPath =>
      PrefixContained(LinkedInHost, "company/"); LinkedInHost + "company/"
    case PersonPath =>
      PrefixContained(LinkedInHost, "in/"); LinkedInHost + "in/"
    case WwwCompanyPath =>
      PrefixContained(LinkedInHost, "company/");
      ContainsSuffix("www.", LinkedInHost + "company/", LinkedInHost);
      "www." + (LinkedInHost + "company/")
  }

  /** Pattern `i` is the first of `pats` that matches `s`. */
  predicate FirstMatchAt(o: Oracles, s: string, pats: seq<LinkedInPattern>, i: int)
  {
    && 0 <= i < |pats|
    && o.searchLinkedIn(pats[i], s).Some?
    && forall j :: 0 <= j < i ==> o.searchLinkedIn(pats[j], s).None?
  }

  /** The whole match (`match.group(0)`) of the first pattern that matches `s`. */
  function FirstPatternMatch(o: Oracles, s: string, pats: seq<LinkedInPattern>): (r: Option<string>)
    ensures r.None? <==> forall i :: 0 <= i < |pats| ==> o.searchLinkedIn(pats[i], s).None?
    ensures r.Some? ==> exists i :: (FirstMatchAt(o, s, pats, i)
      && r.value == PatternPrefix(pats[i]) + o.searchLinkedIn(pats[i], s).value)
  {
    if pats == [] then None
    else match o.searchLinkedIn(pats[0], s)
      case Some(tail) =>
        assert FirstMatchAt(o, s, pats, 0);
        Some(PatternPrefix(pats[0]) + tail)
      case None =>
        var r := FirstPatternMatch(o, s, pats[1..]);
        assert forall i :: 1 <= i < |pats| ==> pats[1..][i - 1] == pats[i];
        if r.Some? then
          var i :| FirstMatchAt(o, s, pats[1..], i)
            && r.value == PatternPrefix(pats[1..][i]) + o.searchLinkedIn(pats[1..][i], s).value;
          assert FirstMatchAt(o, s, pats, i + 1);
          r
        else r
  }

  /** The position of the first anchor `href` that any pattern matches, or
      the number of anchors when none does. */
  function FirstMatchingAnchor(o: Oracles, anchors: seq<string>, pats: seq<LinkedInPattern>): (i: nat)
    ensures i <= |anchors|
    ensures i < |anchors| ==> FirstPatternMatch(o, anchors[i], pats).Some?
    ensures forall j :: 0 <= j < i ==> FirstPatternMatch(o, anchors[j], pats).None?
  {
    FirstWhere(anchors, (a: string) => FirstPatternMatch(o, a, pats).Some?)
  }

  /** The match of the first anchor `href` that any pattern matches. */
  function AnchorMatch(o: Oracles, anchors: seq<string>, pats: seq<LinkedInPattern>): Option<string>
  {
    var i := FirstMatchingAnchor(o, anchors, pats);
    if i < |anchors| then FirstPatternMatch(o, anchors[i], pats) else None
  }

  /** The fixed company pages of `_extract_linkedin`, by exact domain. */
  function MappedCompanyPage(domain: string): (r: Option<string>)
    ensures r.Some? <==> domain in HighValueDomains
    ensures r.Some? ==> exists name :: r.value == "https://" + (PatternPrefix(CompanyPath) + name)
  {
    var name :=
      if domain == "stripe.com" then "stripe"
      else if domain == "zoom.us" then "zoom"
      else if domain == "notion.so" then "notion"
      else if domain == "github.com" then "github"
      else if domain == "shopify.com" then "shopify"
      else if domain == "salesforce.com" then "salesforce"
      else if domain == "hubspot.com" then "hubspot"
      else if domain == "slack.com" then "slack"
      else [];
    if name == [] then None else Some("https://" + (PatternPrefix(CompanyPath) + name))
  }

  /** `_extract_linkedin`: the anchors first, then the visible text, then the
      fixed table; the result is empty or an https URL of a LinkedIn page. */
  function LinkedIn(o: Oracles, doc: Document, domain: string): (r: string)
    ensures r == [] || (StartsWith(r, "https://") && Contains(r, LinkedInHost))
  {
    match AnchorMatch(o, doc.anchors, LinkedInPatterns)
    case Some(m) => HttpsContains(m); "https://" + m
    case None =>
      match FirstPatternMatch(o, doc.visibleText, LinkedInPatterns)
      case Some(m) => HttpsContains(m); "https://" + m
      case None =>
        match MappedCompanyPage(domain)
        case Some(u) =>
          var name :| u == "https://" + (PatternPrefix(CompanyPath) + name);
          HttpsContains(PatternPrefix(CompanyPath) + name);
          u
        case None => []
  }

  /** `https://` in front of a match keeps its `linkedin.com/`. */
  lemma HttpsContains(m: string)
    requires exists p: LinkedInPattern, t: string :: m == PatternPrefix(p) + t
    ensures StartsWith("https://" + m, "https://") && Contains("https://" + m, LinkedInHost)
  {
    var p: LinkedInPattern, t: string :| m == PatternPrefix(p) + t;
    var prefix := PatternPrefix(p);
    ContainsPrefix(prefix, t, LinkedInHost);
    ContainsSuffix("https://", m, LinkedInHost);
  }

  /** Where a lead's LinkedIn page comes from, highest priority first: a
      matching anchor decides alone, whatever the text and the domain; with
      no matching anchor the text decides, whatever the domain; the fixed
      table is consulted only when neither matched. */
  lemma LinkedInPriority(o: Oracles, doc: Document, doc': Document, domain: string, domain': string)
    requires doc.anchors == doc'.anchors
    ensures AnchorMatch(o, doc.anchors, LinkedInPatterns).Some? ==> LinkedIn(o, doc, domain) == LinkedIn(o, doc', domain')
    ensures AnchorMatch(o, doc.anchors, LinkedInPatterns).None? && doc.visibleText == doc'.visibleText
      && FirstPatternMatch(o, doc.visibleText, LinkedInPatterns).Some?
      ==> LinkedIn(o, doc, domain) == LinkedIn(o, doc', domain')
    ensures LinkedIn(o, doc, domain) == [] <==>
      AnchorMatch(o, doc.anchors, LinkedInPatterns).None? && FirstPatternMatch(o, doc.visibleText, LinkedInPatterns).None?
      && MappedCompanyPage(domain).None?
  {
  }

  // ---------------------------------------------------------------------
  // Location

  /** `_extract_location` of lead_generator.py: the first match of the first
      pattern that matched, unless that match is "offices" in any case, in
      which case the next pattern is tried. */
  function LeadLocation(matches: seq<seq<string>>): (r: string)
    ensures Lower(r) != "offices"
    ensures r == [] || exists i :: 0 <= i < |matches| && matches[i] != [] && r == matches[i][0]
  {
    if matches == [] then []
    else if matches[0] != [] && Lower(matches[0][0]) != "offices" then matches[0][0]
    else
      var r := LeadLocation(matches[1..]);
      assert forall i :: 1 <= i < |matches| ==> matches[1..][i - 1] == matches[i];
      r
  }

  /** A pattern is skipped only when it found nothing or found "offices":
      the location comes from the first pattern that found anything else. */
  lemma {:induction false} LeadLocationFirst(matches: seq<seq<string>>, i: nat)
    requires i < |matches| && matches[i] != [] && Lower(matches[i][0]) != "offices"
    requires forall j :: 0 <= j < i ==> matches[j] == [] || Lower(matches[j][0]) == "offices"
    ensures LeadLocation(matches) == matches[i][0]
  {
    if i > 0 {
      assert forall j :: 0 <= j < i - 1 ==> matches[1..][j] == matches[j + 1];
      LeadLocationFirst(matches[1..], i - 1);
    }
  }

  // ---------------------------------------------------------------------
  // The two extraction paths

  /** What a successful `_extract_with_requests` record holds for `doc`; the
      e-mail and phone lists are the ones the set-walking filters may give. */
  predicate IsStaticRecord(o: Oracles, domain: string, doc: Document, info: CompanyInfo)
  {
    && info.domain == domain
    && info.title == CleanTitle(TitleText(doc.titleString))
    && info.description == MetaDescription(doc.metaContent)
    && DistinctPick(AcceptedEmails(doc.emailMatches, o.validEmail), 3, info.emails)
    && DistinctPick(Flatten(doc.phoneMatches[..Consulted(doc.phoneMatches)]), 2, info.phones)
    && info.linkedin == LinkedIn(o, doc, domain)
    && info.industry == LeadIndustry(doc.text, domain)
    && info.location == LeadLocation(doc.locationMatches)
    && info.technologyStack == []
    && info.extractionMethod == BeautifulSoup
  }

  /** What the rendered record holds for `page`: the in-page e-mail list as
      is, or the fallback guess when that list is empty; at most two in-page
      phones; the in-page library names joined with ", ". */
  predicate IsRenderedRecord(o: Oracles, domain: string, page: RenderedPage, info: CompanyInfo)
  {
    && info.domain == domain
    && info.title == CleanTitle(page.title)
    && info.description == MetaDescription(page.doc.metaContent)
    && (page.scriptEmails != [] ==> info.emails == page.scriptEmails)
    && (page.scriptEmails == [] ==>
          DistinctPick(FallbackCandidates(domain, page.doc.text, page.doc.emailMatches), 3, info.emails))
    && info.phones == Take(page.scriptPhones, 2)
    && info.linkedin == LinkedIn(o, page.doc, domain)
    && info.industry == LeadIndustry(page.doc.text, domain)
    && info.location == LeadLocation(page.doc.locationMatches)
    && info.technologyStack == JoinWith(page.scriptTechnologies, ", ")
    && info.extractionMethod == Playwright
  }

  /** The enricher; `extract_company_info` remembers the domain it works on. */
  class LeadEnricher {
    var currentDomain: string

    constructor()
      ensures currentDomain == []
    {
      currentDomain := [];
    }

    /** `extract_company_info`: the rendered path only when it is asked for
        and the browser backend is installed, and the static path when the
        rendered one raises or is not used. */
    method ExtractCompanyInfo(domain: string, usePlaywright: bool, playwrightAvailable: bool, site: Site, o: Oracles)
      returns (r: Extraction)
      modifies this
      ensures currentDomain == domain
      ensures r.ErrorRecord? <==> !(usePlaywright && playwrightAvailable && site.render.Rendered?) && site.fetch.FetchRaised?
      ensures r.Extracted? && r.info.extractionMethod == Playwright <==>
        usePlaywright && playwrightAvailable && site.render.Rendered?
      ensures usePlaywright && playwrightAvailable && site.render.Rendered? ==>
        IsRenderedRecord(o, domain, site.render.page, r.info)
      ensures !(usePlaywright && playwrightAvailable && site.render.Rendered?) ==>
        StaticOutcome(o, domain, site.fetch, r)
    {
      currentDomain := domain;
      if usePlaywright && playwrightAvailable {
        var rendered := ExtractWithPlaywright(domain, site.render, o);
        if rendered.Some? {
          return Extracted(rendered.value);
        }
        r := ExtractWithRequests(domain, site.fetch, o);
      } else {
        r := ExtractWithRequests(domain, site.fetch, o);
      }
    }

    /** `_extract_with_playwright`; None stands for the exception it raises
        when the browser session fails. */
    method ExtractWithPlaywright(domain: string, render: RenderOutcome, o: Oracles) returns (r: Option<CompanyInfo>)
      ensures r.None? <==> render.RenderRaised?
      ensures r.Some? ==> IsRenderedRecord(o, domain, render.page, r.value)
    {
      match render
      case RenderRaised(_) =>
        return None;
      case Rendered(page) =>
        var emails := page.scriptEmails;
        if emails == [] {
          emails := EmailsFallback(domain, page.doc.text, page.doc.emailMatches);
        }
        var industry := ClassifyIndustry(page.doc.text, domain);
        var info := CompanyInfo(
          domain,
          CleanTitle(page.title),
          MetaDescription(page.doc.metaContent),
          emails,
          Take(page.scriptPhones, 2),
          LinkedIn(o, page.doc, domain),
          industry,
          LeadLocation(page.doc.locationMatches),
          JoinWith(page.scriptTechnologies, ", "),
          Playwright);
        assert IsRenderedRecord(o, domain, page, info);
        r := Some(info);
    }

    /** `_extract_with_requests`: never raises; a failed GET or parse gives
        exactly the `{domain, error}` record. */
    method ExtractWithRequests(domain: string, fetch: FetchOutcome, o: Oracles) returns (r: Extraction)
      ensures StaticOutcome(o, domain, fetch, r)
    {
      match fetch
      case FetchRaised(message) =>
        return ErrorRecord(domain, message);
      case Fetched(doc) =>
        var emails := FilterEmails(doc.emailMatches, o.validEmail);
        var phones := ExtractPhones(doc.phoneMatches);
        var industry := ClassifyIndustry(doc.text, domain);
        r := Extracted(CompanyInfo(
          domain,
          CleanTitle(TitleText(doc.titleString)),
          MetaDescription(doc.metaContent),
          emails,
          phones,
          LinkedIn(o, doc, domain),
          industry,
          LeadLocation(doc.locationMatches),
          [],
          BeautifulSoup));
    }
  }

  /** The outcome of the static path: the error record when the fetch
      raised, otherwise a static record of the document. */
  predicate StaticOutcome(o: Oracles, domain: string, fetch: FetchOutcome, r: Extraction)
  {
    && (fetch.FetchRaised? ==> r == ErrorRecord(domain, fetch.message))
    && (fetch.Fetched? ==> r.Extracted? && IsStaticRecord(o, domain, fetch.doc, r.info))
  }
}
