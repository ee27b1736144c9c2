/** The decision logic of `LeadGeneratorApp` in lead_generator.py: turning
    the user's input into domains, the per-domain loop that builds leads and
    counts extraction outcomes, and the lead filter of the sidebar. */
module LeadApp {
  import opened Seqs
  import opened Text
  import opened Page
  import opened LeadGenerator

  // ---------------------------------------------------------------------
  // Domain input

  /** `d.strip().replace('https://', '').replace('http://', '')`: an input
      that names no scheme comes back stripped and otherwise as it is. */
  function NormaliseDomain(d: string): (r: string)
    ensures !Contains(Strip(d), "https://") && !Contains(Strip(d), "http://") ==> r == Strip(d)
  {
    var s := Strip(d);
    var r := RemoveAll(RemoveAll(s, "https://"), "http://");
    assert !Contains(s, "https://") && !Contains(s, "http://") ==> r == s by {
      if !Contains(s, "https://") && !Contains(s, "http://") {
        RemoveAllAbsent(s, "https://");
        RemoveAllAbsent(s, "http://");
      }
    }
    r
  }

  /** A bare domain comes back unchanged. */
  lemma NormaliseKeepsBare(d: string)
    requires d == [] || (!IsSpace(d[0]) && !IsSpace(d[|d| - 1]))
    requires !Contains(d, "https://") && !Contains(d, "http://")
    ensures NormaliseDomain(d) == d
  {
    StripUnpadded(d);
  }

  /** A bare domain typed with an `https://` scheme comes back as the bare
      domain. */
  lemma NormaliseDropsScheme(d: string)
    requires d == [] || (!IsSpace(d[0]) && !IsSpace(d[|d| - 1]))
    requires !Contains(d, "https://") && !Contains(d, "http://")
    ensures NormaliseDomain("https://" + d) == d
  {
    DropLeading("https://", d, "http://");
  }

  /** Removing `p` then `q` from `p + d`, stripped, leaves `d` when neither
      occurs in `d`. */
  lemma DropLeading(p: string, d: string, q: string)
    requires p != [] && !IsSpace(p[0]) && !IsSpace(p[|p| - 1])
    requires d == [] || !IsSpace(d[|d| - 1])
    requires !Contains(d, p) && !Contains(d, q)
    ensures RemoveAll(RemoveAll(Strip(p + d), p), q) == d
  {
    StripUnpadded(p + d);
    RemoveAllLeading(p, d);
    RemoveAllAbsent(d, p);
    RemoveAllAbsent(d, q);
  }

  /** A string without white space at either end is its own strip. */
  lemma StripUnpadded(s: string)
    requires s == [] || (!IsSpace(s[0]) && !IsSpace(s[|s| - 1]))
    ensures Strip(s) == s
  {
  }

  /** The "Single Domain" input: one domain when the field is not empty. */
  function SingleDomain(input: string): (r: seq<string>)
    ensures input == [] <==> r == []
    ensures input != [] ==> r == [NormaliseDomain(input)]
  {
    if input == [] then [] else [NormaliseDomain(input)]
  }

  /** The "Bulk Domains" input (and a plain-text upload): one domain per line
      that is not blank, in order. */
  function BulkDomains(input: string): (r: seq<string>)
  {
    var lines := Filter(SplitOn(input, '\n'), NonBlank);
    seq(|lines|, i requires 0 <= i < |lines| => NormaliseDomain(lines[i]))
  }

  /** `line.strip()` is not empty. */
  predicate NonBlank(line: string)
  {
    Strip(line) != []
  }

  /** Blank lines are skipped, every other line gives one domain, and the
      domains keep the order of their lines. */
  lemma BulkDomainsFromLines(input: string)
    ensures var lines := SplitOn(input, '\n');
      var k := KeptIndices(lines, NonBlank);
      && |BulkDomains(input)| == |k|
      && (forall i :: 0 <= i < |k| ==> k[i] < |lines| && BulkDomains(input)[i] == NormaliseDomain(lines[k[i]]))
      && (forall i, j :: 0 <= i < j < |k| ==> k[i] < k[j])
      && (forall n :: 0 <= n < |lines| ==> (n in k <==> Strip(lines[n]) != []))
  {
    var lines := SplitOn(input, '\n');
    var kept := Filter(lines, NonBlank);
    var k := KeptIndices(lines, NonBlank);
    FilterKeepsOrder(lines, NonBlank);
    assert |BulkDomains(input)| == |kept|;
    forall i | 0 <= i < |k|
      ensures k[i] < |lines| && BulkDomains(input)[i] == NormaliseDomain(lines[k[i]])
    {
      assert kept[i] == lines[k[i]];
    }
  }

  /** At most fifty domains are processed. */
  const MaxDomains: nat := 50

  // ---------------------------------------------------------------------
  // Leads

  datatype Lead = Lead(
    companyName: string,
    domain: string,
    email: string,
    phone: string,
    linkedin: string,
    industry: string,
    employeeCount: string,
    revenueEstimate: string,
    location: string,
    description: string,
    confidenceScore: int,
    technologyStack: string
  )

  /** `title.split('|')[0].strip() or domain`. */
  function CompanyName(title: string, domain: string): (r: string)
    ensures r == domain <== Strip(SplitOn(title, '|')[0]) == []
    ensures r != [] <== domain != [] || Strip(SplitOn(title, '|')[0]) != []
    ensures Strip(SplitOn(title, '|')[0]) != [] ==> r == Strip(SplitOn(title, '|')[0])
    ensures '|' !in r || r == domain
  {
    var name := Strip(SplitOn(title, '|')[0]);
    if name == [] then domain else name
  }

  /** The lead built from a success record and its score: the first e-mail
      and the first phone, or "" when there is none; no size or revenue
      estimate. */
  function LeadOf(info: CompanyInfo, domain: string, score: int): (r: Lead)
    ensures r.domain == domain && r.confidenceScore == score
    ensures r.companyName == CompanyName(info.title, domain)
    ensures r.email == [] <==> info.emails == [] || info.emails[0] == []
    ensures info.emails != [] ==> r.email == info.emails[0]
    ensures info.phones != [] ==> r.phone == info.phones[0]
    ensures info.phones == [] ==> r.phone == []
    ensures r.employeeCount == [] && r.revenueEstimate == []
  {
    Lead(CompanyName(info.title, domain), domain, FirstOr(info.emails), FirstOr(info.phones),
      info.linkedin, info.industry, [], [], info.location, info.description, score, info.technologyStack)
  }

  /** The per-domain tallies of the discovery tab. */
  datatype Stats = Stats(playwright: nat, beautifulsoup: nat, errors: nat)

  /** The rendered path is taken, and succeeds, for this site. */
  predicate RenderedAt(usePlaywright: bool, playwrightAvailable: bool, site: Site)
  {
    usePlaywright && playwrightAvailable && site.render.Rendered?
  }

  /** Extraction of this site ends in the error record. */
  predicate FailsAt(usePlaywright: bool, playwrightAvailable: bool, site: Site)
  {
    !RenderedAt(usePlaywright, playwrightAvailable, site) && site.fetch.FetchRaised?
  }

  /** The domain of every lead, in order. */
  function LeadDomains(leads: seq<Lead>): (r: seq<string>)
    ensures |r| == |leads|
    ensures forall i :: 0 <= i < |leads| ==> r[i] == leads[i].domain
  {
    seq(|leads|, i requires 0 <= i < |leads| => leads[i].domain)
  }

  /** The discovery loop: cap the input at fifty domains, extract each one,
      count errors and skip them, count the method of every success, score
      it and turn it into a lead. `world` answers for every domain. */
  method GenerateLeads(enricher: LeadEnricher, domains: seq<string>, usePlaywright: bool, playwrightAvailable: bool,
                       world: string -> Site, o: Oracles)
    returns (processed: seq<string>, leads: seq<Lead>, stats: Stats)
    modifies enricher
    ensures processed == Take(domains, MaxDomains)
    ensures |leads| + stats.errors == |processed|
    ensures stats.playwright + stats.beautifulsoup == |leads|
    ensures LeadDomains(leads) == Filter(processed, (d: string) => !FailsAt(usePlaywright, playwrightAvailable, world(d)))
    ensures stats.errors == |Filter(processed, (d: string) => FailsAt(usePlaywright, playwrightAvailable, world(d)))|
    ensures stats.playwright == |Filter(processed, (d: string) => RenderedAt(usePlaywright, playwrightAvailable, world(d)))|
    ensures forall i :: 0 <= i < |leads| ==> 5 <= leads[i].confidenceScore <= 100
    ensures processed != [] ==> enricher.currentDomain == processed[|processed| - 1]
    ensures processed == [] ==> enricher.currentDomain == old(enricher.currentDomain)
  {
    processed := domains;
    if |processed| > MaxDomains {
      processed := processed[..MaxDomains];
    }
    leads := [];
    stats := Stats(0, 0, 0);
    ghost var remembered := enricher.currentDomain;
    var i := 0;
    while i < |processed|
      invariant i <= |processed|
      invariant DiscoveredSoFar(processed, i, usePlaywright, playwrightAvailable, world, leads, stats)
      invariant enricher.currentDomain == if i == 0 then remembered else processed[i - 1]
    {
      leads, stats := DiscoverNext(enricher, processed, i, usePlaywright, playwrightAvailable, world, o, leads, stats);
      i := i + 1;
    }
    assert processed[..i] == processed;
  }

  /** The tallies and leads of the discovery loop after the first `n`
      domains. */
  predicate DiscoveredSoFar(processed: seq<string>, n: nat, usePlaywright: bool, playwrightAvailable: bool,
                            world: string -> Site, leads: seq<Lead>, stats: Stats)
    requires n <= |processed|
  {
    && LeadDomains(leads) == Filter(processed[..n], (d: string) => !FailsAt(usePlaywright, playwrightAvailable, world(d)))
    && stats.errors == |Filter(processed[..n], (d: string) => FailsAt(usePlaywright, playwrightAvailable, world(d)))|
    && stats.playwright == |Filter(processed[..n], (d: string) => RenderedAt(usePlaywright, playwrightAvailable, world(d)))|
    && |leads| + stats.errors == n
    && stats.playwright + stats.beautifulsoup == |leads|
    && ScoresInRange(leads)
  }

  /** The discovery loop's pass over `processed[i]`, keeping the tallies and
      leads in step with the first `i + 1` domains. */
  method DiscoverNext(enricher: LeadEnricher, processed: seq<string>, i: nat, usePlaywright: bool,
                      playwrightAvailable: bool, world: string -> Site, o: Oracles, leads: seq<Lead>, stats: Stats)
    returns (leads': seq<Lead>, stats': Stats)
    modifies enricher
    requires i < |processed|
    requires DiscoveredSoFar(processed, i, usePlaywright, playwrightAvailable, world, leads, stats)
    ensures DiscoveredSoFar(processed, i + 1, usePlaywright, playwrightAvailable, world, leads', stats')
    ensures enricher.currentDomain == processed[i]
  {
    ghost var fails := (d: string) => FailsAt(usePlaywright, playwrightAvailable, world(d));
    ghost var succeeds := (d: string) => !FailsAt(usePlaywright, playwrightAvailable, world(d));
    ghost var rendered := (d: string) => RenderedAt(usePlaywright, playwrightAvailable, world(d));
    var domain := processed[i];
    leads', stats' := DiscoverDomain(enricher, domain, usePlaywright, playwrightAvailable, world(domain), o, leads, stats);
    assert LeadDomains(leads') == Filter(processed[..i + 1], succeeds) by {
      FilterStep(processed, i, succeeds);
      assert succeeds(domain) == !FailsAt(usePlaywright, playwrightAvailable, world(domain));
    }
    assert stats'.errors == |Filter(processed[..i + 1], fails)| by {
      FilterCountStep(processed, i, fails);
      assert fails(domain) == FailsAt(usePlaywright, playwrightAvailable, world(domain));
    }
    assert stats'.playwright == |Filter(processed[..i + 1], rendered)| by {
      FilterCountStep(processed, i, rendered);
      assert rendered(domain) == RenderedAt(usePlaywright, playwrightAvailable, world(domain));
    }
  }

  /** The loop body of the discovery tab for one domain: an error record is
      counted, a success is counted by its method and its lead appended. */
  method DiscoverDomain(enricher: LeadEnricher, domain: string, usePlaywright: bool, playwrightAvailable: bool,
                        site: Site, o: Oracles, leads: seq<Lead>, stats: Stats)
    returns (leads': seq<Lead>, stats': Stats)
    modifies enricher
    requires ScoresInRange(leads)
    ensures ScoresInRange(leads')
    ensures stats'.errors == stats.errors + if FailsAt(usePlaywright, playwrightAvailable, site) then 1 else 0
    ensures stats'.playwright == stats.playwright + if RenderedAt(usePlaywright, playwrightAvailable, site) then 1 else 0
    ensures |leads'| + stats'.errors == |leads| + stats.errors + 1
    ensures stats'.playwright + stats'.beautifulsoup - |leads'| == stats.playwright + stats.beautifulsoup - |leads|
    ensures leads'[..|leads|] == leads
    ensures LeadDomains(leads') ==
      LeadDomains(leads) + if !FailsAt(usePlaywright, playwrightAvailable, site) then [domain] else []
    ensures enricher.currentDomain == domain
  {
    var lead, viaPlaywright := ProcessDomain(enricher, domain, usePlaywright, playwrightAvailable, site, o);
    if lead.None? {
      return leads, stats.(errors := stats.errors + 1);
    }
    if viaPlaywright {
      stats' := stats.(playwright := stats.playwright + 1);
    } else {
      stats' := stats.(beautifulsoup := stats.beautifulsoup + 1);
    }
    LeadDomainsAppend(leads, lead.value);
    leads' := leads + [lead.value];
    ScoresInRangeAppend(leads, lead.value);
  }

  /** Every lead scores between 5 and 100. */
  predicate ScoresInRange(leads: seq<Lead>)
  {
    forall k :: 0 <= k < |leads| ==> 5 <= leads[k].confidenceScore <= 100
  }

  lemma ScoresInRangeAppend(leads: seq<Lead>, lead: Lead)
    requires ScoresInRange(leads) && 5 <= lead.confidenceScore <= 100
    ensures ScoresInRange(leads + [lead])
  {
  }

  /** One pass of the discovery loop: extract the domain; None is the error
      record, which the loop counts and skips; otherwise the record is scored
      and turned into a lead, and `viaPlaywright` tells which method made it. */
  method ProcessDomain(enricher: LeadEnricher, domain: string, usePlaywright: bool, playwrightAvailable: bool,
                       site: Site, o: Oracles)
    returns (lead: Option<Lead>, viaPlaywright: bool)
    modifies enricher
    ensures lead.None? <==> FailsAt(usePlaywright, playwrightAvailable, site)
    ensures lead.Some? ==> (viaPlaywright <==> RenderedAt(usePlaywright, playwrightAvailable, site))
    ensures lead.Some? ==> lead.value.domain == domain && 5 <= lead.value.confidenceScore <= 100
    ensures lead.Some? ==> IsLeadFor(lead.value, domain, usePlaywright, playwrightAvailable, site, o)
    ensures enricher.currentDomain == domain
  {
    var info := enricher.ExtractCompanyInfo(domain, usePlaywright, playwrightAvailable, site, o);
    if info.ErrorRecord? {
      return None, false;
    }
    viaPlaywright := info.info.extractionMethod == Playwright;
    var confidence := CalculateConfidenceScore(info.info, domain);
    lead := Some(LeadOf(info.info, domain, confidence));
  }

  /** `lead` is the scored lead of a record the enricher may return for
      `domain`: rendered when the rendered path was taken and succeeded,
      static otherwise. */
  ghost predicate IsLeadFor(lead: Lead, domain: string, usePlaywright: bool, playwrightAvailable: bool,
                            site: Site, o: Oracles)
  {
    exists info :: (lead == LeadOf(info, domain, ConfidencePoints(info, domain))
      && (RenderedAt(usePlaywright, playwrightAvailable, site) ==> IsRenderedRecord(o, domain, site.render.page, info))
      && (!RenderedAt(usePlaywright, playwrightAvailable, site) && site.fetch.Fetched? ==>
            IsStaticRecord(o, domain, site.fetch.doc, info)))
  }

  lemma LeadDomainsAppend(leads: seq<Lead>, lead: Lead)
    ensures LeadDomains(leads + [lead]) == LeadDomains(leads) + [lead.domain]
  {
  }

  // ---------------------------------------------------------------------
  // Lead filter

  /** The sidebar's filter settings. */
  datatype Criteria = Criteria(
    industries: seq<string>,
    threshold: int,
    requireEmail: bool,
    requirePhone: bool,
    requireLinkedIn: bool
  )

  /** A lead passes every filter of `_filter_leads`. */
  predicate Qualifies(c: Criteria, lead: Lead)
  {
    && lead.confidenceScore >= c.threshold
    && (c.industries == [] || lead.industry in c.industries)
    && (c.requireEmail ==> lead.email != [])
    && (c.requirePhone ==> lead.phone != [])
    && (c.requireLinkedIn ==> lead.linkedin != [])
  }

  /** `_filter_leads`: skip a lead at the first filter it fails. */
  method FilterLeads(leads: seq<Lead>, c: Criteria) returns (filtered: seq<Lead>)
    ensures filtered == Filter(leads, (l: Lead) => Qualifies(c, l))
  {
    filtered := [];
    var i := 0;
    while i < |leads|
      invariant i <= |leads|
      invariant filtered == Filter(leads[..i], (l: Lead) => Qualifies(c, l))
    {
      var lead := leads[i];
      assert leads[..i + 1][..i] == leads[..i] && leads[..i + 1][i] == lead;
      i := i + 1;
      if lead.confidenceScore < c.threshold {
        continue;
      }
      if c.industries != [] && lead.industry !in c.industries {
        continue;
      }
      if c.requireEmail && lead.email == [] {
        continue;
      }
      if c.requirePhone && lead.phone == [] {
        continue;
      }
      if c.requireLinkedIn && lead.linkedin == [] {
        continue;
      }
      filtered := filtered + [lead];
    }
    assert leads[..i] == leads;
  }

  /** The filtered leads are the qualifying leads in their original order:
      every kept lead passes all filters and every dropped lead fails at least
      one. */
  lemma FilterLeadsCharacterised(leads: seq<Lead>, c: Criteria)
    ensures var f, k := Filter(leads, (l: Lead) => Qualifies(c, l)), KeptIndices(leads, (l: Lead) => Qualifies(c, l));
      && |f| == |k|
      && (forall i :: 0 <= i < |k| ==> k[i] < |leads| && f[i] == leads[k[i]])
      && (forall i, j :: 0 <= i < j < |k| ==> k[i] < k[j])
      && (forall lead :: lead in f ==> Qualifies(c, lead))
      && (forall n :: 0 <= n < |leads| && n !in k ==>
            || leads[n].confidenceScore < c.threshold
            || (c.industries != [] && leads[n].industry !in c.industries)
            || (c.requireEmail && leads[n].email == [])
            || (c.requirePhone && leads[n].phone == [])
            || (c.requireLinkedIn && leads[n].linkedin == []))
  {
    var p := (l: Lead) => Qualifies(c, l);
    FilterKeepsOrder(leads, p);
    forall lead | lead in Filter(leads, p)
      ensures Qualifies(c, lead)
    {
      FilterMembership(leads, p, lead);
    }
  }
}
