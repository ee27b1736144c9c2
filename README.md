# Lead pipeline decision logic

This project models the decision logic of a small B2B lead-generation tool. For each company domain, the tool:

- fetches the home page, either as a rendered browser page or as a static HTML page;
- pulls out the title, the description, contact e-mails and phones, a LinkedIn page and a location;
- classifies the company's industry by keyword counts;
- scores the lead's confidence.

The same logic exists in three drifting copies:

- `lead_generator.py`: the web application's enricher and its per-domain discovery loop and lead filter;
- `demo.py`: the command-line demo, with its batch run and top-leads ranking;
- `enhanced_lead_generator.py`: the enhanced enricher, with size and revenue estimates and an advanced score.

The modules follow that structure:

- `Seqs`, `Text`: Python list and string operations with Python's semantics.
  - `str.count` counts non-overlapping occurrences.
  - `in` is substring search.
  - `strip`, `split`, `replace` and `', '.join` are modelled.
  - Slicing saturates.
- `Page`: what the browser, the HTTP client, the HTML parser, the regular expressions and the e-mail validator hand back. These are inputs of the model.
- `Extract`: the extractors that `lead_generator.py` and `demo.py` share word for word.
- `Industry`: the weighted keyword classifier shared by all three copies. Every industry scores `weight * (factor * primary hits + secondary hits)`. The winner is the first industry, in table order, with the highest positive score, which is what `max(scores, key=scores.get)` returns. Otherwise the answer is "Other".
- `LeadGenerator`, `LeadApp`: `lead_generator.py`.
- `Demo`: `demo.py`.
- `Enhanced`: `enhanced_lead_generator.py`.

Classes and loops appear where the source has them:

- The enricher, which remembers its current domain, is a class.
- The score accumulators, the e-mail and phone loops, the classifier's dictionary-filling loops, the batch loops and the lead filter are methods with loops.
- Each such method is proved equal to, or to satisfy, a specification function. The properties are then proved about that function.

## Model

| member | source | states |
|---|---|---|
| Seqs.Take | lead_generator.py:646 | a Python slice `s[:n]`: the prefix of `s` of length `n`, or all of `s` when it is shorter |
| Seqs.FilterMembership | lead_generator.py:724-740 | an element survives a filter exactly when it is in the input and passes the test |
| Seqs.FilterKeepsOrder | lead_generator.py:724-740 | a filter's result is the input at strictly increasing positions, exactly those whose element passes the test |
| Seqs.FilterAppend | lead_generator.py:724-740 | filtering a concatenation is concatenating the filtered parts |
| Seqs.FilterCountStep | demo.py:364-382 | one more input element raises the count of kept elements by one exactly when it passes the test |
| Seqs.FlattenMembership | lead_generator.py:373-377 | an element of the accumulated match list is a match of one of the patterns |
| Seqs.FirstWhere | lead_generator.py:388-394 | gives the position of the first element passing the test, or the length when none does |
| Text.LowerCharacterised | lead_generator.py:438 | after lower-casing no upper-case letter is left and every other character is where it was; a text is unchanged exactly when it holds no upper-case letter |
| Text.LStrip | lead_generator.py:612-615 | `lstrip()` removes exactly the leading whitespace: what remains is a suffix starting with a non-space |
| Text.RStrip | lead_generator.py:612-615 | `rstrip()` removes exactly the trailing whitespace: what remains is a prefix ending with a non-space |
| Text.SplitOn | lead_generator.py:623-624 | `split(c)` gives at least one part, no part contains `c`, and the input starts with the first part |
| Text.JoinSplit | lead_generator.py:623-624 | joining the parts of `split(c)` with `c` gives back the input |
| Text.CountPositiveIffContains | lead_generator.py:489-490 | `text.count(k)` is positive exactly when `k` occurs in the text; the empty key occurs everywhere and counts `len(text) + 1` |
| Text.HitsZeroIffNoneOccurs | lead_generator.py:488-496 | a keyword list's total count is zero exactly when none of its keywords occurs |
| Text.ContainsAnyIff | lead_generator.py:355-362 | "some keyword of the list occurs" means an index whose keyword is a substring |
| Text.ContainsAnyAppend | enhanced_lead_generator.py:279-285 | some keyword of `a + b` occurs exactly when some keyword of `a` or of `b` occurs |
| Text.NotContainsShort | demo.py:189-192 | a keyword longer than the text does not occur in it |
| Text.ContainsPrefix | enhanced_lead_generator.py:275-286 | a substring of `a` is a substring of `a + b` |
| Text.ContainsSuffix | enhanced_lead_generator.py:275-286 | a substring of `b` is a substring of `a + b` |
| Text.PrefixContained | lead_generator.py:384-387 | a text contains each of its prefixes |
| Text.ContainsKeyTail | enhanced_lead_generator.py:233 | if `a + b` occurs in a text, so does `b` |
| Text.RemoveAllLeading | lead_generator.py:614 | `replace(p, '')` on `p + d` is `replace(p, '')` on `d` |
| Text.RemoveAllAbsent | lead_generator.py:614 | `replace(p, '')` leaves a text without `p` unchanged |
| Extract.PickDistinct | lead_generator.py:334 | `list(set(xs))[:n]` gives at most `n` distinct elements of `xs`, and all of them when fewer than `n` are taken |
| Extract.FilterEmails | lead_generator.py:353-364 | `_filter_emails` walks `set(emails)` and returns a distinct pick of at most three of the accepted addresses, all of them when there are fewer |
| Extract.FilteredEmailsAccepted | lead_generator.py:353-364 | every kept address is an input the validator accepts and contains, in any case, none of "example", "test", "sample", "noreply", "support" |
| Extract.ConsultedFrom | lead_generator.py:373-377 | resuming after the first `k` patterns, the scan stops at the first pattern after which two or more matches are gathered, or at the last pattern |
| Extract.Consulted | lead_generator.py:373-377 | at least one pattern is consulted when there is one; every pattern before the last consulted left fewer than two matches; the scan stops early only once two or more are gathered |
| Extract.ExtractPhones | lead_generator.py:366-379 | `_extract_phones` returns at most two distinct matches, drawn only from the patterns up to the early stop |
| Extract.PhonesFromConsultedPatterns | demo.py:173-187 | every returned phone is a match of a consulted pattern, and at most two are returned |
| Extract.CleanTitle | lead_generator.py:336-340 | `_clean_title` gives "" for "", and otherwise at most 100 characters with no vertical bar or hyphen and no leading space |
| Extract.CleanTitleKeepsCleanTitle | demo.py:139-144 | a title that is already clean is returned unchanged |
| Extract.SplitWithoutSeparator | lead_generator.py:338 | splitting a text that lacks the separator gives the text itself |
| Extract.StripKeepsOut | lead_generator.py:338 | stripping cannot introduce a character |
| Extract.MetaDescription | lead_generator.py:342-346 | the description is "" without a meta tag; otherwise it is the whole content when that has at most 200 characters, and its first 200 characters when it is longer |
| Industry.FirstMax | lead_generator.py:501-503 | `max(scores, key=scores.get)` returns the highest score, and no earlier entry reaches it |
| Industry.FirstMaxUnique | lead_generator.py:501-503 | the first maximum is unique |
| Industry.Winner | lead_generator.py:498-505 | there is no winner exactly when every score is zero; otherwise the winner is the positive first maximum |
| Industry.RuleScorePositiveIff | lead_generator.py:485-499 | an industry scores above zero exactly when one of its keywords occurs |
| Industry.ClassifyCharacterised | lead_generator.py:443-505 | the keyword classifier says "Other" exactly when no keyword of any industry occurs; otherwise it names the first industry with the highest positive score |
| Industry.LowerIdempotent | lead_generator.py:443 | lower-casing twice is lower-casing once |
| Industry.ClassifyIgnoresCase | lead_generator.py:443 | the classification does not depend on the text's case |
| Industry.ClassifyByKeywords | lead_generator.py:443-505 | the loop that fills the positive-score dictionary and takes its first maximum computes the classifier's answer |
| Industry.PositiveScores | lead_generator.py:483-499 | the dictionary-filling loop keeps, in table order, exactly the industries with a positive score, each with its score |
| Industry.FirstMaxEntry | lead_generator.py:501-502 | the scan over the dictionary returns the first entry holding the largest score |
| Industry.AccumulateCounts | lead_generator.py:488-496 | the keyword loop adds `points` for every occurrence of every keyword: `points` times the keyword list's total count |
| Industry.RuleScoreByLoops | lead_generator.py:486-496 | the primary loop at `5 * weight` per occurrence plus the secondary loop at `weight` per occurrence computes the industry's score |
| LeadGenerator.ConfidencePoints | lead_generator.py:82-126 | the confidence score is a multiple of 5 between 5 and 100, so the clamp never binds; it is at least 40 with e-mails and at most 65 without |
| LeadGenerator.CalculateConfidenceScore | lead_generator.py:82-126 | the rule-by-rule accumulation with its `min(…, 100)` clamp computes that score |
| LeadGenerator.LeadFullMarks | lead_generator.py:82-126 | the score is 100 exactly when a high-value domain's record has e-mails, phones, a description over 50 characters, a non-blank technology stack and a non-blank LinkedIn page |
| LeadGenerator.EmailsWorth35 | lead_generator.py:86-89 | having e-mails is worth exactly 35 points more than having none, all else equal |
| LeadGenerator.HighValueFloor | lead_generator.py:104-124 | a high-value domain always scores at least 20 |
| LeadGenerator.OverrideFor | lead_generator.py:419-441 | the override is None exactly when no key is a substring of the lower-cased domain; otherwise it is the label of the first key that is |
| LeadGenerator.FirstOverride | lead_generator.py:438-441 | the loop over the override dictionary returns that first matching label |
| LeadGenerator.OverrideFirstMatch | lead_generator.py:438-441 | the first key occurring in the domain decides the label |
| LeadGenerator.StripeIsFintech | lead_generator.py:419-441 | "stripe.com" is "Fintech" whatever the page text |
| LeadGenerator.ClassifyIndustry | lead_generator.py:418-505 | `_classify_industry` checks the overrides first and then the keyword scores, as LeadIndustry defines |
| LeadGenerator.LeadIndustryWithoutOverride | lead_generator.py:443-505 | without an override, the answer is "Other" exactly when no keyword of the table occurs; otherwise it is the first industry with the highest positive score |
| LeadGenerator.EmailsFallback | lead_generator.py:309-334 | the fallback guesser returns a distinct pick of at most three of its candidates: the common addresses found in the page, then the non-denylisted regex matches |
| LeadGenerator.FallbackSources | lead_generator.py:309-334 | every guessed address is a common address of the domain that occurs in the lower-cased page, or a found address free of the fallback's deny words |
| LeadGenerator.PatternPrefix | lead_generator.py:384-387 | every LinkedIn pattern's literal part mentions "linkedin.com/" |
| LeadGenerator.FirstPatternMatch | lead_generator.py:396-399 | the page text is searched with each pattern in order, and the first one that matches gives the result |
| LeadGenerator.FirstMatchingAnchor | lead_generator.py:388-394 | the anchors are searched in document order, and the first anchor that matches a pattern gives the result |
| LeadGenerator.MappedCompanyPage | lead_generator.py:401-414 | the fixed map answers exactly for the eight high-value domains, with a company page URL |
| LeadGenerator.LinkedIn | lead_generator.py:381-416 | `_extract_linkedin` returns "" or an `https://` URL mentioning "linkedin.com/" |
| LeadGenerator.LinkedInPriority | lead_generator.py:381-416 | an anchor match beats a text match, which beats the fixed map; the result is "" exactly when all three fail |
| LeadGenerator.LeadLocation | lead_generator.py:507-521 | the location is "" or the first match of some pattern, and never "offices" in any case |
| LeadGenerator.LeadLocationFirst | lead_generator.py:515-519 | the first pattern whose first match is not "offices" gives the location |
| LeadGenerator.LeadEnricher.ExtractCompanyInfo | lead_generator.py:151-161 | the domain is remembered; the rendered record comes back exactly when rendering is asked for, available and succeeds; otherwise the static outcome comes back; the error record appears exactly when both paths fail |
| LeadGenerator.LeadEnricher.ExtractWithPlaywright | lead_generator.py:163-285 | a rendered page yields its record: in-page e-mails as they are, or the fallback guess when there are none; the first two in-page phones at most; the joined technology names; a raising render yields nothing |
| LeadGenerator.LeadEnricher.ExtractWithRequests | lead_generator.py:287-307 | a fetched page yields its static record; a failed fetch yields exactly the `{domain, error}` record |
| LeadApp.NormaliseDomain | lead_generator.py:614 | an input whose stripped form names no `https://` or `http://` scheme comes back stripped and otherwise unchanged |
| LeadApp.SingleDomain | lead_generator.py:612-615 | single-domain input gives no domain for "" and exactly the one normalised input otherwise |
| LeadApp.NormaliseKeepsBare | lead_generator.py:614 | a bare, unpadded domain is unchanged by normalisation |
| LeadApp.NormaliseDropsScheme | lead_generator.py:614 | normalising `https://` plus a bare domain gives the domain |
| LeadApp.DropLeading | lead_generator.py:614 | stripping and removing a leading scheme gives back the rest |
| LeadApp.BulkDomainsFromLines | lead_generator.py:617-625 | bulk input gives, in order, the normalised form of exactly the lines that are not blank |
| LeadApp.CompanyName | lead_generator.py:674 | the company name is the stripped text before the first vertical bar of the title, or the domain when that is blank; it holds no vertical bar unless it is the domain |
| LeadApp.LeadOf | lead_generator.py:673-684 | the lead carries the domain, the score and the company name; its e-mail and phone are the record's first ones, or "" when there are none; size and revenue are left empty |
| LeadApp.GenerateLeads | lead_generator.py:644-691 | processes at most the first fifty domains; the leads are exactly the domains whose extraction succeeds, in order; the errors are the ones that fail; the rendered count is the domains rendered; every score is between 5 and 100; the enricher is left remembering the last domain processed, or as it was when there is none |
| LeadApp.DiscoverNext | lead_generator.py:654-686 | the loop's pass over the next domain keeps the leads and the three tallies equal to those of the domains processed so far, and leaves the enricher remembering that domain |
| LeadApp.DiscoverDomain | lead_generator.py:658-686 | one loop step counts an error exactly when extraction fails and a rendered lead exactly when rendering succeeds; otherwise it appends the domain's lead and keeps the earlier leads; every score stays between 5 and 100; the enricher remembers the domain |
| LeadApp.ProcessDomain | lead_generator.py:658-684 | there is no lead exactly when extraction fails; the method flag is the rendered path; the lead is built from the extracted record and its confidence score; the enricher remembers the domain |
| LeadApp.LeadDomainsAppend | lead_generator.py:686 | appending a lead appends its domain |
| LeadApp.FilterLeads | lead_generator.py:722-742 | `_filter_leads` keeps exactly the leads passing every filter, in order |
| LeadApp.FilterLeadsCharacterised | lead_generator.py:722-742 | the kept leads are an order-preserving subsequence; every kept lead passes the threshold, industry, e-mail, phone and LinkedIn filters; every dropped lead fails one of them |
| Demo.DemoConfidencePoints | demo.py:232-260 | the demo score is a multiple of 5 between 0 and 100, and at most 70 without e-mails |
| Demo.DemoCalculateConfidence | demo.py:232-260 | the rule-by-rule accumulation with `min(…, 30)` for e-mails and `min(…, 100)` computes that score |
| Demo.DemoFullMarks | demo.py:232-260 | the parts 30+20+15+15+10+10 sum to exactly 100 |
| Demo.DemoHighConfidenceWithoutEmail | demo.py:232-260 | scoring 70 without e-mails requires every other rewarded field |
| Demo.DemoEmailPointsGrow | demo.py:236-238 | each e-mail adds 10 points up to three |
| Demo.DemoClassifyCharacterised | demo.py:194-215 | the demo classifier's scores are plain keyword counts; "Other" exactly when none occurs; otherwise the first industry with the highest count |
| Demo.DemoTablePlain | demo.py:194-215 | every demo industry has weight 1 and no secondary keywords |
| Demo.FirstContaining | demo.py:189-192 | gives the first anchor whose link contains the key |
| Demo.DemoLinkedIn | demo.py:189-192 | the LinkedIn link is "" exactly when no anchor links to "linkedin.com/company"; otherwise it is the first such link |
| Demo.DemoLocation | demo.py:217-230 | the location is "" when no pattern matches; otherwise it is the first match of the first matching pattern |
| Demo.DemoLocationAgrees | demo.py:217-230 | the demo's location search agrees with the application's when no match is "offices" |
| Demo.DemoExtractWithRequests | demo.py:116-137 | a fetched page yields the static record; a failed fetch yields the error record |
| Demo.DemoExtractWithPlaywright | demo.py:41-114 | a rendered page yields the rendered record; a raising render yields the static outcome |
| Demo.DemoExtractCompanyInfo | demo.py:32-39 | rendering is used exactly when asked for and available, and the static outcome otherwise |
| Demo.DemoOutcomeTags | demo.py:112-137 | the error record appears exactly when both paths fail; the result is tagged rendered exactly when rendering was used |
| Demo.BatchProcessing | demo.py:351-382 | results plus errors equal the inputs; standard plus enhanced equal the results; the results are exactly the domains that succeed, in order; each carries its demo score |
| Demo.ProcessBatchDomain | demo.py:364-379 | rendering is asked for exactly for the four listed domains; there is no result exactly when extraction fails; a result is the rendered record of the page when rendering succeeded and the static record of the fetched page otherwise, with its demo score |
| Demo.BatchStep | demo.py:364-382 | one loop step counts an error exactly when extraction fails and an enhanced result exactly when rendering succeeds; otherwise it keeps the scored result for its domain |
| Demo.HighConfidenceCharacterised | demo.py:388 | the high-confidence leads are exactly the results scoring at least 70; those without e-mails have every other field |
| Demo.InsertSorted | demo.py:408 | insertion into a score-descending list keeps it sorted |
| Demo.InsertPermutes | demo.py:408 | insertion adds exactly the inserted element |
| Demo.SortedCons | demo.py:408 | a head scoring at least every entry of a sorted list keeps it sorted |
| Demo.InsertStable | demo.py:408 | insertion puts the element after the others with its score |
| Demo.SortByScoreCorrect | demo.py:408 | `sorted(…, reverse=True)` by score gives a score-descending permutation that keeps the input order among equal scores |
| Demo.TopLeadsCharacterised | demo.py:408 | the top leads are the first three of that order (fewer if fewer); they come from the results; they are sorted; any result scoring higher than a top lead is a top lead |
| Demo.HigherScoreComesFirst | demo.py:408 | in a score-descending list, a strictly higher score sits earlier |
| Enhanced.EnhancedFilterEmails | enhanced_lead_generator.py:195-207 | the enhanced filter keeps the first three accepted candidates in input order |
| Enhanced.EnhancedFilterKeepsRepeats | enhanced_lead_generator.py:195-207 | it does not de-duplicate: an accepted address given twice is kept twice |
| Enhanced.EnhancedFilterIsAPick | enhanced_lead_generator.py:195-207 | on distinct candidates, it makes one of the picks the set-walking filter may make |
| Enhanced.EnhancedClassifyCharacterised | enhanced_lead_generator.py:209-252 | "Other" exactly when no keyword occurs; otherwise the first industry with the highest `(3 * primary + secondary) * weight` |
| Enhanced.MarkupNeverOther | enhanced_lead_generator.py:233 | any page whose text mentions "html" contains the AI/ML keyword "ml", so it is classified, never "Other" |
| Enhanced.ClassifyIndustryAdvanced | enhanced_lead_generator.py:209-252 | the accumulating loop computes that classification |
| Enhanced.SizeFromCounts | enhanced_lead_generator.py:266-273 | "Unknown" exactly when all counts are zero; "Large" exactly when large beats both others; large = medium > small gives "Medium"; medium = small > 0 with large not above gives "Small" |
| Enhanced.EstimateCompanySize | enhanced_lead_generator.py:254-273 | the size estimate is one of the four labels |
| Enhanced.SizeUnknownIff | enhanced_lead_generator.py:254-273 | the size is "Unknown" exactly when no indicator of any size occurs |
| Enhanced.EstimateRevenue | enhanced_lead_generator.py:275-286 | the revenue band is one of the four labels |
| Enhanced.RevenueCharacterised | enhanced_lead_generator.py:275-286 | any billion indicator gives "$1B+" whatever else occurs; "Unknown" exactly when none of the nine indicators occurs |
| Enhanced.RevenueGrowsWithText | enhanced_lead_generator.py:275-286 | appending text never lowers the revenue band |
| Enhanced.AnyStillOccurs | enhanced_lead_generator.py:279-285 | an indicator found in a text is still found after appending |
| Enhanced.IndustryTier | enhanced_lead_generator.py:315-321 | 20 for SaaS/Software, Fintech and AI/ML; 15 for E-commerce and Healthcare; 0 for "Other"; 10 for any other label |
| Enhanced.EmptyIndustryEarnsTen | enhanced_lead_generator.py:315-321 | an empty industry label earns 10 |
| Enhanced.TechCountIsCommasPlusOne | enhanced_lead_generator.py:309-311 | the technology count is the number of commas plus one |
| Enhanced.AdvancedPoints | enhanced_lead_generator.py:292-336 | the advanced score is between 0 and 100 |
| Enhanced.CalculateAdvancedScore | enhanced_lead_generator.py:292-336 | the step-by-step accumulation computes that score |
| Enhanced.IndustryAddsItsTier | enhanced_lead_generator.py:315-321 | the industry contributes exactly its tier |
| Enhanced.AdvancedFullMarks | enhanced_lead_generator.py:292-336 | the caps 25/15/15/10/20/10/5 sum to exactly 100 |
| Enhanced.FallbackExtraction | enhanced_lead_generator.py:170-193 | a failed fetch gives exactly the error record; a fetched page gives the fallback record |
| Enhanced.FallbackScoresAtMost65 | enhanced_lead_generator.py:170-193 | a fallback record scores at most 65 |
| Enhanced.NoExtrasAtMost65 | enhanced_lead_generator.py:292-336 | without social links, technologies or a size estimate the advanced score is at most 65 |
| Enhanced.ExtractEnhanced | enhanced_lead_generator.py:48-77 | a rendered page gives the advanced record; a raising render falls back to the fallback record or the error record |
| Enhanced.ExtractAsWritten | enhanced_lead_generator.py:154 | as written, every extraction path ends in the error record for the domain |
| Enhanced.AsWrittenAlwaysZeroLead | enhanced_lead_generator.py:341-376 | as written, `process_domain_enhanced` always returns the error lead: the domain as company name and score 0 |
| Enhanced.ProcessDomainEnhanced | enhanced_lead_generator.py:341-376 | an error record gives the error lead; otherwise the lead has the domain, a score between 0 and 100 and a social-media entry; a fallback lead scores at most 65 and has empty location, size and revenue and no social links |

## Left out

- Browser, HTTP, HTML parsing, regular expressions and `validate_email` are not modelled. Their results are inputs: a fetch or render outcome, the matches of each pattern, the anchors, the title and meta tags, and a validity predicate. The in-page JavaScript bodies are not modelled.
- LinkedIn matches are modelled as a pattern's literal prefix plus the matched tail. Therefore every match starts with "linkedin.com", and the `startswith('http')` branch at lead_generator.py:394 is never taken.
- Python `set` iteration order is left open. The e-mail and phone picks are stated as "some distinct pick", not as particular elements.
- Classifier weights are scaled to integers: ×2 in lead_generator.py, ×10 in enhanced_lead_generator.py. This keeps every comparison. The rounding of the enhanced products is not modelled, so ties between differently weighted industries there may break otherwise in floating point.
- Scores are integers, since every component is an integer. Percentages, averages, timings and prints are left out.
- Lower-casing is ASCII only. Whitespace is the set of characters `str.isspace` accepts.
- `world` answers for a domain by its name, so a domain listed twice sees the same fetch and render outcome both times, where the source fetches it afresh.
- The Streamlit interface, saved leads, exports, CSV upload via pandas, the installer, the event-loop setup, the `LeadScorer` stub and test_app.py are left out.
- demo.py's `demo_single_domain`, `demo_comparison` and `main` only print, and are left out.
- The `except` branches around the extraction calls in the batch loops (lead_generator.py:688-691, demo.py:380-382) are left out. Nothing in the modelled calls raises, because every failure is already an error record.
- URL construction is left out: the static fetch of `https://domain` is part of the fetch outcome.
- `social_media` is kept as a map. Its JSON text is not modelled.
- LeadApp.GenerateLeads: states the counts, the lead domains in order and the score bounds over the whole list. The content of each lead is stated per domain by LeadApp.ProcessDomain and is not restated over the list.
- Demo.BatchProcessing: states each result's score and the order of the domains. The record of each domain is stated per domain by Demo.ProcessBatchDomain and is not restated over the list.
- Enhanced.ProcessDomainEnhanced: states the company name, the score bounds and the fallback's empty fields. The advanced lead's other fields are stated through Enhanced.ExtractEnhanced.
- The helper methods that `EnhancedLeadEnricher` calls but does not define are replaced, in the corrected model, by their counterparts in demo.py (see Findings).
- The domain-list file upload (lead_generator.py:626-640) is left out. Its `.txt` case splits and normalises lines like LeadApp.BulkDomains; its `.csv` case needs pandas.

## Findings

| source | as written | input that shows it | evidently intended | confidence | as-written member | corrected member |
|---|---|---|---|---|---|---|
| enhanced_lead_generator.py:154 | `EnhancedLeadEnricher` calls `_clean_title`, `_extract_meta_description`, `_extract_location_advanced`, `_extract_emails_basic`, `_extract_phones_basic`, `_extract_linkedin_basic` and `_classify_industry_basic`, which it never defines. Both the rendered extraction and the fallback raise, their handlers return the error record, and `process_domain_enhanced` always returns the zero-score lead | any domain, for example "stripe.com" with a page that renders | demo.py's counterparts (`_clean_title`, `_extract_meta_description`, `_extract_location`, `_extract_emails_basic`, `_extract_phones_basic`, `_extract_linkedin`, `_classify_industry`), giving a real advanced or fallback record | not executed | Enhanced.AsWrittenAlwaysZeroLead | Enhanced.ProcessDomainEnhanced |
