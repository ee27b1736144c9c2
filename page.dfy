/** What the pipeline receives from the outside world. The network, the
    headless browser, the HTML parser, the regular-expression engine and the
    e-mail validator are not modelled; their results are the inputs below. */
module Page {

  datatype Option<T> = None | Some(value: T)

  /** The three LinkedIn patterns of `_extract_linkedin`, in the order they are
      tried: `linkedin.com/company/…`, `linkedin.com/in/…`,
      `www.linkedin.com/company/…`. */
  datatype LinkedInPattern = CompanyPath | PersonPath | WwwCompanyPath

  /** One fetched or rendered HTML document, together with what the parser and
      the regular expressions report about it. */
  datatype Document = Document(
    text: string,                        // response.text, or page.content() when rendered
    titleString: Option<string>,         // soup.title.string; None when there is no <title> text
    metaContent: Option<string>,         // content of <meta name="description">, if any
    anchors: seq<string>,                // href of every <a href=…>, in document order
    visibleText: string,                 // soup.get_text()
    emailMatches: seq<string>,           // re.findall(email pattern, text)
    phoneMatches: seq<seq<string>>,      // re.findall(p, text) for each phone pattern p, in order
    locationMatches: seq<seq<string>>    // re.findall(p, text, IGNORECASE) for each location pattern p
  )

  /** What the in-page scripts of the rendered path return, with the rendered
      HTML. */
  datatype RenderedPage = RenderedPage(
    title: string,                       // page.title()
    scriptEmails: seq<string>,           // the e-mail list computed in the page
    scriptPhones: seq<string>,           // the phone list computed in the page
    scriptTechnologies: seq<string>,     // the library labels found in <script src>
    scriptSocialLinks: map<string, string>, // social site -> last link to it (enhanced_lead_generator.py only)
    doc: Document                        // page.content() and its parse
  )

  /** The static path: a GET and a parse that either give a document or raise. */
  datatype FetchOutcome = Fetched(doc: Document) | FetchRaised(message: string)

  /** The rendered path: a browser session that either gives a page or raises
      (launch failure, navigation timeout, script error, missing backend). */
  datatype RenderOutcome = Rendered(page: RenderedPage) | RenderRaised(message: string)

  /** Everything the outside world would answer for one domain. */
  datatype Site = Site(render: RenderOutcome, fetch: FetchOutcome)

  /** The foreign functions whose answers the model takes as given:
      `validate_email` (false where it raises EmailNotValidError) and
      `re.search` of a LinkedIn pattern, which reports the part of the match
      after the pattern's literal prefix. */
  datatype Oracles = Oracles(
    validEmail: string -> bool,
    searchLinkedIn: (LinkedInPattern, string) -> Option<string>
  )

  /** The `extraction_method` tag of a record. */
  datatype Method = Playwright | BeautifulSoup
}
