# ai-content-generator: a verified model of its content services

This project is a Dafny model of the text-processing and orchestration core of
the ai-content-generator service. It covers six source files:

- **Website scanner** (`src/services/websiteService.js`): a bounded,
  depth-first crawl from a base URL. It records one page per fetched URL,
  follows only links that start with the base URL, skips pages that fail
  and stops at `maxPages` visited URLs. `WebsiteService` is a class whose
  `visitedUrls` field is updated in place, as in the source.
- **Competitive content brief** (`src/services/competitiveAnalysis.js`):
  - search results are cut down to title, link and snippet;
  - the first five result pages are measured;
  - the measurements are folded into `averages`.
- **SERP analysis** (`src/services/serpAnalysisService.js`):
  - the choice between a user's own API key and the default key;
  - the reformatting of SerpApi and ScrapingBee results.
- **AI service** (`src/services/aiService.js`), the parts that are
  computation:
  - the keyword-density table;
  - the hashtag filter and the external-link filter;
  - the enhancement-type dispatch;
  - the provider dispatch of `initializeModel`.
- **Templates** (`src/services/templateService.js`):
  - the table of eight content templates;
  - section expansion with its defaults;
  - per-section recommendations;
  - the schema.org object.
- **Content utilities** (`src/utils/contentUtils.js`): the HTML and markdown
  of tables, FAQs and listicles, including their exact template-literal
  indentation.

Everything the program gets from outside is a parameter:

- HTTP fetching and HTML parsing: a `map` from URL to parsed document, or a
  function from URL to an optional parsed page.
- URL resolution: a function.
- Language-model calls: a function from request to optional reply.
- Environment variables: `Option` fields of a config value.

Each `try`/`catch` that rethrows a fixed message is a `Result` with that
message.

Files:

- `wrappers.dfy`: `Option` and `Result`.
- `text.dfy`: the JavaScript string built-ins the services use. These are
  `split(/\s+/)` with its empty leading and trailing pieces, `trim`,
  `split('\n')`/`join`, `includes`, `startsWith`, `slice`, `length` in
  UTF-16 code units and `toLowerCase`, with their laws.
- One file per source file: `website_service.dfy`, `competitive_analysis.dfy`,
  `serp_analysis_service.dfy`, `ai_service.dfy`, `template_service.dfy`,
  `content_utils.dfy`.

Where the code and its documentation disagree, the model follows the code:

- **Brief averages are totals.** `calculateAverages` adds the figures up and
  never divides, so the brief's `averages` are totals
  (`CalculateAveragesIsTotal`).
- **One failed page loses the whole brief.** If a single competitor page
  fails, `generateContentBrief` reports its one error and returns no brief,
  not even a partial one.
- **The page's title wins.** A competitor's `title` is the page's own
  `<title>`, because the spread of the page data comes after `title:
  result.title`.
- **Later definitions win.** The second definitions of `getRecommendations`
  and `generateSchema` in `templateService.js` (lines 161 and 184) are the
  ones modelled, since they override the empty first ones.

## Model

| member | source | states |
|---|---|---|
| Website.InternalLinks | src/services/websiteService.js:42-56 | every collected link starts with the base URL; at most one link per anchor |
| Website.InternalLinksAppend | src/services/websiteService.js:43-56 | links are collected anchor by anchor in document order: the links of `a + b` are those of `a` followed by those of `b` |
| Website.AnchorKept | src/services/websiteService.js:45-52 | every anchor whose resolved absolute URL starts with the base URL contributes that URL with its trimmed text |
| Website.CollectLinks | src/services/websiteService.js:43-56 | the `each` loop returns exactly the document's internal links, in order |
| Website.PageOf | src/services/websiteService.js:33-40 | the page record keeps the URL; title, h1 and content are trimmed; a missing description becomes `''`; all its links are internal |
| Website.CrawlPageSpec | src/services/websiteService.js:22-69 | a crawl step only extends the visited list and the pages; it changes nothing when the budget is spent, the URL was visited, or the fetch fails; the URL ends up visited exactly when it was already or the fetch succeeds within budget |
| Website.CrawlLinksSpec | src/services/websiteService.js:61-65 | the link loop only extends the visited list and the pages |
| Website.CrawlPageConsistent | src/services/websiteService.js:22-69 | every crawl step keeps the invariant: one page per visited URL, in the same order and built from that URL's document; no URL twice; every URL internal and fetched; never more than `maxPages` |
| Website.CrawlLinksConsistent | src/services/websiteService.js:61-65 | the link loop keeps the same invariant |
| Website.Scan | src/services/websiteService.js:10-20 | a scan with no budget, or whose base URL cannot be fetched, finds nothing; otherwise the base URL is visited |
| Website.ScanResult | src/services/websiteService.js:10-20 | a scan returns at most `maxPages` pages (none if `maxPages <= 0`); their URLs are distinct and internal; each page is its URL's record; the base URL comes first when it can be fetched |
| Website.CrawlLinksFollows | src/services/websiteService.js:60-65 | by the end of the link loop, every link from `i` on whose fetch succeeds has been visited, unless `maxPages` URLs have been visited |
| Website.CrawlPageFollows | src/services/websiteService.js:22-69 | every page a crawl step adds has all its fetchable links visited by the end of the step, unless `maxPages` URLs have been visited |
| Website.CrawlLinksPagesFollow | src/services/websiteService.js:58-65 | every page the link loop adds has all its fetchable links visited by the end of the loop, unless `maxPages` URLs have been visited |
| Website.ScanFollowsLinks | src/services/websiteService.js:10-20 | a scan is closed under links: every link of every returned page whose fetch succeeds was visited, unless the scan visited `maxPages` URLs |
| Website.FailedFetchSkipped | src/services/websiteService.js:61-68 | a link whose fetch fails is passed over and the loop continues from the same state |
| Website.CrawlOrderExample | src/services/websiteService.js:60-65 | on the site A→{B,C}, B→{A,D} with room for three pages, the crawl visits A, B, D in that order (depth first, cycle cut, C never reached) |
| Website.WebsiteService.constructor | src/services/websiteService.js:6-8 | a new service has no visited URLs |
| Website.WebsiteService.ScanWebsite | src/services/websiteService.js:10-20 | clears the visited set; then the visited set and the returned pages are those of a scan with `maxPages`, or 100 when none is given |
| Website.WebsiteService.CrawlPage | src/services/websiteService.js:22-69 | the recursive, state-changing crawl produces exactly the visited list and pages of the crawl-step specification |
| CompetitiveAnalysis.ProjectResults | src/services/competitiveAnalysis.js:17-21 | same length and order; each entry keeps only title, link and snippet |
| CompetitiveAnalysis.AnalyzeSerp | src/services/competitiveAnalysis.js:11-26 | success exactly when the search answers; the entries are the projected results; otherwise "Failed to analyze search results" |
| CompetitiveAnalysis.ExtractPageData | src/services/competitiveAnalysis.js:28-45 | success exactly when the page fetches; copies title, headings and element counts; the word count is the number of pieces of the body text split on white-space runs (so between 1 and the body length plus 1); otherwise "Failed to analyze page" |
| CompetitiveAnalysis.CalculateAverages | src/services/competitiveAnalysis.js:79-86 | the `reduce` from zero: no competitors give zeros, and each competitor's word count, number of headings and images are at most the result's |
| CompetitiveAnalysis.CalculateAveragesAppend | src/services/competitiveAnalysis.js:79-86 | the fold is additive over concatenation |
| CompetitiveAnalysis.CalculateAveragesSnoc | src/services/competitiveAnalysis.js:80-85 | one more competitor adds its word count, its number of headings and its images |
| CompetitiveAnalysis.CalculateAveragesSingle | src/services/competitiveAnalysis.js:80-85 | one competitor contributes its own figures, starting from zero |
| CompetitiveAnalysis.CalculateAveragesIsTotal | src/services/competitiveAnalysis.js:79-86 | word counts 100, 200 and 300 give 600: the "averages" are totals |
| CompetitiveAnalysis.TopOf | src/services/competitiveAnalysis.js:60 | the first five results, or all of them when there are fewer |
| CompetitiveAnalysis.GenerateContentBrief | src/services/competitiveAnalysis.js:47-77 | a brief exists exactly when the search succeeds and every top page can be measured; otherwise "Failed to generate content brief". It echoes the keyword, has one competitor per top result in order (link as url, the page's figures) and averages equal to the fold over them |
| SerpAnalysis.SettingOf | src/services/serpAnalysisService.js:12-13 | the optional-chained lookup of a provider's key setting; absent whenever the user or the user's keys are absent |
| SerpAnalysis.ChooseKey | src/services/serpAnalysisService.js:12-14 | the stored key exactly when the setting is enabled, the fallback otherwise |
| SerpAnalysis.InitializeClient | src/services/serpAnalysisService.js:10-25 | a client exactly for "serpapi" and "scrapingbee", of the matching kind; its key is the user's own exactly when the user enabled it, otherwise the default |
| SerpAnalysis.DefaultKeyWithoutSettings | src/services/serpAnalysisService.js:10-25 | a missing user, or a user without keys, gets the default keys |
| SerpAnalysis.KeysIndependent | src/services/serpAnalysisService.js:10-25 | one provider's setting never changes the key chosen for the other |
| SerpAnalysis.CopyResults | src/services/serpAnalysisService.js:70-75 | same length and order; each result keeps title, link, snippet and position |
| SerpAnalysis.FormatSerpApiResults | src/services/serpAnalysisService.js:67-77 | the keyword is the echoed query; the results are copied field for field, keeping SerpApi's own positions |
| SerpAnalysis.NumberFrom | src/services/serpAnalysisService.js:82-87 | the results from `start` onwards, fields kept, numbered `start + 1` onwards |
| SerpAnalysis.FormatScrapingBeeResults | src/services/serpAnalysisService.js:79-89 | the keyword is `search_query`; the results are copied in order, with result `i` at position `i + 1` |
| SerpAnalysis.ScrapingBeePositionsConsecutive | src/services/serpAnalysisService.js:82-87 | positions start at 1 and go up by one |
| SerpAnalysis.CopyResultsAppend | src/services/serpAnalysisService.js:70-75 | formatting commutes with concatenation |
| SerpAnalysis.ScrapingBeeAppend | src/services/serpAnalysisService.js:79-89 | formatting `a + b` gives `a`'s results, then `b`'s with positions shifted by the length of `a` |
| AiService.TallyOfIsTable | src/services/aiService.js:290-298 | the frequency table holds exactly the words longer than three characters, each once, with its number of occurrences |
| AiService.Step | src/services/aiService.js:294-298 | one step of the `forEach` keeps every listed word keyed in the table (what the table then holds is `StepIsTable`) |
| AiService.TallyOf | src/services/aiService.js:292-298 | the table after the pass over all words has every listed word keyed (what it holds is `TallyOfIsTable`) |
| AiService.StepIsTable | src/services/aiService.js:294-298 | one step of the counting pass keeps the table true to the words seen so far |
| AiService.EntryIsCount | src/services/aiService.js:302 | every `[word, count]` entry is a counted word of the text with its number of occurrences |
| AiService.Entries | src/services/aiService.js:302 | one `[word, count]` pair per key, in table order |
| AiService.InsertSorted | src/services/aiService.js:303 | inserting into a list sorted by count keeps it sorted and adds exactly that entry |
| AiService.SortDesc | src/services/aiService.js:302-303 | the sort returns a permutation of its input in non-increasing order of count |
| AiService.AnalyzeKeywordDensity | src/services/aiService.js:288-314 | counts all tokens of the lower-cased content; the one-pass loop builds exactly the frequency table; keeps the first ten entries of the sorted table |
| AiService.Rank | src/services/aiService.js:302-304 | ten entries, or all of them when the table has fewer |
| AiService.RankIsTop | src/services/aiService.js:300-307 | exactly the first ten entries of the sorted table (all when fewer), non-increasing and distinct; each is a counted word with its true count; no entry left out beats one kept |
| AiService.GenerateHashtags | src/services/aiService.js:342-367 | on success: the reply's tokens starting with '#', in order: exactly the first eight of them, or all of them when there are fewer; none has white space; otherwise "Failed to generate hashtags" |
| AiService.HashtagsKept | src/services/aiService.js:357-360 | every hashtag of a reply with at most eight of them is returned |
| AiService.TrimAll | src/services/aiService.js:446 | each line trimmed, same order |
| AiService.FindExternalLinks | src/services/aiService.js:428-454 | on success: at most one link per non-empty reply line, each trimmed, a trimmed reply line, and containing no excluded domain; otherwise "Failed to find external links" |
| AiService.LinkKept | src/services/aiService.js:443-447 | every non-empty reply line whose trimmed text contains no excluded domain is returned |
| AiService.ExternalLinksAppend | src/services/aiService.js:443-447 | the links of two pieces of reply joined by a newline are those of the first followed by those of the second: order and repeated lines are kept |
| AiService.ExternalLinksLine | src/services/aiService.js:443-447 | a single line gives its trimmed text exactly when it is non-empty and the trimmed text has no excluded domain, and nothing otherwise |
| AiService.RepeatedLinkKept | src/services/aiService.js:443-447 | a line repeated twice is returned twice |
| AiService.EmptyDomainExcludesAll | src/services/aiService.js:447 | an empty string among the excluded domains removes every link |
| AiService.EnhancementPrompt | src/services/aiService.js:187-280 | a system prompt exists exactly for the six enhancement types |
| AiService.EnhanceContent | src/services/aiService.js:182-287 | success exactly when the type is known and the gpt-4 call (content unchanged, 1000 tokens) answers; the result is the reply; otherwise "Failed to enhance content" |
| AiService.InitializeModel | src/services/aiService.js:32-56 | a client exactly for openai, anthropic, openrouter and perplexity, with the right kind, base URL and referer header; otherwise "Invalid provider" |
| AiService.InitializeModelKeepsKey | src/services/aiService.js:32-56 | every client built authenticates with exactly the given key |
| TemplateService.OrElse | src/services/templateService.js:188-200 | `data[key]` when present and truthy, otherwise the fallback |
| TemplateService.GetRecommendations | src/services/templateService.js:161-182 | the table's advice for a known section, the general advice otherwise; never empty |
| TemplateService.BlogPostFullyAdvised | src/services/templateService.js:4-20 | every blog-post section has its own advice |
| TemplateService.CaseStudyGeneralAdvice | src/services/templateService.js:99-109 | every case-study section gets only the general advice |
| TemplateService.StepsOf | src/services/templateService.js:218-222 | one step typed 'HowToStep' per instruction, in order, at position `i + 1` |
| TemplateService.GenerateSchema | src/services/templateService.js:184-229 | fails exactly for a how-to guide whose steps are present but not an array, with the TypeError. Otherwise the schema is the one `SchemaOf` describes: the template's schema type; headline and description; a 'Person' author, an 'Organization' publisher and an 'ImageObject' logo, all with `''` defaults; a review's body and a 'Rating' defaulting to 5 of 5, worst 1; a guide's numbered 'HowToStep's, absent when there are none |
| TemplateService.SchemaOfUnique | src/services/templateService.js:184-229 | the field-by-field description of the schema leaves nothing open: it fixes the whole object |
| TemplateService.SectionsOf | src/services/templateService.js:140-144 | one section per template section, in order, with its title, `data[section]` or `''`, and its advice |
| TemplateService.GenerateFromTemplate | src/services/templateService.js:133-152 | succeeds exactly for a known type whose schema does not fail; an unknown type is "Template not found", a failing schema its TypeError. The result holds the expanded sections, the full schema of `SchemaOf`, and metadata copied from the template with the type echoed |
| ContentUtils.UnwrapWrap | src/utils/contentUtils.js:7-11 | cell markup can be read back: unwrapping the joined `<th>`/`<td>` elements gives the cells |
| ContentUtils.ReadRowsBody | src/utils/contentUtils.js:10-12 | the body-row markup reads back as exactly the rows: one `<tr>` line per data row, in order, one `<td>` per cell, for cells without '<' |
| ContentUtils.TableBodyRows | src/utils/contentUtils.js:4-15 | the `<tbody>` of the generated HTML reads back as exactly the data rows |
| ContentUtils.Dashes | src/utils/contentUtils.js:18 | one '---' per header |
| ContentUtils.RowLines | src/utils/contentUtils.js:19 | one table line per row, in order |
| ContentUtils.GenerateTable | src/utils/contentUtils.js:2-22 | the HTML holds the header row and the body rows; the markdown holds the header line and the separator line |
| ContentUtils.TableHtmlParts | src/utils/contentUtils.js:4-15 | the HTML literal contains the header row and the body rows |
| ContentUtils.TableMarkdownParts | src/utils/contentUtils.js:16-20 | the markdown literal contains the header line and the separator line |
| ContentUtils.PaddedJoin | src/utils/contentUtils.js:17 | the header line's inner text is the cells, each padded with one space on both sides, joined by the bar character |
| ContentUtils.CellsOfLine | src/utils/contentUtils.js:17-19 | a table line splits on the bar character into exactly its padded cells, for cells that contain no bar |
| ContentUtils.SeparatorColumns | src/utils/contentUtils.js:18 | for at least one header, the separator line has one '---' column per header |
| ContentUtils.NoHeadersBlankColumn | src/utils/contentUtils.js:17-18 | with no headers, the header line and the separator line are both two bars around two spaces: one blank column |
| ContentUtils.MarkdownLines | src/utils/contentUtils.js:16-20 | the markdown's exact lines: blank; header; separator; the rows with only the first indented; the closing indentation |
| ContentUtils.FaqItems | src/utils/contentUtils.js:25-30 | one FAQ item per question, in order |
| ContentUtils.GenerateFAQ | src/utils/contentUtils.js:24-49 | the schema is a schema.org FAQPage with one Question (with an Answer) per input, in order |
| ContentUtils.QuestionsOf | src/utils/contentUtils.js:35-42 | reading the schema back gives one question-answer pair per entity |
| ContentUtils.FaqSchemaRoundTrip | src/utils/contentUtils.js:35-42 | reading the schema back gives the input questions and answers exactly |
| ContentUtils.FaqVerbatim | src/utils/contentUtils.js:25-30 | every question and answer appears verbatim in the HTML |
| ContentUtils.ImageTag | src/utils/contentUtils.js:56 | an `<img>` for the item's image exactly when the image is truthy, nothing otherwise |
| ContentUtils.ListItems | src/utils/contentUtils.js:52-58 | one HTML block per item, numbered by position |
| ContentUtils.MarkdownBlocks | src/utils/contentUtils.js:62-64 | one markdown block per item, numbered by position |
| ContentUtils.GenerateListicle | src/utils/contentUtils.js:51-66 | the HTML is wrapped in the listicle container; no items give empty markdown |
| ContentUtils.ListicleNumbering | src/utils/contentUtils.js:52-64 | item `i` is numbered `i + 1` in its heading, in the markdown and in the HTML |
| ContentUtils.ItemInListicle | src/utils/contentUtils.js:52-61 | each item's block occurs in the HTML |
| ContentUtils.ListicleMarkdownAppend | src/utils/contentUtils.js:62-64 | adding an item appends a blank line and its block |
| ContentUtils.ListicleImage | src/utils/contentUtils.js:56 | an image appears exactly for items whose image is truthy |
| Text.SplitWs | src/services/aiService.js:290 | `split(/\s+/)`: at least one piece; no piece has white space; only the first and last may be empty |
| Text.SplitWsKeepsText | src/services/aiService.js:290 | splitting on white space loses exactly the white space |
| Text.SplitWsNoSpace | src/services/aiService.js:290 | a string without white space is one piece |
| Text.SplitWsAround | src/services/aiService.js:290 | a maximal white-space run splits the text into the pieces of its two sides, so the pieces are exactly the stretches between such runs |
| Text.SplitWsRun | src/services/aiService.js:290 | leading white space gives an empty first piece |
| Text.Trim | src/services/aiService.js:446 | `trim()`: the result is a contiguous slice of the input, everything cut before and after it is white space, and it has no white space at either end |
| Text.ToLower | src/services/aiService.js:290 | `toLowerCase()`: same length, each ASCII capital lowered, other characters kept |
| Text.SplitOn | src/services/aiService.js:444 | `split('\n')`: at least one piece, none containing the separator |
| Text.Filter | src/services/aiService.js:445-447 | `filter`: only satisfying elements of the input, no more of them than the input has |
| Text.FilterMultiplicity | src/services/aiService.js:445-447 | each satisfying value is kept as often as it occurs and every other value dropped |
| Text.FilterAppend | src/services/aiService.js:445-447 | filtering keeps the input order: the filter of `a + b` is that of `a` followed by that of `b` |
| Text.Includes | src/services/aiService.js:447 | `includes`: a prefix is included, and nothing longer than the text is |
| Text.IncludesAt | src/services/aiService.js:447 | `includes` holds exactly when the substring occurs at some position |
| Text.Take | src/services/aiService.js:304 | `slice(0, n)`: the first `n` elements, or all of them when there are fewer |
| Text.Utf16Length | src/services/aiService.js:295 | `length` in UTF-16 code units: between the number of characters and twice that |
| Text.Utf16LengthBmp | src/services/aiService.js:295 | on the Basic Multilingual Plane the length is the number of characters |
| Text.Utf16LengthEmoji | src/services/aiService.js:295 | two emoji have length 4, so they count as a word longer than three characters |
| Text.TrimIdempotent | src/services/aiService.js:446 | trimming twice is trimming once |
| Text.JoinSplitOn | src/services/aiService.js:443-444 | joining the pieces of `split('\n')` with '\n' gives back the text |
| Text.DecimalRoundTrip | src/utils/contentUtils.js:54 | the decimal rendering of an item number reads back as that number |

## Left out

- **I/O:**
  - HTTP requests, HTML parsing (cheerio), the SerpApi/ScrapingBee/OpenAI/Anthropic/Perplexity clients and `console.error` logging are outside the model.
  - Their outcomes are parameters. A fetch or parse is a map or function. A model reply is a function from request to optional text.
  - The environment variables are `Option` values.
- **Concurrency:** within one scan each `await` finishes before the next step, so a scan is modelled as plain sequential code.
- Website.WebsiteService.ScanWebsite: the module exports one shared instance (src/services/websiteService.js:72). Its `visitedUrls` is cleared (line 13) and filled (line 30) across `await`s, so two scans that overlap on it would interfere. That is not modelled: each scan here runs alone on its own state.
- SerpAnalysis.FormatSerpApiResults: `search_parameters.q` and `organic_results` are assumed present. In the source (src/services/serpAnalysisService.js:69-70) a missing `search_parameters` or `organic_results` throws a TypeError and a missing `q` gives `undefined`; neither is modelled.
- SerpAnalysis.FormatScrapingBeeResults: `organic_results` is assumed present. In the source (src/services/serpAnalysisService.js:82) a missing one throws a TypeError; that failure is not modelled.
- **URL resolution:** `new URL(href, base)` is a function parameter; WHATWG URL parsing is not modelled.
- **Crawler visited set:** the JavaScript `Set` of visited URLs is a sequence without duplicates, in insertion order.
- Website.WebsiteService.ScanWebsite: its "Failed to scan website" path is not modelled, because the crawl catches every error itself and that path cannot be reached.
- **Language-model calls:** the requests of `generateHashtags` and `findExternalLinks` (prompts, model names, temperature) are not modelled, only what is done with the reply; `enhanceContent`'s 0.7 temperature is also left out.
- AiService.AnalyzeKeywordDensity: returns the word count and the ranked `[word, count]` pairs rather than the `toFixed(1)` percentage strings, because floating-point formatting is not modelled.
- AiService.AnalyzeKeywordDensity: lists the keys in order of first appearance. JavaScript lists integer-like keys (such as "2024") first, in numeric order. The sort is stable, so that order decides which of several words tied at the tenth place survive the `slice(0, 10)` cut (src/services/aiService.js:302-304); the model can keep a different one of them than the source.
- AiService.AnalyzeKeywordDensity: words that name `Object.prototype` members, such as "constructor" or "__proto__", are counted like any other word. JavaScript's inherited properties make them behave differently.
- AiService.SortDesc: is stable by construction, like `Array.prototype.sort`, with ties kept in table order; its contract states only sortedness and permutation, not stability.
- **Unicode:** `toLowerCase` is modelled on ASCII letters only; JavaScript's `\s` is modelled by the explicit list of ECMAScript white-space and line-terminator characters. A word's `length` is counted in UTF-16 code units, as JavaScript does.
- TemplateService.GetRecommendations: a section named like an `Object.prototype` member (such as "constructor") is treated as unknown, though JavaScript would return the inherited function.
- TemplateService.GenerateFromTemplate: a type named like an `Object.prototype` member is reported as "Template not found", though JavaScript would find the inherited function.
- TemplateService.GenerateSchema: `datePublished` (the current time) is not modelled.
- TemplateService.GenerateSchema: the TypeError raised for a step list that is not an array is one fixed message, not the engine's text.
- ContentUtils.GenerateFAQ: the schema is the object before `JSON.stringify(schema, null, 2)`; the JSON text itself is not modelled.
- **Data values:** `data` values are strings, integers or string arrays; `null`, booleans, nested objects and floating-point numbers are not modelled.
- **Context services:** the rest of `aiService.js` is not part of this model. This covers content generation, readability, sanitising, SEO enhancement and the constructor's clients, along with the other services, the routes and the models.
