# later — a verified model of the research pipeline

`later` researches a product given by URL, by name or by a screenshot, and builds a
versioned fact sheet ("one-pager") for it: overview, features, pricing, tech stack and
recent updates, backed by indexed source text, with a sample of its claims checked
against a fresh web search. Users keep a per-user watchlist, can refresh or delete
versions, ask questions over the indexed text, and reach the service through a web
client or a Telegram bot.

This project models the core of that system in Dafny:

- the pure helpers of the backend: URL canonicalisation (`canonical.py`), name
  validation (`validators.py`), link classification (`link_classify.py`), image type
  sniffing (`vision.py`), page scraping with its retry and proxy fallback (`scrape.py`)
  and the research helpers (`research.py`);
- the loops: maximal-marginal-relevance selection (`mmr.py`), the claim juror
  (`juror.py`) and batched embedding (`embeddings.py`);
- the ingestion graph of `flow.py`: the resolve, ingest, augment, research, juror and
  dbwrite nodes as methods over a `Store.Database` object that holds every table, with
  the externals (web search, scraping, the language model, embeddings, OCR) as
  parameters;
- the HTTP routes of `api.py` that read or change the store: chat retrieval limits, the
  tool view, the watchlist toggle, single and bulk refresh, deleting the latest version
  and the progress stream;
- the Telegram webhook's parsing, its `/start` link tokens and its web links;
- the web client's `mapTool` / `mapListItem` (`client.ts`) and its anonymous user id
  kept in the browser's localStorage (`supabase.ts`).

The store keeps the versioning invariant as a class invariant (`Store.Database.Valid`):
for every tool with versions exactly one version is the latest, it carries the highest
version number and version numbers are distinct within a tool; besides, every alias
names a tool and every row id is below the next fresh id. Each store-changing method
preserves it.

Python's `str.lower`, `\w`, `\s` and `\d` and JavaScript's `toUpperCase` are modelled on
ASCII. Strings are sequences of characters.

## Model

| member | source | states |
|---|---|---|
| Canonical.DropTracking | backend/app/canonical.py:4-12 | a query pair is kept iff it was in the query and its key is not one of the seven tracking parameters; never longer than the query |
| Canonical.DropTrackingAppend | backend/app/canonical.py:25 | filtering keeps the relative order of the kept pairs (it distributes over concatenation) |
| Canonical.DropTrackingClean | backend/app/canonical.py:25 | a query without tracking parameters is left exactly as it was |
| Canonical.CanonicalScheme | backend/app/canonical.py:17 | the scheme is lower-cased and never empty; a missing scheme becomes "https" |
| Canonical.CanonicalParts | backend/app/canonical.py:16-28 | the lower-cased netloc, the path or "/", no params, no fragment, and a query whose pairs are exactly the non-tracking pairs of the input query |
| Canonical.CanonicalPartsIdempotent | backend/app/canonical.py:15-28 | canonicalising the components a second time changes nothing |
| Canonical.CanonicalizeUrl | backend/app/canonical.py:15-28 | fails exactly when the URL does not parse; a result starts with the canonical scheme and ":" and holds no fragment marker '#' |
| Canonical.CanonicalRendering | backend/app/canonical.py:28 | the rendered canonical URL starts with its scheme and carries no '#' |
| Validators.PunctCount | backend/app/validators.py:26-27 | counts the characters outside `[\w\s\-&+.,]`: zero iff there is no such character |
| Validators.IsPlausibleProductName | backend/app/validators.py:4-32 | rejects the empty name, collapsed lengths outside 2..80, the refusal phrases and URL markers, names without an ASCII letter, more than four punctuation marks and more than twelve words; accepts every other name |
| Validators.PlausibleIgnoresLayout | backend/app/validators.py:12 | a name and its whitespace-collapsed form get the same verdict |
| Validators.RemoveUrlsComplete | backend/app/validators.py:56 | after `re.sub(r"https?://\S+", "", …, IGNORECASE)` no URL match is left anywhere in the line |
| Validators.RemoveUrlsNoop | backend/app/validators.py:56 | a line without a URL match is unchanged |
| Validators.FirstNonBlank | backend/app/validators.py:47-52 | a non-empty result is the stripped form of one of the lines |
| Validators.FirstNonBlankIgnoresRest | backend/app/validators.py:47-52 | the search stops at the first non-blank line: lines after it never matter |
| Validators.FallbackNameBlank | backend/app/validators.py:53-54 | when every line is blank the fallback name is "" |
| Validators.FallbackNameBounds | backend/app/validators.py:62-67 | the fallback name has at most six words and at most 48 characters |
| Validators.FallbackNameFromOcr | backend/app/validators.py:35-68 | the loop with its early exit computes the name the specification function defines, and "" for empty text |
| LinkClassify.ClassifyHost | backend/app/link_classify.py:15-25 | the empty host is an article; YouTube iff a YouTube marker occurs; TikTok, social and podcast each iff their marker occurs and no earlier family's does |
| LinkClassify.ClassifyLink | backend/app/link_classify.py:10-25 | the kind of the URL's lower-cased host; no host or a URL that does not parse gives an article |
| LinkClassify.DropboxIsSocial | backend/app/link_classify.py:21 | markers are substrings, so "dropbox.com" counts as social through "x.com" |
| LinkClassify.YoutubeBeforeSocial | backend/app/link_classify.py:17-22 | a host carrying both a YouTube and a social marker is a YouTube link |
| LinkClassify.YoutubeIdOf | backend/app/link_classify.py:28-37 | a youtu.be link yields its first path segment; otherwise the first `v` query value; failing that the segment after "/shorts/" |
| LinkClassify.YoutuBeIdIsSegment | backend/app/link_classify.py:31-32 | a youtu.be id never holds a '/' |
| LinkClassify.ShortsPathId | backend/app/link_classify.py:35-36 | "/shorts/ID", with or without more segments after it, yields ID |
| LinkClassify.ShortsLinkId | backend/app/link_classify.py:33-37 | a link that is not youtu.be and has no `v` value, with path "/shorts/ID[/...]", yields ID |
| LinkClassify.YoutubeId | backend/app/link_classify.py:28-39 | "" when the URL does not parse, the parsed id otherwise |
| LinkClassify.TranscriptText | backend/app/link_classify.py:42-57 | "" for an empty video id or a failed transcript call; otherwise a prefix, capped at 200000 characters, of the non-empty segment texts joined by newlines, and the whole join when it fits |
| LinkClassify.TranscriptEmptyIffBlank | backend/app/link_classify.py:53-55 | the transcript is empty iff every segment text is empty |
| LinkClassify.FetchTextForUrl | backend/app/link_classify.py:60-77 | non-YouTube links are scraped; YouTube links use the transcript when it is non-empty and fall back to the scraper otherwise |
| Vision.DetectMime | backend/app/vision.py:12-29 | always an allowed type; fewer than four bytes or a JPEG marker give JPEG; PNG, GIF and WEBP each iff their signature is present and no earlier check matched |
| Vision.PngSignatureSniffs | backend/app/vision.py:19-20 | any data starting with the PNG signature is PNG |
| Vision.GifHeaderSniffs | backend/app/vision.py:22-23 | a GIF87a or GIF89a header is GIF |
| Vision.WebpSniffs | backend/app/vision.py:25-26 | a RIFF container with form type WEBP is WEBP |
| Vision.DeclaredMime | backend/app/vision.py:34-36 | the declared type is never "image/jpg" (it is read as "image/jpeg") |
| Vision.SanitizeMime | backend/app/vision.py:32-43 | always an allowed type: the declared one when it is allowed, the sniffed one otherwise |
| Vision.DeclaredIgnoresParameters | backend/app/vision.py:34 | parameters after ';' never change the declared type |
| Vision.DeclaredIgnoresCase | backend/app/vision.py:34 | the declared type is compared without regard to letter case |
| Scrape.CleanLines | backend/app/scrape.py:54-55 | every kept line is a whitespace-collapsed input line of at least three characters |
| Scrape.CleanLinesShape | backend/app/scrape.py:54 | kept lines have no line break, no outer whitespace and no double space |
| Scrape.CleanLinesKeepsClean | backend/app/scrape.py:54-55 | lines that are already clean and long enough pass through unchanged |
| Scrape.CleanText | backend/app/scrape.py:54-57 | at most 200000 characters, and a prefix of the kept lines joined by newlines |
| Scrape.CleanTextLines | backend/app/scrape.py:56-57 | below the cap, splitting the result at newlines gives back exactly the kept lines |
| Scrape.ProxyTarget | backend/app/scrape.py:32-37 | defined iff the URL parses; the target starts with the proxy prefix and holds no '#'; for a URL with a network location, what follows the prefix parses back to the scheme (or "https"), network location, path and query, with no parameters and no fragment |
| Scrape.ProxyTargetReparses | backend/app/scrape.py:32-37 | the round trip above: re-parsing the target after the prefix gives back the URL's components |
| Scrape.AttemptHtml | backend/app/scrape.py:18-46 | a 2xx response gives its own body; any success carries the direct response's body (line 46 overwrites the proxied one); a success after a failed GET needs a 2xx from the proxy |
| Scrape.ProxyBodyNeverUsed | backend/app/scrape.py:42-46 | the proxy's body never affects the outcome, only whether it answered 2xx |
| Scrape.FirstSuccess | backend/app/scrape.py:7 | the index of the first successful attempt: every earlier attempt failed |
| Scrape.FetchCleanText | backend/app/scrape.py:7-57 | the retry loop makes between one and three attempts, stops at the first success and returns its cleaned text, and fails only after three failed attempts |
| Research.FeatureItems | backend/app/research.py:78 | at most two feature items, and `Err` where the value cannot be sliced |
| Research.PricingItems | backend/app/research.py:80 | at most one pricing entry, and `Err` where the value has no `items()` |
| Research.PickFiveClaims | backend/app/research.py:75-82 | succeeds iff both reads succeed; then at most three claims: "Feature: f" for each of the first two features, followed by "Pricing k: v" for the first pricing entry |
| Research.KeyOrderIsLexicographic | backend/app/research.py:222-227 | comparing date keys compares (year, month, day) lexicographically, as the source's tuple key does |
| Research.DateKey | backend/app/research.py:222-227 | the key of the first `YYYY-MM(-DD)` in an update, the day defaulting to 1, and 0 for an undated update |
| Research.SortedUpdatesSpec | backend/app/research.py:228 | the stored list is a permutation of the stringified updates, sorted newest first, and stable: updates with equal keys keep their input order |
| Research.UndatedLast | backend/app/research.py:215-216 | after sorting, every update after an undated one is undated too |
| Research.SortDescIdempotent | backend/app/research.py:228 | sorting an already sorted list changes nothing |
| Research.NormalizeAndSortRecentUpdates | backend/app/research.py:213-230 | only "recent_updates" may change and no key is added or removed; a missing, non-list or empty value leaves the one-pager unchanged; a non-empty list becomes its sorted stringified items |
| Research.IntentOfLabel | backend/app/research.py:205-210 | how-to iff a how-to marker occurs; new features iff no how-to marker and a release marker occurs; a general intro otherwise |
| Research.ClassifyScreenshotIntent | backend/app/research.py:184-210 | text under 20 stripped characters is a general intro; otherwise fails iff the model call on the first 2000 characters fails, and always yields one of the three intents |
| Research.ShortTextSkipsModel | backend/app/research.py:188-189 | short text never consults the model: any two models give the same answer |
| Research.IntentIgnoresCase | backend/app/research.py:205 | the model's reply is read after stripping and lower-casing |
| Research.ExtractPrimaryProductName | backend/app/research.py:154-181 | without OCR text, the stripped hint; otherwise fails iff the model call fails, and the name is the stripped reply cut to its first 120 characters, a prefix of it |
| Research.NamePrompt | backend/app/research.py:170 | the prompt ends with the first 8000 characters of the OCR text |
| Research.PricingPrompt | backend/app/research.py:101-107 | the prompt is the product line followed by at most 12000 characters of snippet text |
| Research.ResolvePricingViaLlm | backend/app/research.py:85-115 | {} without a model call for no snippets; otherwise fails iff the model call fails, and yields the decoded reply, with an empty reply read as "{}" and an undecodable one as {} |
| Mmr.Redundancy | backend/app/mmr.py:30 | the largest similarity between the candidate and any selected index, attained by one of them |
| Mmr.BestCandidate | backend/app/mmr.py:24-34 | one round's pick: a remaining candidate whose score beats the floor and is at least every other remaining candidate's score, or none when no remaining candidate beats the floor |
| Mmr.Select | backend/app/mmr.py:10-39 | the greedy MMR picks: each pick has the best marginal relevance among the rest (relevance alone for the first); at most min(k, n) distinct candidates; stops early only when no candidate beats the floor; the first pick is the most relevant |
| Mmr.GreedyDistinct | backend/app/mmr.py:37-38 | greedy picks are candidates and never repeat, since each pick leaves the candidate set |
| Mmr.LambdaOneByRelevance | backend/app/mmr.py:31 | with lambda 1 the picks come in non-increasing relevance |
| Mmr.ScoreAtLeastMinusOne | backend/app/mmr.py:28-31 | with cosine similarities in [-1, 1] and lambda in [0, 1] every score is at least -1, above the floor of -1e9 |
| Mmr.ExactLength | backend/app/mmr.py:23 | over distinct candidates with cosine similarities, exactly min(k, n) indices are returned (none when k <= 0) |
| Juror.VerdictFor | backend/app/juror.py:14-19 | a claim is verified iff it gets a citation; a failed search gives (claim, false, ""); otherwise the citation is the first result's URL, or "" without results |
| Juror.VerifyClaims | backend/app/juror.py:6-20 | one search per claim; the first min(5, n) verdicts come back, each the verdict for its claim |
| Embeddings.BatchSizes | backend/app/embeddings.py:11-12 | every batch holds between 1 and 64 texts |
| Embeddings.BatchesCover | backend/app/embeddings.py:11-12 | the batches concatenate back to the input texts, in order |
| Embeddings.BatchCount | backend/app/embeddings.py:11 | there are ceil(n / 64) batches |
| Embeddings.EmbedAllOk | backend/app/embeddings.py:11-14 | succeeds iff every batch's embedding call succeeds |
| Embeddings.EmbedTexts | backend/app/embeddings.py:8-15 | the loop sends the batches in order, stops at the first failed call and returns the concatenated vectors; no call for no texts |
| Embeddings.OneVectorPerText | backend/app/embeddings.py:8-15 | when each call returns one vector per input, the result has one vector per text |
| Store.LatestOf | backend/app/flow.py:362 | the latest version of a tool, when it has one: the row is in the table, belongs to the tool and is marked latest |
| Store.LatestUnique | backend/app/flow.py:362 | in a valid table, any row of the tool marked latest is the latest version |
| Store.NoLatestNoVersions | backend/app/flow.py:362-364 | in a valid table a tool without a latest version has no versions at all, so numbering restarts at 1 only for a tool without history |
| Store.BumpedValid | backend/app/flow.py:362-377 | flipping the previous latest off and inserting the next version keeps the table valid and makes the new row the latest |
| Store.BumpedRows | backend/app/flow.py:362-377 | the bump adds exactly the new row; it is version 1 without base for a tool without versions, else previous number + 1 with the previous latest as base; other tools' rows are untouched |
| Store.HighestOf | backend/app/api.py:603-606 | the highest-numbered version of a tool with versions |
| Store.AfterDeleteLatestValid | backend/app/api.py:593-618 | deleting the latest version and promoting the highest remaining one keeps the table valid; the tool has a latest iff versions remain |
| Store.AfterDeleteLatestRows | backend/app/api.py:601-610 | exactly the latest row is removed, other tools' rows are untouched, and the promoted row is the highest remaining version |
| Store.RemoveLatestValid | backend/app/api.py:590 | removing a tool's only version keeps the table valid |
| Store.DocsOf | backend/app/flow.py:252-261 | the documents of one tool, and all of them |
| Store.DropDocs | backend/app/flow.py:138 | exactly the documents of other tools or other source URLs are kept |
| Store.Database.constructor | backend/app/flow.py:20-37 | an empty, valid database |
| Store.Database.NewId | backend/app/flow.py:152-161 | a fresh id that keys no row, nothing else changes |
| Store.Database.ToolByCanonical | backend/app/flow.py:112 | some tool with exactly that canonical URL, or none when no tool has it |
| Store.Database.ToolByAlias | backend/app/flow.py:144 | the tool of some alias whose lower-cased value equals the key, or none when no alias matches |
| Store.Database.LatestVersion | backend/app/flow.py:118-121 | the tool's latest version, as the table determines it |
| Store.Database.BumpVersion | backend/app/flow.py:362-377 | the version table becomes the bumped one, the new row is the latest, no user is linked to it yet, and the database stays valid |
| Store.Database.LinkUser | backend/app/flow.py:380-389 | a (user, version) link is inserted iff it is not there already (the primary key rejects duplicates); nothing else changes |
| Store.Database.InsertTool | backend/app/flow.py:152-161 | a new tool row with the name and canonical URL, no categories, status "pending_research" and no watchlist flag |
| Store.Database.DeleteDocuments | backend/app/flow.py:138 | the tool's documents from that source are removed |
| Store.Database.InsertChunks | backend/app/flow.py:220-230 | existing documents stay as they were and one row per (chunk, vector) pair is appended, with the chunk's index and source |
| FlowState.Merge | backend/app/flow.py:20-37 | LangGraph's state update: the empty update changes nothing; the tool id, status, one-pager and skip flag are replaced when the update writes them and kept otherwise |
| FlowState.OrElse | backend/app/flow.py:194 | Python's `a or b` on optional strings: a given, non-empty `a` wins |
| FlowState.StatusOnly | backend/app/flow.py:191-193 | the benign update of a skipped node: only the status, defaulted when missing |
| Discovery.NameQueries | backend/app/flow.py:59-66 | six search queries |
| Discovery.NameQueriesMentionName | backend/app/flow.py:59-66 | every query mentions the product name |
| Discovery.KeptSpec | backend/app/flow.py:70-81 | the kept results have non-empty, pairwise distinct URLs, each kept item is a result, and every non-empty result URL is kept |
| Discovery.KeptFirstOccurrence | backend/app/flow.py:76-78 | later results never change what was kept before them: the first occurrence of a URL wins |
| Discovery.GatherCandidates | backend/app/flow.py:56-84 | the two candidate lists stay aligned, URLs are distinct and non-empty, a failed search empties both lists, and when all six searches succeed the candidates are exactly the first occurrences over all results |
| Discovery.AddCandidates | backend/app/flow.py:70-81 | the inner loop extends the kept list exactly as first-occurrence filtering of the results seen so far |
| Discovery.SocialByContainment | backend/app/flow.py:91-96 | `h.endswith(s) or s in h` reduces to containment: a host is social iff it contains a social host name |
| Discovery.FirstNonSocial | backend/app/flow.py:103-105 | the first candidate that is non-empty and not social; every earlier one is empty or social; none when there is no such candidate |
| Discovery.FallbackPicksFirstNonSocial | backend/app/flow.py:101-109 | the heuristic fallback canonicalises the first non-empty, non-social candidate, and picks nothing when there is none |
| Discovery.PickOfficialSite | backend/app/flow.py:99-109 | a non-empty, non-social model pick is canonicalised (a raise propagates); otherwise the fallback pick is used |
| Discovery.FreshnessWindow | backend/app/flow.py:126 | a version is fresh iff it was created less than six hours (21600 seconds) ago |
| Discovery.NewToolName | backend/app/flow.py:158 | a new tool is named by the request's name, else its canonical URL; a tool that may be created never gets an empty name, and one created from a name alone has a plausible name |
| Discovery.SeedAliases | backend/app/flow.py:163-173 | at most two aliases: the lower-cased name (kind "name", 0.9) first when there is a name, the host (kind "domain", 0.95) last when there is one, nothing else |
| Discovery.DomainAliasNeverMatchesUrlKey | backend/app/flow.py:142-144 | a domain alias can never match the lookup key of a request with a canonical URL, since that key holds the scheme's ':' and a host does not |
| ResolveNode.Discover | backend/app/flow.py:52-109 | no candidates without a search key; distinct candidate URLs; a non-empty, non-social model pick is canonicalised, else the fallback pick is taken; a pick is never empty |
| ResolveNode.RequestCanonical | backend/app/flow.py:45-109 | the request's own URL is canonicalised (a raise fails the node); a name-only request discovers one; a request with neither has none |
| ResolveNode.AliasRows | backend/app/flow.py:174-178 | one alias row per seed, attached to the new tool |
| ResolveNode.Lookup | backend/app/flow.py:111-139 | finds the tool iff some tool has the canonical URL; skips exactly when its latest version is fresh and the run is not forced; a forced run drops the tool's documents of the request URL; nothing else is written |
| ResolveNode.FindOrCreate | backend/app/flow.py:141-178 | a tool found by alias leaves the store unchanged; otherwise a tool is created only with a canonical URL or a plausible name, with its name and seeded aliases, and refused (`ValueError`) without either |
| ResolveNode.ResolveTool | backend/app/flow.py:41-186 | the store stays valid; an unparsable URL and a request with neither URL nor name fail; every success names an existing tool; skipping happens only for a fresh latest version without force and writes nothing; the status is the found tool's or "pending_research"; new tools are created as FindOrCreate promises |
| IngestNode.IngestText | backend/app/flow.py:201-215 | with a valid http(s) URL the fetched text, preceded by the screenshot text and a blank line, and a failing fetch fails the node; without one the screenshot text, else the name |
| IngestNode.OcrLeads | backend/app/flow.py:212 | screenshot text, when present, always leads the ingested text |
| IngestNode.SourceOf | backend/app/flow.py:224 | the chunk rows' source: the URL, else the caller's `source_url` label, else "" |
| IngestNode.IngestPlan | backend/app/flow.py:194-217 | the chunks are the splitter's chunks of the ingested text |
| IngestNode.Ingest | backend/app/flow.py:190-232 | a skipped run returns its status and writes nothing; otherwise it succeeds iff the tool id is known and the fetch and embedding succeed; a failure writes nothing; a success appends exactly the chunk rows of this source after the existing documents and returns the text, chunks and vectors |
| IngestNode.EveryChunkStored | backend/app/flow.py:220-225 | when the embedder returns one vector per chunk, every chunk is stored, in order, with its index |
| ResearchNode.PricingIsPriority | backend/app/flow.py:246-273 | every pricing keyword is also a priority keyword, so a pricing snippet is always prioritised |
| ResearchNode.Snippets | backend/app/flow.py:252-266 | at most 400 snippets, each cut to 800 characters |
| ResearchNode.Filter | backend/app/flow.py:265-273 | keeps exactly the snippets that satisfy the test, in order |
| ResearchNode.Partition | backend/app/flow.py:268-271 | every snippet goes to exactly one of the prioritised and secondary lists |
| ResearchNode.Classify | backend/app/flow.py:262-273 | the loop's three lists are the priority, secondary and pricing filters of the snippets |
| ResearchNode.Budgeted | backend/app/flow.py:278-283 | the snippets taken are a prefix of the ordered snippets |
| ResearchNode.BudgetBound | backend/app/flow.py:279-283 | the characters taken stay below 12000 plus one snippet's 800 |
| ResearchNode.BudgetSpent | backend/app/flow.py:280-281 | a snippet is left out only once 12000 characters have been taken |
| ResearchNode.Bundle | backend/app/flow.py:274-283 | the loop's bundle is the first 4000 characters of the ingested text followed by the budgeted snippets |
| ResearchNode.BundleSize | backend/app/flow.py:274-284 | the snippets bundled after the lead total fewer than 12800 characters |
| ResearchNode.IntentFor | backend/app/flow.py:286-291 | an intent only for screenshot text, always one of the three; a failed classification reads as none |
| ResearchNode.FillPricing | backend/app/flow.py:299-304 | a one-pager with pricing is unchanged; otherwise the extraction runs on the first 20 pricing snippets, a truthy answer becomes the pricing and a falsy one changes nothing; no other key changes |
| ResearchNode.NoSnippetsNoPricing | backend/app/research.py:89-90 | with no pricing snippets the fallback sets nothing |
| ResearchNode.ResearchTool | backend/app/flow.py:236-305 | a skipped run returns its status; otherwise the node's only update is the synthesised one-pager, with recent updates sorted and pricing filled, or the failure of the synthesis or pricing call |
| JurorNode.JudgeClaims | backend/app/flow.py:309-316 | a skipped run returns its status; otherwise succeeds iff the claims can be picked, and the whole update is one verdict per picked claim, in order, each the verdict of that claim's search |
| WriteNode.ProposedName | backend/app/flow.py:330 | a proposed name comes from a truthy "product_name" |
| WriteNode.RefreshedName | backend/app/flow.py:331-341 | the tool keeps its name unless that name is implausible or starts with "http" and a non-empty product name was proposed |
| WriteNode.NameRefresh | backend/app/flow.py:338-339 | a plausible name not starting with "http" is kept; no proposal keeps the name; a URL-like name is replaced by a proposal |
| WriteNode.Refreshed | backend/app/flow.py:343-347 | the tool gets the one-pager and status "partially_verified" and keeps its URL and watchlist flag |
| WriteNode.VerdictValue | backend/app/flow.py:356 | a verified claim is stored as it is, an unverified one behind "UNVERIFIED: " |
| WriteNode.ClaimRoundTrip | backend/app/flow.py:356 | the stored value and the verdict flag give the claim back |
| WriteNode.VerdictRows | backend/app/flow.py:348-358 | one update row per verdict, in order |
| WriteNode.RecordVerdicts | backend/app/flow.py:348-358 | the loop appends exactly the verdict rows and changes nothing else |
| WriteNode.Recent | backend/app/flow.py:391 | the tool's own documents, at most 200 of them, and all of them when they fit |
| WriteNode.SnapshotPairs | backend/app/flow.py:391-396 | every snapshot pair links the new version to one of the tool's documents |
| WriteNode.PlatformFor | backend/app/flow.py:398-412 | always a known platform or "other" |
| WriteNode.MediaRow | backend/app/flow.py:422-433 | the row belongs to the version and keeps the URL, influencer flag and thumbnail; a given platform is kept, a missing one is derived from the URL; title, author and handle are prefixes of at most 255 characters |
| WriteNode.MediaRows | backend/app/flow.py:413-436 | one media row per augmented item, in order |
| WriteNode.WrittenInSync | backend/app/flow.py:343-396 | after a write the new version is the tool's latest, the tool's one-pager equals that version's, the tool is "partially_verified", and every snapshotted document is one of the tool's own |
| WriteNode.LinkRows | backend/app/flow.py:379-390 | one link row exactly when a user id is given and the `::uuid` cast accepts it; none otherwise, as the swallowed insert error adds nothing |
| WriteNode.LinkAndSnapshot | backend/app/flow.py:379-436 | appends the user link (only for a given, uuid-shaped user id), the document snapshot and the media rows, and nothing else |
| WriteNode.WriteTool | backend/app/flow.py:320-461 | a skipped run returns its status and writes nothing; otherwise it succeeds iff the tool exists, a failure writes nothing, and a success writes exactly the refreshed tool, verdict rows, bumped version, user link, snapshot and media, keeping the store valid |
| Augment.NameQueries | backend/app/flow.py:482-493 | ten queries for a named product |
| Augment.SiteQueries | backend/app/flow.py:498-500 | three site queries for the base host |
| Augment.BaseHost | backend/app/flow.py:496-497 | the host without its port: no ':' is left |
| Augment.Queries | backend/app/flow.py:481-500 | fails iff a URL is given and does not parse; ten name queries when there is a name, three site queries when there is a URL, name queries first |
| Augment.PlatformFromUrl | backend/app/flow.py:509-514 | always a social platform or "other"; YouTube iff the URL contains "youtube.com" or "youtu.be" |
| Augment.PlatformSocialIffMarked | backend/app/flow.py:509-514 | a URL gets a social platform iff it contains one of the social markers |
| Augment.ScoreItem | backend/app/flow.py:516-528 | between 0 and 5.5; at least 0.5 on a bonus host and at least 2 for an influencer; otherwise exactly min(views / 100000, 3) |
| Augment.HighlightRule | backend/app/flow.py:562 | a result is a highlight iff it is social, fewer than six are kept, and it scores at least 0.5 or is one of the first two from X or LinkedIn: the separate YouTube threshold of 1.0 never decides |
| Augment.ShortYoutubeLinks | backend/app/flow.py:516-562 | a youtu.be link without bonus host or influencer becomes a highlight iff the extracted view count is at least 50000 |
| Augment.ShortYoutubeLinksWithoutViews | backend/app/flow.py:516-562 | with the view count 0 that the pattern on line 521 yields for ordinary content, such a link is never a highlight |
| Augment.FirstSegment | backend/app/flow.py:544-545 | the author handle is one path segment: it never holds a '/' |
| Augment.ThumbnailFor | backend/app/flow.py:537 | no thumbnail iff no video id; otherwise the img.youtube.com URL ending in "/hqdefault.jpg" |
| Augment.ThumbnailRoundTrip | backend/app/flow.py:537 | the video id can be read back from its thumbnail URL |
| Augment.AuthorFromUrl | backend/app/flow.py:540-547 | the first path segment, which never holds a '/' ("" when the URL does not parse) |
| AugmentNode.MediaRecord | backend/app/flow.py:566-578 | the media record of a highlight: its URL, platform, title cut to 255, empty author, handle from the URL, influencer flag, YouTube thumbnail and score |
| AugmentNode.HighlightStep | backend/app/flow.py:557-579 | taking or passing over a new result keeps every highlight invariant and leaves the indexed count alone |
| AugmentNode.HighlightKeepsProgress | backend/app/flow.py:564-579 | adding a highlight keeps the lists distinct, aligned, at most six and free of the tool's own URL |
| AugmentNode.IndexKeepsProgress | backend/app/flow.py:585-602 | indexing a new, non-noisy source keeps at most twelve distinct sources, all of whose rows belong to the tool and to their first six chunks |
| AugmentNode.IndexSource | backend/app/flow.py:587-602 | a source raises iff its fetch or its embedding call fails; stored rows are the tool's, from this source, among its first six chunks; nothing is stored when the source is not indexed |
| AugmentNode.Take6 | backend/app/flow.py:591 | the first min(6, n) chunks |
| AugmentNode.HandleItem | backend/app/flow.py:553-604 | one result does exactly what `Step` says: an empty or seen URL changes nothing; a new one goes through the highlight rule, raises iff it reaches indexing (not noisy, fewer than twelve sources) and its fetch or embedding fails, and is indexed, marked seen and counted iff it reaches indexing and its text has chunks that embed; the progress invariant holds and only the new source's rows are stored |
| AugmentNode.IndexStep | backend/app/flow.py:583-602 | the indexing half of a new result: it raises iff the source is not noisy, fewer than twelve are indexed and the fetch or embedding fails; it indexes iff those hold, nothing raises and the text has chunks; only then is the URL marked seen and counted |
| AugmentNode.StepFacts | backend/app/flow.py:553-604 | the meaning of one result's step: no change for an empty or seen URL, the highlight rule for a new one, raising and indexing exactly under the conditions above |
| AugmentNode.StepExtends | backend/app/flow.py:553-604 | one result only adds: seen URLs grow, earlier highlights stay in place, the counters never go down |
| AugmentNode.ScanExtends | backend/app/flow.py:553-606 | the same for the results of a whole query |
| AugmentNode.RunAllExtends | backend/app/flow.py:548-606 | the same for the whole sequence of queries |
| AugmentNode.RunQuery | backend/app/flow.py:551-606 | the progress after one query is `QueryResult`: unchanged when the search fails, else its results in order, stopping exactly after a result that raises or after an indexed source that leaves both caps reached; the progress invariant holds throughout |
| AugmentNode.AugmentSources | backend/app/flow.py:469-608 | a skipped run returns empty lists and writes nothing; it fails iff there is no tool id or the queries cannot be built; without a search key nothing is augmented or written; otherwise the returned URLs and media are those of `RunAll` over the queries from a progress that has seen only the tool's URL, the highlights are at most six distinct social records, and only the documents of at most twelve distinct, non-noisy sources are added |
| Flow.RunNode | backend/app/flow.py:609-620 | nodes after resolve never change the tool id or the skip flag; once a skip is decided they write nothing and keep the status; dbwrite leaves the tool and its latest version holding the same one-pager |
| Flow.RunGraph | backend/app/flow.py:613-626 | a request with neither URL nor name fails; a skipped run writes nothing and reports the existing tool's status; a full run ends "partially_verified" with the tool and its new latest version holding the produced one-pager |
| Flow.RunIngestFlow | backend/app/flow.py:624-627 | the tool id returned exists; a request with neither URL nor name fails; a status other than "partially_verified" means nothing was written |
| Flow.RunIngestFlowWithOcr | backend/app/flow.py:631-638 | the tool id returned exists, and a status other than "partially_verified" means nothing was written |
| ToolRoutes.Keep | backend/app/api.py:131-132 | the kept rows are exactly the rows of the input that pass the filter, and there are no more of them than input rows |
| ToolRoutes.NewestLink | backend/app/api.py:139-151 | no version iff the user has no link to a version of the tool; otherwise the version of a link of theirs that no other link of theirs for the tool beats in linked-at, then version number, order |
| ToolRoutes.SourcesOf | backend/app/api.py:133 | at most eight distinct, non-empty source URLs, each from a document of the tool; fewer than eight only when every such URL is listed |
| ToolRoutes.MediaOf | backend/app/api.py:154-165 | at most six media rows, all of the served version; every such row is there when the version has at most six |
| ToolRoutes.GetTool | backend/app/api.py:127-204 | an error iff the tool does not exist (404) or a given user id is rejected by the `::uuid` cast; otherwise the tool's name, status and URL, its document and update counts, its sources, the version linked most recently for the user (else the latest), and that version's one-pager and media |
| ToolRoutes.Watchers | backend/app/api.py:487 | a user is listed iff they watch the tool |
| ToolRoutes.Watched | backend/app/api.py:432-458 | afterwards the (user, tool) pair is on the watchlist iff watching was asked for; every other pair is unchanged |
| ToolRoutes.WatchedIdempotent | backend/app/api.py:432-458 | repeating the update changes nothing; watching then unwatching removes the pair; watching a watched tool is a no-op |
| ToolRoutes.UpdateWatchlist | backend/app/api.py:424-459 | 401 iff the user is missing; with a uuid user id, and for watching an existing tool, exactly that pair of the watchlist changes; otherwise the statement raises and the legacy fallback sets or clears the tool's global watchlist flag (no row for a missing tool); the store stays valid |
| ToolRoutes.LegacyFlag | backend/app/api.py:439-458 | the tool's global watchlist flag set to the requested value; no other tool and no other field changes; a missing tool changes nothing |
| ToolRoutes.Unlinked | backend/app/api.py:489-499 | the users still to link are a subset of the watchers |
| ToolRoutes.LinkWatchers | backend/app/api.py:487-499 | only user-version links are added, never removed; afterwards every watcher has a link to the version, and the count returned is the number of watchers who had none |
| ToolRoutes.LinkOne | backend/app/api.py:490-498 | linking one more watcher keeps the added rows for the watchers done so far, adds one exactly when that watcher had no link, and keeps the store valid |
| ToolRoutes.AddedNotOwn | backend/app/api.py:490-498 | rows added for other users do not change whether a given user is linked |
| ToolRoutes.SubsetSize | backend/app/api.py:499 | a subset is no larger than its superset, so the linked count never exceeds the watchers |
| ToolRoutes.RefreshSingleTool | backend/app/api.py:468-500 | 404 and no write for a missing tool; at most one tool processed; after a processed refresh every watcher is linked to the latest version and the linked count is at most the watchers |
| ToolRoutes.WatchedTools | backend/app/api.py:508-517 | a tool is selected iff it exists and someone watches it |
| ToolRoutes.TopIds | backend/app/api.py:508-517 | the min(limit, n) largest ids in strictly descending order, and every id left out is smaller than every id taken |
| ToolRoutes.RefreshWatchlist | backend/app/api.py:503-543 | never more processed tools than the limit or the watched tools; nothing is reported skipped; the store stays valid |
| ToolRoutes.UnlinkUser | backend/app/api.py:577-588 | exactly the user's links to versions of the tool are removed; every other table is unchanged |
| ToolRoutes.VersionIdsOf | backend/app/api.py:590-591 | the ids are exactly the versions of the tool |
| ToolRoutes.WithoutTool | backend/app/api.py:590-591 | the tool, its versions, documents, aliases, watchlist rows and the links to its versions are gone; every other row stays |
| ToolRoutes.WithoutToolValid | backend/app/api.py:590-591 | dropping one tool's versions keeps the version table valid |
| ToolRoutes.HighestIn | backend/app/api.py:603-606 | none iff the tool has no version left; otherwise a version of the tool with the highest number |
| ToolRoutes.PromotedIsLatest | backend/app/api.py:601-615 | promoting the highest remaining version makes it the tool's latest, and none remains latest when no version is left |
| ToolRoutes.WithoutLatestSynced | backend/app/api.py:593-618 | after deleting the latest version the table stays valid, no link, snapshot row or media refers to it, and the tool's one-pager is that of the new latest (empty when none) |
| ToolRoutes.DeleteLatestVersion | backend/app/api.py:546-621 | a user id the `::uuid` cast rejects fails with nothing changed; with a valid user: only their links go when others are linked, else the whole tool goes; without one: 404 iff there is no latest version, else that version is deleted and the next highest promoted; the store stays valid |
| ToolRoutes.DeleteVersion | backend/app/api.py:600-618 | the latest version and its links, snapshot rows and media are gone, the highest remaining version is the new latest, the tool's one-pager is that version's (empty when none remains), and the returned id is the new latest; the store stays valid |
| IngestStream.Body | backend/app/api.py:322-335 | the events before the final one are a prefix of the trace, one shorter |
| IngestStream.TraceEvents | backend/app/api.py:322-335 | in a trace only the last event is "done"; an error event is the one before it; the i-th start event opens node i/2 of the fixed order; the run completed iff no error was reported |
| IngestStream.Stream | backend/app/api.py:298-337 | 400 and no write iff neither URL nor name is given; otherwise a well-formed trace, stopping at the first failing node; "done" repeats the tool and status of the last finish event, the status defaulting to "pending_research", names no tool exactly when resolving failed and otherwise a tool that exists; a completed run leaves the store as the graph run does |
| Chat.Prefix | backend/app/api.py:98-99 | the first min(n, length) items of the list |
| Chat.RagLimit | backend/app/api.py:43-50 | 4 or 8 by default; a requested value is used iff it is within 0..12 and clamped into that range otherwise |
| Chat.CitationCap | backend/app/api.py:99 | between 2 and 8: the limit itself inside that range, 2 below it, 8 above it |
| Chat.Snippets | backend/app/api.py:98 | min(k, rows) snippets, each a prefix of its row's text of at most 500 characters |
| Chat.Citations | backend/app/api.py:99 | min(cap, rows) citations, each with its row's source URL and a prefix of its text |
| Chat.CitationBounds | backend/app/api.py:43-123 | a chat never returns more than eight citations nor more than the retrieved rows, and the final cut of the response removes none of them |
| Chat.AtLeastTwoCitations | backend/app/api.py:99 | with two or more rows retrieved there are always at least two citations, even when the limit is 0 or 1 |
| Chat.SnippetBounds | backend/app/api.py:43-98 | at most twelve snippets reach the prompt, and none when the limit is 0 |
| Telegram.WebLinkForTool | backend/app/telegram.py:17-27 | empty iff no base URL is configured; otherwise the base, then exactly one "/", then "?tool=" and the id |
| Telegram.SliceIndex | backend/app/telegram.py:46 | a Python slice bound clipped into 0..n, unchanged when already inside |
| Telegram.PySlice | backend/app/telegram.py:46 | Python slicing: the substring when the bounds are in order and in range, and always a piece of the text |
| Telegram.FirstUrlEntity | backend/app/telegram.py:39-49 | the index of the first "url" entity, or none iff there is none |
| Telegram.FirstToken | backend/app/telegram.py:51-52 | the first whitespace-separated word of a text starting with "http": a prefix of it that starts with "http" |
| Telegram.EntityUrl | backend/app/telegram.py:40-49 | a URL iff the text is non-empty and a "url" entity exists, and it is a piece of the text |
| Telegram.UrlInText | backend/app/telegram.py:39-53 | the URL found is a piece of the text; without one the text does not start with "http"; without entities a text starting with "http" yields its first word |
| Telegram.ExtractTextAndUrl | backend/app/telegram.py:32-53 | the text is the stripped text (or caption) and the URL is that of the entity rule, else of the word rule |
| Telegram.StartToken | backend/app/telegram.py:88-92 | a token iff "/start" is followed by whitespace |
| Telegram.Redeem | backend/app/telegram.py:93-127 | an unknown token acknowledges, a used one is refused, an expired one too; a valid one is marked used and links the chat to the token's user, changing nothing else |
| Telegram.RedeemAtMostOnce | backend/app/telegram.py:100-123 | once redeemed, every later redemption of the token is refused as used and writes nothing |
| Telegram.LinkedUser | backend/app/telegram.py:215-216 | the chat's linked user when it has a non-empty one, else none |
| Telegram.Webhook | backend/app/telegram.py:73-244 | 403 iff the secret is missing or wrong; only a successful /start redemption writes; no message and no chat are reported; /start, /help and text messages get their own replies |
| Client.Or | web/src/api/client.ts:138 | JavaScript `||`: the value when it is truthy, else the default |
| Client.PriceText | web/src/api/client.ts:164 | a string price is kept and null becomes the empty string |
| Client.SiteOf | web/src/api/client.ts:143 | the last two dot-separated labels of the hostname, a suffix of it; a dotless hostname is kept |
| Client.JoinSplit | web/src/api/client.ts:143 | splitting on a character and joining with it gives the string back |
| Client.SiteIdempotent | web/src/api/client.ts:143 | taking the site of a site changes nothing |
| Client.ToolHost | web/src/api/client.ts:139-147 | empty for a missing or empty URL or one that does not parse; otherwise a suffix of the hostname of at most two labels |
| Client.CardHost | web/src/api/client.ts:206-213 | empty when the URL does not parse; otherwise a suffix of the hostname of at most two labels |
| Client.Capitalize | web/src/api/client.ts:150 | the same letters, the first upper-cased, the rest unchanged |
| Client.DisplayName | web/src/api/client.ts:148-150 | never empty; a name not starting with "http" is kept; else the host with its first letter capitalised; else the name (detail view only) or "Unknown" |
| Client.Icon | web/src/api/client.ts:151 | the fallback icon iff there is no host; otherwise the favicon URL with exactly the host inside |
| Client.Pricing | web/src/api/client.ts:161-166 | one verified tier per key of a pricing object (or index of an array), none otherwise |
| Client.PricingRoundTrip | web/src/api/client.ts:161-166 | tiers built from a string-valued pricing object give that object back |
| Client.TiersRoundTrip | web/src/api/client.ts:161-166 | verified tiers turned into an object and back are unchanged |
| Client.HighlightOf | web/src/api/client.ts:191-198 | fails iff the entry is null; otherwise it keeps platform and URL, has a truthy author iff author or handle is truthy, and truthy metrics |
| Client.Highlights | web/src/api/client.ts:191 | fails iff some entry is null; otherwise one highlight per media item, in order |
| Client.MapTool | web/src/api/client.ts:137-200 | fails iff a media item is null; otherwise the id, display name, icon, status mapping, URL, pricing, tech stack and sources as the one-pager gives them; each of the seven list fields (features, how-to-use, use cases, user feedback, integrations, recent updates, competitors) is the one-pager's array or [] when that is not an array; the highlights are the mapped media items |
| Client.CardStatus | web/src/api/client.ts:204-222 | "updated" iff watched with updates, else "new" iff partially verified, else "default" |
| Client.Description | web/src/api/client.ts:220 | a prefix of the overview of at most 180 characters: all of it when short, exactly 180 otherwise, empty when absent |
| Client.MapListItem | web/src/api/client.ts:203-234 | the card's id, watch flag, name, icon, status and description follow the rules above; its overview starts with the description; its lists are empty |
| Client.CardMatchesDetail | web/src/api/client.ts:137-234 | for a non-empty URL the card and the detail view show the same icon, and the same name except for an "http" name without a host |
| AnonId.UuidCaseInsensitive | web/src/lib/supabase.ts:21 | the UUID v4 test ignores letter case |
| AnonId.Nibble | web/src/lib/supabase.ts:33-35 | a hex digit value below 16, between 8 and 11 for the "y" slot |
| AnonId.FillShape | web/src/lib/supabase.ts:32-36 | the filled template has the template's length, a lower-case hex digit in each "x" slot, one of 8, 9, a, b in the "y" slot and the template's other characters elsewhere |
| AnonId.TemplateSlots | web/src/lib/supabase.ts:32 | the template has 31 random slots |
| AnonId.TemplateIsUuidV4 | web/src/lib/supabase.ts:30-37 | every fill of the template passes the UUID v4 test, with version "4" and a variant of 8, 9, a or b |
| AnonId.Browser.constructor | web/src/lib/supabase.ts:14-16 | the browser starts with the given local storage |
| AnonId.Browser.StoredId | web/src/lib/supabase.ts:14-16 | the stored id iff the USER_ID key is present |
| AnonId.Browser.SetUserIdLocal | web/src/lib/supabase.ts:6-12 | a non-empty id is stored under USER_ID; otherwise the key is removed; nothing else changes |
| AnonId.Browser.GetUserIdLocal | web/src/lib/supabase.ts:14-16 | the value under USER_ID, none iff absent |
| AnonId.Browser.EnsureAnonymousUserId | web/src/lib/supabase.ts:18-42 | a stored valid UUID is returned untouched; otherwise the browser's UUID, else the filled template, is stored and returned; the result is never empty and is a UUID v4 unless the browser's own UUID was malformed |

## Left out
- Foreign services are parameters, not models: the chat and embedding models, web search, page fetching and HTML-to-text cleanup, the YouTube transcript service, JSON decoding of model replies and the text splitter (backend/app/chunk.py is not part of this model). A `None` or `Err` from one of them stands for a call that raised.
- The clock is the integer `now` (seconds), and random draws are inputs: the link tokens, `crypto.randomUUID` and the `Math.random` nibbles.
- SQL, the connection pool and transactions are replaced by in-memory tables changed one statement at a time. The 503 returned when no pool exists and every race between concurrent runs are not modelled.
- The schema's foreign-key cascades are written out where the code relies on them: deleting a version also removes its user links, snapshot rows and media, and deleting a tool also removes its versions, documents, aliases and watchlist rows.
- Rows keyed by a random UUID have no meaningful order. `ORDER BY id DESC` and `DISTINCT` without `ORDER BY` return rows in table order, so `ToolRoutes.SourcesOf` and `ToolRoutes.MediaOf` pin down which rows are returned but not a database's order. Media are ordered by newest insertion rather than by `published_at`.
- Case folding, `\w`, `\s` and `\d` are ASCII only: Python's `str.lower` and JavaScript's `toUpperCase` on non-ASCII letters, and UTF-16 string slicing, are not modelled.
- URL parsing keeps the scheme, host, path, query and fragment split but leaves out IPv6 brackets, percent-decoding and the percent-encoding of `urlencode`. In the web client, the WHATWG URL parser is the parameter `hostnameOf`.
- The view count behind the augmentation score is the input `viewsOf`, an unbounded count; only the bonus derived from it is capped at 3. The pattern on backend/app/flow.py:521 is a raw string with doubled backslashes, so it needs a literal backslash between the number and "views"/"likes"; ordinary content such as "1,200 views" gives 0 views. The pattern itself is not re-derived, so the model admits view counts the program practically never extracts.
- Floating-point arithmetic in scores and similarities is `real`. Among equally scored MMR candidates the choice is left open, since Python's set iteration order decides it.
- The retry waits in backend/app/scrape.py are left out; only the three-attempt bound and the attempt order are kept.
- The Telegram photo and OCR path (backend/app/telegram.py:133-191), outgoing messages and background tasks are not modelled. Replies are returned as values.
- ToolRoutes.GetTool: the version's one-pager always replaces the tool's. The database hands it back as JSON text, which is never empty, so the truthiness test on backend/app/api.py:170 always passes. The parsing of that text into an object is left out.
- ToolRoutes.UpdateWatchlist: a user id counts as a uuid (`Store.IsUuidText`, also used by `ToolRoutes.GetTool`, `ToolRoutes.DeleteLatestVersion` and `WriteNode.LinkRows`) only in the hyphenated 8-4-4-4-12 hexadecimal spelling. PostgreSQL also accepts braces and ungrouped digits, which the model treats as rejected. Tool ids are always well-formed here, so a malformed tool id, which makes the fallback raise too, is not modelled.
- WriteNode.WriteTool: media rows are always inserted with the version-scoped schema. The tool-scoped fallback insert of backend/app/flow.py:437-459, which runs only when that insert raises (a database without `tool_version_id`), is not modelled.
- ToolRoutes.RefreshWatchlist: it states the count bounds and that the store stays valid, but not which tools were refreshed. Each refresh runs the whole ingestion graph, whose effect the `Flow` members state.
- Flow.RunGraph: it requires the skip flag to be unset on entry, as every caller passes a fresh state.
- Telegram.ExtractTextAndUrl: an entity's offset and length are given as already converted, `None` where `int(...)` would raise, and such an entity is skipped as the `continue` does. Which raw values make `int` raise is not modelled.
- Json.Repr: Python's `repr` of a string is always single-quoted here. Python switches to double quotes when the text holds a single quote and no double quote, and it escapes backslashes, quotes and control characters; neither is modelled. JSON numbers are integers, so float formatting is left out as well.
- Client.MapTool: JavaScript `Object.keys` lists integer-like keys first and drops duplicate keys. Here the pricing keys keep their JSON order.
- AnonId.Browser.EnsureAnonymousUserId: the id from `crypto.randomUUID` is stored without validation, as in the source, so the UUID v4 guarantee assumes a well-formed id from the browser.
- The `fetch` wrappers of web/src/api/client.ts:27-134, `list_tools` in backend/app/api.py:207-291, and the configuration and wiring modules are not part of this model.
