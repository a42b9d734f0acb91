# EchoTik product selection: a Dafny model

The system crawls TikTok-shop product listings from the EchoTik API, ranks
the crawled products, and looks each top product up on 1688.com by image.
A small FastAPI server runs crawl and analysis tasks and keeps their state in
two dictionaries. This project models the sequential logic of these parts in
Dafny and proves what they promise:

- `crawler.py`, class `EchoTikCrawler`:
  - cookie and authorization headers;
  - the bounded request retry;
  - record stripping;
  - the day's file name;
  - the merge that keeps one record per `product_id`;
  - the page loop.
- `analyse.py`:
  - price and count parsing;
  - the rank-score analysis `analyze_products`;
  - the two match policies and the run counters of `analyze_product_data` and its twin loop in `main`;
  - the 1688 search client `Alibaba1688Searcher`: token, headers, image fetch retry, signed upload, result polling and card parsing.
- `api_server.py`:
  - task ids;
  - the request handlers, modelled as methods of a class that holds `task_status` and `task_results`;
  - the crawl task's status writes.

The browser, HTTP, MD5, Base64, `json.dumps`/`json.load`, the clock, random
delays, file existence and the image-similarity measure are all parameters.
Each is a function value the caller supplies. Waits and requests are
recorded in a trace of actions, not performed. Numbers are Dafny `real`.
Python's stable `list.sort` is an insertion sort proved stable.

Modules, one per file:

| file | module | models |
|---|---|---|
| wrappers.dfy | `Wrappers` | `Option` and `Result` |
| strings.dfy | `Strings` | `in`, `split`, `join`, `strip`, `replace`, `os.path.basename` |
| numbers.dfy | `Numbers` | `float()` on digit runs, `_convert_price`, `_convert_count` |
| sorting.dfy | `Sorting` | the stable sort, `map`, slicing `[:n]` |
| ranking.dfy | `Ranking` | `analyze_products` |
| matching.dfy | `Matching` | the per-product policy loop and its counters |
| searcher.dfy | `Searcher` | `Alibaba1688Searcher` |
| crawler.dfy | `Crawler` | `EchoTikCrawler` |
| tasks.dfy | `Tasks` | the task registry and handlers of `api_server.py` |

How the model treats the analysis file:

- `run_analyze` stores the value of `analyze_data(...)` as `analysis_file`. That value is the `(excel_file, json_file)` tuple returned at analyse.py:1509.
- `os.path.exists` on a tuple raises `TypeError`, and FastAPI answers an unhandled exception with HTTP 500.
- The model keeps this behaviour: `PathValue` is either a string or a pair.
- `Tasks.AnalysedDownloads` proves that, once an analysis has succeeded, downloading the analysis file answers 500.
- `Tasks.AnalysedDeleteRefused` proves that deleting such a task answers 500. In that case the raw file is removed, but both dictionaries keep the task.

## Model

| member | source | states |
|---|---|---|
| Strings.IndexFrom | analyse.py:214 | finds the first occurrence of a substring at or after a position, or reports that there is none |
| Strings.ContainsIff | analyse.py:214 | `p in s` holds iff `p` occurs at some index of `s` |
| Strings.Split | analyse.py:217 | `str.split(c)` gives at least one part, and no part contains `c` |
| Strings.JoinSplit | crawler.py:175 | joining the parts of a split with the same separator gives back the string |
| Strings.SplitJoin | crawler.py:175 | splitting a join of separator-free parts gives back the parts |
| Strings.Basename | api_server.py:197 | `os.path.basename` is a suffix of the path with no `/`, and a `/` precedes it when it is shorter than the path |
| Strings.StripBySlice | analyse.py:391 | `strip` returns a slice of the input, and everything it cut from both ends is stripped characters |
| Strings.StripByEnds | analyse.py:391 | a non-empty `strip` result neither begins nor ends with a stripped character |
| Strings.ReplaceAll | analyse.py:273 | `replace` leaves a string without the pattern unchanged |
| Strings.ReplaceSingle | analyse.py:273 | `replace` on a string with exactly one occurrence swaps that occurrence and nothing else |
| Strings.SecondPart | analyse.py:391 | `split(sep)[1]` exists iff `sep` occurs, and it contains no `sep` |
| Strings.SecondPartSingle | analyse.py:391 | with one occurrence of `sep`, `split(sep)[1]` is the text after it |
| Numbers.ParseFloat | analyse.py:610 | `float` on a run of digits and dots is never negative |
| Numbers.ParseFloatAccepts | analyse.py:621 | `float` accepts a digit-and-dot run iff it has a digit and at most one dot, so `"1.2.3"` raises |
| Numbers.ParseDecimal | analyse.py:621 | `float("w.f")` is the decimal value of the digit strings `w` and `f` |
| Numbers.FirstRunStart | analyse.py:619 | the leftmost position of a digit or dot, or none |
| Numbers.RunEnd | analyse.py:619 | `[\d.]+` is greedy: the run ends at the first character that is neither a digit nor a dot |
| Numbers.FirstPriceStart | analyse.py:608 | the leftmost `RM` followed by a digit or dot, or none |
| Numbers.UnitMultiplier | analyse.py:618-624 | the count multiplier is 1, 1000 or 1000000 |
| Numbers.ConvertPrice | analyse.py:603-611 | blank, `'N/A'` or no `RM`-run gives 0.0; a parsed price is never negative |
| Numbers.ConvertCount | analyse.py:613-626 | blank, `'N/A'` or no digit run gives 0.0; a parsed count is never negative |
| Numbers.CountOfShape | analyse.py:619-625 | a count is `float` of the leftmost run, times 1000 or 1000000 when `K` or `M` immediately follows, and a `float` error propagates |
| Numbers.CountStart | analyse.py:619 | the count's run starts right after a prefix without digits or dots |
| Numbers.RunOfShape | analyse.py:619 | the greedy run is exactly the digit-and-dot block |
| Numbers.PriceOfShape | analyse.py:608-610 | a price is `float` of the run after the first `RM` |
| Numbers.PriceStart | analyse.py:608 | the price's run starts at the first `RM` |
| Numbers.PriceExample | analyse.py:603-611 | `"RM10.00"` gives 10.0 |
| Numbers.KiloExample | analyse.py:613-626 | `"39.4K"` gives 39400.0 |
| Numbers.MegaExample | analyse.py:613-626 | `"2.3M"` gives 2300000.0 |
| Numbers.MalformedRunExample | analyse.py:619-621 | `"1.2.3"` raises |
| Sorting.InsertPermutes | analyse.py:694 | one insertion step of the sort adds exactly the inserted element |
| Sorting.InsertOrdered | analyse.py:694 | inserting into a sorted list keeps it sorted |
| Sorting.SortBy | analyse.py:694 | `list.sort` returns a permutation of the list, ordered by key, ascending or, with `reverse=True`, descending |
| Sorting.SortByStable | analyse.py:694-699 | `list.sort` is stable: the elements with one key value keep their relative order, also with `reverse=True` |
| Sorting.OrderedBefore | analyse.py:724 | in a sorted list, a strictly better key comes strictly earlier |
| Sorting.Take | analyse.py:739 | the slice `[:k]` is a prefix of length `min(k, n)`, or `n + k` for negative `k` |
| Ranking.Qualify | analyse.py:663-677 | a product qualifies iff its price, sales and influencers parse, the price lies in the range, and both counts are positive |
| Ranking.Valid | analyse.py:663-684 | the kept entries are exactly the qualifying products, in input order |
| Ranking.ValidSnoc | analyse.py:663-679 | the filter extends one product at a time, appending a product iff it is eligible |
| Ranking.FilterProducts | analyse.py:659-684 | the filter loop returns the kept entries, and kept plus skipped equals the input length |
| Ranking.AssignSalesScores | analyse.py:695-696 | position `i` of the sales order gets `100 - i*100/n` |
| Ranking.AssignInfluencerScores | analyse.py:700-701 | position `i` of the influencer order gets `100 - i*100/n` |
| Ranking.BuildRows | analyse.py:704-721 | every entry becomes one weighted result row, in order |
| Ranking.AnalyzeProducts | analyse.py:643-739 | returns `[:top_n]` of the ranked eligible products and counts the skipped ones |
| Ranking.LadderProperties | analyse.py:690-701 | the top score is 100, scores strictly decrease with position, and all lie in `[100/n, 100]` |
| Ranking.TopScoreOnce | analyse.py:696 | exactly one position scores 100 |
| Ranking.EmptyValidIff | analyse.py:686-688 | nothing is kept iff no product is eligible, and then `[]` comes before the `100/n` division |
| Ranking.Ranked | analyse.py:686-724 | the ranking is empty iff no product is eligible, and otherwise it has one row per kept entry |
| Ranking.RowOrigin | analyse.py:694-721 | every row is one entry with the score of its sales position and of its influencer position |
| Ranking.Rank | analyse.py:690-724 | one row per kept entry, non-increasing in final score, and every row's final score is `sales_score*sales_weight + influencer_score*influencer_weight` |
| Ranking.SortedRowsWeighted | analyse.py:706-724 | sorting the rows keeps every row's weighted-sum identity |
| Ranking.FinalizeAllWeighted | analyse.py:704-721 | every built row carries the weighted sum of its two scores |
| Ranking.RankPermutesValid | analyse.py:694-724 | the result rows are a permutation of the kept products |
| Ranking.RankScoresAreLadders | analyse.py:694-701 | the sales scores, and the influencer scores, are each the full ladder `100 - i*100/n`, with 100 given once |
| Ranking.RankScoreBounds | analyse.py:690-701 | every score lies in `[100/n, 100]` |
| Ranking.SalesRankOf | analyse.py:694-696 | a row's sales score is the ladder value of a position in the sales order that holds its sales |
| Ranking.InfluencerRankOf | analyse.py:699-701 | a row's influencer score is the ladder value of a position in the influencer order that holds its influencer count |
| Ranking.HigherSalesScoresHigher | analyse.py:694-696 | strictly higher sales give a strictly higher sales score |
| Ranking.FewerInfluencersScoresHigher | analyse.py:699-701 | strictly fewer influencers give a strictly higher influencer score |
| Ranking.EligibleProducts | analyse.py:663-677 | the eligible products are exactly the input products that qualify |
| Ranking.ValidProducts | analyse.py:663-677 | the kept entries carry the eligible products, in input order |
| Ranking.RankedRowsAreEligibleProducts | analyse.py:663-724 | the ranking is a permutation of the eligible input products |
| Ranking.ValidCarriesCounts | analyse.py:665-676 | each kept entry carries its product's parsed sales and influencer counts |
| Ranking.TiesKeepPriorOrder | analyse.py:694-701 | the sort keeps the entries with equal sales in input order, and those with equal influencer counts in sales order |
| Ranking.ClassScoresDecrease | analyse.py:695-701 | along a ladder-scored order, the entries sharing a key value have strictly decreasing scores |
| Ranking.SalesLadderClass | analyse.py:695-696 | the sales scoring pass changes only sales scores, and within one sales value they strictly decrease |
| Ranking.InfluencerLadderClass | analyse.py:700-701 | the influencer scoring pass changes only influencer scores, and within one influencer count they strictly decrease |
| Ranking.SalesTiesByInputOrder | analyse.py:694-696 | products with equal sales keep their input order, and an earlier one gets a strictly higher sales score |
| Ranking.InfluencerTiesBySalesOrder | analyse.py:699-701 | products with equal influencer counts keep their sales order, and an earlier one gets a strictly higher influencer score |
| Matching.SchemeOne | analyse.py:1428 | scheme one keeps the first `min(3, len)` hits, whatever their similarity |
| Matching.Scan | analyse.py:1444-1460 | the similarity scan raises iff some compared hit's similarity computation raises, and keeps at most one entry per compared hit |
| Matching.ScanKeepsSimilar | analyse.py:1444-1460 | scheme two records exactly the compared hits with similarity at least 0.8, in search order |
| Matching.ScanFailurePersists | analyse.py:1445-1449 | a failure on a prefix of the hits fails the whole scan |
| Matching.CollectSimilar | analyse.py:1444-1460 | the scan loop over `results[:10]` computes the scheme-two list, or fails |
| Matching.SchemeTwoSheetIsTop | analyse.py:1463-1471 | the sheet shows at most 3 similar hits, sorted by similarity descending, none less similar than a hit left out |
| Matching.Run | analyse.py:1360-1368 | the summary's total is the number of products |
| Matching.Step | analyse.py:1404-1479 | a product is skipped iff the search raises or finds nothing, abandoned iff a similarity among the first 10 hits raises; a matched product has `matches_1` its first three hits and `matches_2` its similar hits, and is validated iff at least 2 hits are similar |
| Matching.RunCounters | analyse.py:1383-1479 | `scheme2_count <= scheme1_count == len(products) <= processed_count <= total`, and every recorded product has `matches_1` |
| Matching.AnalyzeProductData | analyse.py:1383-1488 | the loop computes the run summary |
| Matching.MainLoop | analyse.py:1228-1301 | the twin loop in `main` counts the same processed products, and its validated list holds the products scheme two validates |
| Searcher.SearchHeaders | analyse.py:129-144 | the search client sets 14 request headers |
| Searcher.LastValue | analyse.py:123-126 | finds the value of the last cookie with a name, or reports that none has it |
| Searcher.SetAllLastWins | analyse.py:123-124 | setting the cookies in order leaves each name with its last value and other names untouched |
| Searcher.TokenOf | analyse.py:126 | the token is the prefix of the `_m_h5_tk` value before its first `_` |
| Searcher.Alibaba1688Searcher.constructor | analyse.py:84-91 | a new searcher has no token, no headers and no cookies |
| Searcher.Alibaba1688Searcher.InitTokenAndHeaders | analyse.py:105-150 | with a browser: sets the cookies, takes the token from the last `_m_h5_tk` cookie and sets the headers; without one it fails and nothing changes |
| Searcher.AttemptRequests | analyse.py:161-289 | each attempt makes exactly one primary GET, and a success is its last request |
| Searcher.ImageRequests | analyse.py:161-242 | an image-fetch attempt is a run of GETs with exactly one primary GET that ends at its first success, followed by a pause unless one succeeded |
| Searcher.ImageFallbackRequests | analyse.py:197-229 | when a primary GET before the last attempt answers 403, the attempt with its alternate-referer and alternate-URL GETs still has that shape |
| Searcher.DownloadRequests | analyse.py:260-289 | a download attempt, with its `cdn.echotik.shop` fallback GET, is a run of GETs with exactly one primary GET that ends at its first success, followed by a pause unless one succeeded |
| Searcher.AttemptShape | analyse.py:161-289 | every attempt has that shape |
| Searcher.RetryPrimaryBound | analyse.py:159-161 | a fetch makes at most 3 primary GETs |
| Searcher.RetrySleeps | analyse.py:232-242 | the waits are a prefix of 2 then 4 seconds, so there are at most two |
| Searcher.RetryFirstSuccess | analyse.py:161-243 | the fetch returns the body of the first successful request, and no request follows it |
| Searcher.AltImageUrlSegments | analyse.py:217-220 | the alternate URL ends with the last two segments of the original |
| Searcher.CdnRewrite | analyse.py:272-273 | the download fallback replaces the CDN host with `echotik.live/storage` |
| Searcher.SignContentParts | analyse.py:315 | the signed string is `token&timestamp&12574478&json` |
| Searcher.UploadContract | analyse.py:294-354 | the upload posts the JSON it signed; it succeeds iff the reply is 200 JSON whose `ret[0]` starts with `SUCCESS`; an empty base64 fails without a post |
| Searcher.Alibaba1688Searcher.ImageToBase64 | analyse.py:157-251 | the fetch never raises: the base64 of the first success, otherwise the fixed placeholder |
| Searcher.Alibaba1688Searcher.DownloadImage | analyse.py:253-292 | returns the body of the first success, and raises iff all 3 attempts fail |
| Searcher.Alibaba1688Searcher.RetryLoop | analyse.py:161-243 | the attempt loop computes the retry outcome |
| Searcher.Alibaba1688Searcher.TryOnce | analyse.py:161-289 | one attempt, of the image fetch or of the download |
| Searcher.Alibaba1688Searcher.TryImage | analyse.py:162-242 | one image-fetch attempt with its fallbacks |
| Searcher.Alibaba1688Searcher.TryDownload | analyse.py:261-289 | one download attempt with its fallback |
| Searcher.Alibaba1688Searcher.UploadImage | analyse.py:294-358 | initialises lazily only when the token or headers are missing, then uploads with the resulting token |
| Searcher.LazyEnd | analyse.py:522 | the lazy `(.*?)` stops at the first `)`, or at a quote directly before one, and never crosses a newline |
| Searcher.UrlSearch | analyse.py:521-524 | an extracted style URL contains no `)` and no newline |
| Searcher.StyleImageUrlQuoted | analyse.py:519-524 | `url("u")` in a style gives `u` |
| Searcher.FirstDetailLinkSpec | analyse.py:504-510 | the chosen link is the first non-empty `href` containing `detail.1688.com` or `dj.1688.com`, and none is chosen iff no `href` qualifies |
| Searcher.ParseCardSpec | analyse.py:499-543 | a card gives a listing iff it has a detail link, a styled image with a non-empty URL, a non-empty title and a price |
| Searcher.ParseCards | analyse.py:499-548 | parsing never gives more listings than cards; each listing is parsed from a card, and every card that parses gives its listing |
| Searcher.ParseCardsOrder | analyse.py:499-548 | the listings are those of the parsing cards, in card order, every one of them |
| Searcher.ParseCard | analyse.py:499-543 | a card gives a listing only with its first detail link, its styled image URL (non-empty), a non-empty title and a price; a card with all of these gives one |
| Searcher.Present | analyse.py:499-548 | the listings kept come from the cards, at most one per card, and none that parses is dropped |
| Searcher.PresentOrder | analyse.py:499-548 | the kept listings are the parsed ones at strictly increasing card positions, and every parsing position is among them |
| Searcher.TakeOrder | analyse.py:406-407 | the first `n` kept listings are at increasing positions, and every parsing position up to the last one taken is taken |
| Searcher.ParseCardsShape | analyse.py:533-539 | every parsed listing has a detail link, an image URL and a title |
| Searcher.PollStep | analyse.py:469-493 | each poll either stops with the cards found or moves on to the next poll |
| Searcher.PollShape | analyse.py:466-493 | polling makes at most 5 polls in order and stops at the first non-empty card list; it gives up only after the fifth poll fails |
| Searcher.SearchShape | analyse.py:421-561 | listings come only after an upload with an image id and a poll with cards; they are the listings of the parsing cards among the first 10, in card order, every one of them, and each is complete |
| Searcher.SearchWith | analyse.py:421-561 | a search yields at most 10 listings, starts with the upload's requests, and yields listings only after a successful upload |
| Searcher.PollFrom | analyse.py:466-493 | from poll `k` on, at most `5 - k` polls in order starting with poll `k`; cards found come from the last poll made |
| Searcher.UploadWith | analyse.py:294-354 | the upload adds at most one request, a post, to the image fetch; success needs an accepted reply to that post |
| Searcher.ImageAttempt | analyse.py:162-242 | an image-fetch attempt starts with the primary GET and makes at most 4 GETs; a fallback follows only a 403 before the last attempt; a success is the last GET's body |
| Searcher.DownloadAttempt | analyse.py:261-289 | a download attempt starts with the primary GET without referer and makes at most 3 GETs; the CDN fallback follows only a failed GET of a CDN URL and requests the rewritten URL; a success is the last GET's body |
| Searcher.Alibaba1688Searcher.SearchByImage | analyse.py:421-561 | never raises: without a token and without a browser to initialise from it yields `[]` and changes nothing; otherwise it initialises the cookies, token and headers when needed and yields the search with the resulting token, in which every failure yields `[]` |
| Searcher.Alibaba1688Searcher.PollResults | analyse.py:466-493 | the polling loop computes the polled cards |
| Searcher.Alibaba1688Searcher.ParseResults | analyse.py:499-548 | the card loop computes the parsed listings |
| Searcher.Alibaba1688Searcher.SearchSimilarProducts | analyse.py:360-419 | a page that fails to load yields `[]`, and otherwise the listings of the first 10 cards that have a detail link and an image element |
| Searcher.FirstSoupLink | analyse.py:379-382 | the link is the first `href` containing `detail.1688.com`, and there is none iff no `href` contains it |
| Searcher.StrippedText | analyse.py:393-398 | an element's stripped text, or `""` without the element: a substring of the text whose ends are not whitespace |
| Searcher.SoupCard | analyse.py:376-404 | a card gives a listing iff it has a detail link and an image element whose style, if any, yields a URL; the listing holds that link and the stripped title and price; an unstyled image gives `""` |
| Searcher.SoupCards | analyse.py:376-404 | each listing comes from a card that parses, and every card that parses gives its listing |
| Searcher.SoupSearchOrder | analyse.py:376-409 | the 10 listings returned are those of the first parsing cards, in card order, with every parsing card up to the last one taken |
| Searcher.Alibaba1688Searcher.FirstPresent | analyse.py:376-409 | collects the complete cards in order and stops at the cap |
| Searcher.SoupImageUrlQuoted | analyse.py:388-391 | a `background-image` style `url("u")` gives `u` |
| Searcher.SoupImageUrlAfter | analyse.py:390-391 | the soup image URL is the text after `url(` up to `)`, with double quotes stripped |
| Searcher.StripQuotes | analyse.py:391 | `strip('"')` removes the surrounding quotes of a quoted URL |
| Crawler.LookupSpec | crawler.py:113 | `dict.get` finds the first pair with the key, or reports that there is none |
| Crawler.RunFrom | crawler.py:73 | `[^;]+` takes the text up to the next `;` or the end |
| Crawler.TokenFrom | crawler.py:73 | finds the first `token=` followed by a non-`;` character, or reports that there is none |
| Crawler.Token | crawler.py:73-75 | a token is found iff some `token=` is followed by a non-`;` character, and it is non-empty and has no `;` |
| Crawler.TokenSpec | crawler.py:73-75 | the token is the text after the first such match, up to the next `;` or the end |
| Crawler.EchoTikCrawler.InitialParams | crawler.py:53-66 | the default parameters set neither a category nor a keyword |
| Crawler.EchoTikCrawler.constructor | crawler.py:11-66 | a new crawler has the fixed headers, the default parameters and the given data directory |
| Crawler.EchoTikCrawler.UpdateCookie | crawler.py:68-76 | a falsy cookie changes nothing; otherwise `Cookie` is set, `authorization` becomes `Bearer <token>` when a token is found, and no other header changes |
| Crawler.AttemptRequests | crawler.py:82-99 | each attempt makes exactly one request |
| Crawler.RequestCount | crawler.py:82-143 | a request makes at most 3 attempts, numbered in order |
| Crawler.Verdict | crawler.py:107-130 | one reply ends the retries with its payload only when it is a 200 JSON object with a non-empty `data` list, and escapes only when it is a 200 JSON value that is not an object |
| Crawler.RequestFrom | crawler.py:82-143 | from attempt `k` on: none left gives up with no requests; otherwise a pause then request `k` come first, and at most 3 events per remaining attempt |
| Crawler.RequestContract | crawler.py:107-146 | the payload returned is a 200 reply whose `data` is a non-empty list; `None` comes back iff every attempt failed |
| Crawler.EchoTikCrawler.MakeRequest | crawler.py:78-146 | the retry loop computes the request outcome and leaves the headers unchanged, since `update_cookie()` without a cookie changes nothing |
| Crawler.StripSpec | crawler.py:152-165 | a stripped record keeps exactly the pairs whose key is not `seller`, `sale_props`, `skus` or `sales_trending` |
| Crawler.SimplifiedSpec | crawler.py:152-165 | stripping succeeds iff every record is an object, and strips each record in place |
| Crawler.SimplifiedPrefix | crawler.py:152-165 | stripping fails once some earlier record fails |
| Crawler.EchoTikCrawler.StripRecord | crawler.py:155-163 | the key loop strips one record |
| Crawler.EchoTikCrawler.SimplifyAll | crawler.py:152-165 | the record loop strips all records, or fails |
| Crawler.NameParts | crawler.py:168-173 | the name parts are `products`, `cat<id>` iff a category is set, `kw<kw>` iff a keyword is set, and the date, in that order |
| Crawler.FileNameParts | crawler.py:168-175 | the file name ends with `.json`, and the rest splits on `_` into `products`, `cat<id>` if set, `kw<kw>` if set, and the date |
| Crawler.KeywordFileName | crawler.py:168-175 | a keyword-only crawl writes `products_kw<kw>_<date>.json` |
| Crawler.CategoryFileName | crawler.py:168-175 | a category crawl's file starts with `products_cat<id>_` |
| Crawler.KeyedSpec | crawler.py:187 | keying succeeds iff every record has a `product_id`, and pairs each record with it in order |
| Crawler.LastFor | crawler.py:187 | finds the value of the last pair with a key |
| Crawler.PutSpec | crawler.py:187 | a dict assignment overwrites in place when the key is present, and appends otherwise |
| Crawler.BuildKeys | crawler.py:187 | the merged dict has each `product_id` exactly once, and exactly the input ids |
| Crawler.BuildValues | crawler.py:187 | each merged value is the last record with that id |
| Crawler.BuildOrder | crawler.py:187-188 | the merged keys follow the order of first occurrence |
| Crawler.IncomingWins | crawler.py:187 | a new record beats an existing one with the same id |
| Crawler.Values | crawler.py:188 | `list(d.values())` is the values in key order |
| Crawler.Merge | crawler.py:187-188 | the merge fails iff some record has no `product_id`, and keeps only records it was given |
| Crawler.Saved | crawler.py:148-195 | a saved file holds only records from the readable existing file or the stripped new ones, and saving needs both |
| Crawler.EchoTikCrawler.SaveData | crawler.py:148-195 | the day's file becomes the merge of its readable records and the stripped new ones, and an unreadable file counts as empty; when saving raises, no file changes |
| Crawler.LoopAdvance | crawler.py:205-244 | one page either ends the loop or advances to the next page |
| Crawler.LoopPages | crawler.py:201-244 | the loop visits consecutive pages from the start page |
| Crawler.LoopMoves | crawler.py:235-244 | every page before the last one allowed the loop to continue |
| Crawler.LoopSaved | crawler.py:224-225 | the saved count grows by the yields of every page but the last, plus the last page's yield exactly when that page was saved |
| Crawler.LoopSavedStop | crawler.py:224-244 | the same for a loop that stops at its first page |
| Crawler.LoopGrows | crawler.py:224-225 | the saved count never shrinks |
| Crawler.CrawlNext | crawler.py:208-225 | a saved page adds its page number and its length |
| Crawler.CrawlPages | crawler.py:201-244 | a crawl requests consecutive pages in increasing order from `start_page` |
| Crawler.CrawlMoves | crawler.py:229-244 | the crawl moves on only below both `end_page` and `last_page` |
| Crawler.CrawlSaved | crawler.py:202-225 | `saved_count` is the sum of the lengths of every page but the last, plus the last page's length exactly when that page was saved |
| Crawler.CrawlLoopSaved | crawler.py:202-225 | the same for the loop the crawl runs |
| Crawler.CrawlFrom | crawler.py:201-244 | a crawl requests at least its start page, extends the pages already run, and never lowers the saved count |
| Crawler.NoMetaStops | crawler.py:229-242 | a reply without `meta` stops the crawl after that page |
| Crawler.EchoTikCrawler.Crawl | crawler.py:197-254 | the page loop computes the crawl run and changes neither headers nor parameters |
| Crawler.EchoTikCrawler.CrawlTurn | crawler.py:205-244 | one loop turn advances the crawl run |
| Crawler.EchoTikCrawler.CrawlPage | crawler.py:208-225 | one page: request it, save it, and decide whether to go on |
| Crawler.Lower | crawler.py:131 | `lower()` keeps the length |
| Tasks.TaskId | api_server.py:77-84 | the id is `cat_<id>_<ts>` iff a category is set, `kw_<kw>_<ts>` iff only a keyword is set, else `task_<ts>`, and the category or keyword can be read back |
| Tasks.TaskServer.constructor | api_server.py:29-32 | the registry starts with both dictionaries empty |
| Tasks.TaskServer.StartCrawl | api_server.py:140-157 | 400 iff neither a category nor a keyword is given; otherwise `pending` with the generated id |
| Tasks.StatusOf | api_server.py:159-181 | 404 iff the id is in neither dictionary; the result's status and message win over the status's |
| Tasks.TaskServer.GetTaskStatus | api_server.py:159-181 | answers as `StatusOf` on the two dictionaries and changes neither |
| Tasks.RawDownload | api_server.py:198-202 | the raw file is served iff `file_path` is set and exists and `file_name` is set; otherwise 404, or 500 for a missing `file_name` |
| Tasks.AnalysisDownload | api_server.py:193-197 | a string `analysis_file` that exists is served under its basename; a pair answers 500; otherwise 404 |
| Tasks.DownloadOf | api_server.py:183-208 | 404 for an unknown id; `analysis` selects the analysis file, any other type the raw file |
| Tasks.TaskServer.DownloadFile | api_server.py:183-208 | answers as `DownloadOf` on the results dictionary |
| Tasks.Removals | api_server.py:216-231 | deletion removes at most two existing files; the raw file is removed iff `file_path` is set and exists |
| Tasks.DeleteReply | api_server.py:210-242 | 404 iff the id is in neither dictionary; 500 when its `analysis_file` is a pair |
| Tasks.TaskServer.DeleteTask | api_server.py:210-242 | on success the id is in neither dictionary and everything else is unchanged; on refusal both dictionaries are unchanged |
| Tasks.DeleteForgets | api_server.py:233-237 | after a delete the id answers 404 and every other id answers as before |
| Tasks.AnalyzeGuard | api_server.py:244-255 | 404 for an unknown id, 400 unless `completed`, 404 unless `file_path` is set and exists |
| Tasks.TaskServer.StartAnalyze | api_server.py:244-284 | an accepted task becomes `analyzing` and nothing else changes; a refusal changes nothing |
| Tasks.AnalyzingRefusesSecond | api_server.py:247-259 | a task being analysed reads `analyzing` and refuses a second analysis with 400 |
| Tasks.Analyzed | api_server.py:263-280 | success gives `completed` with the analysis files; failure gives `failed` with the error text; other fields are kept |
| Tasks.TaskServer.RunAnalyze | api_server.py:263-280 | the task's result entry takes the analysis outcome, and nothing else changes |
| Tasks.AnalysedDownloads | api_server.py:193-202 | after an analysis the raw download is unchanged; after a successful one the analysis download answers 500 |
| Tasks.AnalysedDeleteRefused | api_server.py:226-231 | deleting a successfully analysed task answers 500 |
| Tasks.CrawlParamsSet | api_server.py:98-101 | the category or keyword parameter is set iff the argument is truthy, and it holds that value |
| Tasks.LatestFile | api_server.py:109-112 | finds a file with the prefix and maximal creation time, or reports that no file has the prefix |
| Tasks.ConfiguredCrawler | api_server.py:93-101 | a fresh crawler with the request's authorization, its cookie when not empty, and the category and keyword when truthy |
| Tasks.CrawledFiles | api_server.py:93-106 | the crawler, with the task's parameters, crawls from page 1; it runs with the task's authorization, and its cookie when not empty |
| Tasks.CrawlResult | api_server.py:113-127 | a file found gives `completed` with `data/<name>`; none gives `failed` with the error text |
| Tasks.TaskServer.CrawlData | api_server.py:86-127 | the status becomes `running`, the crawl runs, and the result records the newest file with the intended prefix |
| Tasks.TaskServer.CrawlDataAsWritten | api_server.py:86-127 | the same with the written prefix: a keyword-only task with no file starting with `products_kw_` ends `failed` with the error text |
| Tasks.TaskServer.CrawlWith | api_server.py:86-127 | the status becomes `running`, the crawl runs, and the result records the newest file with the given prefix, or fails when there is none |
| Tasks.WrittenPrefixMissesKeywordFile | api_server.py:109-111 | the written prefix misses the keyword crawl's own file |
| Tasks.WrittenPrefixFailsKeywordCrawl | api_server.py:109-120 | so a keyword-only crawl, even one that wrote its file, finds no file and ends `failed` while no file starts with `products_kw_` |
| Tasks.IntendedPrefixMatchesFile | api_server.py:109-111 | the corrected prefix matches the crawl's own file, and agrees with the written one for category crawls |
| Tasks.CrawlWithFileCompletes | api_server.py:106-120 | a crawl that wrote its file completes |

## Left out

- Browser automation (Selenium), HTTP, MD5 (RFC 1321), Base64 (RFC 4648), `json.dumps` and `json.load` are function parameters. Their results are taken as given.
- `ImageMatcher.compare_images` (analyse.py:48-82) is OpenCV histogram correlation on floats. It is an uninterpreted similarity function that returns a number, or nothing when it raises.
- `time.sleep` and `random.uniform` delays are recorded as trace actions or not at all. The clock (`datetime.now()`, `time.time()`) is a parameter.
- Crawler.EchoTikCrawler.SaveData: the date in the file name is one value for the whole crawl, taken from the backend. The source calls `datetime.now()` at every save (crawler.py:173), so a crawl across midnight writes two files there and one in the model.
- The file system is a parameter:
  - the crawler's data directory is a map from file name to contents;
  - `os.path.exists` is a predicate;
  - `os.path.getctime` is a function;
  - `os.listdir` order is the arbitrary choice of `var f :| f in rest`.
- Python `round(x, 2)` in the result rows (analyse.py:717-719) is not modelled. Scores and the final sort use exact reals.
- Python floats are Dafny reals, so binary rounding of `float()` is not modelled.
- `\d` is taken as the ASCII digits, and `lower()` as ASCII lower-casing. Python also accepts other Unicode digits and letters.
- `_load_latest_data`, `_download_image`, the Excel and TXT reports, `_generate_excel_report_with_1688`, and the sheet and image cell writes are file or report I/O. They are left out.
- `load_tasks` and `save_tasks` (api_server.py:39-59) are file I/O. They are left out.
- The FastAPI routing, `BackgroundTasks` and the crawler thread are plumbing and concurrency. Handlers and background jobs are sequential methods that the caller runs in some order.
- The `except` at api_server.py:133-138 (a failure while setting up the crawler thread) is not modelled, since nothing modelled there can raise.
- Crawler.EchoTikCrawler.Crawl: the source loop has no bound. The model takes a `fuel` argument and stops after at most `fuel + 1` pages, so a crawl longer than that is not captured.
- Crawler.EchoTikCrawler.Crawl: `KeyboardInterrupt` and unexpected exceptions inside the loop (crawler.py:246-251) are not modelled. The modelled exceptions that end the crawl are a failed save, a 200 reply whose JSON is not an object (its `.get` raises), and a `meta` that is not an object.
- Crawler.LookupSpec: a JSON object is a list of pairs that may repeat a key, and a lookup takes the first pair. `json.loads` keeps the last value of a repeated key, so replies with repeated keys are not modelled faithfully.
- Tasks.CrawledFiles: the crawler's headers are returned and stated, but the modelled replies do not depend on them, so an expired cookie or authorization is not modelled.
- Searcher.Alibaba1688Searcher.UploadImage: the query parameters and URL of the upload request are not modelled. Only the signature and the posted JSON are.
- Searcher.Alibaba1688Searcher.SearchByImage: the long search URL (analyse.py:444-457) is not modelled, because the browser is an oracle.
- Printing and logging are left out everywhere.

## Findings

| source | as written | input that shows it | evidently intended | confidence | as-written member | corrected member |
|---|---|---|---|---|---|---|
| api_server.py:109-112 | a keyword-only task looks for files starting with `products_kw_`, but crawler.py:168-175 names its file `products_kw<keyword>_<date>.json` | keyword `shoes`, no category: the file `products_kwshoes_20240101.json` does not start with `products_kw_`, so `max` of an empty list raises and the task fails | look for `products_kw<keyword>_` | not executed | Tasks.WrittenPrefixFailsKeywordCrawl | Tasks.IntendedPrefixMatchesFile |
