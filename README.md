# Weverse Shop product collector: a Dafny model of `fetch_weverse_data`

`fetch_weverse_data` takes the URL of a Weverse Shop category page and
returns four things:
- the spreadsheet rows for every product in that category;
- the product thumbnails it could download;
- a file-name stem made from the page title;
- the currency code.

The run goes like this:
1. It picks the Korean or the Japanese storefront from the URL, and with it a saved browser session file.
2. It starts a headless browser and reads the artist id out of the URL.
3. It loads the category page and takes the product list from the page's pre-fetched query data (`__NEXT_DATA__`).
4. It visits each product's sale page. There it finds the sale record with the product's sale id, downloads the thumbnail, and adds either one row, or one row per option, where continuation rows leave the name, URL, image and limit cells blank.

This project models that function in Dafny. Browser, file system and network
outcomes are inputs. Everything the function decides is modelled: which
storefront, which artist, which title, which query, which rows, which images,
and when the run gives up.

Modules:

- `PyJson` (`json.dfy`): parsed JSON and the Python operations applied to it.
  - These are `.get`, `[key]`, `[0]`, iteration, truth testing and `str`.
  - An exception is the `Raised` case of `Result`. The function catches exceptions wholesale, so their kind is not kept.
- `Text` (`text.dfy`): the string operations.
  - These are substring test, `strip`, deleting the characters `\ / * ? : " < > |`, `replace`, and the last piece of `split`.
  - `Sanitize` is the file-name sanitiser built from them.
- `Site` (`site.dfy`):
  - storefront selection;
  - the `artists/(\d+)/` search with its default `"7"`;
  - the product detail URL;
  - title cleaning.
- `Queries` (`queries.dfy`): the two first-match searches over the page's query list.
  - One finds the data holding `productCards`.
  - The other finds the data whose `saleId` has the product's sale id.
- `Rows` (`rows.dfy`): how one sale record becomes rows.
  - It covers the order limit with its `"N/A"` default, the option-list fallback, the single-kind row and the option loop.
- `Scraper` (`scraper.dfy`):
  - the per-product step, the product loop and the whole run;
  - the run's world (`Env`) and its outcome (`Done` with a report, or `Aborted` with a reason).

Each loop of the function is a method, proved equal to a recursive specification function:
- `FindFirst` for both searches;
- `OptionLoop` for the option loop;
- `CollectRows` for the product loop.

Lemmas then state what those functions promise.

The straight-line parts of the function are methods as well. Each is proved
equal to its function and calls one of the loop methods, so the run from
`FetchWeverseData` down to every loop is one chain of methods in the
function's own order:
- `FetchWeverseData`, the whole run, is proved equal to `Fetch`;
- `FindSaleRecord` and `ListProducts` call `FindFirst`;
- `FlattenDetail` calls `OptionLoop`, and `Contribute` calls `FlattenDetail`;
- `ProcessItem` calls `FindSaleRecord` and `Contribute`;
- `FetchWeverseData` calls `ListProducts` and `CollectRows`.

An exception while handling a product does not always just skip that product; in the code there are three cases:
- Reading the product's `name` or `saleId`, and sanitising a name that is not a string, happen outside the per-product `try`. An exception there ends the whole run, with no output (`ItemStepRaises`, `RaisingItemEndsRun`, `RaisingItemAbortsFetch`).
- Inside that `try`, the rows and the image already appended when an exception is raised stay in the output.
- A record whose `thumbnailImageUrls` is an empty list therefore loses all its rows (`EmptyThumbnailListDropsRows`). A record without that key keeps its rows (`MissingThumbnailKeepsRows`).

## Model

| member | source | states |
|---|---|---|
| PyJson.LookupFindsLastEntry | weverse_web_app.py:80 | a key is found in a parsed object exactly when some entry has it, and the value found is that of the last entry with the key, as `json.loads` keeps the last duplicate |
| PyJson.DictGet | weverse_web_app.py:85 | `.get` raises exactly when the value is not a dictionary, and gives the default when the key is missing |
| PyJson.DictGetFindsKey | weverse_web_app.py:85 | on a dictionary holding the key, `.get` gives the value bound to it |
| PyJson.Subscript | weverse_web_app.py:81 | `v[key]` succeeds exactly when v is a dictionary that has the key, and then gives the value bound to it |
| PyJson.Index0 | weverse_web_app.py:122 | `v[0]` succeeds exactly on a non-empty list or string, giving the first element or the first character |
| PyJson.Iter | weverse_web_app.py:84 | iterating raises exactly on None, booleans and integers; a list yields its elements, a string its one-character strings, a dictionary its keys, in order; an iterable value yields nothing exactly when it is falsy |
| PyJson.FalsyValues | weverse_web_app.py:133 | truth testing is false exactly on None, False, 0, the empty string, the empty list and the empty dictionary |
| PyJson.PyStr | weverse_web_app.py:117 | `str` gives "None" for None, "True" or "False" for a boolean, a string itself and an integer its decimal digits; it is empty only for the empty string, and brackets lists and dictionaries |
| PyJson.NatToString | weverse_web_app.py:117 | the `str` of a natural number is a non-empty run of decimal digits without a leading zero |
| PyJson.NatToStringRoundTrip | weverse_web_app.py:117 | reading the digits of `str(n)` back gives n |
| PyJson.IntToStringInjective | weverse_web_app.py:117 | two integers have the same `str` exactly when they are equal |
| Text.Contains | weverse_web_app.py:22 | `sub in s` holds exactly when sub occurs in s at some index |
| Text.Strip | weverse_web_app.py:74 | `strip()` gives a slice of the input with only whitespace before and after it, that neither starts nor ends with whitespace |
| Text.StripTrimmed | weverse_web_app.py:75 | stripping an already trimmed string leaves it unchanged |
| Text.DropForbidden | weverse_web_app.py:76 | deleting the forbidden characters leaves none of them and keeps every other character as often as it occurred |
| Text.DropForbiddenAppend | weverse_web_app.py:76 | deleting the forbidden characters works character by character: on a concatenation it is the concatenation of the two results, so the kept characters stay in order |
| Text.SpacesToUnderscores | weverse_web_app.py:76 | `replace(" ", "_")` keeps the length and turns exactly the spaces into underscores |
| Text.Sanitize | weverse_web_app.py:102 | the sanitised name holds no forbidden character and no space, is trimmed, and is no longer than the name |
| Text.SanitizeKeepsClean | weverse_web_app.py:76 | a name that is already clean comes out unchanged |
| Text.SanitizeIdempotent | weverse_web_app.py:102 | sanitising twice gives the same as sanitising once |
| Text.RemoveAll | weverse_web_app.py:74 | `replace(pat, "")` never lengthens the text, and leaves a text without pat unchanged |
| Text.RemoveFromNoOccurrence | weverse_web_app.py:74 | scanning from an index past which pat does not occur keeps the rest of the text as it is |
| Text.RemoveAllFirstOccurrence | weverse_web_app.py:74 | `replace(pat, "")` keeps the text before the first occurrence of pat, deletes that occurrence, and treats the rest the same way |
| Text.LastPiece | weverse_web_app.py:75 | `split(sep)[-1]` is a suffix without sep, preceded by sep whenever it is not the whole text |
| Site.SelectLocale | weverse_web_app.py:22-30 | the Korean storefront exactly when "KRW" occurs, the Japanese one exactly when "JPY" occurs but "KRW" does not, none exactly when neither occurs |
| Site.CurrencyAgreesWithLocale | weverse_web_app.py:67 | whenever a storefront is selected, the currency reported is that storefront's, and its session file is named after that currency |
| Site.MatchAt | weverse_web_app.py:65 | a match at index p captures a non-empty run of digits, with `artists/` before it and `/` after it in the URL |
| Site.SearchFrom | weverse_web_app.py:65 | the search returns the leftmost index where the pattern matches, with no match before it |
| Site.SearchFindsFirst | weverse_web_app.py:65 | the search stops at the first matching index |
| Site.ArtistId | weverse_web_app.py:65-66 | the artist id is a non-empty run of digits: either "7" or the group of a match |
| Site.ArtistIdIsLeftmostMatch | weverse_web_app.py:65-66 | with no match the id is "7"; otherwise it is the group of the leftmost match |
| Site.DetailUrlEndsWithSaleId | weverse_web_app.py:103 | the detail URL starts with the shop root and the currency, and its last path segment is the sale id |
| Site.DetailUrlNamesArtist | weverse_web_app.py:103 | reading the artist id back out of a product's detail URL gives the artist id it was built from |
| Site.CleanTitle | weverse_web_app.py:74-75 | the cleaned title neither starts nor ends with whitespace |
| Site.CleanTitleKeepsLastPiece | weverse_web_app.py:75 | a title holding '-' keeps only the trimmed text after its last '-'; a title without '-' is kept whole |
| Site.SitePrefixDropped | weverse_web_app.py:74 | "Weverse Shop :" in front of any title is removed, leaving the title cleaned as if it were absent |
| Site.SafeTitle | weverse_web_app.py:76 | the title stem is file-name safe: no forbidden character, no space, trimmed |
| Queries.QueriesOfPath | weverse_web_app.py:81 | reading the query list succeeds exactly when props, pageProps, $dehydratedState and queries are each found in a dictionary, whatever other keys each level holds, and then gives the value bound to `queries` |
| Queries.QueryDataCases | weverse_web_app.py:85 | a query's data raises exactly when the query or its `state` is not a dictionary, is empty without `state`, and is otherwise the `data` of `state` |
| Queries.FirstMatchFrom | weverse_web_app.py:84-88 | whatever data the search returns matches what was searched for |
| Queries.IntegerSaleIdsMatchExactly | weverse_web_app.py:117 | with integer sale ids, a record matches exactly when its id equals the product's |
| Queries.FirstMatchStops | weverse_web_app.py:115-119 | every query before the stopping point was read and did not match; the search then returns the matching data, raises where a query raises, or returns nothing when all were passed over |
| Queries.FindFirst | weverse_web_app.py:84-88 | the loop with its `break` computes the first-match search |
| Queries.ProductCardsFromFirstQuery | weverse_web_app.py:83-88 | the product list is the `productCards` of the first query whose data holds it, the empty list when none does, and raises if a query before that one raises |
| Rows.ProductLimit | weverse_web_app.py:130 | the product limit raises exactly when `goodsOrderLimit` is present but not a dictionary, is "N/A" when that key is missing, and otherwise is its `maxOrderQuantity` defaulting to "N/A" |
| Rows.OptionsFallback | weverse_web_app.py:131 | the option list is the top-level `options` when truthy, else `option.options`, else the empty list; it raises exactly when the fallback is taken and `option` is present but not a dictionary |
| Rows.OptionLimitCases | weverse_web_app.py:139 | an option's limit raises exactly when the option or its `optionOrderLimit` is not a dictionary, is None without `optionOrderLimit`, and is otherwise its `maxOrderQuantity` defaulting to None |
| Rows.OptionRowIsOptionRow | weverse_web_app.py:136-144 | an option gives a row exactly when it can be read, and that row is the one its position calls for |
| Rows.NoOptionsSingleRow | weverse_web_app.py:133-134 | a record without options gives exactly one row: the single-kind label, the record's price and the product limit |
| Rows.OptionRowsShape | weverse_web_app.py:136-144 | with the first m options readable and the next one not, the loop gives m rows in option order. Row 0 carries name, URL, image and the option limit, falling back to the product limit; later rows blank those four cells |
| Rows.OptionLoop | weverse_web_app.py:136-144 | the option loop computes the option rows, keeping those appended before an option raises |
| Rows.FlattenDetail | weverse_web_app.py:130-144 | reading the limit and options and flattening them computes the record's rows |
| Scraper.ThumbnailCases | weverse_web_app.py:122 | the image URL is None without `thumbnailImageUrls` and the first element of a non-empty list; it raises exactly when the listed value is not a non-empty list or string |
| Scraper.Downloaded | weverse_web_app.py:123-127 | at most one image is kept, exactly when the URL is a non-empty string whose download answered; it is named after the sanitised name with ".jpg" and holds the downloaded body |
| Scraper.MissingThumbnailKeepsRows | weverse_web_app.py:122-134 | a record without `thumbnailImageUrls` keeps its rows, with no image URL and no image |
| Scraper.EmptyThumbnailListDropsRows | weverse_web_app.py:122 | a record whose `thumbnailImageUrls` is an empty list contributes neither rows nor an image |
| Scraper.FindSaleRecord | weverse_web_app.py:108-121 | opening the detail page and searching its queries computes the product's sale record |
| Scraper.Contribute | weverse_web_app.py:122-144 | a sale record contributes its downloaded image first, then its rows |
| Scraper.ProcessItem | weverse_web_app.py:101-146 | the loop body computes the per-product step, which raises exactly as ItemStepRaises states |
| Scraper.ItemStepRaises | weverse_web_app.py:101-103 | a product's step raises exactly when its `name` is missing or not a string, or its `saleId` is missing |
| Scraper.UnmatchedItemAddsNothing | weverse_web_app.py:109-121 | a product whose page did not load, or whose page holds no record with its sale id, adds nothing |
| Scraper.CollectRows | weverse_web_app.py:100-147 | the product loop appends every product's contribution in product order, or ends the run when a step raises |
| Scraper.CollectAppend | weverse_web_app.py:100-147 | the output for two runs of products is the first's rows and images followed by the second's |
| Scraper.SkippedItemKeepsOutput | weverse_web_app.py:145-146 | a product whose step adds nothing leaves the accumulated rows and images unchanged |
| Scraper.RaisingItemEndsRun | weverse_web_app.py:100-103 | a product whose step raises (by ItemStepRaises, one whose name or sale id cannot be read), after products whose steps did not, ends the product loop with an exception and nothing collected |
| Scraper.RaisingItemAbortsFetch | weverse_web_app.py:100-103 | such a product ends the whole run with a page error and no output |
| Scraper.TryDetailImages | weverse_web_app.py:122-127 | a product's inner `try` adds at most one image, named after its stem with ".jpg" |
| Scraper.ItemImages | weverse_web_app.py:122-128 | a product adds at most one image, named after its own sanitised name with ".jpg", which is a clean stem |
| Scraper.CollectImages | weverse_web_app.py:127 | there are never more images than products, and each image name is a clean stem with ".jpg" |
| Scraper.ListProducts | weverse_web_app.py:81-100 | reading the category page's queries computes its products, with an empty product list reported apart from a failure |
| Scraper.FetchWeverseData | weverse_web_app.py:20-155 | the whole run computes the modelled outcome, step by step |
| Scraper.SetupFailureOpensNoPage | weverse_web_app.py:22-59 | an unknown storefront, a missing session file or a browser that does not start aborts the run without depending on any page or download |
| Scraper.EmptyProductListAborts | weverse_web_app.py:90-93 | an empty product list ends the run with no output, whatever the product pages and downloads would have given |
| Scraper.ReportIsWellFormed | weverse_web_app.py:150 | a finished run reports the selected storefront's currency, a file-name-safe title stem, and images named after clean stems with ".jpg" |

## Left out

- The Streamlit user interface (lines 1-18 and 157 on), status messages and the progress bar: display only, they do not change what the function returns.
- The browser and the network are inputs of the run (`Env`), not modelled code:
  - whether the browser launches;
  - the category page's title and its `__NEXT_DATA__`, already parsed;
  - the parsed `__NEXT_DATA__` of each product page that loads, keyed by its URL;
  - the body of each thumbnail URL that answers with status 200.
  - A product page or download that fails in any way is simply absent.
  - Each outcome is a function of its URL, so a page that gives different answers on different visits is not modelled.
- The dependency install at line 41, which ignores its own outcome, is not modelled.
- Browser context creation at lines 61-62 sits outside any `try`, so its failure escapes the function. The model assumes it succeeds.
- `time.sleep`, time-outs and `browser.close` are not modelled.
- `json.loads` itself is not modelled: pages provide parsed JSON. JSON floating-point numbers are left out of `Json`.
- Python's `str` inside containers is simplified in two ways:
  - strings are quoted with `'` without `repr`'s escaping or its switch to `"`;
  - a parsed object that repeats a key is rendered, and iterated, with every entry, where a dictionary keeps one.
- The `str` of very large integers, which Python refuses beyond its digit limit, is rendered in full.
- Site.MatchAt: `\d` is modelled as the ASCII digits, while Python also matches other Unicode decimal digits.
- Strings are sequences of Unicode scalar values. A Python `str` is a sequence of code points, and `json.loads` turns an escaped lone surrogate such as `\ud800` into one; such strings are not modelled.
- Text.IsSpace follows `str.isspace` for the characters listed; no Unicode database is consulted.
- The spreadsheet and zip export after the function returns (pandas and zipfile), and the session-state handling around it, are not modelled.
