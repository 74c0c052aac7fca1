# Reddit automotive brand analysis — a Dafny model

The repository collects "hot" posts from three car subreddits (r/cars,
r/whatcarshouldIbuy, r/askcarsales, at most 200 each) and tags each post
with the first car brand whose keyword occurs in its lower-cased
`title + " " + selftext`. It then counts the mentions per brand and per
(subreddit, brand), buckets VADER compound scores into positive (> 0.05),
negative (< -0.05) and neutral, cleans texts for word clouds by blanking
stand-alone single letters, and writes Markdown reports.

This project models that deterministic core and proves its properties:

- `Text`: ASCII lower-casing, substring search, joining with a separator,
  and decimal rendering of counts.
- `Tally`: `value_counts()` (one entry per value, largest first) and
  `groupby(...).size()` (group sizes ordered by key).
- `Brands`: `detect_brand` over an ordered brand→keywords table, the
  19-entry `BRANDS` table and the one-entry Toyota and Tesla tables.
- `Reddit`: posts, the hot listings cut to 200, and the order in which the
  scripts visit them.
- `Sentiment`: the three-band classification of compound scores.
- `Corpus`: `re.sub(r"\b[a-zA-Z]\b", " ", …)`.
- `MainPipeline`: `collect_posts`, `brand_counts`, `brand_texts` and
  `sentiments` of the CrewAI pipeline script.
- `Report`: `summarize_findings` and the report written by `ReportTool._run`.
  The report file is a `MarkdownFile` object whose `Write` appends.
- `BrandScripts`: the stand-alone counting scripts `Reddit_test2.py` and
  `Reddit_test3.py`, including the Markdown report of the latter.
- `SingleBrand`: `Reddit_toyota.py` (text collection and word-cloud
  preprocessing) and `Reddit_tesla_senti.py` (text collection and band counts).

Several things are inputs rather than computations:

- The Reddit API is a function `hot` from a subreddit name to its full
  hot listing.
- VADER is a function `compound` from a text to its compound score.
- `round(100*x/n, 1)` rendered as text is a function `pct`.
- The date, wordcloud's `STOPWORDS` list, pandas' `to_markdown` rendering
  of the counts table, and the image files present on disk are parameters.

The loops of the source (the collection loops, the counter loop of
`sentiments`, the `md.append` loop, the `f.write` loops) are methods with
loop invariants. Each is proved against a specification function, and the
lemmas state what those functions promise.

## Model

| member | source | states |
|---|---|---|
| Text.Lower | Reddit_main.py:84 | `str.lower()` keeps the length and lower-cases each ASCII letter, position by position |
| Text.LowerIdempotent | Reddit_main.py:84 | lower-casing twice is lower-casing once |
| Text.ContainsIffOccurs | Reddit_main.py:87 | `kw in t` holds exactly when `kw` occurs at some position of `t` |
| Text.JoinLength | Reddit_main.py:119 | `" ".join(xs)` is as long as the texts plus one separator between each two |
| Text.JoinAt | Reddit_toyota.py:39 | each text sits unchanged at its offset in the joined string, followed by the separator when another text follows |
| Text.NatToString | Reddit_main.py:280 | a count renders as a non-empty digit string, starting with '0' only for zero, and zero renders as "0" |
| Text.NatRoundTrip | Reddit_main.py:280 | reading a rendered count back gives the count |
| Tally.OccurrencesSpec | Reddit_main.py:113 | counting gives distinct keys, each with its positive number of occurrences, the keys are exactly the values, the counts sum to the number of values |
| Tally.ValueCountsSpec | Reddit_main.py:113 | `value_counts()` lists each distinct value once with its multiplicity (at least 1), counts sum to the number of values, counts never increase down the table |
| Tally.SortByFacts | Reddit_test3.py:60 | ordering a table (by count or by key) gives a sorted permutation of it |
| Tally.PermutationFacts | Reddit_test3.py:60 | ordering keeps the length, the keys, the total and the distinctness of the keys |
| Tally.DistinctKeysCard | Reddit_test3.py:73-74 | a table has distinct keys exactly when it has as many rows as keys |
| Tally.CountOfMatches | Reddit_test3.py:80 | a group-size lookup of a table that agrees with a multiset gives the multiplicity, 0 for a missing key |
| Brands.DetectBrand | Reddit_main.py:83-89 | the nested loop with early return computes the first entry in table order with a keyword in the lower-cased text, or None; `detect_brand` of Reddit_test2.py and Reddit_test3.py is the same code over the same table |
| Brands.DetectNoneIff | Reddit_main.py:83-89 | the result is None exactly when no keyword of any entry occurs in the lower-cased text |
| Brands.DetectFirstMatch | Reddit_main.py:85-88 | the result is Some(b) exactly when b names the earliest entry with an occurring keyword, so any result is a key of the table |
| Brands.FirstMatchIndex | Reddit_test3.py:40-44 | the first-match search is None iff no entry matches, and otherwise names the first matching entry |
| Brands.DetectCaseInsensitive | Reddit_main.py:84-88 | detecting in a text or in its lower-cased form gives the same result |
| Brands.UpperCaseKeywordNeverMatches | Reddit_main.py:84-87 | a keyword holding an upper-case letter can never occur in the lower-cased text |
| Brands.BrandsWellFormed | Reddit_main.py:52-72 | the brand names are non-empty and distinct, every keyword is lower case |
| Brands.GmShadowsRam | Reddit_main.py:65-71 | a text containing "gm" is tagged with a brand other than Ram, whatever else it contains |
| Brands.ProgramIsTagged | Reddit_main.py:71 | plain substring matching tags the word "program" as "Ram": "ram" occurs inside it and no keyword of an earlier entry does |
| Brands.ToyotaOnlyDetect | Reddit_toyota.py:17-25 | with the one-entry table the result is "Toyota" iff the lower-cased text contains "toyota", else None |
| Brands.TeslaOnlyDetect | Reddit_tesla_senti.py:19-27 | with the one-entry table the result is "Tesla" iff the lower-cased text contains "tesla", else None |
| Reddit.Listing | Reddit_main.py:94 | `hot(limit=200)` gives the first posts of the listing, at most 200, all of them when there are fewer |
| Reddit.FetchedFacts | Reddit_main.py:93-94 | the visited posts come from the listings of the target subreddits, at most 200 per subreddit |
| Sentiment.BandOf | Reddit_main.py:151-156 | positive iff score > 0.05, negative iff score < -0.05, neutral iff -0.05 <= score <= 0.05 |
| Sentiment.BandsPartition | Reddit_main.py:148-157 | the three band counts add up to the number of scores |
| Sentiment.Scores | Reddit_tesla_senti.py:42 | one score per text, in order, each the compound score of its text |
| Corpus.StripSingleLetters | Reddit_main.py:120 | same length; a position becomes a space exactly when a single letter stands alone there, else it is kept |
| Corpus.StripLeavesNoStandalone | Reddit_main.py:120 | the cleaned text has no stand-alone single letter |
| Corpus.StripCleanIsIdentity | Reddit_toyota.py:42 | a text with no stand-alone letter is left unchanged |
| Corpus.StripIdempotent | Reddit_toyota.py:42 | cleaning twice is cleaning once |
| Corpus.StripOnlyBlanksLetters | Reddit_toyota.py:41-42 | only letters change, only into spaces, and a letter next to a word character is kept |
| MainPipeline.CollectPosts | Reddit_main.py:91-107 | one row per visited post in subreddit-then-listing order, missing title or body read as "", brand detected in `title + " " + body`, at most 600 rows |
| MainPipeline.BrandedCounts | Reddit_main.py:113 | `dropna` keeps one brand per branded row, with each brand as often as rows carry it |
| MainPipeline.BrandCountsSpec | Reddit_main.py:112-113 | only non-null brands are counted; each appears once with its row count (at least 1); counts sum to the branded rows; largest first |
| MainPipeline.TextsOfBrandCount | Reddit_main.py:144 | the selection has one text per row tagged with the brand |
| MainPipeline.BrandTexts | Reddit_main.py:117-122 | KeyError (None) exactly for a brand outside BRANDS; otherwise the corpus is the join of the brand's texts with stand-alone letters blanked: same length, only such letters changed, into spaces, and none left; the stop words contain the library list, CUSTOM_STOPWORDS, the lower-cased brand and its keywords |
| MainPipeline.Sentiments | Reddit_main.py:143-157 | n is the number of texts of the brand; pos, neg, neu are the band counts of their scores and add up to n; no text gives all zeros |
| Report.MarkdownFile.constructor | Reddit_main.py:266 | a newly opened file is empty |
| Report.MarkdownFile.Write | Reddit_main.py:267 | a write appends its text to the file |
| Report.SentiOf | Reddit_main.py:172 | a brand missing from the sentiment map gets {0,0,0,0}, otherwise its own tally |
| Report.Top3 | Reddit_main.py:165 | `head(3)` keeps the first min(3, rows) rows |
| Report.Percent | Reddit_main.py:174-176 | the percentage text is "-" exactly when n == 0 |
| Report.SummarizeFindings | Reddit_main.py:162-180 | the `md.append` loop yields the four fixed lines then one section per counts row, joined by newlines; brands must be distinct for `.item()` |
| Report.SummarySections | Reddit_main.py:171-179 | section i is the section of the i-th counts row; its percentages are "-" exactly when its n is 0, as for every brand missing from the map |
| Report.HighlightIsTop | Reddit_main.py:165-166 | on a `value_counts()` table no brand outside the highlighted three has a larger count than one inside |
| Report.SentimentRows | Reddit_main.py:278-280 | one row per counts row, in counts order: the brand with its tally from the map when it has one, all zeros otherwise |
| Report.WordClouds | Reddit_main.py:255-261 | an entry for exactly the brands of the counts table whose image file exists, each brand once, with its image path |
| Report.WriteSentimentRows | Reddit_main.py:278-280 | the loop writes exactly the sentiment rows, in order |
| Report.WriteImageSections | Reddit_main.py:285-286 | the loop writes exactly one image section per word-cloud entry, in order |
| Report.ReportToolRun | Reddit_main.py:244-288 | the new file holds title, date, counts table, sentiment table and image sections in this order; the returned path carries the date |
| BrandScripts.RecordsSpec | Reddit_test3.py:49-55 | a record (sub, b) is kept iff some visited post from sub is detected as b with b non-empty; one record per such post, so there are as many records as posts that name a brand and each record occurs as often as its posts; every record's brand is a key of the table (Reddit_test2.py has the same loop) |
| BrandScripts.RecordsMultiplicity | Reddit_test3.py:53-55 | one `append` per post that names a brand: the number of records is the number of such posts, and each record's multiplicity is the number of posts from its subreddit detected as its brand |
| BrandScripts.CollectFrom | Reddit_test3.py:52-55 | the inner loop keeps the records of one listing |
| BrandScripts.CollectRecords | Reddit_test3.py:49-55 | the nested loops produce the records in visiting order; each subreddit is a target subreddit and each brand a key of the table |
| BrandScripts.NoMentionRaises | Reddit_test3.py:58-59 | when no visited post names a brand, the counting step as written raises KeyError |
| BrandScripts.EmptyListingsRaise | Reddit_test2.py:58-59 | three empty listings are such an input |
| BrandScripts.CountsSpec | Reddit_test3.py:58-59 | wherever the script does not stop the counts are `Counts`; each recorded brand once, count at least 1 and equal to its records, largest first, summing to the number of records (Reddit_test2.py computes the same counts) |
| BrandScripts.BreakdownSpec | Reddit_test3.py:60 | per subreddit: one entry per recorded brand, by ascending name, each its group size; sizes sum to the subreddit's records; empty iff the subreddit has no record |
| BrandScripts.BreakdownsPartition | Reddit_test2.py:58-65 | over the three subreddits the group sizes add up to the number of records, which is the total of the counts |
| BrandScripts.BreakdownsSumToCounts | Reddit_test3.py:59-60 | per brand, its group sizes summed over the subreddits equal its overall count |
| BrandScripts.ReportTables | Reddit_test3.py:71-85 | a subreddit's table is written iff it has a record, with one row per brand recorded there; the ranking has one row per distinct recorded brand |
| BrandScripts.WriteRows | Reddit_test3.py:73-74 | the loop writes one `| brand | count |` row per table entry, in order |
| BrandScripts.WriteSubSection | Reddit_test3.py:79-85 | the heading, then the table only when the subreddit has records |
| BrandScripts.WriteSubSections | Reddit_test3.py:78-85 | one section per target subreddit, in list order |
| BrandScripts.WriteReport | Reddit_test3.py:63-85 | the new file holds title, subreddits, date, ranking and breakdown in this order, and its name carries the date; for no records the model writes the report with empty tables, where the script has already stopped with KeyError at line 59 (see Findings) |
| SingleBrand.CollectFrom | Reddit_toyota.py:33-36 | the inner loop keeps the texts of the posts of one listing detected as the brand |
| SingleBrand.CollectTexts | Reddit_tesla_senti.py:30-38 | the collection loops keep `title + " " + selftext` of each post detected as the brand, in visiting order |
| SingleBrand.ToyotaTexts | Reddit_toyota.py:31-36 | the Toyota texts are exactly those whose lower-cased text contains "toyota", in visiting order |
| SingleBrand.TeslaTexts | Reddit_tesla_senti.py:30-38 | the Tesla texts are exactly those whose lower-cased text contains "tesla", in visiting order |
| SingleBrand.ToyotaStopwords | Reddit_toyota.py:45-48 | the stop words contain the custom ones and the library list, and nothing else |
| SingleBrand.ToyotaCorpusSpec | Reddit_toyota.py:39-42 | the corpus keeps the joined length, blanks only stand-alone letters, has none left, is a fixed point of cleaning, and each text sits at its offset in the join |
| SingleBrand.ToyotaPrepare | Reddit_toyota.py:28-48 | texts, cleaned corpus and stop words as the script computes them |
| SingleBrand.GeneratorSumsAgree | Reddit_tesla_senti.py:44-46 | the three generator sums equal the if/elif/else band counts and add up to the number of results |
| SingleBrand.TeslaSentiment | Reddit_tesla_senti.py:30-46 | one result per Tesla text; pos, neg, neu are its band counts and add up to the number of results |

## Left out

- Authentication and fetching through praw, and `.env` loading: the hot listings are the input `hot`.
- The VADER analyser: the compound score is the input `compound`.
- WordCloud and matplotlib (`make_wordcloud`, the Toyota figure, the `AnalysisTool` images): they only draw images. The empty-corpus guard of `make_wordcloud` goes with them.
- CSV and JSON reading and writing, `Path.mkdir`, and the `print` calls of the scripts. `Reddit_test2.py` prints its group sizes; the model gives the same sizes as the per-subreddit breakdown.
- The `created` timestamp column of `collect_posts`: it only converts a clock value.
- The CrewAI agents, tasks, crew and tool wrappers. `AnalysisTool._run` is not modelled: it reads a `text` column that `collect_posts` never writes and calls an undefined `simple_sentiment`.
- Report.ReportToolRun: the sentiment map is taken as a map from brand to tally, which is how `senti_map.get(brand, …)` reads it. Nothing in the repository writes such a file: `AnalysisTool._run` would write `sentiments_all.json` as one flat tally, but it raises KeyError at `df["text"]` (Reddit_main.py:222) before that write, so the `open` at line 253 fails unless a file from elsewhere is present.
- Report.ReportToolRun: pandas' `to_markdown` rendering of the counts table, the date and the image files on disk are inputs.
- Report.Percent: `round(100*x/n, 1)` is floating-point arithmetic; its text is the input `pct`, and only the "-" case is modelled.
- Brands.Detect: `str.lower()` is modelled on ASCII letters only; other characters are kept as they are.
- Corpus.StripSingleLetters: `\b` and `\w` are modelled with the ASCII word characters [A-Za-z0-9_]; Python's Unicode word characters are not.
- Tally.ValueCounts: pandas does not promise an order among equal counts; the model keeps ties in order of first appearance.
- Report.SummarizeFindings: requires the brands of the counts table to be distinct. With a repeated brand, `.item()` raises ValueError at Reddit_main.py:177; that error path is not modelled.
- Report.WordClouds: the image path is built as `wcDir + "/" + name`, so the directory is taken as already normalised: non-empty, no trailing "/", no "." segment. pathlib's normalisation of `Path(word_cloud_dir)` (Reddit_main.py:249, 258, 260) is not modelled: it drops a trailing "/" and "." segments, and it turns "" into the bare file name. The same path is used by Report.ReportToolRun for the existence test and the `![b](path)` line.
- Sentiment.BandOf: scores are reals. NLTK's VADER rounds `compound` to four decimal places, and the model takes `compound` to return that decimal value. On such values, comparing with the real 0.05 gives the same band as Python's float comparisons, so a score of exactly 0.05 or -0.05 is neutral. A `compound` that returned the exact binary value of the float would put 0.05 in the positive band; that reading is not modelled.
- Report.WordClouds: the items are listed in order of first appearance in the counts table, as the dict comprehension inserts them, but the contract does not state that order.
- MainPipeline.Sentiments, MainPipeline.BrandTexts: the model follows the `if not texts` guard (Reddit_main.py:145) and gives zeros, or an empty corpus, for a brand without rows. Depending on the pandas version, `.agg(" ".join, axis=1)` on an empty selection may return an empty DataFrame, whose `.tolist()` raises AttributeError before that guard; that library behaviour is not modelled.
- MainPipeline.BrandTexts: wordcloud's `STOPWORDS` list is the input `stopwords`.
- MainPipeline.BrandCounts: when not a single post is fetched, the empty frame has no `brand` column and pandas raises KeyError; the model returns the empty table.
- Reddit.Complete: the stand-alone scripts concatenate title and body without a fallback and would raise TypeError on a missing one; their methods require every visited post to have both. The functions that specify them read a missing part as the empty string, a case those methods never reach.

## Findings

| source | as written | input that shows it | evidently intended | confidence | as-written member | corrected member |
|---|---|---|---|---|---|---|
| Reddit_test3.py:58-59 | `pd.DataFrame(posts)["brand"]` on an empty `posts` list raises KeyError, since the frame has no columns; `Reddit_test2.py:58-59` does the same | every visited post mentions no brand keyword, for example three empty hot listings | report empty counts (and empty breakdowns) when no brand is mentioned | not executed | BrandScripts.NoMentionRaises | BrandScripts.CountsSpec |
