# Tech news agent — a Dafny model of its pipeline

The tech news agent fetches news articles for six fixed keywords from NewsAPI and
merges them into one list. It deduplicates that list by URL. It asks a chat-completion
model for a business-impact summary of each article. It then groups the enriched
articles into HIGH, MEDIUM and LOW buckets, assembles a report, and optionally saves
the report as a dated JSON file and prints a digest.

This project models the three source files that hold that logic:

- `wrappers.dfy`: the `Option` and `Result` datatypes. `Err` stands for a Python exception that the code does not catch.
- `records.dfy` (module `Records`) holds the shared value types:
  - JSON values;
  - articles as `map<string, Json>` (Python dicts);
  - the exceptions the code can raise, and `str(e)` for each;
  - Python truthiness, `dict.get`, and slicing.
- `news_fetcher.dfy` (module `NewsFetch`) models `src/news_fetcher.py`:
  - configuration from the environment, and the per-keyword query and its failure handling;
  - the merge in keyword order;
  - the dict-comprehension deduplication, as an insertion-ordered dict (`Dict`, `Put`, `Build`);
  - the ten-record sample.
- `summarizer.dfy` (module `Summarization`) models `src/summarizer.py`:
  - configuration;
  - the decision logic of `generate_summary`. It returns the record and the completion request it sends, or `None` when it makes no call;
  - the `summarize_articles` loop.
- `main.dfy` (module `NewsAgent`) models `src/main.py`:
  - impact bucketing and report assembly;
  - the console digest and the report file name;
  - the `TechNewsAgent` class. It holds its fetcher, summarizer and output directory. It also holds the files it has written (path to report) and the digests it has printed. `Run` gates saving and printing on the report's status and turns exceptions into an error-status result.

The outside world enters only as parameters:
- The news provider's answer to a query is a function `reply: Query -> Reply`.
- For article `i`, `answers(i)` is the outcome of its completion request: a parsed JSON value, unparsable text, or an exception message.
- The clock readings are strings: `since` is the date seven days back, `now` is the report timestamp, and `today` is the file date.

Behaviour worth knowing, as the code has it:
- The deduplicated list keeps each URL at its first occurrence, with the value of its last occurrence (`DedupByUrl`).
- An article without a `url` key, or with a list or dict as its URL, makes the deduplication raise. `run` turns that into an error status.
- A parsed reply that is not a JSON object makes `.get` raise. The summarizer's own handler turns that into the error record with impact "UNKNOWN".
- A title that is neither a string nor a list makes the progress line of `summarize_articles` raise. Nothing catches that before `run`, so the run ends with an error status and nothing is saved or printed.

## Model

| member | source | states |
|---|---|---|
| `Records.Slice` | OneDrive/Documents/Tech-news-agent/src/summarizer.py:45 | `x[:n]` keeps the first min(len, n) elements of a string or list; every other kind raises TypeError |
| `NewsFetch.ParseInt` | OneDrive/Documents/Tech-news-agent/src/news_fetcher.py:18 | `int(s)` succeeds only for a signed or unsigned digit string; otherwise it raises ValueError with Python's message |
| `NewsFetch.ParseDecimal` | OneDrive/Documents/Tech-news-agent/src/news_fetcher.py:18 | parsing a written count gives the count back (`int(str(n)) == n`) |
| `NewsFetch.SignedDecimal` | OneDrive/Documents/Tech-news-agent/src/news_fetcher.py:18 | a leading sign is honoured: `int("-" + str(n)) == -n` and `int("+" + str(n)) == n` |
| `NewsFetch.ZeroPaddedDecimal` | OneDrive/Documents/Tech-news-agent/src/news_fetcher.py:18 | leading zeros do not change the value (`int("007") == 7`) |
| `NewsFetch.NewFetcher` | OneDrive/Documents/Tech-news-agent/src/news_fetcher.py:14-21 | construction succeeds exactly when NEWS_API_KEY is set and non-empty and the page size parses. An unparsable MAX_ARTICLES_PER_KEYWORD raises `int()`'s ValueError first; otherwise a missing key raises ValueError. The page size is the parsed value, or 5 when unset; the six keywords are fixed |
| `NewsFetch.QueryFor` | OneDrive/Documents/Tech-news-agent/src/news_fetcher.py:37-46 | the query carries the keyword, the start date, relevancy order, English, the API key and the page size |
| `NewsFetch.FetchByKeyword` | OneDrive/Documents/Tech-news-agent/src/news_fetcher.py:33-62 | a request exception or a status other than "ok" yields no articles, never an exception; otherwise the reply's article list unchanged |
| `NewsFetch.GatherAppend` | OneDrive/Documents/Tech-news-agent/src/news_fetcher.py:75-77 | the merged list of a keyword list split in two is the concatenation of the two merged lists (extend in keyword order) |
| `NewsFetch.FailedKeywordContributesNothing` | OneDrive/Documents/Tech-news-agent/src/news_fetcher.py:51-77 | a keyword whose fetch fails contributes nothing; the merged list equals the one obtained without querying it, and the other keywords' articles keep their order |
| `NewsFetch.KeyOf` | OneDrive/Documents/Tech-news-agent/src/news_fetcher.py:80 | `article["url"]` as a dict key: KeyError when absent, TypeError when a list or dict, otherwise a key under which True and 1 coincide |
| `NewsFetch.Keyed` | OneDrive/Documents/Tech-news-agent/src/news_fetcher.py:80 | the comprehension's pairs exist exactly when every article has a usable URL; otherwise it raises the first bad article's exception |
| `NewsFetch.Build` | OneDrive/Documents/Tech-news-agent/src/news_fetcher.py:80 | the dict has distinct keys, and its keys are exactly the URLs that occur |
| `NewsFetch.BuildKeepsLast` | OneDrive/Documents/Tech-news-agent/src/news_fetcher.py:80 | each URL maps to the article of its last occurrence |
| `NewsFetch.BuildFirstOrder` | OneDrive/Documents/Tech-news-agent/src/news_fetcher.py:80 | keys stand in the order of their first occurrence |
| `NewsFetch.BuildSize` | OneDrive/Documents/Tech-news-agent/src/news_fetcher.py:80-83 | at most one entry per article, with equality exactly when all URLs are distinct |
| `NewsFetch.Dedup` | OneDrive/Documents/Tech-news-agent/src/news_fetcher.py:80-83 | the deduplicated list is never longer than the merged list |
| `NewsFetch.DedupByUrl` | OneDrive/Documents/Tech-news-agent/src/news_fetcher.py:75-83 | the deduplication fails exactly when some URL is missing or unhashable, with the first such exception; otherwise the output has one article per distinct URL, none lost or repeated. It follows first-occurrence order, keeps the last article fetched for each URL, and has length at most the input's, equal exactly when the URLs are distinct |
| `NewsFetch.DedupKeysDistinct` | OneDrive/Documents/Tech-news-agent/src/news_fetcher.py:80-83 | any two articles of the deduplicated list have usable and different URL keys |
| `NewsFetch.FetchAllArticles` | OneDrive/Documents/Tech-news-agent/src/news_fetcher.py:64-83 | the extend loop over the keywords followed by the comprehension returns the deduplication of the keyword-ordered concatenation |
| `NewsFetch.Project` | OneDrive/Documents/Tech-news-agent/src/news_fetcher.py:93-99 | a record is formatted exactly when `source` is a dict or absent; otherwise AttributeError with Python's message |
| `NewsFetch.ProjectFields` | OneDrive/Documents/Tech-news-agent/src/news_fetcher.py:93-99 | a formatted record has exactly five keys; content comes from description, source from `source.name`, and missing keys give null |
| `NewsFetch.ProjectAllOk` | OneDrive/Documents/Tech-news-agent/src/news_fetcher.py:91-101 | the formatted list exists exactly when every projection succeeds |
| `NewsFetch.ProjectAllAt` | OneDrive/Documents/Tech-news-agent/src/news_fetcher.py:91-101 | record j of the formatted list is the projection of article j |
| `NewsFetch.ProjectAllFirstError` | OneDrive/Documents/Tech-news-agent/src/news_fetcher.py:91-101 | a failing list raises the exception of its first failing article |
| `NewsFetch.GetArticlesSample` | OneDrive/Documents/Tech-news-agent/src/news_fetcher.py:85-101 | the sample is the projection of the first min(10, n) deduplicated articles (at most 10 records); fetch exceptions propagate |
| `Summarization.NewSummarizer` | OneDrive/Documents/Tech-news-agent/src/summarizer.py:13-20 | construction succeeds exactly when OPENAI_API_KEY is set and non-empty, otherwise ValueError; the model name defaults to "gpt-4" |
| `Summarization.PromptEmbeds` | OneDrive/Documents/Tech-news-agent/src/summarizer.py:47-55 | the prompt holds the title and the excerpt at fixed offsets between the template texts |
| `Summarization.GenerateSummary` | OneDrive/Documents/Tech-news-agent/src/summarizer.py:22-97 | every record sets summary, business_impact and key_takeaways; a completion request is sent exactly when the content is usable (truthy, not "[Removed]") and can be sliced |
| `Summarization.SummaryKeepsArticleFields` | OneDrive/Documents/Tech-news-agent/src/summarizer.py:35-97 | every article field that a summary does not set is kept unchanged (`{**article, ...}`), and the record has no other fields |
| `Summarization.MissingContentDegrades` | OneDrive/Documents/Tech-news-agent/src/summarizer.py:35-41 | empty, missing or "[Removed]" content gives the fixed placeholder summary, impact "Unknown" and no takeaways, makes no request, and leaves impact_explanation as the article had it |
| `Summarization.RequestTruncatesContent` | OneDrive/Documents/Tech-news-agent/src/summarizer.py:43-65 | the request for string content embeds a prefix of the content of length min(len, 2000), the article's title and the configured model; with a string title its user message is the template filled with both |
| `Summarization.ParsedObjectFields` | OneDrive/Documents/Tech-news-agent/src/summarizer.py:71-79 | a parsed JSON object supplies the four fields; absent keys default to "", "MEDIUM", "" and [] |
| `Summarization.UnparsableKeepsText` | OneDrive/Documents/Tech-news-agent/src/summarizer.py:80-87 | unparsable reply text becomes the summary verbatim, with impact "MEDIUM", explanation "Unable to parse response" and no takeaways |
| `Summarization.FailedRequestRecord` | OneDrive/Documents/Tech-news-agent/src/summarizer.py:89-97 | a failed request gives summary "Error: " + message, impact "UNKNOWN", explanation "Processing error" and no takeaways |
| `Summarization.UnsliceableContentIsError` | OneDrive/Documents/Tech-news-agent/src/summarizer.py:43-97 | truthy content that is neither a string nor a list raises when sliced, so no request is sent and the error record carries the TypeError message |
| `Summarization.SummaryRecordsOk` | OneDrive/Documents/Tech-news-agent/src/summarizer.py:111-118 | the loop runs to the end exactly when every article's title can be sliced for the progress line |
| `Summarization.SummaryRecordsAt` | OneDrive/Documents/Tech-news-agent/src/summarizer.py:111-118 | in a completed loop record i is `generate_summary(articles[i])`, one record per article, in order |
| `Summarization.SummaryRecordsFirstError` | OneDrive/Documents/Tech-news-agent/src/summarizer.py:112-114 | a loop that raises raises the TypeError of the first title that cannot be sliced |
| `Summarization.RequestsStopAtTitleError` | OneDrive/Documents/Tech-news-agent/src/summarizer.py:112-115 | an article whose title cannot be sliced ends the loop with an exception, and only the articles before it had requests sent |
| `Summarization.RequestsSentBound` | OneDrive/Documents/Tech-news-agent/src/summarizer.py:111-116 | at most one completion request per article, and none when every article's content is empty, missing or "[Removed]" |
| `Summarization.SummarizeArticles` | OneDrive/Documents/Tech-news-agent/src/summarizer.py:99-118 | the loop returns the records of all articles in order, or the exception of the progress line that ends it; and the requests sent until then, in order |
| `NewsAgent.BucketMembers` | OneDrive/Documents/Tech-news-agent/src/main.py:61-63 | a bucket contains an article exactly when the article is in the list and its business_impact equals the bucket's level |
| `NewsAgent.BucketAppend` | OneDrive/Documents/Tech-news-agent/src/main.py:61-63 | bucketing distributes over concatenation, so each bucket is an ordered subsequence of the list |
| `NewsAgent.BucketCounts` | OneDrive/Documents/Tech-news-agent/src/main.py:61-72 | the three bucket lengths plus the number of unbucketed articles equal the list length |
| `NewsAgent.UnbucketedEmpty` | OneDrive/Documents/Tech-news-agent/src/main.py:61-72 | no article is unbucketed exactly when every impact is HIGH, MEDIUM or LOW |
| `NewsAgent.BriefingInvariants` | OneDrive/Documents/Tech-news-agent/src/main.py:58-79 | the report keeps the full summarized list and its length. Buckets are exactly their level's articles and pairwise disjoint, and the counts equal the bucket lengths. high + medium + low ≤ total, with equality exactly when no article has another impact ("Unknown", "UNKNOWN") |
| `NewsAgent.NoArticlesIffNothingFetched` | OneDrive/Documents/Tech-news-agent/src/main.py:51-55 | the run ends with the "No articles fetched" failure exactly when no keyword produced an article |
| `NewsAgent.Entries` | OneDrive/Documents/Tech-news-agent/src/main.py:126-131 | one entry per article shown |
| `NewsAgent.EntriesAt` | OneDrive/Documents/Tech-news-agent/src/main.py:126-131 | entry i is article i's, numbered `rank + i` in list order |
| `NewsAgent.EntriesOk` | OneDrive/Documents/Tech-news-agent/src/main.py:126-131 | the entries exist exactly when every article's summary and explanation can be sliced |
| `NewsAgent.EntriesFirstError` | OneDrive/Documents/Tech-news-agent/src/main.py:126-131 | otherwise the exception is the first failing article's |
| `NewsAgent.DigestOf` | OneDrive/Documents/Tech-news-agent/src/main.py:114-131 | the digest shows the report's total and its high, medium and low counts, and min(5, high) entries |
| `NewsAgent.DigestShowsFirstFive` | OneDrive/Documents/Tech-news-agent/src/main.py:124-131 | the entries are those of the first five high-impact articles, numbered from 1, or the first failing one's exception |
| `NewsAgent.ReportFileNameParts` | OneDrive/Documents/Tech-news-agent/src/main.py:93-94 | the file name is "tech_news_report_" + date + ".json", and the date can be read back from it |
| `NewsAgent.ReportFileNameInjective` | OneDrive/Documents/Tech-news-agent/src/main.py:93-95 | two runs share a report file exactly when they share a date, so a second run on the same day overwrites the first |
| `NewsAgent.TechNewsAgent.constructor` | OneDrive/Documents/Tech-news-agent/src/main.py:32-36 | the agent keeps its fetcher and summarizer, and the output directory keeps its existing files |
| `NewsAgent.NewTechNewsAgent` | OneDrive/Documents/Tech-news-agent/src/main.py:32-34 | construction raises the fetcher's configuration error first, then the summarizer's; otherwise it gives a fresh agent built from both |
| `NewsAgent.TechNewsAgent.GenerateReport` | OneDrive/Documents/Tech-news-agent/src/main.py:38-81 | an empty fetch gives the failed status and sends no completion request. Fetch and summarizing exceptions propagate. Otherwise the result is the report assembled from the summaries of the deduplicated articles. The requests sent are those of the summarizing loop over the fetched articles |
| `NewsAgent.RecordKeepsUrl` | OneDrive/Documents/Tech-news-agent/src/summarizer.py:35-97 | a summary record has the article's `url` (or none, as the article had none) |
| `NewsAgent.RecordsKeepUrls` | OneDrive/Documents/Tech-news-agent/src/summarizer.py:111-118 | record i of the summarizing loop has article i's `url` |
| `NewsAgent.ReportUrlsDistinct` | OneDrive/Documents/Tech-news-agent/src/main.py:51-79 | no two articles of a report share a URL: every article of the report has a usable URL key, and they are pairwise different |
| `NewsAgent.TitleErrorEndsReport` | OneDrive/Documents/Tech-news-agent/src/main.py:51-58 | a fetched article whose title cannot be sliced makes `generate_report` raise, with the first such article's exception |
| `NewsAgent.TechNewsAgent.SaveReport` | OneDrive/Documents/Tech-news-agent/src/main.py:83-101 | writes the report at `<output dir>/tech_news_report_<date>.json`, the agent's output directory being "output", replacing any report of that day and leaving every other file unchanged |
| `NewsAgent.TechNewsAgent.PrintSummary` | OneDrive/Documents/Tech-news-agent/src/main.py:103-135 | appends the report's digest to what has been printed, or prints nothing more and returns the digest's slicing exception |
| `NewsAgent.TechNewsAgent.Run` | OneDrive/Documents/Tech-news-agent/src/main.py:137-163 | an exception from fetching or summarizing becomes the error status with `str(e)`, with nothing saved or printed. A failed report is returned with nothing saved or printed. Otherwise the report is saved only when the save flag is set and printed only when the print flag is set, and a printing exception turns the result into the error status after the save |

## Left out

- HTTP: the request to NewsAPI, `raise_for_status`, the 30-second timeout and decoding the response body are not modelled; a `Reply` is either a request exception or a body's `status` value and `articles` list. A body that is not a JSON object, or whose `articles` is not a list, is not modelled. Nor is an `articles` element that is not a JSON object, because a `Reply`'s articles are records. In Python such an element makes `article["url"]` raise TypeError during deduplication, and `run` returns an error status.
- The completion call and `json.loads` are left out as external services. Their combined outcome is a `Completion`, indexed by the article's position. JSON floats are not modelled, because `Json` has integers only.
- `Summarization.PromptEmbeds`: covers only string titles and excerpts. Python renders a null or list title or content into the prompt with `str`/`repr`, which the model does not spell out; such a request keeps those values as given and carries no user message (`prompt` is None).
- `NewsFetch.ParseInt`: accepts only an optional sign followed by ASCII digits. Python's `int()` also accepts surrounding whitespace, digit-separating underscores and non-ASCII digits, which the model rejects.
- `Records.Message`: the repr of a KeyError's key, and of the string in `int()`'s ValueError message (`NewsFetch.ParseInt`), is written with single quotes and no escaping; Python switches to double quotes for a string holding `'`, escapes special characters, and truncates `int()`'s repr to 200 characters.
- `Records.Slice`: slicing a dict raises `TypeError: unhashable type: 'slice'` as on Python before 3.12; newer versions raise KeyError instead.
- The clock: `datetime.now()` for the query's start date, the report timestamp and the file date enters as the `since`, `now` and `today` strings. The source reads the clock once per keyword for the start date. The model passes one `since` to all six queries, so it does not represent a run that crosses midnight and sends different `from` dates.
- File system: the output directory is a map from path to report, with POSIX path separators. JSON serialisation, directory creation and I/O errors are not modelled.
- Console output: the printed text of banners, progress lines and error traces is not modelled. The title slice inside the progress line of `summarize_articles`, which can raise, is modelled (`ProgressTitle`). `print_summary` is modelled as the digest it prints. Lines printed before a formatting exception are not recorded.
- Module-level setup is process plumbing and is not modelled: `load_dotenv`, the Windows stdout re-encoding and the `__main__` block.
- `config/settings.py` holds only constant tables that the code does not read; it is not part of this model.
- `scheduler.py` is an external timer loop; it is not part of this model.
- Python's cross-type dict key equality is modelled only for booleans and integers; floats do not occur in the model.
