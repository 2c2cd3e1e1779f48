/**
 * The orchestrator (src/main.py): fetch, summarize, bucket by business impact,
 * assemble the report, then save it and print a digest when asked to. The
 * clock, the file system and the console are modelled as parameters and as
 * fields of the agent.
 */
module NewsAgent {
  import opened Wrappers
  import opened Records
  import opened NewsFetch
  import opened Summarization

  const High: string := "HIGH"
  const Medium: string := "MEDIUM"
  const Low: string := "LOW"
  const NoArticlesMessage: string := "No articles fetched"
  const OutputDir: string := "output"

  datatype Breakdown = Breakdown(high: nat, medium: nat, low: nat)
  datatype Buckets = Buckets(high: seq<Article>, medium: seq<Article>, low: seq<Article>)

  /**
   * What `generate_report` and `run` return: `{"status": "failed", ...}`,
   * `{"status": "error", ...}`, or the report proper.
   */
  datatype Report =
    | FailedStatus(message: string)
    | ErrorStatus(message: string)
    | Briefing(timestamp: string, total: nat, breakdown: Breakdown, byImpact: Buckets, articles: seq<Article>)

  /** `a.get("business_impact")`. */
  function Impact(a: Article): Json
  {
    Get(a, "business_impact", JNull)
  }

  /** The impact is one of the three bucketed levels. */
  predicate Classified(a: Article)
  {
    Impact(a) == JStr(High) || Impact(a) == JStr(Medium) || Impact(a) == JStr(Low)
  }

  /** `[a for a in arts if a.get("business_impact") == level]`. */
  function Bucket(arts: seq<Article>, level: string): seq<Article>
  {
    if arts == [] then []
    else
      var n := |arts| - 1;
      Bucket(arts[..n], level) + (if Impact(arts[n]) == JStr(level) then [arts[n]] else [])
  }

  /** The articles no bucket takes (impact "Unknown", "UNKNOWN", absent, or anything else). */
  function Unbucketed(arts: seq<Article>): seq<Article>
  {
    if arts == [] then []
    else
      var n := |arts| - 1;
      Unbucketed(arts[..n]) + (if Classified(arts[n]) then [] else [arts[n]])
  }

  /** A bucket holds exactly the articles of that level. */
  lemma {:induction false} BucketMembers(arts: seq<Article>, level: string)
    ensures forall a :: a in Bucket(arts, level) <==> a in arts && Impact(a) == JStr(level)
  {
    if arts != [] {
      var n := |arts| - 1;
      BucketMembers(arts[..n], level);
      assert arts == arts[..n] + [arts[n]];
    }
  }

  /** Bucketing keeps the order of the list: it distributes over concatenation. */
  lemma {:induction false} BucketAppend(xs: seq<Article>, ys: seq<Article>, level: string)
    ensures Bucket(xs + ys, level) == Bucket(xs, level) + Bucket(ys, level)
    decreases |ys|
  {
    if ys == [] {
      assert xs + ys == xs;
    } else {
      var n := |ys| - 1;
      assert (xs + ys)[..|xs + ys| - 1] == xs + ys[..n];
      BucketAppend(xs, ys[..n], level);
    }
  }

  /** Every article lands in exactly one of the three buckets or in none of them. */
  lemma {:induction false} BucketCounts(arts: seq<Article>)
    ensures |Bucket(arts, High)| + |Bucket(arts, Medium)| + |Bucket(arts, Low)| + |Unbucketed(arts)| == |arts|
  {
    if arts != [] {
      BucketCounts(arts[..|arts| - 1]);
    }
  }

  /** No article is left out of the buckets exactly when every impact is HIGH, MEDIUM or LOW. */
  lemma {:induction false} UnbucketedEmpty(arts: seq<Article>)
    ensures Unbucketed(arts) == [] <==> forall i :: 0 <= i < |arts| ==> Classified(arts[i])
  {
    if arts != [] {
      var n := |arts| - 1;
      UnbucketedEmpty(arts[..n]);
      assert forall i :: 0 <= i < n ==> arts[..n][i] == arts[i];
    }
  }

  /** The report dict of `generate_report` once articles were summarized. */
  function Assemble(now: string, summarized: seq<Article>): Report
  {
    var high, medium, low := Bucket(summarized, High), Bucket(summarized, Medium), Bucket(summarized, Low);
    Briefing(now, |summarized|, Breakdown(|high|, |medium|, |low|), Buckets(high, medium, low), summarized)
  }

  /**
   * The report's invariants: the full list is kept, each bucket holds exactly
   * its level's articles, the buckets are disjoint, the counts are the bucket
   * lengths, and they add up to the total exactly when no article has another
   * impact value.
   */
  lemma BriefingInvariants(now: string, summarized: seq<Article>)
    ensures var r := Assemble(now, summarized);
      && r.Briefing?
      && r.timestamp == now
      && r.articles == summarized
      && r.total == |summarized|
      && r.breakdown == Breakdown(|r.byImpact.high|, |r.byImpact.medium|, |r.byImpact.low|)
      && (forall a :: a in r.byImpact.high <==> a in summarized && Impact(a) == JStr(High))
      && (forall a :: a in r.byImpact.medium <==> a in summarized && Impact(a) == JStr(Medium))
      && (forall a :: a in r.byImpact.low <==> a in summarized && Impact(a) == JStr(Low))
      && (forall a :: a in r.byImpact.high ==> a !in r.byImpact.medium && a !in r.byImpact.low)
      && (forall a :: a in r.byImpact.medium ==> a !in r.byImpact.low)
      && r.breakdown.high + r.breakdown.medium + r.breakdown.low <= r.total
      && (r.breakdown.high + r.breakdown.medium + r.breakdown.low == r.total <==>
          forall i :: 0 <= i < |summarized| ==> Classified(summarized[i]))
  {
    BucketMembers(summarized, High);
    BucketMembers(summarized, Medium);
    BucketMembers(summarized, Low);
    BucketCounts(summarized);
    UnbucketedEmpty(summarized);
  }

  /** What `generate_report` returns, or the exception it raises. */
  function ReportOf(f: NewsFetcher, s: Summarizer, now: string, since: string, reply: Query -> Reply, answers: nat -> Completion): Result<Report, Exception>
  {
    match Dedup(Gather(f, f.keywords, since, reply))
    case Err(e) => Err(e)
    case Ok(arts) =>
      if arts == [] then Ok(FailedStatus(NoArticlesMessage))
      else
        match SummaryRecords(s, arts, answers)
        case Err(e) => Err(e)
        case Ok(summarized) => Ok(Assemble(now, summarized))
  }

  /** No two articles of a report share a URL: summarizing keeps each deduplicated article's `url`. */
  lemma ReportUrlsDistinct(f: NewsFetcher, s: Summarizer, now: string, since: string, reply: Query -> Reply, answers: nat -> Completion)
    requires ReportOf(f, s, now, since, reply, answers).Ok? && ReportOf(f, s, now, since, reply, answers).value.Briefing?
    ensures var arts := ReportOf(f, s, now, since, reply, answers).value.articles;
      forall i, j :: 0 <= i < j < |arts| ==> KeyOf(arts[i]).Ok? && KeyOf(arts[j]).Ok? && KeyOf(arts[i]) != KeyOf(arts[j])
  {
    var out := Dedup(Gather(f, f.keywords, since, reply)).value;
    DedupKeysDistinct(Gather(f, f.keywords, since, reply));
    RecordsKeepUrls(s, out, answers);
  }

  /** Summarizing keeps every record's `url` as the article had it (or leaves it absent). */
  lemma RecordsKeepUrls(s: Summarizer, arts: seq<Article>, answers: nat -> Completion)
    requires SummaryRecords(s, arts, answers).Ok?
    ensures forall i :: 0 <= i < |arts| ==> KeyOf(SummaryRecords(s, arts, answers).value[i]) == KeyOf(arts[i])
  {
    forall i | 0 <= i < |arts|
      ensures KeyOf(SummaryRecords(s, arts, answers).value[i]) == KeyOf(arts[i])
    {
      SummaryRecordsAt(s, arts, answers, i);
      RecordKeepsUrl(s, arts[i], answers(i));
    }
  }

  lemma RecordKeepsUrl(s: Summarizer, a: Article, answer: Completion)
    ensures KeyOf(GenerateSummary(s, a, answer).record) == KeyOf(a)
  {
    SummaryKeepsArticleFields(s, a, answer);
    assert "url" !in SummaryKeys;
  }

  /**
   * A fetched article whose title cannot be sliced for the progress line makes
   * `generate_report` raise, with the first such article's exception.
   */
  lemma TitleErrorEndsReport(f: NewsFetcher, s: Summarizer, now: string, since: string, reply: Query -> Reply, answers: nat -> Completion, i: nat)
    requires Dedup(Gather(f, f.keywords, since, reply)).Ok?
    requires var arts := Dedup(Gather(f, f.keywords, since, reply)).value; i < |arts| && ProgressTitle(arts[i]).Err?
    ensures ReportOf(f, s, now, since, reply, answers).Err?
    ensures var arts := Dedup(Gather(f, f.keywords, since, reply)).value;
      exists j :: 0 <= j <= i && ProgressTitle(arts[j]) == Err(ReportOf(f, s, now, since, reply, answers).error) && forall k :: 0 <= k < j ==> ProgressTitle(arts[k]).Ok?
  {
    var arts := Dedup(Gather(f, f.keywords, since, reply)).value;
    RequestsStopAtTitleError(s, arts, answers, i);
    SummaryRecordsFirstError(s, arts, answers);
  }

  /** The run fails for want of articles exactly when no keyword produced any article. */
  lemma NoArticlesIffNothingFetched(f: NewsFetcher, s: Summarizer, now: string, since: string, reply: Query -> Reply, answers: nat -> Completion)
    ensures ReportOf(f, s, now, since, reply, answers) == Ok(FailedStatus(NoArticlesMessage)) <==> Gather(f, f.keywords, since, reply) == []
  {
    var all := Gather(f, f.keywords, since, reply);
    DedupByUrl(all);
    if all != [] && Dedup(all).Ok? {
      assert Urls(all)[0] in Urls(all);
    }
  }

  // ---------------------------------------------------------------------------
  // `print_summary`

  const TopCount: nat := 5
  const SummaryWidth: nat := 150
  const ExplanationWidth: nat := 100

  /** One numbered high-impact entry of the console digest, with its truncated texts. */
  datatype Entry = Entry(rank: nat, title: Json, source: Json, summary: Json, explanation: Json, url: Json)

  /** What `print_summary` shows: the counts and the first five high-impact articles. */
  datatype Digest = Digest(total: nat, high: nat, medium: nat, low: nat, top: seq<Entry>)

  /** One entry; slicing a summary or explanation that is not a string or list raises. */
  function EntryOf(rank: nat, a: Article): Result<Entry, Exception>
  {
    match Slice(Get(a, "summary", JStr("N/A")), SummaryWidth)
    case Err(e) => Err(e)
    case Ok(summary) =>
      match Slice(Get(a, "impact_explanation", JStr("N/A")), ExplanationWidth)
      case Err(e) => Err(e)
      case Ok(explanation) =>
        Ok(Entry(rank, Get(a, "title", JStr("Unknown")), Get(a, "source", JStr("Unknown")), summary, explanation, Get(a, "url", JStr("N/A"))))
  }

  /** The entries for `arts`, numbered from `rank`; the first failing entry's exception otherwise. */
  function Entries(arts: seq<Article>, rank: nat): (r: Result<seq<Entry>, Exception>)
    ensures r.Ok? ==> |r.value| == |arts|
  {
    if arts == [] then Ok([])
    else match EntryOf(rank, arts[0])
      case Err(e) => Err(e)
      case Ok(entry) =>
        match Entries(arts[1..], rank + 1)
        case Err(e) => Err(e)
        case Ok(rest) => Ok([entry] + rest)
  }

  /** Entry i of a formatted list is article i's, numbered `rank + i`. */
  lemma {:induction false} EntriesAt(arts: seq<Article>, rank: nat, i: nat)
    requires i < |arts| && Entries(arts, rank).Ok?
    ensures EntryOf(rank + i, arts[i]).Ok?
    ensures Entries(arts, rank).value[i] == EntryOf(rank + i, arts[i]).value
    ensures Entries(arts, rank).value[i].rank == rank + i
  {
    if i > 0 {
      EntriesAt(arts[1..], rank + 1, i - 1);
      assert arts[1..][i - 1] == arts[i];
    }
  }

  /** The list is formatted exactly when every article's entry can be formatted. */
  lemma {:induction false} EntriesOk(arts: seq<Article>, rank: nat)
    ensures Entries(arts, rank).Ok? <==> forall i :: 0 <= i < |arts| ==> EntryOf(rank + i, arts[i]).Ok?
  {
    if Entries(arts, rank).Ok? {
      forall i | 0 <= i < |arts|
        ensures EntryOf(rank + i, arts[i]).Ok?
      {
        EntriesAt(arts, rank, i);
      }
    } else if EntryOf(rank, arts[0]).Err? {
      assert EntryOf(rank + 0, arts[0]).Err?;
    } else {
      var rest := arts[1..];
      EntriesOk(rest, rank + 1);
      var j :| 0 <= j < |rest| && EntryOf(rank + 1 + j, rest[j]).Err?;
      assert rest[j] == arts[j + 1];
      assert EntryOf(rank + (j + 1), arts[j + 1]).Err?;
    }
  }

  /** A list that cannot be formatted raises the exception of its first failing entry. */
  lemma {:induction false} EntriesFirstError(arts: seq<Article>, rank: nat)
    requires Entries(arts, rank).Err?
    ensures exists i :: 0 <= i < |arts| && EntryOf(rank + i, arts[i]) == Err(Entries(arts, rank).error) && forall j :: 0 <= j < i ==> EntryOf(rank + j, arts[j]).Ok?
  {
    if EntryOf(rank, arts[0]).Err? {
      assert EntryOf(rank + 0, arts[0]) == Err(Entries(arts, rank).error);
    } else {
      var rest := arts[1..];
      EntriesFirstError(rest, rank + 1);
      var i :| 0 <= i < |rest| && EntryOf(rank + 1 + i, rest[i]) == Err(Entries(rest, rank + 1).error) && forall j :: 0 <= j < i ==> EntryOf(rank + 1 + j, rest[j]).Ok?;
      forall j | 0 <= j < i + 1
        ensures EntryOf(rank + j, arts[j]).Ok?
      {
        if j > 0 {
          assert rest[j - 1] == arts[j];
          assert rank + 1 + (j - 1) == rank + j;
        }
      }
      assert rest[i] == arts[i + 1];
      assert EntryOf(rank + (i + 1), arts[i + 1]) == Err(Entries(arts, rank).error);
    }
  }

  /** How many high-impact articles the digest shows: `high_articles[:5]`. */
  function ShownCount(high: seq<Article>): nat
  {
    if |high| < TopCount then |high| else TopCount
  }

  /** The digest of a report (only reports that did not fail are printed): the report's counts and its top entries. */
  function DigestOf(r: Report): (d: Result<Digest, Exception>)
    requires r.Briefing?
    ensures d.Ok? ==> d.value.total == r.total && d.value.high == r.breakdown.high && d.value.medium == r.breakdown.medium && d.value.low == r.breakdown.low
    ensures d.Ok? ==> |d.value.top| == ShownCount(r.byImpact.high)
  {
    var high := r.byImpact.high;
    match Entries(high[..ShownCount(high)], 1)
    case Err(e) => Err(e)
    case Ok(top) => Ok(Digest(r.total, r.breakdown.high, r.breakdown.medium, r.breakdown.low, top))
  }

  /**
   * The digest lists the first five high-impact articles (fewer when there are
   * fewer), numbered from 1, or raises the first one's formatting exception.
   */
  lemma DigestShowsFirstFive(r: Report)
    requires r.Briefing?
    ensures var n := ShownCount(r.byImpact.high);
      && (DigestOf(r).Ok? <==> forall i :: 0 <= i < n ==> EntryOf(1 + i, r.byImpact.high[i]).Ok?)
      && (DigestOf(r).Ok? ==> forall i :: 0 <= i < n ==> DigestOf(r).value.top[i] == EntryOf(1 + i, r.byImpact.high[i]).value)
      && (DigestOf(r).Err? ==> exists i :: 0 <= i < n && EntryOf(1 + i, r.byImpact.high[i]) == Err(DigestOf(r).error) && forall j :: 0 <= j < i ==> EntryOf(1 + j, r.byImpact.high[j]).Ok?)
  {
    var high := r.byImpact.high;
    var n := ShownCount(high);
    var shown := high[..n];
    assert forall i :: 0 <= i < n ==> shown[i] == high[i];
    EntriesOk(shown, 1);
    if DigestOf(r).Ok? {
      forall i | 0 <= i < n
        ensures DigestOf(r).value.top[i] == EntryOf(1 + i, high[i]).value
      {
        EntriesAt(shown, 1, i);
      }
    } else {
      EntriesFirstError(shown, 1);
    }
  }

  // ---------------------------------------------------------------------------
  // The report file

  /** `tech_news_report_<date>.json`. */
  function ReportFileName(today: string): string
  {
    "tech_news_report_" + today + ".json"
  }

  /** The date can be read back from the file name, so two days never share a file and one day always does. */
  lemma ReportFileNameParts(today: string)
    ensures var name := ReportFileName(today);
      && |name| == 17 + |today| + 5
      && name[..17] == "tech_news_report_"
      && name[17..17 + |today|] == today
      && name[17 + |today|..] == ".json"
  {
    var name := ReportFileName(today);
    assert name == ("tech_news_report_" + today) + ".json";
    assert ("tech_news_report_" + today)[..17] == "tech_news_report_";
    assert ("tech_news_report_" + today)[17..] == today;
  }

  lemma ReportFileNameInjective(d1: string, d2: string)
    ensures ReportFileName(d1) == ReportFileName(d2) <==> d1 == d2
  {
    if ReportFileName(d1) == ReportFileName(d2) {
      ReportFileNameParts(d1);
      ReportFileNameParts(d2);
    }
  }

  /** `self.output_dir / filename`: the report file of a day inside the output directory. */
  function ReportPath(dir: string, today: string): string
  {
    dir + "/" + ReportFileName(today)
  }

  // ---------------------------------------------------------------------------
  // The agent

  /**
   * `TechNewsAgent`: its fetcher, summarizer and output directory, and what it
   * has written there (report by path) and printed (digests, oldest first).
   */
  class TechNewsAgent {
    const fetcher: NewsFetcher
    const summarizer: Summarizer
    const outputDir: string := OutputDir
    var files: map<string, Report>
    var printed: seq<Digest>

    /** The output directory already holds `existing` (`mkdir(exist_ok=True)` keeps it). */
    constructor (fetcher: NewsFetcher, summarizer: Summarizer, existing: map<string, Report>)
      ensures this.fetcher == fetcher && this.summarizer == summarizer
      ensures files == existing && printed == []
    {
      this.fetcher := fetcher;
      this.summarizer := summarizer;
      this.files := existing;
      this.printed := [];
    }

    /**
     * `generate_report`: fetch, short-circuit when nothing was fetched (no
     * request is sent then), otherwise summarize and assemble the report.
     */
    method GenerateReport(now: string, since: string, reply: Query -> Reply, answers: nat -> Completion)
      returns (r: Result<Report, Exception>, sent: seq<Request>)
      ensures r == ReportOf(fetcher, summarizer, now, since, reply, answers)
      ensures var fetched := Dedup(Gather(fetcher, fetcher.keywords, since, reply));
        sent == if fetched.Ok? && fetched.value != [] then RequestsSent(summarizer, fetched.value, answers) else []
    {
      var fetched := FetchAllArticles(fetcher, since, reply);
      if fetched.Err? {
        return Err(fetched.error), [];
      }
      var articles := fetched.value;
      if articles == [] {
        return Ok(FailedStatus(NoArticlesMessage)), [];
      }
      var summarized;
      summarized, sent := SummarizeArticles(summarizer, articles, answers);
      if summarized.Err? {
        return Err(summarized.error), sent;
      }
      r := Ok(Assemble(now, summarized.value));
    }

    /** `save_report`: writes (or overwrites) the day's file. */
    method SaveReport(report: Report, today: string) returns (path: string)
      modifies this`files
      ensures path == ReportPath(outputDir, today)
      ensures files == old(files)[path := report]
    {
      path := ReportPath(outputDir, today);
      files := files[path := report];
    }

    /** `print_summary`: prints the digest, or raises while formatting an entry. */
    method PrintSummary(report: Report) returns (raised: Option<Exception>)
      requires report.Briefing?
      modifies this`printed
      ensures DigestOf(report).Ok? ==> raised == None && printed == old(printed) + [DigestOf(report).value]
      ensures DigestOf(report).Err? ==> raised == Some(DigestOf(report).error) && printed == old(printed)
    {
      var digest := DigestOf(report);
      if digest.Err? {
        return Some(digest.error);
      }
      printed := printed + [digest.value];
      raised := None;
    }

    /**
     * `run`: save and print only a report that did not fail, each when its flag
     * is set; an exception anywhere becomes an error-status result.
     */
    method Run(save: bool, show: bool, now: string, today: string, since: string, reply: Query -> Reply, answers: nat -> Completion)
      returns (r: Report)
      modifies this`files, this`printed
      ensures var g := ReportOf(fetcher, summarizer, now, since, reply, answers);
        && (g.Err? ==> r == ErrorStatus(Message(g.error)) && files == old(files) && printed == old(printed))
        && (g.Ok? && g.value.FailedStatus? ==> r == g.value && files == old(files) && printed == old(printed))
        && (g.Ok? && g.value.Briefing? ==>
            && files == (if save then old(files)[ReportPath(outputDir, today) := g.value] else old(files))
            && (!show ==> r == g.value && printed == old(printed))
            && (show && DigestOf(g.value).Ok? ==> r == g.value && printed == old(printed) + [DigestOf(g.value).value])
            && (show && DigestOf(g.value).Err? ==> r == ErrorStatus(Message(DigestOf(g.value).error)) && printed == old(printed)))
    {
      var generated, _ := GenerateReport(now, since, reply, answers);
      if generated.Err? {
        return ErrorStatus(Message(generated.error));
      }
      var report := generated.value;
      if save && !report.FailedStatus? {
        var _ := SaveReport(report, today);
      }
      if show && !report.FailedStatus? {
        var raised := PrintSummary(report);
        if raised.Some? {
          return ErrorStatus(Message(raised.value));
        }
      }
      r := report;
    }
  }

  /** `TechNewsAgent()`: the fetcher is configured first, then the summarizer; either may raise. */
  method NewTechNewsAgent(env: Env, existing: map<string, Report>) returns (r: Result<TechNewsAgent, Exception>)
    ensures r.Ok? <==> NewFetcher(env).Ok? && NewSummarizer(env).Ok?
    ensures NewFetcher(env).Err? ==> r == Err(NewFetcher(env).error)
    ensures NewFetcher(env).Ok? && NewSummarizer(env).Err? ==> r == Err(NewSummarizer(env).error)
    ensures r.Ok? ==> fresh(r.value) && r.value.fetcher == NewFetcher(env).value && r.value.summarizer == NewSummarizer(env).value
    ensures r.Ok? ==> r.value.files == existing && r.value.printed == []
  {
    var fetcher := NewFetcher(env);
    if fetcher.Err? {
      return Err(fetcher.error);
    }
    var summarizer := NewSummarizer(env);
    if summarizer.Err? {
      return Err(summarizer.error);
    }
    var agent := new TechNewsAgent(fetcher.value, summarizer.value, existing);
    r := Ok(agent);
  }
}
