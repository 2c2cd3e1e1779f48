/**
 * The summarizer (src/summarizer.py): one completion request per article with
 * usable content, and the record built from the article and the outcome of
 * that request. The completion service and `json.loads` are outside the
 * model: their combined outcome for an article is given as a `Completion`.
 */
module Summarization {
  import opened Wrappers
  import opened Records

  /** A configured `Summarizer`: the API key and the model name. */
  datatype Summarizer = Summarizer(apiKey: string, model: string)

  const DefaultModel: string := "gpt-4"

  /** `Summarizer()`: a missing or empty OPENAI_API_KEY raises ValueError. */
  function NewSummarizer(env: Env): (r: Result<Summarizer, Exception>)
    ensures r.Ok? <==> GetEnv(env, "OPENAI_API_KEY").Some? && GetEnv(env, "OPENAI_API_KEY").value != ""
    ensures r.Err? ==> r.error == ValueError("OPENAI_API_KEY not found in environment variables")
    ensures r.Ok? ==> r.value.apiKey == env["OPENAI_API_KEY"]
    ensures r.Ok? ==> r.value.model == if "MODEL_NAME" in env then env["MODEL_NAME"] else DefaultModel
  {
    var apiKey := GetEnv(env, "OPENAI_API_KEY");
    var model := match GetEnv(env, "MODEL_NAME") case Some(m) => m case None => DefaultModel;
    if apiKey.None? || apiKey.value == "" then Err(ValueError("OPENAI_API_KEY not found in environment variables"))
    else Ok(Summarizer(apiKey.value, model))
  }

  /** Characters of content that go into the prompt. */
  const ContentLimit: nat := 2000
  const Removed: string := "[Removed]"
  const Unavailable: string := "Unable to generate summary - content not available"
  const SystemInstruction: string := "You are a tech industry analyst. Always respond with valid JSON."
  const Temperature: real := 0.7
  const MaxTokens: nat := 500

  const PromptHead: string :=
    "You are a tech industry analyst. Analyze the following article and provide:\n"
    + "1. A concise 2-3 sentence summary\n"
    + "2. Business impact (HIGH/MEDIUM/LOW) with explanation\n"
    + "3. Key takeaways (2-3 bullet points)\n\n"
    + "Article Title: "
  const PromptMiddle: string := "\nArticle Content: "
  const PromptTail: string :=
    "\n\nRespond in JSON format with keys: summary, business_impact, impact_explanation, key_takeaways (array)"

  /**
   * The chat completion request for one article: the title and the truncated
   * content it embeds, and the user message built from them (None where either
   * is not a string, whose rendering by Python's `str` is not modelled).
   */
  datatype Request = Request(model: string, system: string, title: Json, excerpt: Json, prompt: Option<string>, temperature: real, maxTokens: nat)

  /** The user message of a request whose title and excerpt are strings. */
  function PromptText(title: string, excerpt: string): string
  {
    PromptHead + title + PromptMiddle + excerpt + PromptTail
  }

  /** The prompt holds the title and the excerpt at fixed offsets, between the fixed template texts. */
  lemma PromptEmbeds(title: string, excerpt: string)
    ensures var t := PromptText(title, excerpt);
      var at := |PromptHead| + |title| + |PromptMiddle|;
      && |t| == at + |excerpt| + |PromptTail|
      && t[|PromptHead|..|PromptHead| + |title|] == title
      && t[at..at + |excerpt|] == excerpt
  {
    var t := PromptText(title, excerpt);
    var at := |PromptHead| + |title| + |PromptMiddle|;
    assert t == (PromptHead + title + PromptMiddle) + excerpt + PromptTail;
    assert (PromptHead + title + PromptMiddle)[|PromptHead|..|PromptHead| + |title|] == title;
  }

  /** What became of the completion request: a parsed JSON value, unparsable text, or an exception. */
  datatype Completion =
    | Parsed(value: Json)
    | Unparsable(text: string)
    | Failed(message: string)

  /** The enriched record, and the request sent for it (None: no completion call was made). */
  datatype Summarized = Summarized(record: Article, request: Option<Request>)

  /** The keys a summary record sets over the article's own fields. */
  const SummaryKeys: seq<string> := ["summary", "business_impact", "impact_explanation", "key_takeaways"]

  /** `not content or content == "[Removed]"`. */
  predicate ContentMissing(content: Json)
  {
    !Truthy(content) || content == JStr(Removed)
  }

  function Content(a: Article): Json
  {
    Get(a, "content", JStr(""))
  }

  /** The record for an article without usable content; `impact_explanation` is left as it was. */
  function DegradedRecord(a: Article): Article
  {
    a + map["summary" := JStr(Unavailable), "business_impact" := JStr("Unknown"), "key_takeaways" := JArr([])]
  }

  /** The record for an exception raised while summarizing, with `str(e)` as `message`. */
  function ErrorRecord(a: Article, message: string): Article
  {
    a + map[
      "summary" := JStr("Error: " + message),
      "business_impact" := JStr("UNKNOWN"),
      "impact_explanation" := JStr("Processing error"),
      "key_takeaways" := JArr([])]
  }

  /** The record built from the outcome of a completion request that was sent. */
  function AnswerRecord(a: Article, answer: Completion): Article
  {
    match answer
    case Parsed(value) =>
      (match value
      case JObj(m) =>
        a + map[
          "summary" := Get(m, "summary", JStr("")),
          "business_impact" := Get(m, "business_impact", JStr("MEDIUM")),
          "impact_explanation" := Get(m, "impact_explanation", JStr("")),
          "key_takeaways" := Get(m, "key_takeaways", JArr([]))]
      case _ =>
        // `parsed.get` on a list, string, number or null raises AttributeError
        ErrorRecord(a, Message(GetOn(value, "summary", JStr("")).error)))
    case Unparsable(text) =>
      a + map[
        "summary" := JStr(text),
        "business_impact" := JStr("MEDIUM"),
        "impact_explanation" := JStr("Unable to parse response"),
        "key_takeaways" := JArr([])]
    case Failed(message) => ErrorRecord(a, message)
  }

  /**
   * `generate_summary`: every branch returns the article's own fields with the
   * summary fields laid over them; a request is sent exactly when the content
   * is usable and can be sliced.
   */
  function GenerateSummary(s: Summarizer, a: Article, answer: Completion): (r: Summarized)
    ensures "summary" in r.record && "business_impact" in r.record && "key_takeaways" in r.record
    ensures r.request.Some? <==> !ContentMissing(Content(a)) && (Content(a).JStr? || Content(a).JArr?)
  {
    var content := Content(a);
    if ContentMissing(content) then
      Summarized(DegradedRecord(a), None)
    else
      match Slice(content, ContentLimit)
      case Err(e) => Summarized(ErrorRecord(a, Message(e)), None)
      case Ok(excerpt) =>
        var title := Get(a, "title", JStr(""));
        var prompt := if title.JStr? && excerpt.JStr? then Some(PromptText(title.s, excerpt.s)) else None;
        var request := Request(s.model, SystemInstruction, title, excerpt, prompt, Temperature, MaxTokens);
        Summarized(AnswerRecord(a, answer), Some(request))
  }

  /**
   * `{**article, ...}`: every field of the article that a summary does not set
   * is kept unchanged, and the record has no other fields.
   */
  lemma SummaryKeepsArticleFields(s: Summarizer, a: Article, answer: Completion)
    ensures var r := GenerateSummary(s, a, answer).record;
      && (forall k :: k in a && k !in SummaryKeys ==> k in r && r[k] == a[k])
      && (forall k :: k in r ==> k in a || k in SummaryKeys)
  {
  }

  /** Content that is empty, missing or "[Removed]": fixed placeholder fields and no request. */
  lemma MissingContentDegrades(s: Summarizer, a: Article, answer: Completion)
    requires ContentMissing(Content(a))
    ensures var r := GenerateSummary(s, a, answer);
      && r.request == None
      && r.record["summary"] == JStr(Unavailable)
      && r.record["business_impact"] == JStr("Unknown")
      && r.record["key_takeaways"] == JArr([])
      && ("impact_explanation" in r.record <==> "impact_explanation" in a)
      && ("impact_explanation" in a ==> r.record["impact_explanation"] == a["impact_explanation"])
  {
  }

  /** The request for string content embeds its first min(|content|, 2000) characters and the title. */
  lemma RequestTruncatesContent(s: Summarizer, a: Article, answer: Completion)
    requires Content(a).JStr? && !ContentMissing(Content(a))
    ensures var r := GenerateSummary(s, a, answer);
      var c := Content(a).s;
      && r.request.Some?
      && r.request.value.excerpt.JStr?
      && r.request.value.excerpt.s <= c
      && |r.request.value.excerpt.s| == (if |c| < ContentLimit then |c| else ContentLimit)
      && r.request.value.title == Get(a, "title", JStr(""))
      && r.request.value.model == s.model
      && (r.request.value.title.JStr? ==> r.request.value.prompt == Some(PromptText(r.request.value.title.s, r.request.value.excerpt.s)))
  {
  }

  /** A parsed JSON object supplies the four fields, with defaults for absent keys. */
  lemma ParsedObjectFields(s: Summarizer, a: Article, m: map<string, Json>)
    requires (Content(a).JStr? || Content(a).JArr?) && !ContentMissing(Content(a))
    ensures var r := GenerateSummary(s, a, Parsed(JObj(m))).record;
      && r["summary"] == (if "summary" in m then m["summary"] else JStr(""))
      && r["business_impact"] == (if "business_impact" in m then m["business_impact"] else JStr("MEDIUM"))
      && r["impact_explanation"] == (if "impact_explanation" in m then m["impact_explanation"] else JStr(""))
      && r["key_takeaways"] == (if "key_takeaways" in m then m["key_takeaways"] else JArr([]))
  {
  }

  /** A reply that is not valid JSON is kept verbatim as the summary, with MEDIUM impact. */
  lemma UnparsableKeepsText(s: Summarizer, a: Article, text: string)
    requires (Content(a).JStr? || Content(a).JArr?) && !ContentMissing(Content(a))
    ensures var r := GenerateSummary(s, a, Unparsable(text)).record;
      && r["summary"] == JStr(text)
      && r["business_impact"] == JStr("MEDIUM")
      && r["impact_explanation"] == JStr("Unable to parse response")
      && r["key_takeaways"] == JArr([])
  {
  }

  /** A failed request yields the error record with UNKNOWN impact. */
  lemma FailedRequestRecord(s: Summarizer, a: Article, message: string)
    requires (Content(a).JStr? || Content(a).JArr?) && !ContentMissing(Content(a))
    ensures var r := GenerateSummary(s, a, Failed(message)).record;
      && r["summary"] == JStr("Error: " + message)
      && r["business_impact"] == JStr("UNKNOWN")
      && r["impact_explanation"] == JStr("Processing error")
      && r["key_takeaways"] == JArr([])
  {
  }

  /**
   * Content that is truthy but neither a string nor a list makes `content[:2000]`
   * raise inside the try block: no request, and the error record.
   */
  lemma UnsliceableContentIsError(s: Summarizer, a: Article, answer: Completion)
    requires !ContentMissing(Content(a)) && !Content(a).JStr? && !Content(a).JArr?
    ensures var r := GenerateSummary(s, a, answer);
      && r.request == None
      && r.record["business_impact"] == JStr("UNKNOWN")
      && r.record["impact_explanation"] == JStr("Processing error")
      && r.record["summary"] == JStr("Error: " + Message(Slice(Content(a), ContentLimit).error))
  {
  }

  // ---------------------------------------------------------------------------
  // `summarize_articles`

  /** Characters of the title shown in the progress line. */
  const TitleWidth: nat := 60

  /**
   * The progress line's `article.get('title', 'Unknown')[:60]`: a title that is
   * neither a string nor a list raises TypeError there, outside any handler.
   */
  function ProgressTitle(a: Article): Result<Json, Exception>
  {
    Slice(Get(a, "title", JStr("Unknown")), TitleWidth)
  }

  /**
   * The records for `arts`, in order (article i is answered by `answers(i)`),
   * or the exception of the progress line that ends the loop.
   */
  function SummaryRecords(s: Summarizer, arts: seq<Article>, answers: nat -> Completion): (r: Result<seq<Article>, Exception>)
    ensures r.Ok? ==> |r.value| == |arts|
  {
    if arts == [] then Ok([])
    else
      var n := |arts| - 1;
      match SummaryRecords(s, arts[..n], answers)
      case Err(e) => Err(e)
      case Ok(done) =>
        match ProgressTitle(arts[n])
        case Err(e) => Err(e)
        case Ok(_) => Ok(done + [GenerateSummary(s, arts[n], answers(n)).record])
  }

  /** The completion requests sent for `arts`, in order, until a progress line raises. */
  function RequestsSent(s: Summarizer, arts: seq<Article>, answers: nat -> Completion): seq<Request>
  {
    if arts == [] then []
    else
      var n := |arts| - 1;
      var before := RequestsSent(s, arts[..n], answers);
      if SummaryRecords(s, arts[..n], answers).Err? || ProgressTitle(arts[n]).Err? then before
      else
        var request := GenerateSummary(s, arts[n], answers(n)).request;
        before + (if request.Some? then [request.value] else [])
  }

  /** The loop runs to the end exactly when every title can be sliced. */
  lemma {:induction false} SummaryRecordsOk(s: Summarizer, arts: seq<Article>, answers: nat -> Completion)
    ensures SummaryRecords(s, arts, answers).Ok? <==> forall i :: 0 <= i < |arts| ==> ProgressTitle(arts[i]).Ok?
  {
    if arts != [] {
      var n := |arts| - 1;
      SummaryRecordsOk(s, arts[..n], answers);
      assert forall i :: 0 <= i < n ==> arts[..n][i] == arts[i];
    }
  }

  /** Record i of a completed loop is `generate_summary(articles[i])`. */
  lemma {:induction false} SummaryRecordsAt(s: Summarizer, arts: seq<Article>, answers: nat -> Completion, i: nat)
    requires i < |arts| && SummaryRecords(s, arts, answers).Ok?
    ensures SummaryRecords(s, arts, answers).value[i] == GenerateSummary(s, arts[i], answers(i)).record
  {
    var n := |arts| - 1;
    if i < n {
      SummaryRecordsAt(s, arts[..n], answers, i);
      assert arts[..n][i] == arts[i];
    }
  }

  /** A loop that raises raises the exception of the first title that cannot be sliced. */
  lemma {:induction false} SummaryRecordsFirstError(s: Summarizer, arts: seq<Article>, answers: nat -> Completion)
    requires SummaryRecords(s, arts, answers).Err?
    ensures exists i :: 0 <= i < |arts| && ProgressTitle(arts[i]) == Err(SummaryRecords(s, arts, answers).error) && forall j :: 0 <= j < i ==> ProgressTitle(arts[j]).Ok?
  {
    var n := |arts| - 1;
    var prefix := arts[..n];
    assert forall j :: 0 <= j < n ==> prefix[j] == arts[j];
    if SummaryRecords(s, prefix, answers).Err? {
      SummaryRecordsFirstError(s, prefix, answers);
      var i :| 0 <= i < |prefix| && ProgressTitle(prefix[i]) == Err(SummaryRecords(s, prefix, answers).error) && forall j :: 0 <= j < i ==> ProgressTitle(prefix[j]).Ok?;
      assert ProgressTitle(arts[i]) == Err(SummaryRecords(s, arts, answers).error);
    } else {
      SummaryRecordsOk(s, prefix, answers);
      assert ProgressTitle(arts[n]) == Err(SummaryRecords(s, arts, answers).error);
    }
  }

  /** Once a prefix has raised, the rest of the articles change neither the outcome nor the requests sent. */
  lemma {:induction false} SummaryFailsEarly(s: Summarizer, arts: seq<Article>, answers: nat -> Completion, i: nat)
    requires i <= |arts|
    requires SummaryRecords(s, arts[..i], answers).Err?
    ensures SummaryRecords(s, arts, answers) == SummaryRecords(s, arts[..i], answers)
    ensures RequestsSent(s, arts, answers) == RequestsSent(s, arts[..i], answers)
    decreases |arts| - i
  {
    if i < |arts| {
      assert arts[..i + 1][..i] == arts[..i];
      SummaryFailsEarly(s, arts, answers, i + 1);
    } else {
      assert arts[..i] == arts;
    }
  }

  /**
   * An article whose title cannot be sliced ends the loop with an exception,
   * and only the articles before it have had their requests sent.
   */
  lemma RequestsStopAtTitleError(s: Summarizer, arts: seq<Article>, answers: nat -> Completion, i: nat)
    requires i < |arts| && ProgressTitle(arts[i]).Err?
    ensures SummaryRecords(s, arts, answers).Err?
    ensures RequestsSent(s, arts, answers) == RequestsSent(s, arts[..i], answers)
  {
    var upto := arts[..i + 1];
    assert upto[..i] == arts[..i];
    assert SummaryRecords(s, upto, answers).Err?;
    assert RequestsSent(s, upto, answers) == RequestsSent(s, arts[..i], answers);
    SummaryFailsEarly(s, arts, answers, i + 1);
  }

  /** At most one request per article, and none when no article has usable content. */
  lemma {:induction false} RequestsSentBound(s: Summarizer, arts: seq<Article>, answers: nat -> Completion)
    ensures |RequestsSent(s, arts, answers)| <= |arts|
    ensures (forall i :: 0 <= i < |arts| ==> ContentMissing(Content(arts[i]))) ==> RequestsSent(s, arts, answers) == []
  {
    if arts != [] {
      var n := |arts| - 1;
      RequestsSentBound(s, arts[..n], answers);
      assert forall i :: 0 <= i < n ==> arts[..n][i] == arts[i];
    }
  }

  /**
   * `summarize_articles`: for each article in turn, the progress line (whose
   * title slice may raise) and then one `generate_summary`, appended in order.
   */
  method SummarizeArticles(s: Summarizer, articles: seq<Article>, answers: nat -> Completion)
    returns (summarized: Result<seq<Article>, Exception>, sent: seq<Request>)
    ensures summarized == SummaryRecords(s, articles, answers)
    ensures sent == RequestsSent(s, articles, answers)
    ensures summarized.Ok? ==> |summarized.value| == |articles|
  {
    var done: seq<Article> := [];
    sent := [];
    for i := 0 to |articles|
      invariant SummaryRecords(s, articles[..i], answers) == Ok(done)
      invariant sent == RequestsSent(s, articles[..i], answers)
    {
      assert articles[..i + 1][..i] == articles[..i];
      var title := ProgressTitle(articles[i]);
      if title.Err? {
        SummaryFailsEarly(s, articles, answers, i + 1);
        return Err(title.error), sent;
      }
      var summary := GenerateSummary(s, articles[i], answers(i));
      done := done + [summary.record];
      if summary.request.Some? {
        sent := sent + [summary.request.value];
      }
    }
    assert articles[..|articles|] == articles;
    summarized := Ok(done);
  }
}
