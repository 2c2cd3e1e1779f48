/**
 * The news fetcher (src/news_fetcher.py): configuration from the environment,
 * one NewsAPI query per keyword, the merge of all results in keyword order and
 * the deduplication by URL that a Python dict comprehension performs.
 */
module NewsFetch {
  import opened Wrappers
  import opened Records

  const BaseUrl: string := "https://newsapi.org/v2/everything"
  const Keywords: seq<string> := ["AI", "software", "cloud", "infrastructure", "security", "analyst"]
  const DefaultMaxArticles: int := 5
  /** Number of records `get_articles_sample` keeps. */
  const SampleSize: nat := 10

  /** A configured `NewsFetcher`; its fields never change after construction. */
  datatype NewsFetcher = NewsFetcher(apiKey: string, baseUrl: string, keywords: seq<string>, maxArticles: int)

  // ---------------------------------------------------------------------------
  // int(...) on the MAX_ARTICLES_PER_KEYWORD variable

  predicate IsDigits(s: string)
  {
    |s| > 0 && forall i :: 0 <= i < |s| ==> '0' <= s[i] <= '9'
  }

  function DigitsValue(s: string): nat
    requires forall i :: 0 <= i < |s| ==> '0' <= s[i] <= '9'
  {
    if s == [] then 0 else 10 * DigitsValue(s[..|s| - 1]) + (s[|s| - 1] - '0') as nat
  }

  /** `int(s)` for an optional sign followed by decimal digits; anything else raises ValueError. */
  function ParseInt(s: string): (r: Result<int, Exception>)
    ensures r.Err? ==> r.error == ValueError("invalid literal for int() with base 10: '" + s + "'")
    ensures r.Ok? <==> IsDigits(s) || (|s| > 1 && s[0] in "+-" && IsDigits(s[1..]))
  {
    if IsDigits(s) then Ok(DigitsValue(s))
    else if |s| > 1 && (s[0] == '+' || s[0] == '-') && IsDigits(s[1..]) then
      var magnitude: int := DigitsValue(s[1..]);
      Ok(if s[0] == '-' then -magnitude else magnitude)
    else Err(ValueError("invalid literal for int() with base 10: '" + s + "'"))
  }

  /** The decimal spelling of a natural number, as `str(n)` writes it. */
  function Decimal(n: nat): (s: string)
    ensures IsDigits(s)
  {
    if n < 10 then ['0' + n as char] else Decimal(n / 10) + ['0' + (n % 10) as char]
  }

  /** Reading back a written count gives the count: `int(str(n)) == n`. */
  lemma {:induction false} ParseDecimal(n: nat)
    ensures ParseInt(Decimal(n)) == Ok(n)
  {
    DigitsOfDecimal(n);
  }

  /** A sign in front of a written count: `int("-" + str(n)) == -n` and `int("+" + str(n)) == n`. */
  lemma SignedDecimal(n: nat)
    ensures ParseInt("-" + Decimal(n)) == Ok(-(n as int))
    ensures ParseInt("+" + Decimal(n)) == Ok(n)
  {
    DigitsOfDecimal(n);
    var minus, plus := "-" + Decimal(n), "+" + Decimal(n);
    assert minus[0] == '-' && minus[1..] == Decimal(n) && !IsDigits(minus);
    assert plus[0] == '+' && plus[1..] == Decimal(n) && !IsDigits(plus);
  }

  /** `k` zero characters. */
  function Zeros(k: nat): (z: string)
    ensures |z| == k && forall i :: 0 <= i < k ==> z[i] == '0'
  {
    if k == 0 then [] else Zeros(k - 1) + ['0']
  }

  /** Leading zeros do not change the value: `int("007") == 7`. */
  lemma ZeroPaddedDecimal(k: nat, n: nat)
    ensures ParseInt(Zeros(k) + Decimal(n)) == Ok(n)
  {
    var z, d := Zeros(k), Decimal(n);
    forall i | 0 <= i < |z + d|
      ensures '0' <= (z + d)[i] <= '9'
    {
      if i < k {
        assert (z + d)[i] == z[i];
      } else {
        assert (z + d)[i] == d[i - k];
      }
    }
    assert IsDigits(z + d);
    DigitsOfDecimal(n);
    LeadingZeros(k, d);
  }

  lemma {:induction false} LeadingZeros(k: nat, s: string)
    requires forall i :: 0 <= i < |s| ==> '0' <= s[i] <= '9'
    ensures DigitsValue(Zeros(k) + s) == DigitsValue(s)
  {
    if s == [] {
      assert Zeros(k) + s == Zeros(k);
      ZerosValue(k);
    } else {
      var n := |s| - 1;
      assert (Zeros(k) + s)[..k + n] == Zeros(k) + s[..n];
      LeadingZeros(k, s[..n]);
    }
  }

  lemma {:induction false} ZerosValue(k: nat)
    ensures DigitsValue(Zeros(k)) == 0
  {
    if k > 0 {
      ZerosValue(k - 1);
      assert Zeros(k)[..k - 1] == Zeros(k - 1);
    }
  }

  lemma {:induction false} DigitsOfDecimal(n: nat)
    ensures DigitsValue(Decimal(n)) == n
  {
    if n >= 10 {
      DigitsOfDecimal(n / 10);
      var s := Decimal(n);
      assert s[..|s| - 1] == Decimal(n / 10);
    }
  }

  /**
   * `NewsFetcher()`: the page size is read (and parsed) first, then a missing or
   * empty NEWS_API_KEY raises ValueError; nothing is fetched either way.
   */
  function NewFetcher(env: Env): (r: Result<NewsFetcher, Exception>)
    ensures r.Ok? <==>
      GetEnv(env, "NEWS_API_KEY").Some? && GetEnv(env, "NEWS_API_KEY").value != "" &&
      (GetEnv(env, "MAX_ARTICLES_PER_KEYWORD").None? || ParseInt(GetEnv(env, "MAX_ARTICLES_PER_KEYWORD").value).Ok?)
    ensures r.Ok? ==> r.value.apiKey == env["NEWS_API_KEY"] && r.value.keywords == Keywords
    ensures r.Ok? && "MAX_ARTICLES_PER_KEYWORD" !in env ==> r.value.maxArticles == DefaultMaxArticles
    ensures r.Ok? && "MAX_ARTICLES_PER_KEYWORD" in env ==> r.value.maxArticles == ParseInt(env["MAX_ARTICLES_PER_KEYWORD"]).value
    ensures "MAX_ARTICLES_PER_KEYWORD" in env && ParseInt(env["MAX_ARTICLES_PER_KEYWORD"]).Err? ==> r == Err(ParseInt(env["MAX_ARTICLES_PER_KEYWORD"]).error)
    ensures r.Err? && (GetEnv(env, "MAX_ARTICLES_PER_KEYWORD").None? || ParseInt(GetEnv(env, "MAX_ARTICLES_PER_KEYWORD").value).Ok?) ==>
      r.error == ValueError("NEWS_API_KEY not found in environment variables")
  {
    var apiKey := GetEnv(env, "NEWS_API_KEY");
    var max := match GetEnv(env, "MAX_ARTICLES_PER_KEYWORD")
      case None => Ok(DefaultMaxArticles)
      case Some(raw) => ParseInt(raw);
    if max.Err? then Err(max.error)
    else if apiKey.None? || apiKey.value == "" then Err(ValueError("NEWS_API_KEY not found in environment variables"))
    else Ok(NewsFetcher(apiKey.value, BaseUrl, Keywords, max.value))
  }

  // ---------------------------------------------------------------------------
  // One query per keyword

  /** The parameters of the GET request for one keyword. */
  datatype Query = Query(url: string, q: string, from: string, sortBy: string, language: string, apiKey: string, pageSize: int)

  /** What the provider's answer amounts to: a request exception, or a body with its `status` and `articles`. */
  datatype Reply =
    | RequestFailed(message: string)
    | Answered(status: Json, articles: seq<Article>)

  /** The request for `keyword`; `since` is the date seven days before the call, as YYYY-MM-DD. */
  function QueryFor(f: NewsFetcher, keyword: string, since: string): (q: Query)
    ensures q.q == keyword && q.from == since && q.apiKey == f.apiKey && q.pageSize == f.maxArticles
    ensures q.sortBy == "relevancy" && q.language == "en" && q.url == f.baseUrl
  {
    Query(f.baseUrl, keyword, since, "relevancy", "en", f.apiKey, f.maxArticles)
  }

  /** True when the reply is a request exception or a body whose status is not "ok". */
  predicate FetchFailed(r: Reply)
  {
    r.RequestFailed? || r.status != JStr("ok")
  }

  /** `fetch_articles_by_keyword`: a failed fetch is an empty list, never an exception. */
  function FetchByKeyword(f: NewsFetcher, keyword: string, since: string, reply: Query -> Reply): (r: seq<Article>)
    ensures FetchFailed(reply(QueryFor(f, keyword, since))) ==> r == []
    ensures !FetchFailed(reply(QueryFor(f, keyword, since))) ==> r == reply(QueryFor(f, keyword, since)).articles
  {
    var answer := reply(QueryFor(f, keyword, since));
    if FetchFailed(answer) then [] else answer.articles
  }

  /** The concatenation of the per-keyword results, in keyword order (`all_articles`). */
  function Gather(f: NewsFetcher, kws: seq<string>, since: string, reply: Query -> Reply): seq<Article>
  {
    if kws == [] then []
    else Gather(f, kws[..|kws| - 1], since, reply) + FetchByKeyword(f, kws[|kws| - 1], since, reply)
  }

  lemma {:induction false} GatherAppend(f: NewsFetcher, a: seq<string>, b: seq<string>, since: string, reply: Query -> Reply)
    ensures Gather(f, a + b, since, reply) == Gather(f, a, since, reply) + Gather(f, b, since, reply)
    decreases |b|
  {
    if b == [] {
      assert a + b == a;
    } else {
      var b' := b[..|b| - 1];
      assert (a + b)[..|a + b| - 1] == a + b';
      GatherAppend(f, a, b', since, reply);
    }
  }

  /**
   * A keyword whose fetch fails contributes nothing: the merged list is what the
   * other keywords give, in their order, as if that keyword were not queried.
   */
  lemma {:induction false} FailedKeywordContributesNothing(f: NewsFetcher, kws: seq<string>, i: nat, since: string, reply: Query -> Reply)
    requires i < |kws|
    requires FetchFailed(reply(QueryFor(f, kws[i], since)))
    ensures Gather(f, kws, since, reply) == Gather(f, kws[..i] + kws[i + 1..], since, reply)
    ensures Gather(f, kws, since, reply) == Gather(f, kws[..i], since, reply) + Gather(f, kws[i + 1..], since, reply)
  {
    var before, after := kws[..i], kws[i + 1..];
    var rest := [kws[i]] + after;
    assert kws == before + rest;
    GatherFailedSingle(f, kws[i], since, reply);
    GatherAppend(f, [kws[i]], after, since, reply);
    assert Gather(f, rest, since, reply) == Gather(f, after, since, reply);
    GatherAppend(f, before, rest, since, reply);
    GatherAppend(f, before, after, since, reply);
  }

  lemma GatherFailedSingle(f: NewsFetcher, keyword: string, since: string, reply: Query -> Reply)
    requires FetchFailed(reply(QueryFor(f, keyword, since)))
    ensures Gather(f, [keyword], since, reply) == []
  {
    assert [keyword][..0] == [];
  }

  // ---------------------------------------------------------------------------
  // `{article["url"]: article for article in all_articles}`

  /**
   * The dict key a JSON value becomes: Python's `True == 1` and `False == 0`
   * make a boolean and that integer the same key.
   */
  function Canon(j: Json): Json
  {
    match j
    case JBool(b) => JNum(if b then 1 else 0)
    case _ => j
  }

  /** `article["url"]` used as a dict key: KeyError when absent, TypeError when unhashable. */
  function KeyOf(a: Article): (r: Result<Json, Exception>)
    ensures "url" !in a ==> r == Err(KeyError("url"))
    ensures "url" in a && (a["url"].JArr? || a["url"].JObj?) ==> r == Err(TypeError("unhashable type: '" + TypeName(a["url"]) + "'"))
    ensures r.Ok? <==> "url" in a && !a["url"].JArr? && !a["url"].JObj?
  {
    if "url" !in a then Err(KeyError("url"))
    else if a["url"].JArr? || a["url"].JObj? then Err(TypeError("unhashable type: '" + TypeName(a["url"]) + "'"))
    else Ok(Canon(a["url"]))
  }

  /** The comprehension's key-value pairs, evaluated left to right; the first bad article raises. */
  function Keyed(all: seq<Article>): (r: Result<seq<(Json, Article)>, Exception>)
    ensures r.Ok? <==> forall i :: 0 <= i < |all| ==> KeyOf(all[i]).Ok?
    ensures r.Ok? ==> |r.value| == |all| && forall i :: 0 <= i < |all| ==> r.value[i] == (KeyOf(all[i]).value, all[i])
    ensures r.Err? ==> exists i :: 0 <= i < |all| && KeyOf(all[i]) == Err(r.error) && forall j :: 0 <= j < i ==> KeyOf(all[j]).Ok?
  {
    if all == [] then Ok([])
    else match KeyOf(all[0])
      case Err(e) => Err(e)
      case Ok(k) =>
        match Keyed(all[1..])
        case Err(e) =>
          assert forall i :: 1 <= i < |all| ==> all[i] == all[1..][i - 1];
          Err(e)
        case Ok(rest) =>
          assert forall i :: 1 <= i < |all| ==> all[i] == all[1..][i - 1];
          Ok([(k, all[0])] + rest)
  }

  function KeySeq(ps: seq<(Json, Article)>): (ks: seq<Json>)
    ensures |ks| == |ps| && forall i :: 0 <= i < |ps| ==> ks[i] == ps[i].0
  {
    seq(|ps|, i requires 0 <= i < |ps| => ps[i].0)
  }

  /** Index of the first occurrence of `k` in `ks`. */
  function FirstWith(ks: seq<Json>, k: Json): (i: nat)
    requires k in ks
    ensures i < |ks| && ks[i] == k && k !in ks[..i]
  {
    if ks[0] == k then 0 else 1 + FirstWith(ks[1..], k)
  }

  /** Index of the last occurrence of `k` in `ks`. */
  function LastWith(ks: seq<Json>, k: Json): (i: nat)
    requires k in ks
    ensures i < |ks| && ks[i] == k && k !in ks[i + 1..]
  {
    if ks[|ks| - 1] == k then |ks| - 1 else LastWith(ks[..|ks| - 1], k)
  }

  predicate Distinct(ks: seq<Json>)
  {
    forall i, j :: 0 <= i < j < |ks| ==> ks[i] != ks[j]
  }

  /** An insertion-ordered Python dict: the keys in insertion order, and the value of each. */
  datatype Dict = Dict(order: seq<Json>, entries: map<Json, Article>)

  ghost predicate WellFormed(d: Dict)
  {
    Distinct(d.order) && forall k :: k in d.entries <==> k in d.order
  }

  /** `d[k] = v`: a new key goes to the end, an existing key keeps its place and takes the new value. */
  function Put(d: Dict, k: Json, v: Article): Dict
  {
    if k in d.entries then Dict(d.order, d.entries[k := v]) else Dict(d.order + [k], d.entries[k := v])
  }

  /** The dict the comprehension builds from its pairs, inserted left to right. */
  function Build(ps: seq<(Json, Article)>): (d: Dict)
    ensures WellFormed(d)
    ensures forall k :: k in d.order <==> k in KeySeq(ps)
  {
    if ps == [] then Dict([], map[])
    else
      var n := |ps| - 1;
      assert KeySeq(ps) == KeySeq(ps[..n]) + [ps[n].0];
      Put(Build(ps[..n]), ps[n].0, ps[n].1)
  }

  /** `list(d.values())`. */
  function Values(d: Dict): (vs: seq<Article>)
    requires forall i :: 0 <= i < |d.order| ==> d.order[i] in d.entries
    ensures |vs| == |d.order| && forall i :: 0 <= i < |d.order| ==> vs[i] == d.entries[d.order[i]]
  {
    seq(|d.order|, i requires 0 <= i < |d.order| => d.entries[d.order[i]])
  }

  /** Each key's value is the value of the last pair with that key. */
  lemma {:induction false} BuildKeepsLast(ps: seq<(Json, Article)>)
    ensures forall k :: k in Build(ps).entries ==> Build(ps).entries[k] == ps[LastWith(KeySeq(ps), k)].1
  {
    if ps != [] {
      var n := |ps| - 1;
      BuildKeepsLast(ps[..n]);
      var ks := KeySeq(ps);
      assert ks[..n] == KeySeq(ps[..n]);
      forall k | k in Build(ps).entries
        ensures Build(ps).entries[k] == ps[LastWith(ks, k)].1
      {
        if k != ps[n].0 {
          var j := LastWith(ks, k);
          assert j != n;
          assert k in ks[..n];
          var j' := LastWith(ks[..n], k);
          assert ks[j'] == k && k !in ks[j' + 1..];
          LastUnique(ks, k, j, j');
        }
      }
    }
  }

  lemma LastUnique(ks: seq<Json>, k: Json, a: nat, b: nat)
    requires a < |ks| && b < |ks| && ks[a] == k && ks[b] == k
    requires k !in ks[a + 1..] && k !in ks[b + 1..]
    ensures a == b
  {
  }

  lemma FirstUnique(ks: seq<Json>, k: Json, a: nat, b: nat)
    requires a < |ks| && b < |ks| && ks[a] == k && ks[b] == k
    requires k !in ks[..a] && k !in ks[..b]
    ensures a == b
  {
  }

  /** Keys stay in the order of their first occurrence among the pairs. */
  lemma {:induction false} BuildFirstOrder(ps: seq<(Json, Article)>)
    ensures var d := Build(ps);
      forall i, j :: 0 <= i < j < |d.order| ==> FirstWith(KeySeq(ps), d.order[i]) < FirstWith(KeySeq(ps), d.order[j])
  {
    if ps != [] {
      var n := |ps| - 1;
      BuildFirstOrder(ps[..n]);
      BuildStep(ps);
      var ks' := KeySeq(ps[..n]);
      var x := ps[n].0;
      var o' := Build(ps[..n]).order;
      var o := Build(ps).order;
      forall i | 0 <= i < |o'| ensures FirstWith(ks' + [x], o'[i]) == FirstWith(ks', o'[i]) {
        FirstWithSnoc(ks', x, o'[i]);
      }
      if x !in ks' {
        FirstWithNew(ks', x);
        assert o == o' + [x];
      }
    }
  }

  lemma FirstWithSnoc(ks: seq<Json>, x: Json, k: Json)
    requires k in ks
    ensures FirstWith(ks + [x], k) == FirstWith(ks, k)
  {
    var a := FirstWith(ks, k);
    assert (ks + [x])[..a] == ks[..a];
    FirstUnique(ks + [x], k, a, FirstWith(ks + [x], k));
  }

  lemma FirstWithNew(ks: seq<Json>, x: Json)
    requires x !in ks
    ensures FirstWith(ks + [x], x) == |ks|
  {
    assert (ks + [x])[..|ks|] == ks;
    FirstUnique(ks + [x], x, |ks|, FirstWith(ks + [x], x));
  }

  /** One insertion step of the comprehension, seen on the key order alone. */
  lemma BuildStep(ps: seq<(Json, Article)>)
    requires ps != []
    ensures var n := |ps| - 1;
      && KeySeq(ps) == KeySeq(ps[..n]) + [ps[n].0]
      && Build(ps).order == if ps[n].0 in KeySeq(ps[..n]) then Build(ps[..n]).order else Build(ps[..n]).order + [ps[n].0]
  {
    var n := |ps| - 1;
    var d' := Build(ps[..n]);
    assert Build(ps) == Put(d', ps[n].0, ps[n].1);
    assert ps[n].0 in d'.entries <==> ps[n].0 in KeySeq(ps[..n]);
    KeySeqSnoc(ps);
  }

  lemma KeySeqSnoc(ps: seq<(Json, Article)>)
    requires ps != []
    ensures KeySeq(ps) == KeySeq(ps[..|ps| - 1]) + [ps[|ps| - 1].0]
  {
  }

  /** At most one key per pair, and one per pair exactly when the keys are pairwise distinct. */
  lemma {:induction false} BuildSize(ps: seq<(Json, Article)>)
    ensures |Build(ps).order| <= |ps|
    ensures |Build(ps).order| == |ps| <==> Distinct(KeySeq(ps))
  {
    if ps != [] {
      var n := |ps| - 1;
      BuildSize(ps[..n]);
      BuildStep(ps);
      var ks := KeySeq(ps);
      var ks' := KeySeq(ps[..n]);
      DistinctSnoc(ks', ps[n].0);
    }
  }

  lemma DistinctSnoc(ks: seq<Json>, k: Json)
    ensures Distinct(ks + [k]) <==> Distinct(ks) && k !in ks
  {
    if Distinct(ks) && k !in ks {
      forall i, j | 0 <= i < j < |ks| + 1 ensures (ks + [k])[i] != (ks + [k])[j] {
        if j == |ks| { assert (ks + [k])[i] == ks[i]; }
      }
    }
    if Distinct(ks + [k]) {
      forall i, j | 0 <= i < j < |ks| ensures ks[i] != ks[j] {
        assert (ks + [k])[i] == ks[i] && (ks + [k])[j] == ks[j];
      }
      forall i | 0 <= i < |ks| ensures ks[i] != k {
        assert (ks + [k])[i] == ks[i] && (ks + [k])[|ks|] == k;
      }
    }
  }

  /** The deduplicated list `fetch_all_articles` returns, or the exception the comprehension raises. */
  function Dedup(all: seq<Article>): (r: Result<seq<Article>, Exception>)
    ensures r.Ok? ==> |r.value| <= |all|
  {
    match Keyed(all)
    case Err(e) => Err(e)
    case Ok(ps) =>
      var d := Build(ps);
      BuildSize(ps);
      Ok(Values(d))
  }

  /** The URL key of every article of a list whose URLs are all usable as keys. */
  ghost function Urls(arts: seq<Article>): (ks: seq<Json>)
    requires forall i :: 0 <= i < |arts| ==> KeyOf(arts[i]).Ok?
    ensures |ks| == |arts| && forall i :: 0 <= i < |arts| ==> Ok(ks[i]) == KeyOf(arts[i])
  {
    seq(|arts|, i requires 0 <= i < |arts| => KeyOf(arts[i]).value)
  }

  /** Any two articles of a deduplicated list have usable, different URL keys. */
  lemma DedupKeysDistinct(all: seq<Article>)
    requires Dedup(all).Ok?
    ensures var out := Dedup(all).value;
      forall i, j :: 0 <= i < j < |out| ==> KeyOf(out[i]).Ok? && KeyOf(out[j]).Ok? && KeyOf(out[i]) != KeyOf(out[j])
  {
    DedupByUrl(all);
    var out := Dedup(all).value;
    forall i, j | 0 <= i < j < |out|
      ensures KeyOf(out[i]).Ok? && KeyOf(out[j]).Ok? && KeyOf(out[i]) != KeyOf(out[j])
    {
      assert Urls(out)[i] != Urls(out)[j];
    }
  }

  /**
   * The deduplication, stated on the fetched articles: it fails exactly when
   * some article has no usable URL, and then with the first such article's
   * exception; otherwise it keeps one article per distinct URL, none lost and
   * none repeated, in order of each URL's first appearance, and the article
   * kept for a URL is the last one fetched with it.
   */
  lemma DedupByUrl(all: seq<Article>)
    ensures Dedup(all).Ok? <==> forall i :: 0 <= i < |all| ==> KeyOf(all[i]).Ok?
    ensures Dedup(all).Err? ==>
      exists i :: 0 <= i < |all| && KeyOf(all[i]) == Err(Dedup(all).error) && forall j :: 0 <= j < i ==> KeyOf(all[j]).Ok?
    ensures Dedup(all).Ok? ==>
      var out := Dedup(all).value;
      && (forall j :: 0 <= j < |out| ==> KeyOf(out[j]).Ok?)
      && Distinct(Urls(out))
      && (forall k :: k in Urls(out) <==> k in Urls(all))
      && (forall j :: 0 <= j < |out| ==> out[j] == all[LastWith(Urls(all), Urls(out)[j])])
      && (forall i, j :: 0 <= i < j < |out| ==> FirstWith(Urls(all), Urls(out)[i]) < FirstWith(Urls(all), Urls(out)[j]))
      && |out| <= |all|
      && (|out| == |all| <==> Distinct(Urls(all)))
  {
    if Keyed(all).Ok? {
      var ps := Keyed(all).value;
      var d := Build(ps);
      var out := Dedup(all).value;
      var ks := Urls(all);
      assert ks == KeySeq(ps);
      BuildKeepsLast(ps);
      BuildFirstOrder(ps);
      BuildSize(ps);
      forall j | 0 <= j < |out|
        ensures KeyOf(out[j]) == Ok(d.order[j]) && out[j] == all[LastWith(ks, d.order[j])]
      {
        var i := LastWith(ks, d.order[j]);
        assert out[j] == ps[i].1 == all[i];
      }
      assert Urls(out) == d.order;
    }
  }

  // ---------------------------------------------------------------------------
  // The fetcher's two public operations

  /** `fetch_all_articles`: query every keyword in order, extend, then deduplicate by URL. */
  method FetchAllArticles(f: NewsFetcher, since: string, reply: Query -> Reply) returns (r: Result<seq<Article>, Exception>)
    ensures r == Dedup(Gather(f, f.keywords, since, reply))
    ensures r.Ok? ==> |r.value| <= |Gather(f, f.keywords, since, reply)|
  {
    var all: seq<Article> := [];
    for i := 0 to |f.keywords|
      invariant all == Gather(f, f.keywords[..i], since, reply)
    {
      assert f.keywords[..i + 1][..i] == f.keywords[..i];
      var articles := FetchByKeyword(f, f.keywords[i], since, reply);
      all := all + articles;
    }
    assert f.keywords[..|f.keywords|] == f.keywords;
    r := Dedup(all);
  }

  /** The keys of a formatted sample record. */
  const ProjectedKeys: seq<string> := ["title", "source", "url", "content", "published_at"]

  /**
   * One formatted record of `get_articles_sample`; `source` must be a dict
   * (or absent), any other value raises AttributeError.
   */
  function Project(a: Article): (r: Result<Article, Exception>)
    ensures r.Ok? <==> Get(a, "source", JObj(map[])).JObj?
    ensures r.Err? ==> r.error == AttributeError("'" + TypeName(Get(a, "source", JObj(map[]))) + "' object has no attribute 'get'")
  {
    match GetOn(Get(a, "source", JObj(map[])), "name", JNull)
    case Err(e) => Err(e)
    case Ok(name) =>
      Ok(map[
        "title" := Get(a, "title", JNull),
        "source" := name,
        "url" := Get(a, "url", JNull),
        "content" := Get(a, "description", JNull),
        "published_at" := Get(a, "publishedAt", JNull)])
  }

  /**
   * A formatted record has exactly the five keys; `content` comes from the
   * article's `description` and `source` from the name inside its `source`.
   */
  lemma ProjectFields(a: Article)
    requires Project(a).Ok?
    ensures var p := Project(a).value;
      && (forall k :: k in p <==> k in ProjectedKeys)
      && p["title"] == Get(a, "title", JNull)
      && p["source"] == Get(Get(a, "source", JObj(map[])).fields, "name", JNull)
      && p["url"] == Get(a, "url", JNull)
      && p["content"] == Get(a, "description", JNull)
      && p["published_at"] == Get(a, "publishedAt", JNull)
  {
  }

  /**
   * The projections of `arts`, formatted left to right, or the exception of
   * the first article whose projection raises.
   */
  function ProjectAll(arts: seq<Article>): (r: Result<seq<Article>, Exception>)
    ensures r.Ok? ==> |r.value| == |arts|
  {
    if arts == [] then Ok([])
    else match ProjectAll(arts[..|arts| - 1])
      case Err(e) => Err(e)
      case Ok(done) =>
        match Project(arts[|arts| - 1])
        case Err(e) => Err(e)
        case Ok(p) => Ok(done + [p])
  }

  /** The formatted list is produced exactly when every projection succeeds. */
  lemma {:induction false} ProjectAllOk(arts: seq<Article>)
    ensures ProjectAll(arts).Ok? <==> forall j :: 0 <= j < |arts| ==> Project(arts[j]).Ok?
  {
    if arts != [] {
      var n := |arts| - 1;
      ProjectAllOk(arts[..n]);
      assert forall j :: 0 <= j < n ==> arts[..n][j] == arts[j];
    }
  }

  /** Record j of the formatted list is the projection of article j. */
  lemma {:induction false} ProjectAllAt(arts: seq<Article>, j: nat)
    requires j < |arts| && ProjectAll(arts).Ok?
    ensures Project(arts[j]).Ok? && ProjectAll(arts).value[j] == Project(arts[j]).value
  {
    var n := |arts| - 1;
    if j < n {
      ProjectAllAt(arts[..n], j);
      assert arts[..n][j] == arts[j];
    }
  }

  /** A failing list fails with the exception of its first failing projection. */
  lemma {:induction false} ProjectAllFirstError(arts: seq<Article>)
    requires ProjectAll(arts).Err?
    ensures exists j :: 0 <= j < |arts| && Project(arts[j]) == Err(ProjectAll(arts).error) && forall i :: 0 <= i < j ==> Project(arts[i]).Ok?
  {
    var n := |arts| - 1;
    var prefix := arts[..n];
    assert forall j :: 0 <= j < n ==> prefix[j] == arts[j];
    if ProjectAll(prefix).Err? {
      ProjectAllFirstError(prefix);
      var j :| 0 <= j < n && Project(prefix[j]) == Err(ProjectAll(prefix).error) && forall i :: 0 <= i < j ==> Project(prefix[i]).Ok?;
      assert Project(arts[j]) == Err(ProjectAll(arts).error);
    } else {
      ProjectAllOk(prefix);
      assert Project(arts[n]) == Err(ProjectAll(arts).error);
    }
  }

  /** A failure in a prefix is the failure of the whole list. */
  lemma {:induction false} ProjectAllFailsEarly(arts: seq<Article>, i: nat)
    requires i <= |arts|
    requires ProjectAll(arts[..i]).Err?
    ensures ProjectAll(arts) == ProjectAll(arts[..i])
    decreases |arts| - i
  {
    if i < |arts| {
      assert arts[..i + 1][..i] == arts[..i];
      ProjectAllFailsEarly(arts, i + 1);
    } else {
      assert arts[..i] == arts;
    }
  }

  /** What `get_articles_sample` returns for the given deduplicated articles (or fetch exception). */
  function Sample(fetched: Result<seq<Article>, Exception>): Result<seq<Article>, Exception>
  {
    match fetched
    case Err(e) => Err(e)
    case Ok(arts) => ProjectAll(arts[..if |arts| < SampleSize then |arts| else SampleSize])
  }

  /** The formatting loop of `get_articles_sample` over the articles it keeps. */
  method FormatArticles(arts: seq<Article>) returns (r: Result<seq<Article>, Exception>)
    ensures r == ProjectAll(arts)
  {
    var formatted: seq<Article> := [];
    for i := 0 to |arts|
      invariant ProjectAll(arts[..i]) == Ok(formatted)
    {
      assert arts[..i + 1][..i] == arts[..i];
      var p := Project(arts[i]);
      if p.Err? {
        ProjectAllFailsEarly(arts, i + 1);
        return Err(p.error);
      }
      formatted := formatted + [p.value];
    }
    assert arts[..|arts|] == arts;
    r := Ok(formatted);
  }

  /**
   * `get_articles_sample`: the first ten deduplicated articles, each projected
   * onto five fields; an exception from the fetch or a projection propagates.
   */
  method GetArticlesSample(f: NewsFetcher, since: string, reply: Query -> Reply) returns (r: Result<seq<Article>, Exception>)
    ensures r == Sample(Dedup(Gather(f, f.keywords, since, reply)))
    ensures r.Ok? ==> |r.value| <= SampleSize
  {
    var fetched := FetchAllArticles(f, since, reply);
    if fetched.Err? {
      return fetched;
    }
    var arts := fetched.value;
    var n := if |arts| < SampleSize then |arts| else SampleSize;
    r := FormatArticles(arts[..n]);
  }
}
