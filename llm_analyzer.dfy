/**
 * The news sentiment analyzer (engine/llm_analyzer.py): the prompt sent to
 * the language model, the extraction of its JSON answer, the keyword
 * fallback used without a client or when the call fails, and the batch of
 * analyses. The model call and the JSON decoder are parameters.
 */
module LlmAnalyzer {

  import opened Wrappers
  import opened Series
  import opened EngineModels

  // ------------------------------------------------------------- prompt

  /** `"\n".join(lines)` and `", ".join(words)`. */
  function Join(parts: seq<string>, sep: string): (r: string)
    ensures parts == [] ==> r == ""
    ensures |parts| == 1 ==> r == parts[0]
  {
    if parts == [] then ""
    else if |parts| == 1 then parts[0]
    else Join(parts[..|parts| - 1], sep) + sep + parts[|parts| - 1]
  }

  /** One line of the prompt's news list: `- [source] title`. */
  function NewsLine(n: NewsItem): string {
    "- [" + n.source + "] " + n.title
  }

  /** The news list of the prompt: the first five items, one line each. */
  function NewsText(news: seq<NewsItem>): (r: string)
    ensures news == [] ==> r == ""
  {
    var head := Head(news, 5);
    Join(seq(|head|, k requires 0 <= k < |head| => NewsLine(head[k])), "\n")
  }

  /** The user prompt: the stock name, then the news list, then the request for a score. */
  function Prompt(stockName: string, news: seq<NewsItem>): (r: string)
    ensures StartsWith(r, "종목: " + stockName)
  {
    var p := "종목: " + stockName + "\n\n뉴스 목록:\n" + NewsText(news) + "\n\n위 뉴스를 분석하여 호재 점수를 평가하세요.";
    assert p[..|"종목: " + stockName|] == "종목: " + stockName;
    p
  }

  // ------------------------------------------------------ answer parsing

  /**
   * Whether `r'\{[^}]+\}'` matches `s[i..j + 1]`: a `{`, at least one
   * character that is not `}`, and the first `}` after it.
   */
  predicate ObjectAt(s: string, i: int, j: int) {
    0 <= i && i + 1 < j < |s| && s[i] == '{' && s[j] == '}' &&
    forall k :: i < k < j ==> s[k] != '}'
  }

  /** The position of the first `}` after position `i`, or `|s|` when there is none. */
  function CloseAfter(s: string, i: nat): (j: nat)
    ensures i < j <= |s| || (j == |s| && i >= |s|)
    ensures j < |s| ==> s[j] == '}'
    ensures forall k :: i < k < j && k < |s| ==> s[k] != '}'
    decreases |s| - i
  {
    if i + 1 >= |s| then |s|
    else if s[i + 1] == '}' then i + 1
    else CloseAfter(s, i + 1)
  }

  /** `re.search(r'\{[^}]+\}', s)` from position `i` on: the leftmost match, as its first and last positions. */
  function SearchFrom(s: string, i: nat): (m: Option<(nat, nat)>)
    ensures m.Some? ==> i <= m.value.0 && ObjectAt(s, m.value.0, m.value.1)
    ensures m.Some? ==> forall a, b :: i <= a < m.value.0 ==> !ObjectAt(s, a, b)
    ensures m.None? ==> forall a, b :: i <= a ==> !ObjectAt(s, a, b)
    decreases |s| - i
  {
    if i >= |s| then None
    else
      var j := CloseAfter(s, i);
      if s[i] == '{' && j < |s| && j > i + 1 then Some((i, j))
      else
        ObjectAtUsesFirstClose(s, i, j);
        SearchFrom(s, i + 1)
  }

  /** A match starting at `i` ends at the first `}` after `i`. */
  lemma ObjectAtUsesFirstClose(s: string, i: nat, j: nat)
    requires i < |s| && j == CloseAfter(s, i)
    ensures forall b :: ObjectAt(s, i, b) ==> b == j
  {
  }

  /** The text `re.search` returns, if any: the first `{...}` object of the answer. */
  function FirstObject(s: string): (r: Option<string>)
    ensures r.Some? <==> exists a, b :: ObjectAt(s, a, b)
    ensures r.Some? ==> |r.value| >= 3 && r.value[0] == '{' && r.value[|r.value| - 1] == '}'
  {
    match SearchFrom(s, 0)
    case None => None
    case Some((a, b)) => Some(s[a..b + 1])
  }

  /** The `score` entry of the decoded object: missing, a number, or a value `int()` rejects. */
  datatype ScoreField = Missing | Number(value: real) | NotNumber

  /** The decoded object's entries, with `reason` already turned into a string ("" when missing). */
  datatype ReplyFields = ReplyFields(score: ScoreField, reason: string)

  /** The answer when no object can be read. */
  function Unclear(): NewsVerdict {
    NewsVerdict(1, "분석 결과 불명확")
  }

  /**
   * `_parse_response`: the first object of the answer, decoded; the score is
   * truncated and clamped to 0..3 (0 when missing) and the reason cut to 100
   * characters. No object, an undecodable one or a non-numeric score gives 1
   * with "분석 결과 불명확".
   */
  function ParseResponse(response: string, decode: string -> Option<ReplyFields>): (v: NewsVerdict)
    ensures 0 <= v.score <= 3
    ensures |v.reason| <= 100
    ensures FirstObject(response).None? ==> v == Unclear()
    ensures FirstObject(response).Some? && decode(FirstObject(response).value).None? ==> v == Unclear()
    ensures FirstObject(response).Some? && decode(FirstObject(response).value).Some? ==>
              var f := decode(FirstObject(response).value).value;
              (f.score.NotNumber? ==> v == Unclear()) &&
              (f.score.Missing? ==> v == NewsVerdict(0, Head(f.reason, 100))) &&
              (f.score.Number? ==> v == NewsVerdict(ClampInt(Trunc(f.score.value), 0, 3), Head(f.reason, 100)))
  {
    match FirstObject(response)
    case None => Unclear()
    case Some(obj) =>
      match decode(obj)
      case None => Unclear()
      case Some(f) =>
        match f.score
        case NotNumber => Unclear()
        case Missing => NewsVerdict(0, Head(f.reason, 100))
        case Number(x) => NewsVerdict(ClampInt(Trunc(x), 0, 3), Head(f.reason, 100))
  }

  // ---------------------------------------------------- keyword fallback

  function FallbackPositive(): seq<string> {
    ["흑자", "수주", "계약", "승인", "성공", "최대", "증가", "개선", "호실적", "상향", "돌파", "신고가"]
  }

  function FallbackNegative(): seq<string> {
    ["적자", "하락", "감소", "악화", "폐지", "매도", "횡령", "분식", "수사", "기소"]
  }

  /** The first keyword of `kws`, in list order, that occurs in `text`. */
  function FirstKeyword(kws: seq<string>, text: string): (r: Option<string>)
    ensures r.None? <==> !AnyIn(kws, text)
    ensures r.Some? ==> r.value in kws && Contains(text, r.value)
    ensures r.Some? ==> exists k :: 0 <= k < |kws| && kws[k] == r.value && Contains(text, kws[k]) &&
                          forall j :: 0 <= j < k ==> !Contains(text, kws[j])
  {
    if kws == [] then None
    else if Contains(text, kws[0]) then Some(kws[0])
    else
      var r := FirstKeyword(kws[1..], text);
      assert forall k :: 0 <= k < |kws| - 1 ==> kws[1..][k] == kws[k + 1];
      assert !AnyIn(kws[1..], text) ==> !AnyIn(kws, text) by {
        if !AnyIn(kws[1..], text) {
          forall k | 0 <= k < |kws|
            ensures !Contains(text, kws[k])
          {
            if k > 0 { assert kws[k] == kws[1..][k - 1]; }
          }
        }
      }
      if r.Some? then
        var k' :| 0 <= k' < |kws| - 1 && kws[1..][k'] == r.value && Contains(text, kws[1..][k']) &&
                  forall j :: 0 <= j < k' ==> !Contains(text, kws[1..][j]);
        assert kws[k' + 1] == r.value && Contains(text, kws[k' + 1]);
        assert forall j :: 0 <= j < k' + 1 ==> !Contains(text, kws[j]) by {
          forall j | 0 <= j < k' + 1
            ensures !Contains(text, kws[j])
          {
            if j > 0 { assert kws[j] == kws[1..][j - 1]; }
          }
        }
        r
      else r
  }

  /** `for kw in keywords: if kw in title: ...; break`, returning the keyword found. */
  method FindKeyword(kws: seq<string>, text: string) returns (found: Option<string>)
    ensures found == FirstKeyword(kws, text)
  {
    var k := 0;
    while k < |kws|
      invariant 0 <= k <= |kws|
      invariant FirstKeyword(kws, text) == FirstKeyword(kws[k..], text)
    {
      if Contains(text, kws[k]) {
        return Some(kws[k]);
      }
      assert kws[k..][1..] == kws[k + 1..];
      k := k + 1;
    }
    return None;
  }

  /** A title's contribution: +1 for a positive keyword, -1 for a negative one. */
  function TitleDelta(title: string): (d: int)
    ensures -1 <= d <= 1
    ensures d == 1 ==> AnyIn(FallbackPositive(), title)
    ensures d == -1 ==> AnyIn(FallbackNegative(), title)
  {
    (if FirstKeyword(FallbackPositive(), title).Some? then 1 else 0) -
    (if FirstKeyword(FallbackNegative(), title).Some? then 1 else 0)
  }

  /** The running score over the titles of `news`. */
  function FallbackNet(news: seq<NewsItem>): int {
    if news == [] then 0 else FallbackNet(news[..|news| - 1]) + TitleDelta(news[|news| - 1].title)
  }

  /** The positive keywords found, one per title that has one, in order. */
  function FallbackHits(news: seq<NewsItem>): (r: seq<string>)
    ensures |r| <= |news|
    ensures forall k :: 0 <= k < |r| ==> r[k] in FallbackPositive()
  {
    if news == [] then []
    else
      var earlier := FallbackHits(news[..|news| - 1]);
      match FirstKeyword(FallbackPositive(), news[|news| - 1].title)
      case Some(kw) => earlier + [kw]
      case None => earlier
  }

  /** The running score never exceeds the number of positive keywords found. */
  lemma {:induction false} NetAtMostHits(news: seq<NewsItem>)
    ensures FallbackNet(news) <= |FallbackHits(news)|
    ensures -|news| <= FallbackNet(news)
  {
    if news != [] {
      NetAtMostHits(news[..|news| - 1]);
    }
  }

  /**
   * `_fallback_analyze`: over the first five titles, +1 per title with a
   * positive keyword and -1 per title with a negative one, clamped to 0..3;
   * the reason lists the first three positive keywords found, or "뉴스 분석".
   */
  function Fallback(news: seq<NewsItem>): (v: NewsVerdict)
    ensures 0 <= v.score <= 3
    ensures v.score == ClampInt(FallbackNet(Head(news, 5)), 0, 3)
    ensures FallbackHits(Head(news, 5)) == [] ==> v.reason == "뉴스 분석"
    ensures FallbackHits(Head(news, 5)) != [] ==> v.reason == Join(Head(FallbackHits(Head(news, 5)), 3), ", ")
  {
    var head := Head(news, 5);
    var hits := FallbackHits(head);
    NewsVerdict(ClampInt(FallbackNet(head), 0, 3), if hits == [] then "뉴스 분석" else Join(Head(hits, 3), ", "))
  }

  /** A positive fallback score always names at least one keyword as its reason. */
  lemma PositiveFallbackHasReason(news: seq<NewsItem>)
    ensures Fallback(news).score > 0 ==> FallbackHits(Head(news, 5)) != []
  {
    NetAtMostHits(Head(news, 5));
  }

  /** `_fallback_analyze` on the first five titles, clamping the net score and joining the first three hits. */
  method FallbackAnalyze(news: seq<NewsItem>) returns (v: NewsVerdict)
    ensures v == Fallback(news)
  {
    var head := Head(news, 5);
    var score, reasons := ScanTitles(head);
    var finalScore := Max(0, Min(3, score));
    var reason := if reasons != [] then Join(Head(reasons, 3), ", ") else "뉴스 분석";
    v := NewsVerdict(finalScore, reason);
  }

  /** One more title adds its delta to the score and its positive keyword, if any, to the hits. */
  lemma ScanStep(head: seq<NewsItem>, i: nat)
    requires i < |head|
    ensures FallbackNet(head[..i + 1]) == FallbackNet(head[..i]) + TitleDelta(head[i].title)
    ensures FallbackHits(head[..i + 1]) ==
              FallbackHits(head[..i]) + (match FirstKeyword(FallbackPositive(), head[i].title)
                                         case Some(kw) => [kw]
                                         case None => [])
  {
    assert head[..i + 1][..i] == head[..i];
  }

  /** The title loop of `_fallback_analyze`: the net keyword score and the positive keywords found. */
  method ScanTitles(head: seq<NewsItem>) returns (score: int, reasons: seq<string>)
    ensures score == FallbackNet(head)
    ensures reasons == FallbackHits(head)
  {
    score := 0;
    reasons := [];
    var i := 0;
    while i < |head|
      invariant 0 <= i <= |head|
      invariant score == FallbackNet(head[..i])
      invariant reasons == FallbackHits(head[..i])
    {
      ScanStep(head, i);
      var title := head[i].title;
      var pos := FindKeyword(FallbackPositive(), title);
      var neg := FindKeyword(FallbackNegative(), title);
      if pos.Some? {
        score := score + 1;
        reasons := reasons + [pos.value];
      }
      if neg.Some? {
        score := score - 1;
      }
      i := i + 1;
    }
    assert head[..|head|] == head;
  }

  // ------------------------------------------------------------ analysis

  /** What the model call produced: a reply, or an exception. */
  datatype CallOutcome = Failed | Reply(content: string)

  /**
   * `analyze_news`: no news gives 0 with "뉴스 없음"; without a client, or
   * when the call fails, the keyword fallback; otherwise the parsed reply to
   * the prompt.
   */
  function Analysis(stockName: string, news: seq<NewsItem>, hasClient: bool,
                    generate: string -> CallOutcome, decode: string -> Option<ReplyFields>): (v: NewsVerdict)
    ensures 0 <= v.score <= 3
    ensures news == [] ==> v == NewsVerdict(0, "뉴스 없음")
    ensures news != [] && !hasClient ==> v == Fallback(news)
    ensures news != [] && hasClient && generate(Prompt(stockName, news)).Failed? ==> v == Fallback(news)
    ensures news != [] && hasClient && generate(Prompt(stockName, news)).Reply? ==>
              v == ParseResponse(generate(Prompt(stockName, news)).content, decode)
  {
    if news == [] then NewsVerdict(0, "뉴스 없음")
    else if !hasClient then Fallback(news)
    else
      match generate(Prompt(stockName, news))
      case Failed => Fallback(news)
      case Reply(content) => ParseResponse(content, decode)
  }

  method AnalyzeNews(stockName: string, news: seq<NewsItem>, hasClient: bool,
                     generate: string -> CallOutcome, decode: string -> Option<ReplyFields>)
    returns (v: NewsVerdict)
    ensures v == Analysis(stockName, news, hasClient, generate, decode)
  {
    if news == [] {
      return NewsVerdict(0, "뉴스 없음");
    }
    if !hasClient {
      v := FallbackAnalyze(news);
      return;
    }
    var outcome := generate(Prompt(stockName, news));
    if outcome.Failed? {
      v := FallbackAnalyze(news);
    } else {
      v := ParseResponse(outcome.content, decode);
    }
  }

  /** A gathered task result: the analysis it returned, or `None` when the task raised. */
  type Gathered = Option<NewsVerdict>

  /** `batch_analyze`'s normalisation: every raised task becomes 0 with "오류"; the others are kept, in order. */
  function Normalize(gathered: seq<Gathered>): (r: seq<NewsVerdict>)
    ensures |r| == |gathered|
    ensures forall k :: 0 <= k < |r| ==> r[k] == gathered[k].GetOr(NewsVerdict(0, "오류"))
  {
    seq(|gathered|, k requires 0 <= k < |gathered| => gathered[k].GetOr(NewsVerdict(0, "오류")))
  }

  /**
   * `batch_analyze`: one analysis per (name, news) pair, gathered in order
   * and normalised. Every score lies in 0..3.
   */
  method BatchAnalyze(items: seq<(string, seq<NewsItem>)>, hasClient: bool,
                      generate: string -> CallOutcome, decode: string -> Option<ReplyFields>)
    returns (results: seq<NewsVerdict>)
    ensures |results| == |items|
    ensures forall k :: 0 <= k < |items| ==>
              results[k] == Analysis(items[k].0, items[k].1, hasClient, generate, decode)
    ensures forall k :: 0 <= k < |results| ==> 0 <= results[k].score <= 3
  {
    var gathered: seq<Gathered> := [];
    var i := 0;
    while i < |items|
      invariant 0 <= i <= |items|
      invariant |gathered| == i
      invariant forall k :: 0 <= k < i ==> gathered[k] == Some(Analysis(items[k].0, items[k].1, hasClient, generate, decode))
    {
      var v := AnalyzeNews(items[i].0, items[i].1, hasClient, generate, decode);
      gathered := gathered + [Some(v)];
      i := i + 1;
    }
    results := Normalize(gathered);
  }
}
