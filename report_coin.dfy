/**
 * report_coin.py: read the first entries of one RSS feed, ask the model for a
 * report on them and mail the report, but only when there is news and the
 * answer does not look like an error.
 *
 * `feedparser.parse` is an abstract sequence of `FeedEntry` values, the
 * completion call is the function `complete`, the SMTP session is the
 * function `smtp`, and the date that `datetime.now().strftime` renders is the
 * string `today`.
 */
module ReportCoin {

  import opened Wrappers
  import opened PyText
  import opened Services

  /** The feed `get_stock_news` reads. */
  const FeedUrl: string := "https://www.investing.com/rss/news_301.rss"

  /** The `[:5]` slice of `feed.entries`. */
  const MaxEntries: nat := 5

  /** The `getattr` default for an entry without a title. */
  const MissingTitle: string := "제목 없음"

  /** The attributes of one feed entry that `get_stock_news` reads; `None` when the entry lacks one. */
  datatype FeedEntry = FeedEntry(title: Option<string>, summary: Option<string>, description: Option<string>)

  /** `getattr(item, 'title', '제목 없음')` */
  function EntryTitle(e: FeedEntry): string {
    e.title.GetOr(MissingTitle)
  }

  /**
   * `getattr(item, 'summary', getattr(item, 'description', ''))`: a present
   * summary wins even when it is empty.
   */
  function EntrySummary(e: FeedEntry): string {
    e.summary.GetOr(e.description.GetOr(""))
  }

  /**
   * The attribute fallbacks: a missing title reads as `제목 없음`; a missing
   * summary falls back to the description, and a missing description to `""`.
   */
  lemma EntryDefaults(e: FeedEntry)
    ensures EntryTitle(e) == (if e.title.Some? then e.title.value else MissingTitle)
    ensures e.summary.Some? ==> EntrySummary(e) == e.summary.value
    ensures e.summary.None? && e.description.Some? ==> EntrySummary(e) == e.description.value
    ensures e.summary.None? && e.description.None? ==> EntrySummary(e) == ""
  {
  }

  /** The line `제목: {title}`. */
  function TitleLine(title: string): string {
    "제목: " + title
  }

  /** The line `요약: {summary}`. */
  function SummaryLine(summary: string): string {
    "요약: " + summary
  }

  /** `f"제목: {title}\n"` */
  function TitleText(title: string): string {
    TitleLine(title) + "\n"
  }

  /** `f"요약: {summary}\n"` */
  function SummaryText(summary: string): string {
    SummaryLine(summary) + "\n"
  }

  /** What one turn of the loop at report_coin.py:26-32 appends. */
  function EntryBlock(e: FeedEntry): string {
    TitleText(EntryTitle(e)) + (if EntrySummary(e) != "" then SummaryText(EntrySummary(e)) else "") + "\n"
  }

  /** `news_text` before the final `strip()`. */
  function Digest(entries: seq<FeedEntry>): string {
    if entries == [] then "" else EntryBlock(entries[0]) + Digest(entries[1..])
  }

  /** What `get_stock_news()` returns for a feed with these entries. */
  function NewsText(entries: seq<FeedEntry>): string {
    Strip(Digest(Take(entries, MaxEntries)))
  }

  lemma {:induction false} DigestAppend(a: seq<FeedEntry>, b: seq<FeedEntry>)
    ensures Digest(a + b) == Digest(a) + Digest(b)
  {
    if a == [] {
      assert a + b == b;
    } else {
      assert (a + b)[1..] == a[1..] + b;
      DigestAppend(a[1..], b);
    }
  }

  lemma DigestSnoc(entries: seq<FeedEntry>, e: FeedEntry)
    ensures Digest(entries + [e]) == Digest(entries) + EntryBlock(e)
  {
    DigestAppend(entries, [e]);
    assert Digest([e]) == EntryBlock(e) + "";
  }

  /** Every entry's block begins with the non-whitespace character of `제목:`. */
  lemma {:induction false} DigestStart(entries: seq<FeedEntry>)
    requires entries != []
    ensures Digest(entries) != [] && Digest(entries)[0] == '제' && !IsSpace(Digest(entries)[0])
  {
    assert EntryBlock(entries[0])[0] == '제';
  }

  /**
   * The digest is empty after stripping exactly when the feed has no
   * entries: each used entry contributes the non-whitespace `제목:`.
   */
  lemma NewsTextEmptyIff(entries: seq<FeedEntry>)
    ensures NewsText(entries) == [] <==> entries == []
  {
    var items := Take(entries, MaxEntries);
    if entries != [] {
      DigestStart(items);
      StrippedOfNonSpace(Digest(items), 0);
    }
  }

  /**
   * Only the first five entries count, in feed order, and `strip()` only
   * trims the end of the digest: the text is the digest of those entries
   * with trailing whitespace removed.
   */
  lemma NewsTextOfFirstFive(entries: seq<FeedEntry>)
    ensures |entries| >= MaxEntries ==> NewsText(entries) == NewsText(entries[..MaxEntries])
    ensures entries != [] ==>
      var d := Digest(Take(entries, MaxEntries));
      NewsText(entries) == d[..|NewsText(entries)|] && AllSpace(d[|NewsText(entries)|..])
    ensures IsStripped(NewsText(entries))
  {
    if entries != [] {
      var items := Take(entries, MaxEntries);
      DigestStart(items);
      StripKeepsStart(Digest(items));
    }
  }

  /** `get_stock_news()` after `feedparser.parse(url)` returned these entries. */
  method GetStockNews(entries: seq<FeedEntry>) returns (newsText: string)
    ensures newsText == NewsText(entries)
    ensures IsStripped(newsText)
    ensures newsText == [] <==> entries == []
  {
    var newsItems := Take(entries, MaxEntries);
    newsText := "";
    for i := 0 to |newsItems|
      invariant newsText == Digest(newsItems[..i])
    {
      var item := newsItems[i];
      var title := EntryTitle(item);
      var summary := EntrySummary(item);
      ghost var done := newsText;
      newsText := newsText + TitleText(title);
      ghost var summaryPart := "";
      if summary != "" {
        newsText := newsText + SummaryText(summary);
        summaryPart := SummaryText(summary);
      } else {
        assert newsText == newsText + summaryPart;
      }
      newsText := newsText + "\n";
      Regroup(done, TitleText(title), summaryPart, "\n");
      DigestSnoc(newsItems[..i], item);
      assert newsItems[..i + 1] == newsItems[..i] + [item];
    }
    assert newsItems[..|newsItems|] == newsItems;
    NewsTextEmptyIff(entries);
    newsText := Strip(newsText);
  }

  // ---------------------------------------------------------------------------
  // Reading the digest back, line by line

  function EntryLines(e: FeedEntry): seq<string> {
    [TitleLine(EntryTitle(e))] + (if EntrySummary(e) != "" then [SummaryLine(EntrySummary(e))] else []) + [""]
  }

  function DigestLines(entries: seq<FeedEntry>): seq<string> {
    if entries == [] then [] else EntryLines(entries[0]) + DigestLines(entries[1..])
  }

  lemma JoinOne(line: string)
    ensures JoinLines([line]) == line + "\n"
  {
    assert JoinLines([line]) == line + "\n" + JoinLines([]);
  }

  lemma EntryAsLines(e: FeedEntry)
    ensures EntryBlock(e) == JoinLines(EntryLines(e))
  {
    var t, s := EntryTitle(e), EntrySummary(e);
    var mid := if s != "" then [SummaryLine(s)] else [];
    JoinLinesAppend([TitleLine(t)] + mid, [""]);
    JoinLinesAppend([TitleLine(t)], mid);
    JoinOne(TitleLine(t));
    JoinOne("");
    if s != "" {
      JoinOne(SummaryLine(s));
    }
    assert JoinLines(mid) == (if s != "" then SummaryText(s) else "");
  }

  lemma {:induction false} DigestAsLines(entries: seq<FeedEntry>)
    ensures Digest(entries) == JoinLines(DigestLines(entries))
  {
    if entries != [] {
      EntryAsLines(entries[0]);
      DigestAsLines(entries[1..]);
      JoinLinesAppend(EntryLines(entries[0]), DigestLines(entries[1..]));
    }
  }

  /** The text after a four-character label such as `제목: `. */
  function AfterLabel(line: string): string {
    if |line| >= 4 then line[4..] else line
  }

  /** Reads entry lines back into (title, summary) pairs; a block without a summary line has summary `""`. */
  function ParseDigestLines(lines: seq<string>): seq<(string, string)>
    decreases |lines|
  {
    if lines == [] then []
    else if |lines| >= 2 && lines[1] == "" then [(AfterLabel(lines[0]), "")] + ParseDigestLines(lines[2..])
    else if |lines| >= 3 then [(AfterLabel(lines[0]), AfterLabel(lines[1]))] + ParseDigestLines(lines[3..])
    else [(AfterLabel(lines[0]), "")]
  }

  /** The (title, summary) pairs a digest shows. */
  function ParseDigest(text: string): seq<(string, string)> {
    ParseDigestLines(SplitLines(text))
  }

  /** The title and the summary (or `""`) that each used entry contributes. */
  function Shown(entries: seq<FeedEntry>): (r: seq<(string, string)>)
    ensures |r| == |entries|
    ensures forall i :: 0 <= i < |entries| ==> r[i] == (EntryTitle(entries[i]), EntrySummary(entries[i]))
  {
    seq(|entries|, i requires 0 <= i < |entries| => (EntryTitle(entries[i]), EntrySummary(entries[i])))
  }

  /** No title and no summary contains a line break. */
  predicate SingleLineEntries(entries: seq<FeedEntry>) {
    forall i :: 0 <= i < |entries| ==> '\n' !in EntryTitle(entries[i]) && '\n' !in EntrySummary(entries[i])
  }

  lemma {:induction false} ParseDigestLinesOf(entries: seq<FeedEntry>)
    ensures ParseDigestLines(DigestLines(entries)) == Shown(entries)
  {
    if entries != [] {
      var e := entries[0];
      var t, s := EntryTitle(e), EntrySummary(e);
      var rest := DigestLines(entries[1..]);
      var lines := DigestLines(entries);
      assert AfterLabel(TitleLine(t)) == t;
      if s != "" {
        assert lines == [TitleLine(t), SummaryLine(s), ""] + rest;
        assert AfterLabel(SummaryLine(s)) == s;
        assert lines[1] != "";
        assert lines[3..] == rest;
      } else {
        assert lines == [TitleLine(t), ""] + rest;
        assert lines[2..] == rest;
      }
      ParseDigestLinesOf(entries[1..]);
      assert Shown(entries) == [(t, s)] + Shown(entries[1..]);
    }
  }

  lemma {:induction false} DigestLinesSingle(entries: seq<FeedEntry>)
    requires SingleLineEntries(entries)
    ensures forall k :: 0 <= k < |DigestLines(entries)| ==> '\n' !in DigestLines(entries)[k]
  {
    if entries != [] {
      var e := entries[0];
      assert SingleLineEntries(entries[1..]) by {
        forall i | 0 <= i < |entries[1..]|
          ensures '\n' !in EntryTitle(entries[1..][i]) && '\n' !in EntrySummary(entries[1..][i])
        {
          assert entries[1..][i] == entries[i + 1];
        }
      }
      DigestLinesSingle(entries[1..]);
      var block := EntryLines(e);
      assert '\n' !in EntryTitle(e) && '\n' !in EntrySummary(e);
      assert '\n' !in TitleLine(EntryTitle(e)) && '\n' !in SummaryLine(EntrySummary(e));
      var lines := DigestLines(entries);
      forall k | 0 <= k < |lines| ensures '\n' !in lines[k] {
        if k >= |block| {
          assert lines[k] == DigestLines(entries[1..])[k - |block|];
        } else {
          assert lines[k] == block[k];
        }
      }
    }
  }

  /**
   * The digest loses nothing before it is stripped: when no title or
   * summary contains a line break, reading its lines back gives each used
   * entry's title (or the default) and summary (or `""`), in feed order.
   */
  lemma DigestRoundTrip(entries: seq<FeedEntry>)
    requires SingleLineEntries(entries)
    ensures ParseDigest(Digest(entries)) == Shown(entries)
  {
    DigestAsLines(entries);
    DigestLinesSingle(entries);
    SplitJoin(DigestLines(entries));
    ParseDigestLinesOf(entries);
  }

  // ---------------------------------------------------------------------------
  // ask_gpt: report_coin.py:36-67

  /** Returned when no client could be created. */
  const ClientInitFailed: string := "❌ 오류: GPT 클라이언트 초기화 실패"

  /** Put in front of the exception message when the completion call raises. */
  const CallErrorPrefix: string := "GPT 호출 오류: "

  /** The two substrings the entry point looks for before mailing. */
  const CallErrorMarker: string := "GPT 호출 오류:"
  const InitFailureMarker: string := "초기화 실패"

  function PromptHead(today: string): string {
    "\n오늘은 " + today + "입니다.\n\n미국 주식 뉴스 요약:\n\n"
  }

  const PromptTail: string :=
    "\n\n아래 내용을 작성해줘:\n\n"
    + "1. 시장 전반 흐름 요약 (2~3줄)\n"
    + "2. 📌 단기 투자 종목 (1~2일 수익 가능, 이유 포함)\n"
    + "3. 📆 일주일 투자 종목 (업계 이슈 기반, 이유 포함)\n"
    + "4. 📅 한 달 투자 종목 (중기 상승 기대, 이유 포함)\n\n"
    + "실제 상장된 미국 종목만 추천하고, 뉴스 기반으로 종목 추천해줘.\n"

  /** The f-string prompt at report_coin.py:41-56. */
  function Prompt(today: string, newsText: string): string {
    PromptHead(today) + newsText + PromptTail
  }

  /** What the `try` at report_coin.py:58-67 returns for the completion's outcome. */
  function Answer(c: Completion): string {
    match c
    case Completed(content) => Strip(content)
    case Raised(message) => CallErrorPrefix + message
  }

  /** `client` exists exactly when the key is not `None` (report_coin.py:14-18); an empty key still makes one. */
  predicate ClientReady(apiKey: Option<string>) {
    apiKey.Some?
  }

  /** `ask_gpt(news_text)` */
  function AskGpt(clientReady: bool, today: string, newsText: string, complete: string -> Completion): (x: Exchange)
    ensures !clientReady ==> x == Exchange(None, ClientInitFailed)
    ensures clientReady ==> x.request == Some(Prompt(today, newsText)) && x.answer == Answer(complete(Prompt(today, newsText)))
  {
    if !clientReady then Exchange(None, ClientInitFailed)
    else
      var prompt := Prompt(today, newsText);
      Exchange(Some(prompt), Answer(complete(prompt)))
  }

  /** The check at report_coin.py:99. */
  predicate LooksLikeError(result: string) {
    Contains(result, CallErrorMarker) || Contains(result, InitFailureMarker)
  }

  /** Both error strings `ask_gpt` can return carry one of the markers the entry point checks. */
  lemma ErrorAnswersLookLikeErrors(clientReady: bool, today: string, newsText: string, complete: string -> Completion)
    ensures !clientReady ==> LooksLikeError(AskGpt(clientReady, today, newsText, complete).answer)
    ensures clientReady && complete(Prompt(today, newsText)).Raised? ==>
      LooksLikeError(AskGpt(clientReady, today, newsText, complete).answer)
  {
    assert ClientInitFailed == "❌ 오류: GPT 클라이언트 " + InitFailureMarker + "";
    ContainsInfix("❌ 오류: GPT 클라이언트 ", InitFailureMarker, "");
    var c := complete(Prompt(today, newsText));
    if c.Raised? {
      assert CallErrorPrefix + c.message == CallErrorMarker + (" " + c.message);
      ContainsPrefix(CallErrorMarker, " " + c.message);
    }
  }

  /** So an answer that passes the entry point's check came from a completed request. */
  lemma UnflaggedAnswerIsCompleted(today: string, newsText: string, complete: string -> Completion)
    requires !LooksLikeError(AskGpt(true, today, newsText, complete).answer)
    ensures complete(Prompt(today, newsText)).Completed?
    ensures AskGpt(true, today, newsText, complete).answer == Strip(complete(Prompt(today, newsText)).content)
  {
    ErrorAnswersLookLikeErrors(true, today, newsText, complete);
  }

  /** A genuine report that happens to mention `초기화 실패` is treated as an error as well. */
  lemma GenuineReportCanLookLikeError()
    ensures LooksLikeError(Answer(Completed("AAPL: 공장 시스템 " + InitFailureMarker + " 보도로 단기 약세")))
  {
    var report := "AAPL: 공장 시스템 " + InitFailureMarker + " 보도로 단기 약세";
    assert report[0] == 'A' && report[|report| - 1] == '세';
    StripFixedIff(report);
    ContainsInfix("AAPL: 공장 시스템 ", InitFailureMarker, " 보도로 단기 약세");
  }

  // ---------------------------------------------------------------------------
  // __main__: report_coin.py:89-106

  const ReportSubject: string := "📈 오늘의 미국 주식 추천 리포트"

  datatype CoinRun =
    | MissingCredentials
    | NoNews
    | Suppressed(news: string, call: Exchange)
    | Mailed(news: string, call: Exchange, mail: MailOutcome)

  /**
   * What the entry point does once `get_stock_news()` has returned `news`:
   * mail goes out only when the credentials are truthy, the news text is
   * non-empty and the answer carries neither error marker; so only a
   * completed answer is ever mailed.
   */
  function Report(env: Environment, news: string, today: string,
                  complete: string -> Completion, smtp: Email -> SmtpResult): (run: CoinRun)
    ensures run.MissingCredentials? <==> !AllCredentials(env)
    ensures run.NoNews? <==> AllCredentials(env) && news == []
    ensures run.Suppressed? || run.Mailed? ==> run.news == news && run.call == AskGpt(true, today, news, complete)
    ensures run.Mailed? <==>
      AllCredentials(env) && news != [] && !LooksLikeError(AskGpt(true, today, news, complete).answer)
    ensures run.Mailed? ==> complete(Prompt(today, news)).Completed?
    ensures run.Mailed? ==> run.mail == SendEmail(env.address, env.password, ReportSubject, run.call.answer, smtp)
    ensures run.Mailed? ==> run.mail.Attempted()
    ensures run.Mailed? ==> run.mail.email == Email(env.address.value, env.address.value, ReportSubject, run.call.answer)
  {
    if !AllCredentials(env) then MissingCredentials
    else if news == "" then NoNews
    else
      var result := AskGpt(ClientReady(env.apiKey), today, news, complete);
      if LooksLikeError(result.answer) then Suppressed(news, result)
      else
        UnflaggedAnswerIsCompleted(today, news, complete);
        Mailed(news, result, SendEmail(env.address, env.password, ReportSubject, result.answer, smtp))
  }

  /** `if __name__ == "__main__":` in report_coin.py; the feed has `entries`. */
  method RunReport(env: Environment, entries: seq<FeedEntry>, today: string,
                   complete: string -> Completion, smtp: Email -> SmtpResult)
    returns (run: CoinRun)
    ensures run == Report(env, NewsText(entries), today, complete, smtp)
    ensures run.NoNews? <==> AllCredentials(env) && entries == []
  {
    if Truthy(env.apiKey) && Truthy(env.address) && Truthy(env.password) {
      var news := GetStockNews(entries);
      if news != "" {
        var result := AskGpt(ClientReady(env.apiKey), today, news, complete);
        if Contains(result.answer, CallErrorMarker) || Contains(result.answer, InitFailureMarker) {
          run := Suppressed(news, result);
        } else {
          var mail := SendEmail(env.address, env.password, ReportSubject, result.answer, smtp);
          run := Mailed(news, result, mail);
        }
      } else {
        run := NoNews;
      }
    } else {
      run := MissingCredentials;
    }
  }
}
