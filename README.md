# Daily stock report scripts in Dafny

This project models the deterministic logic of two scripts that send a
daily report on the US stock market by mail.

- `app.py` scrapes headlines from three news sites (CNBC, Yahoo Finance,
  Investing.com). It renders them into a prompt, asks a chat-completion model
  for an analysis, and mails the analysis to the configured address.
- `report_coin.py` reads the first five entries of one RSS feed, formats them
  as `제목:` / `요약:` lines, and asks the model for stock picks. It mails the
  answer only when there was news and the answer does not carry an error
  marker.

Everything around that logic is I/O, and the model takes it as input:

- A fetch and its HTML matching are one `FetchOutcome` per source: `Failed`,
  or `Fetched` with the text nodes of each matched element.
- The RSS parse is a sequence of `FeedEntry` values. Each field is optional.
- The completion request is a function `complete` from prompt to
  `Completed(content) | Raised(message)`.
- The SMTP session is a function `smtp` from message to `SmtpOk | SmtpError`.
- The environment variables are `Option<string>` values.
- The formatted date is the string `today`.

Files:

- `wrappers.dfy`: `Option` and its `getattr`-style default.
- `pytext.dfy`: Python's `str.strip()` over the full `str.isspace()` set, and
  BeautifulSoup's `get_text(strip=True)`. Also the substring test `p in s`,
  slicing `s[:n]`, and splitting text into lines.
- `services.dfy`: the environment, the completion outcome, and `send_email`.
  The same `send_email` appears in both scripts, so it is modelled once.
- `app.dfy`: `collect_all_news`, the `news_summary` loop,
  `ask_gpt_from_news`, and the entry point of `app.py`.
- `report_coin.dfy`: `get_stock_news`, `ask_gpt`, and the entry point of
  `report_coin.py`.

`collect_all_news`, the `news_summary` loop and `get_stock_news` change
things step by step. Each is a method with loops and invariants, proved
equal to a specification function. Lemmas about those functions state what
the scripts promise.

The Python dict is an insertion-ordered sequence of (key, value) pairs.
Assigning to an existing key keeps its position. A new key goes to the end.

The loop at app.py:55-59 writes the header line and the closing blank line
for every source, empty lists included (see `App.NewsSectionAt`).

The scripts decide "truthy" differently, and the model keeps each one's
rule:

- In `app.py` a client exists only for a truthy key (app.py:14).
- In `report_coin.py` a client exists for any key that is not `None`,
  even an empty one (report_coin.py:14-18).
- `send_email` in both scripts tests only `is None`.
- Both entry points require all three credentials to be truthy.

## Model

| member | source | states |
|---|---|---|
| PyText.IsSpace | app.py:42 | Defines the characters `str.strip()` removes (also at app.py:84, report_coin.py:33 and report_coin.py:65): exactly those for which `str.isspace()` holds. |
| PyText.TrimLeft | report_coin.py:33 | `lstrip()` returns a suffix of its input. Everything it drops is whitespace, and the result does not start with whitespace. |
| PyText.TrimRight | report_coin.py:33 | `rstrip()` returns a prefix of its input. Everything it drops is whitespace, and the result does not end with whitespace. |
| PyText.Strip | app.py:84 | `strip()` leaves no surrounding whitespace and never makes a string longer. |
| PyText.StripOf | report_coin.py:33 | Any all-whitespace lead and trail around a stripped core strip back to exactly that core. This defines `strip()` without reference to how it is computed. |
| PyText.StripFixedIff | report_coin.py:65 | A string is unchanged by `strip()` exactly when it has no surrounding whitespace. |
| PyText.StripIdempotent | app.py:84 | Stripping twice is stripping once. |
| PyText.StripEmptyIff | app.py:42 | `strip()` gives `""` exactly when the string is all whitespace. |
| PyText.StripKeepsStart | report_coin.py:33 | When a string does not start with whitespace, `strip()` only drops trailing whitespace. |
| PyText.GetText | app.py:42 | `get_text(strip=True)` has no surrounding whitespace. |
| PyText.Truthy | app.py:106 | Defines Python truthiness of an optional string: neither `None` nor `""`. `Services.AllCredentials` and the gates use it. |
| PyText.Contains | report_coin.py:99 | Defines `p in s` on strings: `p` occurs at some position of `s`. Its uses are proved in `PyText.ContainsInfix` and `ReportCoin.ErrorAnswersLookLikeErrors`. |
| PyText.GetTextEmptyIff | app.py:42 | `get_text(strip=True)` is empty exactly when every text node of the element is blank. |
| PyText.Take | app.py:43 | `s[:n]` has length `min(len(s), n)` and is a prefix of `s`. |
| Services.AllCredentials | report_coin.py:90 | Defines the entry-point gate `OPENAI_API_KEY and EMAIL_ADDRESS and EMAIL_PASSWORD` (also app.py:106): all three values are truthy. |
| Services.SendEmail | app.py:88-103 | Nothing is attempted exactly when the address or the password is `None`. Otherwise the message goes from the address to the same address, with the given subject and body. It counts as delivered exactly when the SMTP session succeeds. A failure returns normally. |
| Services.EmptyCredentialsStillAttempt | report_coin.py:71-78 | The guard tests `is None`, so an empty address and password still reach the SMTP session. |
| Services.GatedMailIsAttempted | app.py:106-109 | Under the entry point's credential gate the mail is always attempted, from and to the configured address. |
| App.Put | app.py:43 | Dict assignment keeps keys unique. An existing key keeps the key order; a new key is appended at the end. |
| App.Lookup | app.py:43 | Defines `d.get(k)`: the value at the position of key `k`, or `None`. Its behaviour under assignment is in `App.PutLookup`. |
| App.PutLookup | app.py:43 | After `d[k] = v`, `d.get(k)` is `v` and every other key reads as before. |
| App.NonEmpty | app.py:42 | Defines the `if a.get_text(strip=True)` filter: the non-empty texts, in order. It never lengthens its input and keeps no empty text; exact membership is in `App.NonEmptyMember`. |
| App.Titles | app.py:42 | Defines the comprehension: `get_text(strip=True)` of every matched element, then the filter. |
| App.SourceHeadlines | app.py:37-45 | Defines what one source stores: `[]` on failure, otherwise `titles[:10]`. Its properties are in `App.HeadlinesShape`. |
| App.NonEmptyAppend | app.py:42 | The filter keeps document order: filtering a concatenation concatenates the filtered parts. |
| App.NonEmptyMember | app.py:42 | A text is kept exactly when it is non-empty and was extracted. |
| App.HeadlinesShape | app.py:42-45 | A failed source stores `[]`. Otherwise a source stores the first `min(n, 10)` of its `n` kept titles, in document order, so never more than 10. Each stored headline is non-empty and has no surrounding whitespace. |
| App.RecordedInOrder | app.py:36-43 | Assigning distinct keys one after the other gives one entry per key, in assignment order, each with its own value. |
| App.Collected | app.py:34-46 | Defines the dict `collect_all_news` returns: starting from an empty dict, one assignment per registry source, in registry order. Its keys are unique. Its shape is in `App.CollectedCoverage` and `App.SourceIsolation`. |
| App.CollectedCoverage | app.py:35-46 | The table has exactly one entry per registry source, in registry order, with that source's own headlines, even when sources fail. |
| App.SourceIsolation | app.py:37-45 | Changing what happens to one source, for example a failure, leaves every other source's entry unchanged. The changed source stores its own outcome's headlines, `[]` for a failure. |
| App.Registry | app.py:16-32 | Defines `NEWS_SOURCES` in insertion order, with each source's URL, tag and class. Distinctness of the names is in `App.RegistryNamesDistinct`. |
| App.RegistryNamesDistinct | app.py:16-32 | The three registry names are distinct, as keys of a dict literal. |
| App.CollectAllNews | app.py:34-46 | The loop builds exactly `Collected(Registry, outcomes)`. Its keys are the registry names in order, and entry `i` holds source `i`'s headlines. |
| App.NewsSection | app.py:54-59 | Defines the `news_summary` text: for each source in table order, its header line, one `- ` line per headline and a blank line. Its properties are in `App.NewsSectionAt` and `App.NewsSectionRoundTrip`. |
| App.NewsSectionAppend | app.py:55-59 | The rendered section of a concatenated table is the concatenation of the rendered parts, in table order. |
| App.NewsSectionAt | app.py:55-59 | Source `i`'s block sits between the blocks of the sources before it and after it. A source with no headlines still gets its header line and the blank line. |
| App.RenderNewsSummary | app.py:54-59 | The nested `+=` loops build exactly `NewsSection(newsDict)`. |
| App.NewsSectionRoundTrip | app.py:54-59 | When no source name or headline contains a line break, reading the section back line by line gives the table itself: every source in order with exactly its headlines, empty lists included. |
| App.Prompt | app.py:61-75 | Defines the prompt: the fixed opening with the date, the news section, then the fixed instructions. Its layout is in `App.PromptCarriesNews`. |
| App.Answer | app.py:77-86 | Defines what the `try` returns: the stripped reply, or `"GPT 오류: "` followed by the exception message. |
| App.ClientReady | app.py:14 | Defines when a client exists: the key is truthy. |
| App.PromptCarriesNews | app.py:61-75 | The prompt holds the news section unchanged between the fixed opening and the fixed instructions. The instructions are present even when the section is empty. |
| App.AskGptFromNews | app.py:48-86 | Without a client: exactly `"GPT 클라이언트 오류"`, and no request is sent. Otherwise the request is the prompt built from the rendered section. The answer is the stripped reply, or `"GPT 오류: "` followed by the exception message. |
| App.RunApp | app.py:105-111 | It runs exactly when all three credentials are truthy, so an empty string counts as missing. It then collects the table and asks with that table's section. It mails whatever the answer is, error strings included, from and to the address, under the fixed subject. The mail outcome is exactly what `send_email` gives for that answer. |
| ReportCoin.EntryTitle | report_coin.py:27 | Defines `getattr(item, 'title', '제목 없음')`. Its cases are in `ReportCoin.EntryDefaults`. |
| ReportCoin.EntrySummary | report_coin.py:28 | Defines `getattr(item, 'summary', getattr(item, 'description', ''))`. Its cases are in `ReportCoin.EntryDefaults`. |
| ReportCoin.EntryDefaults | report_coin.py:27-28 | A missing title reads as `제목 없음`. A missing summary falls back to the description, and a missing description to `""`. A present but empty summary wins over the description. |
| ReportCoin.Digest | report_coin.py:26-32 | Defines `news_text` before the final `strip()`: per entry a `제목:` line, a `요약:` line only when the summary is non-empty, and a blank line. Its properties are in `ReportCoin.DigestAppend`, `ReportCoin.DigestStart` and `ReportCoin.DigestRoundTrip`. |
| ReportCoin.NewsText | report_coin.py:24-33 | Defines the returned text: the digest of the first five entries, stripped. Its properties are in `ReportCoin.NewsTextEmptyIff` and `ReportCoin.NewsTextOfFirstFive`. |
| ReportCoin.DigestAppend | report_coin.py:26-32 | The digest of a concatenation is the concatenation of the digests, so entries appear in feed order. |
| ReportCoin.DigestStart | report_coin.py:29 | A non-empty digest begins with `제`, which is not whitespace. |
| ReportCoin.NewsTextEmptyIff | report_coin.py:24-33 | The returned text is empty exactly when the feed has no entries. |
| ReportCoin.NewsTextOfFirstFive | report_coin.py:24-33 | Only the first five entries matter. The text is the digest of those entries with only trailing whitespace removed, and it has no surrounding whitespace. |
| ReportCoin.GetStockNews | report_coin.py:21-33 | The loop and the final `strip()` build exactly `NewsText(entries)`. The result has no surrounding whitespace and is empty exactly when the feed has no entries. |
| ReportCoin.DigestRoundTrip | report_coin.py:26-32 | When no title or summary contains a line break, reading the digest back gives, per used entry and in order, its title (or the default) and its summary. The summary reads as `""` exactly when no `요약:` line was written. |
| ReportCoin.Prompt | report_coin.py:41-56 | Defines the prompt: the fixed opening with the date, the news text, then the fixed instructions. |
| ReportCoin.Answer | report_coin.py:58-67 | Defines what the `try` returns: the stripped reply, or `"GPT 호출 오류: "` followed by the exception message. |
| ReportCoin.ClientReady | report_coin.py:14-18 | Defines when a client exists: the key is not `None`, so an empty key still makes one. |
| ReportCoin.AskGpt | report_coin.py:36-67 | Without a client: exactly `"❌ 오류: GPT 클라이언트 초기화 실패"`, and no request is sent. Otherwise the request is the prompt built with the news text, and the answer is the stripped reply or `"GPT 호출 오류: "` followed by the message. |
| ReportCoin.LooksLikeError | report_coin.py:99 | Defines the marker test: the result contains `"GPT 호출 오류:"` or `"초기화 실패"`. |
| ReportCoin.ErrorAnswersLookLikeErrors | report_coin.py:37-67 | Both error strings `ask_gpt` can return contain one of the markers the entry point tests. |
| ReportCoin.UnflaggedAnswerIsCompleted | report_coin.py:99-102 | An answer that passes the marker test came from a completed request: it is the stripped reply. |
| ReportCoin.GenuineReportCanLookLikeError | report_coin.py:99 | A genuine report that mentions `초기화 실패` is flagged as an error too. |
| ReportCoin.Report | report_coin.py:89-106 | It stops exactly when a credential is not truthy. It reports no news exactly when the credentials pass and the news text is empty. It mails exactly when the credentials pass, the text is non-empty and the answer carries neither marker. A mailed answer always came from a completed request, and the mail is attempted from and to the address under the fixed subject; its outcome is exactly what `send_email` gives for that answer. |
| ReportCoin.RunReport | report_coin.py:89-106 | The entry point ends as `Report` does on the text `get_stock_news()` returns. It takes the no-news branch exactly when the credentials pass and the feed has no entries. |

## Left out

- HTTP requests, `raise_for_status`, and BeautifulSoup's parsing and `find_all` matching are inputs. Each source's outcome is `Failed` or the text nodes of the matched elements.
- Exceptions inside the `try` at app.py:37-45 after the fetch are not modelled separately. They come from the parse. Every such exception has the same effect as a failed fetch.
- `feedparser.parse` is an input sequence of entries with optional `title`, `summary` and `description`. The feed URL is kept only as a constant.
- The OpenAI client and its request parameters (model, temperature, token limit) are left out. The reply, or the exception message, is the input `complete`.
- SMTP connection, login, `send_message` and MIME encoding are left out. Their combined outcome is the input `smtp`. The password only takes part in the `None` guard.
- `os.getenv` / `os.environ.get` are left out; the three values are parameters. `datetime.now().strftime` is left out; the date string is a parameter.
- Console output (`print`) is left out. Each entry point returns an outcome value instead.
- App.NewsSectionRoundTrip: holds only when no source name or headline contains a line break. With line breaks the rendered section is ambiguous.
- ReportCoin.DigestRoundTrip: holds only when no title or summary contains a line break. It reads back the digest before the final `strip()`.
- Python's `strip()` is modelled over code points with the `str.isspace()` set. Unicode normalisation and encodings are out of scope.
