/**
 * app.py: scrape headlines from three fixed sites, render them into one
 * prompt, ask the model for a report and mail the report to oneself.
 *
 * The network fetch plus BeautifulSoup's `find_all` is an abstract
 * `FetchOutcome` per source, the completion call is the function `complete`,
 * the SMTP session is the function `smtp`, and the date that
 * `datetime.now().strftime` renders is the string `today`.
 */
module App {

  import opened Wrappers
  import opened PyText
  import opened Services

  /** One entry of `NEWS_SOURCES`: the page to fetch and the `find_all(tag, attrs={"class": ...})` rule. */
  datatype SourceDescriptor = SourceDescriptor(name: string, url: string, tag: string, cssClass: string)

  /** `NEWS_SOURCES`, in its insertion order. */
  const Registry: seq<SourceDescriptor> := [
    SourceDescriptor("CNBC", "https://www.cnbc.com/world/?region=world", "a", "Card-title"),
    SourceDescriptor("Yahoo Finance", "https://finance.yahoo.com/", "h3", "Mb(5px)"),
    SourceDescriptor("Investing.com", "https://www.investing.com/news/stock-market-news", "a", "title")
  ]

  /** The `[:10]` slice of the headline list. */
  const HeadlineCap: nat := 10

  /** An element `find_all` matched, as the text nodes below it in document order. */
  datatype Element = Element(strings: seq<string>)

  /**
   * What the body of the `try` at app.py:37-43 got to see for one source:
   * either something raised (connection error, a non-2xx status from
   * `raise_for_status`, a parser error) or the page was fetched and these
   * elements matched, in document order.
   */
  datatype FetchOutcome = Failed | Fetched(matches: seq<Element>)

  /** A Python dict from source name to headline list, in insertion order. */
  type NewsTable = seq<(string, seq<string>)>

  predicate DistinctNames(registry: seq<SourceDescriptor>) {
    forall i, j :: 0 <= i < j < |registry| ==> registry[i].name != registry[j].name
  }

  function Names(registry: seq<SourceDescriptor>): (ns: seq<string>)
    ensures |ns| == |registry| && forall i :: 0 <= i < |registry| ==> ns[i] == registry[i].name
  {
    seq(|registry|, i requires 0 <= i < |registry| => registry[i].name)
  }

  // ---------------------------------------------------------------------------
  // The dict

  function Keys(t: NewsTable): (ks: seq<string>)
    ensures |ks| == |t| && forall i :: 0 <= i < |t| ==> ks[i] == t[i].0
  {
    seq(|t|, i requires 0 <= i < |t| => t[i].0)
  }

  /** Dict keys are unique. */
  predicate DistinctKeys(t: NewsTable) {
    forall i, j :: 0 <= i < j < |t| ==> t[i].0 != t[j].0
  }

  /** Where key `k` sits. */
  function IndexOf(t: NewsTable, k: string): (i: nat)
    requires k in Keys(t)
    ensures i < |t| && t[i].0 == k
  {
    if t[0].0 == k then 0
    else
      assert k in Keys(t[1..]) by {
        var a :| 0 <= a < |t| && Keys(t)[a] == k;
        assert Keys(t[1..])[a - 1] == k;
      }
      1 + IndexOf(t[1..], k)
  }

  /** `d.get(k)`. */
  function Lookup(t: NewsTable, k: string): Option<seq<string>> {
    if k in Keys(t) then Some(t[IndexOf(t, k)].1) else None
  }

  /**
   * `d[k] = v`: an existing key keeps its position and gets the new value, a
   * new key goes to the end.
   */
  function Put(t: NewsTable, k: string, v: seq<string>): (r: NewsTable)
    requires DistinctKeys(t)
    ensures DistinctKeys(r)
    ensures k in Keys(t) ==> Keys(r) == Keys(t)
    ensures k !in Keys(t) ==> r == t + [(k, v)]
  {
    if k in Keys(t) then
      var r := t[IndexOf(t, k) := (k, v)];
      assert Keys(r) == Keys(t);
      r
    else
      var r := t + [(k, v)];
      assert Keys(r) == Keys(t) + [k];
      r
  }

  /** With unique keys a key's position is determined by the key. */
  lemma IndexOfUnique(t: NewsTable, k: string, i: nat)
    requires DistinctKeys(t) && i < |t| && t[i].0 == k
    ensures k in Keys(t) && IndexOf(t, k) == i
  {
    assert Keys(t)[i] == k;
  }

  /** After `d[k] = v`, `d.get(k)` is `v` and every other key reads as before. */
  lemma PutLookup(t: NewsTable, k: string, v: seq<string>, j: string)
    requires DistinctKeys(t)
    ensures Lookup(Put(t, k, v), k) == Some(v)
    ensures j != k ==> Lookup(Put(t, k, v), j) == Lookup(t, j)
  {
    var r := Put(t, k, v);
    var i := if k in Keys(t) then IndexOf(t, k) else |t|;
    assert r[i] == (k, v);
    IndexOfUnique(r, k, i);
    if j != k && j in Keys(t) {
      var a := IndexOf(t, j);
      assert r[a] == t[a];
      IndexOfUnique(r, j, a);
    }
    if j != k && j !in Keys(t) && k !in Keys(t) {
      assert Keys(r) == Keys(t) + [k];
    }
  }

  // ---------------------------------------------------------------------------
  // One source: app.py:42-43

  /** `a.get_text(strip=True)` for every matched element, in document order. */
  function Extracted(matches: seq<Element>): (texts: seq<string>)
    ensures |texts| == |matches|
    ensures forall i :: 0 <= i < |matches| ==> texts[i] == GetText(matches[i].strings) && IsStripped(texts[i])
  {
    seq(|matches|, i requires 0 <= i < |matches| => GetText(matches[i].strings))
  }

  /** The filter of the comprehension at app.py:42: the non-empty texts, in order. */
  function NonEmpty(texts: seq<string>): (ts: seq<string>)
    ensures |ts| <= |texts|
    ensures forall k :: 0 <= k < |ts| ==> ts[k] != []
  {
    if texts == [] then []
    else
      var n := |texts|;
      NonEmpty(texts[..n - 1]) + (if texts[n - 1] != [] then [texts[n - 1]] else [])
  }

  /** The filter keeps document order: it distributes over concatenation. */
  lemma {:induction false} NonEmptyAppend(a: seq<string>, b: seq<string>)
    ensures NonEmpty(a + b) == NonEmpty(a) + NonEmpty(b)
  {
    if b != [] {
      var n := |b|;
      assert (a + b)[..|a + b| - 1] == a + b[..n - 1];
      assert (a + b)[|a + b| - 1] == b[n - 1];
      NonEmptyAppend(a, b[..n - 1]);
    } else {
      assert a + b == a;
    }
  }

  /** Every kept text is one of the extracted texts. */
  lemma {:induction false} NonEmptySound(texts: seq<string>, i: nat)
    requires i < |NonEmpty(texts)|
    ensures NonEmpty(texts)[i] in texts
  {
    var n := |texts|;
    var front := texts[..n - 1];
    if i < |NonEmpty(front)| {
      NonEmptySound(front, i);
      assert NonEmpty(texts)[i] == NonEmpty(front)[i];
    }
  }

  /** Every non-empty extracted text is kept. */
  lemma {:induction false} NonEmptyComplete(texts: seq<string>, k: nat)
    requires k < |texts| && texts[k] != []
    ensures texts[k] in NonEmpty(texts)
  {
    var n := |texts|;
    var front := texts[..n - 1];
    if k < n - 1 {
      assert front[k] == texts[k];
      NonEmptyComplete(front, k);
    }
  }

  /** A string is kept exactly when it is non-empty and one of the extracted texts. */
  lemma NonEmptyMember(texts: seq<string>, x: string)
    ensures x in NonEmpty(texts) <==> x != [] && x in texts
  {
    if x in NonEmpty(texts) {
      var i :| 0 <= i < |NonEmpty(texts)| && NonEmpty(texts)[i] == x;
      NonEmptySound(texts, i);
    }
    if x != [] && x in texts {
      var k :| 0 <= k < |texts| && texts[k] == x;
      NonEmptyComplete(texts, k);
    }
  }

  /** `[a.get_text(strip=True) for a in articles if a.get_text(strip=True)]`. */
  function Titles(matches: seq<Element>): seq<string> {
    NonEmpty(Extracted(matches))
  }

  /** What app.py:37-45 stores for one source. */
  function SourceHeadlines(outcome: FetchOutcome): seq<string> {
    match outcome
    case Failed => []
    case Fetched(matches) => Take(Titles(matches), HeadlineCap)
  }

  /**
   * A failed source gets `[]`; otherwise the list is the first ten kept
   * titles, all ten when there are at least ten, each one non-empty and free
   * of surrounding whitespace.
   */
  lemma HeadlinesShape(outcome: FetchOutcome)
    ensures outcome.Failed? ==> SourceHeadlines(outcome) == []
    ensures outcome.Fetched? ==>
      var all := Titles(outcome.matches);
      |SourceHeadlines(outcome)| == Min(|all|, HeadlineCap) && SourceHeadlines(outcome) == all[..|SourceHeadlines(outcome)|]
    ensures |SourceHeadlines(outcome)| <= HeadlineCap
    ensures forall k :: 0 <= k < |SourceHeadlines(outcome)| ==>
      SourceHeadlines(outcome)[k] != [] && IsStripped(SourceHeadlines(outcome)[k])
  {
    if outcome.Fetched? {
      var texts := Extracted(outcome.matches);
      var all := NonEmpty(texts);
      var hs := SourceHeadlines(outcome);
      forall k | 0 <= k < |hs| ensures hs[k] != [] && IsStripped(hs[k]) {
        assert hs[k] == all[k];
        NonEmptySound(texts, k);
      }
    }
  }

  // ---------------------------------------------------------------------------
  // collect_all_news: app.py:34-46

  /** The dict that assigning `d[names[i]] = values[i]` for i = 0, 1, ... to an empty dict gives. */
  function Recorded(names: seq<string>, values: seq<seq<string>>): (t: NewsTable)
    requires |values| == |names|
    ensures DistinctKeys(t)
  {
    if names == [] then []
    else
      var n := |names|;
      Put(Recorded(names[..n - 1], values[..n - 1]), names[n - 1], values[n - 1])
  }

  lemma {:induction false} RecordedInOrder(names: seq<string>, values: seq<seq<string>>)
    requires |values| == |names|
    requires forall i, j :: 0 <= i < j < |names| ==> names[i] != names[j]
    ensures |Recorded(names, values)| == |names|
    ensures forall i :: 0 <= i < |names| ==> Recorded(names, values)[i] == (names[i], values[i])
  {
    if names != [] {
      var n := |names|;
      RecordedInOrder(names[..n - 1], values[..n - 1]);
      RecordedAppends(names, values);
    }
  }

  /** A name not recorded before is appended after the earlier entries. */
  lemma RecordedAppends(names: seq<string>, values: seq<seq<string>>)
    requires |values| == |names| > 0
    requires names[|names| - 1] !in names[..|names| - 1]
    requires Keys(Recorded(names[..|names| - 1], values[..|names| - 1])) == names[..|names| - 1]
    ensures Recorded(names, values)
         == Recorded(names[..|names| - 1], values[..|names| - 1]) + [(names[|names| - 1], values[|names| - 1])]
  {
  }

  /** One more assignment of the loop in `collect_all_news`. */
  lemma RecordedPrefix(names: seq<string>, values: seq<seq<string>>, i: nat)
    requires |values| == |names| && i < |names|
    ensures Recorded(names[..i + 1], values[..i + 1]) == Put(Recorded(names[..i], values[..i]), names[i], values[i])
  {
    assert names[..i + 1][..i] == names[..i];
    assert values[..i + 1][..i] == values[..i];
  }

  /** What `collect_all_news` stores for each source, in registry order. */
  function StoredLists(outcomes: seq<FetchOutcome>): (ls: seq<seq<string>>)
    ensures |ls| == |outcomes| && forall i :: 0 <= i < |outcomes| ==> ls[i] == SourceHeadlines(outcomes[i])
  {
    seq(|outcomes|, i requires 0 <= i < |outcomes| => SourceHeadlines(outcomes[i]))
  }

  /** The dict `collect_all_news` builds when the i-th source's fetch ends in `outcomes[i]`. */
  function Collected(registry: seq<SourceDescriptor>, outcomes: seq<FetchOutcome>): (t: NewsTable)
    requires |outcomes| == |registry|
    ensures DistinctKeys(t)
  {
    Recorded(Names(registry), StoredLists(outcomes))
  }

  /**
   * With distinct source names (the registry is a dict) the result has
   * exactly one entry per source, in registry order, and each entry holds
   * that source's own headlines, whatever happened to the other sources.
   */
  lemma CollectedCoverage(registry: seq<SourceDescriptor>, outcomes: seq<FetchOutcome>)
    requires |outcomes| == |registry| && DistinctNames(registry)
    ensures |Collected(registry, outcomes)| == |registry|
    ensures Keys(Collected(registry, outcomes)) == Names(registry)
    ensures forall i :: 0 <= i < |registry| ==>
      Collected(registry, outcomes)[i] == (registry[i].name, SourceHeadlines(outcomes[i]))
  {
    RecordedInOrder(Names(registry), StoredLists(outcomes));
    assert Keys(Collected(registry, outcomes)) == Names(registry);
  }

  /**
   * Failure isolation: whatever the j-th fetch does, every other source's
   * entry stays as it was, and the j-th entry is its own outcome's
   * headlines (`[]` for a failure).
   */
  lemma SourceIsolation(registry: seq<SourceDescriptor>, outcomes: seq<FetchOutcome>, j: nat, o: FetchOutcome)
    requires |outcomes| == |registry| && DistinctNames(registry) && j < |registry|
    ensures |Collected(registry, outcomes[j := o])| == |Collected(registry, outcomes)| == |registry|
    ensures forall i :: 0 <= i < |registry| && i != j ==>
      Collected(registry, outcomes[j := o])[i] == Collected(registry, outcomes)[i]
    ensures Collected(registry, outcomes[j := o])[j] == (registry[j].name, SourceHeadlines(o))
    ensures o.Failed? ==> Collected(registry, outcomes[j := o])[j].1 == []
  {
    CollectedCoverage(registry, outcomes);
    CollectedCoverage(registry, outcomes[j := o]);
  }

  lemma RegistryNamesDistinct()
    ensures DistinctNames(Registry)
  {
  }

  /**
   * `collect_all_news()`: visits the registry in order and assigns one dict
   * entry per source. `outcomes[i]` is how the i-th source's fetch ended.
   */
  method CollectAllNews(outcomes: seq<FetchOutcome>) returns (allNews: NewsTable)
    requires |outcomes| == |Registry|
    ensures allNews == Collected(Registry, outcomes)
    ensures Keys(allNews) == Names(Registry)
    ensures forall i :: 0 <= i < |Registry| ==> allNews[i] == (Registry[i].name, SourceHeadlines(outcomes[i]))
  {
    ghost var names, values := Names(Registry), StoredLists(outcomes);
    allNews := [];
    for i := 0 to |Registry|
      invariant allNews == Recorded(names[..i], values[..i])
    {
      var source := Registry[i];
      var headlines := SourceHeadlines(outcomes[i]);
      RecordedPrefix(names, values, i);
      allNews := Put(allNews, source.name, headlines);
    }
    assert names[..|Registry|] == names;
    assert values[..|Registry|] == values;
    RegistryNamesDistinct();
    CollectedCoverage(Registry, outcomes);
  }

  // ---------------------------------------------------------------------------
  // The news section of the prompt: app.py:54-59

  /** The header line `📰 {source} 뉴스:` of a source's block. */
  function HeaderLine(source: string): string {
    "📰 " + source + " 뉴스:"
  }

  /** The line `- {title}` of one headline. */
  function BulletLine(title: string): string {
    "- " + title
  }

  /** `f"📰 {source} 뉴스:\n"` */
  function HeaderText(source: string): string {
    HeaderLine(source) + "\n"
  }

  /** `f"- {title}\n"` */
  function BulletText(title: string): string {
    BulletLine(title) + "\n"
  }

  /** What the inner loop appends for a list of titles. */
  function Bullets(titles: seq<string>): string {
    if titles == [] then "" else BulletText(titles[0]) + Bullets(titles[1..])
  }

  /** What one turn of the outer loop appends. */
  function SourceBlock(source: string, titles: seq<string>): string {
    HeaderText(source) + Bullets(titles) + "\n"
  }

  /** The `news_summary` that the loop over `news_dict.items()` builds. */
  function NewsSection(table: NewsTable): string {
    if table == [] then "" else SourceBlock(table[0].0, table[0].1) + NewsSection(table[1..])
  }

  lemma {:induction false} BulletsAppend(a: seq<string>, b: seq<string>)
    ensures Bullets(a + b) == Bullets(a) + Bullets(b)
  {
    if a == [] {
      assert a + b == b;
    } else {
      assert (a + b)[1..] == a[1..] + b;
      BulletsAppend(a[1..], b);
    }
  }

  /** Rendering distributes over the table: each source's block in table order. */
  lemma {:induction false} NewsSectionAppend(a: NewsTable, b: NewsTable)
    ensures NewsSection(a + b) == NewsSection(a) + NewsSection(b)
  {
    if a == [] {
      assert a + b == b;
    } else {
      assert (a + b)[1..] == a[1..] + b;
      NewsSectionAppend(a[1..], b);
    }
  }

  /**
   * The i-th source's block sits exactly between the blocks of the sources
   * before it and after it; a source with no headlines still has its header.
   */
  lemma NewsSectionAt(table: NewsTable, i: nat)
    requires i < |table|
    ensures NewsSection(table) == NewsSection(table[..i]) + (SourceBlock(table[i].0, table[i].1) + NewsSection(table[i + 1..]))
    ensures table[i].1 == [] ==> SourceBlock(table[i].0, table[i].1) == HeaderText(table[i].0) + "\n"
  {
    var rest := table[i..];
    assert table == table[..i] + rest;
    NewsSectionAppend(table[..i], rest);
    assert rest[0] == table[i] && rest[1..] == table[i + 1..];
  }

  lemma BulletsSnoc(titles: seq<string>, title: string)
    ensures Bullets(titles + [title]) == Bullets(titles) + BulletText(title)
  {
    BulletsAppend(titles, [title]);
    assert Bullets([title]) == BulletText(title) + "";
  }

  lemma NewsSectionSnoc(table: NewsTable, source: string, titles: seq<string>)
    ensures NewsSection(table + [(source, titles)]) == NewsSection(table) + SourceBlock(source, titles)
  {
    NewsSectionAppend(table, [(source, titles)]);
    assert NewsSection([(source, titles)]) == SourceBlock(source, titles) + "";
  }

  /** The nested loop at app.py:54-59. */
  method RenderNewsSummary(newsDict: NewsTable) returns (newsSummary: string)
    ensures newsSummary == NewsSection(newsDict)
  {
    newsSummary := "";
    for i := 0 to |newsDict|
      invariant newsSummary == NewsSection(newsDict[..i])
    {
      var (source, titles) := newsDict[i];
      ghost var done := newsSummary;
      newsSummary := newsSummary + HeaderText(source);
      for j := 0 to |titles|
        invariant newsSummary == done + HeaderText(source) + Bullets(titles[..j])
      {
        BulletsSnoc(titles[..j], titles[j]);
        assert titles[..j + 1] == titles[..j] + [titles[j]];
        newsSummary := newsSummary + BulletText(titles[j]);
      }
      assert titles[..|titles|] == titles;
      newsSummary := newsSummary + "\n";
      Regroup(done, HeaderText(source), Bullets(titles), "\n");
      NewsSectionSnoc(newsDict[..i], source, titles);
      assert newsDict[..i + 1] == newsDict[..i] + [(source, titles)];
    }
    assert newsDict[..|newsDict|] == newsDict;
  }

  // ---------------------------------------------------------------------------
  // Reading the news section back, line by line

  function BulletLines(titles: seq<string>): (ls: seq<string>)
    ensures |ls| == |titles| && forall k :: 0 <= k < |titles| ==> ls[k] == BulletLine(titles[k])
  {
    seq(|titles|, k requires 0 <= k < |titles| => BulletLine(titles[k]))
  }

  function SourceLines(source: string, titles: seq<string>): seq<string> {
    [HeaderLine(source)] + BulletLines(titles) + [""]
  }

  function SectionLines(table: NewsTable): seq<string> {
    if table == [] then [] else SourceLines(table[0].0, table[0].1) + SectionLines(table[1..])
  }

  lemma {:induction false} BulletsAsLines(titles: seq<string>)
    ensures Bullets(titles) == JoinLines(BulletLines(titles))
  {
    if titles != [] {
      BulletsAsLines(titles[1..]);
      assert BulletLines(titles) == [BulletLine(titles[0])] + BulletLines(titles[1..]);
    }
  }

  lemma {:induction false} SectionAsLines(table: NewsTable)
    ensures NewsSection(table) == JoinLines(SectionLines(table))
  {
    if table != [] {
      var (source, titles) := table[0];
      SectionAsLines(table[1..]);
      BulletsAsLines(titles);
      JoinLinesAppend([HeaderLine(source)] + BulletLines(titles), [""]);
      JoinLinesAppend([HeaderLine(source)], BulletLines(titles));
      JoinLinesAppend(SourceLines(source, titles), SectionLines(table[1..]));
    }
  }

  /** Reads bullet lines up to the blank line that ends a block; returns the titles and the lines after it. */
  function ParseBullets(lines: seq<string>): (r: (seq<string>, seq<string>))
    ensures |r.1| <= |lines|
  {
    if lines == [] then ([], [])
    else if lines[0] == "" then ([], lines[1..])
    else
      var (titles, rest) := ParseBullets(lines[1..]);
      ([if |lines[0]| >= 2 then lines[0][2..] else lines[0]] + titles, rest)
  }

  /** The source name inside a `📰 {source} 뉴스:` line. */
  function HeaderSource(line: string): string {
    if |line| >= 6 then line[2..|line| - 4] else line
  }

  function ParseLines(lines: seq<string>): NewsTable
    decreases |lines|
  {
    if lines == [] then []
    else
      var (titles, rest) := ParseBullets(lines[1..]);
      [(HeaderSource(lines[0]), titles)] + ParseLines(rest)
  }

  /** The table a news section shows. */
  function ParseSection(section: string): NewsTable {
    ParseLines(SplitLines(section))
  }

  /** No source name and no headline contains a line break. */
  predicate SingleLineEntries(table: NewsTable) {
    forall i :: 0 <= i < |table| ==>
      '\n' !in table[i].0 && forall k :: 0 <= k < |table[i].1| ==> '\n' !in table[i].1[k]
  }

  lemma {:induction false} ParseBulletsOf(titles: seq<string>, rest: seq<string>)
    ensures ParseBullets(BulletLines(titles) + [""] + rest) == (titles, rest)
  {
    var lines := BulletLines(titles) + [""] + rest;
    if titles == [] {
      assert lines == [""] + rest;
    } else {
      assert lines[0] == BulletLine(titles[0]);
      assert |lines[0]| >= 2 && lines[0] != "";
      assert BulletLines(titles) == [BulletLine(titles[0])] + BulletLines(titles[1..]);
      assert lines[1..] == BulletLines(titles[1..]) + [""] + rest;
      ParseBulletsOf(titles[1..], rest);
      assert BulletLine(titles[0])[2..] == titles[0];
      assert [titles[0]] + titles[1..] == titles;
    }
  }

  lemma {:induction false} ParseLinesOf(table: NewsTable)
    ensures ParseLines(SectionLines(table)) == table
  {
    if table != [] {
      var (source, titles) := table[0];
      var lines := SectionLines(table);
      var rest := SectionLines(table[1..]);
      assert lines == [HeaderLine(source)] + (BulletLines(titles) + [""] + rest);
      assert lines[1..] == BulletLines(titles) + [""] + rest;
      ParseBulletsOf(titles, rest);
      assert HeaderSource(HeaderLine(source)) == source;
      ParseLinesOf(table[1..]);
    }
  }

  lemma {:induction false} SectionLinesSingle(table: NewsTable)
    requires SingleLineEntries(table)
    ensures forall k :: 0 <= k < |SectionLines(table)| ==> '\n' !in SectionLines(table)[k]
  {
    if table != [] {
      var (source, titles) := table[0];
      assert SingleLineEntries(table[1..]) by {
        forall i | 0 <= i < |table[1..]| ensures '\n' !in table[1..][i].0 && forall k :: 0 <= k < |table[1..][i].1| ==> '\n' !in table[1..][i].1[k] {
          assert table[1..][i] == table[i + 1];
        }
      }
      SectionLinesSingle(table[1..]);
      var block := SourceLines(source, titles);
      assert '\n' !in HeaderLine(source);
      forall k | 0 <= k < |block| ensures '\n' !in block[k] {
        if 0 < k < |block| - 1 {
          assert block[k] == BulletLine(titles[k - 1]);
          assert '\n' !in titles[k - 1];
        }
      }
      var lines := SectionLines(table);
      forall k | 0 <= k < |lines| ensures '\n' !in lines[k] {
        if k >= |block| {
          assert lines[k] == SectionLines(table[1..])[k - |block|];
        }
      }
    }
  }

  /**
   * The news section loses nothing: when no name or headline contains a line
   * break, reading its lines back gives every source, in table order, with
   * exactly its headlines, including the sources whose list is empty.
   */
  lemma NewsSectionRoundTrip(table: NewsTable)
    requires SingleLineEntries(table)
    ensures ParseSection(NewsSection(table)) == table
  {
    SectionAsLines(table);
    SectionLinesSingle(table);
    SplitJoin(SectionLines(table));
    ParseLinesOf(table);
  }

  // ---------------------------------------------------------------------------
  // ask_gpt_from_news: app.py:48-86

  /** Returned when no client could be created. */
  const ClientErrorSentinel: string := "GPT 클라이언트 오류"

  /** Put in front of the exception message when the completion call raises. */
  const CallErrorPrefix: string := "GPT 오류: "

  function PromptHead(today: string): string {
    "\n오늘은 " + today + "입니다.\n다음은 주요 미국 증시 관련 뉴스 제목들입니다:\n\n"
  }

  const PromptTail: string :=
    "\n\n이 제목들을 기반으로 아래 항목을 작성해줘:\n\n"
    + "1. 시장 전반 흐름 요약 (2~3줄)\n"
    + "2. 📌 단기 투자 종목 (1~2일 내 수익 가능성 예상, 종목 코드 포함)\n"
    + "3. 📆 일주일 투자 종목 (업계 이슈 기반으로 주간 상승 기대)\n"
    + "4. 📅 한 달 투자 종목 (중기 상승 가능성 높은 기업)\n\n"
    + "각 추천 종목마다 이유도 간단하게 써줘. 중복되어도 괜찮고, **오늘 날짜 기준임을 명확히 해줘.**\n"

  /** The f-string prompt at app.py:61-75. */
  function Prompt(today: string, newsSummary: string): string {
    PromptHead(today) + newsSummary + PromptTail
  }

  /**
   * The prompt carries the news section unchanged between the fixed head and
   * the fixed instructions, so the section can be read back out of it, and
   * the instructions are there even when the section is empty.
   */
  lemma PromptCarriesNews(today: string, newsSummary: string)
    ensures var p := Prompt(today, newsSummary);
      |PromptHead(today)| + |PromptTail| <= |p|
      && p[|PromptHead(today)|..|p| - |PromptTail|] == newsSummary
      && Contains(p, PromptTail)
  {
    var p := Prompt(today, newsSummary);
    assert p[|PromptHead(today)|..|p| - |PromptTail|] == newsSummary;
    ContainsInfix(PromptHead(today) + newsSummary, PromptTail, "");
    assert PromptHead(today) + newsSummary + PromptTail + "" == p;
  }

  /** What the `try` at app.py:77-86 returns for the completion's outcome. */
  function Answer(c: Completion): string {
    match c
    case Completed(content) => Strip(content)
    case Raised(message) => CallErrorPrefix + message
  }

  /**
   * `client` exists exactly when the key is truthy (app.py:14); `client is
   * None` means an absent or empty key.
   */
  predicate ClientReady(apiKey: Option<string>) {
    Truthy(apiKey)
  }

  /**
   * `ask_gpt_from_news(news_dict)`. Without a client it returns the sentinel
   * and sends nothing; otherwise it sends the prompt built from the news
   * section and returns the trimmed reply or the error string.
   */
  method AskGptFromNews(clientReady: bool, today: string, newsDict: NewsTable, complete: string -> Completion)
    returns (x: Exchange)
    ensures !clientReady ==> x == Exchange(None, ClientErrorSentinel)
    ensures clientReady ==> x.request == Some(Prompt(today, NewsSection(newsDict)))
    ensures clientReady ==> x.answer == Answer(complete(x.request.value))
    ensures clientReady && complete(x.request.value).Raised? ==>
      x.answer == CallErrorPrefix + complete(x.request.value).message
  {
    if !clientReady {
      return Exchange(None, ClientErrorSentinel);
    }
    var newsSummary := RenderNewsSummary(newsDict);
    var prompt := Prompt(today, newsSummary);
    x := Exchange(Some(prompt), Answer(complete(prompt)));
  }

  // ---------------------------------------------------------------------------
  // __main__: app.py:105-111

  const ReportSubject: string := "📈 오늘의 미국 주식 리포트"

  datatype AppRun =
    | MissingCredentials
    | Ran(news: NewsTable, call: Exchange, mail: MailOutcome)

  /**
   * The entry point: with all three credentials truthy it collects, asks and
   * mails whatever the analysis is, error strings included; otherwise it
   * does nothing but print.
   */
  method RunApp(env: Environment, outcomes: seq<FetchOutcome>, today: string,
                complete: string -> Completion, smtp: Email -> SmtpResult)
    returns (run: AppRun)
    requires |outcomes| == |Registry|
    ensures run.Ran? <==> AllCredentials(env)
    ensures run.Ran? ==> run.news == Collected(Registry, outcomes)
    ensures run.Ran? ==> run.call.request == Some(Prompt(today, NewsSection(run.news)))
    ensures run.Ran? ==> run.call.answer == Answer(complete(run.call.request.value))
    ensures run.Ran? ==> run.mail == SendEmail(env.address, env.password, ReportSubject, run.call.answer, smtp)
    ensures run.Ran? ==> run.mail.Attempted()
    ensures run.Ran? ==> run.mail.email == Email(env.address.value, env.address.value, ReportSubject, run.call.answer)
  {
    if Truthy(env.apiKey) && Truthy(env.address) && Truthy(env.password) {
      var newsData := CollectAllNews(outcomes);
      var analysis := AskGptFromNews(ClientReady(env.apiKey), today, newsData, complete);
      var mail := SendEmail(env.address, env.password, ReportSubject, analysis.answer, smtp);
      run := Ran(newsData, analysis, mail);
    } else {
      run := MissingCredentials;
    }
  }
}
