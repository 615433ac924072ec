/**
 The pure model of one crawl: the state the crawl tasks share, what a single
 task does to it, and what a list of sibling tasks does when they run one after
 another. The imperative crawler in module WebCrawler is proved against these
 functions; module CrawlProperties proves what they guarantee.

 The fork-join pool runs sibling tasks in parallel, but the only state they
 share is the visited set (changed by an atomic insert-if-absent) and the word
 tally (changed by an atomic add per word), so running the siblings left to
 right is one of the interleavings the pool may produce.
 */
module CrawlSpec {

  type Url = string
  type Word = string

  /** An ignore pattern, kept as its regular-expression text. */
  type Pattern = string

  /** What the page parser returns for one URL: the words on the page with
      their counts, and the page's outgoing links in document order. */
  datatype Page = Page(wordCounts: map<Word, nat>, links: seq<Url>)

  /** Everything a crawl task reads and never changes.
      - fullyMatches(p, u): does pattern p match the WHOLE of u (a regex full match);
      - parse(u): the parsed page behind u;
      - instants(k): the instant the clock shows at the crawler's k-th reading;
      - deadline: the instant after which no task does any work. */
  datatype Config = Config(
    ignoredUrls: seq<Pattern>,
    fullyMatches: (Pattern, Url) -> bool,
    parse: Url -> Page,
    instants: nat -> int,
    deadline: int)

  /** The state the tasks of one crawl share: the visited URLs, the word tally,
      and how many clock readings the crawler has taken so far. */
  datatype CrawlState = CrawlState(visited: set<Url>, wordCounts: map<Word, nat>, clockReads: nat)

  /** The value the crawl hands back. */
  datatype CrawlResult = CrawlResult(wordCounts: map<Word, nat>, urlsVisited: nat)

  /** The count of w in a tally, 0 when w is absent. */
  function Count(tally: map<Word, nat>, w: Word): nat
  {
    if w in tally then tally[w] else 0
  }

  /** Adds a page's counts into the tally word by word, as `merge(w, n, Integer::sum)`
      does: a word already present gets its old count plus the page's count, a
      new word gets the page's count, and words not on the page keep theirs. */
  function MergeCounts(tally: map<Word, nat>, page: map<Word, nat>): (r: map<Word, nat>)
    ensures r.Keys == tally.Keys + page.Keys
    ensures forall w :: w in page ==> r[w] == Count(tally, w) + page[w]
    ensures forall w :: w in tally && w !in page ==> r[w] == tally[w]
  {
    map w | w in tally.Keys + page.Keys :: Count(tally, w) + Count(page, w)
  }

  /** Does some ignore pattern fully match the URL? With no patterns, none is. */
  predicate Ignored(c: Config, url: Url)
    ensures c.ignoredUrls == [] ==> !Ignored(c, url)
  {
    exists i :: 0 <= i < |c.ignoredUrls| && c.fullyMatches(c.ignoredUrls[i], url)
  }

  /** Is the clock reading number k strictly after the deadline? A reading
      that shows the deadline itself is not. */
  predicate PastDeadline(c: Config, k: nat)
    ensures c.instants(k) <= c.deadline ==> !PastDeadline(c, k)
  {
    c.instants(k) > c.deadline
  }

  /** One crawl task on `url` with `depth` levels left. A task at depth 0 does
      not even read the clock (the depth test short-circuits); otherwise it reads
      the clock once and stops if the reading is past the deadline, if the URL is
      ignored, or if the URL was visited already. Otherwise it marks the URL
      visited, adds the page's counts to the tally, and runs one task per link
      with one level less. */
  function Task(c: Config, s: CrawlState, url: Url, depth: nat): (r: CrawlState)
    decreases depth, 0
    ensures depth == 0 ==> r == s
    ensures depth > 0 && (PastDeadline(c, s.clockReads) || Ignored(c, url) || url in s.visited) ==>
              r == s.(clockReads := s.clockReads + 1)
    ensures s.visited <= r.visited && s.clockReads <= r.clockReads
  {
    if depth == 0 then s
    else
      var s1 := s.(clockReads := s.clockReads + 1);
      if PastDeadline(c, s.clockReads) || Ignored(c, url) || url in s.visited then s1
      else
        var page := c.parse(url);
        var s2 := s1.(visited := s.visited + {url}, wordCounts := MergeCounts(s.wordCounts, page.wordCounts));
        Tasks(c, s2, page.links, depth - 1)
  }

  /** Sibling tasks, one per URL, all at the same depth, run in list order. */
  function Tasks(c: Config, s: CrawlState, urls: seq<Url>, depth: nat): (r: CrawlState)
    decreases depth, |urls|
    ensures depth == 0 ==> r == s
    ensures s.visited <= r.visited && s.clockReads <= r.clockReads
  {
    if urls == [] then s
    else Task(c, Tasks(c, s, urls[..|urls| - 1], depth), urls[|urls| - 1], depth)
  }

  /** Running one more sibling task after the others. */
  lemma TasksSnoc(c: Config, s: CrawlState, urls: seq<Url>, u: Url, depth: nat)
    ensures Tasks(c, s, urls + [u], depth) == Task(c, Tasks(c, s, urls, depth), u, depth)
  {
    assert (urls + [u])[..|urls|] == urls;
  }

  /** The state after a whole crawl: one top-level task per starting URL at
      `maxDepth`, from an empty visited set and an empty tally; clockReads is the
      number of clock readings taken before the first task starts. */
  function Crawled(c: Config, startingUrls: seq<Url>, maxDepth: nat, clockReads: nat): (r: CrawlState)
    ensures maxDepth == 0 || startingUrls == [] ==> r == CrawlState({}, map[], clockReads)
    ensures r.clockReads >= clockReads
  {
    Tasks(c, CrawlState({}, map[], clockReads), startingUrls, maxDepth)
  }

  /** Builds the crawl result from the final state: the visited count is the
      size of the visited set; an empty tally is returned as it is, a non-empty
      one is ranked by `sortWordCounts` to `popularWordCount` entries. */
  function Assemble(s: CrawlState, popularWordCount: int,
                    sortWordCounts: (map<Word, nat>, int) -> map<Word, nat>): (r: CrawlResult)
    ensures r.urlsVisited == |s.visited|
    ensures s.wordCounts == map[] ==> r.wordCounts == map[]
    ensures s.wordCounts != map[] ==> r.wordCounts == sortWordCounts(s.wordCounts, popularWordCount)
  {
    if s.wordCounts == map[] then CrawlResult(s.wordCounts, |s.visited|)
    else CrawlResult(sortWordCounts(s.wordCounts, popularWordCount), |s.visited|)
  }

  /** Some element of a non-empty set, the same one every time. */
  ghost function Pick(urls: set<Url>): (u: Url)
    requires urls != {}
    ensures u in urls
  {
    var u :| u in urls; u
  }

  /** The reference tally of a set of pages: every page's counts added in once. */
  ghost function Tally(parse: Url -> Page, urls: set<Url>): map<Word, nat>
    decreases urls
  {
    if urls == {} then map[]
    else
      var u := Pick(urls);
      MergeCounts(Tally(parse, urls - {u}), parse(u).wordCounts)
  }

  /** Can `to` be reached from `from` by following fewer than n links? */
  predicate ReachableWithin(parse: Url -> Page, from: Url, to: Url, n: nat)
    decreases n
  {
    n > 0 &&
    (from == to ||
     exists i :: 0 <= i < |parse(from).links| && ReachableWithin(parse, parse(from).links[i], to, n - 1))
  }
}
