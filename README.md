# Parallel web crawler — a Dafny model of its crawl

This project models the crawl performed by the crawler's `ParallelWebCrawler` class.

A crawl starts from a list of URLs. It records a deadline: the clock's reading plus the timeout. Then it runs one crawl task per starting URL, each with `maxDepth` levels. A task does nothing more when any of these holds:

- its depth is 0;
- the clock reads past the deadline;
- one of the ignore patterns fully matches its URL;
- its URL is already in the shared visited set.

Otherwise the task does three things:

1. It marks the URL visited.
2. It adds the counts of the page's words into the shared tally.
3. It runs one task per outgoing link, one level lower.

The crawl then reports the number of visited URLs and the tally. An empty tally is reported as is; a non-empty one is ranked. The crawler also sizes its worker pool when it is built.

Files:

- `crawl_spec.dfy` (module `CrawlSpec`): the pure model.
  - The shared state: the visited set, the tally, and the number of clock readings taken.
  - `Task` and `Tasks`: one crawl task, and a list of sibling tasks run in list order.
  - `Crawled` and `Assemble`: the whole crawl, and the result it reports.
  - `Tally`: a reference definition of the tally (every page of a set counted once).
  - `ReachableWithin`: reachability over the link graph.
- `parallel_web_crawler.dfy` (module `WebCrawler`): the crawler in its own imperative form. Each method is proved equal to the pure model.
  - `Clock`.
  - `CrawlRun`: the visited set and tally the tasks mutate in place, and the task itself, `Compute`.
  - `ParallelWebCrawler`: its constructor and `Crawl`.
  - `PoolParallelism`: the pool size.
- `crawl_properties.dfy` (module `CrawlProperties`): what a crawl guarantees, as lemmas over every input.
- `crawl_examples.dfy` (module `CrawlExamples`): crawls of a four-page "diamond" graph (a→b, a→c, b→d, c→d), worked out to their exact visited sets and tallies.

The fork-join pool runs sibling tasks in parallel. They share only the visited set, updated by an atomic insert-if-absent, and the tally, updated by an atomic add per word. The model runs siblings one after another in list order. `CrawlExamples.OrderDecidesVisited` shows that a depth-bounded crawl's visited set can depend on the order: the same two starting URLs, run in the other order, reach a page they otherwise miss.

The properties still cover every depth-first order. Each URL's page is expanded at most once, so running the children of every page in some other order is the same as crawling, in list order, with a parser whose link lists are permuted. Permuting links changes neither `ReachableWithin` nor `Tally`, and `CrawlTallyIsSumOfVisitedPages` and `CrawlVisitsOnlyReachable` hold for every parser and every list of starting URLs. What the model does not cover is interleaving finer than whole tasks: one task's steps running between another task's steps.

Depth counting follows the code. A URL reached by `k` link hops gets `maxDepth - k` levels and is fetched only while that is positive. So with `maxDepth` 2, a page two hops from the start is not fetched (`CrawlExamples.DiamondAtDepthTwo`).

## Model

| member | source | states |
|---|---|---|
| CrawlSpec.MergeCounts | starter/webcrawler/src/main/java/com/udacity/webcrawler/ParallelWebCrawler.java:93-95 | Merging a page into the tally: its words get the old count (0 if absent) plus the page's count, words not on the page keep their counts, and the key set becomes the union |
| CrawlSpec.Task | starter/webcrawler/src/main/java/com/udacity/webcrawler/ParallelWebCrawler.java:74-101 | A task at depth 0 leaves the state untouched and does not read the clock. A task past the deadline, on an ignored URL or on an already-visited URL only takes its clock reading: visited set and tally unchanged, no children. The visited set never shrinks |
| CrawlSpec.Tasks | starter/webcrawler/src/main/java/com/udacity/webcrawler/ParallelWebCrawler.java:97-100 | Sibling tasks at depth 0 change nothing; the visited set only grows. Each sibling runs on the state the earlier siblings left |
| CrawlSpec.Ignored | starter/webcrawler/src/main/java/com/udacity/webcrawler/ParallelWebCrawler.java:80-84 | A URL is ignored when some pattern of the list fully matches it; with no patterns no URL is ignored |
| CrawlSpec.PastDeadline | starter/webcrawler/src/main/java/com/udacity/webcrawler/ParallelWebCrawler.java:76 | A reading is past the deadline only when strictly after it: a reading equal to the deadline is not |
| CrawlSpec.Crawled | starter/webcrawler/src/main/java/com/udacity/webcrawler/ParallelWebCrawler.java:104-112 | A crawl runs one task per starting URL at maxDepth on an empty visited set and tally; with maxDepth 0 or no starting URL it leaves both empty and reads no clock |
| CrawlSpec.Assemble | starter/webcrawler/src/main/java/com/udacity/webcrawler/ParallelWebCrawler.java:114-126 | The reported visited count is the size of the visited set; an empty tally is returned unranked, a non-empty one is ranked to popularWordCount |
| CrawlProperties.MergeCommutes | starter/webcrawler/src/main/java/com/udacity/webcrawler/ParallelWebCrawler.java:93-95 | Merging two pages gives the same tally in either order |
| CrawlProperties.TallyAdd | starter/webcrawler/src/main/java/com/udacity/webcrawler/ParallelWebCrawler.java:86-95 | The tally of a set of pages is the same whichever page is merged last |
| CrawlProperties.TaskKeepsTally | starter/webcrawler/src/main/java/com/udacity/webcrawler/ParallelWebCrawler.java:86-100 | A task keeps the tally equal to the sum of the visited pages' counts, each page counted once |
| CrawlProperties.TasksKeepTally | starter/webcrawler/src/main/java/com/udacity/webcrawler/ParallelWebCrawler.java:97-100 | Sibling tasks keep the tally equal to the sum of the visited pages' counts |
| CrawlProperties.TaskGrowsTally | starter/webcrawler/src/main/java/com/udacity/webcrawler/ParallelWebCrawler.java:93-100 | A task never removes a word from the tally nor lowers its count |
| CrawlProperties.TasksGrowTally | starter/webcrawler/src/main/java/com/udacity/webcrawler/ParallelWebCrawler.java:97-100 | Sibling tasks never remove a word from the tally nor lower its count |
| CrawlProperties.TaskReaches | starter/webcrawler/src/main/java/com/udacity/webcrawler/ParallelWebCrawler.java:76-100 | Every URL a task adds is reachable from the task's URL in fewer than `depth` hops, and no ignore pattern matches it |
| CrawlProperties.TasksReach | starter/webcrawler/src/main/java/com/udacity/webcrawler/ParallelWebCrawler.java:97-100 | Every URL sibling tasks add is reachable from one of their URLs in fewer than `depth` hops, and is not ignored |
| CrawlProperties.TasksAfterDeadline | starter/webcrawler/src/main/java/com/udacity/webcrawler/ParallelWebCrawler.java:76-78 | Once every later clock reading is past the deadline, tasks change neither the visited set nor the tally |
| CrawlProperties.TasksAtDepthOne | starter/webcrawler/src/main/java/com/udacity/webcrawler/ParallelWebCrawler.java:76-100 | Before the deadline, sibling tasks at depth 1 add exactly their URLs that no pattern ignores |
| CrawlProperties.CrawlTallyIsSumOfVisitedPages | starter/webcrawler/src/main/java/com/udacity/webcrawler/ParallelWebCrawler.java:61-112 | A crawl's tally is the sum of the counts of the pages it visited, each page merged exactly once |
| CrawlProperties.CrawlVisitsOnlyReachable | starter/webcrawler/src/main/java/com/udacity/webcrawler/ParallelWebCrawler.java:80-110 | Every visited URL is unignored and reachable from a starting URL in fewer than maxDepth hops |
| CrawlProperties.CrawlAtDepthZeroIsEmpty | starter/webcrawler/src/main/java/com/udacity/webcrawler/ParallelWebCrawler.java:76-119 | A crawl with maxDepth 0 reports 0 visited URLs and an empty tally |
| CrawlProperties.CrawlAfterDeadlineIsEmpty | starter/webcrawler/src/main/java/com/udacity/webcrawler/ParallelWebCrawler.java:59-119 | A crawl all of whose tasks start after the deadline reports 0 visited URLs and an empty tally |
| CrawlProperties.CrawlAtDepthOne | starter/webcrawler/src/main/java/com/udacity/webcrawler/ParallelWebCrawler.java:80-110 | A crawl with maxDepth 1 before the deadline visits exactly the unignored starting URLs |
| CrawlExamples.DiamondAtDepthTwo | starter/webcrawler/src/main/java/com/udacity/webcrawler/ParallelWebCrawler.java:76-110 | On the diamond graph from a at maxDepth 2: visited {a, b, c}, tally x:1, y:3 (d gets depth 0) |
| CrawlExamples.DiamondAtDepthThree | starter/webcrawler/src/main/java/com/udacity/webcrawler/ParallelWebCrawler.java:86-100 | At maxDepth 3 d is fetched, and merged once although two visited pages link to it: tally x:6, y:3 |
| CrawlExamples.DedupIgnoresDepth | starter/webcrawler/src/main/java/com/udacity/webcrawler/ParallelWebCrawler.java:86-110 | Dedup is by URL alone: from [a, c] at maxDepth 2, c is first reached with one level left and the top-level task for c is pruned, so d is never fetched although it is one hop from c |
| CrawlExamples.OrderDecidesVisited | starter/webcrawler/src/main/java/com/udacity/webcrawler/ParallelWebCrawler.java:86-110 | The same starting URLs in the other order ([c, a]) visit {a, b, c, d}: the visited set depends on the order sibling tasks run in |
| WebCrawler.Clock.Instant | starter/webcrawler/src/main/java/com/udacity/webcrawler/ParallelWebCrawler.java:59-76 | A reading shows the next instant of the clock's sequence and advances it by one |
| WebCrawler.CrawlRun.constructor | starter/webcrawler/src/main/java/com/udacity/webcrawler/ParallelWebCrawler.java:59-62 | A crawl run starts with its deadline, the crawler's patterns and parser, an empty visited set and an empty tally |
| WebCrawler.CrawlRun.MatchesIgnored | starter/webcrawler/src/main/java/com/udacity/webcrawler/ParallelWebCrawler.java:80-84 | The loop over the patterns reports true exactly when some pattern fully matches the URL |
| WebCrawler.CrawlRun.AddVisited | starter/webcrawler/src/main/java/com/udacity/webcrawler/ParallelWebCrawler.java:86 | Insert-if-absent: true exactly when the URL was not yet visited; afterwards it is |
| WebCrawler.CrawlRun.MergePage | starter/webcrawler/src/main/java/com/udacity/webcrawler/ParallelWebCrawler.java:93-95 | The loop over the page's entries, in any order, leaves the tally equal to MergeCounts of the old tally and the page |
| WebCrawler.CrawlRun.Compute | starter/webcrawler/src/main/java/com/udacity/webcrawler/ParallelWebCrawler.java:74-101 | A task leaves the shared state equal to Task of the state it started from |
| WebCrawler.CrawlRun.InvokeAll | starter/webcrawler/src/main/java/com/udacity/webcrawler/ParallelWebCrawler.java:97-100 | Running one task per URL leaves the shared state equal to Tasks of the starting state |
| WebCrawler.PoolParallelism | starter/webcrawler/src/main/java/com/udacity/webcrawler/ParallelWebCrawler.java:54 | The pool size is min(threadCount, maxParallelism): it exceeds neither and equals one of them. The pool accepts it exactly when both are positive and the minimum is at most 0x7fff; otherwise the pool throws IllegalArgumentException |
| WebCrawler.ParallelWebCrawler.constructor | starter/webcrawler/src/main/java/com/udacity/webcrawler/ParallelWebCrawler.java:41-55 | Stores the configuration; the pool size is PoolParallelism's and exceeds neither the requested thread count nor the processor count |
| WebCrawler.ParallelWebCrawler.Crawl | starter/webcrawler/src/main/java/com/udacity/webcrawler/ParallelWebCrawler.java:57-127 | The deadline is the first clock reading plus the timeout; the result is Assemble (the urlsVisited and empty-tally rules) of the final shared state, which equals Crawled from the starting URLs at maxDepth, and the clock has been read once per task that got past depth 0, plus once |

## Left out

- Concurrency: the fork-join pool, `RecursiveAction` and `invokeAll` scheduling are not modelled. Sibling tasks run one after another, each to completion. Any depth-first order of siblings is covered by permuting the parser's link lists and the starting URLs. Schedules that interleave the steps of concurrent tasks are not modelled, and can give other visited sets, as other orders do (see `OrderDecidesVisited`).
- Page fetching and HTML parsing are left out: `PageParserFactory` and `PageParser` are not part of this model. A page is a given total function from URL to word counts and links. A failed fetch is not modelled.
- Regular-expression matching is an abstract full-match predicate `fullyMatches(pattern, url)`.
- `Clock`, `Instant` and `Duration` become integers. The clock is a fixed sequence of instants indexed by how many readings the crawler has taken. Overflow of `Instant.plus` is not modelled.
- `WordCounts.sort` is not part of this model. Ranking is a parameter `sortWordCounts(tally, popularWordCount)`, so the order and truncation of the ranked tally are not stated.
- The `CrawlResult` builder and the map types (`ConcurrentHashMap`, `LinkedHashMap`) are not modelled. The result is a value holding the tally and the visited count.
- CrawlSpec.MergeCounts: counts are unbounded naturals. The 32-bit wrap-around of `Integer::sum` on a word counted more than 2^31 - 1 times is not modelled.
- WebCrawler.ParallelWebCrawler.constructor: the constructor requires a pool size the pool accepts. The IllegalArgumentException case is modelled only by `PoolParallelism`'s `IllegalArgument` result. The limit 0x7fff is the fork-join pool's own, not the crawler's.
- `maxDepth` is a natural number. With a negative `maxDepth` the Java depth test `depth == 0` never fires, and the crawl is bounded only by the deadline and the visited set; that case is not modelled.
- `getMaxParallelism` asks the runtime for the processor count; here that count is the `maxParallelism` parameter.
- Guice injection (`@Inject`, the parser-factory provider) is not modelled.
- The profiler (`ProfilerImpl.java`, `ProfilingMethodInterceptor.java`) and `ConfigurationLoader.java` are not part of this model. They are reflection, file I/O and JSON wrappers around the crawler, not the crawl.
