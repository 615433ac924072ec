/**
 The crawler itself, in the source's imperative form: a clock the crawler
 reads, the state one crawl shares between its tasks (a visited set and a word
 tally that every task updates in place), the recursive crawl task, and the
 crawler object that sizes its worker pool and runs a crawl. Every method is
 proved against the pure model in CrawlSpec.
 */
module WebCrawler {
  import opened CrawlSpec

  /** The clock as the crawler sees it: its k-th reading shows instants(k). */
  class Clock {
    const instants: nat -> int
    var readings: nat

    constructor (instants: nat -> int)
      ensures this.instants == instants && readings == 0
    {
      this.instants := instants;
      readings := 0;
    }

    /** Reads the current instant. */
    method Instant() returns (t: int)
      modifies this
      ensures readings == old(readings) + 1
      ensures t == instants(old(readings))
    {
      t := instants(readings);
      readings := readings + 1;
    }
  }

  /** The state one crawl shares between all its tasks, with the task itself. */
  class CrawlRun {
    const clock: Clock
    const deadline: int
    const ignoredUrls: seq<Pattern>
    const fullyMatches: (Pattern, Url) -> bool
    const parse: Url -> Page
    var visitedUrls: set<Url>
    var wordCounts: map<Word, nat>

    /** What the tasks read and never change. */
    function Cfg(): Config
    {
      Config(ignoredUrls, fullyMatches, parse, clock.instants, deadline)
    }

    /** The shared state, with the number of clock readings taken so far. */
    function State(): CrawlState
      reads this, clock
    {
      CrawlState(visitedUrls, wordCounts, clock.readings)
    }

    constructor (clock: Clock, deadline: int, ignoredUrls: seq<Pattern>,
                 fullyMatches: (Pattern, Url) -> bool, parse: Url -> Page)
      ensures this.clock == clock && this.deadline == deadline
      ensures this.ignoredUrls == ignoredUrls && this.fullyMatches == fullyMatches && this.parse == parse
      ensures visitedUrls == {} && wordCounts == map[]
      ensures Cfg() == Config(ignoredUrls, fullyMatches, parse, clock.instants, deadline)
    {
      this.clock := clock;
      this.deadline := deadline;
      this.ignoredUrls := ignoredUrls;
      this.fullyMatches := fullyMatches;
      this.parse := parse;
      visitedUrls := {};
      wordCounts := map[];
    }

    /** Tries the ignore patterns in order and reports whether one fully matches the URL. */
    method MatchesIgnored(url: Url) returns (ignored: bool)
      ensures ignored <==> Ignored(Cfg(), url)
    {
      var i := 0;
      while i < |ignoredUrls|
        invariant 0 <= i <= |ignoredUrls|
        invariant forall j :: 0 <= j < i ==> !fullyMatches(ignoredUrls[j], url)
      {
        if fullyMatches(ignoredUrls[i], url) {
          return true;
        }
        i := i + 1;
      }
      return false;
    }

    /** Insert-if-absent on the visited set: true when the URL was not there. */
    method AddVisited(url: Url) returns (added: bool)
      modifies this`visitedUrls
      ensures added <==> url !in old(visitedUrls)
      ensures visitedUrls == old(visitedUrls) + {url}
    {
      added := url !in visitedUrls;
      visitedUrls := visitedUrls + {url};
    }

    /** Adds a page's counts into the tally, one word at a time, in no fixed order. */
    method MergePage(counts: map<Word, nat>)
      modifies this`wordCounts
      ensures wordCounts == MergeCounts(old(wordCounts), counts)
    {
      var pending := counts.Keys;
      ghost var merged: map<Word, nat> := map[];
      while pending != {}
        invariant pending <= counts.Keys
        invariant merged.Keys == counts.Keys - pending
        invariant forall w :: w in merged ==> merged[w] == counts[w]
        invariant wordCounts == MergeCounts(old(wordCounts), merged)
        decreases pending
      {
        var w :| w in pending;
        MergeOneMore(old(wordCounts), merged, w, counts[w]);
        wordCounts := wordCounts[w := Count(wordCounts, w) + counts[w]];
        merged := merged[w := counts[w]];
        pending := pending - {w};
      }
      assert merged == counts;
    }

    /** The crawl task on `url` with `depth` levels left: the source's
        CrawlTask(url, depth).compute(). */
    method Compute(url: Url, depth: nat)
      modifies this, clock
      ensures State() == Task(Cfg(), old(State()), url, depth)
      decreases depth, 0
    {
      ghost var c := Cfg();
      ghost var s0 := State();
      if depth == 0 {
        return;
      }
      var now := clock.Instant();
      ghost var s1 := s0.(clockReads := s0.clockReads + 1);
      assert State() == s1;
      if now > deadline {
        assert Task(c, s0, url, depth) == s1;
        return;
      }
      var ignored := MatchesIgnored(url);
      if ignored {
        assert Task(c, s0, url, depth) == s1;
        return;
      }
      var added := AddVisited(url);
      if !added {
        assert Task(c, s0, url, depth) == s1;
        return;
      }
      var page := parse(url);
      MergePage(page.wordCounts);
      TaskFetches(c, s0, url, depth, State());
      InvokeAll(page.links, depth - 1);
    }

    /** One task per URL, all at `depth`, each finishing before the next starts:
        the source's invokeAll over a list of crawl tasks. */
    method InvokeAll(urls: seq<Url>, depth: nat)
      modifies this, clock
      ensures State() == Tasks(Cfg(), old(State()), urls, depth)
      decreases depth, 1
    {
      ghost var s0 := State();
      var i := 0;
      while i < |urls|
        invariant 0 <= i <= |urls|
        invariant State() == Tasks(Cfg(), s0, urls[..i], depth)
      {
        Compute(urls[i], depth);
        TasksSnoc(Cfg(), s0, urls[..i], urls[i], depth);
        assert urls[..i + 1] == urls[..i] + [urls[i]];
        i := i + 1;
      }
      assert urls[..i] == urls;
    }
  }

  /** A task that passes every check fetches the page, marks the URL visited,
      merges the page's counts and runs its links one level down. */
  lemma TaskFetches(c: Config, s: CrawlState, url: Url, depth: nat, s2: CrawlState)
    requires depth > 0 && !PastDeadline(c, s.clockReads) && !Ignored(c, url) && url !in s.visited
    requires s2 == CrawlState(s.visited + {url}, MergeCounts(s.wordCounts, c.parse(url).wordCounts), s.clockReads + 1)
    ensures Task(c, s, url, depth) == Tasks(c, s2, c.parse(url).links, depth - 1)
  {
  }

  /** Merging one more word of a page into the tally updates that word alone. */
  lemma MergeOneMore(t: map<Word, nat>, merged: map<Word, nat>, w: Word, n: nat)
    requires w !in merged
    ensures MergeCounts(t, merged[w := n])
         == MergeCounts(t, merged)[w := Count(MergeCounts(t, merged), w) + n]
  {
    var a := MergeCounts(t, merged[w := n]);
    var b := MergeCounts(t, merged)[w := Count(MergeCounts(t, merged), w) + n];
    assert a.Keys == b.Keys;
    forall x | x in a.Keys
      ensures a[x] == b[x]
    {
    }
  }

  /** The largest parallelism the fork-join pool accepts. */
  const MaxPoolParallelism: int := 0x7fff

  /** The worker-pool size, or the IllegalArgumentException the pool throws. */
  datatype PoolSize = Parallelism(n: nat) | IllegalArgument

  /** The pool is sized min(threadCount, maxParallelism); the pool refuses a
      size of 0 or less and one above its limit. */
  function PoolParallelism(threadCount: int, maxParallelism: int): (r: PoolSize)
    ensures r.Parallelism? <==>
              (threadCount > 0 && maxParallelism > 0 &&
               (threadCount <= MaxPoolParallelism || maxParallelism <= MaxPoolParallelism))
    ensures r.Parallelism? ==> r.n <= threadCount && r.n <= maxParallelism
    ensures r.Parallelism? ==> r.n == threadCount || r.n == maxParallelism
  {
    var p := if threadCount <= maxParallelism then threadCount else maxParallelism;
    if p <= 0 || p > MaxPoolParallelism then IllegalArgument else Parallelism(p)
  }

  /** The crawler: its configuration, fixed at construction, and its pool size. */
  class ParallelWebCrawler {
    const clock: Clock
    const timeout: int
    const popularWordCount: int
    const maxDepth: nat
    const ignoredUrls: seq<Pattern>
    const fullyMatches: (Pattern, Url) -> bool
    const parse: Url -> Page
    const sortWordCounts: (map<Word, nat>, int) -> map<Word, nat>
    const parallelism: nat

    /** Only a pool size the pool accepts yields a crawler; see PoolParallelism
        for the other case. */
    constructor (clock: Clock, timeout: int, popularWordCount: int, maxDepth: nat,
                 ignoredUrls: seq<Pattern>, fullyMatches: (Pattern, Url) -> bool,
                 parse: Url -> Page, sortWordCounts: (map<Word, nat>, int) -> map<Word, nat>,
                 threadCount: int, maxParallelism: int)
      requires PoolParallelism(threadCount, maxParallelism).Parallelism?
      ensures this.clock == clock && this.timeout == timeout && this.popularWordCount == popularWordCount
      ensures this.maxDepth == maxDepth && this.ignoredUrls == ignoredUrls
      ensures this.fullyMatches == fullyMatches && this.parse == parse && this.sortWordCounts == sortWordCounts
      ensures parallelism == PoolParallelism(threadCount, maxParallelism).n
      ensures parallelism <= threadCount && parallelism <= maxParallelism
    {
      this.clock := clock;
      this.timeout := timeout;
      this.popularWordCount := popularWordCount;
      this.maxDepth := maxDepth;
      this.ignoredUrls := ignoredUrls;
      this.fullyMatches := fullyMatches;
      this.parse := parse;
      this.sortWordCounts := sortWordCounts;
      parallelism := PoolParallelism(threadCount, maxParallelism).n;
    }

    /** Crawls from the starting URLs: the deadline is the first clock reading
        plus the timeout, one task per starting URL runs at maxDepth, and the
        result is assembled from the final visited set and tally. */
    method Crawl(startingUrls: seq<Url>) returns (result: CrawlResult)
      modifies clock
      ensures var c := Config(ignoredUrls, fullyMatches, parse, clock.instants,
                              clock.instants(old(clock.readings)) + timeout);
              var s := Crawled(c, startingUrls, maxDepth, old(clock.readings) + 1);
              result == Assemble(s, popularWordCount, sortWordCounts) && clock.readings == s.clockReads
    {
      var now := clock.Instant();
      var run := new CrawlRun(clock, now + timeout, ignoredUrls, fullyMatches, parse);
      run.InvokeAll(startingUrls, maxDepth);
      result := Assemble(run.State(), popularWordCount, sortWordCounts);
    }
  }
}
