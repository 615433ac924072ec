/**
 What a crawl guarantees, proved about the pure model in CrawlSpec:
 - the tally always equals the sum of the visited pages' counts, each page
   counted once, whatever order the pages were merged in;
 - the tally only grows: no word disappears and no count goes down;
 - every visited URL is reachable from a starting URL in fewer than maxDepth
   link hops, and none of them is ignored;
 - a crawl at depth 0, or one whose deadline has passed, visits nothing;
 - a crawl at depth 1 visits exactly the starting URLs that are not ignored.
 */
module CrawlProperties {
  import opened CrawlSpec

  /** Merging two pages into a tally gives the same tally in either order:
      concurrent merges from sibling branches cannot disagree. */
  lemma MergeCommutes(t: map<Word, nat>, p: map<Word, nat>, q: map<Word, nat>)
    ensures MergeCounts(MergeCounts(t, p), q) == MergeCounts(MergeCounts(t, q), p)
  {
    var a := MergeCounts(MergeCounts(t, p), q);
    var b := MergeCounts(MergeCounts(t, q), p);
    forall w | w in a.Keys
      ensures a[w] == b[w]
    {
      assert a[w] == Count(t, w) + Count(p, w) + Count(q, w);
    }
  }

  /** The reference tally does not depend on which page is added last. */
  lemma {:induction false} TallyAdd(parse: Url -> Page, urls: set<Url>, u: Url)
    requires u in urls
    ensures Tally(parse, urls) == MergeCounts(Tally(parse, urls - {u}), parse(u).wordCounts)
    decreases urls
  {
    var x := Pick(urls);
    if x != u {
      var rest := urls - {x} - {u};
      assert urls - {x} - {u} == urls - {u} - {x};
      TallyAdd(parse, urls - {x}, u);
      TallyAdd(parse, urls - {u}, x);
      MergeCommutes(Tally(parse, rest), parse(u).wordCounts, parse(x).wordCounts);
    }
  }

  /** A task keeps the tally equal to the reference tally of the visited pages. */
  lemma {:induction false} TaskKeepsTally(c: Config, s: CrawlState, url: Url, depth: nat)
    requires s.wordCounts == Tally(c.parse, s.visited)
    ensures Task(c, s, url, depth).wordCounts == Tally(c.parse, Task(c, s, url, depth).visited)
    decreases depth, 0
  {
    if depth > 0 && !(PastDeadline(c, s.clockReads) || Ignored(c, url) || url in s.visited) {
      var page := c.parse(url);
      var s2 := CrawlState(s.visited + {url}, MergeCounts(s.wordCounts, page.wordCounts), s.clockReads + 1);
      assert s.visited + {url} - {url} == s.visited;
      TallyAdd(c.parse, s.visited + {url}, url);
      TasksKeepTally(c, s2, page.links, depth - 1);
    }
  }

  /** Sibling tasks keep the tally equal to the reference tally of the visited pages. */
  lemma {:induction false} TasksKeepTally(c: Config, s: CrawlState, urls: seq<Url>, depth: nat)
    requires s.wordCounts == Tally(c.parse, s.visited)
    ensures Tasks(c, s, urls, depth).wordCounts == Tally(c.parse, Tasks(c, s, urls, depth).visited)
    decreases depth, |urls|
  {
    if urls != [] {
      TasksKeepTally(c, s, urls[..|urls| - 1], depth);
      TaskKeepsTally(c, Tasks(c, s, urls[..|urls| - 1], depth), urls[|urls| - 1], depth);
    }
  }

  /** A task never removes a word from the tally nor lowers its count. */
  lemma {:induction false} TaskGrowsTally(c: Config, s: CrawlState, url: Url, depth: nat, w: Word)
    requires w in s.wordCounts
    ensures w in Task(c, s, url, depth).wordCounts
    ensures Task(c, s, url, depth).wordCounts[w] >= s.wordCounts[w]
    decreases depth, 0
  {
    if depth > 0 && !(PastDeadline(c, s.clockReads) || Ignored(c, url) || url in s.visited) {
      var page := c.parse(url);
      var s2 := CrawlState(s.visited + {url}, MergeCounts(s.wordCounts, page.wordCounts), s.clockReads + 1);
      TasksGrowTally(c, s2, page.links, depth - 1, w);
    }
  }

  /** Sibling tasks never remove a word from the tally nor lower its count. */
  lemma {:induction false} TasksGrowTally(c: Config, s: CrawlState, urls: seq<Url>, depth: nat, w: Word)
    requires w in s.wordCounts
    ensures w in Tasks(c, s, urls, depth).wordCounts
    ensures Tasks(c, s, urls, depth).wordCounts[w] >= s.wordCounts[w]
    decreases depth, |urls|
  {
    if urls != [] {
      TasksGrowTally(c, s, urls[..|urls| - 1], depth, w);
      TaskGrowsTally(c, Tasks(c, s, urls[..|urls| - 1], depth), urls[|urls| - 1], depth, w);
    }
  }

  /** Every URL a task adds to the visited set is reachable from the task's URL
      in fewer than `depth` hops, and no ignore pattern matches it. */
  lemma {:induction false} TaskReaches(c: Config, s: CrawlState, url: Url, depth: nat, v: Url)
    requires v in Task(c, s, url, depth).visited && v !in s.visited
    ensures ReachableWithin(c.parse, url, v, depth) && !Ignored(c, v)
    decreases depth, 0
  {
    if v != url {
      var page := c.parse(url);
      var s2 := CrawlState(s.visited + {url}, MergeCounts(s.wordCounts, page.wordCounts), s.clockReads + 1);
      TasksReach(c, s2, page.links, depth - 1, v);
      var i :| 0 <= i < |page.links| && ReachableWithin(c.parse, page.links[i], v, depth - 1);
    }
  }

  /** Every URL sibling tasks add to the visited set is reachable from one of
      their URLs in fewer than `depth` hops, and no ignore pattern matches it. */
  lemma {:induction false} TasksReach(c: Config, s: CrawlState, urls: seq<Url>, depth: nat, v: Url)
    requires v in Tasks(c, s, urls, depth).visited && v !in s.visited
    ensures exists i :: 0 <= i < |urls| && ReachableWithin(c.parse, urls[i], v, depth)
    ensures !Ignored(c, v)
    decreases depth, |urls|
  {
    var init := urls[..|urls| - 1];
    var mid := Tasks(c, s, init, depth);
    if v in mid.visited {
      TasksReach(c, s, init, depth, v);
      var i :| 0 <= i < |init| && ReachableWithin(c.parse, init[i], v, depth);
      assert urls[i] == init[i];
    } else {
      TaskReaches(c, mid, urls[|urls| - 1], depth, v);
    }
  }

  /** Once every clock reading from now on is past the deadline, sibling tasks
      change neither the visited set nor the tally. */
  lemma {:induction false} TasksAfterDeadline(c: Config, s: CrawlState, urls: seq<Url>, depth: nat)
    requires forall k: nat :: k >= s.clockReads ==> PastDeadline(c, k)
    ensures Tasks(c, s, urls, depth).visited == s.visited
    ensures Tasks(c, s, urls, depth).wordCounts == s.wordCounts
    decreases |urls|
  {
    if urls != [] {
      TasksAfterDeadline(c, s, urls[..|urls| - 1], depth);
    }
  }

  /** With the deadline never reached, sibling tasks at depth 1 add exactly
      their URLs that no pattern ignores, and fetch no links. */
  lemma {:induction false} TasksAtDepthOne(c: Config, s: CrawlState, urls: seq<Url>)
    requires forall k: nat :: k >= s.clockReads ==> !PastDeadline(c, k)
    ensures Tasks(c, s, urls, 1).visited == s.visited + (set u | u in urls && !Ignored(c, u))
    decreases |urls|
  {
    if urls != [] {
      var init := urls[..|urls| - 1];
      var last := urls[|urls| - 1];
      TasksAtDepthOne(c, s, init);
      assert urls == init + [last];
      assert (set u | u in urls && !Ignored(c, u))
          == (set u | u in init && !Ignored(c, u)) + (if Ignored(c, last) then {} else {last});
    }
  }

  /** The tally a crawl ends with is the sum of the counts of the pages it
      visited, each page added exactly once. */
  lemma CrawlTallyIsSumOfVisitedPages(c: Config, startingUrls: seq<Url>, maxDepth: nat, clockReads: nat)
    ensures Crawled(c, startingUrls, maxDepth, clockReads).wordCounts
         == Tally(c.parse, Crawled(c, startingUrls, maxDepth, clockReads).visited)
  {
    TasksKeepTally(c, CrawlState({}, map[], clockReads), startingUrls, maxDepth);
  }

  /** Every URL a crawl visits is not ignored and is reachable from some
      starting URL in fewer than maxDepth link hops. */
  lemma CrawlVisitsOnlyReachable(c: Config, startingUrls: seq<Url>, maxDepth: nat, clockReads: nat, v: Url)
    requires v in Crawled(c, startingUrls, maxDepth, clockReads).visited
    ensures !Ignored(c, v)
    ensures exists i :: 0 <= i < |startingUrls| && ReachableWithin(c.parse, startingUrls[i], v, maxDepth)
  {
    TasksReach(c, CrawlState({}, map[], clockReads), startingUrls, maxDepth, v);
  }

  /** A crawl with maxDepth 0 reports no visited URL and an empty tally. */
  lemma CrawlAtDepthZeroIsEmpty(c: Config, startingUrls: seq<Url>, clockReads: nat, popularWordCount: int,
                                sortWordCounts: (map<Word, nat>, int) -> map<Word, nat>)
    ensures Assemble(Crawled(c, startingUrls, 0, clockReads), popularWordCount, sortWordCounts)
         == CrawlResult(map[], 0)
  {
  }

  /** A crawl whose every task starts after the deadline reports no visited URL
      and an empty tally. */
  lemma CrawlAfterDeadlineIsEmpty(c: Config, startingUrls: seq<Url>, maxDepth: nat, clockReads: nat,
                                  popularWordCount: int, sortWordCounts: (map<Word, nat>, int) -> map<Word, nat>)
    requires forall k: nat :: k >= clockReads ==> PastDeadline(c, k)
    ensures Assemble(Crawled(c, startingUrls, maxDepth, clockReads), popularWordCount, sortWordCounts)
         == CrawlResult(map[], 0)
  {
    TasksAfterDeadline(c, CrawlState({}, map[], clockReads), startingUrls, maxDepth);
  }

  /** A crawl with maxDepth 1 that never reaches its deadline visits exactly
      the starting URLs that no pattern ignores, each once. */
  lemma CrawlAtDepthOne(c: Config, startingUrls: seq<Url>, clockReads: nat)
    requires forall k: nat :: k >= clockReads ==> !PastDeadline(c, k)
    ensures Crawled(c, startingUrls, 1, clockReads).visited == set u | u in startingUrls && !Ignored(c, u)
  {
    TasksAtDepthOne(c, CrawlState({}, map[], clockReads), startingUrls);
  }
}
