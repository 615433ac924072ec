/**
 Crawls of one small link graph, worked out in the model:
   a -> b, c      b -> d      c -> d      d -> (none)
 with no ignore pattern and a clock that never passes the deadline.
 */
module CrawlExamples {
  import opened CrawlSpec

  /** Every page of the graph holds one word: "x" once on a, "y" once on b,
      "y" twice on c and "x" five times on d. */
  function DiamondWord(u: Url): Word
  {
    if u == "a" || u == "d" then "x" else "y"
  }

  function DiamondCount(u: Url): nat
  {
    if u == "a" then 1 else if u == "b" then 1 else if u == "c" then 2 else 5
  }

  function DiamondLinks(u: Url): seq<Url>
  {
    if u == "a" then ["b", "c"] else if u == "b" || u == "c" then ["d"] else []
  }

  function DiamondPage(u: Url): Page
  {
    Page(map[DiamondWord(u) := DiamondCount(u)], DiamondLinks(u))
  }

  function Diamond(): Config
  {
    Config([], (p: Pattern, u: Url) => false, DiamondPage, (k: nat) => 0, 10)
  }

  /** Merging a one-word page updates that word alone. */
  lemma MergeOneWord(t: map<Word, nat>, w: Word, n: nat)
    ensures MergeCounts(t, map[w := n]) == t[w := Count(t, w) + n]
  {
    var r := MergeCounts(t, map[w := n]);
    assert r.Keys == t[w := Count(t, w) + n].Keys;
  }

  /** No diamond page is ignored and no clock reading is past the deadline. */
  lemma DiamondNeverPruned(u: Url, k: nat)
    ensures !Ignored(Diamond(), u) && !PastDeadline(Diamond(), k)
  {
  }

  /** A single task that fetches page u from state s, continuing in state s'. */
  lemma DiamondFetch(s: CrawlState, u: Url, depth: nat, s': CrawlState)
    requires depth > 0 && u !in s.visited
    requires s' == CrawlState(s.visited + {u},
                              s.wordCounts[DiamondWord(u) := Count(s.wordCounts, DiamondWord(u)) + DiamondCount(u)],
                              s.clockReads + 1)
    ensures Task(Diamond(), s, u, depth) == Tasks(Diamond(), s', DiamondLinks(u), depth - 1)
  {
    DiamondNeverPruned(u, s.clockReads);
    MergeOneWord(s.wordCounts, DiamondWord(u), DiamondCount(u));
  }

  /** Two sibling tasks run first then second. */
  lemma TwoTasks(g: Config, s: CrawlState, u: Url, v: Url, depth: nat)
    ensures Tasks(g, s, [u, v], depth) == Task(g, Task(g, s, u, depth), v, depth)
  {
    assert [u, v][..1] == [u];
    OneTask(g, s, u, depth);
  }

  /** One task alone. */
  lemma OneTask(g: Config, s: CrawlState, u: Url, depth: nat)
    ensures Tasks(g, s, [u], depth) == Task(g, s, u, depth)
  {
    assert [u][..0] == [];
  }

  // The walks below take the URLs and the intermediate states as parameters:
  // stated on literals, Task and Tasks would be unfolded without bound.

  /** b and c at depth 1 are fetched; their links are left with depth 0. */
  lemma LeavesAtDepthOne(g: Config, b: Url, c: Url, s1: CrawlState, s2: CrawlState, s3: CrawlState)
    requires g == Diamond() && b == "b" && c == "c"
    requires s1 == CrawlState({"a"}, map["x" := 1], 2)
    requires s2 == CrawlState({"a", "b"}, map["x" := 1, "y" := 1], 3)
    requires s3 == CrawlState({"a", "b", "c"}, map["x" := 1, "y" := 3], 4)
    ensures Tasks(g, s1, [b, c], 1) == s3
  {
    DiamondPages();
    assert (map["x" := 1])["y" := Count(map["x" := 1], "y") + 1] == map["x" := 1, "y" := 1];
    assert (map["x" := 1, "y" := 1])["y" := Count(map["x" := 1, "y" := 1], "y") + 2] == map["x" := 1, "y" := 3];
    DiamondFetch(s1, b, 1, s2);
    DiamondFetch(s2, c, 1, s3);
    TwoTasks(g, s1, b, c, 1);
  }

  /** The task for a at depth 2 fetches a, then b and c at depth 1; their link
      to d is left with depth 0. */
  lemma WalkAtDepthTwo(g: Config, a: Url, b: Url, c: Url, s0: CrawlState, s1: CrawlState, s2: CrawlState, s3: CrawlState)
    requires g == Diamond() && a == "a" && b == "b" && c == "c"
    requires s0 == CrawlState({}, map[], 1)
    requires s1 == CrawlState({"a"}, map["x" := 1], 2)
    requires s2 == CrawlState({"a", "b"}, map["x" := 1, "y" := 1], 3)
    requires s3 == CrawlState({"a", "b", "c"}, map["x" := 1, "y" := 3], 4)
    ensures Task(g, s0, a, 2) == s3
  {
    DiamondPages();
    assert (map[])["x" := Count(map[], "x") + 1] == map["x" := 1];
    DiamondFetch(s0, a, 2, s1);
    LeavesAtDepthOne(g, b, c, s1, s2, s3);
  }

  /** At depth 2, b is fetched and then d through it. */
  lemma WalkThroughB(g: Config, b: Url, d: Url, s1: CrawlState, s2: CrawlState, s3: CrawlState)
    requires g == Diamond() && b == "b" && d == "d"
    requires s1 == CrawlState({"a"}, map["x" := 1], 2)
    requires s2 == CrawlState({"a", "b"}, map["x" := 1, "y" := 1], 3)
    requires s3 == CrawlState({"a", "b", "d"}, map["x" := 6, "y" := 1], 4)
    ensures Task(g, s1, b, 2) == s3
  {
    DiamondPages();
    assert (map["x" := 1])["y" := Count(map["x" := 1], "y") + 1] == map["x" := 1, "y" := 1];
    assert (map["x" := 1, "y" := 1])["x" := Count(map["x" := 1, "y" := 1], "x") + 5] == map["x" := 6, "y" := 1];
    DiamondFetch(s1, b, 2, s2);
    DiamondFetch(s2, d, 1, s3);
    OneTask(g, s2, d, 1);
  }

  /** At depth 2, c is fetched; its link to d is pruned as already visited. */
  lemma WalkThroughC(g: Config, c: Url, d: Url, s3: CrawlState, s4: CrawlState)
    requires g == Diamond() && c == "c" && d == "d"
    requires s3 == CrawlState({"a", "b", "d"}, map["x" := 6, "y" := 1], 4)
    requires s4 == CrawlState({"a", "b", "c", "d"}, map["x" := 6, "y" := 3], 5)
    ensures Task(g, s3, c, 2) == s4.(clockReads := 6)
  {
    DiamondPages();
    assert (map["x" := 6, "y" := 1])["y" := Count(map["x" := 6, "y" := 1], "y") + 2] == map["x" := 6, "y" := 3];
    DiamondFetch(s3, c, 2, s4);
    OneTask(g, s4, d, 1);
  }

  /** The task for a at depth 3 fetches a, b, d (through b) and c, and d only once. */
  lemma WalkAtDepthThree(g: Config, a: Url, b: Url, c: Url, d: Url,
                         s0: CrawlState, s1: CrawlState, s2: CrawlState, s3: CrawlState, s4: CrawlState)
    requires g == Diamond() && a == "a" && b == "b" && c == "c" && d == "d"
    requires s0 == CrawlState({}, map[], 1)
    requires s1 == CrawlState({"a"}, map["x" := 1], 2)
    requires s2 == CrawlState({"a", "b"}, map["x" := 1, "y" := 1], 3)
    requires s3 == CrawlState({"a", "b", "d"}, map["x" := 6, "y" := 1], 4)
    requires s4 == CrawlState({"a", "b", "c", "d"}, map["x" := 6, "y" := 3], 5)
    ensures Task(g, s0, a, 3) == s4.(clockReads := 6)
  {
    DiamondPages();
    assert (map[])["x" := Count(map[], "x") + 1] == map["x" := 1];
    DiamondFetch(s0, a, 3, s1);
    TwoTasks(g, s1, b, c, 2);
    WalkThroughB(g, b, d, s1, s2, s3);
    WalkThroughC(g, c, d, s3, s4);
  }

  /** maxDepth 2 reaches one hop from "a": d, two hops away, gets depth 0 and is
      not fetched. */
  lemma DiamondAtDepthTwo()
    ensures Crawled(Diamond(), ["a"], 2, 1).visited == {"a", "b", "c"}
    ensures Crawled(Diamond(), ["a"], 2, 1).wordCounts == map["x" := 1, "y" := 3]
  {
    var s0 := CrawlState({}, map[], 1);
    OneTask(Diamond(), s0, "a", 2);
    WalkAtDepthTwo(Diamond(), "a", "b", "c", s0, CrawlState({"a"}, map["x" := 1], 2),
                   CrawlState({"a", "b"}, map["x" := 1, "y" := 1], 3),
                   CrawlState({"a", "b", "c"}, map["x" := 1, "y" := 3], 4));
  }

  /** maxDepth 3 fetches d too, once, although two visited pages link to it. */
  lemma DiamondAtDepthThree()
    ensures Crawled(Diamond(), ["a"], 3, 1).visited == {"a", "b", "c", "d"}
    ensures Crawled(Diamond(), ["a"], 3, 1).wordCounts == map["x" := 6, "y" := 3]
  {
    var s0 := CrawlState({}, map[], 1);
    OneTask(Diamond(), s0, "a", 3);
    WalkAtDepthThree(Diamond(), "a", "b", "c", "d", s0, CrawlState({"a"}, map["x" := 1], 2),
                     CrawlState({"a", "b"}, map["x" := 1, "y" := 1], 3),
                     CrawlState({"a", "b", "d"}, map["x" := 6, "y" := 1], 4),
                     CrawlState({"a", "b", "c", "d"}, map["x" := 6, "y" := 3], 5));
  }

  /** The visited set records URLs, not the depth they were reached at: started
      from ["a", "c"] at maxDepth 2, c is first reached from a with one level
      left, so the later top-level task for c is pruned and d, one hop from a
      starting URL, is never fetched. */
  lemma DedupIgnoresDepth()
    ensures Crawled(Diamond(), ["a", "c"], 2, 1).visited == {"a", "b", "c"}
    ensures ReachableWithin(DiamondPage, "c", "d", 2)
  {
    var s0 := CrawlState({}, map[], 1);
    var s3 := CrawlState({"a", "b", "c"}, map["x" := 1, "y" := 3], 4);
    TwoTasks(Diamond(), s0, "a", "c", 2);
    WalkAtDepthTwo(Diamond(), "a", "b", "c", s0, CrawlState({"a"}, map["x" := 1], 2),
                   CrawlState({"a", "b"}, map["x" := 1, "y" := 1], 3), s3);
    assert Task(Diamond(), s3, "c", 2) == s3.(clockReads := 5);
    assert DiamondPage("c").links[0] == "d";
    assert ReachableWithin(DiamondPage, "d", "d", 1);
  }

  /** Started from c at depth 2: c is fetched, then d through it. */
  lemma WalkFromC(g: Config, c: Url, d: Url, s0: CrawlState, s1: CrawlState, s2: CrawlState)
    requires g == Diamond() && c == "c" && d == "d"
    requires s0 == CrawlState({}, map[], 1)
    requires s1 == CrawlState({"c"}, map["y" := 2], 2)
    requires s2 == CrawlState({"c", "d"}, map["x" := 5, "y" := 2], 3)
    ensures Task(g, s0, c, 2) == s2
  {
    DiamondPages();
    assert (map[])["y" := Count(map[], "y") + 2] == map["y" := 2];
    assert (map["y" := 2])["x" := Count(map["y" := 2], "x") + 5] == map["x" := 5, "y" := 2];
    DiamondFetch(s0, c, 2, s1);
    DiamondFetch(s1, d, 1, s2);
    OneTask(g, s1, d, 1);
  }

  /** After c and d, b at depth 1 is fetched and c is pruned as already visited. */
  lemma LeavesAfterC(g: Config, b: Url, c: Url, s3: CrawlState, s4: CrawlState)
    requires g == Diamond() && b == "b" && c == "c"
    requires s3 == CrawlState({"a", "c", "d"}, map["x" := 6, "y" := 2], 4)
    requires s4 == CrawlState({"a", "b", "c", "d"}, map["x" := 6, "y" := 3], 5)
    ensures Tasks(g, s3, [b, c], 1) == s4.(clockReads := 6)
  {
    DiamondPages();
    assert (map["x" := 6, "y" := 2])["y" := Count(map["x" := 6, "y" := 2], "y") + 1] == map["x" := 6, "y" := 3];
    DiamondFetch(s3, b, 1, s4);
    TwoTasks(g, s3, b, c, 1);
  }

  /** Then a at depth 2: a is fetched, b at depth 1 too, and c is already visited. */
  lemma WalkFromAAfterC(g: Config, a: Url, b: Url, c: Url,
                        s2: CrawlState, s3: CrawlState, s4: CrawlState)
    requires g == Diamond() && a == "a" && b == "b" && c == "c"
    requires s2 == CrawlState({"c", "d"}, map["x" := 5, "y" := 2], 3)
    requires s3 == CrawlState({"a", "c", "d"}, map["x" := 6, "y" := 2], 4)
    requires s4 == CrawlState({"a", "b", "c", "d"}, map["x" := 6, "y" := 3], 5)
    ensures Task(g, s2, a, 2) == s4.(clockReads := 6)
  {
    DiamondPages();
    assert (map["x" := 5, "y" := 2])["x" := Count(map["x" := 5, "y" := 2], "x") + 1] == map["x" := 6, "y" := 2];
    DiamondFetch(s2, a, 2, s3);
    LeavesAfterC(g, b, c, s3, s4);
  }

  /** Run in the other order, the same starting URLs reach d: which pages a
      depth-bounded crawl visits depends on the order its tasks run in, so the
      fork-join pool, which fixes no order, may visit either set. */
  lemma OrderDecidesVisited()
    ensures Crawled(Diamond(), ["c", "a"], 2, 1).visited == {"a", "b", "c", "d"}
    ensures Crawled(Diamond(), ["a", "c"], 2, 1).visited == {"a", "b", "c"}
  {
    var s0 := CrawlState({}, map[], 1);
    var s2 := CrawlState({"c", "d"}, map["x" := 5, "y" := 2], 3);
    TwoTasks(Diamond(), s0, "c", "a", 2);
    WalkFromC(Diamond(), "c", "d", s0, CrawlState({"c"}, map["y" := 2], 2), s2);
    WalkFromAAfterC(Diamond(), "a", "b", "c", s2, CrawlState({"a", "c", "d"}, map["x" := 6, "y" := 2], 4),
                    CrawlState({"a", "b", "c", "d"}, map["x" := 6, "y" := 3], 5));
    DedupIgnoresDepth();
  }

  /** The word, count and links of each page of the graph. */
  lemma DiamondPages()
    ensures DiamondWord("a") == "x" && DiamondCount("a") == 1 && DiamondLinks("a") == ["b", "c"]
    ensures DiamondWord("b") == "y" && DiamondCount("b") == 1 && DiamondLinks("b") == ["d"]
    ensures DiamondWord("c") == "y" && DiamondCount("c") == 2 && DiamondLinks("c") == ["d"]
    ensures DiamondWord("d") == "x" && DiamondCount("d") == 5 && DiamondLinks("d") == []
  {
  }
}
