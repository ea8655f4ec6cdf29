/** Whole runs of the crawl on particular pages of `sophiabits.com`. */
module Revisits {
  import opened Strings
  import opened Url
  import opened Crawl
  import opened Traversal
  import opened Pages
  import opened Scenarios

  /** A step that queues the same string twice makes the next two
      iterations dequeue it twice. */
  lemma DequeuedTwice(cfg: Config, fetch: Fetcher, extract: Extractor, s: State, a: string)
    requires s.queue != [] && Step(cfg, fetch, extract, s).value.queue == [a, a]
    ensures Processed(cfg, fetch, extract, s, 3) == [s.queue[0], a, a]
  {
    ProcessedUnfold(cfg, fetch, extract, s, 3);
    FifoOrder(cfg, fetch, extract, Step(cfg, fetch, extract, s).value, 2);
  }

  /** The enqueue filter consults only the visited set: a home page listing
      the same path twice queues it twice, and the crawl then dequeues it,
      and fetches it, twice. */
  lemma SamePathDequeuedTwice(fetch: Fetcher, extract: Extractor)
    requires PageLinks(fetch, extract, Seed) == ["/a", "/a"]
    ensures Processed(Site, fetch, extract, Init(), 3) == [Seed, "/a", "/a"]
  {
    TwiceQueue(fetch, extract);
    DequeuedTwice(Site, fetch, extract, Init(), "/a");
  }
}
