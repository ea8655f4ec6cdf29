/** The whole traversal loop of src/main.rs `main`: run the loop body of
    module `Crawl` until the queue is empty.

    Whether the loop ends depends on the link graph behind `fetch`, so a
    run is bounded by an iteration budget `fuel`; every fact below holds for
    every budget.
 */
module Traversal {
  import opened Strings
  import opened Url
  import opened Crawl
  import opened Loop

  /** The crawl's loop body as a `Loop.Body`. */
  function CrawlBody(cfg: Config, fetch: Fetcher, extract: Extractor): Body
  {
    s => Step(cfg, fetch, extract, s)
  }

  /** What one dequeued string adds to the error log: its normalized form,
      if fetching that fails. */
  function FailureEntry(cfg: Config, fetch: Fetcher): string -> seq<string>
  {
    u => var n := Normalize(cfg, u); if fetch(n).None? then [n] else []
  }

  /** The crawl's body has the per-iteration behaviour the loop facts need. */
  lemma CrawlBodyShape(cfg: Config, fetch: Fetcher, extract: Extractor)
    ensures StopsOnEmpty(CrawlBody(cfg, fetch, extract))
    ensures MarksHead(CrawlBody(cfg, fetch, extract))
    ensures KeepsTail(CrawlBody(cfg, fetch, extract))
    ensures LogsPerHead(CrawlBody(cfg, fetch, extract), FailureEntry(cfg, fetch))
  {
    var next := CrawlBody(cfg, fetch, extract);
    forall s: State | s.queue != []
      ensures next(s).value.visited == s.visited + {s.queue[0]}
      ensures |next(s).value.queue| >= |s.queue| - 1
      ensures next(s).value.queue[..|s.queue| - 1] == s.queue[1..]
      ensures next(s).value.errors == s.errors + FailureEntry(cfg, fetch)(s.queue[0])
    {
      StepMarksRawUrl(cfg, fetch, extract, s);
      StepEnqueuedAreAdmissible(cfg, fetch, extract, s);
      StepErrors(cfg, fetch, extract, s);
    }
  }

  /** The state after at most `fuel` iterations from `s`. */
  function Run(cfg: Config, fetch: Fetcher, extract: Extractor, s: State, fuel: nat): State
  {
    Iterate(CrawlBody(cfg, fetch, extract), s, fuel)
  }

  /** The raw strings dequeued during that run, in order. */
  function Processed(cfg: Config, fetch: Fetcher, extract: Extractor, s: State, fuel: nat): seq<string>
  {
    CrawlBodyShape(cfg, fetch, extract);
    Dequeued(CrawlBody(cfg, fetch, extract), s, fuel)
  }

  /** The normalized URLs of `urls` whose fetch fails, in order. */
  function Failures(cfg: Config, fetch: Fetcher, urls: seq<string>): seq<string>
  {
    Entries(FailureEntry(cfg, fetch), urls)
  }

  /** Everything `Failures` lists failed to fetch and is a normalized URL,
      never a bare `/`-path. */
  lemma {:induction false} FailuresAreFailedNormalized(cfg: Config, fetch: Fetcher, urls: seq<string>)
    ensures forall e :: e in Failures(cfg, fetch, urls) ==>
      fetch(e).None? && !StartsWith(e, PathPrefix)
  {
    if urls != [] {
      FailuresAreFailedNormalized(cfg, fetch, urls[1..]);
      NormalizedIsNotPath(cfg, urls[0]);
      assert Failures(cfg, fetch, urls)
          == FailureEntry(cfg, fetch)(urls[0]) + Failures(cfg, fetch, urls[1..]);
    }
  }

  /** A run stops only when the queue is empty or the budget is spent. */
  lemma RunStops(cfg: Config, fetch: Fetcher, extract: Extractor, s: State, fuel: nat)
    ensures Run(cfg, fetch, extract, s, fuel).queue == []
         || |Processed(cfg, fetch, extract, s, fuel)| == fuel
  {
    CrawlBodyShape(cfg, fetch, extract);
    IterateStops(CrawlBody(cfg, fetch, extract), s, fuel);
  }

  /** The visited set at the end is the one at the start plus exactly the
      raw strings dequeued on the way; nothing is ever removed. */
  lemma RunVisited(cfg: Config, fetch: Fetcher, extract: Extractor, s: State, fuel: nat)
    ensures forall u :: (u in Run(cfg, fetch, extract, s, fuel).visited
                         <==> u in s.visited || u in Processed(cfg, fetch, extract, s, fuel))
  {
    CrawlBodyShape(cfg, fetch, extract);
    IterateVisited(CrawlBody(cfg, fetch, extract), s, fuel);
  }

  /** Error completeness: the log gains exactly the normalized form of each
      dequeued URL whose fetch fails, in dequeue order, and keeps what it
      held before. */
  lemma RunErrors(cfg: Config, fetch: Fetcher, extract: Extractor, s: State, fuel: nat)
    ensures Run(cfg, fetch, extract, s, fuel).errors
         == s.errors + Failures(cfg, fetch, Processed(cfg, fetch, extract, s, fuel))
  {
    CrawlBodyShape(cfg, fetch, extract);
    IterateLog(CrawlBody(cfg, fetch, extract), FailureEntry(cfg, fetch), s, fuel);
  }

  /** Every URL logged by a run from the seed failed to fetch and is a
      normalized URL. */
  lemma ErrorsAreFailedNormalizedUrls(cfg: Config, fetch: Fetcher, extract: Extractor, fuel: nat)
    ensures forall e :: e in Run(cfg, fetch, extract, Init(), fuel).errors ==>
      fetch(e).None? && !StartsWith(e, PathPrefix)
  {
    RunErrors(cfg, fetch, extract, Init(), fuel);
    FailuresAreFailedNormalized(cfg, fetch, Processed(cfg, fetch, extract, Init(), fuel));
  }

  /** FIFO order: the URLs waiting in the queue are the next ones dequeued,
      in queue order. */
  lemma FifoOrder(cfg: Config, fetch: Fetcher, extract: Extractor, s: State, fuel: nat)
    ensures var p := Processed(cfg, fetch, extract, s, fuel);
      var k := if fuel < |s.queue| then fuel else |s.queue|;
      |p| >= k && p[..k] == s.queue[..k]
  {
    CrawlBodyShape(cfg, fetch, extract);
    IterateFifo(CrawlBody(cfg, fetch, extract), s, fuel);
  }

  /** Every queued URL is scrapeable. */
  predicate QueueScrapeable(s: State)
  {
    forall u :: u in s.queue ==> IsScrapeable(u)
  }

  /** The seed queue holds one scrapeable URL. */
  lemma InitQueueScrapeable()
    ensures QueueScrapeable(Init())
  {
    IsScrapeableCharacterization(Seed);
  }

  /** One step keeps every queued URL scrapeable: the tail was, and the
      enqueue filter admits scrapeable hrefs only. */
  lemma StepKeepsQueueScrapeable(cfg: Config, fetch: Fetcher, extract: Extractor, s: State)
    requires s.queue != []
    requires QueueScrapeable(s)
    ensures QueueScrapeable(Step(cfg, fetch, extract, s).value)
  {
    var t := Step(cfg, fetch, extract, s).value;
    StepEnqueuedAreAdmissible(cfg, fetch, extract, s);
    forall u | u in t.queue
      ensures IsScrapeable(u)
    {
      var i :| 0 <= i < |t.queue| && t.queue[i] == u;
      if i < |s.queue| - 1 {
        assert t.queue[i] == t.queue[..|s.queue| - 1][i] == s.queue[i + 1];
      }
    }
  }

  /** The crawl body preserves `QueueScrapeable`. */
  lemma CrawlBodyKeepsQueueScrapeable(cfg: Config, fetch: Fetcher, extract: Extractor)
    ensures Preserves(CrawlBody(cfg, fetch, extract), QueueScrapeable)
  {
    forall s | QueueScrapeable(s) && s.queue != []
      ensures QueueScrapeable(Step(cfg, fetch, extract, s).value)
    {
      StepKeepsQueueScrapeable(cfg, fetch, extract, s);
    }
  }

  /** Every state a run from the seed reaches queues scrapeable URLs only. */
  lemma RunKeepsQueueScrapeable(cfg: Config, fetch: Fetcher, extract: Extractor, fuel: nat)
    ensures QueueScrapeable(Run(cfg, fetch, extract, Init(), fuel))
  {
    InitQueueScrapeable();
    CrawlBodyKeepsQueueScrapeable(cfg, fetch, extract);
    IterateKeeps(CrawlBody(cfg, fetch, extract), QueueScrapeable, Init(), fuel);
  }

  /** No `mailto:` or `#` href is ever dequeued, hence never fetched. */
  lemma ProcessedAreScrapeable(cfg: Config, fetch: Fetcher, extract: Extractor, fuel: nat)
    ensures forall u :: u in Processed(cfg, fetch, extract, Init(), fuel) ==> IsScrapeable(u)
  {
    InitQueueScrapeable();
    CrawlBodyShape(cfg, fetch, extract);
    CrawlBodyKeepsQueueScrapeable(cfg, fetch, extract);
    IterateDequeuesGood(CrawlBody(cfg, fetch, extract), QueueScrapeable, IsScrapeable, Init(), fuel);
  }

  /** The first dequeued string, unfolded. */
  lemma ProcessedUnfold(cfg: Config, fetch: Fetcher, extract: Extractor, s: State, fuel: nat)
    requires fuel > 0 && s.queue != []
    ensures Processed(cfg, fetch, extract, s, fuel)
         == [s.queue[0]] + Processed(cfg, fetch, extract, Step(cfg, fetch, extract, s).value, fuel - 1)
  {
  }

  /** One iteration of the run, unfolded. */
  lemma RunUnfold(cfg: Config, fetch: Fetcher, extract: Extractor, s: State, fuel: nat)
    requires fuel > 0 && s.queue != []
    ensures Run(cfg, fetch, extract, s, fuel)
         == Run(cfg, fetch, extract, Step(cfg, fetch, extract, s).value, fuel - 1)
  {
  }

  /** The loop of `main`, statement by statement, for at most `fuel`
      iterations; it returns the error log that `main` prints. */
  method CheckLinks(cfg: Config, fetch: Fetcher, extract: Extractor, fuel: nat)
    returns (errors: seq<string>)
    ensures errors == Run(cfg, fetch, extract, Init(), fuel).errors
    ensures forall e :: e in errors ==> fetch(e).None?
  {
    errors := [];
    var queue := [Seed];
    var visited: set<string> := {};
    var remaining: nat := fuel;
    while remaining > 0 && queue != []
      invariant remaining <= fuel
      invariant Run(cfg, fetch, extract, Init(), fuel)
             == Run(cfg, fetch, extract, State(queue, visited, errors), remaining)
      decreases remaining
    {
      ghost var before := State(queue, visited, errors);
      RunUnfold(cfg, fetch, extract, before, remaining);
      var url := queue[0];
      queue := queue[1..];
      visited := visited + {url};
      url := Normalize(cfg, url);
      var fetched := fetch(url);
      var body: string;
      match fetched {
        case Some(r) =>
          body := r;
        case None =>
          errors := errors + [url];
          body := "";
      }
      remaining := remaining - 1;
      if IsExternal(cfg, url) {
        assert State(queue, visited, errors) == Step(cfg, fetch, extract, before).value;
        continue;
      }
      queue := EnqueueLinks(queue, extract(body), visited);
      assert State(queue, visited, errors) == Step(cfg, fetch, extract, before).value;
    }
    ErrorsAreFailedNormalizedUrls(cfg, fetch, extract, fuel);
  }
}
