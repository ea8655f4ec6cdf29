/** Particular pages of the configured site `sophiabits.com` and what the
    loop body of src/main.rs does with them. Each scenario fixes only the
    links the relevant page yields; fetch and extraction are otherwise
    arbitrary. */
module Scenarios {
  import opened Strings
  import opened Url
  import opened Crawl
  import opened Pages

  /** The home page's queue after the first step. */
  lemma HomeQueue(fetch: Fetcher, extract: Extractor)
    requires PageLinks(fetch, extract, Seed) == ["/about", "#top", "mailto:a@b.com", External]
    ensures Step(Site, fetch, extract, Init()).value.queue == ["/about", External]
  {
    SeedIsInternal();
    HomeLinks();
    VisitedSets();
    StepInternalQueue(Site, fetch, extract, Init());
    assert Init().queue[1..] == [];
  }

  /** A home page linking `/about`, `#top`, `mailto:a@b.com` and an external
      URL queues only `/about` and the external URL, and only the seed is
      visited. */
  lemma HomePageFiltersLinks(fetch: Fetcher, extract: Extractor)
    requires PageLinks(fetch, extract, Seed) == ["/about", "#top", "mailto:a@b.com", External]
    ensures var t := Step(Site, fetch, extract, Init()).value;
      t.queue == ["/about", External] && t.visited == {Seed}
  {
    HomeQueue(fetch, extract);
    StepMarksRawUrl(Site, fetch, extract, Init());
    VisitedSets();
  }

  /** The state in which `/about` is next, the external URL after it. */
  function AboutNext(): State
  {
    State(["/about", External], {Seed}, [])
  }

  /** After `/about` fails, only the external URL is left in the queue. */
  lemma AboutFailedQueue(fetch: Fetcher, extract: Extractor)
    requires fetch(About).None? && extract("") == []
    ensures Step(Site, fetch, extract, AboutNext()).value.queue == [External]
  {
    AboutIsInternal();
    assert AboutNext().queue[1..] == [External];
  }

  /** The absolute about page is what enters the log. */
  lemma AboutFailedErrors(fetch: Fetcher, extract: Extractor)
    requires fetch(About).None?
    ensures Step(Site, fetch, extract, AboutNext()).value.errors == [About]
  {
    AboutIsInternal();
  }

  /** `/about` is fetched as the absolute about page; when that fails, the
      absolute URL is logged, `/about` itself is marked visited, and the
      crawl carries on with the external URL. */
  lemma FailedFetchIsLogged(fetch: Fetcher, extract: Extractor)
    requires fetch(About).None? && extract("") == []
    ensures var t := Step(Site, fetch, extract, AboutNext()).value;
      t.queue == [External] && t.visited == {Seed, "/about"} && t.errors == [About]
  {
    AboutFailedQueue(fetch, extract);
    StepMarksRawUrl(Site, fetch, extract, AboutNext());
    VisitedSets();
    AboutFailedErrors(fetch, extract);
  }

  /** An external page is fetched and, whatever links it holds, nothing is
      queued from it: one level deep. */
  lemma ExternalPageIsNotFollowed(fetch: Fetcher, extract: Extractor)
    ensures var t := Step(Site, fetch, extract, State([External], {Seed, "/about"}, [About])).value;
      && t.queue == []
      && t.visited == {Seed, "/about", External}
      && t.errors == if fetch(External).None? then [About, External] else [About]
  {
    ExternalIsExternal();
    VisitedSets();
  }

  /** A home page that links only to itself: the seed is already visited
      when its links are filtered, so the loop ends after one step. */
  lemma SelfLinkIsNotRequeued(fetch: Fetcher, extract: Extractor)
    requires PageLinks(fetch, extract, Seed) == [Seed]
    ensures Step(Site, fetch, extract, Init()).value.queue == []
  {
    SeedIsInternal();
  }

  /** A home page listing the same path twice queues it twice. */
  lemma TwiceQueue(fetch: Fetcher, extract: Extractor)
    requires PageLinks(fetch, extract, Seed) == ["/a", "/a"]
    ensures Step(Site, fetch, extract, Init()).value.queue == ["/a", "/a"]
  {
    SeedIsInternal();
    RepeatedPathKept();
    VisitedSets();
    StepInternalQueue(Site, fetch, extract, Init());
    assert Init().queue[1..] == [];
  }

  /** The about page's link to itself is queued after `/about`. */
  lemma RelinkQueue(fetch: Fetcher, extract: Extractor)
    requires PageLinks(fetch, extract, About) == [About]
    ensures Step(Site, fetch, extract, State(["/about"], {Seed}, [])).value.queue == [About]
  {
    AboutIsInternal();
    AboutLinksItself();
  }

  /** Visited holds the raw dequeued string: once `/about` is processed its
      absolute form is still unvisited, so a link to it from the about page
      itself is queued and the page is fetched again later. */
  lemma AbsoluteFormRequeued(fetch: Fetcher, extract: Extractor)
    requires PageLinks(fetch, extract, About) == [About]
    ensures var t := Step(Site, fetch, extract, State(["/about"], {Seed}, [])).value;
      t.queue == [About] && t.visited == {Seed, "/about"}
  {
    RelinkQueue(fetch, extract);
    StepMarksRawUrl(Site, fetch, extract, State(["/about"], {Seed}, []));
    VisitedSets();
  }
}
