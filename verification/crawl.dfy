/** One iteration of the traversal loop in src/main.rs `main`
    (the body of `while let Some(url) = queue.pop_front()`).

    The network fetch and the HTML anchor extraction are foreign
    capabilities; they enter as function-typed parameters:
      - `fetch(url)` is `Some(body)` on success and `None` on any failure;
      - `extract(body)` is the sequence of `href` values of the body's
        anchors, in document order, anchors without `href` already dropped.
 */
module Crawl {
  import opened Wrappers
  import opened Strings
  import opened Url

  type Fetcher = string -> Option<string>
  type Extractor = string -> seq<string>

  /** The seed is the literal home page of the original site; it is not
      derived from the configured domain. */
  const Seed: string := "https://sophiabits.com"

  /** The loop's mutable variables: the FIFO frontier, the visited set and
      the append-only error log. */
  datatype State = State(queue: seq<string>, visited: set<string>, errors: seq<string>)

  /** The state just before the loop: one seed URL, nothing visited, no errors. */
  function Init(): State
  {
    State([Seed], {}, [])
  }

  /** The enqueue filter: not yet visited and scrapeable. */
  predicate Admissible(visited: set<string>, href: string)
  {
    href !in visited && IsScrapeable(href)
  }

  /** The hrefs of one page that pass the enqueue filter, in page order. */
  function NewLinks(hrefs: seq<string>, visited: set<string>): (r: seq<string>)
    ensures |r| <= |hrefs|
    ensures forall i :: 0 <= i < |r| ==> Admissible(visited, r[i])
  {
    if hrefs == [] then []
    else if Admissible(visited, hrefs[0]) then [hrefs[0]] + NewLinks(hrefs[1..], visited)
    else NewLinks(hrefs[1..], visited)
  }

  /** `a` is obtained from `b` by deleting elements, keeping the order of
      what remains. */
  predicate IsSubsequence<T(==)>(a: seq<T>, b: seq<T>)
    decreases |b|
  {
    if a == [] then true
    else if b == [] then false
    else if a[0] == b[0] then IsSubsequence(a[1..], b[1..])
    else IsSubsequence(a, b[1..])
  }

  /** An href is enqueued exactly when it is on the page and passes the filter. */
  lemma {:induction false} NewLinksMembership(hrefs: seq<string>, visited: set<string>, x: string)
    ensures x in NewLinks(hrefs, visited) <==> x in hrefs && Admissible(visited, x)
  {
    if hrefs != [] {
      NewLinksMembership(hrefs[1..], visited, x);
      assert hrefs == [hrefs[0]] + hrefs[1..];
    }
  }

  /** Enqueued hrefs keep the order in which the page lists them. */
  lemma {:induction false} NewLinksInPageOrder(hrefs: seq<string>, visited: set<string>)
    ensures IsSubsequence(NewLinks(hrefs, visited), hrefs)
  {
    if hrefs != [] {
      NewLinksInPageOrder(hrefs[1..], visited);
      if !Admissible(visited, hrefs[0]) {
        var r := NewLinks(hrefs[1..], visited);
        if r != [] {
          NewLinksMembership(hrefs[1..], visited, r[0]);
        }
      }
    }
  }

  /** The filter never merges repeated hrefs: an admissible href listed k
      times is enqueued k times, any other href not at all. */
  lemma {:induction false} NewLinksMultiplicity(hrefs: seq<string>, visited: set<string>, x: string)
    ensures multiset(NewLinks(hrefs, visited))[x]
         == if Admissible(visited, x) then multiset(hrefs)[x] else 0
  {
    if hrefs != [] {
      NewLinksMultiplicity(hrefs[1..], visited, x);
      assert hrefs == [hrefs[0]] + hrefs[1..];
      assert multiset(hrefs) == multiset{hrefs[0]} + multiset(hrefs[1..]);
    }
  }

  /** The `for href in ... { queue.push_back(href) }` loop of src/main.rs:
      push, in page order, each href that passes the filter. */
  method EnqueueLinks(queue: seq<string>, hrefs: seq<string>, visited: set<string>)
    returns (q: seq<string>)
    ensures |q| >= |queue| && q[..|queue|] == queue
    ensures forall i :: |queue| <= i < |q| ==> Admissible(visited, q[i])
    ensures q == queue + NewLinks(hrefs, visited)
  {
    q := queue;
    var rest := hrefs;
    while rest != []
      invariant q + NewLinks(rest, visited) == queue + NewLinks(hrefs, visited)
      decreases |rest|
    {
      var href := rest[0];
      if href !in visited && IsScrapeable(href) {
        q := q + [href];
      }
      rest := rest[1..];
    }
    assert q == queue + NewLinks(hrefs, visited);
  }

  /** The page body the loop goes on with: the fetched text, or `""` after
      a failed fetch. */
  function BodyOrEmpty(fetched: Option<string>): string
  {
    match fetched
    case Some(body) => body
    case None => ""
  }

  /** The hrefs of the page fetched for `url`, in document order; after a
      failed fetch, those of the empty body. */
  function PageLinks(fetch: Fetcher, extract: Extractor, url: string): seq<string>
  {
    extract(BodyOrEmpty(fetch(url)))
  }

  /** One loop iteration. `None` when the queue is empty (the loop ends);
      otherwise the head `h` is dequeued and marked visited as it is, then
      normalized, fetched (a failure logs the normalized URL and continues
      with an empty body) and, unless it is external, its page's admissible
      hrefs are appended to the queue. */
  function Step(cfg: Config, fetch: Fetcher, extract: Extractor, s: State): (r: Option<State>)
    ensures r.None? <==> s.queue == []
    ensures r.Some? ==> s.visited <= r.value.visited && s.queue[0] in r.value.visited
    ensures r.Some? ==> s.errors <= r.value.errors && |r.value.errors| <= |s.errors| + 1
  {
    if s.queue == [] then None
    else
      var h := s.queue[0];
      var visited := s.visited + {h};
      var url := Normalize(cfg, h);
      var fetched := fetch(url);
      var errors := if fetched.None? then s.errors + [url] else s.errors;
      var queue := if IsExternal(cfg, url) then s.queue[1..]
                   else s.queue[1..] + NewLinks(PageLinks(fetch, extract, url), visited);
      Some(State(queue, visited, errors))
  }

  /** The dequeued string is marked visited as it was dequeued, before
      normalization: a `/`-path adds itself, not its absolute form.
      Nothing ever leaves the visited set. */
  lemma StepMarksRawUrl(cfg: Config, fetch: Fetcher, extract: Extractor, s: State)
    requires s.queue != []
    ensures Step(cfg, fetch, extract, s).value.visited == s.visited + {s.queue[0]}
    ensures var n := Normalize(cfg, s.queue[0]);
      n != s.queue[0] && n !in s.visited ==> n !in Step(cfg, fetch, extract, s).value.visited
  {
  }

  /** The error log changes only on a failed fetch, and then gains exactly
      the normalized URL at its end. */
  lemma StepErrors(cfg: Config, fetch: Fetcher, extract: Extractor, s: State)
    requires s.queue != []
    ensures var n := Normalize(cfg, s.queue[0]);
      Step(cfg, fetch, extract, s).value.errors
        == if fetch(n).None? then s.errors + [n] else s.errors
  {
  }

  /** One level deep: after an external URL the queue is just the old tail. */
  lemma StepExternalEnqueuesNothing(cfg: Config, fetch: Fetcher, extract: Extractor, s: State)
    requires s.queue != []
    requires IsExternal(cfg, Normalize(cfg, s.queue[0]))
    ensures Step(cfg, fetch, extract, s).value.queue == s.queue[1..]
  {
  }

  /** A failed fetch goes on with the empty body `""`, whose parse holds no
      anchor: with an extractor that finds no links in `""`, a page that
      could not be fetched adds nothing to the queue, internal or not. */
  lemma StepFailedEnqueuesNothing(cfg: Config, fetch: Fetcher, extract: Extractor, s: State)
    requires s.queue != []
    requires fetch(Normalize(cfg, s.queue[0])).None? && extract("") == []
    ensures Step(cfg, fetch, extract, s).value.queue == s.queue[1..]
  {
  }

  /** One level deep, stated on the capability: for an external URL the
      result does not depend on the link extractor at all, so the body of
      an external page is never looked into. */
  lemma StepIgnoresExtractWhenExternal(cfg: Config, fetch: Fetcher, e1: Extractor, e2: Extractor, s: State)
    requires s.queue != []
    requires IsExternal(cfg, Normalize(cfg, s.queue[0]))
    ensures Step(cfg, fetch, e1, s) == Step(cfg, fetch, e2, s)
  {
  }

  /** After an internal URL the queue is the old tail followed by the
      filtered links of the fetched page. */
  lemma StepInternalQueue(cfg: Config, fetch: Fetcher, extract: Extractor, s: State)
    requires s.queue != []
    requires !IsExternal(cfg, Normalize(cfg, s.queue[0]))
    ensures Step(cfg, fetch, extract, s).value.queue
         == s.queue[1..] + NewLinks(PageLinks(fetch, extract, Normalize(cfg, s.queue[0])), s.visited + {s.queue[0]})
  {
  }

  /** After an internal URL the queue is the old tail followed by the page's
      hrefs that are scrapeable and not in the visited set (the dequeued URL
      included), each kept as often and in the order the page lists it. */
  lemma StepInternalEnqueue(cfg: Config, fetch: Fetcher, extract: Extractor, s: State)
    requires s.queue != []
    requires !IsExternal(cfg, Normalize(cfg, s.queue[0]))
    ensures var t := Step(cfg, fetch, extract, s).value;
      var tail := s.queue[1..];
      var hrefs := PageLinks(fetch, extract, Normalize(cfg, s.queue[0]));
      && |t.queue| >= |tail|
      && t.queue[..|tail|] == tail
      && IsSubsequence(t.queue[|tail|..], hrefs)
      && (forall x :: x in t.queue[|tail|..] <==> x in hrefs && Admissible(t.visited, x))
      && (forall x :: multiset(t.queue[|tail|..])[x]
            == if Admissible(t.visited, x) then multiset(hrefs)[x] else 0)
  {
    var t := Step(cfg, fetch, extract, s).value;
    var tail := s.queue[1..];
    var hrefs := PageLinks(fetch, extract, Normalize(cfg, s.queue[0]));
    assert t.queue[|tail|..] == NewLinks(hrefs, t.visited);
    NewLinksInPageOrder(hrefs, t.visited);
    forall x
      ensures x in t.queue[|tail|..] <==> x in hrefs && Admissible(t.visited, x)
    {
      NewLinksMembership(hrefs, t.visited, x);
    }
    forall x
      ensures multiset(t.queue[|tail|..])[x]
           == if Admissible(t.visited, x) then multiset(hrefs)[x] else 0
    {
      NewLinksMultiplicity(hrefs, t.visited, x);
    }
  }

  /** Every URL a step adds to the queue is scrapeable and was not in the
      visited set at that moment; in particular the dequeued URL never
      re-enters the queue from its own page. */
  lemma StepEnqueuedAreAdmissible(cfg: Config, fetch: Fetcher, extract: Extractor, s: State)
    requires s.queue != []
    ensures var t := Step(cfg, fetch, extract, s).value;
      && |t.queue| >= |s.queue| - 1
      && t.queue[..|s.queue| - 1] == s.queue[1..]
      && forall i :: |s.queue| - 1 <= i < |t.queue| ==>
           Admissible(t.visited, t.queue[i]) && t.queue[i] != s.queue[0]
  {
  }
}
