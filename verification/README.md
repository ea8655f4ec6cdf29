# linkcheck crawl engine, modelled in Dafny

The program is a small link checker for one website. It starts from the
home page `https://sophiabits.com` and walks the site breadth first. It
fetches every URL it dequeues. It queues the links of internal pages,
while external pages are only fetched, never followed ("one level deep").
At the end it prints every URL whose fetch failed.

This project models the engine in `src/main.rs`:

- **`Wrappers`** (`wrappers.dfy`) holds `Option`, the result of a fetch and of one loop step.
- **`Strings`** (`strings.dfy`) holds `StartsWith`, a character-by-character prefix test, proved equal to Dafny's prefix relation.
- **`Url`** (`url.dfy`) models the three URL helpers over a `Config` that holds the command-line domain:
  - `IsExternal` is `is_url_external`;
  - `IsScrapeable` is `is_url_scrapeable`;
  - `Normalize` is `normalize_url`.

  Each is characterised over the characters of the string, and the file also proves the facts that follow from them.
- **`Crawl`** (`crawl.dfy`) models one iteration of `while let Some(url) = queue.pop_front()`:
  - the loop state (`State`: FIFO queue, visited set, error log);
  - the seed state `Init`;
  - the enqueue filter (`Admissible`, `NewLinks`), with `IsSubsequence` to state its page order, and the method `EnqueueLinks` that runs the `push_back` loop;
  - `PageLinks`, the hrefs of the page fetched for a URL;
  - the step function `Step` and its lemmas.
- **`Loop`** (`loop.dfy`) gives the shape of a queue-draining loop, for any body:
  - `Iterate` runs the body up to `fuel` times;
  - `Dequeued` lists the heads taken, in order.

  It also proves the whole-run facts that follow from per-step facts.
- **`Traversal`** (`traversal.dfy`) instantiates `Loop` with the crawl's `Step`:
  - `Run` and `Processed` are the whole-run functions;
  - the file proves the whole-run properties;
  - the method `CheckLinks` is the loop of `main` written statement by statement. It is proved to produce the error log of `Run`.
- **`Pages`**, **`Scenarios`** and **`Revisits`** (`pages.dfy`, `scenarios.dfy`, `revisits.dfy`) cover particular pages of `sophiabits.com`. They show concretely what the general lemmas state:
  - a home page whose four links are filtered down to two;
  - a failed fetch;
  - an external page;
  - a self-link;
  - a path listed twice;
  - a page linking its own absolute URL.

The two foreign capabilities are function-typed parameters:

- `fetch: string -> Option<string>` stands for `get_url` (`None` is any error).
- `extract: string -> seq<string>` stands for the `scraper` pipeline. It returns the `href` values of the body's `<a>` elements, in document order.

Points where the code is followed exactly, even where a reader might expect otherwise:

- **Literal seed.** The seed is the literal `https://sophiabits.com` (`Crawl.Seed`). It is not built from the configured domain.
- **Raw visited strings.** The dequeued string is marked visited before it is normalized. So `/about` enters the visited set, and `https://sophiabits.com/about` does not. A page linking its own absolute URL is therefore queued again (`Scenarios.AbsoluteFormRequeued`).
- **No no-revisit guarantee.** The enqueue filter consults the visited set only, not the pending queue. A page listing the same path twice queues it twice, and the crawl then fetches it twice (`Revisits.SamePathDequeuedTwice`).
- **Prefix-only external test.** `https://sophiabits.com.evil.com` counts as internal (`Url.PrefixSpoofIsInternal`).
- **Failures never stop the crawl.** A failed fetch logs the normalized URL and carries on with an empty body.

## Model

| member | source | states |
|---|---|---|
| Strings.StartsWithIsPrefix | src/main.rs:23 | the character-wise `starts_with` test holds exactly when the prefix is a prefix of the string |
| Url.IsExternalCharacterization | src/main.rs:22-24 | a URL is external exactly when it does not begin with `https://` followed by the domain |
| Url.PrefixSpoofIsInternal | src/main.rs:22-24 | the test is prefix-only: the origin followed by anything (e.g. `.evil.com`) is internal |
| Url.DiffersFromOriginIsExternal | src/main.rs:22-24 | a URL that differs from `https://<domain>` at a position both have is external |
| Url.IsScrapeableCharacterization | src/main.rs:26-28 | an href is not scrapeable exactly when it begins with `mailto:` or `#` |
| Url.StartsWithPath | src/main.rs:35 | `starts_with("/")` holds exactly when the first character is `/` |
| Url.NormalizeCharacterization | src/main.rs:34-40 | a `/`-path becomes `https://` + domain + path, anything else is unchanged; the input is always the suffix of the output |
| Url.NormalizeChangesOnlyPaths | src/main.rs:34-40 | normalization changes a string if and only if it is a `/`-path |
| Url.NormalizedIsNotPath | src/main.rs:34-40 | no normalized string begins with `/` |
| Url.NormalizeIdempotent | src/main.rs:34-40 | normalizing twice equals normalizing once |
| Url.NormalizedPathIsInternal | src/main.rs:34-36 | a normalized `/`-path is never external |
| Url.NormalizePreservesClass | src/main.rs:34-40 | normalization keeps a non-path URL's external/internal class and makes every `/`-path internal |
| Crawl.NewLinks | src/main.rs:73 | the filtered hrefs are no more than the page's and each is unvisited and scrapeable |
| Crawl.NewLinksMembership | src/main.rs:73 | an href is kept exactly when it is on the page, unvisited and scrapeable |
| Crawl.NewLinksInPageOrder | src/main.rs:68-76 | the kept hrefs are a subsequence of the page's hrefs, in page order |
| Crawl.NewLinksMultiplicity | src/main.rs:68-76 | an admissible href listed k times is kept k times; any other href is not kept |
| Crawl.EnqueueLinks | src/main.rs:68-76 | the `push_back` loop keeps the old queue as a prefix, appends only admissible hrefs, and appends exactly the filtered page hrefs in order |
| Crawl.Step | src/main.rs:51-76 | the loop ends exactly on an empty queue; a step adds the head to visited, removes nothing, and appends at most one error |
| Crawl.StepMarksRawUrl | src/main.rs:51-53 | visited gains exactly the raw dequeued string; a differing normalized form is not added |
| Crawl.StepErrors | src/main.rs:55-61 | the log gains the normalized URL at its end exactly when the fetch fails, otherwise it is unchanged |
| Crawl.StepFailedEnqueuesNothing | src/main.rs:55-76 | a failed fetch goes on with the empty body, so with no links in `""` nothing is queued from that page |
| Crawl.StepExternalEnqueuesNothing | src/main.rs:63-66 | after an external URL the queue is exactly the old tail |
| Crawl.StepIgnoresExtractWhenExternal | src/main.rs:63-66 | for an external URL the step's result does not depend on the page's links at all |
| Crawl.StepInternalEnqueue | src/main.rs:68-76 | after an internal URL the queue is the old tail followed by the page's scrapeable, unvisited hrefs, in page order and multiplicity |
| Crawl.StepEnqueuedAreAdmissible | src/main.rs:68-76 | the old tail survives as a prefix, and every newly queued URL is scrapeable, unvisited and different from the dequeued one |
| Traversal.CrawlBodyShape | src/main.rs:51-76 | the loop body stops on an empty queue, marks the head visited, keeps the tail, and logs only the head's failure |
| Traversal.FailuresAreFailedNormalized | src/main.rs:53-58 | every entry of a failure list failed to fetch and is not a bare `/`-path |
| Traversal.RunStops | src/main.rs:51 | a bounded run stops only on an empty queue or when its budget is spent |
| Traversal.RunVisited | src/main.rs:49-53 | the final visited set is the initial one plus exactly the dequeued strings |
| Traversal.RunErrors | src/main.rs:55-61 | the final log is the initial log followed by the normalized form of each dequeued URL whose fetch failed, in dequeue order |
| Traversal.ErrorsAreFailedNormalizedUrls | src/main.rs:44-77 | every URL a run from the seed logs failed to fetch and is normalized |
| Traversal.FifoOrder | src/main.rs:46-51 | the queued URLs are the next ones dequeued, in queue order |
| Traversal.InitQueueScrapeable | src/main.rs:46-47 | the seed queue holds one scrapeable URL |
| Traversal.StepKeepsQueueScrapeable | src/main.rs:51-76 | a step keeps every queued URL scrapeable |
| Traversal.RunKeepsQueueScrapeable | src/main.rs:44-77 | every state reached from the seed queues only scrapeable URLs |
| Traversal.ProcessedAreScrapeable | src/main.rs:44-77 | no `mailto:` or `#` href is ever dequeued, hence never fetched |
| Traversal.CheckLinks | src/main.rs:44-77 | the loop of `main`, statement by statement, yields exactly the error log of the bounded run, and every logged URL failed to fetch |
| Pages.SeedIsInternal | src/main.rs:47 | the literal seed is unchanged by normalization and internal for `sophiabits.com` |
| Pages.AboutIsInternal | src/main.rs:34-36 | `/about` normalizes to `https://sophiabits.com/about`, which is internal |
| Pages.ExternalIsExternal | src/main.rs:22-24 | `https://external.example` is unchanged and external |
| Pages.MailtoIsFiltered | src/main.rs:27 | a `mailto:` href is not scrapeable |
| Pages.FragmentIsFiltered | src/main.rs:27 | a `#` href is not scrapeable |
| Pages.HomeLinks | src/main.rs:73 | of `/about`, `#top`, a `mailto:` link and an external URL, only `/about` and the external URL pass the filter |
| Scenarios.HomePageFiltersLinks | src/main.rs:68-76 | the first step queues exactly the home page's scrapeable links and visits only the seed |
| Scenarios.FailedFetchIsLogged | src/main.rs:52-61 | a failed `/about` logs the absolute URL, visits the raw `/about` and carries on |
| Scenarios.ExternalPageIsNotFollowed | src/main.rs:63-66 | an external page adds nothing to the queue, whatever it links to |
| Scenarios.SelfLinkIsNotRequeued | src/main.rs:52-73 | a home page linking only itself ends the crawl after one step |
| Scenarios.AbsoluteFormRequeued | src/main.rs:52-73 | after `/about`, a link to its absolute URL is queued again, because visited holds the raw form |
| Revisits.DequeuedTwice | src/main.rs:51-76 | a step that queues a string twice makes the next two iterations dequeue it twice |
| Revisits.SamePathDequeuedTwice | src/main.rs:68-76 | a home page listing `/a` twice makes the crawl dequeue `/a` twice |

## Left out

- `get_url` (src/main.rs:17-20) is network I/O. It is the `fetch` parameter. `fetch` is a mathematical function, so fetching the same URL twice gives the same answer, which a real network need not.
- HTML parsing (`scraper`, the `ANCHOR` selector and `make_selector`, src/main.rs:8-10, 30-32, 68-72) is a foreign library. It is the `extract` parameter. Neither the `<a>` selection nor the dropping of anchors without `href` is modelled.
- Crawl.Step: `extract` is an arbitrary function, so nothing forces `extract("")` to be empty. In the source, a failed fetch continues with the body `""`, and parsing that yields no anchors. The model states this only under the hypothesis `extract("") == []` (`Crawl.StepFailedEnqueuesNothing`, `Scenarios.FailedFetchIsLogged`). With any other extractor, the model would let a failed internal page enqueue links.
- Command-line parsing with `clap` (src/main.rs:12-15, 43) is not modelled. The domain is the `Config` parameter.
- Printing the `ERROR:` lines (src/main.rs:79-81) is output. The model stops at the error sequence that is printed.
- Traversal.Run: termination of the whole crawl depends on the link graph behind `fetch`. `Run`, `Processed` and `CheckLinks` take an iteration budget `fuel`. Every fact is stated for every budget, and `RunStops` says a run that stops early has an empty queue. No fact says the crawl ends.
- Strings.StartsWith: Rust's `starts_with` compares UTF-8 bytes, and the model compares characters. These agree because UTF-8 encodes each character with a prefix-free byte string. The encoding itself is not modelled.
- `HashSet` and `VecDeque` are a mathematical `set` and `seq`. Hashing, capacity and allocation are not modelled.
