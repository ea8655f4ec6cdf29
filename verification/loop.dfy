/** The shape of the `while let Some(url) = queue.pop_front()` loop of
    src/main.rs `main`, independent of what the loop body does with the
    page: iterate a body until it reports an empty queue.

    The facts here are proved once for any body with the stated per-step
    behaviour; the crawl's own body is shown to have that behaviour one
    iteration at a time.
 */
module Loop {
  import opened Wrappers
  import opened Crawl

  /** A loop body: `None` ends the loop, `Some(t)` is the next state. */
  type Body = State -> Option<State>

  /** The body ends the loop exactly when the queue is empty. */
  ghost predicate StopsOnEmpty(next: Body)
  {
    forall s :: next(s).None? <==> s.queue == []
  }

  /** The body marks the dequeued head visited and removes nothing. */
  ghost predicate MarksHead(next: Body)
  {
    forall s :: next(s).Some? && s.queue != [] ==>
      next(s).value.visited == s.visited + {s.queue[0]}
  }

  /** The body only appends after the old tail of the queue. */
  ghost predicate KeepsTail(next: Body)
  {
    forall s :: next(s).Some? && s.queue != [] ==>
      |next(s).value.queue| >= |s.queue| - 1
      && next(s).value.queue[..|s.queue| - 1] == s.queue[1..]
  }

  /** The body appends `entry(head)` to the error log and nothing else. */
  ghost predicate LogsPerHead(next: Body, entry: string -> seq<string>)
  {
    forall s :: next(s).Some? && s.queue != [] ==>
      next(s).value.errors == s.errors + entry(s.queue[0])
  }

  /** `inv` holds after every body run that starts where it holds. */
  ghost predicate Preserves(next: Body, inv: State -> bool)
  {
    forall s :: inv(s) && next(s).Some? ==> inv(next(s).value)
  }

  /** The state after at most `fuel` iterations of `next` from `s`. */
  function Iterate(next: Body, s: State, fuel: nat): State
    decreases fuel
  {
    if fuel == 0 then s
    else match next(s)
      case None => s
      case Some(t) => Iterate(next, t, fuel - 1)
  }

  /** The queue heads dequeued during those iterations, in order. */
  function Dequeued(next: Body, s: State, fuel: nat): (r: seq<string>)
    requires StopsOnEmpty(next)
    ensures |r| <= fuel
    decreases fuel
  {
    if fuel == 0 then []
    else match next(s)
      case None => []
      case Some(t) => [s.queue[0]] + Dequeued(next, t, fuel - 1)
  }

  /** The log entries of `urls`, one group per URL, in order. */
  function Entries(entry: string -> seq<string>, urls: seq<string>): seq<string>
  {
    if urls == [] then [] else entry(urls[0]) + Entries(entry, urls[1..])
  }

  /** The loop stops early only on an empty queue. */
  lemma {:induction false} IterateStops(next: Body, s: State, fuel: nat)
    requires StopsOnEmpty(next)
    ensures Iterate(next, s, fuel).queue == [] || |Dequeued(next, s, fuel)| == fuel
    decreases fuel
  {
    if fuel > 0 && s.queue != [] {
      IterateStops(next, next(s).value, fuel - 1);
    }
  }

  /** Visited at the end is visited at the start plus exactly the dequeued
      strings. */
  lemma {:induction false} IterateVisited(next: Body, s: State, fuel: nat)
    requires StopsOnEmpty(next) && MarksHead(next)
    ensures forall u :: (u in Iterate(next, s, fuel).visited
                         <==> u in s.visited || u in Dequeued(next, s, fuel))
    decreases fuel
  {
    if fuel > 0 && s.queue != [] {
      IterateVisited(next, next(s).value, fuel - 1);
    }
  }

  /** The log at the end is the log at the start followed by the entries of
      the dequeued strings, in dequeue order. */
  lemma {:induction false} IterateLog(next: Body, entry: string -> seq<string>, s: State, fuel: nat)
    requires StopsOnEmpty(next) && LogsPerHead(next, entry)
    ensures Iterate(next, s, fuel).errors == s.errors + Entries(entry, Dequeued(next, s, fuel))
    decreases fuel
  {
    if fuel > 0 && s.queue != [] {
      var t := next(s).value;
      IterateLog(next, entry, t, fuel - 1);
      var p := Dequeued(next, t, fuel - 1);
      assert ([s.queue[0]] + p)[1..] == p;
      assert Entries(entry, [s.queue[0]] + p) == entry(s.queue[0]) + Entries(entry, p);
    }
  }

  /** A preserved invariant holds at the end of the loop. */
  lemma {:induction false} IterateKeeps(next: Body, inv: State -> bool, s: State, fuel: nat)
    requires inv(s) && Preserves(next, inv)
    ensures inv(Iterate(next, s, fuel))
    decreases fuel
  {
    if fuel > 0 && next(s).Some? {
      IterateKeeps(next, inv, next(s).value, fuel - 1);
    }
  }

  /** Under a preserved invariant that makes every queue head `good`, every
      dequeued string is `good`. */
  lemma {:induction false} IterateDequeuesGood(next: Body, inv: State -> bool, good: string -> bool, s: State, fuel: nat)
    requires StopsOnEmpty(next) && inv(s) && Preserves(next, inv)
    requires forall x :: inv(x) && x.queue != [] ==> good(x.queue[0])
    ensures forall u :: u in Dequeued(next, s, fuel) ==> good(u)
    decreases fuel
  {
    if fuel > 0 && s.queue != [] {
      IterateDequeuesGood(next, inv, good, next(s).value, fuel - 1);
    }
  }

  /** FIFO: the strings waiting in the queue are the next ones dequeued, in
      queue order. */
  lemma {:induction false} IterateFifo(next: Body, s: State, fuel: nat)
    requires StopsOnEmpty(next) && KeepsTail(next)
    ensures var p := Dequeued(next, s, fuel);
      var k := if fuel < |s.queue| then fuel else |s.queue|;
      |p| >= k && p[..k] == s.queue[..k]
    decreases fuel
  {
    if fuel > 0 && s.queue != [] {
      var t := next(s).value;
      IterateFifo(next, t, fuel - 1);
      var k := if fuel < |s.queue| then fuel else |s.queue|;
      var k' := if fuel - 1 < |t.queue| then fuel - 1 else |t.queue|;
      PrefixAfterDequeue(s.queue, t.queue, Dequeued(next, t, fuel - 1), k, k');
    }
  }

  /** The sequence step behind `IterateFifo`. */
  lemma PrefixAfterDequeue(q: seq<string>, q': seq<string>, p': seq<string>, k: nat, k': nat)
    requires 1 <= k <= |q| && k - 1 <= k'
    requires |q'| >= |q| - 1 && q'[..|q| - 1] == q[1..]
    requires k' <= |q'| && k' <= |p'| && p'[..k'] == q'[..k']
    ensures |[q[0]] + p'| >= k && ([q[0]] + p')[..k] == q[..k]
  {
    assert p'[..k - 1] == p'[..k'][..k - 1];
    assert q'[..k - 1] == q'[..k'][..k - 1];
    assert q'[..k - 1] == q'[..|q| - 1][..k - 1];
    assert q[..k] == [q[0]] + q[1..][..k - 1];
  }
}
