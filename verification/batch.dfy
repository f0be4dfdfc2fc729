/** The front end's request batcher: queries made within a scheduled window are
    collected and sent as one request, at most `limit` of them at a time; every
    caller awaits the request that is current when it queues its query. */
module Batch {
  import opened Wrappers
  import opened Seqs

  /** The two scheduling functions: how long to wait after the latest queued
      query before the batch is sent. */
  datatype Scheduler = Window(ms: int) | Buffer(ms: int)

  /** `windowScheduler(ms)(start, latest)` and `bufferScheduler(ms)()`: a
      window closes `ms` after the batch's first query, a buffer `ms` after its
      latest one. */
  function Delay(s: Scheduler, start: int, latest: int): (d: int)
    ensures s.Window? ==> latest + d == start + s.ms
    ensures s.Buffer? ==> latest + d == latest + s.ms
  {
    match s
    case Window(ms) => ms - (latest - start)
    case Buffer(ms) => ms
  }

  /** Under a window scheduler the send time does not move as queries arrive. */
  lemma WindowDeadlineFixed(ms: int, start: int, latest1: int, latest2: int)
    ensures latest1 + Delay(Window(ms), start, latest1) == latest2 + Delay(Window(ms), start, latest2)
  {
  }

  /** The scheduler used when none is configured. */
  const DefaultScheduler := Window(10)

  /** `[...batch].slice(0, limit)`; no limit is `Infinity`. */
  function Take<Q>(s: seq<Q>, limit: Option<nat>): (r: seq<Q>)
    ensures limit.None? ==> r == s
    ensures limit.Some? ==> |r| == if limit.value < |s| then limit.value else |s|
    ensures r == s[..|r|]
  {
    if limit.None? || limit.value >= |s| then s else s[..limit.value]
  }

  /** `[...batch].slice(limit)`: what the send leaves behind. */
  function Drop<Q>(s: seq<Q>, limit: Option<nat>): (r: seq<Q>)
    ensures Take(s, limit) + r == s
  {
    s[|Take(s, limit)|..]
  }

  /** A request the batcher sent: the queries it fetched, and the queries of
      the callers that await its answer. */
  datatype Request<Q> = Request(queries: seq<Q>, callers: seq<Q>)

  /** Every caller that awaits the request finds its own query among the ones
      fetched, so the resolver has something to find. */
  predicate Served<Q(==)>(r: Request<Q>) {
    forall k :: 0 <= k < |r.callers| ==> r.callers[k] in r.queries
  }

  /** The callers whose query the send includes, in their order. */
  function Within<Q(==)>(callers: seq<Q>, sent: seq<Q>): (r: seq<Q>)
    ensures forall q :: q in r ==> q in callers && q in sent
    ensures forall q :: q in callers && q in sent ==> q in r
    decreases |callers|
  {
    if callers == [] then []
    else (if callers[0] in sent then [callers[0]] else []) + Within(callers[1..], sent)
  }

  /** The callers whose query the send leaves behind, in their order. */
  function Outside<Q(==)>(callers: seq<Q>, sent: seq<Q>): (r: seq<Q>)
    ensures forall q :: q in r ==> q in callers && q !in sent
    ensures forall q :: q in callers && q !in sent ==> q in r
    decreases |callers|
  {
    if callers == [] then []
    else (if callers[0] !in sent then [callers[0]] else []) + Outside(callers[1..], sent)
  }

  /** `!mem.start`: an absent start, and a start of 0, count as unset. */
  predicate StartSet(start: Option<int>) {
    start.Some? && start.value != 0
  }

  /** The pending queries are distinct, every waiting caller's query is
      pending, pending queries have a timer, and every request sent serves the
      callers that await it. */
  predicate ValidMemory<Q(==)>(batch: seq<Q>, callers: seq<Q>, timer: Option<int>, requests: seq<Request<Q>>) {
    && NoDuplicates(batch)
    && (forall k :: 0 <= k < |callers| ==> callers[k] in batch)
    && (timer.Some? <==> batch != [])
    && (forall k :: 0 <= k < |requests| ==> Served(requests[k]))
  }

  /** The batcher's memory. `timer` is the delay of the pending timer,
      `callers` the queries of the callers awaiting the current deferred
      request, and `requests` the requests sent so far, oldest first. */
  class Batcher<Q(==)> {
    const limit: Option<nat>
    const scheduler: Scheduler
    var sequence: nat
    var batch: seq<Q>
    var callers: seq<Q>
    var timer: Option<int>
    var start: Option<int>
    var latest: Option<int>
    var requests: seq<Request<Q>>

    /** The pending queries are distinct, every waiting caller's query is
        pending, pending queries have a timer, and every request sent serves
        the callers that await it. */
    predicate Valid()
      reads this
    {
      ValidMemory(batch, callers, timer, requests)
    }

    /** `create`: no limit means `Infinity`, no scheduler a 10 ms window. */
    constructor (limit: Option<nat>, scheduler: Option<Scheduler>)
      ensures this.limit == limit && this.scheduler == scheduler.GetOr(DefaultScheduler)
      ensures sequence == 0 && batch == [] && callers == [] && requests == []
      ensures timer.None? && start.None? && latest.None?
      ensures Valid()
    {
      this.limit := limit;
      this.scheduler := scheduler.GetOr(DefaultScheduler);
      sequence := 0;
      batch := [];
      callers := [];
      timer := None;
      start := None;
      latest := None;
      requests := [];
    }

    /** `fetch(query)` at time `now`: the query joins the pending set (once),
        its caller awaits the current request, and the previous timer is
        replaced by one for `scheduler(start, latest)`. */
    method Fetch(query: Q, now: int)
      modifies this
      ensures start == if StartSet(old(start)) then old(start) else Some(now)
      ensures latest == Some(now)
      ensures batch == if query in old(batch) then old(batch) else old(batch) + [query]
      ensures callers == old(callers) + [query]
      ensures timer == Some(Delay(scheduler, start.value, now))
      ensures sequence == old(sequence) && requests == old(requests)
      ensures old(Valid()) ==> Valid()
    {
      if !StartSet(start) {
        start := Some(now);
      }
      latest := Some(now);
      if query !in batch {
        batch := batch + [query];
      }
      callers := callers + [query];
      timer := Some(Delay(scheduler, start.value, now));
    }

    /** The timer's callback as written: the first `limit` pending queries
        are sent, the rest stay pending without a timer, and every waiting
        caller, including those whose query stays behind, awaits the request
        just sent. */
    method FlushAsWritten()
      requires timer.Some?
      modifies this
      ensures requests == old(requests) + [Request(Take(old(batch), limit), old(callers))]
      ensures batch == Drop(old(batch), limit) && callers == []
      ensures timer.None? && start.None? && latest.None?
      ensures sequence == old(sequence) + 1
    {
      var sent := Take(batch, limit);
      var rest := Drop(batch, limit);
      requests := requests + [Request(sent, callers)];
      batch := rest;
      callers := [];
      timer := None;
      start := None;
      latest := None;
      sequence := sequence + 1;
    }

    /** The timer's callback at time `now`, with what stays behind carried to
        the next request: only the callers whose query is sent await this
        request, the others await the next one, and a new window opens for
        them at once. */
    method Flush(now: int)
      requires Valid() && timer.Some?
      modifies this
      ensures Valid()
      ensures requests == old(requests) +
                [Request(Take(old(batch), limit), Within(old(callers), Take(old(batch), limit)))]
      ensures batch == Drop(old(batch), limit)
      ensures callers == Outside(old(callers), Take(old(batch), limit))
      ensures batch == [] ==> timer.None? && start.None? && latest.None?
      ensures batch != [] ==> start == Some(now) && latest == Some(now) && timer == Some(Delay(scheduler, now, now))
      ensures limit != Some(0) ==> |batch| < |old(batch)|
      ensures sequence == old(sequence) + 1
    {
      var sent := Take(batch, limit);
      var rest := Drop(batch, limit);
      var waiting := Outside(callers, sent);
      var sentRequests := requests + [Request(sent, Within(callers, sent))];
      var nextTimer: Option<int> := if rest == [] then None else Some(Delay(scheduler, now, now));
      var nextStart: Option<int> := if rest == [] then None else Some(now);
      FlushKeepsValid(batch, callers, timer, requests, limit, nextTimer);
      batch, callers, timer, start, latest, requests, sequence :=
        rest, waiting, nextTimer, nextStart, nextStart, sentRequests, sequence + 1;
    }
  }

  /** What a send leaves behind is still duplicate-free and holds every
      caller whose query was not sent; the request sent serves the callers
      attached to it. */
  lemma CarryOver<Q>(batch: seq<Q>, callers: seq<Q>, limit: Option<nat>)
    requires NoDuplicates(batch)
    requires forall k :: 0 <= k < |callers| ==> callers[k] in batch
    ensures NoDuplicates(Drop(batch, limit))
    ensures forall q :: q in Outside(callers, Take(batch, limit)) ==> q in Drop(batch, limit)
    ensures Served(Request(Take(batch, limit), Within(callers, Take(batch, limit))))
  {
    var sent := Take(batch, limit);
    var rest := Drop(batch, limit);
    forall q | q in Outside(callers, sent)
      ensures q in rest
    {
      assert q in callers && q !in sent;
      assert q in batch;
      assert batch == sent + rest;
    }
    forall i, j | 0 <= i < j < |rest|
      ensures rest[i] != rest[j]
    {
      assert rest[i] == batch[|sent| + i] && rest[j] == batch[|sent| + j];
    }
  }

  /** The memory the send leaves is valid again, and a send under a limit
      other than 0 makes progress. */
  lemma FlushKeepsValid<Q>(batch: seq<Q>, callers: seq<Q>, timer: Option<int>, requests: seq<Request<Q>>,
                           limit: Option<nat>, nextTimer: Option<int>)
    requires ValidMemory(batch, callers, timer, requests) && timer.Some?
    requires nextTimer.Some? <==> Drop(batch, limit) != []
    ensures ValidMemory(Drop(batch, limit), Outside(callers, Take(batch, limit)), nextTimer,
                        requests + [Request(Take(batch, limit), Within(callers, Take(batch, limit)))])
    ensures limit != Some(0) ==> |Drop(batch, limit)| < |batch|
  {
    CarryOver(batch, callers, limit);
    var sentRequests := requests + [Request(Take(batch, limit), Within(callers, Take(batch, limit)))];
    assert forall k :: 0 <= k < |requests| ==> sentRequests[k] == requests[k];
  }

  /** With a limit of one, the caller of the second of two queries awaits a
      request that does not fetch its query, and that query is left pending
      with no timer to send it. */
  method OverflowStrandsCaller() returns (r: Request<int>, left: seq<int>, timer: Option<int>)
    ensures r == Request([1], [1, 2]) && !Served(r)
    ensures left == [2] && timer.None?
  {
    var b := new Batcher<int>(Some(1), None);
    b.Fetch(1, 100);
    assert b.batch == [1] && b.callers == [1];
    b.Fetch(2, 101);
    assert b.batch == [1, 2] && b.callers == [1, 2] && b.requests == [];
    assert Take([1, 2], Some(1)) == [1] && Drop([1, 2], Some(1)) == [2];
    b.FlushAsWritten();
    r := b.requests[0];
    left := b.batch;
    timer := b.timer;
    assert r.callers[1] == 2 && 2 !in r.queries;
  }

  /** `keyResolver(key)(items, query)`: the first item whose key equals the
      query, `None` for `undefined`. */
  function KeyResolver<T(==), K(==)>(items: seq<T>, key: T -> K, query: K): (r: Option<T>)
    ensures r.Some? <==> exists k :: 0 <= k < |items| && key(items[k]) == query
    ensures r.Some? ==> exists k :: 0 <= k < |items| && items[k] == r.value && key(items[k]) == query &&
                                    forall j :: 0 <= j < k ==> key(items[j]) != query
    decreases |items|
  {
    if items == [] then None
    else if key(items[0]) == query then Some(items[0])
    else
      var r := KeyResolver(items[1..], key, query);
      assert forall k :: 1 <= k < |items| ==> items[k] == items[1..][k - 1];
      if r.Some? then
        var k :| 0 <= k < |items[1..]| && items[1..][k] == r.value && key(items[1..][k]) == query &&
                 forall j :: 0 <= j < k ==> key(items[1..][j]) != query;
        assert items[k + 1] == r.value;
        r
      else r
  }
}
