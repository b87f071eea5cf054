/** What the page walk promises, proved about the specification functions
    of module Collector. */
module CollectorProperties {
  import opened Wrappers
  import opened Chunking
  import opened Collector

  // ---------------------------------------------------------------------------
  // The ids that reach the chunk channel

  /** The ids one event puts on the chunk channel. */
  function Carried(e: Event): seq<string>
  {
    if e.SendChunk? then e.ids else []
  }

  /** The ids sent on the chunk channel, chunk after chunk. */
  function ChunkedIds(events: seq<Event>): seq<string>
  {
    if events == [] then [] else ChunkedIds(events[..|events| - 1]) + Carried(events[|events| - 1])
  }

  lemma {:induction false} ChunkedIdsAppend(a: seq<Event>, b: seq<Event>)
    ensures ChunkedIds(a + b) == ChunkedIds(a) + ChunkedIds(b)
    decreases |b|
  {
    if b == [] {
      assert a + b == a;
    } else {
      var init, last := b[..|b| - 1], b[|b| - 1];
      ChunkedIdsAppend(a, init);
      assert (a + b)[..|a + b| - 1] == a + init;
      assert (a + b)[|a + b| - 1] == last;
      var x, y, z := ChunkedIds(a), ChunkedIds(init), Carried(last);
      assert x + y + z == x + (y + z);
    }
  }

  lemma {:induction false} ChunkedIdsOfSends(chunks: seq<seq<string>>)
    ensures ChunkedIds(Sends(chunks)) == Flatten(chunks)
    decreases |chunks|
  {
    if chunks != [] {
      var init := chunks[..|chunks| - 1];
      ChunkedIdsOfSends(init);
      assert Sends(chunks)[..|chunks| - 1] == Sends(init);
      FlattenAppend(init, [chunks[|chunks| - 1]]);
      assert init + [chunks[|chunks| - 1]] == chunks;
      assert Flatten([chunks[|chunks| - 1]]) == chunks[|chunks| - 1] + Flatten([chunks[|chunks| - 1]][1..]);
    }
  }

  /** The ids of every page the walk reaches, page after page. */
  function WalkIds(backend: Backend, startTime: int, endTime: int, output: Option<Page>, n: nat): seq<string>
    requires WalkEnds(backend, startTime, endTime, output, n)
    decreases n, 0
  {
    if output.None? || output.value.summaries == [] then []
    else
      Ids(output.value.summaries)
      + (if output.value.nextToken.None? then []
         else NextIds(backend, startTime, endTime, output.value.nextToken.value, n - 1))
  }

  function NextIds(backend: Backend, startTime: int, endTime: int, token: string, n: nat): seq<string>
    requires NextPageEnds(backend, startTime, endTime, token, n)
    decreases n, 1
  {
    var resp := backend(Request(startTime, endTime, Some(token)));
    if resp.err.Some? then [] else WalkIds(backend, startTime, endTime, resp.output, n)
  }

  /** Requests and errors carry no ids. */
  lemma {:induction false} NoChunkIds(events: seq<Event>)
    requires forall i :: 0 <= i < |events| ==> !events[i].SendChunk?
    ensures ChunkedIds(events) == []
    decreases |events|
  {
    if events != [] {
      NoChunkIds(events[..|events| - 1]);
    }
  }

  lemma ChunkedIdsOfThree(a: seq<Event>, b: seq<Event>, c: seq<Event>)
    ensures ChunkedIds(a + b + c) == ChunkedIds(a) + ChunkedIds(b) + ChunkedIds(c)
  {
    ChunkedIdsAppend(a + b, c);
    ChunkedIdsAppend(a, b);
  }

  /** The chunks of a page carry exactly the page's ids, in order. */
  lemma SendsCarryIds(ids: seq<string>)
    ensures ChunkedIds(Sends(Chunks(ids, BatchSize))) == ids
  {
    ChunkedIdsOfSends(Chunks(ids, BatchSize));
    ChunksFlatten(ids, BatchSize);
  }

  lemma PageChunkedIds(ids: seq<string>, middle: seq<Event>, err: Option<Error>)
    ensures ChunkedIds(Sends(Chunks(ids, BatchSize)) + middle + ErrorEvent(err))
      == ids + ChunkedIds(middle)
  {
    var sends := Sends(Chunks(ids, BatchSize));
    SendsCarryIds(ids);
    NoChunkIds(ErrorEvent(err));
    ChunkedIdsOfThree(sends, middle, ErrorEvent(err));
    assert ids + ChunkedIds(middle) + [] == ids + ChunkedIds(middle);
  }

  /** Every id of every page reached is sent on the chunk channel exactly
      once, in page order and summary order. */
  lemma {:induction false} ProcessSendsWalkIds(backend: Backend, startTime: int, endTime: int, output: Option<Page>, n: nat)
    requires WalkEnds(backend, startTime, endTime, output, n)
    ensures ChunkedIds(ProcessOutput(backend, startTime, endTime, output, n).events)
      == WalkIds(backend, startTime, endTime, output, n)
    decreases n, 1
  {
    if output.Some? && output.value.summaries != [] {
      if output.value.nextToken.Some? {
        FollowedPageIds(backend, startTime, endTime, output.value, n);
      } else {
        var ids := Ids(output.value.summaries);
        assert ProcessOutput(backend, startTime, endTime, output, n).events == Sends(Chunks(ids, BatchSize));
        assert WalkIds(backend, startTime, endTime, output, n) == ids + [];
        SendsCarryIds(ids);
      }
    } else {
      assert ProcessOutput(backend, startTime, endTime, output, n).events == [];
    }
  }

  /** A page with a token: its own ids, then those of the pages after it. */
  lemma {:induction false} FollowedPageIds(backend: Backend, startTime: int, endTime: int, page: Page, n: nat)
    requires WalkEnds(backend, startTime, endTime, Some(page), n)
    requires page.summaries != [] && page.nextToken.Some?
    ensures ChunkedIds(ProcessOutput(backend, startTime, endTime, Some(page), n).events)
      == WalkIds(backend, startTime, endTime, Some(page), n)
    decreases n, 0
  {
    var ids := Ids(page.summaries);
    var token := page.nextToken.value;
    var next := NextPage(backend, startTime, endTime, token, n - 1);
    assert ProcessOutput(backend, startTime, endTime, Some(page), n).events
      == Sends(Chunks(ids, BatchSize)) + next.events + ErrorEvent(next.err);
    assert WalkIds(backend, startTime, endTime, Some(page), n) == ids + NextIds(backend, startTime, endTime, token, n - 1);
    NextSendsWalkIds(backend, startTime, endTime, token, n - 1);
    PageChunkedIds(ids, next.events, next.err);
  }

  lemma {:induction false} NextSendsWalkIds(backend: Backend, startTime: int, endTime: int, token: string, n: nat)
    requires NextPageEnds(backend, startTime, endTime, token, n)
    ensures ChunkedIds(NextPage(backend, startTime, endTime, token, n).events)
      == NextIds(backend, startTime, endTime, token, n)
    decreases n, 2
  {
    var request := Request(startTime, endTime, Some(token));
    var resp := backend(request);
    NoChunkIds([Query(request)]);
    if resp.err.None? {
      ProcessSendsWalkIds(backend, startTime, endTime, resp.output, n);
      ChunkedIdsAppend([Query(request)], ProcessOutput(backend, startTime, endTime, resp.output, n).events);
    }
  }

  /** A search error does not stop the walk: the ids of the first page and
      of every page after it are still sent. */
  lemma CollectSendsWalkIds(backend: Backend, startTime: int, endTime: int, n: nat)
    requires CollectEnds(backend, startTime, endTime, n)
    ensures ChunkedIds(Collect(backend, startTime, endTime, n).events)
      == WalkIds(backend, startTime, endTime, backend(Request(startTime, endTime, None)).output, n)
  {
    var resp := backend(Request(startTime, endTime, None));
    var processed := ProcessOutput(backend, startTime, endTime, resp.output, n);
    var head := CollectPrefix(backend, startTime, endTime, n);
    NoChunkIds(ErrorEvent(processed.err));
    OnlyMiddleIds(head, processed.events, ErrorEvent(processed.err));
    ProcessSendsWalkIds(backend, startTime, endTime, resp.output, n);
  }

  /** What collecting sends before processing the first page (the search
      request and, if it failed, its error) carries no ids. */
  lemma CollectPrefix(backend: Backend, startTime: int, endTime: int, n: nat) returns (head: seq<Event>)
    requires CollectEnds(backend, startTime, endTime, n)
    ensures var processed := ProcessOutput(backend, startTime, endTime, backend(Request(startTime, endTime, None)).output, n);
      && Collect(backend, startTime, endTime, n).events == head + processed.events + ErrorEvent(processed.err)
      && ChunkedIds(head) == []
  {
    var resp := backend(Request(startTime, endTime, None));
    var query := [Query(Request(startTime, endTime, None))];
    var searchError := if resp.err.Some? then [SendError(ApiError(resp.err.value))] else [];
    NoChunkIds(query);
    NoChunkIds(searchError);
    ChunkedIdsAppend(query, searchError);
    head := query + searchError;
  }

  lemma OnlyMiddleIds(a: seq<Event>, m: seq<Event>, c: seq<Event>)
    requires ChunkedIds(a) == [] && ChunkedIds(c) == []
    ensures ChunkedIds(a + m + c) == ChunkedIds(m)
  {
    ChunkedIdsOfThree(a, m, c);
    assert [] + ChunkedIds(m) + [] == ChunkedIds(m);
  }

  // ---------------------------------------------------------------------------
  // Chunk sizes and the request window

  /** Every chunk sent holds between one and BatchSize ids. */
  predicate ChunksBounded(events: seq<Event>)
  {
    forall i :: 0 <= i < |events| && events[i].SendChunk? ==> 1 <= |events[i].ids| <= BatchSize
  }

  /** Every request asks for the same time window. */
  predicate SameWindow(events: seq<Event>, startTime: int, endTime: int)
  {
    forall i :: 0 <= i < |events| && events[i].Query? ==>
      events[i].request.startTime == startTime && events[i].request.endTime == endTime
  }

  predicate WellFormed(events: seq<Event>, startTime: int, endTime: int)
  {
    ChunksBounded(events) && SameWindow(events, startTime, endTime)
  }

  lemma WellFormedAppend(a: seq<Event>, b: seq<Event>, startTime: int, endTime: int)
    requires WellFormed(a, startTime, endTime) && WellFormed(b, startTime, endTime)
    ensures WellFormed(a + b, startTime, endTime)
  {
    var ab := a + b;
    forall i | 0 <= i < |ab|
      ensures (ab[i].SendChunk? ==> 1 <= |ab[i].ids| <= BatchSize)
      ensures (ab[i].Query? ==> ab[i].request.startTime == startTime && ab[i].request.endTime == endTime)
    {
      if i < |a| {
        assert ab[i] == a[i];
      } else {
        assert ab[i] == b[i - |a|];
      }
    }
  }

  lemma PageSendsBounded(ids: seq<string>, startTime: int, endTime: int)
    requires ids != []
    ensures WellFormed(Sends(Chunks(ids, BatchSize)), startTime, endTime)
  {
    var c := Chunks(ids, BatchSize);
    ChunkSizes(ids, BatchSize);
    forall i | 0 <= i < |c|
      ensures 1 <= |c[i]| <= BatchSize
    {
    }
  }

  /** Over the whole walk, chunks hold one to BatchSize ids and every request
      reuses the first request's window. */
  lemma {:induction false} ProcessWellFormed(backend: Backend, startTime: int, endTime: int, output: Option<Page>, n: nat)
    requires WalkEnds(backend, startTime, endTime, output, n)
    ensures WellFormed(ProcessOutput(backend, startTime, endTime, output, n).events, startTime, endTime)
    decreases n, 0
  {
    if output.Some? && output.value.summaries != [] {
      var sends := Sends(Chunks(Ids(output.value.summaries), BatchSize));
      PageSendsBounded(Ids(output.value.summaries), startTime, endTime);
      if output.value.nextToken.Some? {
        var next := NextPage(backend, startTime, endTime, output.value.nextToken.value, n - 1);
        NextWellFormed(backend, startTime, endTime, output.value.nextToken.value, n - 1);
        WellFormedAppend(sends, next.events, startTime, endTime);
        WellFormedAppend(sends + next.events, ErrorEvent(next.err), startTime, endTime);
      }
    }
  }

  lemma {:induction false} NextWellFormed(backend: Backend, startTime: int, endTime: int, token: string, n: nat)
    requires NextPageEnds(backend, startTime, endTime, token, n)
    ensures WellFormed(NextPage(backend, startTime, endTime, token, n).events, startTime, endTime)
    decreases n, 1
  {
    var request := Request(startTime, endTime, Some(token));
    var resp := backend(request);
    if resp.err.None? {
      ProcessWellFormed(backend, startTime, endTime, resp.output, n);
      WellFormedAppend([Query(request)], ProcessOutput(backend, startTime, endTime, resp.output, n).events, startTime, endTime);
    }
  }

  // ---------------------------------------------------------------------------
  // Early exits and the order of one page's work

  /** Nil output is an error and sends nothing; an empty page sends nothing
      and does not follow its token. */
  lemma EarlyExits(backend: Backend, startTime: int, endTime: int, output: Option<Page>, n: nat)
    requires WalkEnds(backend, startTime, endTime, output, n)
    ensures output.None? ==> ProcessOutput(backend, startTime, endTime, output, n) == Outcome([], Some(NoOutput))
    ensures output.Some? && output.value.summaries == [] ==>
      ProcessOutput(backend, startTime, endTime, output, n) == Outcome([], None)
  {
  }

  /** A non-empty page first sends all its chunks; the next page is requested
      after them, for the same window, exactly when the page has a token. */
  lemma PageOrder(backend: Backend, startTime: int, endTime: int, page: Page, n: nat)
    requires WalkEnds(backend, startTime, endTime, Some(page), n) && page.summaries != []
    ensures var events := ProcessOutput(backend, startTime, endTime, Some(page), n).events;
      var chunks := Chunks(Ids(page.summaries), BatchSize);
      && |events| >= |chunks|
      && events[..|chunks|] == Sends(chunks)
      && (|events| > |chunks| <==> page.nextToken.Some?)
      && (page.nextToken.Some? ==> events[|chunks|] == Query(Request(startTime, endTime, page.nextToken)))
  {
    var events := ProcessOutput(backend, startTime, endTime, Some(page), n).events;
    var chunks := Chunks(Ids(page.summaries), BatchSize);
    if page.nextToken.Some? {
      var next := NextPage(backend, startTime, endTime, page.nextToken.value, n - 1);
      assert events == Sends(chunks) + next.events + ErrorEvent(next.err);
      assert events[|chunks|] == next.events[0];
    }
  }

  /** A failing next-page request goes to the error channel and the page's
      processing still reports no error. */
  lemma NextPageErrorToSink(backend: Backend, startTime: int, endTime: int, page: Page, n: nat)
    requires WalkEnds(backend, startTime, endTime, Some(page), n) && page.summaries != [] && page.nextToken.Some?
    requires backend(Request(startTime, endTime, page.nextToken)).err.Some?
    ensures var request := Request(startTime, endTime, page.nextToken);
      ProcessOutput(backend, startTime, endTime, Some(page), n)
      == Outcome(Sends(Chunks(Ids(page.summaries), BatchSize))
                 + [Query(request), SendError(ApiError(backend(request).err.value))], None)
  {
  }

  /** A failed search with nil output sends two errors: the search error,
      then the missing-output error, and collecting still returns nothing. */
  lemma SearchFailureErrors(backend: Backend, startTime: int, endTime: int, n: nat)
    requires CollectEnds(backend, startTime, endTime, n)
    requires backend(Request(startTime, endTime, None)).err.Some?
    requires backend(Request(startTime, endTime, None)).output.None?
    ensures Collect(backend, startTime, endTime, n) == Outcome(
      [Query(Request(startTime, endTime, None)),
       SendError(ApiError(backend(Request(startTime, endTime, None)).err.value)),
       SendError(NoOutput)], None)
  {
  }
}
