/** The trace-summary page walk (exporter/traceids.go, exporter/summaries.go).
    GetTraceSummaries is an abstract backend from request to response; the
    id-chunk channel and the error channel are one ordered event log on the
    service, next to the requests sent to the backend, so that the order of
    chunks, page requests and errors can be stated. */
module Collector {
  import opened Wrappers
  import opened Chunking

  /** The most ids one BatchGetTraces call accepts. */
  const BatchSize: nat := 5

  datatype Summary = Summary(id: string)

  /** One page of GetTraceSummaries output. */
  datatype Page = Page(summaries: seq<Summary>, nextToken: Option<string>)

  /** A GetTraceSummaries request: the time window and, after the first
      page, the token of the page wanted. */
  datatype Request = Request(startTime: int, endTime: int, nextToken: Option<string>)

  /** The SDK call's two results: an output (nil or not) and an error (nil or not). */
  datatype Response = Response(output: Option<Page>, err: Option<string>)

  datatype Error = NoOutput | ApiError(message: string)

  /** What the service does, in order: a backend request, a chunk of ids
      sent on the chunk channel, an error sent on the error channel. */
  datatype Event = Query(request: Request) | SendChunk(ids: seq<string>) | SendError(error: Error)

  datatype Outcome = Outcome(events: seq<Event>, err: Option<Error>)

  type Backend = Request -> Response

  /** The trace ids of a page, one per summary, in summary order. */
  function Ids(summaries: seq<Summary>): (ids: seq<string>)
    ensures |ids| == |summaries|
    ensures forall i :: 0 <= i < |summaries| ==> ids[i] == summaries[i].id
  {
    if summaries == [] then [] else Ids(summaries[..|summaries| - 1]) + [summaries[|summaries| - 1].id]
  }

  function Sends(chunks: seq<seq<string>>): (events: seq<Event>)
    ensures |events| == |chunks|
    ensures forall i :: 0 <= i < |chunks| ==> events[i] == SendChunk(chunks[i])
  {
    if chunks == [] then [] else Sends(chunks[..|chunks| - 1]) + [SendChunk(chunks[|chunks| - 1])]
  }

  function ErrorEvent(err: Option<Error>): seq<Event>
  {
    if err.Some? then [SendError(err.value)] else []
  }

  // ---------------------------------------------------------------------------
  // Termination: the token chain ends within n further pages

  predicate WalkEnds(backend: Backend, startTime: int, endTime: int, output: Option<Page>, n: nat)
    decreases n, 0
  {
    || output.None?
    || output.value.summaries == []
    || output.value.nextToken.None?
    || (n > 0 && NextPageEnds(backend, startTime, endTime, output.value.nextToken.value, n - 1))
  }

  predicate NextPageEnds(backend: Backend, startTime: int, endTime: int, token: string, n: nat)
    decreases n, 1
  {
    var resp := backend(Request(startTime, endTime, Some(token)));
    resp.err.Some? || WalkEnds(backend, startTime, endTime, resp.output, n)
  }

  predicate CollectEnds(backend: Backend, startTime: int, endTime: int, n: nat)
  {
    WalkEnds(backend, startTime, endTime, backend(Request(startTime, endTime, None)).output, n)
  }

  // ---------------------------------------------------------------------------
  // What each operation does, as a function of the backend

  /** processTraceSummaryOutput: nil output is its only error; an empty page
      stops the walk; otherwise the page's ids go out in chunks of at most
      BatchSize, then the next page, if any, is read and its error sent on
      the error channel rather than returned. */
  function ProcessOutput(backend: Backend, startTime: int, endTime: int, output: Option<Page>, n: nat): (o: Outcome)
    requires WalkEnds(backend, startTime, endTime, output, n)
    ensures o.err == if output.None? then Some(NoOutput) else None
    decreases n, 0
  {
    if output.None? then Outcome([], Some(NoOutput))
    else if output.value.summaries == [] then Outcome([], None)
    else
      var sends := Sends(Chunks(Ids(output.value.summaries), BatchSize));
      if output.value.nextToken.None? then Outcome(sends, None)
      else
        var next := NextPage(backend, startTime, endTime, output.value.nextToken.value, n - 1);
        Outcome(sends + next.events + ErrorEvent(next.err), None)
  }

  /** readTracesNextPage: the same window with the given token; a backend
      error is returned without looking at the output. */
  function NextPage(backend: Backend, startTime: int, endTime: int, token: string, n: nat): (o: Outcome)
    requires NextPageEnds(backend, startTime, endTime, token, n)
    ensures |o.events| >= 1 && o.events[0] == Query(Request(startTime, endTime, Some(token)))
    ensures backend(Request(startTime, endTime, Some(token))).err.Some? ==>
      o == Outcome([Query(Request(startTime, endTime, Some(token)))],
                   Some(ApiError(backend(Request(startTime, endTime, Some(token))).err.value)))
    decreases n, 1
  {
    var request := Request(startTime, endTime, Some(token));
    var resp := backend(request);
    if resp.err.Some? then Outcome([Query(request)], Some(ApiError(resp.err.value)))
    else
      var processed := ProcessOutput(backend, startTime, endTime, resp.output, n);
      Outcome([Query(request)] + processed.events, processed.err)
  }

  /** collectAndForwardTraces: a search error goes to the error channel and
      the output is processed anyway; a processing error goes there too;
      nothing is returned. */
  function Collect(backend: Backend, startTime: int, endTime: int, n: nat): (o: Outcome)
    requires CollectEnds(backend, startTime, endTime, n)
    ensures o.err == None
  {
    var request := Request(startTime, endTime, None);
    var resp := backend(request);
    var processed := ProcessOutput(backend, startTime, endTime, resp.output, n);
    Outcome([Query(request)] + (if resp.err.Some? then [SendError(ApiError(resp.err.value))] else [])
            + processed.events + ErrorEvent(processed.err), None)
  }

  /** The id array of processTraceSummaryOutput, filled by index. */
  method ExtractIds(summaries: seq<Summary>) returns (ids: seq<string>)
    ensures ids == Ids(summaries)
  {
    var a := new string[|summaries|];
    for i := 0 to |summaries|
      invariant forall j :: 0 <= j < i ==> a[j] == summaries[j].id
    {
      a[i] := summaries[i].id;
    }
    ids := a[..];
  }

  lemma Associate(a: seq<Event>, b: seq<Event>, c: seq<Event>)
    ensures a + b + c == a + (b + c)
  {
  }

  // ---------------------------------------------------------------------------
  // The service

  class Service {
    const backend: Backend
    /** Requests sent, chunks sent and errors sent, in order. */
    var log: seq<Event>

    constructor(backend: Backend)
      ensures this.backend == backend && log == []
    {
      this.backend := backend;
      log := [];
    }

    method GetTraceSummaries(request: Request) returns (resp: Response)
      modifies this
      ensures resp == backend(request)
      ensures log == old(log) + [Query(request)]
    {
      resp := backend(request);
      log := log + [Query(request)];
    }

    method EmitChunk(ids: seq<string>)
      modifies this
      ensures log == old(log) + [SendChunk(ids)]
    {
      log := log + [SendChunk(ids)];
    }

    method EmitError(err: Error)
      modifies this
      ensures log == old(log) + [SendError(err)]
    {
      log := log + [SendError(err)];
    }

    /** Sends each chunk on the chunk channel, in order. */
    method EmitChunks(chunks: seq<seq<string>>)
      modifies this
      ensures log == old(log) + Sends(chunks)
    {
      for i := 0 to |chunks|
        invariant log == old(log) + Sends(chunks[..i])
      {
        assert chunks[..i + 1][..i] == chunks[..i];
        EmitChunk(chunks[i]);
      }
      assert chunks[..|chunks|] == chunks;
    }

    method CollectAndForwardTraces(startTime: int, endTime: int, ghost n: nat) returns (err: Option<Error>)
      requires CollectEnds(backend, startTime, endTime, n)
      modifies this
      ensures err == None
      ensures log == old(log) + Collect(backend, startTime, endTime, n).events
    {
      var resp := GetTraceSummaries(Request(startTime, endTime, None));
      ghost var head := [Query(Request(startTime, endTime, None))];
      if resp.err.Some? {
        EmitError(ApiError(resp.err.value));
        Associate(old(log), head, [SendError(ApiError(resp.err.value))]);
        head := head + [SendError(ApiError(resp.err.value))];
      }
      ghost var processed := ProcessOutput(backend, startTime, endTime, resp.output, n);
      var processErr := ProcessTraceSummaryOutput(startTime, endTime, resp.output, n);
      Associate(old(log), head, processed.events);
      if processErr.Some? {
        EmitError(processErr.value);
      }
      Associate(old(log), head + processed.events, ErrorEvent(processed.err));
      assert Collect(backend, startTime, endTime, n).events == head + processed.events + ErrorEvent(processed.err);
      return None;
    }

    method ReadTracesNextPage(startTime: int, endTime: int, token: string, ghost n: nat) returns (err: Option<Error>)
      requires NextPageEnds(backend, startTime, endTime, token, n)
      modifies this
      ensures err == NextPage(backend, startTime, endTime, token, n).err
      ensures log == old(log) + NextPage(backend, startTime, endTime, token, n).events
      decreases n, 1
    {
      var resp := GetTraceSummaries(Request(startTime, endTime, Some(token)));
      if resp.err.Some? {
        return Some(ApiError(resp.err.value));
      }
      err := ProcessTraceSummaryOutput(startTime, endTime, resp.output, n);
      Associate(old(log), [Query(Request(startTime, endTime, Some(token)))],
        ProcessOutput(backend, startTime, endTime, resp.output, n).events);
    }

    /** The tail of processTraceSummaryOutput: read the next page and send
        its error, if any, on the error channel. */
    method FollowNextPage(startTime: int, endTime: int, token: string, ghost n: nat)
      requires NextPageEnds(backend, startTime, endTime, token, n)
      modifies this
      ensures log == old(log) + (NextPage(backend, startTime, endTime, token, n).events
        + ErrorEvent(NextPage(backend, startTime, endTime, token, n).err))
      decreases n, 2
    {
      var nextErr := ReadTracesNextPage(startTime, endTime, token, n);
      if nextErr.Some? {
        EmitError(nextErr.value);
      }
    }

    method ProcessTraceSummaryOutput(startTime: int, endTime: int, output: Option<Page>, ghost n: nat)
      returns (err: Option<Error>)
      requires WalkEnds(backend, startTime, endTime, output, n)
      modifies this
      ensures err == ProcessOutput(backend, startTime, endTime, output, n).err
      ensures log == old(log) + ProcessOutput(backend, startTime, endTime, output, n).events
      decreases n, 0
    {
      if output.None? {
        return Some(NoOutput);
      }
      var summaries := output.value.summaries;
      if |summaries| == 0 {
        return None;
      }
      var ids := ExtractIds(summaries);
      var chunks := ChunkBy(ids, BatchSize);
      EmitChunks(chunks);
      if output.value.nextToken.Some? {
        ghost var next := NextPage(backend, startTime, endTime, output.value.nextToken.value, n - 1);
        FollowNextPage(startTime, endTime, output.value.nextToken.value, n - 1);
        Associate(old(log), Sends(chunks), next.events + ErrorEvent(next.err));
        Associate(Sends(chunks), next.events, ErrorEvent(next.err));
      }
      return None;
    }
  }
}
