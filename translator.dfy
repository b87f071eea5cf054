/** Segment-tree flattener and resource grouping (exporter/proto.go): a
    segment tree becomes a post-order list of spans sharing one trace id, a
    root segment becomes one resource group, and a trace the concatenation of
    its segments' groups. */
module Translator {
  import opened Wrappers
  import opened Codec
  import opened XRay
  import opened Otlp
  import opened Mapper

  const DefaultSpanName := "unknown"
  const DefaultScopeName := "AWS::Xray"
  const DefaultScopeVersion := "xray-to-otel"

  // ---------------------------------------------------------------------------
  // segmentToSpans

  /** The trace id a segment's spans carry: the caller's when one is passed
      down, otherwise the segment's own X-Ray trace id, decoded. */
  function ResolveTraceId(seg: Segment, traceId: Option<seq<byte>>): (r: Result<seq<byte>, IdError>)
    requires traceId.Some? || seg.traceId.Some?
    ensures traceId.Some? ==> r == Success(traceId.value)
    ensures traceId.None? ==> r == ParseXrayTraceId(seg.traceId.value)
  {
    if traceId.Some? then Success(traceId.value) else ParseXrayTraceId(seg.traceId.value)
  }

  /** The parent span id: the segment's own parent id, decoded, when it has
      one; otherwise whatever the caller passed down (none at a root). */
  function ResolveParent(seg: Segment, parentId: Option<seq<byte>>): (r: Result<Option<seq<byte>>, IdError>)
    ensures seg.parentId.None? ==> r == Success(parentId)
    ensures seg.parentId.Some? ==>
      (r.Success? <==> SpanIdFromHex(seg.parentId.value).Success?)
      && (r.Success? ==> r.value == Some(SpanIdFromHex(seg.parentId.value).value))
      && (r.Failure? ==> r.error == SpanIdFromHex(seg.parentId.value).error)
  {
    if seg.parentId.None? then Success(parentId)
    else
      match SpanIdFromHex(seg.parentId.value)
      case Failure(e) => Failure(e)
      case Success(pid) => Success(Some(pid))
  }

  predicate Timed(seg: Segment)
  {
    seg.startTime.Some? && seg.endTime.Some?
  }

  function SpanName(seg: Segment): string
  {
    if seg.name.Some? then seg.name.value else DefaultSpanName
  }

  /** The span a timed segment itself contributes. */
  function OwnSpan(seg: Segment, tid: seq<byte>, sid: seq<byte>, parent: Option<seq<byte>>): Span
    requires Timed(seg)
  {
    Span(tid, sid, parent, SpanName(seg), seg.startTime.value, seg.endTime.value,
         Internal, Status(seg), Attributes(seg), Events(seg))
  }

  predicate OfTrace(spans: seq<Span>, tid: seq<byte>)
  {
    forall i :: 0 <= i < |spans| ==> spans[i].traceId == tid
  }

  /** segmentToSpans: the spans of the subsegments, in order, then the
      segment's own span; every span carries the resolved trace id. */
  function SegmentToSpans(seg: Segment, traceId: Option<seq<byte>>, parentId: Option<seq<byte>>)
    : (r: Result<seq<Span>, IdError>)
    requires traceId.Some? || seg.traceId.Some?
    ensures r.Success? ==> ResolveTraceId(seg, traceId).Success? && OfTrace(r.value, ResolveTraceId(seg, traceId).value)
    decreases seg
  {
    match ResolveTraceId(seg, traceId)
    case Failure(e) => Failure(e)
    case Success(tid) =>
      match SpanIdFromHex(seg.id)
      case Failure(e) => Failure(e)
      case Success(sid) =>
        if !Timed(seg) then Success([])
        else
          match ResolveParent(seg, parentId)
          case Failure(e) => Failure(e)
          case Success(parent) =>
            match SubsegmentsToSpans(seg.subsegments, tid, sid)
            case Failure(e) => Failure(e)
            case Success(children) => Success(children + [OwnSpan(seg, tid, sid, parent)])
  }

  /** The loop over a segment's subsegments: each is converted under the
      parent's trace id and span id, and the first failure aborts. */
  function SubsegmentsToSpans(subs: seq<Segment>, tid: seq<byte>, sid: seq<byte>): (r: Result<seq<Span>, IdError>)
    ensures r.Success? ==> OfTrace(r.value, tid)
    decreases subs
  {
    if subs == [] then Success([])
    else
      match SubsegmentsToSpans(subs[..|subs| - 1], tid, sid)
      case Failure(e) => Failure(e)
      case Success(earlier) =>
        match SegmentToSpans(subs[|subs| - 1], Some(tid), Some(sid))
        case Failure(e) => Failure(e)
        case Success(last) => Success(earlier + last)
  }

  /** A failure among the first subsegments is the failure of the whole loop. */
  lemma {:induction false} SubsegmentsFailureStays(subs: seq<Segment>, n: nat, tid: seq<byte>, sid: seq<byte>)
    requires n <= |subs| && SubsegmentsToSpans(subs[..n], tid, sid).Failure?
    ensures SubsegmentsToSpans(subs, tid, sid) == SubsegmentsToSpans(subs[..n], tid, sid)
    decreases |subs|
  {
    if n < |subs| {
      var init := subs[..|subs| - 1];
      assert init[..n] == subs[..n];
      SubsegmentsFailureStays(init, n, tid, sid);
    } else {
      assert subs[..n] == subs;
    }
  }

  /** The imperative form of segmentToSpans: parse the ids, check the times,
      build the segment's own span, set its parent, then loop over the
      subsegments appending their spans, and append the own span last. */
  method ConvertSegment(seg: Segment, traceId: Option<seq<byte>>, parentId: Option<seq<byte>>)
    returns (r: Result<seq<Span>, IdError>)
    requires traceId.Some? || seg.traceId.Some?
    ensures r == SegmentToSpans(seg, traceId, parentId)
    decreases seg
  {
    var tid: seq<byte>;
    if traceId.None? {
      var parsed := ParseXrayTraceId(seg.traceId.value);
      if parsed.Failure? {
        return Failure(parsed.error);
      }
      tid := parsed.value;
    } else {
      tid := traceId.value;
    }
    var spanId := SpanIdFromHex(seg.id);
    if spanId.Failure? {
      return Failure(spanId.error);
    }
    var sid := spanId.value;
    var name := DefaultSpanName;
    if seg.name.Some? {
      name := seg.name.value;
    }
    if seg.startTime.None? || seg.endTime.None? {
      return Success([]);
    }
    var own := BuildOwnSpan(seg, tid, sid, name, parentId);
    if own.Failure? {
      return Failure(own.error);
    }
    var spans := ConvertSubsegments(seg.subsegments, tid, sid);
    if spans.Failure? {
      return spans;
    }
    return Success(spans.value + [own.value]);
  }

  /** The span literal of segmentToSpans, then the parent id set on it. */
  method BuildOwnSpan(seg: Segment, tid: seq<byte>, sid: seq<byte>, name: string, parentId: Option<seq<byte>>)
    returns (r: Result<Span, IdError>)
    requires Timed(seg) && name == SpanName(seg)
    ensures ResolveParent(seg, parentId).Failure? ==> r == Failure(ResolveParent(seg, parentId).error)
    ensures ResolveParent(seg, parentId).Success? ==> r == Success(OwnSpan(seg, tid, sid, ResolveParent(seg, parentId).value))
  {
    var attrs := GetAttributesFromSegment(seg);
    var evts := GetEventsFromSegment(seg);
    var s := Span(tid, sid, None, name, seg.startTime.value, seg.endTime.value, Internal, Status(seg), attrs, evts);
    if seg.parentId.Some? {
      var pid := SpanIdFromHex(seg.parentId.value);
      if pid.Failure? {
        return Failure(pid.error);
      }
      s := s.(parentSpanId := Some(pid.value));
    } else if parentId.Some? {
      s := s.(parentSpanId := parentId);
    }
    return Success(s);
  }

  /** The loop of segmentToSpans over the subsegments. */
  method ConvertSubsegments(subs: seq<Segment>, tid: seq<byte>, sid: seq<byte>) returns (r: Result<seq<Span>, IdError>)
    ensures r == SubsegmentsToSpans(subs, tid, sid)
    decreases subs
  {
    var spans: seq<Span> := [];
    var i := 0;
    while i < |subs|
      invariant 0 <= i <= |subs|
      invariant SubsegmentsToSpans(subs[..i], tid, sid) == Success(spans)
    {
      assert subs[i] in subs;
      var sub := ConvertSegment(subs[i], Some(tid), Some(sid));
      assert subs[..i + 1][..i] == subs[..i];
      if sub.Failure? {
        SubsegmentsFailureStays(subs, i + 1, tid, sid);
        return Failure(sub.error);
      }
      spans := spans + sub.value;
      i := i + 1;
    }
    assert subs[..i] == subs;
    return Success(spans);
  }

  // ---------------------------------------------------------------------------
  // segmentToResourceSpan

  function ScopeOf(seg: Segment): (scope: InstrumentationScope)
    ensures scope.name == if seg.aws.Some? && seg.aws.value.xray.Some? && seg.aws.value.xray.value.sdk.Some?
      then seg.aws.value.xray.value.sdk.value else DefaultScopeName
    ensures scope.version == if seg.aws.Some? && seg.aws.value.xray.Some? && seg.aws.value.xray.value.sdkVersion.Some?
      then seg.aws.value.xray.value.sdkVersion.value else DefaultScopeVersion
  {
    var x := if seg.aws.Some? then seg.aws.value.xray else None;
    InstrumentationScope(
      if x.Some? && x.value.sdk.Some? then x.value.sdk.value else DefaultScopeName,
      if x.Some? && x.value.sdkVersion.Some? then x.value.sdkVersion.value else DefaultScopeVersion)
  }

  /** Segments reachable from an X-Ray root without dereferencing a missing
      trace id: a segment with an origin is converted as a root. */
  predicate Convertible(seg: Segment)
  {
    seg.origin.Some? ==> seg.traceId.Some?
  }

  /** segmentToResourceSpan: no group for a segment without an origin;
      otherwise one group named after the origin holding one scope with all
      the spans of the tree. */
  function SegmentToResourceSpan(seg: Segment): (r: Result<seq<ResourceSpans>, IdError>)
    requires Convertible(seg)
    ensures seg.origin.None? ==> r == Success([])
    ensures seg.origin.Some? ==> (r.Success? <==> SegmentToSpans(seg, None, None).Success?)
    ensures seg.origin.Some? && r.Success? ==>
      && |r.value| == 1
      && r.value[0].resource == [KeyValue("service.name", Str(seg.origin.value))]
      && r.value[0].scopeSpans == [ScopeSpans(ScopeOf(seg), SegmentToSpans(seg, None, None).value)]
      && r.value[0].schemaUrl == ""
  {
    if seg.origin.None? then Success([])
    else
      match SegmentToSpans(seg, None, None)
      case Failure(e) => Failure(e)
      case Success(spans) =>
        Success([ResourceSpans([KeyValue("service.name", Str(seg.origin.value))], [ScopeSpans(ScopeOf(seg), spans)], "")])
  }

  // ---------------------------------------------------------------------------
  // parseTrace

  /** The groups of a trace's segments in document order, skipping the
      segments whose conversion failed. */
  function TraceGroups(segs: seq<Segment>): seq<ResourceSpans>
    requires forall i :: 0 <= i < |segs| ==> Convertible(segs[i])
  {
    if segs == [] then []
    else
      var last := segs[|segs| - 1];
      var r := SegmentToResourceSpan(last);
      TraceGroups(segs[..|segs| - 1]) + (if r.Success? then r.value else [])
  }

  /** A trace whose log lines never dereference a missing trace id: with no
      id, every segment must convert. */
  predicate Parsable(trace: Trace)
  {
    && (forall i :: 0 <= i < |trace.segments| ==> Convertible(trace.segments[i]))
    && (trace.id.None? ==> forall i :: 0 <= i < |trace.segments| ==> SegmentToResourceSpan(trace.segments[i]).Success?)
  }

  /** parseTrace: never reports an error; collects the groups of every
      segment that converts. */
  method ParseTrace(trace: Trace) returns (groups: seq<ResourceSpans>, err: Option<IdError>)
    requires Parsable(trace)
    ensures err == None
    ensures groups == TraceGroups(trace.segments)
  {
    groups := [];
    var segs := trace.segments;
    for i := 0 to |segs|
      invariant groups == TraceGroups(segs[..i])
    {
      var r := SegmentToResourceSpan(segs[i]);
      assert segs[..i + 1][..i] == segs[..i];
      if r.Success? {
        groups := groups + r.value;
      }
    }
    assert segs[..|segs|] == segs;
    err := None;
  }
}
