/** What segmentToSpans, segmentToResourceSpan and parseTrace promise,
    proved about the specification functions of module Translator. */
module TranslatorProperties {
  import opened Wrappers
  import opened Codec
  import opened XRay
  import opened Otlp
  import opened Mapper
  import opened Translator

  // ---------------------------------------------------------------------------
  // Shape of the tree

  /** Every span id and every declared parent id in the tree decodes. */
  predicate ValidIds(seg: Segment)
    decreases seg
  {
    && SpanIdFromHex(seg.id).Success?
    && (seg.parentId.Some? ==> SpanIdFromHex(seg.parentId.value).Success?)
    && forall k :: 0 <= k < |seg.subsegments| ==> ValidIds(seg.subsegments[k])
  }

  predicate AllTimed(seg: Segment)
    decreases seg
  {
    Timed(seg) && forall k :: 0 <= k < |seg.subsegments| ==> AllTimed(seg.subsegments[k])
  }

  /** No segment in the tree declares its own parent id. */
  predicate NoDeclaredParents(seg: Segment)
    decreases seg
  {
    seg.parentId.None? && forall k :: 0 <= k < |seg.subsegments| ==> NoDeclaredParents(seg.subsegments[k])
  }

  function TreeSize(seg: Segment): nat
    decreases seg
  {
    1 + TreeSizes(seg.subsegments)
  }

  function TreeSizes(subs: seq<Segment>): nat
    decreases subs
  {
    if subs == [] then 0 else TreeSizes(subs[..|subs| - 1]) + TreeSize(subs[|subs| - 1])
  }

  /** The segments that yield a span: those whose every ancestor, and
      themselves, carry both times. */
  function TimedSize(seg: Segment): nat
    decreases seg
  {
    if Timed(seg) then 1 + TimedSizes(seg.subsegments) else 0
  }

  function TimedSizes(subs: seq<Segment>): nat
    decreases subs
  {
    if subs == [] then 0 else TimedSizes(subs[..|subs| - 1]) + TimedSize(subs[|subs| - 1])
  }

  // ---------------------------------------------------------------------------
  // Span count

  /** With valid ids, conversion succeeds with one span per segment whose
      ancestors are all timed. */
  lemma {:induction false} SpanCount(seg: Segment, traceId: Option<seq<byte>>, parentId: Option<seq<byte>>)
    requires traceId.Some? || seg.traceId.Some?
    requires ResolveTraceId(seg, traceId).Success? && ValidIds(seg)
    ensures SegmentToSpans(seg, traceId, parentId).Success?
    ensures |SegmentToSpans(seg, traceId, parentId).value| == TimedSize(seg)
    decreases seg, 1
  {
    if Timed(seg) {
      SubsegmentsCount(seg.subsegments, ResolveTraceId(seg, traceId).value, SpanIdFromHex(seg.id).value);
    }
  }

  lemma {:induction false} SubsegmentsCount(subs: seq<Segment>, tid: seq<byte>, sid: seq<byte>)
    requires forall k :: 0 <= k < |subs| ==> ValidIds(subs[k])
    ensures SubsegmentsToSpans(subs, tid, sid).Success?
    ensures |SubsegmentsToSpans(subs, tid, sid).value| == TimedSizes(subs)
    decreases subs, 0
  {
    if subs != [] {
      SubsegmentsCount(subs[..|subs| - 1], tid, sid);
      assert subs[|subs| - 1] in subs;
      SpanCount(subs[|subs| - 1], Some(tid), Some(sid));
    }
  }

  /** When every segment is timed, every segment yields exactly one span. */
  lemma {:induction false} TimedSizeOfAllTimed(seg: Segment)
    requires AllTimed(seg)
    ensures TimedSize(seg) == TreeSize(seg)
    decreases seg, 1
  {
    TimedSizesOfAllTimed(seg.subsegments);
  }

  lemma {:induction false} TimedSizesOfAllTimed(subs: seq<Segment>)
    requires forall k :: 0 <= k < |subs| ==> AllTimed(subs[k])
    ensures TimedSizes(subs) == TreeSizes(subs)
    decreases subs, 0
  {
    if subs != [] {
      TimedSizesOfAllTimed(subs[..|subs| - 1]);
      assert subs[|subs| - 1] in subs;
      TimedSizeOfAllTimed(subs[|subs| - 1]);
    }
  }

  /** Valid ids and both times everywhere: one span per segment of the tree. */
  lemma SpanPerSegment(seg: Segment, traceId: Option<seq<byte>>, parentId: Option<seq<byte>>)
    requires traceId.Some? || seg.traceId.Some?
    requires ResolveTraceId(seg, traceId).Success? && ValidIds(seg) && AllTimed(seg)
    ensures SegmentToSpans(seg, traceId, parentId).Success?
    ensures |SegmentToSpans(seg, traceId, parentId).value| == TreeSize(seg)
  {
    SpanCount(seg, traceId, parentId);
    TimedSizeOfAllTimed(seg);
  }

  // ---------------------------------------------------------------------------
  // Errors and dropped subtrees

  /** A segment without both times yields no span at all, for its whole
      subtree, once its ids parse; a malformed span id still fails. */
  lemma UntimedYieldsNothing(seg: Segment, traceId: Option<seq<byte>>, parentId: Option<seq<byte>>)
    requires traceId.Some? || seg.traceId.Some?
    requires !Timed(seg)
    ensures var r := SegmentToSpans(seg, traceId, parentId);
      && (r.Success? <==> ResolveTraceId(seg, traceId).Success? && SpanIdFromHex(seg.id).Success?)
      && (r.Success? ==> r.value == [])
  {
  }

  /** The loop over subsegments fails exactly when one subsegment fails. */
  lemma {:induction false} SubsegmentsFailIff(subs: seq<Segment>, tid: seq<byte>, sid: seq<byte>)
    ensures SubsegmentsToSpans(subs, tid, sid).Failure?
      <==> exists k :: 0 <= k < |subs| && SegmentToSpans(subs[k], Some(tid), Some(sid)).Failure?
    decreases |subs|
  {
    if subs != [] {
      var init, last := subs[..|subs| - 1], |subs| - 1;
      SubsegmentsFailIff(init, tid, sid);
      SubsegmentsFailStep(subs, tid, sid);
      if SubsegmentsToSpans(subs, tid, sid).Failure? {
        if SubsegmentsToSpans(init, tid, sid).Failure? {
          var k :| 0 <= k < |init| && SegmentToSpans(init[k], Some(tid), Some(sid)).Failure?;
          assert subs[k] == init[k];
        } else {
          assert SegmentToSpans(subs[last], Some(tid), Some(sid)).Failure?;
        }
      } else {
        forall k | 0 <= k < |subs|
          ensures SegmentToSpans(subs[k], Some(tid), Some(sid)).Success?
        {
          if k < last {
            assert subs[k] == init[k];
          }
        }
      }
    }
  }

  lemma SubsegmentsFailStep(subs: seq<Segment>, tid: seq<byte>, sid: seq<byte>)
    requires subs != []
    ensures SubsegmentsToSpans(subs, tid, sid).Failure?
      <==> (SubsegmentsToSpans(subs[..|subs| - 1], tid, sid).Failure?
            || SegmentToSpans(subs[|subs| - 1], Some(tid), Some(sid)).Failure?)
  {
  }

  /** One failing subsegment makes the whole conversion fail: no partial
      list of the siblings already converted survives. */
  lemma ChildFailureAborts(seg: Segment, traceId: Option<seq<byte>>, parentId: Option<seq<byte>>, k: nat)
    requires traceId.Some? || seg.traceId.Some?
    requires ResolveTraceId(seg, traceId).Success? && SpanIdFromHex(seg.id).Success?
    requires Timed(seg) && ResolveParent(seg, parentId).Success?
    requires k < |seg.subsegments|
    requires SegmentToSpans(seg.subsegments[k], Some(ResolveTraceId(seg, traceId).value), Some(SpanIdFromHex(seg.id).value)).Failure?
    ensures SegmentToSpans(seg, traceId, parentId).Failure?
  {
    SubsegmentsFailIff(seg.subsegments, ResolveTraceId(seg, traceId).value, SpanIdFromHex(seg.id).value);
  }

  // ---------------------------------------------------------------------------
  // Order and parents

  /** Post-order: the segment's own span comes last, after all the spans of
      its subsegments; it carries the segment's own span id and resolved parent. */
  lemma OwnSpanLast(seg: Segment, traceId: Option<seq<byte>>, parentId: Option<seq<byte>>)
    requires traceId.Some? || seg.traceId.Some?
    requires SegmentToSpans(seg, traceId, parentId).Success? && Timed(seg)
    ensures var spans := SegmentToSpans(seg, traceId, parentId).value;
      var sid := SpanIdFromHex(seg.id).value;
      && |spans| >= 1
      && spans[..|spans| - 1] == SubsegmentsToSpans(seg.subsegments, ResolveTraceId(seg, traceId).value, sid).value
      && spans[|spans| - 1].spanId == sid
      && spans[|spans| - 1].parentSpanId == ResolveParent(seg, parentId).value
      && spans[|spans| - 1].name == (if seg.name.Some? then seg.name.value else DefaultSpanName)
      && spans[|spans| - 1].kind == Internal
  {
    var spans := SegmentToSpans(seg, traceId, parentId).value;
    var children := SubsegmentsToSpans(seg.subsegments, ResolveTraceId(seg, traceId).value, SpanIdFromHex(seg.id).value).value;
    assert spans == children + [spans[|spans| - 1]];
    assert spans[..|spans| - 1] == children;
  }

  /** `p` is the parent reference of some span in `spans`. */
  predicate SpanIdIn(spans: seq<Span>, p: seq<byte>)
  {
    exists j :: 0 <= j < |spans| && spans[j].spanId == p
  }

  /** Every span's parent is either `top` or another span of the list. */
  predicate ParentsWithin(spans: seq<Span>, top: Option<seq<byte>>)
  {
    forall i :: 0 <= i < |spans| ==>
      spans[i].parentSpanId == top || (spans[i].parentSpanId.Some? && SpanIdIn(spans, spans[i].parentSpanId.value))
  }

  /** Two lists whose parents are within themselves or `top` concatenate. */
  lemma ParentsWithinConcat(a: seq<Span>, b: seq<Span>, top: Option<seq<byte>>)
    requires ParentsWithin(a, top) && ParentsWithin(b, top)
    ensures ParentsWithin(a + b, top)
  {
    var ab := a + b;
    forall i | 0 <= i < |ab|
      ensures ab[i].parentSpanId == top || (ab[i].parentSpanId.Some? && SpanIdIn(ab, ab[i].parentSpanId.value))
    {
      if i < |a| {
        assert ab[i] == a[i];
        if a[i].parentSpanId != top {
          var j :| 0 <= j < |a| && a[j].spanId == a[i].parentSpanId.value;
          assert ab[j] == a[j];
        }
      } else {
        assert ab[i] == b[i - |a|];
        if b[i - |a|].parentSpanId != top {
          var j :| 0 <= j < |b| && b[j].spanId == b[i - |a|].parentSpanId.value;
          assert ab[|a| + j] == b[j];
        }
      }
    }
  }

  /** Closing a list of children under their parent's span: the children's
      parent becomes a span of the list, and only the parent's own span
      points outside. */
  lemma ParentsWithinClose(children: seq<Span>, own: Span, top: Option<seq<byte>>)
    requires ParentsWithin(children, Some(own.spanId)) && own.parentSpanId == top
    ensures ParentsWithin(children + [own], top)
  {
    var all := children + [own];
    forall i | 0 <= i < |all|
      ensures all[i].parentSpanId == top || (all[i].parentSpanId.Some? && SpanIdIn(all, all[i].parentSpanId.value))
    {
      if i < |children| {
        assert all[i] == children[i];
        if children[i].parentSpanId == Some(own.spanId) {
          assert all[|all| - 1] == own;
        } else {
          var j :| 0 <= j < |children| && children[j].spanId == children[i].parentSpanId.value;
          assert all[j] == children[j];
        }
      }
    }
  }

  /** With no declared parent ids, the spans of a tree form a closed tree:
      every span's parent is another span of the same list, except the
      segment's own span, whose parent is the one passed down. */
  lemma {:induction false} ParentsLinkWithinTree(seg: Segment, traceId: Option<seq<byte>>, parentId: Option<seq<byte>>)
    requires traceId.Some? || seg.traceId.Some?
    requires NoDeclaredParents(seg)
    ensures SegmentToSpans(seg, traceId, parentId).Success? ==> ParentsWithin(SegmentToSpans(seg, traceId, parentId).value, parentId)
    decreases seg, 1
  {
    var r := SegmentToSpans(seg, traceId, parentId);
    if r.Success? && Timed(seg) {
      var tid, sid := ResolveTraceId(seg, traceId).value, SpanIdFromHex(seg.id).value;
      var children := SubsegmentsToSpans(seg.subsegments, tid, sid).value;
      var own := OwnSpan(seg, tid, sid, parentId);
      assert r.value == children + [own];
      SubsegmentsLink(seg.subsegments, tid, sid);
      ParentsWithinClose(children, own, parentId);
    }
  }

  lemma {:induction false} SubsegmentsLink(subs: seq<Segment>, tid: seq<byte>, sid: seq<byte>)
    requires forall k :: 0 <= k < |subs| ==> NoDeclaredParents(subs[k])
    ensures SubsegmentsToSpans(subs, tid, sid).Success? ==> ParentsWithin(SubsegmentsToSpans(subs, tid, sid).value, Some(sid))
    decreases subs, 0
  {
    var r := SubsegmentsToSpans(subs, tid, sid);
    if subs != [] && r.Success? {
      var init := subs[..|subs| - 1];
      var earlier := SubsegmentsToSpans(init, tid, sid).value;
      assert subs[|subs| - 1] in subs;
      var last := SegmentToSpans(subs[|subs| - 1], Some(tid), Some(sid)).value;
      SubsegmentsLink(init, tid, sid);
      ParentsLinkWithinTree(subs[|subs| - 1], Some(tid), Some(sid));
      assert r.value == earlier + last;
      ParentsWithinConcat(earlier, last, Some(sid));
    }
  }

  // ---------------------------------------------------------------------------
  // Resource groups and traces

  /** All spans of a root's group carry the root's own X-Ray trace id, decoded. */
  lemma GroupSharesRootTraceId(seg: Segment)
    requires Convertible(seg) && seg.origin.Some?
    requires SegmentToResourceSpan(seg).Success?
    ensures var spans := SegmentToResourceSpan(seg).value[0].scopeSpans[0].spans;
      ParseXrayTraceId(seg.traceId.value).Success?
      && forall i :: 0 <= i < |spans| ==> spans[i].traceId == ParseXrayTraceId(seg.traceId.value).value
  {
  }

  predicate AllConvertible(segs: seq<Segment>)
  {
    forall i :: 0 <= i < |segs| ==> Convertible(segs[i])
  }

  /** Document order: the groups of two runs of segments concatenate. */
  lemma TraceGroupsAppend(a: seq<Segment>, b: seq<Segment>)
    requires AllConvertible(a) && AllConvertible(b)
    ensures AllConvertible(a + b)
    ensures TraceGroups(a + b) == TraceGroups(a) + TraceGroups(b)
  {
    assert AllConvertible(a + b) by {
      forall i | 0 <= i < |a + b| ensures Convertible((a + b)[i]) {
        if i >= |a| {
          assert (a + b)[i] == b[i - |a|];
        }
      }
    }
    TraceGroupsConcatenate(a + b);
    TraceGroupsConcatenate(a);
    TraceGroupsConcatenate(b);
    ConcatEachAppend(SegmentGroups, a, b);
  }

  /** The groups one segment contributes to its trace. */
  function SegmentGroups(seg: Segment): seq<ResourceSpans>
  {
    if !Convertible(seg) then []
    else
      var r := SegmentToResourceSpan(seg);
      if r.Success? then r.value else []
  }

  /** The results of `f` on each element, concatenated in order. */
  function ConcatEach<T, U>(f: T -> seq<U>, xs: seq<T>): seq<U>
  {
    if xs == [] then [] else ConcatEach(f, xs[..|xs| - 1]) + f(xs[|xs| - 1])
  }

  lemma {:induction false} ConcatEachAppend<T, U>(f: T -> seq<U>, a: seq<T>, b: seq<T>)
    ensures ConcatEach(f, a + b) == ConcatEach(f, a) + ConcatEach(f, b)
    decreases |b|
  {
    if b == [] {
      assert a + b == a;
    } else {
      var init := b[..|b| - 1];
      ConcatEachAppend(f, a, init);
      assert (a + b)[..|a + b| - 1] == a + init;
      assert (a + b)[|a + b| - 1] == b[|b| - 1];
    }
  }

  /** TraceGroups concatenates the groups of each segment in document order. */
  lemma {:induction false} TraceGroupsConcatenate(segs: seq<Segment>)
    requires AllConvertible(segs)
    ensures TraceGroups(segs) == ConcatEach(SegmentGroups, segs)
  {
    if segs != [] {
      TraceGroupsConcatenate(segs[..|segs| - 1]);
    }
  }

  /** The number of segments that produce a group: an origin and a
      successful conversion. */
  function Grouped(segs: seq<Segment>): nat
    requires AllConvertible(segs)
  {
    if segs == [] then 0
    else
      var last := segs[|segs| - 1];
      Grouped(segs[..|segs| - 1]) + (if last.origin.Some? && SegmentToResourceSpan(last).Success? then 1 else 0)
  }

  /** One group per segment that has an origin and converts; the others are skipped. */
  lemma {:induction false} TraceGroupCount(segs: seq<Segment>)
    requires AllConvertible(segs)
    ensures |TraceGroups(segs)| == Grouped(segs)
  {
    if segs != [] {
      TraceGroupCount(segs[..|segs| - 1]);
    }
  }

  /** Every group is named after the origin of a segment of the trace. */
  lemma {:induction false} GroupsNamedAfterOrigins(segs: seq<Segment>)
    requires AllConvertible(segs)
    ensures forall g :: 0 <= g < |TraceGroups(segs)| ==> NamedAfterSomeOrigin(TraceGroups(segs)[g], segs)
  {
    if segs != [] {
      var init, last := segs[..|segs| - 1], segs[|segs| - 1];
      GroupsNamedAfterOrigins(init);
      var r := SegmentToResourceSpan(last);
      var groups := TraceGroups(segs);
      assert groups == TraceGroups(init) + (if r.Success? then r.value else []);
      forall g | 0 <= g < |groups|
        ensures NamedAfterSomeOrigin(groups[g], segs)
      {
        if g < |TraceGroups(init)| {
          assert groups[g] == TraceGroups(init)[g];
          var i :| 0 <= i < |init| && init[i].origin.Some?
            && groups[g].resource == [KeyValue("service.name", Str(init[i].origin.value))];
          assert segs[i] == init[i];
        } else {
          assert r.Success? && last.origin.Some? && |r.value| == 1;
          assert groups[g] == r.value[0];
          assert segs[|segs| - 1] == last;
        }
      }
    }
  }

  predicate NamedAfterSomeOrigin(group: ResourceSpans, segs: seq<Segment>)
  {
    exists i :: 0 <= i < |segs| && segs[i].origin.Some?
      && group.resource == [KeyValue("service.name", Str(segs[i].origin.value))]
  }
}
