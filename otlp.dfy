/** The OpenTelemetry protocol values the bridge produces: attributes, span
    events, spans and their resource/scope grouping. */
module Otlp {
  import opened Wrappers
  import Codec

  datatype Value =
    | Str(s: string)
    | Int(i: int)
    | Bool(b: bool)
    | StrList(ss: seq<string>)

  /** One attribute; a list of them may repeat a key and keeps insertion order. */
  datatype KeyValue = KeyValue(key: string, value: Value)

  datatype Event = Event(attributes: seq<KeyValue>)

  datatype StatusCode = Unset | StatusError

  datatype SpanKind = Internal

  datatype Span = Span(
    traceId: seq<Codec.byte>,
    spanId: seq<Codec.byte>,
    parentSpanId: Option<seq<Codec.byte>>,
    name: string,
    startTimeUnixNano: int,
    endTimeUnixNano: int,
    kind: SpanKind,
    status: StatusCode,
    attributes: seq<KeyValue>,
    events: seq<Event>)

  datatype InstrumentationScope = InstrumentationScope(name: string, version: string)

  datatype ScopeSpans = ScopeSpans(scope: InstrumentationScope, spans: seq<Span>)

  datatype ResourceSpans = ResourceSpans(
    resource: seq<KeyValue>,
    scopeSpans: seq<ScopeSpans>,
    schemaUrl: string)

  /** Which attributes a count selects: every attribute under a key, or only
      those under the key that also carry a given value. */
  datatype Selector = AnyValue(key: string) | WithValue(key: string, value: Value)

  predicate Selects(s: Selector, kv: KeyValue)
  {
    kv.key == s.key && (s.WithValue? ==> kv.value == s.value)
  }

  /** How many attributes in `attrs` the selector `s` picks out. */
  function Count(attrs: seq<KeyValue>, s: Selector): nat
  {
    if attrs == [] then 0
    else (if Selects(s, attrs[0]) then 1 else 0) + Count(attrs[1..], s)
  }

  lemma {:induction false} CountAppend(a: seq<KeyValue>, b: seq<KeyValue>, s: Selector)
    ensures Count(a + b, s) == Count(a, s) + Count(b, s)
  {
    if a == [] {
      assert a + b == b;
    } else {
      assert (a + b)[1..] == a[1..] + b;
      CountAppend(a[1..], b, s);
    }
  }

  /** A key/value pair never occurs more often than its key; it occurs exactly
      as often when every attribute under the key carries that value. */
  lemma {:induction false} ValueCountWithinKeyCount(attrs: seq<KeyValue>, k: string, v: Value)
    ensures Count(attrs, WithValue(k, v)) <= Count(attrs, AnyValue(k))
    ensures (forall i :: 0 <= i < |attrs| && attrs[i].key == k ==> attrs[i].value == v) ==>
      Count(attrs, WithValue(k, v)) == Count(attrs, AnyValue(k))
  {
    if attrs != [] {
      ValueCountWithinKeyCount(attrs[1..], k, v);
      if forall i :: 0 <= i < |attrs| && attrs[i].key == k ==> attrs[i].value == v {
        forall i | 0 <= i < |attrs[1..]| && attrs[1..][i].key == k
          ensures attrs[1..][i].value == v
        {
          assert attrs[1..][i] == attrs[i + 1];
        }
      }
    }
  }
}
