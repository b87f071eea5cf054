# xray-to-otel: a verified model of the X-Ray to OTLP bridge core

The bridge polls AWS X-Ray for the trace ids of a time window, fetches those
traces and turns every X-Ray segment document into OpenTelemetry spans. This
project models its sequential core in Dafny and proves what that core
promises. The core has three parts.

- **Identifier codec and segment mapper** (`exporter/segment.go`).
  - `Codec` models `parseXrayTraceID`. It splits on `-`, requires exactly three fields, and hex-decodes fields two and three as one 16-byte id.
  - `Codec` also states the contract of the OpenTelemetry hex decoders `TraceIDFromHex` and `SpanIDFromHex`: fixed length, lower-case hex digits, and not all zero.
  - `Mapper` models the attribute builder, the status and the exception events. Each is a specification function beside an imperative builder method that appends step by step, proved equal to it.
  - `MapperProperties` proves what the builders promise: which keys appear, how often, and in which order.
- **Segment-tree flattener and resource grouping** (`exporter/proto.go`).
  - `Translator` models `segmentToSpans` as a recursive function and, with the same behaviour, as a method with a loop over the subsegments. It also models `segmentToResourceSpan` and `parseTrace`.
  - `TranslatorProperties` proves the tree invariants: one trace id, parent linkage, span count, post-order, error propagation and group order.
- **Id chunking and the page walk** (`exporter/traceids.go`, `exporter/summaries.go`).
  - `Chunking` models `chunkBy`, a loop over a sequence proved against a recursive specification.
  - `Collector` models the page walk as a class `Service`. The backend is an abstract function from request to response. The id-chunk channel and the error channel become one append-only event log, together with the requests sent to the backend.
  - `CollectorProperties` proves where every id goes, where every error goes, and in which order.

Where the code and a prose description of the bridge differ, the model follows
the code:

- **Trace-id decoding is not injective.** The version field is dropped, and the boundary between fields two and three is never checked. `Codec.ParseXrayTraceIdIgnoresVersionAndBoundary` proves this.
- **A segment without both times yields no span, and neither does its whole subtree** (`TranslatorProperties.UntimedYieldsNothing`). Its span id is still parsed first, so a malformed id is still an error.
- **One failing subsegment aborts the conversion of every ancestor.** Spans already converted are discarded (`TranslatorProperties.SubsegmentsFailIff`, `TranslatorProperties.ChildFailureAborts`).
- **Fault and error each append their own `error=true` attribute**, so a segment with both flags carries two (`MapperProperties.ErrorAttributeCount`).
- **A failed trace search does not stop the pass.** The error goes to the error channel, and the output (nil) is still processed. That sends a second error (`CollectorProperties.SearchFailureErrors`).

The termination of the page walk is not a property of the source, because the
backend decides when the tokens run out. Every operation of the walk therefore
takes a ghost bound `n` and requires that the token chain ends within `n`
further pages (`Collector.WalkEnds`).

## Model

| member | source | states |
|---|---|---|
| Codec.Split | exporter/segment.go:49 | the fields between hyphens; there is always at least one field |
| Codec.SplitFieldCount | exporter/segment.go:49-53 | splitting yields one field more than the number of hyphens, so three fields means exactly two hyphens |
| Codec.SplitFieldsHaveNoHyphen | exporter/segment.go:49 | no field contains the separator |
| Codec.JoinSplit | exporter/segment.go:49 | splitting loses nothing: joining the fields with hyphens gives the input back |
| Codec.SplitJoin | exporter/segment.go:49 | hyphen-free fields joined and split again come back unchanged |
| Codec.HexValue | exporter/segment.go:55 | a hex digit denotes a value below 16 |
| Codec.HexChar | exporter/segment.go:55 | the digit for a value below 16 is a lower-case hex digit that denotes that value |
| Codec.DecodeHex | exporter/segment.go:55 | two hex digits make one byte |
| Codec.EncodeHex | exporter/segment.go:55 | each byte gives two lower-case hex digits |
| Codec.DecodeEncodeHex | exporter/segment.go:55 | decoding inverts encoding for every byte sequence |
| Codec.EncodeDecodeHex | exporter/segment.go:55 | encoding inverts decoding for every even-length lower-case hex text |
| Codec.EncodeHexAppend | exporter/segment.go:55 | encoding distributes over concatenation, so the two fields decode as one id |
| Codec.TraceIdFromHex | exporter/segment.go:55 | succeeds iff the text is 32 hex digits that are not all zero; on success the id is 16 bytes that re-encode to the input; a wrong length is the length error |
| Codec.SpanIdFromHex | exporter/proto.go:106 | succeeds iff the text is 16 hex digits that are not all zero; on success the id is 8 bytes that re-encode to the input; a wrong length is the length error |
| Codec.ParseXrayTraceId | exporter/segment.go:48-56 | a field-count error unless the text has exactly two hyphens; on success the 16-byte id re-encodes to field two followed by field three |
| Codec.ParseFormatRoundTrip | exporter/segment.go:39-56 | for any hyphen-free version, a non-zero 16-byte id written as version-epoch-unique parses back to the same id |
| Codec.ParseXrayTraceIdIgnoresVersionAndBoundary | exporter/segment.go:48-56 | ids that differ only in the version or in where fields two and three split decode alike |
| Otlp.CountAppend | exporter/segment.go:58-393 | counts by key, or by key and value, add over concatenation of attribute lists |
| Otlp.ValueCountWithinKeyCount | exporter/segment.go:58-393 | a key/value pair occurs at most as often as its key, and exactly as often when every attribute under the key carries that value |
| Mapper.Status | exporter/segment.go:396-403 | the status is ERROR iff the error flag is present and true |
| Mapper.GetAttributesFromSegment | exporter/segment.go:58-393 | the builder's list equals the specification list of the segment's attributes |
| Mapper.AppendHttp | exporter/segment.go:101-124 | appends URL, status and content length, each only when present, in that order, and keeps the list before them |
| Mapper.AppendFlags | exporter/segment.go:126-143 | appends one error attribute for fault, one for error and one throttle attribute, each only when the flag is true |
| Mapper.AppendCause | exporter/segment.go:145-164 | appends the cause message, working directory and paths, each only when present |
| Mapper.AppendAws | exporter/segment.go:167-346 | appends nothing without AWS metadata; otherwise the core fields, then Beanstalk, ECS, EC2 and EKS |
| Mapper.AppendAwsCore | exporter/segment.go:167-224 | appends the top-level AWS fields in source order, with account id and remote region twice each |
| Mapper.AppendBeanstalk | exporter/segment.go:226-245 | appends environment, deployment id and version label when present |
| Mapper.AppendEcs | exporter/segment.go:247-296 | appends the eight ECS fields when present, in source order |
| Mapper.AppendEc2 | exporter/segment.go:298-323 | appends instance id, availability zone, instance size and instance id again |
| Mapper.AppendEks | exporter/segment.go:325-345 | appends cluster name, container id and pod when present |
| Mapper.AppendAnnotations | exporter/segment.go:348-359 | the loop appends one attribute per annotation entry, in visiting order, after the list so far |
| Mapper.AppendMetadata | exporter/segment.go:361-372 | the loop appends one prefixed attribute per metadata entry, in visiting order |
| Mapper.AppendTail | exporter/segment.go:374-393 | appends namespace, type and precursor ids when present, in that order |
| Mapper.GetEventsFromSegment | exporter/segment.go:405-449 | the loop's events equal one specification event per exception of the cause |
| Mapper.BuildExceptionEvent | exporter/segment.go:409-446 | the per-exception attribute list equals the specification event of that exception |
| MapperProperties.CountPutOne | exporter/segment.go:58-393 | one builder step adds one attribute, with its own key and the field's value, only when the field is present, and nothing under any other key or value |
| MapperProperties.AnnotationEntries | exporter/segment.go:348-359 | exactly one attribute per annotation entry, under the entry's own key and with its serialised value |
| MapperProperties.MetadataEntries | exporter/segment.go:361-372 | exactly one attribute per metadata entry, under `aws.metadata.` followed by the entry's key |
| MapperProperties.MetadataCountsNoPlainKey | exporter/segment.go:361-372 | a key without the metadata prefix never comes from the metadata map |
| MapperProperties.AttributesCount | exporter/segment.go:58-393 | the count of a key, or of a key/value pair, is the fixed fields' count plus the annotations' count plus the tail's count |
| MapperProperties.FixedCount | exporter/segment.go:58-346 | the count of a key or pair among the fields before the maps is the sum of each block's hits |
| MapperProperties.HeadCount | exporter/segment.go:59-99 | provider, platform, user and ARN each add their own attribute when present |
| MapperProperties.FlagsCount | exporter/segment.go:126-143 | fault and error each add error=true when set, and throttle adds aws.throttle=true |
| MapperProperties.HttpCount | exporter/segment.go:101-124 | the HTTP block adds exactly its hits to each key count |
| MapperProperties.CauseCount | exporter/segment.go:145-164 | the cause block adds exactly its hits to each key count |
| MapperProperties.AwsCount | exporter/segment.go:167-346 | the AWS block adds exactly its hits to each key count |
| MapperProperties.AwsCoreCount | exporter/segment.go:167-224 | the AWS core fields add exactly their hits to each key count |
| MapperProperties.BeanstalkCount | exporter/segment.go:226-245 | the Beanstalk fields add exactly their hits to each key count |
| MapperProperties.EcsCount | exporter/segment.go:247-296 | the ECS fields add exactly their hits to each key count |
| MapperProperties.Ec2Count | exporter/segment.go:298-323 | the EC2 fields add exactly their hits to each key count |
| MapperProperties.EksCount | exporter/segment.go:325-345 | the EKS fields add exactly their hits to each key count |
| MapperProperties.TailHitsCount | exporter/segment.go:374-393 | the tail adds one attribute under each of its keys whose field is present |
| MapperProperties.AnnotationsCarryText | exporter/segment.go:348-359 | annotation attributes are always text values, so they never add a boolean, number or list value |
| MapperProperties.KeyAndValueCounts | exporter/segment.go:58-393 | for a key outside the metadata prefix and the tail, the whole list's count, by key and by key and value, is the fixed fields' hits plus the annotations' |
| MapperProperties.ProviderFirst | exporter/segment.go:59-61 | the list begins with cloud.provider=aws; no field but an annotation adds that key again or puts another value under it |
| MapperProperties.AttributesStartWith | exporter/segment.go:59-61 | the first attribute is cloud.provider=aws |
| MapperProperties.PlatformOnlyForLambda | exporter/segment.go:63-85 | cloud.platform=aws_lambda appears once iff the origin is exactly the Lambda origin; every other origin adds nothing, and no field puts any other value under the key; annotations under the same key and value add to the counts |
| MapperProperties.ErrorAttributeCount | exporter/segment.go:126-137 | fault=true and error=true each add one error=true attribute, so both give two; no field puts another value under `error`, and annotations, being text, never add error=true |
| MapperProperties.ThrottleAttributeCount | exporter/segment.go:138-143 | throttle=true adds exactly one aws.throttle=true attribute, and no field puts another value under the key |
| MapperProperties.AccountIdTwice | exporter/segment.go:168-170 | an account id appears once as cloud.account.id and once as aws.account.id, each time with the id as its text value; none without one; annotations under the same key and value add to the counts |
| MapperProperties.RemoteRegionTwice | exporter/segment.go:171-199 | a remote region appears once as cloud.region and once as aws.remote-region, each time with the region as its text value; none without one; annotations under the same key and value add to the counts |
| MapperProperties.Ec2InstanceIdTwice | exporter/segment.go:298-323 | an EC2 instance id appears twice under aws.ec2.instance.id, both times with the id as its text value; annotations under the same key and value add to the counts |
| MapperProperties.AvailabilityZoneShared | exporter/segment.go:284-310 | ECS and EC2 zones share aws.availability-zone: one attribute for each that is present, carrying that zone as its text value; annotations under the same key and value add to the counts |
| MapperProperties.MapsFollowFixedFields | exporter/segment.go:348-372 | the annotation attributes follow the fixed fields entry by entry, then the metadata attributes |
| MapperProperties.TailComesLast | exporter/segment.go:374-393 | after the fixed fields and the two maps come exactly the present ones of namespace, type and precursor ids, in that order, under aws.namespace, aws.type and aws.precusor.ids with their values |
| MapperProperties.BareSegment | exporter/segment.go:58-393 | a segment with no optional field and empty maps yields only cloud.provider=aws |
| MapperProperties.StatusAgainstErrorAttribute | exporter/segment.go:126-137 | an ERROR status always comes with an error=true attribute; a fault alone gives the attribute but leaves the status unset |
| MapperProperties.EventsPerException | exporter/segment.go:405-449 | one event per exception, in order, and none without a cause or an exception list |
| MapperProperties.ExceptionEventsIndexed | exporter/segment.go:409-446 | the i-th event is the event of the i-th exception |
| MapperProperties.ExceptionEventCount | exporter/segment.go:410-441 | each exception field adds one attribute, with its key and value, when present, and nothing otherwise |
| MapperProperties.ExceptionEventFields | exporter/segment.go:410-441 | each of message, type, remote, truncated and skipped has exactly one attribute, carrying the field's value, when present, and none when absent; the message comes first and the skipped count last |
| MapperProperties.ExceptionEventOrder | exporter/segment.go:410-441 | the event's attributes follow the order message, type, remote, truncated, skipped |
| Translator.ResolveTraceId | exporter/proto.go:93-104 | a supplied trace id is used as is; otherwise the segment's own X-Ray trace id is decoded |
| Translator.ResolveParent | exporter/proto.go:137-147 | the segment's own parent id, decoded, when it has one, and its decoding error otherwise; without one, the caller's span id |
| Translator.SegmentToSpans | exporter/proto.go:88-161 | on success the trace id resolved and every span carries it |
| Translator.SubsegmentsToSpans | exporter/proto.go:149-157 | on success every span of the loop carries the parent's trace id |
| Translator.SubsegmentsFailureStays | exporter/proto.go:150-154 | once the loop has failed, later subsegments do not change the result |
| Translator.ConvertSegment | exporter/proto.go:88-161 | the imperative conversion returns exactly what the recursive specification does, errors included |
| Translator.BuildOwnSpan | exporter/proto.go:122-147 | the span literal with its parent set is the specification's own span; a malformed parent id is the error |
| Translator.ConvertSubsegments | exporter/proto.go:149-157 | the loop over subsegments returns exactly what the specification does, stopping at the first failure |
| Translator.ScopeOf | exporter/proto.go:51-68 | scope name and version default to AWS::Xray and xray-to-otel and are overridden by the SDK name and version when present |
| Translator.SegmentToResourceSpan | exporter/proto.go:39-86 | no group and no error without an origin; otherwise it fails iff the spans fail, and yields one group named after the origin, with one scope holding the spans, and an empty schema URL |
| Translator.ParseTrace | exporter/proto.go:16-37 | never returns an error; the groups are those of every segment that converts, in document order |
| TranslatorProperties.SpanCount | exporter/proto.go:88-161 | with decodable ids the conversion succeeds with one span per segment whose ancestors and itself are timed |
| TranslatorProperties.SubsegmentsCount | exporter/proto.go:149-157 | with decodable ids the loop succeeds with the timed span count of every subsegment |
| TranslatorProperties.TimedSizeOfAllTimed | exporter/proto.go:115-118 | when every segment is timed, every segment counts |
| TranslatorProperties.SpanPerSegment | exporter/proto.go:88-161 | with valid ids and both times everywhere, the span count equals the number of segments in the tree |
| TranslatorProperties.UntimedYieldsNothing | exporter/proto.go:106-118 | a segment missing a time yields no spans for its whole subtree, yet a malformed trace id or span id is still an error |
| TranslatorProperties.SubsegmentsFailIff | exporter/proto.go:150-154 | the subsegment loop fails iff some subsegment's conversion fails |
| TranslatorProperties.SubsegmentsFailStep | exporter/proto.go:150-154 | the loop over n+1 subsegments fails iff the first n fail or the last one fails |
| TranslatorProperties.ChildFailureAborts | exporter/proto.go:150-154 | one failing subsegment makes the whole segment's conversion fail |
| TranslatorProperties.OwnSpanLast | exporter/proto.go:111-160 | post-order: the subsegments' spans come first and the segment's own span last, with its span id, parent, name (default "unknown") and kind INTERNAL |
| TranslatorProperties.ParentsWithinConcat | exporter/proto.go:155 | parent links that stay within two span lists stay within their concatenation |
| TranslatorProperties.ParentsWithinClose | exporter/proto.go:145-159 | children whose parents are the own span, or each other, form a closed list with the own span |
| TranslatorProperties.ParentsLinkWithinTree | exporter/proto.go:137-159 | without declared parent ids, every span's parent is another span of the tree or the caller's parent |
| TranslatorProperties.SubsegmentsLink | exporter/proto.go:149-157 | without declared parent ids, the loop's spans link to each other or to the parent's span id |
| TranslatorProperties.GroupSharesRootTraceId | exporter/proto.go:39-49 | every span of a root's group carries the root's decoded X-Ray trace id |
| TranslatorProperties.TraceGroupsAppend | exporter/proto.go:22-34 | the groups of two runs of segments concatenate in document order |
| TranslatorProperties.TraceGroupsConcatenate | exporter/proto.go:22-34 | the groups of a trace are each segment's groups, concatenated in order |
| TranslatorProperties.TraceGroupCount | exporter/proto.go:22-34 | one group per segment that has an origin and converts; every other segment is skipped |
| TranslatorProperties.GroupsNamedAfterOrigins | exporter/proto.go:22-34 | every group's resource is service.name set to the origin of some segment of the trace |
| Chunking.Chunks | exporter/traceids.go:59-65 | chunkBy always returns at least one chunk |
| Chunking.ChunkBy | exporter/traceids.go:59-65 | the loop returns exactly the chunks of the specification |
| Chunking.FlattenAppend | exporter/traceids.go:59-65 | flattening distributes over concatenation of chunk lists |
| Chunking.ChunksFlatten | exporter/traceids.go:59-65 | concatenating the chunks gives back the input exactly |
| Chunking.ChunkSizes | exporter/traceids.go:60-64 | every chunk but the last holds exactly the chunk size; the last holds at most that, and is empty iff the input is |
| Chunking.ChunkCount | exporter/traceids.go:60-64 | one chunk for empty input; otherwise the ceiling of N over the chunk size |
| Collector.Ids | exporter/summaries.go:32-35 | one id per summary, in summary order |
| Collector.Sends | exporter/summaries.go:41-43 | one chunk event per chunk, in order |
| Collector.ProcessOutput | exporter/summaries.go:14-53 | the only error returned is the nil-output error |
| Collector.NextPage | exporter/traceids.go:35-57 | the first thing done is the request with the same window and the token; a backend error is returned at once |
| Collector.Collect | exporter/traceids.go:11-33 | never returns an error |
| Collector.ExtractIds | exporter/summaries.go:32-35 | the array filled by index holds the ids of the summaries |
| Collector.Service.GetTraceSummaries | exporter/traceids.go:18-21 | the backend's response to the request, with the request logged |
| Collector.Service.EmitChunks | exporter/summaries.go:41-43 | sends the chunks in order and nothing else |
| Collector.Service.CollectAndForwardTraces | exporter/traceids.go:11-33 | returns nil and leaves exactly the events of the specification |
| Collector.Service.ReadTracesNextPage | exporter/traceids.go:35-57 | returns the specification's error and leaves exactly its events |
| Collector.Service.FollowNextPage | exporter/summaries.go:45-51 | reads the next page and sends its error, if any, on the error channel |
| Collector.Service.ProcessTraceSummaryOutput | exporter/summaries.go:14-53 | returns the specification's error and leaves exactly its events |
| CollectorProperties.ChunkedIdsAppend | exporter/summaries.go:41-43 | the ids sent add over concatenation of event logs |
| CollectorProperties.ChunkedIdsOfSends | exporter/summaries.go:41-43 | the ids sent by chunk events are the flattened chunks |
| CollectorProperties.NoChunkIds | exporter/summaries.go:41-43 | requests and errors carry no ids |
| CollectorProperties.SendsCarryIds | exporter/summaries.go:32-43 | the chunks of a page carry exactly the page's ids, in order |
| CollectorProperties.ProcessSendsWalkIds | exporter/summaries.go:14-53 | every id of every page reached is sent exactly once, page after page, in order |
| CollectorProperties.NextSendsWalkIds | exporter/traceids.go:35-57 | reading a next page sends exactly the ids of that page and of the pages after it |
| CollectorProperties.CollectSendsWalkIds | exporter/traceids.go:11-33 | a search error does not stop the walk: the ids of every page reached are all sent |
| CollectorProperties.PageSendsBounded | exporter/summaries.go:39-43 | every chunk sent for a non-empty page holds one to five ids |
| CollectorProperties.WellFormedAppend | exporter/summaries.go:39-47 | bounded chunks and same-window requests stay so under concatenation |
| CollectorProperties.ProcessWellFormed | exporter/summaries.go:39-47 | over the whole walk every chunk holds one to five ids and every request reuses the window |
| CollectorProperties.NextWellFormed | exporter/traceids.go:43-47 | the same for a walk that starts with a next-page request |
| CollectorProperties.EarlyExits | exporter/summaries.go:23-30 | nil output is an error and sends nothing; an empty page sends nothing and does not follow its token |
| CollectorProperties.PageOrder | exporter/summaries.go:39-51 | all the page's chunks go out before anything else, and the next page is requested iff there is a token, with the same window |
| CollectorProperties.NextPageErrorToSink | exporter/summaries.go:45-52 | a failing next-page request is sent on the error channel and the page still returns no error |
| CollectorProperties.SearchFailureErrors | exporter/traceids.go:18-30 | a failed search with nil output sends the search error and then the nil-output error, and returns nil |

## Left out

- parseSegmentDocument: JSON decoding is a foreign call. Segments are an already-decoded recursive datatype, so the nil segment that parseTrace would dereference after a failed decode cannot arise.
- parseXrayTimestamp: float64 arithmetic. Start and end times are opaque decoded integers, and only their presence matters.
- json.Marshal of annotation and metadata values: each entry carries its serialised value as text. On a marshalling error the source logs it and still appends the attribute, with the empty text, so every entry still yields exactly one attribute; only the error text and which values fail to marshal are abstracted.
- Go map iteration order: annotations and metadata are sequences in the order the loop visits them. Every property holds for every order, and none states an order between entries.
- The OpenTelemetry Value and KeyValues helpers: attributes are modelled directly as key and value pairs.
- Translator.ParseTrace: requires that no log line dereferences a missing trace id, and that every segment with an origin has a trace id. The source panics in those cases.
- Codec.Split: counts characters, not bytes. Hyphens are ASCII, so the split points are the same.
- Codec.TraceIdFromHex and Codec.SpanIdFromHex: check the length in characters, where Go checks it in bytes. On non-ASCII input the model reports the length error where Go reports the invalid-hex error; on ASCII input the two agree.
- Translator.SegmentToSpans: a segment's span id is a plain string, so the nil-pointer panic of exporter/proto.go:106 on a segment without an `id` cannot arise.
- Collector.Ids: a summary's id is a plain string, so the nil-pointer panic of exporter/summaries.go:34 on a summary without an `Id` cannot arise.
- processTraceIdChunk and the no-op WaitGroup in processTraceSummaryOutput: a one-call wrapper over BatchGetTraces.
- exporter/service.go: goroutines, channels, tickers and counters. The channels become the event log of Collector.Service, and sends never block.
- Debug logging in parseTrace, segmentToSpans and the page walk: it has no effect on results.
- Collector.Service.CollectAndForwardTraces: the ghost bound `n` on the length of the token chain is a modelling device; the source loops as long as the backend hands out tokens.
- exporter/exporter.go, exporter/config.go and cmd/main.go: client construction, configuration and start-up.
