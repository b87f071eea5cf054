/** What the attribute, status and event mapping of exporter/segment.go
    promises, proved about the specification functions of module Mapper. */
module MapperProperties {
  import opened Wrappers
  import opened XRay
  import opened Otlp
  import opened Mapper

  // ---------------------------------------------------------------------------
  // Counting attributes by key, or by key and value, across the builder steps

  /** One builder step adds one to a count when its field is present and the
      selector picks out its attribute, and nothing otherwise. */
  lemma CountPutOne(acc: seq<KeyValue>, key: string, v: Option<Value>, s: Selector)
    ensures Count(Put(acc, key, v), s) == Count(acc, s) + Hit(key, s, v)
  {
    if v.Some? {
      CountAppend(acc, [KeyValue(key, v.value)], s);
    }
  }

  /** 1 when the step `Put(_, key, v)` adds an attribute that `s` selects. */
  function Hit(key: string, s: Selector, v: Option<Value>): nat
  {
    if v.Some? && Selects(s, KeyValue(key, v.value)) then 1 else 0
  }

  /** `k` differs from the metadata prefix at position `i`, so it cannot be a
      metadata key. */
  predicate DiffersFromPrefixAt(k: string, i: nat)
  {
    i < |MetadataPrefix| && i < |k| && k[i] != MetadataPrefix[i]
  }

  /** Every annotation entry contributes exactly one attribute: its own key and
      its JSON text, in visiting order. */
  lemma {:induction false} AnnotationEntries(entries: seq<Entry>)
    ensures |AnnotationAttrs(entries)| == |entries|
    ensures forall i :: 0 <= i < |entries| ==>
      AnnotationAttrs(entries)[i] == KeyValue(entries[i].key, Str(entries[i].json))
  {
    if entries != [] {
      AnnotationEntries(entries[..|entries| - 1]);
    }
  }

  /** Every metadata entry contributes exactly one attribute, under
      "aws.metadata.<key>", in visiting order. */
  lemma {:induction false} MetadataEntries(entries: seq<Entry>)
    ensures |MetadataAttrs(entries)| == |entries|
    ensures forall i :: 0 <= i < |entries| ==>
      MetadataAttrs(entries)[i] == KeyValue(MetadataPrefix + entries[i].key, Str(entries[i].json))
  {
    if entries != [] {
      MetadataEntries(entries[..|entries| - 1]);
    }
  }

  /** A key without the metadata prefix never comes from the metadata map. */
  lemma {:induction false} MetadataCountsNoPlainKey(entries: seq<Entry>, s: Selector, i: nat)
    requires DiffersFromPrefixAt(s.key, i)
    ensures Count(MetadataAttrs(entries), s) == 0
  {
    if entries != [] {
      var last := entries[|entries| - 1];
      MetadataCountsNoPlainKey(entries[..|entries| - 1], s, i);
      CountAppend(MetadataAttrs(entries[..|entries| - 1]), [KeyValue(MetadataPrefix + last.key, Str(last.json))], s);
      assert (MetadataPrefix + last.key)[i] == MetadataPrefix[i];
    }
  }

  /** The number of attributes under selector `s` that the annotation map contributes. */
  function AnnotationCount(seg: Segment, s: Selector): nat
  {
    Count(AnnotationAttrs(seg.annotations), s)
  }

  /** Decomposition of a count over the fixed fields, the two maps and the tail. */
  lemma AttributesCount(seg: Segment, s: Selector, i: nat)
    requires DiffersFromPrefixAt(s.key, i)
    ensures Count(Attributes(seg), s)
      == FixedHits(seg, s) + AnnotationCount(seg, s)
         + Hit("aws.namespace", s, Text(seg.namespace)) + Hit("aws.type", s, Text(seg.segmentType))
         + Hit("aws.precusor.ids", s, Texts(seg.precursorIds))
  {
    var fixed, anns := FixedAttributes(seg), AnnotationAttrs(seg.annotations);
    TailHitsCount(fixed + anns + MetadataAttrs(seg.metadata), seg, s);
    CountAppend(fixed + anns, MetadataAttrs(seg.metadata), s);
    CountAppend(fixed, anns, s);
    MetadataCountsNoPlainKey(seg.metadata, s, i);
    FixedCount(seg, s);
  }

  lemma TailHitsCount(acc: seq<KeyValue>, seg: Segment, s: Selector)
    ensures Count(WithTail(acc, seg), s)
      == Count(acc, s) + Hit("aws.namespace", s, Text(seg.namespace))
         + Hit("aws.type", s, Text(seg.segmentType)) + Hit("aws.precusor.ids", s, Texts(seg.precursorIds))
  {
    CountPutOne(acc, "aws.namespace", Text(seg.namespace), s);
    var a1 := Put(acc, "aws.namespace", Text(seg.namespace));
    CountPutOne(a1, "aws.type", Text(seg.segmentType), s);
    var a2 := Put(a1, "aws.type", Text(seg.segmentType));
    CountPutOne(a2, "aws.precusor.ids", Texts(seg.precursorIds), s);
  }

  /** The number of attributes that `s` selects that the fields before the
      annotations contribute, step by step. */
  function FixedHits(seg: Segment, s: Selector): nat
  {
    Hit("cloud.provider", s, Some(Str("aws")))
    + Hit("cloud.platform", s, if seg.origin == Some(LambdaOrigin) then Some(Str("aws_lambda")) else None)
    + Hit("aws.user", s, Text(seg.user)) + Hit("aws.arn", s, Text(seg.resourceArn))
    + HttpHits(seg.http, s)
    + Hit("error", s, IfTrue(seg.fault)) + Hit("error", s, IfTrue(seg.error))
    + Hit("aws.throttle", s, IfTrue(seg.throttle))
    + CauseHits(seg.cause, s)
    + AwsHits(seg.aws, s)
  }

  lemma FixedCount(seg: Segment, s: Selector)
    ensures Count(FixedAttributes(seg), s) == FixedHits(seg, s)
  {
    var a1 := WithIdentity(WithPlatform([CloudProvider], seg.origin), seg);
    HeadCount(seg, s);
    HttpCount(a1, seg.http, s);
    var a2 := WithHttp(a1, seg.http);
    FlagsCount(a2, seg, s);
    var a3 := WithFlags(a2, seg);
    CauseCount(a3, seg.cause, s);
    AwsCount(WithCause(a3, seg.cause), seg.aws, s);
  }

  /** The provider, the platform and the identity fields. */
  lemma HeadCount(seg: Segment, s: Selector)
    ensures Count(WithIdentity(WithPlatform([CloudProvider], seg.origin), seg), s)
      == Hit("cloud.provider", s, Some(Str("aws")))
         + Hit("cloud.platform", s, if seg.origin == Some(LambdaOrigin) then Some(Str("aws_lambda")) else None)
         + Hit("aws.user", s, Text(seg.user)) + Hit("aws.arn", s, Text(seg.resourceArn))
  {
    var a1 := WithPlatform([CloudProvider], seg.origin);
    CountPutOne([], "cloud.provider", Some(Str("aws")), s);
    if seg.origin == Some(LambdaOrigin) {
      CountPutOne([CloudProvider], "cloud.platform", Some(Str("aws_lambda")), s);
    }
    CountPutOne(a1, "aws.user", Text(seg.user), s);
    var a2 := Put(a1, "aws.user", Text(seg.user));
    CountPutOne(a2, "aws.arn", Text(seg.resourceArn), s);
  }

  lemma FlagsCount(acc: seq<KeyValue>, seg: Segment, s: Selector)
    ensures Count(WithFlags(acc, seg), s)
      == Count(acc, s) + Hit("error", s, IfTrue(seg.fault)) + Hit("error", s, IfTrue(seg.error))
         + Hit("aws.throttle", s, IfTrue(seg.throttle))
  {
    CountPutOne(acc, "error", IfTrue(seg.fault), s);
    var a1 := Put(acc, "error", IfTrue(seg.fault));
    CountPutOne(a1, "error", IfTrue(seg.error), s);
    var a2 := Put(a1, "error", IfTrue(seg.error));
    CountPutOne(a2, "aws.throttle", IfTrue(seg.throttle), s);
  }

  function HttpHits(http: Option<Http>, s: Selector): nat
  {
    if http.None? then 0
    else
      var req, resp := http.value.request, http.value.response;
      (if req.Some? then Hit("http.url", s, Text(req.value.url)) else 0)
      + (if resp.Some? then Hit("http.status_code", s, Number(resp.value.status))
           + Hit("http.response_content_length", s, Number(resp.value.contentLength)) else 0)
  }

  lemma HttpCount(acc: seq<KeyValue>, http: Option<Http>, s: Selector)
    ensures Count(WithHttp(acc, http), s) == Count(acc, s) + HttpHits(http, s)
  {
    if http.Some? {
      var req, resp := http.value.request, http.value.response;
      var a1 := acc;
      if req.Some? {
        CountPutOne(acc, "http.url", Text(req.value.url), s);
        a1 := Put(acc, "http.url", Text(req.value.url));
      }
      if resp.Some? {
        CountPutOne(a1, "http.status_code", Number(resp.value.status), s);
        var a2 := Put(a1, "http.status_code", Number(resp.value.status));
        CountPutOne(a2, "http.response_content_length", Number(resp.value.contentLength), s);
      }
    }
  }

  function CauseHits(cause: Option<Cause>, s: Selector): nat
  {
    if cause.None? then 0
    else
      Hit("aws.xray.cause.exception.message", s, Text(cause.value.message))
      + Hit("aws.xray.cause.working-directory", s, Text(cause.value.workingDirectory))
      + Hit("exception.type", s, Texts(cause.value.paths))
  }

  lemma CauseCount(acc: seq<KeyValue>, cause: Option<Cause>, s: Selector)
    ensures Count(WithCause(acc, cause), s) == Count(acc, s) + CauseHits(cause, s)
  {
    if cause.Some? {
      var c := cause.value;
      CountPutOne(acc, "aws.xray.cause.exception.message", Text(c.message), s);
      var a1 := Put(acc, "aws.xray.cause.exception.message", Text(c.message));
      CountPutOne(a1, "aws.xray.cause.working-directory", Text(c.workingDirectory), s);
      var a2 := Put(a1, "aws.xray.cause.working-directory", Text(c.workingDirectory));
      CountPutOne(a2, "exception.type", Texts(c.paths), s);
    }
  }

  function AwsHits(aws: Option<Aws>, s: Selector): nat
  {
    if aws.None? then 0
    else
      var a := aws.value;
      AwsCoreHits(a, s) + BeanstalkHits(a.beanstalk, s) + EcsHits(a.ecs, s) + Ec2Hits(a.ec2, s) + EksHits(a.eks, s)
  }

  lemma AwsCount(acc: seq<KeyValue>, aws: Option<Aws>, s: Selector)
    ensures Count(WithAws(acc, aws), s) == Count(acc, s) + AwsHits(aws, s)
  {
    if aws.Some? {
      var a := aws.value;
      AwsCoreCount(acc, a, s);
      var b0 := WithAwsCore(acc, a);
      BeanstalkCount(b0, a.beanstalk, s);
      var b1 := WithBeanstalk(b0, a.beanstalk);
      EcsCount(b1, a.ecs, s);
      var b2 := WithEcs(b1, a.ecs);
      Ec2Count(b2, a.ec2, s);
      EksCount(WithEc2(b2, a.ec2), a.eks, s);
    }
  }

  function AwsCoreHits(a: Aws, s: Selector): nat
  {
    Hit("cloud.account.id", s, Text(a.accountId)) + Hit("cloud.region", s, Text(a.remoteRegion))
    + Hit("aws.resource-names", s, Texts(a.resourceNames)) + Hit("aws.operation", s, Text(a.operation))
    + Hit("aws.account.id", s, Text(a.accountId)) + Hit("aws.remote-region", s, Text(a.remoteRegion))
    + Hit("aws.request.id", s, Text(a.requestId)) + Hit("aws.queue.url", s, Text(a.queueUrl))
    + Hit("aws.table.name", s, Text(a.tableName)) + Hit("aws.retries", s, Number(a.retries))
  }

  lemma AwsCoreCount(acc: seq<KeyValue>, a: Aws, s: Selector)
    ensures Count(WithAwsCore(acc, a), s) == Count(acc, s) + AwsCoreHits(a, s)
  {
    CountPutOne(acc, "cloud.account.id", Text(a.accountId), s);
    var a1 := Put(acc, "cloud.account.id", Text(a.accountId));
    CountPutOne(a1, "cloud.region", Text(a.remoteRegion), s);
    var a2 := Put(a1, "cloud.region", Text(a.remoteRegion));
    CountPutOne(a2, "aws.resource-names", Texts(a.resourceNames), s);
    var a3 := Put(a2, "aws.resource-names", Texts(a.resourceNames));
    CountPutOne(a3, "aws.operation", Text(a.operation), s);
    var a4 := Put(a3, "aws.operation", Text(a.operation));
    CountPutOne(a4, "aws.account.id", Text(a.accountId), s);
    var a5 := Put(a4, "aws.account.id", Text(a.accountId));
    CountPutOne(a5, "aws.remote-region", Text(a.remoteRegion), s);
    var a6 := Put(a5, "aws.remote-region", Text(a.remoteRegion));
    CountPutOne(a6, "aws.request.id", Text(a.requestId), s);
    var a7 := Put(a6, "aws.request.id", Text(a.requestId));
    CountPutOne(a7, "aws.queue.url", Text(a.queueUrl), s);
    var a8 := Put(a7, "aws.queue.url", Text(a.queueUrl));
    CountPutOne(a8, "aws.table.name", Text(a.tableName), s);
    var a9 := Put(a8, "aws.table.name", Text(a.tableName));
    CountPutOne(a9, "aws.retries", Number(a.retries), s);
  }

  function BeanstalkHits(b: Option<Beanstalk>, s: Selector): nat
  {
    if b.None? then 0
    else
      Hit("aws.beanstalk.environment", s, Text(b.value.environment))
      + Hit("aws.beanstalk.deployment.id", s, Number(b.value.deploymentId))
      + Hit("aws.beanstalk.version", s, Text(b.value.versionLabel))
  }

  lemma BeanstalkCount(acc: seq<KeyValue>, b: Option<Beanstalk>, s: Selector)
    ensures Count(WithBeanstalk(acc, b), s) == Count(acc, s) + BeanstalkHits(b, s)
  {
    if b.Some? {
      var x := b.value;
      CountPutOne(acc, "aws.beanstalk.environment", Text(x.environment), s);
      var a1 := Put(acc, "aws.beanstalk.environment", Text(x.environment));
      CountPutOne(a1, "aws.beanstalk.deployment.id", Number(x.deploymentId), s);
      var a2 := Put(a1, "aws.beanstalk.deployment.id", Number(x.deploymentId));
      CountPutOne(a2, "aws.beanstalk.version", Text(x.versionLabel), s);
    }
  }

  function EcsHits(e: Option<Ecs>, s: Selector): nat
  {
    if e.None? then 0
    else
      var ecs := e.value;
      Hit("aws.ecs.container.name", s, Text(ecs.containerName))
      + Hit("aws.ecs.container.id", s, Text(ecs.containerId))
      + Hit("aws.ecs.task.arn", s, Text(ecs.taskArn))
      + Hit("aws.ecs.task.family", s, Text(ecs.taskFamily))
      + Hit("aws.ecs.cluster.arn", s, Text(ecs.clusterArn))
      + Hit("aws.ecs.container.arn", s, Text(ecs.containerArn))
      + Hit("aws.availability-zone", s, Text(ecs.availabilityZone))
      + Hit("aws.ecs.launch-type", s, Text(ecs.launchType))
  }

  lemma EcsCount(acc: seq<KeyValue>, e: Option<Ecs>, s: Selector)
    ensures Count(WithEcs(acc, e), s) == Count(acc, s) + EcsHits(e, s)
  {
    if e.Some? {
      var ecs := e.value;
      CountPutOne(acc, "aws.ecs.container.name", Text(ecs.containerName), s);
      var a1 := Put(acc, "aws.ecs.container.name", Text(ecs.containerName));
      CountPutOne(a1, "aws.ecs.container.id", Text(ecs.containerId), s);
      var a2 := Put(a1, "aws.ecs.container.id", Text(ecs.containerId));
      CountPutOne(a2, "aws.ecs.task.arn", Text(ecs.taskArn), s);
      var a3 := Put(a2, "aws.ecs.task.arn", Text(ecs.taskArn));
      CountPutOne(a3, "aws.ecs.task.family", Text(ecs.taskFamily), s);
      var a4 := Put(a3, "aws.ecs.task.family", Text(ecs.taskFamily));
      CountPutOne(a4, "aws.ecs.cluster.arn", Text(ecs.clusterArn), s);
      var a5 := Put(a4, "aws.ecs.cluster.arn", Text(ecs.clusterArn));
      CountPutOne(a5, "aws.ecs.container.arn", Text(ecs.containerArn), s);
      var a6 := Put(a5, "aws.ecs.container.arn", Text(ecs.containerArn));
      CountPutOne(a6, "aws.availability-zone", Text(ecs.availabilityZone), s);
      var a7 := Put(a6, "aws.availability-zone", Text(ecs.availabilityZone));
      CountPutOne(a7, "aws.ecs.launch-type", Text(ecs.launchType), s);
    }
  }

  function Ec2Hits(e: Option<Ec2>, s: Selector): nat
  {
    if e.None? then 0
    else
      Hit("aws.ec2.instance.id", s, Text(e.value.instanceId))
      + Hit("aws.availability-zone", s, Text(e.value.availabilityZone))
      + Hit("aws.ec2.instance.size", s, Text(e.value.instanceSize))
      + Hit("aws.ec2.instance.id", s, Text(e.value.instanceId))
  }

  lemma Ec2Count(acc: seq<KeyValue>, e: Option<Ec2>, s: Selector)
    ensures Count(WithEc2(acc, e), s) == Count(acc, s) + Ec2Hits(e, s)
  {
    if e.Some? {
      var ec2 := e.value;
      CountPutOne(acc, "aws.ec2.instance.id", Text(ec2.instanceId), s);
      var a1 := Put(acc, "aws.ec2.instance.id", Text(ec2.instanceId));
      CountPutOne(a1, "aws.availability-zone", Text(ec2.availabilityZone), s);
      var a2 := Put(a1, "aws.availability-zone", Text(ec2.availabilityZone));
      CountPutOne(a2, "aws.ec2.instance.size", Text(ec2.instanceSize), s);
      var a3 := Put(a2, "aws.ec2.instance.size", Text(ec2.instanceSize));
      CountPutOne(a3, "aws.ec2.instance.id", Text(ec2.instanceId), s);
    }
  }

  function EksHits(e: Option<Eks>, s: Selector): nat
  {
    if e.None? then 0
    else
      Hit("aws.eks.cluster.name", s, Text(e.value.clusterName))
      + Hit("aws.eks.container.id", s, Text(e.value.containerId))
      + Hit("aws.eks.pod", s, Text(e.value.pod))
  }

  lemma EksCount(acc: seq<KeyValue>, e: Option<Eks>, s: Selector)
    ensures Count(WithEks(acc, e), s) == Count(acc, s) + EksHits(e, s)
  {
    if e.Some? {
      var x := e.value;
      CountPutOne(acc, "aws.eks.cluster.name", Text(x.clusterName), s);
      var a1 := Put(acc, "aws.eks.cluster.name", Text(x.clusterName));
      CountPutOne(a1, "aws.eks.container.id", Text(x.containerId), s);
      var a2 := Put(a1, "aws.eks.container.id", Text(x.containerId));
      CountPutOne(a2, "aws.eks.pod", Text(x.pod), s);
    }
  }

  function One(b: bool): nat
  {
    if b then 1 else 0
  }

  // A key outside a block gets nothing from it.

  predicate HttpKey(k: string)
  {
    k == "http.url" || k == "http.status_code" || k == "http.response_content_length"
  }

  lemma HttpMisses(http: Option<Http>, s: Selector)
    requires !HttpKey(s.key)
    ensures HttpHits(http, s) == 0
  {
  }

  predicate CauseKey(k: string)
  {
    k == "aws.xray.cause.exception.message" || k == "aws.xray.cause.working-directory" ||
    k == "exception.type"
  }

  lemma CauseMisses(cause: Option<Cause>, s: Selector)
    requires !CauseKey(s.key)
    ensures CauseHits(cause, s) == 0
  {
  }

  predicate AwsCoreKey(k: string)
  {
    k == "cloud.account.id" || k == "cloud.region" || k == "aws.resource-names" ||
    k == "aws.operation" || k == "aws.account.id" || k == "aws.remote-region" ||
    k == "aws.request.id" || k == "aws.queue.url" || k == "aws.table.name" || k == "aws.retries"
  }

  lemma AwsCoreMisses(a: Aws, s: Selector)
    requires !AwsCoreKey(s.key)
    ensures AwsCoreHits(a, s) == 0
  {
  }

  predicate BeanstalkKey(k: string)
  {
    k == "aws.beanstalk.environment" || k == "aws.beanstalk.deployment.id" ||
    k == "aws.beanstalk.version"
  }

  lemma BeanstalkMisses(b: Option<Beanstalk>, s: Selector)
    requires !BeanstalkKey(s.key)
    ensures BeanstalkHits(b, s) == 0
  {
  }

  predicate EcsKey(k: string)
  {
    k == "aws.ecs.container.name" || k == "aws.ecs.container.id" || k == "aws.ecs.task.arn" ||
    k == "aws.ecs.task.family" || k == "aws.ecs.cluster.arn" || k == "aws.ecs.container.arn" ||
    k == "aws.availability-zone" || k == "aws.ecs.launch-type"
  }

  lemma EcsMisses(e: Option<Ecs>, s: Selector)
    requires !EcsKey(s.key)
    ensures EcsHits(e, s) == 0
  {
  }

  predicate Ec2Key(k: string)
  {
    k == "aws.ec2.instance.id" || k == "aws.availability-zone" || k == "aws.ec2.instance.size"
  }

  lemma Ec2Misses(e: Option<Ec2>, s: Selector)
    requires !Ec2Key(s.key)
    ensures Ec2Hits(e, s) == 0
  {
  }

  predicate EksKey(k: string)
  {
    k == "aws.eks.cluster.name" || k == "aws.eks.container.id" || k == "aws.eks.pod"
  }

  lemma EksMisses(e: Option<Eks>, s: Selector)
    requires !EksKey(s.key)
    ensures EksHits(e, s) == 0
  {
  }

  lemma AwsMisses(aws: Option<Aws>, s: Selector)
    requires !AwsCoreKey(s.key) && !BeanstalkKey(s.key) && !EcsKey(s.key) && !Ec2Key(s.key) && !EksKey(s.key)
    ensures AwsHits(aws, s) == 0
  {
    if aws.Some? {
      var a := aws.value;
      AwsCoreMisses(a, s);
      BeanstalkMisses(a.beanstalk, s);
      EcsMisses(a.ecs, s);
      Ec2Misses(a.ec2, s);
      EksMisses(a.eks, s);
    }
  }

  // ---------------------------------------------------------------------------
  // Key and key/value counts the source promises

  /** The selector admits value `v`: it selects by key only, or by exactly `v`. */
  predicate Admits(s: Selector, v: Value)
  {
    s.AnyValue? || s.value == v
  }

  /** Annotation attributes are always text, so they never carry another kind of value. */
  lemma {:induction false} AnnotationsCarryText(entries: seq<Entry>, s: Selector)
    requires s.WithValue? && !s.value.Str?
    ensures Count(AnnotationAttrs(entries), s) == 0
  {
    if entries != [] {
      var last := entries[|entries| - 1];
      AnnotationsCarryText(entries[..|entries| - 1], s);
      CountAppend(AnnotationAttrs(entries[..|entries| - 1]), [KeyValue(last.key, Str(last.json))], s);
    }
  }

  /** A key outside the metadata prefix and the tail keys gets, in the whole
      list, its fixed-field hits plus what the annotations add, counted by
      key alone and by key and value. */
  lemma KeyAndValueCounts(seg: Segment, k: string, v: Value, i: nat)
    requires DiffersFromPrefixAt(k, i)
    requires k != "aws.namespace" && k != "aws.type" && k != "aws.precusor.ids"
    ensures Count(Attributes(seg), AnyValue(k)) == FixedHits(seg, AnyValue(k)) + AnnotationCount(seg, AnyValue(k))
    ensures Count(Attributes(seg), WithValue(k, v))
      == FixedHits(seg, WithValue(k, v)) + AnnotationCount(seg, WithValue(k, v))
  {
    AttributesCount(seg, AnyValue(k), i);
    AttributesCount(seg, WithValue(k, v), i);
  }

  /** cloud.provider=aws comes first, and no field other than an annotation
      repeats that key or puts another value under it. */
  lemma ProviderFirst(seg: Segment, v: Value)
    ensures |Attributes(seg)| >= 1 && Attributes(seg)[0] == CloudProvider
    ensures Count(Attributes(seg), AnyValue("cloud.provider")) == 1 + AnnotationCount(seg, AnyValue("cloud.provider"))
    ensures Count(Attributes(seg), WithValue("cloud.provider", v))
      == One(v == Str("aws")) + AnnotationCount(seg, WithValue("cloud.provider", v))
  {
    AttributesStartWith(seg);
    FixedProviderCount(seg, AnyValue("cloud.provider"));
    FixedProviderCount(seg, WithValue("cloud.provider", v));
    KeyAndValueCounts(seg, "cloud.provider", v, 0);
  }

  lemma FixedProviderCount(seg: Segment, s: Selector)
    requires s.key == "cloud.provider"
    ensures FixedHits(seg, s) == One(Admits(s, Str("aws")))
  {
    ProviderKeyOutside();
    HttpMisses(seg.http, s);
    CauseMisses(seg.cause, s);
    AwsMisses(seg.aws, s);
  }

  lemma ProviderKeyOutside()
    ensures !HttpKey("cloud.provider")
      && !CauseKey("cloud.provider")
      && !AwsCoreKey("cloud.provider")
      && !BeanstalkKey("cloud.provider")
      && !EcsKey("cloud.provider")
      && !Ec2Key("cloud.provider")
      && !EksKey("cloud.provider")
  {
  }

  /** cloud.platform=aws_lambda is there exactly when the origin is the Lambda
      origin; every other origin adds nothing, and no field puts another value
      under the key. */
  lemma PlatformOnlyForLambda(seg: Segment, v: Value)
    ensures Count(Attributes(seg), AnyValue("cloud.platform"))
      == One(seg.origin == Some(LambdaOrigin)) + AnnotationCount(seg, AnyValue("cloud.platform"))
    ensures Count(Attributes(seg), WithValue("cloud.platform", v))
      == One(seg.origin == Some(LambdaOrigin) && v == Str("aws_lambda"))
         + AnnotationCount(seg, WithValue("cloud.platform", v))
  {
    FixedPlatformCount(seg, AnyValue("cloud.platform"));
    FixedPlatformCount(seg, WithValue("cloud.platform", v));
    KeyAndValueCounts(seg, "cloud.platform", v, 0);
  }

  lemma FixedPlatformCount(seg: Segment, s: Selector)
    requires s.key == "cloud.platform"
    ensures FixedHits(seg, s) == One(seg.origin == Some(LambdaOrigin) && Admits(s, Str("aws_lambda")))
  {
    PlatformKeyOutside();
    HttpMisses(seg.http, s);
    CauseMisses(seg.cause, s);
    AwsMisses(seg.aws, s);
  }

  lemma PlatformKeyOutside()
    ensures !HttpKey("cloud.platform")
      && !CauseKey("cloud.platform")
      && !AwsCoreKey("cloud.platform")
      && !BeanstalkKey("cloud.platform")
      && !EcsKey("cloud.platform")
      && !Ec2Key("cloud.platform")
      && !EksKey("cloud.platform")
  {
  }

  /** Fault and error each add one error=true attribute: both set gives two.
      No field puts another value under "error", and annotations, being text,
      never add error=true. */
  lemma ErrorAttributeCount(seg: Segment, v: Value)
    ensures Count(Attributes(seg), AnyValue("error"))
      == One(seg.fault == Some(true)) + One(seg.error == Some(true)) + AnnotationCount(seg, AnyValue("error"))
    ensures Count(Attributes(seg), WithValue("error", Bool(true)))
      == One(seg.fault == Some(true)) + One(seg.error == Some(true))
    ensures v != Bool(true) ==>
      Count(Attributes(seg), WithValue("error", v)) == AnnotationCount(seg, WithValue("error", v))
  {
    FixedErrorCount(seg, AnyValue("error"));
    FixedErrorCount(seg, WithValue("error", Bool(true)));
    FixedErrorCount(seg, WithValue("error", v));
    KeyAndValueCounts(seg, "error", Bool(true), 0);
    KeyAndValueCounts(seg, "error", v, 0);
    AnnotationsCarryText(seg.annotations, WithValue("error", Bool(true)));
  }

  lemma FixedErrorCount(seg: Segment, s: Selector)
    requires s.key == "error"
    ensures FixedHits(seg, s)
      == One(seg.fault == Some(true) && Admits(s, Bool(true))) + One(seg.error == Some(true) && Admits(s, Bool(true)))
  {
    ErrorKeyOutside();
    HttpMisses(seg.http, s);
    CauseMisses(seg.cause, s);
    AwsMisses(seg.aws, s);
  }

  lemma ErrorKeyOutside()
    ensures !HttpKey("error")
      && !CauseKey("error")
      && !AwsCoreKey("error")
      && !BeanstalkKey("error")
      && !EcsKey("error")
      && !Ec2Key("error")
      && !EksKey("error")
  {
  }

  /** throttle=true adds one aws.throttle=true attribute and nothing else under the key. */
  lemma ThrottleAttributeCount(seg: Segment, v: Value)
    ensures Count(Attributes(seg), AnyValue("aws.throttle"))
      == One(seg.throttle == Some(true)) + AnnotationCount(seg, AnyValue("aws.throttle"))
    ensures Count(Attributes(seg), WithValue("aws.throttle", Bool(true))) == One(seg.throttle == Some(true))
    ensures v != Bool(true) ==>
      Count(Attributes(seg), WithValue("aws.throttle", v)) == AnnotationCount(seg, WithValue("aws.throttle", v))
  {
    FixedThrottleCount(seg, AnyValue("aws.throttle"));
    FixedThrottleCount(seg, WithValue("aws.throttle", Bool(true)));
    FixedThrottleCount(seg, WithValue("aws.throttle", v));
    KeyAndValueCounts(seg, "aws.throttle", Bool(true), 4);
    KeyAndValueCounts(seg, "aws.throttle", v, 4);
    AnnotationsCarryText(seg.annotations, WithValue("aws.throttle", Bool(true)));
  }

  lemma FixedThrottleCount(seg: Segment, s: Selector)
    requires s.key == "aws.throttle"
    ensures FixedHits(seg, s) == One(seg.throttle == Some(true) && Admits(s, Bool(true)))
  {
    ThrottleKeyOutside();
    HttpMisses(seg.http, s);
    CauseMisses(seg.cause, s);
    AwsMisses(seg.aws, s);
  }

  lemma ThrottleKeyOutside()
    ensures !HttpKey("aws.throttle")
      && !CauseKey("aws.throttle")
      && !AwsCoreKey("aws.throttle")
      && !BeanstalkKey("aws.throttle")
      && !EcsKey("aws.throttle")
      && !Ec2Key("aws.throttle")
      && !EksKey("aws.throttle")
  {
  }

  predicate HasAccountId(seg: Segment) { seg.aws.Some? && seg.aws.value.accountId.Some? }
  predicate HasRemoteRegion(seg: Segment) { seg.aws.Some? && seg.aws.value.remoteRegion.Some? }
  predicate HasEcsZone(seg: Segment)
  {
    seg.aws.Some? && seg.aws.value.ecs.Some? && seg.aws.value.ecs.value.availabilityZone.Some?
  }
  predicate HasEc2Zone(seg: Segment)
  {
    seg.aws.Some? && seg.aws.value.ec2.Some? && seg.aws.value.ec2.value.availabilityZone.Some?
  }
  predicate HasEc2InstanceId(seg: Segment)
  {
    seg.aws.Some? && seg.aws.value.ec2.Some? && seg.aws.value.ec2.value.instanceId.Some?
  }

  /** The segment's account id is present and is the text `v`. */
  predicate AccountIdIs(seg: Segment, v: Value) { HasAccountId(seg) && v == Str(seg.aws.value.accountId.value) }
  predicate RemoteRegionIs(seg: Segment, v: Value) { HasRemoteRegion(seg) && v == Str(seg.aws.value.remoteRegion.value) }
  predicate EcsZoneIs(seg: Segment, v: Value)
  {
    HasEcsZone(seg) && v == Str(seg.aws.value.ecs.value.availabilityZone.value)
  }
  predicate Ec2ZoneIs(seg: Segment, v: Value)
  {
    HasEc2Zone(seg) && v == Str(seg.aws.value.ec2.value.availabilityZone.value)
  }
  predicate Ec2InstanceIdIs(seg: Segment, v: Value)
  {
    HasEc2InstanceId(seg) && v == Str(seg.aws.value.ec2.value.instanceId.value)
  }

  /** The account id is emitted twice, under cloud.account.id and
      aws.account.id, each time with the id as its text value. */
  lemma AccountIdTwice(seg: Segment, v: Value)
    ensures Count(Attributes(seg), AnyValue("cloud.account.id"))
      == One(HasAccountId(seg)) + AnnotationCount(seg, AnyValue("cloud.account.id"))
    ensures Count(Attributes(seg), AnyValue("aws.account.id"))
      == One(HasAccountId(seg)) + AnnotationCount(seg, AnyValue("aws.account.id"))
    ensures Count(Attributes(seg), WithValue("cloud.account.id", v))
      == One(AccountIdIs(seg, v)) + AnnotationCount(seg, WithValue("cloud.account.id", v))
    ensures Count(Attributes(seg), WithValue("aws.account.id", v))
      == One(AccountIdIs(seg, v)) + AnnotationCount(seg, WithValue("aws.account.id", v))
  {
    CloudAccountIdCounts(seg, v);
    AwsAccountIdCounts(seg, v);
  }

  lemma CloudAccountIdCounts(seg: Segment, v: Value)
    ensures Count(Attributes(seg), AnyValue("cloud.account.id"))
      == One(HasAccountId(seg)) + AnnotationCount(seg, AnyValue("cloud.account.id"))
    ensures Count(Attributes(seg), WithValue("cloud.account.id", v))
      == One(AccountIdIs(seg, v)) + AnnotationCount(seg, WithValue("cloud.account.id", v))
  {
    FixedCloudAccountIdCount(seg, AnyValue("cloud.account.id"));
    FixedCloudAccountIdCount(seg, WithValue("cloud.account.id", v));
    KeyAndValueCounts(seg, "cloud.account.id", v, 0);
  }

  lemma AwsAccountIdCounts(seg: Segment, v: Value)
    ensures Count(Attributes(seg), AnyValue("aws.account.id"))
      == One(HasAccountId(seg)) + AnnotationCount(seg, AnyValue("aws.account.id"))
    ensures Count(Attributes(seg), WithValue("aws.account.id", v))
      == One(AccountIdIs(seg, v)) + AnnotationCount(seg, WithValue("aws.account.id", v))
  {
    FixedAwsAccountIdCount(seg, AnyValue("aws.account.id"));
    FixedAwsAccountIdCount(seg, WithValue("aws.account.id", v));
    KeyAndValueCounts(seg, "aws.account.id", v, 4);
  }

  /** The remote region is emitted twice, under cloud.region and
      aws.remote-region, each time with the region as its text value. */
  lemma RemoteRegionTwice(seg: Segment, v: Value)
    ensures Count(Attributes(seg), AnyValue("cloud.region"))
      == One(HasRemoteRegion(seg)) + AnnotationCount(seg, AnyValue("cloud.region"))
    ensures Count(Attributes(seg), AnyValue("aws.remote-region"))
      == One(HasRemoteRegion(seg)) + AnnotationCount(seg, AnyValue("aws.remote-region"))
    ensures Count(Attributes(seg), WithValue("cloud.region", v))
      == One(RemoteRegionIs(seg, v)) + AnnotationCount(seg, WithValue("cloud.region", v))
    ensures Count(Attributes(seg), WithValue("aws.remote-region", v))
      == One(RemoteRegionIs(seg, v)) + AnnotationCount(seg, WithValue("aws.remote-region", v))
  {
    CloudRegionCounts(seg, v);
    AwsRemoteRegionCounts(seg, v);
  }

  lemma CloudRegionCounts(seg: Segment, v: Value)
    ensures Count(Attributes(seg), AnyValue("cloud.region"))
      == One(HasRemoteRegion(seg)) + AnnotationCount(seg, AnyValue("cloud.region"))
    ensures Count(Attributes(seg), WithValue("cloud.region", v))
      == One(RemoteRegionIs(seg, v)) + AnnotationCount(seg, WithValue("cloud.region", v))
  {
    FixedCloudRegionCount(seg, AnyValue("cloud.region"));
    FixedCloudRegionCount(seg, WithValue("cloud.region", v));
    KeyAndValueCounts(seg, "cloud.region", v, 0);
  }

  lemma AwsRemoteRegionCounts(seg: Segment, v: Value)
    ensures Count(Attributes(seg), AnyValue("aws.remote-region"))
      == One(HasRemoteRegion(seg)) + AnnotationCount(seg, AnyValue("aws.remote-region"))
    ensures Count(Attributes(seg), WithValue("aws.remote-region", v))
      == One(RemoteRegionIs(seg, v)) + AnnotationCount(seg, WithValue("aws.remote-region", v))
  {
    FixedRemoteRegionCount(seg, AnyValue("aws.remote-region"));
    FixedRemoteRegionCount(seg, WithValue("aws.remote-region", v));
    KeyAndValueCounts(seg, "aws.remote-region", v, 4);
  }

  lemma FixedCloudAccountIdCount(seg: Segment, s: Selector)
    requires s.key == "cloud.account.id"
    ensures FixedHits(seg, s) == One(HasAccountId(seg) && Admits(s, Str(seg.aws.value.accountId.value)))
  {
    CloudAccountIdKeyOutside();
    HttpMisses(seg.http, s);
    CauseMisses(seg.cause, s);
    if seg.aws.Some? {
      var a := seg.aws.value;
      assert AwsCoreHits(a, s) == Hit("cloud.account.id", s, Text(a.accountId));
      BeanstalkMisses(a.beanstalk, s);
      EcsMisses(a.ecs, s);
      Ec2Misses(a.ec2, s);
      EksMisses(a.eks, s);
    }
  }

  lemma CloudAccountIdKeyOutside()
    ensures !HttpKey("cloud.account.id")
      && !CauseKey("cloud.account.id")
      && !BeanstalkKey("cloud.account.id")
      && !EcsKey("cloud.account.id")
      && !Ec2Key("cloud.account.id")
      && !EksKey("cloud.account.id")
  {
  }

  lemma FixedAwsAccountIdCount(seg: Segment, s: Selector)
    requires s.key == "aws.account.id"
    ensures FixedHits(seg, s) == One(HasAccountId(seg) && Admits(s, Str(seg.aws.value.accountId.value)))
  {
    AwsAccountIdKeyOutside();
    HttpMisses(seg.http, s);
    CauseMisses(seg.cause, s);
    if seg.aws.Some? {
      var a := seg.aws.value;
      assert AwsCoreHits(a, s) == Hit("aws.account.id", s, Text(a.accountId));
      BeanstalkMisses(a.beanstalk, s);
      EcsMisses(a.ecs, s);
      Ec2Misses(a.ec2, s);
      EksMisses(a.eks, s);
    }
  }

  lemma AwsAccountIdKeyOutside()
    ensures !HttpKey("aws.account.id")
      && !CauseKey("aws.account.id")
      && !BeanstalkKey("aws.account.id")
      && !EcsKey("aws.account.id")
      && !Ec2Key("aws.account.id")
      && !EksKey("aws.account.id")
  {
  }

  lemma FixedCloudRegionCount(seg: Segment, s: Selector)
    requires s.key == "cloud.region"
    ensures FixedHits(seg, s) == One(HasRemoteRegion(seg) && Admits(s, Str(seg.aws.value.remoteRegion.value)))
  {
    CloudRegionKeyOutside();
    HttpMisses(seg.http, s);
    CauseMisses(seg.cause, s);
    if seg.aws.Some? {
      var a := seg.aws.value;
      assert AwsCoreHits(a, s) == Hit("cloud.region", s, Text(a.remoteRegion));
      BeanstalkMisses(a.beanstalk, s);
      EcsMisses(a.ecs, s);
      Ec2Misses(a.ec2, s);
      EksMisses(a.eks, s);
    }
  }

  lemma CloudRegionKeyOutside()
    ensures !HttpKey("cloud.region")
      && !CauseKey("cloud.region")
      && !BeanstalkKey("cloud.region")
      && !EcsKey("cloud.region")
      && !Ec2Key("cloud.region")
      && !EksKey("cloud.region")
  {
  }

  lemma FixedRemoteRegionCount(seg: Segment, s: Selector)
    requires s.key == "aws.remote-region"
    ensures FixedHits(seg, s) == One(HasRemoteRegion(seg) && Admits(s, Str(seg.aws.value.remoteRegion.value)))
  {
    RemoteRegionKeyOutside();
    HttpMisses(seg.http, s);
    CauseMisses(seg.cause, s);
    if seg.aws.Some? {
      var a := seg.aws.value;
      assert AwsCoreHits(a, s) == Hit("aws.remote-region", s, Text(a.remoteRegion));
      BeanstalkMisses(a.beanstalk, s);
      EcsMisses(a.ecs, s);
      Ec2Misses(a.ec2, s);
      EksMisses(a.eks, s);
    }
  }

  lemma RemoteRegionKeyOutside()
    ensures !HttpKey("aws.remote-region")
      && !CauseKey("aws.remote-region")
      && !BeanstalkKey("aws.remote-region")
      && !EcsKey("aws.remote-region")
      && !Ec2Key("aws.remote-region")
      && !EksKey("aws.remote-region")
  {
  }

  /** The EC2 instance id is emitted twice under the same key, both times with
      the id as its text value. */
  lemma Ec2InstanceIdTwice(seg: Segment, v: Value)
    ensures Count(Attributes(seg), AnyValue("aws.ec2.instance.id"))
      == 2 * One(HasEc2InstanceId(seg)) + AnnotationCount(seg, AnyValue("aws.ec2.instance.id"))
    ensures Count(Attributes(seg), WithValue("aws.ec2.instance.id", v))
      == 2 * One(Ec2InstanceIdIs(seg, v)) + AnnotationCount(seg, WithValue("aws.ec2.instance.id", v))
  {
    FixedEc2InstanceIdCount(seg, AnyValue("aws.ec2.instance.id"));
    FixedEc2InstanceIdCount(seg, WithValue("aws.ec2.instance.id", v));
    KeyAndValueCounts(seg, "aws.ec2.instance.id", v, 4);
  }

  lemma FixedEc2InstanceIdCount(seg: Segment, s: Selector)
    requires s.key == "aws.ec2.instance.id"
    ensures FixedHits(seg, s)
      == 2 * One(HasEc2InstanceId(seg) && Admits(s, Str(seg.aws.value.ec2.value.instanceId.value)))
  {
    Ec2InstanceIdKeyOutside();
    HttpMisses(seg.http, s);
    CauseMisses(seg.cause, s);
    if seg.aws.Some? {
      var a := seg.aws.value;
      AwsCoreMisses(a, s);
      BeanstalkMisses(a.beanstalk, s);
      EcsMisses(a.ecs, s);
      Ec2InstanceIdHits(a.ec2, s);
      EksMisses(a.eks, s);
    }
  }

  lemma Ec2InstanceIdHits(e: Option<Ec2>, s: Selector)
    requires s.key == "aws.ec2.instance.id"
    ensures Ec2Hits(e, s) == 2 * One(e.Some? && e.value.instanceId.Some? && Admits(s, Str(e.value.instanceId.value)))
  {
  }

  lemma Ec2InstanceIdKeyOutside()
    ensures !HttpKey("aws.ec2.instance.id")
      && !CauseKey("aws.ec2.instance.id")
      && !AwsCoreKey("aws.ec2.instance.id")
      && !BeanstalkKey("aws.ec2.instance.id")
      && !EcsKey("aws.ec2.instance.id")
      && !EksKey("aws.ec2.instance.id")
  {
  }

  /** ECS and EC2 share the availability-zone key; each present zone adds one
      attribute with the zone as its text value. */
  lemma AvailabilityZoneShared(seg: Segment, v: Value)
    ensures Count(Attributes(seg), AnyValue("aws.availability-zone"))
      == One(HasEcsZone(seg)) + One(HasEc2Zone(seg)) + AnnotationCount(seg, AnyValue("aws.availability-zone"))
    ensures Count(Attributes(seg), WithValue("aws.availability-zone", v))
      == One(EcsZoneIs(seg, v)) + One(Ec2ZoneIs(seg, v))
         + AnnotationCount(seg, WithValue("aws.availability-zone", v))
  {
    FixedAvailabilityZoneCount(seg, AnyValue("aws.availability-zone"));
    FixedAvailabilityZoneCount(seg, WithValue("aws.availability-zone", v));
    KeyAndValueCounts(seg, "aws.availability-zone", v, 4);
  }

  lemma FixedAvailabilityZoneCount(seg: Segment, s: Selector)
    requires s.key == "aws.availability-zone"
    ensures FixedHits(seg, s)
      == One(HasEcsZone(seg) && Admits(s, Str(seg.aws.value.ecs.value.availabilityZone.value)))
         + One(HasEc2Zone(seg) && Admits(s, Str(seg.aws.value.ec2.value.availabilityZone.value)))
  {
    AvailabilityZoneKeyOutside();
    HttpMisses(seg.http, s);
    CauseMisses(seg.cause, s);
    if seg.aws.Some? {
      var a := seg.aws.value;
      AwsCoreMisses(a, s);
      BeanstalkMisses(a.beanstalk, s);
      EcsZoneHits(a.ecs, s);
      Ec2ZoneHits(a.ec2, s);
      EksMisses(a.eks, s);
    }
  }

  lemma EcsZoneHits(e: Option<Ecs>, s: Selector)
    requires s.key == "aws.availability-zone"
    ensures EcsHits(e, s)
      == One(e.Some? && e.value.availabilityZone.Some? && Admits(s, Str(e.value.availabilityZone.value)))
  {
  }

  lemma Ec2ZoneHits(e: Option<Ec2>, s: Selector)
    requires s.key == "aws.availability-zone"
    ensures Ec2Hits(e, s)
      == One(e.Some? && e.value.availabilityZone.Some? && Admits(s, Str(e.value.availabilityZone.value)))
  {
  }

  lemma AvailabilityZoneKeyOutside()
    ensures !HttpKey("aws.availability-zone")
      && !CauseKey("aws.availability-zone")
      && !AwsCoreKey("aws.availability-zone")
      && !BeanstalkKey("aws.availability-zone")
      && !EksKey("aws.availability-zone")
  {
  }

  // ---------------------------------------------------------------------------
  // Placement

  lemma PutKeepsPrefix(acc: seq<KeyValue>, key: string, v: Option<Value>)
    ensures |acc| <= |Put(acc, key, v)| && Put(acc, key, v)[..|acc|] == acc
  {
  }

  lemma TailKeepsPrefix(acc: seq<KeyValue>, seg: Segment)
    ensures |acc| <= |WithTail(acc, seg)| && WithTail(acc, seg)[..|acc|] == acc
  {
    PutKeepsPrefix(acc, "aws.namespace", Text(seg.namespace));
    var a1 := Put(acc, "aws.namespace", Text(seg.namespace));
    PutKeepsPrefix(a1, "aws.type", Text(seg.segmentType));
    var a2 := Put(a1, "aws.type", Text(seg.segmentType));
    PutKeepsPrefix(a2, "aws.precusor.ids", Texts(seg.precursorIds));
    assert WithTail(acc, seg)[..|a2|][..|acc|] == acc;
  }

  lemma HeadKept()
    ensures forall acc, key, v :: |acc| >= 1 ==> |Put(acc, key, v)| >= 1 && Put(acc, key, v)[0] == acc[0]
  {
  }

  lemma AwsKeepsHead(acc: seq<KeyValue>, aws: Option<Aws>)
    requires |acc| >= 1
    ensures |WithAws(acc, aws)| >= 1 && WithAws(acc, aws)[0] == acc[0]
  {
    if aws.Some? {
      var a := aws.value;
      CoreKeepsHead(acc, a);
      var b0 := WithAwsCore(acc, a);
      BeanstalkKeepsHead(b0, a.beanstalk);
      var b1 := WithBeanstalk(b0, a.beanstalk);
      EcsKeepsHead(b1, a.ecs);
      var b2 := WithEcs(b1, a.ecs);
      Ec2KeepsHead(b2, a.ec2);
      EksKeepsHead(WithEc2(b2, a.ec2), a.eks);
    }
  }

  lemma BeanstalkKeepsHead(acc: seq<KeyValue>, b: Option<Beanstalk>)
    requires |acc| >= 1
    ensures |WithBeanstalk(acc, b)| >= 1 && WithBeanstalk(acc, b)[0] == acc[0]
  {
    HeadKept();
  }

  lemma Ec2KeepsHead(acc: seq<KeyValue>, e: Option<Ec2>)
    requires |acc| >= 1
    ensures |WithEc2(acc, e)| >= 1 && WithEc2(acc, e)[0] == acc[0]
  {
    HeadKept();
  }

  lemma EksKeepsHead(acc: seq<KeyValue>, e: Option<Eks>)
    requires |acc| >= 1
    ensures |WithEks(acc, e)| >= 1 && WithEks(acc, e)[0] == acc[0]
  {
    HeadKept();
  }

  lemma PutHead(acc: seq<KeyValue>, key: string, v: Option<Value>)
    requires |acc| >= 1
    ensures |Put(acc, key, v)| >= 1 && Put(acc, key, v)[0] == acc[0]
  {
  }

  lemma CoreKeepsHead(acc: seq<KeyValue>, a: Aws)
    requires |acc| >= 1
    ensures |WithAwsCore(acc, a)| >= 1 && WithAwsCore(acc, a)[0] == acc[0]
  {
    PutHead(acc, "cloud.account.id", Text(a.accountId));
    var a1 := Put(acc, "cloud.account.id", Text(a.accountId));
    PutHead(a1, "cloud.region", Text(a.remoteRegion));
    var a2 := Put(a1, "cloud.region", Text(a.remoteRegion));
    PutHead(a2, "aws.resource-names", Texts(a.resourceNames));
    var a3 := Put(a2, "aws.resource-names", Texts(a.resourceNames));
    PutHead(a3, "aws.operation", Text(a.operation));
    var a4 := Put(a3, "aws.operation", Text(a.operation));
    PutHead(a4, "aws.account.id", Text(a.accountId));
    var a5 := Put(a4, "aws.account.id", Text(a.accountId));
    PutHead(a5, "aws.remote-region", Text(a.remoteRegion));
    var a6 := Put(a5, "aws.remote-region", Text(a.remoteRegion));
    PutHead(a6, "aws.request.id", Text(a.requestId));
    var a7 := Put(a6, "aws.request.id", Text(a.requestId));
    PutHead(a7, "aws.queue.url", Text(a.queueUrl));
    var a8 := Put(a7, "aws.queue.url", Text(a.queueUrl));
    PutHead(a8, "aws.table.name", Text(a.tableName));
    var a9 := Put(a8, "aws.table.name", Text(a.tableName));
    PutHead(a9, "aws.retries", Number(a.retries));
  }

  lemma EcsKeepsHead(acc: seq<KeyValue>, e: Option<Ecs>)
    requires |acc| >= 1
    ensures |WithEcs(acc, e)| >= 1 && WithEcs(acc, e)[0] == acc[0]
  {
    if e.Some? {
      var x := e.value;
      PutHead(acc, "aws.ecs.container.name", Text(x.containerName));
      var a1 := Put(acc, "aws.ecs.container.name", Text(x.containerName));
      PutHead(a1, "aws.ecs.container.id", Text(x.containerId));
      var a2 := Put(a1, "aws.ecs.container.id", Text(x.containerId));
      PutHead(a2, "aws.ecs.task.arn", Text(x.taskArn));
      var a3 := Put(a2, "aws.ecs.task.arn", Text(x.taskArn));
      PutHead(a3, "aws.ecs.task.family", Text(x.taskFamily));
      var a4 := Put(a3, "aws.ecs.task.family", Text(x.taskFamily));
      PutHead(a4, "aws.ecs.cluster.arn", Text(x.clusterArn));
      var a5 := Put(a4, "aws.ecs.cluster.arn", Text(x.clusterArn));
      PutHead(a5, "aws.ecs.container.arn", Text(x.containerArn));
      var a6 := Put(a5, "aws.ecs.container.arn", Text(x.containerArn));
      PutHead(a6, "aws.availability-zone", Text(x.availabilityZone));
      var a7 := Put(a6, "aws.availability-zone", Text(x.availabilityZone));
      PutHead(a7, "aws.ecs.launch-type", Text(x.launchType));
    }
  }

  lemma FixedStartsWithProvider(seg: Segment)
    ensures |FixedAttributes(seg)| >= 1 && FixedAttributes(seg)[0] == CloudProvider
  {
    var a1 := WithPlatform([CloudProvider], seg.origin);
    assert a1[0] == CloudProvider;
    PutHead(a1, "aws.user", Text(seg.user));
    PutHead(Put(a1, "aws.user", Text(seg.user)), "aws.arn", Text(seg.resourceArn));
    var a2 := WithIdentity(a1, seg);
    HttpKeepsHead(a2, seg.http);
    var a3 := WithHttp(a2, seg.http);
    FlagsKeepHead(a3, seg);
    var a4 := WithFlags(a3, seg);
    CauseKeepsHead(a4, seg.cause);
    AwsKeepsHead(WithCause(a4, seg.cause), seg.aws);
  }

  lemma HttpKeepsHead(acc: seq<KeyValue>, http: Option<Http>)
    requires |acc| >= 1
    ensures |WithHttp(acc, http)| >= 1 && WithHttp(acc, http)[0] == acc[0]
  {
    HeadKept();
  }

  lemma FlagsKeepHead(acc: seq<KeyValue>, seg: Segment)
    requires |acc| >= 1
    ensures |WithFlags(acc, seg)| >= 1 && WithFlags(acc, seg)[0] == acc[0]
  {
    HeadKept();
  }

  lemma CauseKeepsHead(acc: seq<KeyValue>, cause: Option<Cause>)
    requires |acc| >= 1
    ensures |WithCause(acc, cause)| >= 1 && WithCause(acc, cause)[0] == acc[0]
  {
    HeadKept();
  }

  lemma AttributesStartWith(seg: Segment)
    ensures |Attributes(seg)| >= 1 && Attributes(seg)[0] == CloudProvider
  {
    FixedStartsWithProvider(seg);
    var x := FixedAttributes(seg) + AnnotationAttrs(seg.annotations) + MetadataAttrs(seg.metadata);
    assert x[0] == CloudProvider;
    TailKeepsPrefix(x, seg);
    assert Attributes(seg)[..|x|][0] == CloudProvider;
  }

  /** The annotations follow the fixed fields, then the metadata, entry by entry. */
  lemma MapsFollowFixedFields(seg: Segment)
    ensures var n := |FixedAttributes(seg)|;
      var anns, meta := seg.annotations, seg.metadata;
      && |Attributes(seg)| >= n + |anns| + |meta|
      && (forall i :: 0 <= i < |anns| ==> Attributes(seg)[n + i] == KeyValue(anns[i].key, Str(anns[i].json)))
      && (forall j :: 0 <= j < |meta| ==>
            Attributes(seg)[n + |anns| + j] == KeyValue(MetadataPrefix + meta[j].key, Str(meta[j].json)))
  {
    var x := FixedAttributes(seg) + AnnotationAttrs(seg.annotations) + MetadataAttrs(seg.metadata);
    TailKeepsPrefix(x, seg);
    MapsAfter(Attributes(seg), FixedAttributes(seg), seg.annotations, seg.metadata);
  }

  /** Placement of the two maps in any list that starts with them. */
  lemma MapsAfter(r: seq<KeyValue>, fixed: seq<KeyValue>, entries: seq<Entry>, meta: seq<Entry>)
    requires var x := fixed + AnnotationAttrs(entries) + MetadataAttrs(meta);
      |x| <= |r| && r[..|x|] == x
    ensures && |r| >= |fixed| + |entries| + |meta|
      && (forall i :: 0 <= i < |entries| ==> r[|fixed| + i] == KeyValue(entries[i].key, Str(entries[i].json)))
      && (forall j :: 0 <= j < |meta| ==>
            r[|fixed| + |entries| + j] == KeyValue(MetadataPrefix + meta[j].key, Str(meta[j].json)))
  {
    AnnotationEntries(entries);
    MetadataEntries(meta);
    var anns, metas := AnnotationAttrs(entries), MetadataAttrs(meta);
    var x := fixed + anns + metas;
    forall i | 0 <= i < |entries|
      ensures r[|fixed| + i] == anns[i]
    {
      assert r[..|x|][|fixed| + i] == x[|fixed| + i];
    }
    forall j | 0 <= j < |meta|
      ensures r[|fixed| + |anns| + j] == metas[j]
    {
      assert r[..|x|][|fixed| + |anns| + j] == x[|fixed| + |anns| + j];
    }
  }

  /** Namespace, type and precursor ids come last, in that order: after the
      fixed fields and the two maps come exactly the present ones among them. */
  lemma TailComesLast(seg: Segment)
    ensures var r, n := Attributes(seg), |FixedAttributes(seg)| + |seg.annotations| + |seg.metadata|;
      var ns, ty, pre := seg.namespace, seg.segmentType, seg.precursorIds;
      && |r| == n + One(ns.Some?) + One(ty.Some?) + One(pre.Some?)
      && (ns.Some? ==> r[n] == KeyValue("aws.namespace", Str(ns.value)))
      && (ty.Some? ==> r[n + One(ns.Some?)] == KeyValue("aws.type", Str(ty.value)))
      && (pre.Some? ==> r[n + One(ns.Some?) + One(ty.Some?)] == KeyValue("aws.precusor.ids", StrList(pre.value)))
  {
    AnnotationEntries(seg.annotations);
    MetadataEntries(seg.metadata);
  }

  /** A segment with no optional field and empty maps yields only cloud.provider. */
  lemma BareSegment(seg: Segment)
    requires seg.origin.None? && seg.user.None? && seg.resourceArn.None? && seg.http.None?
    requires seg.fault.None? && seg.error.None? && seg.throttle.None? && seg.cause.None? && seg.aws.None?
    requires seg.annotations == [] && seg.metadata == []
    requires seg.namespace.None? && seg.segmentType.None? && seg.precursorIds.None?
    ensures Attributes(seg) == [CloudProvider]
  {
  }

  // ---------------------------------------------------------------------------
  // Status and events

  /** A fault without the error flag leaves the status unset although an
      "error" attribute is emitted; the error flag sets both. */
  lemma StatusAgainstErrorAttribute(seg: Segment)
    ensures Status(seg) == StatusError ==> Count(Attributes(seg), WithValue("error", Bool(true))) >= 1
    ensures seg.fault == Some(true) && seg.error != Some(true) ==>
      Status(seg) == Unset && Count(Attributes(seg), WithValue("error", Bool(true))) >= 1
  {
    ErrorAttributeCount(seg, Bool(true));
  }

  /** One event per recorded exception, in order. */
  lemma {:induction false} EventsPerException(seg: Segment)
    ensures |Events(seg)| == |Exceptions(seg)|
    ensures forall i :: 0 <= i < |Exceptions(seg)| ==> Events(seg)[i] == ExceptionEvent(Exceptions(seg)[i])
  {
    ExceptionEventsIndexed(Exceptions(seg));
  }

  lemma {:induction false} ExceptionEventsIndexed(exs: seq<Exception>)
    ensures |ExceptionEvents(exs)| == |exs|
    ensures forall i :: 0 <= i < |exs| ==> ExceptionEvents(exs)[i] == ExceptionEvent(exs[i])
  {
    if exs != [] {
      ExceptionEventsIndexed(exs[..|exs| - 1]);
    }
  }

  /** The position of each exception attribute key in the order the source emits them. */
  function ExceptionKeyRank(key: string): int
  {
    if key == "aws.exception.message" then 0
    else if key == "aws.exception.type" then 1
    else if key == "aws.exception.remote" then 2
    else if key == "aws.exception.trucated" then 3
    else if key == "aws.exception.skipped" then 4
    else -1
  }

  function PresentCount(ex: Exception): nat
  {
    One(ex.message.Some?) + One(ex.exceptionType.Some?) + One(ex.remote.Some?)
    + One(ex.truncated.Some?) + One(ex.skipped.Some?)
  }

  /** Attribute keys in the order the exception fields are emitted. */
  predicate InFieldOrder(attrs: seq<KeyValue>)
  {
    forall i, j :: 0 <= i < j < |attrs| ==> 0 <= ExceptionKeyRank(attrs[i].key) < ExceptionKeyRank(attrs[j].key)
  }

  predicate RanksBelow(attrs: seq<KeyValue>, r: int)
  {
    forall i :: 0 <= i < |attrs| ==> 0 <= ExceptionKeyRank(attrs[i].key) < r
  }

  lemma PutInOrder(acc: seq<KeyValue>, key: string, v: Option<Value>)
    requires InFieldOrder(acc) && RanksBelow(acc, ExceptionKeyRank(key)) && 0 <= ExceptionKeyRank(key)
    ensures InFieldOrder(Put(acc, key, v)) && RanksBelow(Put(acc, key, v), ExceptionKeyRank(key) + 1)
  {
  }

  /** The attribute under `key` occurs once exactly when the field value `v`
      is present, and then it carries `v`. */
  predicate HasOnce(attrs: seq<KeyValue>, key: string, v: Option<Value>)
  {
    && Count(attrs, AnyValue(key)) == One(v.Some?)
    && (v.Some? ==> Count(attrs, WithValue(key, v.value)) == 1)
  }

  /** The attributes of an exception's event that `s` selects, field by field. */
  function ExceptionHits(ex: Exception, s: Selector): nat
  {
    Hit("aws.exception.message", s, Text(ex.message))
    + Hit("aws.exception.type", s, Text(ex.exceptionType))
    + Hit("aws.exception.remote", s, Flag(ex.remote))
    + Hit("aws.exception.trucated", s, Number(ex.truncated))
    + Hit("aws.exception.skipped", s, Number(ex.skipped))
  }

  lemma ExceptionEventCount(ex: Exception, s: Selector)
    ensures Count(ExceptionEvent(ex).attributes, s) == ExceptionHits(ex, s)
  {
    CountPutOne([], "aws.exception.message", Text(ex.message), s);
    var a1 := Put([], "aws.exception.message", Text(ex.message));
    CountPutOne(a1, "aws.exception.type", Text(ex.exceptionType), s);
    var a2 := Put(a1, "aws.exception.type", Text(ex.exceptionType));
    CountPutOne(a2, "aws.exception.remote", Flag(ex.remote), s);
    var a3 := Put(a2, "aws.exception.remote", Flag(ex.remote));
    CountPutOne(a3, "aws.exception.trucated", Number(ex.truncated), s);
    var a4 := Put(a3, "aws.exception.trucated", Number(ex.truncated));
    CountPutOne(a4, "aws.exception.skipped", Number(ex.skipped), s);
  }

  /** The field behind `key` is the value `v`. */
  predicate ExceptionField(ex: Exception, key: string, v: Option<Value>)
  {
    || (key == "aws.exception.message" && v == Text(ex.message))
    || (key == "aws.exception.type" && v == Text(ex.exceptionType))
    || (key == "aws.exception.remote" && v == Flag(ex.remote))
    || (key == "aws.exception.trucated" && v == Number(ex.truncated))
    || (key == "aws.exception.skipped" && v == Number(ex.skipped))
  }

  lemma FieldOnce(ex: Exception, key: string, v: Option<Value>)
    requires ExceptionField(ex, key, v)
    ensures HasOnce(ExceptionEvent(ex).attributes, key, v)
  {
    ExceptionEventCount(ex, AnyValue(key));
    if v.Some? {
      ExceptionEventCount(ex, WithValue(key, v.value));
    }
  }

  /** An exception event carries one attribute per present field, each with
      the field's value, and none for an absent field; with
      `ExceptionEventOrder` this fixes the list: message, type, remote,
      truncated, skipped. */
  lemma ExceptionEventFields(ex: Exception)
    ensures var a := ExceptionEvent(ex).attributes;
      && |a| == PresentCount(ex)
      && HasOnce(a, "aws.exception.message", Text(ex.message))
      && HasOnce(a, "aws.exception.type", Text(ex.exceptionType))
      && HasOnce(a, "aws.exception.remote", Flag(ex.remote))
      && HasOnce(a, "aws.exception.trucated", Number(ex.truncated))
      && HasOnce(a, "aws.exception.skipped", Number(ex.skipped))
      && (ex.message.Some? ==> a[0] == KeyValue("aws.exception.message", Str(ex.message.value)))
      && (ex.skipped.Some? ==> a[|a| - 1] == KeyValue("aws.exception.skipped", Int(ex.skipped.value)))
  {
    ExceptionEventEnds(ex);
    FieldOnce(ex, "aws.exception.message", Text(ex.message));
    FieldOnce(ex, "aws.exception.type", Text(ex.exceptionType));
    FieldOnce(ex, "aws.exception.remote", Flag(ex.remote));
    FieldOnce(ex, "aws.exception.trucated", Number(ex.truncated));
    FieldOnce(ex, "aws.exception.skipped", Number(ex.skipped));
  }

  lemma ExceptionEventEnds(ex: Exception)
    ensures var a := ExceptionEvent(ex).attributes;
      && |a| == PresentCount(ex)
      && (ex.message.Some? ==> a[0] == KeyValue("aws.exception.message", Str(ex.message.value)))
      && (ex.skipped.Some? ==> a[|a| - 1] == KeyValue("aws.exception.skipped", Int(ex.skipped.value)))
  {
  }

  lemma ExceptionEventOrder(ex: Exception)
    ensures InFieldOrder(ExceptionEvent(ex).attributes)
  {
    var remote := Flag(ex.remote);
    assert ExceptionKeyRank("aws.exception.message") == 0;
    PutInOrder([], "aws.exception.message", Text(ex.message));
    var a1 := Put([], "aws.exception.message", Text(ex.message));
    assert ExceptionKeyRank("aws.exception.type") == 1;
    PutInOrder(a1, "aws.exception.type", Text(ex.exceptionType));
    var a2 := Put(a1, "aws.exception.type", Text(ex.exceptionType));
    assert ExceptionKeyRank("aws.exception.remote") == 2;
    PutInOrder(a2, "aws.exception.remote", remote);
    var a3 := Put(a2, "aws.exception.remote", remote);
    assert ExceptionKeyRank("aws.exception.trucated") == 3;
    PutInOrder(a3, "aws.exception.trucated", Number(ex.truncated));
    var a4 := Put(a3, "aws.exception.trucated", Number(ex.truncated));
    assert ExceptionKeyRank("aws.exception.skipped") == 4;
    PutInOrder(a4, "aws.exception.skipped", Number(ex.skipped));
  }
}
