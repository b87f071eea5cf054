/** Segment attribute mapper (exporter/segment.go): the attribute list, the
    status and the events of the span made from one X-Ray segment. Each
    operation is a specification function beside the imperative builder that
    the source is, proved equal to it. */
module Mapper {
  import opened Wrappers
  import opened XRay
  import opened Otlp

  // OpenTelemetry semantic conventions v1.10.0 used by the mapper
  const CloudProvider := KeyValue("cloud.provider", Str("aws"))
  const CloudPlatformLambda := KeyValue("cloud.platform", Str("aws_lambda"))
  const LambdaOrigin := "AWS::Lambda::Function"
  const MetadataPrefix := "aws.metadata."

  // ---------------------------------------------------------------------------
  // Appending one attribute when its field is present

  /** One builder step: the attribute is appended only when its field is present. */
  function Put(acc: seq<KeyValue>, key: string, v: Option<Value>): seq<KeyValue>
  {
    if v.Some? then acc + [KeyValue(key, v.value)] else acc
  }

  function Text(o: Option<string>): Option<Value>
  {
    if o.Some? then Some(Str(o.value)) else None
  }

  function Number(o: Option<int>): Option<Value>
  {
    if o.Some? then Some(Int(o.value)) else None
  }

  function Texts(o: Option<seq<string>>): Option<Value>
  {
    if o.Some? then Some(StrList(o.value)) else None
  }

  function Flag(o: Option<bool>): Option<Value>
  {
    if o.Some? then Some(Bool(o.value)) else None
  }

  /** A `true` value when the flag is present and set; nothing otherwise. */
  function IfTrue(flag: Option<bool>): Option<Value>
  {
    if flag == Some(true) then Some(Bool(true)) else None
  }

  // ---------------------------------------------------------------------------
  // The attribute list, block by block in the order of the source

  /** Only the Lambda origin maps to a platform; every other origin is deferred. */
  function WithPlatform(acc: seq<KeyValue>, origin: Option<string>): seq<KeyValue>
  {
    if origin == Some(LambdaOrigin) then acc + [CloudPlatformLambda] else acc
  }

  function WithIdentity(acc: seq<KeyValue>, seg: Segment): seq<KeyValue>
  {
    var acc := Put(acc, "aws.user", Text(seg.user));
    Put(acc, "aws.arn", Text(seg.resourceArn))
  }

  function WithHttp(acc: seq<KeyValue>, http: Option<Http>): seq<KeyValue>
  {
    if http.None? then acc
    else
      var req, resp := http.value.request, http.value.response;
      var acc := if req.Some? then Put(acc, "http.url", Text(req.value.url)) else acc;
      if resp.None? then acc
      else
        var acc := Put(acc, "http.status_code", Number(resp.value.status));
        Put(acc, "http.response_content_length", Number(resp.value.contentLength))
  }

  /** Fault and error both map to the key "error"; throttle to "aws.throttle". */
  function WithFlags(acc: seq<KeyValue>, seg: Segment): seq<KeyValue>
  {
    var acc := Put(acc, "error", IfTrue(seg.fault));
    var acc := Put(acc, "error", IfTrue(seg.error));
    Put(acc, "aws.throttle", IfTrue(seg.throttle))
  }

  function WithCause(acc: seq<KeyValue>, cause: Option<Cause>): seq<KeyValue>
  {
    if cause.None? then acc
    else
      var c := cause.value;
      var acc := Put(acc, "aws.xray.cause.exception.message", Text(c.message));
      var acc := Put(acc, "aws.xray.cause.working-directory", Text(c.workingDirectory));
      Put(acc, "exception.type", Texts(c.paths))
  }

  /** The top-level AWS fields; account id and remote region appear twice each. */
  function WithAwsCore(acc: seq<KeyValue>, a: Aws): seq<KeyValue>
  {
    var acc := Put(acc, "cloud.account.id", Text(a.accountId));
    var acc := Put(acc, "cloud.region", Text(a.remoteRegion));
    var acc := Put(acc, "aws.resource-names", Texts(a.resourceNames));
    var acc := Put(acc, "aws.operation", Text(a.operation));
    var acc := Put(acc, "aws.account.id", Text(a.accountId));
    var acc := Put(acc, "aws.remote-region", Text(a.remoteRegion));
    var acc := Put(acc, "aws.request.id", Text(a.requestId));
    var acc := Put(acc, "aws.queue.url", Text(a.queueUrl));
    var acc := Put(acc, "aws.table.name", Text(a.tableName));
    Put(acc, "aws.retries", Number(a.retries))
  }

  function WithBeanstalk(acc: seq<KeyValue>, b: Option<Beanstalk>): seq<KeyValue>
  {
    if b.None? then acc
    else
      var acc := Put(acc, "aws.beanstalk.environment", Text(b.value.environment));
      var acc := Put(acc, "aws.beanstalk.deployment.id", Number(b.value.deploymentId));
      Put(acc, "aws.beanstalk.version", Text(b.value.versionLabel))
  }

  function WithEcs(acc: seq<KeyValue>, e: Option<Ecs>): seq<KeyValue>
  {
    if e.None? then acc
    else
      var ecs := e.value;
      var acc := Put(acc, "aws.ecs.container.name", Text(ecs.containerName));
      var acc := Put(acc, "aws.ecs.container.id", Text(ecs.containerId));
      var acc := Put(acc, "aws.ecs.task.arn", Text(ecs.taskArn));
      var acc := Put(acc, "aws.ecs.task.family", Text(ecs.taskFamily));
      var acc := Put(acc, "aws.ecs.cluster.arn", Text(ecs.clusterArn));
      var acc := Put(acc, "aws.ecs.container.arn", Text(ecs.containerArn));
      var acc := Put(acc, "aws.availability-zone", Text(ecs.availabilityZone));
      Put(acc, "aws.ecs.launch-type", Text(ecs.launchType))
  }

  /** The instance id is emitted twice, under the same key. */
  function WithEc2(acc: seq<KeyValue>, e: Option<Ec2>): seq<KeyValue>
  {
    if e.None? then acc
    else
      var ec2 := e.value;
      var acc := Put(acc, "aws.ec2.instance.id", Text(ec2.instanceId));
      var acc := Put(acc, "aws.availability-zone", Text(ec2.availabilityZone));
      var acc := Put(acc, "aws.ec2.instance.size", Text(ec2.instanceSize));
      Put(acc, "aws.ec2.instance.id", Text(ec2.instanceId))
  }

  function WithEks(acc: seq<KeyValue>, e: Option<Eks>): seq<KeyValue>
  {
    if e.None? then acc
    else
      var acc := Put(acc, "aws.eks.cluster.name", Text(e.value.clusterName));
      var acc := Put(acc, "aws.eks.container.id", Text(e.value.containerId));
      Put(acc, "aws.eks.pod", Text(e.value.pod))
  }

  function WithAws(acc: seq<KeyValue>, aws: Option<Aws>): seq<KeyValue>
  {
    if aws.None? then acc
    else
      var a := aws.value;
      WithEks(WithEc2(WithEcs(WithBeanstalk(WithAwsCore(acc, a), a.beanstalk), a.ecs), a.ec2), a.eks)
  }

  /** Each annotation under its own key, in visiting order. */
  function AnnotationAttrs(entries: seq<Entry>): seq<KeyValue>
  {
    if entries == [] then []
    else
      var last := entries[|entries| - 1];
      AnnotationAttrs(entries[..|entries| - 1]) + [KeyValue(last.key, Str(last.json))]
  }

  /** Each metadata entry under "aws.metadata.<key>", in visiting order. */
  function MetadataAttrs(entries: seq<Entry>): seq<KeyValue>
  {
    if entries == [] then []
    else
      var last := entries[|entries| - 1];
      MetadataAttrs(entries[..|entries| - 1]) + [KeyValue(MetadataPrefix + last.key, Str(last.json))]
  }

  function WithTail(acc: seq<KeyValue>, seg: Segment): seq<KeyValue>
  {
    var acc := Put(acc, "aws.namespace", Text(seg.namespace));
    var acc := Put(acc, "aws.type", Text(seg.segmentType));
    Put(acc, "aws.precusor.ids", Texts(seg.precursorIds))
  }

  /** Everything up to the annotations. */
  function FixedAttributes(seg: Segment): seq<KeyValue>
  {
    var acc := WithPlatform([CloudProvider], seg.origin);
    var acc := WithIdentity(acc, seg);
    var acc := WithHttp(acc, seg.http);
    var acc := WithFlags(acc, seg);
    var acc := WithCause(acc, seg.cause);
    WithAws(acc, seg.aws)
  }

  /** getAttributesFromXraySegment. */
  function Attributes(seg: Segment): seq<KeyValue>
  {
    WithTail(FixedAttributes(seg) + AnnotationAttrs(seg.annotations) + MetadataAttrs(seg.metadata), seg)
  }

  /** getStatusFromXraySegment: only the error flag sets the error code. */
  function Status(seg: Segment): (code: StatusCode)
    ensures code == StatusError <==> seg.error == Some(true)
  {
    if seg.error.Some? && seg.error.value then StatusError else Unset
  }

  /** The event for one exception: its present fields, in a fixed order. */
  function ExceptionEvent(ex: Exception): Event
  {
    var acc := Put([], "aws.exception.message", Text(ex.message));
    var acc := Put(acc, "aws.exception.type", Text(ex.exceptionType));
    var acc := Put(acc, "aws.exception.remote", Flag(ex.remote));
    var acc := Put(acc, "aws.exception.trucated", Number(ex.truncated));
    Event(Put(acc, "aws.exception.skipped", Number(ex.skipped)))
  }

  function ExceptionEvents(exs: seq<Exception>): seq<Event>
  {
    if exs == [] then [] else ExceptionEvents(exs[..|exs| - 1]) + [ExceptionEvent(exs[|exs| - 1])]
  }

  /** The exceptions of a segment's cause; none without a cause or a list. */
  function Exceptions(seg: Segment): seq<Exception>
  {
    if seg.cause.Some? && seg.cause.value.exceptions.Some? then seg.cause.value.exceptions.value else []
  }

  /** getEventsFromXraySegment. */
  function Events(seg: Segment): seq<Event>
  {
    ExceptionEvents(Exceptions(seg))
  }

  // ---------------------------------------------------------------------------
  // The builders, as the source writes them (one helper per block of
  // getAttributesFromXraySegment)

  method GetAttributesFromSegment(seg: Segment) returns (attrs: seq<KeyValue>)
    ensures attrs == Attributes(seg)
  {
    attrs := [CloudProvider];
    if seg.origin.Some? {
      if seg.origin.value == LambdaOrigin {
        attrs := attrs + [CloudPlatformLambda];
      }
    }
    if seg.user.Some? {
      attrs := attrs + [KeyValue("aws.user", Str(seg.user.value))];
    }
    if seg.resourceArn.Some? {
      attrs := attrs + [KeyValue("aws.arn", Str(seg.resourceArn.value))];
    }
    attrs := AppendHttp(attrs, seg.http);
    attrs := AppendFlags(attrs, seg);
    attrs := AppendCause(attrs, seg.cause);
    attrs := AppendAws(attrs, seg.aws);
    assert attrs == FixedAttributes(seg);
    attrs := AppendAnnotations(attrs, seg.annotations);
    attrs := AppendMetadata(attrs, seg.metadata);
    attrs := AppendTail(attrs, seg);
  }

  method AppendHttp(attrs0: seq<KeyValue>, http: Option<Http>) returns (attrs: seq<KeyValue>)
    ensures attrs == WithHttp(attrs0, http)
  {
    attrs := attrs0;
    if http.Some? {
      if http.value.request.Some? {
        if http.value.request.value.url.Some? {
          attrs := attrs + [KeyValue("http.url", Str(http.value.request.value.url.value))];
        }
      }
      if http.value.response.Some? {
        var response := http.value.response.value;
        if response.status.Some? {
          attrs := attrs + [KeyValue("http.status_code", Int(response.status.value))];
        }
        if response.contentLength.Some? {
          attrs := attrs + [KeyValue("http.response_content_length", Int(response.contentLength.value))];
        }
      }
    }
  }

  method AppendFlags(attrs0: seq<KeyValue>, seg: Segment) returns (attrs: seq<KeyValue>)
    ensures attrs == WithFlags(attrs0, seg)
  {
    attrs := attrs0;
    if seg.fault.Some? && seg.fault.value {
      attrs := attrs + [KeyValue("error", Bool(true))];
    }
    if seg.error.Some? && seg.error.value {
      attrs := attrs + [KeyValue("error", Bool(true))];
    }
    if seg.throttle.Some? && seg.throttle.value {
      attrs := attrs + [KeyValue("aws.throttle", Bool(true))];
    }
  }

  method AppendCause(attrs0: seq<KeyValue>, cause: Option<Cause>) returns (attrs: seq<KeyValue>)
    ensures attrs == WithCause(attrs0, cause)
  {
    attrs := attrs0;
    if cause.Some? {
      var c := cause.value;
      if c.message.Some? {
        attrs := attrs + [KeyValue("aws.xray.cause.exception.message", Str(c.message.value))];
      }
      if c.workingDirectory.Some? {
        attrs := attrs + [KeyValue("aws.xray.cause.working-directory", Str(c.workingDirectory.value))];
      }
      if c.paths.Some? {
        attrs := attrs + [KeyValue("exception.type", StrList(c.paths.value))];
      }
    }
  }

  method AppendAws(attrs0: seq<KeyValue>, aws: Option<Aws>) returns (attrs: seq<KeyValue>)
    ensures attrs == WithAws(attrs0, aws)
  {
    attrs := attrs0;
    if aws.Some? {
      var a := aws.value;
      attrs := AppendAwsCore(attrs, a);
      attrs := AppendBeanstalk(attrs, a.beanstalk);
      attrs := AppendEcs(attrs, a.ecs);
      attrs := AppendEc2(attrs, a.ec2);
      attrs := AppendEks(attrs, a.eks);
    }
  }

  method AppendAwsCore(attrs0: seq<KeyValue>, a: Aws) returns (attrs: seq<KeyValue>)
    ensures attrs == WithAwsCore(attrs0, a)
  {
    attrs := attrs0;
    if a.accountId.Some? {
      attrs := attrs + [KeyValue("cloud.account.id", Str(a.accountId.value))];
    }
    if a.remoteRegion.Some? {
      attrs := attrs + [KeyValue("cloud.region", Str(a.remoteRegion.value))];
    }
    ghost var cloud := attrs;
    assert cloud == Put(Put(attrs0, "cloud.account.id", Text(a.accountId)), "cloud.region", Text(a.remoteRegion));
    if a.resourceNames.Some? {
      attrs := attrs + [KeyValue("aws.resource-names", StrList(a.resourceNames.value))];
    }
    if a.operation.Some? {
      attrs := attrs + [KeyValue("aws.operation", Str(a.operation.value))];
    }
    if a.accountId.Some? {
      attrs := attrs + [KeyValue("aws.account.id", Str(a.accountId.value))];
    }
    if a.remoteRegion.Some? {
      attrs := attrs + [KeyValue("aws.remote-region", Str(a.remoteRegion.value))];
    }
    assert attrs == Put(Put(Put(Put(cloud, "aws.resource-names", Texts(a.resourceNames)), "aws.operation", Text(a.operation)),
      "aws.account.id", Text(a.accountId)), "aws.remote-region", Text(a.remoteRegion));
    if a.requestId.Some? {
      attrs := attrs + [KeyValue("aws.request.id", Str(a.requestId.value))];
    }
    if a.queueUrl.Some? {
      attrs := attrs + [KeyValue("aws.queue.url", Str(a.queueUrl.value))];
    }
    if a.tableName.Some? {
      attrs := attrs + [KeyValue("aws.table.name", Str(a.tableName.value))];
    }
    if a.retries.Some? {
      attrs := attrs + [KeyValue("aws.retries", Int(a.retries.value))];
    }
  }

  method AppendBeanstalk(attrs0: seq<KeyValue>, b: Option<Beanstalk>) returns (attrs: seq<KeyValue>)
    ensures attrs == WithBeanstalk(attrs0, b)
  {
    attrs := attrs0;
    if b.Some? {
      if b.value.environment.Some? {
        attrs := attrs + [KeyValue("aws.beanstalk.environment", Str(b.value.environment.value))];
      }
      if b.value.deploymentId.Some? {
        attrs := attrs + [KeyValue("aws.beanstalk.deployment.id", Int(b.value.deploymentId.value))];
      }
      if b.value.versionLabel.Some? {
        attrs := attrs + [KeyValue("aws.beanstalk.version", Str(b.value.versionLabel.value))];
      }
    }
  }

  method AppendEcs(attrs0: seq<KeyValue>, e: Option<Ecs>) returns (attrs: seq<KeyValue>)
    ensures attrs == WithEcs(attrs0, e)
  {
    attrs := attrs0;
    if e.Some? {
      var ecs := e.value;
      if ecs.containerName.Some? {
        attrs := attrs + [KeyValue("aws.ecs.container.name", Str(ecs.containerName.value))];
      }
      if ecs.containerId.Some? {
        attrs := attrs + [KeyValue("aws.ecs.container.id", Str(ecs.containerId.value))];
      }
      if ecs.taskArn.Some? {
        attrs := attrs + [KeyValue("aws.ecs.task.arn", Str(ecs.taskArn.value))];
      }
      if ecs.taskFamily.Some? {
        attrs := attrs + [KeyValue("aws.ecs.task.family", Str(ecs.taskFamily.value))];
      }
      assert attrs == Put(Put(Put(Put(attrs0, "aws.ecs.container.name", Text(ecs.containerName)),
        "aws.ecs.container.id", Text(ecs.containerId)), "aws.ecs.task.arn", Text(ecs.taskArn)),
        "aws.ecs.task.family", Text(ecs.taskFamily));
      if ecs.clusterArn.Some? {
        attrs := attrs + [KeyValue("aws.ecs.cluster.arn", Str(ecs.clusterArn.value))];
      }
      if ecs.containerArn.Some? {
        attrs := attrs + [KeyValue("aws.ecs.container.arn", Str(ecs.containerArn.value))];
      }
      if ecs.availabilityZone.Some? {
        attrs := attrs + [KeyValue("aws.availability-zone", Str(ecs.availabilityZone.value))];
      }
      if ecs.launchType.Some? {
        attrs := attrs + [KeyValue("aws.ecs.launch-type", Str(ecs.launchType.value))];
      }
    }
  }

  method AppendEc2(attrs0: seq<KeyValue>, e: Option<Ec2>) returns (attrs: seq<KeyValue>)
    ensures attrs == WithEc2(attrs0, e)
  {
    attrs := attrs0;
    if e.Some? {
      var ec2 := e.value;
      if ec2.instanceId.Some? {
        attrs := attrs + [KeyValue("aws.ec2.instance.id", Str(ec2.instanceId.value))];
      }
      if ec2.availabilityZone.Some? {
        attrs := attrs + [KeyValue("aws.availability-zone", Str(ec2.availabilityZone.value))];
      }
      if ec2.instanceSize.Some? {
        attrs := attrs + [KeyValue("aws.ec2.instance.size", Str(ec2.instanceSize.value))];
      }
      if ec2.instanceId.Some? {
        attrs := attrs + [KeyValue("aws.ec2.instance.id", Str(ec2.instanceId.value))];
      }
    }
  }

  method AppendEks(attrs0: seq<KeyValue>, e: Option<Eks>) returns (attrs: seq<KeyValue>)
    ensures attrs == WithEks(attrs0, e)
  {
    attrs := attrs0;
    if e.Some? {
      var eks := e.value;
      if eks.clusterName.Some? {
        attrs := attrs + [KeyValue("aws.eks.cluster.name", Str(eks.clusterName.value))];
      }
      if eks.containerId.Some? {
        attrs := attrs + [KeyValue("aws.eks.container.id", Str(eks.containerId.value))];
      }
      if eks.pod.Some? {
        attrs := attrs + [KeyValue("aws.eks.pod", Str(eks.pod.value))];
      }
    }
  }

  /** The range loop over the annotation map, in the order it visits the entries. */
  method AppendAnnotations(attrs0: seq<KeyValue>, entries: seq<Entry>) returns (attrs: seq<KeyValue>)
    ensures attrs == attrs0 + AnnotationAttrs(entries)
  {
    attrs := attrs0;
    var i := 0;
    while i < |entries|
      invariant 0 <= i <= |entries|
      invariant attrs == attrs0 + AnnotationAttrs(entries[..i])
    {
      var entry := entries[i];
      attrs := attrs + [KeyValue(entry.key, Str(entry.json))];
      assert entries[..i + 1][..i] == entries[..i];
      i := i + 1;
    }
    assert entries[..i] == entries;
  }

  /** The range loop over the metadata map, in the order it visits the entries. */
  method AppendMetadata(attrs0: seq<KeyValue>, entries: seq<Entry>) returns (attrs: seq<KeyValue>)
    ensures attrs == attrs0 + MetadataAttrs(entries)
  {
    attrs := attrs0;
    var i := 0;
    while i < |entries|
      invariant 0 <= i <= |entries|
      invariant attrs == attrs0 + MetadataAttrs(entries[..i])
    {
      var entry := entries[i];
      attrs := attrs + [KeyValue(MetadataPrefix + entry.key, Str(entry.json))];
      assert entries[..i + 1][..i] == entries[..i];
      i := i + 1;
    }
    assert entries[..i] == entries;
  }

  method AppendTail(attrs0: seq<KeyValue>, seg: Segment) returns (attrs: seq<KeyValue>)
    ensures attrs == WithTail(attrs0, seg)
  {
    attrs := attrs0;
    if seg.namespace.Some? {
      attrs := attrs + [KeyValue("aws.namespace", Str(seg.namespace.value))];
    }
    if seg.segmentType.Some? {
      attrs := attrs + [KeyValue("aws.type", Str(seg.segmentType.value))];
    }
    if seg.precursorIds.Some? {
      attrs := attrs + [KeyValue("aws.precusor.ids", StrList(seg.precursorIds.value))];
    }
  }

  method GetEventsFromSegment(seg: Segment) returns (evts: seq<Event>)
    ensures evts == Events(seg)
  {
    evts := [];
    if seg.cause.Some? && seg.cause.value.exceptions.Some? {
      var exs := seg.cause.value.exceptions.value;
      var i := 0;
      while i < |exs|
        invariant 0 <= i <= |exs|
        invariant evts == ExceptionEvents(exs[..i])
      {
        var evt := BuildExceptionEvent(exs[i]);
        evts := evts + [evt];
        assert exs[..i + 1][..i] == exs[..i];
        i := i + 1;
      }
      assert exs[..i] == exs;
    }
  }

  /** The body of the exception loop: one event holding the present fields. */
  method BuildExceptionEvent(ex: Exception) returns (evt: Event)
    ensures evt == ExceptionEvent(ex)
  {
    var attrs: seq<KeyValue> := [];
    if ex.message.Some? {
      attrs := attrs + [KeyValue("aws.exception.message", Str(ex.message.value))];
    }
    if ex.exceptionType.Some? {
      attrs := attrs + [KeyValue("aws.exception.type", Str(ex.exceptionType.value))];
    }
    if ex.remote.Some? {
      attrs := attrs + [KeyValue("aws.exception.remote", Bool(ex.remote.value))];
    }
    assert attrs == Put(Put(Put([], "aws.exception.message", Text(ex.message)),
      "aws.exception.type", Text(ex.exceptionType)),
      "aws.exception.remote", if ex.remote.Some? then Some(Bool(ex.remote.value)) else None);
    if ex.truncated.Some? {
      attrs := attrs + [KeyValue("aws.exception.trucated", Int(ex.truncated.value))];
    }
    if ex.skipped.Some? {
      attrs := attrs + [KeyValue("aws.exception.skipped", Int(ex.skipped.value))];
    }
    evt := Event(attrs);
  }
}
