/** A decoded X-Ray segment document (the `awsxray` package the source imports;
    that package is not part of this model). Every optional JSON field is an
    Option; `id` is a plain string because the source dereferences it
    unconditionally. Start and end times are the already converted
    nanosecond instants. Annotations and metadata are Go maps; here each is
    the list of its entries in the order one range loop happens to visit them,
    values already serialised to JSON text. */
module XRay {
  import opened Wrappers

  datatype HttpRequest = HttpRequest(url: Option<string>)

  datatype HttpResponse = HttpResponse(status: Option<int>, contentLength: Option<int>)

  datatype Http = Http(request: Option<HttpRequest>, response: Option<HttpResponse>)

  datatype Exception = Exception(
    message: Option<string>,
    exceptionType: Option<string>,
    remote: Option<bool>,
    truncated: Option<int>,
    skipped: Option<int>)

  datatype Cause = Cause(
    message: Option<string>,
    workingDirectory: Option<string>,
    paths: Option<seq<string>>,
    exceptions: Option<seq<Exception>>)

  datatype Beanstalk = Beanstalk(
    environment: Option<string>,
    deploymentId: Option<int>,
    versionLabel: Option<string>)

  datatype Ecs = Ecs(
    containerName: Option<string>,
    containerId: Option<string>,
    taskArn: Option<string>,
    taskFamily: Option<string>,
    clusterArn: Option<string>,
    containerArn: Option<string>,
    availabilityZone: Option<string>,
    launchType: Option<string>)

  datatype Ec2 = Ec2(
    instanceId: Option<string>,
    availabilityZone: Option<string>,
    instanceSize: Option<string>)

  datatype Eks = Eks(
    clusterName: Option<string>,
    containerId: Option<string>,
    pod: Option<string>)

  datatype XRaySdk = XRaySdk(sdk: Option<string>, sdkVersion: Option<string>)

  datatype Aws = Aws(
    accountId: Option<string>,
    remoteRegion: Option<string>,
    resourceNames: Option<seq<string>>,
    operation: Option<string>,
    requestId: Option<string>,
    queueUrl: Option<string>,
    tableName: Option<string>,
    retries: Option<int>,
    beanstalk: Option<Beanstalk>,
    ecs: Option<Ecs>,
    ec2: Option<Ec2>,
    eks: Option<Eks>,
    xray: Option<XRaySdk>)

  /** One entry of an annotation or metadata map: its key and its value as JSON text. */
  datatype Entry = Entry(key: string, json: string)

  datatype Segment = Segment(
    id: string,
    traceId: Option<string>,
    parentId: Option<string>,
    name: Option<string>,
    startTime: Option<int>,
    endTime: Option<int>,
    origin: Option<string>,
    user: Option<string>,
    resourceArn: Option<string>,
    http: Option<Http>,
    fault: Option<bool>,
    error: Option<bool>,
    throttle: Option<bool>,
    cause: Option<Cause>,
    aws: Option<Aws>,
    annotations: seq<Entry>,
    metadata: seq<Entry>,
    namespace: Option<string>,
    segmentType: Option<string>,
    precursorIds: Option<seq<string>>,
    subsegments: seq<Segment>)

  /** A trace as BatchGetTraces returns it, with each segment document
      already decoded. */
  datatype Trace = Trace(id: Option<string>, segments: seq<Segment>)
}
