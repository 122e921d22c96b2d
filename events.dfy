/**
 * The event classifier of the real-time watcher (internal/realtime/events.go):
 * a CloudTrail change notification delivered through EventBridge is turned
 * into a normalized delta (action, resource type, resource identifier, new
 * state), and the handler forwards the delta only when an identifier was found.
 */
module Events {
  import opened Wrappers
  import opened Json
  import Text

  /**
   * The `detail` body of a CloudTrail event. Go decodes an absent or `null`
   * parameter object into a nil map, which reads like an empty map but
   * encodes back as `null`; `None` stands for that nil map.
   */
  datatype Detail = Detail(
    eventName: string,
    requestParameters: Option<map<string, Json>>,
    responseElements: Option<map<string, Json>>)

  /** The envelope: `detail-type`, `source` and `detail`. */
  datatype CloudTrailEvent = CloudTrailEvent(detailType: string, source: string, detail: Detail)

  datatype Action = Create | Update | Delete {
    /** The string the delta carries in its `action` field. */
    function Name(): (r: string)
      ensures r in {"create", "update", "delete"}
      ensures r == "create" <==> Create?
      ensures r == "delete" <==> Delete?
    {
      match this
      case Create => "create"
      case Update => "update"
      case Delete => "delete"
    }
  }

  /** The payload sent to the backend. `newState` is None when the Go map is nil (omitted). */
  datatype EventDelta = EventDelta(
    action: Action,
    resourceType: string,
    resourceId: string,
    newState: Option<map<string, Json>>)

  /** The sources the classifier recognizes; every other source is "Unknown". */
  const KnownSources: set<string> :=
    {"aws.ec2", "aws.vpc", "aws.iam", "aws.autoscaling", "aws.elb",
     "aws.eks", "aws.elasticache", "aws.route53", "aws.s3"}

  /** The entries of a parameter map; a nil map has none. */
  function Entries(m: Option<map<string, Json>>): map<string, Json>
  {
    m.GetOr(map[])
  }

  /** `m[k].(string)`: the string under `k`, if the key is there and holds a string. */
  function StringAt(m: map<string, Json>, k: string): (r: Option<string>)
    ensures r.Some? <==> k in m && m[k].JStr?
    ensures r.Some? ==> m[k] == JStr(r.value)
  {
    if k in m && m[k].JStr? then Some(m[k].str) else None
  }

  /** `m[k].(map[string]interface{})`: the object under `k`, if the key is there and holds one. */
  function ObjectAt(m: map<string, Json>, k: string): (r: Option<map<string, Json>>)
    ensures r.Some? <==> k in m && m[k].JObj?
    ensures r.Some? ==> m[k] == JObj(r.value)
  {
    if k in m && m[k].JObj? then Some(m[k].fields) else None
  }

  /** `m[k].([]interface{})`: the array under `k`, if the key is there and holds one. */
  function ArrayAt(m: map<string, Json>, k: string): (r: Option<seq<Json>>)
    ensures r.Some? <==> k in m && m[k].JArr?
    ensures r.Some? ==> m[k] == JArr(r.value)
  {
    if k in m && m[k].JArr? then Some(m[k].items) else None
  }

  /** RunInstances: `responseElements.instancesSet.items[0].instanceId`, each level type-checked. */
  function Ec2RunInstancesId(resp: map<string, Json>): string
  {
    match ObjectAt(resp, "instancesSet")
    case None => ""
    case Some(instancesSet) =>
      match ArrayAt(instancesSet, "items")
      case None => ""
      case Some(items) =>
        if |items| > 0 && items[0].JObj? then StringAt(items[0].fields, "instanceId").GetOr("")
        else ""
  }

  /** TerminateInstances: `requestParameters.instanceId`, either a string or an array whose first element is one. */
  function Ec2TerminateId(req: map<string, Json>): string
  {
    if "instanceId" in req then
      match req["instanceId"]
      case JArr(v) => if |v| > 0 && v[0].JStr? then v[0].str else ""
      case JStr(v) => v
      case _ => ""
    else ""
  }

  /** `responseElements.<outer>.<inner>`, both levels type-checked. */
  function NestedId(resp: map<string, Json>, outer: string, inner: string): string
  {
    match ObjectAt(resp, outer)
    case None => ""
    case Some(o) => StringAt(o, inner).GetOr("")
  }

  /** A string in the response under `respKey`, else a string in the request under `reqKey`. */
  function ResponseThenRequestId(resp: map<string, Json>, respKey: string,
                                 req: map<string, Json>, reqKey: string): string
  {
    match StringAt(resp, respKey)
    case Some(id) => id
    case None => StringAt(req, reqKey).GetOr("")
  }

  /** A string in the request under `key`, else empty. */
  function RequestId(req: map<string, Json>, key: string): string
  {
    StringAt(req, key).GetOr("")
  }

  /** A parameter map as it is encoded back to JSON: a nil map becomes `null`. */
  function EntriesJson(m: Option<map<string, Json>>): Json
  {
    match m
    case None => JNull
    case Some(fields) => JObj(fields)
  }

  /** The detail body as the JSON object `mustMarshal` produces and `json.Unmarshal` reads back. */
  function DetailJson(d: Detail): Json
  {
    JObj(map["eventName" := JStr(d.eventName),
             "requestParameters" := EntriesJson(d.requestParameters),
             "responseElements" := EntriesJson(d.responseElements)])
  }

  /** Reads a parameter map back from JSON: `null` is a nil map; anything else but an object is malformed. */
  function ParseEntries(j: Json): Option<Option<map<string, Json>>>
  {
    match j
    case JNull => Some(None)
    case JObj(fields) => Some(Some(fields))
    case _ => None
  }

  /** Reads a detail body back from the JSON object it was encoded as. */
  function ParseDetail(j: Json): Option<Detail>
  {
    if j.JObj? && "eventName" in j.fields && j.fields["eventName"].JStr?
       && "requestParameters" in j.fields && "responseElements" in j.fields
    then
      match (ParseEntries(j.fields["requestParameters"]), ParseEntries(j.fields["responseElements"]))
      case (Some(req), Some(resp)) => Some(Detail(j.fields["eventName"].str, req, resp))
      case _ => None
    else None
  }

  /** Encoding a detail body loses nothing: it reads back as the same body. */
  lemma DetailRoundTrip(d: Detail)
    ensures ParseDetail(DetailJson(d)) == Some(d)
  {
  }

  /**
   * The switch of mapEventToDelta: the action, resource type and identifier
   * chosen by the exact `source` tag and the lower-cased event `name`.
   * The new state is set afterwards, by `MapEventToDelta`.
   */
  function SwitchOnSource(source: string, name: string, req: map<string, Json>, resp: map<string, Json>): EventDelta
  {
    var state := None;
    if source == "aws.ec2" then
      if name == "runinstances" then EventDelta(Create, "EC2Instance", Ec2RunInstancesId(resp), state)
      else if name == "terminateinstances" then EventDelta(Delete, "EC2Instance", Ec2TerminateId(req), state)
      else EventDelta(Update, "EC2Instance", RequestId(req, "instanceId"), state)
    else if source == "aws.vpc" then
      if name == "createvpc" then EventDelta(Create, "VPC", NestedId(resp, "vpc", "vpcId"), state)
      else if name == "deletevpc" then EventDelta(Delete, "VPC", RequestId(req, "vpcId"), state)
      else EventDelta(Update, "VPC", RequestId(req, "vpcId"), state)
    else if source == "aws.iam" then
      if name == "createuser" then EventDelta(Create, "IAMUser", NestedId(resp, "user", "userName"), state)
      else if name == "deleteuser" then EventDelta(Delete, "IAMUser", RequestId(req, "userName"), state)
      else EventDelta(Update, "IAMUser", RequestId(req, "userName"), state)
    else if source == "aws.autoscaling" then
      if name == "createautoscalinggroup" then
        EventDelta(Create, "AutoScalingGroup",
                   ResponseThenRequestId(resp, "autoScalingGroupName", req, "autoScalingGroupName"), state)
      else if name == "deleteautoscalinggroup" then
        EventDelta(Delete, "AutoScalingGroup", RequestId(req, "autoScalingGroupName"), state)
      else EventDelta(Update, "AutoScalingGroup", RequestId(req, "autoScalingGroupName"), state)
    else if source == "aws.elb" then
      if name == "createloadbalancer" then
        EventDelta(Create, "LoadBalancer",
                   ResponseThenRequestId(resp, "loadBalancerName", req, "loadBalancerName"), state)
      else if name == "deleteloadbalancer" then
        EventDelta(Delete, "LoadBalancer", RequestId(req, "loadBalancerName"), state)
      else EventDelta(Update, "LoadBalancer", RequestId(req, "loadBalancerName"), state)
    else if source == "aws.eks" then
      if name == "createcluster" then EventDelta(Create, "EKSCluster", NestedId(resp, "cluster", "name"), state)
      else if name == "deletecluster" then EventDelta(Delete, "EKSCluster", RequestId(req, "name"), state)
      else EventDelta(Update, "EKSCluster", RequestId(req, "name"), state)
    else if source == "aws.elasticache" then
      if name == "createcachecluster" then
        EventDelta(Create, "ElastiCache",
                   ResponseThenRequestId(resp, "cacheClusterId", req, "cacheClusterId"), state)
      else if name == "deletecachecluster" then
        EventDelta(Delete, "ElastiCache", RequestId(req, "cacheClusterId"), state)
      else EventDelta(Update, "ElastiCache", RequestId(req, "cacheClusterId"), state)
    else if source == "aws.route53" then
      if name == "createhostedzone" then
        EventDelta(Create, "Route53HostedZone", NestedId(resp, "hostedZone", "id"), state)
      else if name == "deletehostedzone" then EventDelta(Delete, "Route53HostedZone", RequestId(req, "id"), state)
      else EventDelta(Update, "Route53HostedZone", RequestId(req, "id"), state)
    else if source == "aws.s3" then
      if name == "createbucket" then
        EventDelta(Create, "S3Bucket", ResponseThenRequestId(resp, "bucketName", req, "bucket"), state)
      else if name == "deletebucket" then EventDelta(Delete, "S3Bucket", RequestId(req, "bucket"), state)
      else EventDelta(Update, "S3Bucket", RequestId(req, "bucket"), state)
    else
      EventDelta(Update, "Unknown", "", state)
  }

  /** The new state: a one-key map holding the full detail body under "detail". */
  function NewStateOf(d: Detail): Option<map<string, Json>>
  {
    Some(map["detail" := DetailJson(d)])
  }

  /** mapEventToDelta: classify one event by its source, then by its lower-cased event name. */
  function MapEventToDelta(cte: CloudTrailEvent): EventDelta
  {
    var delta := SwitchOnSource(cte.source, Text.ToLower(cte.detail.eventName),
                                Entries(cte.detail.requestParameters), Entries(cte.detail.responseElements));
    delta.(newState := NewStateOf(cte.detail))
  }

  /** The handler's gate: a delta is forwarded only when it names a resource. */
  predicate ShouldForward(delta: EventDelta)
  {
    delta.resourceId != ""
  }

  /** What the handler does with a decoded event. */
  datatype Disposition = Ignored | Forward(delta: EventDelta)

  /**
   * eventHandler after decoding: classify, then acknowledge without forwarding
   * when no identifier was extracted.
   */
  function HandleEvent(cte: CloudTrailEvent): (r: Disposition)
    ensures r.Forward? ==> r.delta == MapEventToDelta(cte) && r.delta.resourceId != ""
    ensures r.Ignored? <==> MapEventToDelta(cte).resourceId == ""
  {
    var delta := MapEventToDelta(cte);
    if ShouldForward(delta) then Forward(delta) else Ignored
  }
}
