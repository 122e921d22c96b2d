/**
 * Properties of the classifier and of the handler's forwarding gate: the
 * fallback for unrecognized sources, the fixed resource type per source,
 * case-insensitive event names, the action chosen by each family's event
 * names, the identifier paths of each branch, and the shape of the new state.
 */
module EventProperties {
  import opened Wrappers
  import opened Json
  import opened Text
  import opened Events
  import opened Rules

  /** An event with its event name replaced. */
  function WithEventName(cte: CloudTrailEvent, name: string): CloudTrailEvent
  {
    cte.(detail := cte.detail.(eventName := name))
  }

  /** Two deltas agree on everything the switch decides: action, resource type and identifier. */
  predicate SameClassification(a: EventDelta, b: EventDelta)
  {
    a.action == b.action && a.resourceType == b.resourceType && a.resourceId == b.resourceId
  }

  // ----- Unrecognized sources -----

  /** An unrecognized source gives an "Unknown" update with no identifier, and is never forwarded. */
  lemma UnknownSource(cte: CloudTrailEvent)
    requires cte.source !in KnownSources
    ensures MapEventToDelta(cte).action == Update
    ensures MapEventToDelta(cte).resourceType == "Unknown"
    ensures MapEventToDelta(cte).resourceId == ""
    ensures HandleEvent(cte) == Ignored
  {
  }

  // ----- Resource type -----

  /** The family found for a source sets that family's resource type, whatever the event name. */
  lemma ResourceTypeOfFamily(cte: CloudTrailEvent, i: nat)
    requires i < |Families| && cte.source == Families[i].source
    ensures MapEventToDelta(cte).resourceType == Families[i].resourceType
  {
    MapEventToDeltaMatchesTable(cte);
    FindKnownFamily(i);
  }

  /** Each recognized source sets a fixed resource type. */
  lemma ResourceTypeBySource(cte: CloudTrailEvent)
    ensures cte.source == "aws.ec2" ==> MapEventToDelta(cte).resourceType == "EC2Instance"
    ensures cte.source == "aws.vpc" ==> MapEventToDelta(cte).resourceType == "VPC"
    ensures cte.source == "aws.iam" ==> MapEventToDelta(cte).resourceType == "IAMUser"
    ensures cte.source == "aws.autoscaling" ==> MapEventToDelta(cte).resourceType == "AutoScalingGroup"
    ensures cte.source == "aws.elb" ==> MapEventToDelta(cte).resourceType == "LoadBalancer"
    ensures cte.source == "aws.eks" ==> MapEventToDelta(cte).resourceType == "EKSCluster"
    ensures cte.source == "aws.elasticache" ==> MapEventToDelta(cte).resourceType == "ElastiCache"
    ensures cte.source == "aws.route53" ==> MapEventToDelta(cte).resourceType == "Route53HostedZone"
    ensures cte.source == "aws.s3" ==> MapEventToDelta(cte).resourceType == "S3Bucket"
  {
    SourceTagsDistinct();
  }


  /** The resource type depends on the source alone. */
  lemma ResourceTypeIgnoresDetail(a: CloudTrailEvent, b: CloudTrailEvent)
    requires a.source == b.source
    ensures MapEventToDelta(a).resourceType == MapEventToDelta(b).resourceType
  {
    MapEventToDeltaMatchesTable(a);
    MapEventToDeltaMatchesTable(b);
  }

  /** "Unknown" is the resource type of exactly the unrecognized sources. */
  lemma UnknownTypeIffUnknownSource(cte: CloudTrailEvent)
    ensures MapEventToDelta(cte).resourceType == "Unknown" <==> cte.source !in KnownSources
  {
    MapEventToDeltaMatchesTable(cte);
    FamilySourcesKnown();
    if cte.source !in KnownSources {
      UnknownSource(cte);
    }
  }

  // ----- Event names -----

  /** Event names are matched case-insensitively: names with the same lower case classify alike. */
  lemma CaseInsensitive(cte: CloudTrailEvent, name: string)
    requires ToLower(name) == ToLower(cte.detail.eventName)
    ensures SameClassification(MapEventToDelta(WithEventName(cte, name)), MapEventToDelta(cte))
  {
  }

  /**
   * The new state, unlike the classification, keeps the event name as it
   * arrived: two events whose names differ only in letter case give
   * different new states, so their full deltas differ.
   */
  lemma NewStateKeepsNameCase(cte: CloudTrailEvent, name: string)
    requires name != cte.detail.eventName
    ensures MapEventToDelta(WithEventName(cte, name)).newState != MapEventToDelta(cte).newState
  {
    var other := WithEventName(cte, name);
    NewStateCarriesDetail(cte);
    NewStateCarriesDetail(other);
    assert other.detail != cte.detail;
  }

  /** Lower-casing an event name beforehand changes nothing the switch decides. */
  lemma LowerCasedNameClassifiesAlike(cte: CloudTrailEvent)
    ensures SameClassification(MapEventToDelta(WithEventName(cte, ToLower(cte.detail.eventName))), MapEventToDelta(cte))
  {
    ToLowerIdempotent(cte.detail.eventName);
  }

  /**
   * The action: a family's create name gives Create, its delete name gives
   * Delete, and every other name gives Update.
   */
  lemma ActionByEventName(cte: CloudTrailEvent, f: Family)
    requires f in Families && cte.source == f.source
    ensures MapEventToDelta(cte).action == Create <==> ToLower(cte.detail.eventName) == f.createName
    ensures MapEventToDelta(cte).action == Delete <==> ToLower(cte.detail.eventName) == f.deleteName
    ensures MapEventToDelta(cte).action == Update
            <==> ToLower(cte.detail.eventName) != f.createName && ToLower(cte.detail.eventName) != f.deleteName
  {
    MapEventToDeltaMatchesTable(cte);
    FindFamilyOfMember(f);
    FamilyFacts();
  }

  // ----- EC2 identifiers -----

  /** The path RunInstances reads the new instance's identifier from. */
  const RunInstancesPath: seq<Step> := [Key("instancesSet"), Key("items"), Index(0), Key("instanceId")]

  /**
   * RunInstances takes its identifier only from
   * `responseElements.instancesSet.items[0].instanceId`; a missing or mistyped
   * level gives an empty identifier.
   */
  lemma RunInstancesId(cte: CloudTrailEvent)
    requires cte.source == "aws.ec2" && ToLower(cte.detail.eventName) == "runinstances"
    ensures MapEventToDelta(cte).action == Create
    ensures MapEventToDelta(cte).resourceId
            == LookupString(JObj(Entries(cte.detail.responseElements)), RunInstancesPath).GetOr("")
  {
    LookupRunInstances(cte.detail);
    assert Ec2Family.createPaths[1..] == [];
  }

  /** An empty `items` array gives an empty identifier, and the request parameters are never read. */
  lemma RunInstancesEmptyItems(cte: CloudTrailEvent, instancesSet: map<string, Json>)
    requires cte.source == "aws.ec2" && ToLower(cte.detail.eventName) == "runinstances"
    requires "instancesSet" in Entries(cte.detail.responseElements)
    requires Entries(cte.detail.responseElements)["instancesSet"] == JObj(instancesSet)
    requires "items" in instancesSet && instancesSet["items"] == JArr([])
    ensures MapEventToDelta(cte).resourceId == ""
  {
    RunInstancesId(cte);
    var resp := JObj(Entries(cte.detail.responseElements));
    LookupAppend(resp, [Key("instancesSet"), Key("items")], [Index(0), Key("instanceId")]);
    assert RunInstancesPath == [Key("instancesSet"), Key("items")] + [Index(0), Key("instanceId")];
    LookupCons(resp, Key("instancesSet"), [Key("items")]);
    LookupOne(JObj(instancesSet), Key("items"));
    LookupCons(JArr([]), Index(0), [Key("instanceId")]);
  }

  /**
   * TerminateInstances accepts the identifier as a bare string or as the first
   * element of an array under `requestParameters.instanceId`, with the same
   * result, whatever other parameters the request carries.
   */
  lemma TerminateInstancesShapes(cte: CloudTrailEvent, m: map<string, Json>, id: string, rest: seq<Json>)
    requires cte.source == "aws.ec2" && ToLower(cte.detail.eventName) == "terminateinstances"
    ensures var asString := cte.(detail := cte.detail.(requestParameters := Some(m["instanceId" := JStr(id)])));
            var asArray := cte.(detail := cte.detail.(requestParameters := Some(m["instanceId" := JArr([JStr(id)] + rest)])));
            MapEventToDelta(asString).action == Delete
            && MapEventToDelta(asString).resourceId == id
            && MapEventToDelta(asArray).resourceId == id
  {
  }

  /** An empty array, or an array whose first element is not a string, gives an empty identifier. */
  lemma TerminateInstancesBadArray(cte: CloudTrailEvent, items: seq<Json>)
    requires cte.source == "aws.ec2" && ToLower(cte.detail.eventName) == "terminateinstances"
    requires "instanceId" in Entries(cte.detail.requestParameters)
    requires Entries(cte.detail.requestParameters)["instanceId"] == JArr(items)
    requires items == [] || !items[0].JStr?
    ensures MapEventToDelta(cte).resourceId == ""
  {
  }

  // ----- Request-parameter branches -----

  /**
   * Delete and update branches (except EC2's TerminateInstances) read the
   * family's request key and accept only a string there.
   */
  lemma NonCreateReadsRequestKey(cte: CloudTrailEvent, f: Family)
    requires f in Families && cte.source == f.source
    requires ToLower(cte.detail.eventName) != f.createName
    requires f.source == "aws.ec2" ==> ToLower(cte.detail.eventName) != f.deleteName
    ensures MapEventToDelta(cte).resourceId == StringAt(Entries(cte.detail.requestParameters), f.requestKey).GetOr("")
  {
    MapEventToDeltaMatchesTable(cte);
    FindFamilyOfMember(f);
    FamilyFacts();
    LookupRequestOnly(cte.detail, f.requestKey);
  }

  /** Those branches never read the response elements. */
  lemma NonCreateIgnoresResponse(cte: CloudTrailEvent, f: Family, resp: Option<map<string, Json>>)
    requires f in Families && cte.source == f.source
    requires ToLower(cte.detail.eventName) != f.createName
    ensures MapEventToDelta(cte.(detail := cte.detail.(responseElements := resp))).resourceId
         == MapEventToDelta(cte).resourceId
  {
    var other := cte.(detail := cte.detail.(responseElements := resp));
    MapEventToDeltaMatchesTable(cte);
    MapEventToDeltaMatchesTable(other);
    FindFamilyOfMember(f);
    FamilyFacts();
    var paths := if ToLower(cte.detail.eventName) == f.deleteName then f.deletePaths else f.UpdatePaths();
    assert forall p :: p in paths ==> p.root == Request;
    RequestPathsIgnoreResponse(cte.detail, other.detail, paths);
  }

  /** Paths that start from the request read the same in two details with the same request. */
  lemma {:induction false} RequestPathsIgnoreResponse(d: Detail, e: Detail, paths: seq<IdPath>)
    requires d.requestParameters == e.requestParameters
    requires forall p :: p in paths ==> p.root == Request
    ensures FirstString(d, paths) == FirstString(e, paths)
  {
    if paths != [] {
      RequestPathsIgnoreResponse(d, e, paths[1..]);
    }
  }

  // ----- Create branches -----

  /**
   * Create events of autoscaling, elb, elasticache and s3 prefer a string in
   * the response elements and fall back to the request parameters only when
   * there is none; s3 reads `bucketName` from the response but `bucket` from
   * the request.
   */
  lemma CreatePrefersResponse(cte: CloudTrailEvent, respKey: string, reqKey: string)
    requires || (cte.source == "aws.autoscaling" && ToLower(cte.detail.eventName) == "createautoscalinggroup"
                 && respKey == "autoScalingGroupName" && reqKey == "autoScalingGroupName")
             || (cte.source == "aws.elb" && ToLower(cte.detail.eventName) == "createloadbalancer"
                 && respKey == "loadBalancerName" && reqKey == "loadBalancerName")
             || (cte.source == "aws.elasticache" && ToLower(cte.detail.eventName) == "createcachecluster"
                 && respKey == "cacheClusterId" && reqKey == "cacheClusterId")
             || (cte.source == "aws.s3" && ToLower(cte.detail.eventName) == "createbucket"
                 && respKey == "bucketName" && reqKey == "bucket")
    ensures MapEventToDelta(cte).action == Create
    ensures StringAt(Entries(cte.detail.responseElements), respKey).Some? ==>
              MapEventToDelta(cte).resourceId == StringAt(Entries(cte.detail.responseElements), respKey).value
    ensures StringAt(Entries(cte.detail.responseElements), respKey).None? ==>
              MapEventToDelta(cte).resourceId == StringAt(Entries(cte.detail.requestParameters), reqKey).GetOr("")
  {
    SourceTagsDistinct();
  }

  /**
   * Create events of vpc, iam, eks and route53 read the identifier only from
   * an object nested one level deep in the response elements.
   */
  lemma NestedCreateId(cte: CloudTrailEvent, outer: string, inner: string)
    requires || (cte.source == "aws.vpc" && ToLower(cte.detail.eventName) == "createvpc"
                 && outer == "vpc" && inner == "vpcId")
             || (cte.source == "aws.iam" && ToLower(cte.detail.eventName) == "createuser"
                 && outer == "user" && inner == "userName")
             || (cte.source == "aws.eks" && ToLower(cte.detail.eventName) == "createcluster"
                 && outer == "cluster" && inner == "name")
             || (cte.source == "aws.route53" && ToLower(cte.detail.eventName) == "createhostedzone"
                 && outer == "hostedZone" && inner == "id")
    ensures MapEventToDelta(cte).action == Create
    ensures MapEventToDelta(cte).resourceId
            == LookupString(JObj(Entries(cte.detail.responseElements)), [Key(outer), Key(inner)]).GetOr("")
  {
    LookupNestedString(Entries(cte.detail.responseElements), outer, inner);
    SourceTagsDistinct();
  }

  // ----- New state and forwarding -----

  /**
   * The new state is always set, holds exactly one key, "detail", and that
   * entry reads back as the full detail body, whatever branch was taken and
   * whether or not an identifier was found.
   */
  lemma NewStateCarriesDetail(cte: CloudTrailEvent)
    ensures MapEventToDelta(cte).newState.Some?
    ensures MapEventToDelta(cte).newState.value.Keys == {"detail"}
    ensures ParseDetail(MapEventToDelta(cte).newState.value["detail"]) == Some(cte.detail)
  {
    DetailRoundTrip(cte.detail);
  }

  /** The new state depends on the detail body alone, not on the source. */
  lemma NewStateIgnoresSource(a: CloudTrailEvent, b: CloudTrailEvent)
    requires a.detail == b.detail
    ensures MapEventToDelta(a).newState == MapEventToDelta(b).newState
  {
  }

  /** A forwarded delta names a resource of a recognized family. */
  lemma ForwardedDeltaIsKnown(cte: CloudTrailEvent)
    requires HandleEvent(cte).Forward?
    ensures cte.source in KnownSources
    ensures HandleEvent(cte).delta.resourceId != ""
    ensures HandleEvent(cte).delta.resourceType != "Unknown"
  {
    UnknownTypeIffUnknownSource(cte);
  }
}
