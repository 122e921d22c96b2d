/** Proves the classifier's and the forwarding gate's result on concrete events. */
module Scenarios {
  import opened Wrappers
  import opened Json
  import opened Events
  import Text
  import EventProperties

  const DetailType: string := "AWS API Call via CloudTrail"

  /** A concrete name lower-cases as spelled out character by character. */
  lemma LowerCaseOf(s: string, t: string)
    requires |s| == |t| && forall i :: 0 <= i < |s| ==> Text.LowerChar(s[i]) == t[i]
    ensures Text.ToLower(s) == t
  {
  }

  /** An event with the given source, name and parameter maps. */
  function Event(source: string, name: string, req: Option<map<string, Json>>, resp: Option<map<string, Json>>): CloudTrailEvent
  {
    CloudTrailEvent(DetailType, source, Detail(name, req, resp))
  }

  /** The response of a RunInstances call that launched `i-0abc`. */
  const RunInstancesResponse: map<string, Json> :=
    map["instancesSet" := JObj(map["items" := JArr([JObj(map["instanceId" := JStr("i-0abc")])])])]

  /** The identifier path of RunInstances reaches the first instance's `instanceId`. */
  lemma RunInstancesResponseLookup()
    ensures LookupString(JObj(RunInstancesResponse), EventProperties.RunInstancesPath) == Some("i-0abc")
  {
    var first := JObj(map["instanceId" := JStr("i-0abc")]);
    var instancesSet := JObj(map["items" := JArr([first])]);
    var path := EventProperties.RunInstancesPath;
    assert path == [path[0]] + ([path[1]] + ([path[2]] + [path[3]]));
    LookupCons(JObj(RunInstancesResponse), path[0], [path[1]] + ([path[2]] + [path[3]]));
    LookupCons(instancesSet, path[1], [path[2]] + [path[3]]);
    LookupCons(JArr([first]), path[2], [path[3]]);
    LookupOne(first, path[3]);
  }

  /** RunInstances with the new instance in the response is a forwarded EC2 create. */
  lemma RunInstancesScenario()
    ensures var cte := Event("aws.ec2", "RunInstances", None, Some(RunInstancesResponse));
            var delta := MapEventToDelta(cte);
            && delta.action == Create && delta.resourceId == "i-0abc"
            && HandleEvent(cte) == Forward(delta)
  {
    var cte := Event("aws.ec2", "RunInstances", None, Some(RunInstancesResponse));
    LowerCaseOf("RunInstances", "runinstances");
    EventProperties.RunInstancesId(cte);
    RunInstancesResponseLookup();
  }

  /** CreateBucket with no identifier in the response falls back to the request's `bucket`. */
  lemma CreateBucketFallbackScenario()
    ensures var cte := Event("aws.s3", "CreateBucket", Some(map["bucket" := JStr("my-bucket")]), Some(map[]));
            var delta := MapEventToDelta(cte);
            delta.action == Create && delta.resourceType == "S3Bucket" && delta.resourceId == "my-bucket"
  {
    var cte := Event("aws.s3", "CreateBucket", Some(map["bucket" := JStr("my-bucket")]), Some(map[]));
    LowerCaseOf("CreateBucket", "createbucket");
    EventProperties.CreatePrefersResponse(cte, "bucketName", "bucket");
    EventProperties.ResourceTypeOfFamily(cte, 8);
  }

  /** Any event from an unrecognized service is an "Unknown" update that the handler drops. */
  lemma UnknownServiceScenario(name: string, req: Option<map<string, Json>>, resp: Option<map<string, Json>>)
    ensures var cte := Event("aws.unknown-service", name, req, resp);
            var delta := MapEventToDelta(cte);
            && delta.action == Update && delta.resourceType == "Unknown" && delta.resourceId == ""
            && HandleEvent(cte) == Ignored
  {
  }

  /** An update call whose request names the instance by an array is dropped: only a string counts there. */
  lemma ArrayOnUpdateScenario()
    ensures var cte := Event("aws.ec2", "StopInstances", Some(map["instanceId" := JArr([JStr("i-123")])]), None);
            && MapEventToDelta(cte).action == Update && MapEventToDelta(cte).resourceId == ""
            && HandleEvent(cte) == Ignored
  {
    LowerCaseOf("StopInstances", "stopinstances");
  }
}
