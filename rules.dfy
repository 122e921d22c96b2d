/**
 * The classifier restated as a table: one row per resource family, each row
 * naming the family's create and delete event names and, per branch, the
 * paths an identifier is read from. This is an independent reference
 * definition; `MapEventToDeltaMatchesTable` proves the branch-by-branch
 * classifier equal to it on every event.
 */
module Rules {
  import opened Wrappers
  import opened Json
  import Text
  import opened Events

  /** Which parameter object a path starts from. */
  datatype Root = Request | Response

  /** A path to an identifier, from the request parameters or the response elements. */
  datatype IdPath = IdPath(root: Root, steps: seq<Step>)

  /**
   * One resource family: the exact `source` tag, the resource type it sets,
   * the lower-case event names of its create and delete calls, the request
   * parameter that names the resource, and the identifier paths tried, in
   * order, on the create and delete branches.
   */
  datatype Family = Family(
    source: string,
    resourceType: string,
    createName: string,
    deleteName: string,
    requestKey: string,
    createPaths: seq<IdPath>,
    deletePaths: seq<IdPath>)
  {
    /** Any other event name reads the request parameter that names the resource. */
    function UpdatePaths(): seq<IdPath>
    {
      [IdPath(Request, [Key(requestKey)])]
    }
  }

  /** A family whose create response nests the identifier one object deep. */
  function NestedFamily(source: string, resourceType: string, createName: string, deleteName: string,
                        outer: string, inner: string, reqKey: string): Family
  {
    Family(source, resourceType, createName, deleteName, reqKey,
           [IdPath(Response, [Key(outer), Key(inner)])],
           [IdPath(Request, [Key(reqKey)])])
  }

  /** A family whose create response holds the identifier at the top, with the request as fallback. */
  function FlatFamily(source: string, resourceType: string, createName: string, deleteName: string,
                      respKey: string, reqKey: string): Family
  {
    Family(source, resourceType, createName, deleteName, reqKey,
           [IdPath(Response, [Key(respKey)]), IdPath(Request, [Key(reqKey)])],
           [IdPath(Request, [Key(reqKey)])])
  }

  const Ec2Family: Family :=
    Family("aws.ec2", "EC2Instance", "runinstances", "terminateinstances", "instanceId",
           [IdPath(Response, [Key("instancesSet"), Key("items"), Index(0), Key("instanceId")])],
           [IdPath(Request, [Key("instanceId")]), IdPath(Request, [Key("instanceId"), Index(0)])])

  const VpcFamily: Family := NestedFamily("aws.vpc", "VPC", "createvpc", "deletevpc", "vpc", "vpcId", "vpcId")
  const IamFamily: Family := NestedFamily("aws.iam", "IAMUser", "createuser", "deleteuser", "user", "userName", "userName")
  const AutoScalingFamily: Family :=
    FlatFamily("aws.autoscaling", "AutoScalingGroup", "createautoscalinggroup", "deleteautoscalinggroup",
               "autoScalingGroupName", "autoScalingGroupName")
  const ElbFamily: Family :=
    FlatFamily("aws.elb", "LoadBalancer", "createloadbalancer", "deleteloadbalancer",
               "loadBalancerName", "loadBalancerName")
  const EksFamily: Family := NestedFamily("aws.eks", "EKSCluster", "createcluster", "deletecluster", "cluster", "name", "name")
  const ElastiCacheFamily: Family :=
    FlatFamily("aws.elasticache", "ElastiCache", "createcachecluster", "deletecachecluster",
               "cacheClusterId", "cacheClusterId")
  const Route53Family: Family :=
    NestedFamily("aws.route53", "Route53HostedZone", "createhostedzone", "deletehostedzone", "hostedZone", "id", "id")
  const S3Family: Family := FlatFamily("aws.s3", "S3Bucket", "createbucket", "deletebucket", "bucketName", "bucket")

  /** The nine recognized families, in the order the source's switch lists them. */
  const Families: seq<Family> :=
    [Ec2Family, VpcFamily, IamFamily, AutoScalingFamily, ElbFamily,
     EksFamily, ElastiCacheFamily, Route53Family, S3Family]

  /** The first family in `fams` whose tag is `source`. */
  function FindFamily(fams: seq<Family>, source: string): (r: Option<Family>)
    ensures r.Some? ==> r.value in fams && r.value.source == source
    ensures r.None? ==> forall f :: f in fams ==> f.source != source
  {
    if fams == [] then None
    else if fams[0].source == source then Some(fams[0])
    else FindFamily(fams[1..], source)
  }

  /** The JSON value a path starts from. */
  function RootValue(d: Detail, root: Root): Json
  {
    match root
    case Request => JObj(Entries(d.requestParameters))
    case Response => JObj(Entries(d.responseElements))
  }

  /** The string at the first path in `paths` that leads to one. */
  function FirstString(d: Detail, paths: seq<IdPath>): (r: Option<string>)
    ensures r.Some? ==> exists p :: p in paths && LookupString(RootValue(d, p.root), p.steps) == r
    ensures r.None? ==> forall p :: p in paths ==> LookupString(RootValue(d, p.root), p.steps).None?
    ensures r.Some? ==> exists i :: 0 <= i < |paths| && LookupString(RootValue(d, paths[i].root), paths[i].steps) == r
                                 && forall j :: 0 <= j < i ==> LookupString(RootValue(d, paths[j].root), paths[j].steps).None?
  {
    if paths == [] then None
    else match LookupString(RootValue(d, paths[0].root), paths[0].steps)
      case Some(id) => Some(id)
      case None => FirstString(d, paths[1..])
  }

  /**
   * The table's switch: the action, resource type and identifier for a
   * `source` and a lower-cased event `name`. Like the source's switch, it
   * leaves the new state unset.
   */
  function SwitchByTable(source: string, name: string, d: Detail): EventDelta
  {
    match FindFamily(Families, source)
    case None => EventDelta(Update, "Unknown", "", None)
    case Some(f) =>
      var (action, paths) :=
        if name == f.createName then (Create, f.createPaths)
        else if name == f.deleteName then (Delete, f.deletePaths)
        else (Update, f.UpdatePaths());
      EventDelta(action, f.resourceType, FirstString(d, paths).GetOr(""), None)
  }

  /** The delta the table prescribes for an event. */
  function ClassifyByTable(cte: CloudTrailEvent): EventDelta
  {
    SwitchByTable(cte.source, Text.ToLower(cte.detail.eventName), cte.detail).(newState := NewStateOf(cte.detail))
  }

  /** Every family's tag is one of the recognized sources, and no family's type is "Unknown". */
  lemma FamilySourcesKnown()
    ensures forall f :: f in Families ==> f.source in KnownSources && f.resourceType != "Unknown"
  {
  }

  /** The nine source tags are distinct: each differs from every tag listed before it in the switch. */
  lemma SourceTagsDistinct()
    ensures "aws.vpc" != "aws.ec2"
    ensures "aws.iam" != "aws.ec2" && "aws.iam" != "aws.vpc"
    ensures "aws.autoscaling" != "aws.ec2" && "aws.autoscaling" != "aws.vpc" && "aws.autoscaling" != "aws.iam"
    ensures "aws.elb" != "aws.ec2" && "aws.elb" != "aws.vpc" && "aws.elb" != "aws.iam" && "aws.elb" != "aws.autoscaling"
    ensures "aws.eks" != "aws.ec2" && "aws.eks" != "aws.vpc" && "aws.eks" != "aws.iam" && "aws.eks" != "aws.autoscaling" && "aws.eks" != "aws.elb"
    ensures "aws.elasticache" != "aws.ec2" && "aws.elasticache" != "aws.vpc" && "aws.elasticache" != "aws.iam" && "aws.elasticache" != "aws.autoscaling" && "aws.elasticache" != "aws.elb" && "aws.elasticache" != "aws.eks"
    ensures "aws.route53" != "aws.ec2" && "aws.route53" != "aws.vpc" && "aws.route53" != "aws.iam" && "aws.route53" != "aws.autoscaling" && "aws.route53" != "aws.elb" && "aws.route53" != "aws.eks" && "aws.route53" != "aws.elasticache"
    ensures "aws.s3" != "aws.ec2" && "aws.s3" != "aws.vpc" && "aws.s3" != "aws.iam" && "aws.s3" != "aws.autoscaling" && "aws.s3" != "aws.elb" && "aws.s3" != "aws.eks" && "aws.s3" != "aws.elasticache" && "aws.s3" != "aws.route53"
  {
  }

  /** No two families of the table share a source tag. */
  lemma SourcesDistinct()
    ensures forall i, j :: 0 <= i < j < |Families| ==> Families[i].source != Families[j].source
  {
    SourceTagsDistinct();
  }

  /** The family whose tag comes first in the table is the one found. */
  lemma {:induction false} FindFamilyAt(fams: seq<Family>, i: nat)
    requires i < |fams|
    requires forall j :: 0 <= j < i ==> fams[j].source != fams[i].source
    ensures FindFamily(fams, fams[i].source) == Some(fams[i])
  {
    if i > 0 {
      FindFamilyAt(fams[1..], i - 1);
    }
  }

  /** The tags in the table are distinct, so each family is the one found for its own tag. */
  lemma FindKnownFamily(i: nat)
    requires i < |Families|
    ensures FindFamily(Families, Families[i].source) == Some(Families[i])
  {
    SourcesDistinct();
    FindFamilyAt(Families, i);
  }


  /** Every family in the table is the one found for its own tag. */
  lemma FindFamilyOfMember(f: Family)
    requires f in Families
    ensures FindFamily(Families, f.source) == Some(f)
  {
    var i :| 0 <= i < |Families| && Families[i] == f;
    FindKnownFamily(i);
  }

  /**
   * A well-formed row: the create and delete names differ, the delete rule
   * reads only the request, and every family but EC2 deletes by the same
   * request key it updates by.
   */
  predicate WellFormed(f: Family)
  {
    && f.createName != f.deleteName
    && (forall p :: p in f.deletePaths ==> p.root == Request)
    && (f.source != "aws.ec2" ==> f.deletePaths == f.UpdatePaths())
  }

  /** Every row of the table is well formed. */
  lemma FamilyFacts()
    ensures forall f :: f in Families ==> WellFormed(f)
  {
    assert WellFormed(Ec2Family);
    assert WellFormed(VpcFamily);
    assert WellFormed(IamFamily);
    assert WellFormed(AutoScalingFamily);
    assert WellFormed(ElbFamily);
    assert WellFormed(EksFamily);
    assert WellFormed(ElastiCacheFamily);
    assert WellFormed(Route53Family);
    assert WellFormed(S3Family);
  }

  /** A one-key path reads the same string as `m[k].(string)`. */
  lemma LookupKeyString(m: map<string, Json>, k: string)
    ensures LookupString(JObj(m), [Key(k)]) == StringAt(m, k)
  {
    LookupOne(JObj(m), Key(k));
  }

  /** A two-key path reads the same identifier as the nested type assertions. */
  lemma LookupNestedString(m: map<string, Json>, outer: string, inner: string)
    ensures LookupString(JObj(m), [Key(outer), Key(inner)]).GetOr("") == NestedId(m, outer, inner)
  {
    LookupCons(JObj(m), Key(outer), [Key(inner)]);
    assert [Key(outer), Key(inner)] == [Key(outer)] + [Key(inner)];
    if outer in m {
      LookupOne(m[outer], Key(inner));
    }
  }

  /** The EC2 create path reads the same identifier as the four nested type assertions. */
  lemma LookupRunInstances(d: Detail)
    ensures FirstString(d, Ec2Family.createPaths).GetOr("") == Ec2RunInstancesId(Entries(d.responseElements))
  {
    var resp := Entries(d.responseElements);
    var steps := Ec2Family.createPaths[0].steps;
    assert steps == [Key("instancesSet")] + ([Key("items")] + ([Index(0)] + [Key("instanceId")]));
    LookupCons(JObj(resp), Key("instancesSet"), [Key("items")] + ([Index(0)] + [Key("instanceId")]));
    if "instancesSet" in resp {
      var instances := resp["instancesSet"];
      LookupCons(instances, Key("items"), [Index(0)] + [Key("instanceId")]);
      if instances.JObj? && "items" in instances.fields {
        var items := instances.fields["items"];
        LookupCons(items, Index(0), [Key("instanceId")]);
        if items.JArr? && |items.items| > 0 {
          LookupOne(items.items[0], Key("instanceId"));
        }
      }
    }
    assert Ec2Family.createPaths[1..] == [];
  }

  /** The two EC2 terminate paths, tried in order, read the same identifier as the type switch. */
  lemma LookupTerminateInstances(d: Detail)
    ensures FirstString(d, Ec2Family.deletePaths).GetOr("") == Ec2TerminateId(Entries(d.requestParameters))
  {
    var req := Entries(d.requestParameters);
    var paths := Ec2Family.deletePaths;
    LookupKeyString(req, "instanceId");
    LookupCons(JObj(req), Key("instanceId"), [Index(0)]);
    assert paths[1].steps == [Key("instanceId")] + [Index(0)];
    if "instanceId" in req {
      LookupOne(req["instanceId"], Index(0));
    }
    assert paths[1..][1..] == [];
  }

  /** A request-only rule reads the same identifier as `requestParameters[key].(string)`. */
  lemma LookupRequestOnly(d: Detail, key: string)
    ensures FirstString(d, [IdPath(Request, [Key(key)])]).GetOr("") == RequestId(Entries(d.requestParameters), key)
  {
    LookupKeyString(Entries(d.requestParameters), key);
    assert [IdPath(Request, [Key(key)])][1..] == [];
  }

  /** A nested create rule reads the same identifier as the two nested type assertions. */
  lemma LookupNestedRule(d: Detail, outer: string, inner: string)
    ensures FirstString(d, [IdPath(Response, [Key(outer), Key(inner)])]).GetOr("")
         == NestedId(Entries(d.responseElements), outer, inner)
  {
    LookupNestedString(Entries(d.responseElements), outer, inner);
    assert [IdPath(Response, [Key(outer), Key(inner)])][1..] == [];
  }

  /** A flat create rule reads the response first and falls back to the request. */
  lemma LookupFlatRule(d: Detail, respKey: string, reqKey: string)
    ensures FirstString(d, [IdPath(Response, [Key(respKey)]), IdPath(Request, [Key(reqKey)])]).GetOr("")
         == ResponseThenRequestId(Entries(d.responseElements), respKey, Entries(d.requestParameters), reqKey)
  {
    var paths := [IdPath(Response, [Key(respKey)]), IdPath(Request, [Key(reqKey)])];
    LookupKeyString(Entries(d.responseElements), respKey);
    LookupKeyString(Entries(d.requestParameters), reqKey);
    assert paths[1..] == [IdPath(Request, [Key(reqKey)])];
    assert paths[1..][1..] == [];
  }

  /** Once the family is found, the table's switch takes that family's branch for the name. */
  lemma SwitchByFamily(source: string, name: string, d: Detail, f: Family)
    requires FindFamily(Families, source) == Some(f)
    ensures var paths := if name == f.createName then f.createPaths
                         else if name == f.deleteName then f.deletePaths
                         else f.UpdatePaths();
            SwitchByTable(source, name, d)
            == EventDelta(if name == f.createName then Create else if name == f.deleteName then Delete else Update,
                          f.resourceType, FirstString(d, paths).GetOr(""), None)
  {
  }

  lemma Ec2MatchesTable(name: string, d: Detail)
    ensures SwitchOnSource("aws.ec2", name, Entries(d.requestParameters), Entries(d.responseElements))
         == SwitchByTable("aws.ec2", name, d)
  {
    SourceTagsDistinct();
    FindKnownFamily(0);
    SwitchByFamily("aws.ec2", name, d, Ec2Family);
    if name == "runinstances" {
      LookupRunInstances(d);
    } else if name == "terminateinstances" {
      LookupTerminateInstances(d);
    } else {
      LookupRequestOnly(d, "instanceId");
    }
  }

  lemma VpcMatchesTable(name: string, d: Detail)
    ensures SwitchOnSource("aws.vpc", name, Entries(d.requestParameters), Entries(d.responseElements))
         == SwitchByTable("aws.vpc", name, d)
  {
    SourceTagsDistinct();
    FindKnownFamily(1);
    SwitchByFamily("aws.vpc", name, d, VpcFamily);
    if name == "createvpc" {
      LookupNestedRule(d, "vpc", "vpcId");
    } else if name == "deletevpc" {
      LookupRequestOnly(d, "vpcId");
    } else {
      LookupRequestOnly(d, "vpcId");
    }
  }

  lemma IamMatchesTable(name: string, d: Detail)
    ensures SwitchOnSource("aws.iam", name, Entries(d.requestParameters), Entries(d.responseElements))
         == SwitchByTable("aws.iam", name, d)
  {
    SourceTagsDistinct();
    FindKnownFamily(2);
    SwitchByFamily("aws.iam", name, d, IamFamily);
    if name == "createuser" {
      LookupNestedRule(d, "user", "userName");
    } else if name == "deleteuser" {
      LookupRequestOnly(d, "userName");
    } else {
      LookupRequestOnly(d, "userName");
    }
  }

  lemma AutoScalingMatchesTable(name: string, d: Detail)
    ensures SwitchOnSource("aws.autoscaling", name, Entries(d.requestParameters), Entries(d.responseElements))
         == SwitchByTable("aws.autoscaling", name, d)
  {
    SourceTagsDistinct();
    FindKnownFamily(3);
    SwitchByFamily("aws.autoscaling", name, d, AutoScalingFamily);
    if name == "createautoscalinggroup" {
      LookupFlatRule(d, "autoScalingGroupName", "autoScalingGroupName");
    } else if name == "deleteautoscalinggroup" {
      LookupRequestOnly(d, "autoScalingGroupName");
    } else {
      LookupRequestOnly(d, "autoScalingGroupName");
    }
  }

  lemma ElbMatchesTable(name: string, d: Detail)
    ensures SwitchOnSource("aws.elb", name, Entries(d.requestParameters), Entries(d.responseElements))
         == SwitchByTable("aws.elb", name, d)
  {
    SourceTagsDistinct();
    FindKnownFamily(4);
    SwitchByFamily("aws.elb", name, d, ElbFamily);
    if name == "createloadbalancer" {
      LookupFlatRule(d, "loadBalancerName", "loadBalancerName");
    } else if name == "deleteloadbalancer" {
      LookupRequestOnly(d, "loadBalancerName");
    } else {
      LookupRequestOnly(d, "loadBalancerName");
    }
  }

  lemma EksMatchesTable(name: string, d: Detail)
    ensures SwitchOnSource("aws.eks", name, Entries(d.requestParameters), Entries(d.responseElements))
         == SwitchByTable("aws.eks", name, d)
  {
    SourceTagsDistinct();
    FindKnownFamily(5);
    SwitchByFamily("aws.eks", name, d, EksFamily);
    if name == "createcluster" {
      LookupNestedRule(d, "cluster", "name");
    } else if name == "deletecluster" {
      LookupRequestOnly(d, "name");
    } else {
      LookupRequestOnly(d, "name");
    }
  }

  lemma ElastiCacheMatchesTable(name: string, d: Detail)
    ensures SwitchOnSource("aws.elasticache", name, Entries(d.requestParameters), Entries(d.responseElements))
         == SwitchByTable("aws.elasticache", name, d)
  {
    SourceTagsDistinct();
    FindKnownFamily(6);
    SwitchByFamily("aws.elasticache", name, d, ElastiCacheFamily);
    if name == "createcachecluster" {
      LookupFlatRule(d, "cacheClusterId", "cacheClusterId");
    } else if name == "deletecachecluster" {
      LookupRequestOnly(d, "cacheClusterId");
    } else {
      LookupRequestOnly(d, "cacheClusterId");
    }
  }

  lemma Route53MatchesTable(name: string, d: Detail)
    ensures SwitchOnSource("aws.route53", name, Entries(d.requestParameters), Entries(d.responseElements))
         == SwitchByTable("aws.route53", name, d)
  {
    SourceTagsDistinct();
    FindKnownFamily(7);
    SwitchByFamily("aws.route53", name, d, Route53Family);
    if name == "createhostedzone" {
      LookupNestedRule(d, "hostedZone", "id");
    } else if name == "deletehostedzone" {
      LookupRequestOnly(d, "id");
    } else {
      LookupRequestOnly(d, "id");
    }
  }

  lemma S3MatchesTable(name: string, d: Detail)
    ensures SwitchOnSource("aws.s3", name, Entries(d.requestParameters), Entries(d.responseElements))
         == SwitchByTable("aws.s3", name, d)
  {
    SourceTagsDistinct();
    FindKnownFamily(8);
    SwitchByFamily("aws.s3", name, d, S3Family);
    if name == "createbucket" {
      LookupFlatRule(d, "bucketName", "bucket");
    } else if name == "deletebucket" {
      LookupRequestOnly(d, "bucket");
    } else {
      LookupRequestOnly(d, "bucket");
    }
  }

  lemma UnknownMatchesTable(source: string, name: string, d: Detail)
    requires source !in KnownSources
    ensures SwitchOnSource(source, name, Entries(d.requestParameters), Entries(d.responseElements))
         == SwitchByTable(source, name, d)
  {
    assert FindFamily(Families, source) == None by {
      FamilySourcesKnown();
    }
  }

  /**
   * The branch-by-branch classifier and the table agree on every event:
   * same action, resource type, identifier and new state.
   */
  lemma MapEventToDeltaMatchesTable(cte: CloudTrailEvent)
    ensures MapEventToDelta(cte) == ClassifyByTable(cte)
  {
    var name, d := Text.ToLower(cte.detail.eventName), cte.detail;
    if cte.source == "aws.ec2" {
      Ec2MatchesTable(name, d);
    } else if cte.source == "aws.vpc" {
      VpcMatchesTable(name, d);
    } else if cte.source == "aws.iam" {
      IamMatchesTable(name, d);
    } else if cte.source == "aws.autoscaling" {
      AutoScalingMatchesTable(name, d);
    } else if cte.source == "aws.elb" {
      ElbMatchesTable(name, d);
    } else if cte.source == "aws.eks" {
      EksMatchesTable(name, d);
    } else if cte.source == "aws.elasticache" {
      ElastiCacheMatchesTable(name, d);
    } else if cte.source == "aws.route53" {
      Route53MatchesTable(name, d);
    } else if cte.source == "aws.s3" {
      S3MatchesTable(name, d);
    } else {
      UnknownMatchesTable(cte.source, name, d);
    }
  }
}
