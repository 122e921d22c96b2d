# Real-time CloudTrail event classifier

This project models the real-time watcher of the AWS crawler, found in `internal/realtime/events.go`. The watcher receives AWS CloudTrail change notifications through EventBridge. Each one becomes an `EventDelta` with four parts:

- an action: create, update or delete;
- a resource type;
- a resource identifier;
- a new state.

The delta goes to the backend only when an identifier was found.

The classifier `mapEventToDelta` decides in two steps:

1. It matches the exact `source` tag against nine resource families, with a fallback to "Unknown".
2. It matches the lower-cased event name against the family's create name and delete name. Every other name is an update.

Each branch reads the identifier through type-checked lookups into the decoded `requestParameters` and `responseElements`. A missing key or a value of the wrong runtime type leaves the identifier empty; it never fails.

The model is pure, like the source:

- `json.dfy` holds decoded JSON values and safe path lookups. A lookup is the model of a chain of Go type assertions.
- `text.dfy` holds `strings.ToLower` for the characters that can matter.
- `events.dfy` holds the event and delta records, the branch-by-branch classifier `Events.MapEventToDelta` and the handler's forwarding gate `Events.HandleEvent`.
- `rules.dfy` restates the classifier as a table, one row per family. It proves the branchy classifier equal to the table on every event. The table is the independent reference definition.
- `properties.dfy` states and proves the classifier's promises: the fallback, the resource types, case-insensitive names, actions, identifier paths, precedence, the new state and forwarding.
- `scenarios.dfy` proves the classifier's result on concrete events.

A Go map that is nil, because the key was absent or `null`, reads like an empty map but encodes back as `null`. The model keeps that difference: each parameter object is an `Option` of a map.

## Model

| member | source | states |
|---|---|---|
| Text.LowerChar | internal/realtime/events.go:47 | one character's lower case; it agrees with Go's per-rune mapping on every character whose Go lower case is an ASCII letter (A-Z become a-z, U+0130 becomes 'i', U+212A becomes 'k'); every other character stays; the result is one that lower-casing leaves alone |
| Text.ToLower | internal/realtime/events.go:47 | lower-casing keeps the length and maps the character at each position by `Text.LowerChar` |
| Text.ToLowerIdempotent | internal/realtime/events.go:47 | lower-casing an already lower-cased name changes nothing |
| Text.ToLowerOfLower | internal/realtime/events.go:47 | a name made only of characters that lower-casing leaves alone is its own lower case |
| Json.Member | internal/realtime/events.go:56-58 | one checked Go step, `v.(map[string]interface{})[k]` or `v.([]interface{})[i]` with its length check, succeeds exactly when `v` is an object holding `k` or an array longer than `i`, and yields that member |
| Json.LookupString | internal/realtime/events.go:56-63 | a path read succeeds exactly when the path leads to a string, and then yields that string |
| Json.LookupAppend | internal/realtime/events.go:56-63 | nested type assertions compose: a read along `p + q` is a read along `p` followed by a read along `q` |
| Json.LookupPastScalar | internal/realtime/events.go:56-63 | once a path reaches a value that is neither object nor array, every longer path gives nothing rather than an error |
| Json.LookupOne | internal/realtime/events.go:82 | a one-step path is one checked type assertion and index |
| Json.LookupCons | internal/realtime/events.go:56-58 | a path read takes its first checked step, then continues from the value reached |
| Events.Action.Name | internal/realtime/events.go:28 | the action string is one of "create", "update", "delete"; "create" exactly for Create, "delete" exactly for Delete |
| Events.StringAt | internal/realtime/events.go:82 | `m[k].(string)` succeeds exactly when `k` is present and holds a string, and yields it |
| Events.ObjectAt | internal/realtime/events.go:56 | `m[k].(map[string]interface{})` succeeds exactly when `k` is present and holds an object |
| Events.ArrayAt | internal/realtime/events.go:57 | `m[k].([]interface{})` succeeds exactly when `k` is present and holds an array |
| Events.DetailRoundTrip | internal/realtime/events.go:260-264 | encoding the detail body and reading it back yields the same body, including nil versus empty parameter maps |
| Events.HandleEvent | internal/realtime/events.go:285-291 | an event is forwarded, with the classifier's delta, exactly when that delta has a non-empty identifier; otherwise it is ignored |
| Rules.FindFamily | internal/realtime/events.go:49 | the family found has the requested tag and comes from the table; no family found means no row has that tag |
| Rules.FirstString | internal/realtime/events.go:133-137 | the identifier is the string at the first path, in order, that leads to a string, so every earlier path leads to none; none found means no path leads to a string |
| Rules.FamilySourcesKnown | internal/realtime/events.go:49-253 | every family's tag is a recognized source, and no family's type is "Unknown" |
| Rules.SourceTagsDistinct | internal/realtime/events.go:51-234 | the nine `case` tags of the source switch are pairwise distinct |
| Rules.SourcesDistinct | internal/realtime/events.go:49-253 | no two rows of the family table share a source tag |
| Rules.FindFamilyAt | internal/realtime/events.go:49 | the switch picks the first row whose tag matches |
| Rules.FindKnownFamily | internal/realtime/events.go:49-253 | the nine tags are distinct, so each family is the one selected by its own tag |
| Rules.FindFamilyOfMember | internal/realtime/events.go:49-253 | every family in the table is the one selected by its own tag |
| Rules.FamilyFacts | internal/realtime/events.go:53-253 | in every family the create and delete names differ, and the delete branch reads only the request; outside EC2 delete reads the same key as update |
| Rules.LookupKeyString | internal/realtime/events.go:98-100 | a one-key path reads the same string as `m[k].(string)` |
| Rules.LookupNestedString | internal/realtime/events.go:91-95 | a two-key path reads the same identifier as the two nested type assertions |
| Rules.LookupRunInstances | internal/realtime/events.go:53-64 | the table's EC2 create path reads the same identifier as the four nested assertions of RunInstances |
| Rules.LookupTerminateInstances | internal/realtime/events.go:65-79 | the table's two EC2 delete paths, tried in order, read the same identifier as the type switch of TerminateInstances |
| Rules.LookupRequestOnly | internal/realtime/events.go:80-85 | a request-only row reads the same identifier as `requestParameters[key].(string)` |
| Rules.LookupNestedRule | internal/realtime/events.go:89-95 | a nested create row reads the same identifier as the nested assertions |
| Rules.LookupFlatRule | internal/realtime/events.go:131-137 | a flat create row reads the response first and falls back to the request |
| Rules.SwitchByFamily | internal/realtime/events.go:49-253 | once a family is selected, the name picks create, delete or update, with that branch's paths |
| Rules.Ec2MatchesTable | internal/realtime/events.go:51-85 | the EC2 branch equals the EC2 row of the table for every name and detail |
| Rules.VpcMatchesTable | internal/realtime/events.go:87-106 | the VPC branch equals the VPC row |
| Rules.IamMatchesTable | internal/realtime/events.go:108-127 | the IAM branch equals the IAM row |
| Rules.AutoScalingMatchesTable | internal/realtime/events.go:129-148 | the autoscaling branch equals its row |
| Rules.ElbMatchesTable | internal/realtime/events.go:150-169 | the ELB branch equals its row |
| Rules.EksMatchesTable | internal/realtime/events.go:171-190 | the EKS branch equals its row |
| Rules.ElastiCacheMatchesTable | internal/realtime/events.go:192-211 | the ElastiCache branch equals its row |
| Rules.Route53MatchesTable | internal/realtime/events.go:213-232 | the Route53 branch equals its row |
| Rules.S3MatchesTable | internal/realtime/events.go:234-253 | the S3 branch equals its row |
| Rules.UnknownMatchesTable | internal/realtime/events.go:255-258 | for an unrecognized source the fallback equals the table's "no row" case |
| Rules.MapEventToDeltaMatchesTable | internal/realtime/events.go:45-267 | the classifier equals the table on every event: same action, type, identifier and new state |
| EventProperties.UnknownSource | internal/realtime/events.go:255-258 | an unrecognized source gives an "Unknown" update with an empty identifier, which is never forwarded, whatever the name and parameters |
| EventProperties.ResourceTypeOfFamily | internal/realtime/events.go:49-253 | a recognized source sets its family's resource type whatever the event name |
| EventProperties.ResourceTypeBySource | internal/realtime/events.go:52-235 | each of the nine sources sets its fixed resource type (aws.ec2 gives EC2Instance, through aws.s3 giving S3Bucket) |
| EventProperties.ResourceTypeIgnoresDetail | internal/realtime/events.go:49-258 | the resource type depends on the source alone |
| EventProperties.UnknownTypeIffUnknownSource | internal/realtime/events.go:49-258 | the type is "Unknown" exactly when the source is not one of the nine |
| EventProperties.CaseInsensitive | internal/realtime/events.go:47 | two event names with the same lower case give the same action, type and identifier |
| EventProperties.NewStateKeepsNameCase | internal/realtime/events.go:260-264 | the new state keeps the event name as received, so names differing only in case give different new states |
| EventProperties.LowerCasedNameClassifiesAlike | internal/realtime/events.go:47 | lower-casing the event name beforehand does not change action, type or identifier |
| EventProperties.ActionByEventName | internal/realtime/events.go:53-253 | in each family: Create exactly for the create name, Delete exactly for the delete name, Update exactly for every other name |
| EventProperties.RunInstancesId | internal/realtime/events.go:53-64 | RunInstances is a create whose identifier is the string at `responseElements.instancesSet.items[0].instanceId`, else empty |
| EventProperties.RunInstancesEmptyItems | internal/realtime/events.go:57 | an empty `items` array gives an empty identifier |
| EventProperties.TerminateInstancesShapes | internal/realtime/events.go:65-79 | TerminateInstances is a delete; a bare string and an array starting with that string give the same identifier, whatever other parameters the request carries |
| EventProperties.TerminateInstancesBadArray | internal/realtime/events.go:69-75 | an empty array, or one whose first element is not a string, gives an empty identifier |
| EventProperties.NonCreateReadsRequestKey | internal/realtime/events.go:80-85 | EC2 update and every non-EC2 delete or update take the identifier only from a string at the family's request key |
| EventProperties.NonCreateIgnoresResponse | internal/realtime/events.go:96-106 | non-create branches never read the response elements |
| EventProperties.RequestPathsIgnoreResponse | internal/realtime/events.go:98-105 | paths that start from the request read the same in two details with the same request |
| EventProperties.CreatePrefersResponse | internal/realtime/events.go:131-137 | autoscaling, elb, elasticache and s3 creates take a string from the response key, and fall back to the request key only when there is none; s3 uses `bucketName` and then `bucket` |
| EventProperties.NestedCreateId | internal/realtime/events.go:89-95 | vpc, iam, eks and route53 creates take the identifier only from a string one object deep in the response |
| EventProperties.NewStateCarriesDetail | internal/realtime/events.go:260-264 | the new state is always set, has exactly the key "detail", and reads back as the full detail body |
| EventProperties.NewStateIgnoresSource | internal/realtime/events.go:260-264 | the new state depends on the detail body alone, not on the branch taken |
| EventProperties.ForwardedDeltaIsKnown | internal/realtime/events.go:286-291 | a forwarded delta comes from a recognized source, has an identifier and is not "Unknown" |
| Scenarios.LowerCaseOf | internal/realtime/events.go:47 | a name lower-cases to the string spelled out character by character |
| Scenarios.RunInstancesResponseLookup | internal/realtime/events.go:56-60 | the RunInstances path reaches the first instance's `instanceId` in a typical response |
| Scenarios.RunInstancesScenario | internal/realtime/events.go:53-64 | a RunInstances event with the new instance in its response is a forwarded EC2 create of that instance |
| Scenarios.CreateBucketFallbackScenario | internal/realtime/events.go:236-242 | CreateBucket without `bucketName` in the response takes the bucket from the request's `bucket` |
| Scenarios.UnknownServiceScenario | internal/realtime/events.go:255-258 | any event from an unrecognized service is an ignored "Unknown" update |
| Scenarios.ArrayOnUpdateScenario | internal/realtime/events.go:80-85 | an update call naming the instance by an array is not forwarded |

## Left out

- The rest of `eventHandler` (`internal/realtime/events.go:270-284,293-317`) is not modelled: reading the body, decoding JSON, logging, marshalling the delta, loading configuration and the backend POST are HTTP and process I/O. The model starts from the decoded event.
- `StartEventServer` (`internal/realtime/events.go:321-325`) is left out: it registers a route and blocks on the network.
- `mustMarshal` and the `json.Unmarshal` round trip are modelled as one encoding. `Events.DetailJson` is the object the detail body encodes to, and `Events.ParseDetail` reads it back. Byte-level encoding is not modelled.
- The failure branch of the `json.Unmarshal` round trip at `internal/realtime/events.go:262` is not modelled. `mustMarshal` always returns a JSON object for a detail struct decoded from JSON, so the round trip cannot fail, and the model always sets the new state.
- Numbers and booleans share one constructor, `JScalar`. The classifier never inspects them, and any change to them by a float64 round trip is not modelled.
- Text.LowerChar: agrees with Go's `unicode.ToLower` only on A-Z, U+0130 and U+212A; other capitals such as 'Σ' or 'Ä' stay unchanged, which no comparison with an ASCII event name can observe.
- Text.ToLower: maps only A-Z, U+0130 and U+212A. These are the only characters Go lower-cases to ASCII letters. Every other character is left unchanged, although Go lower-cases other scripts too. Every name the classifier compares against is lower-case ASCII, so each comparison gives the same result as in Go. Only the lower-cased string itself differs, and nothing else uses it.
- EventProperties.CaseInsensitive: states equal action, type and identifier, not equal deltas. The new state carries the event name as it was received, so two names that differ only in case give different deltas (`EventProperties.NewStateKeepsNameCase`).
- `detail-type` is carried in the event record but never read, as in the source.
- The other files of the repository are not part of this model: the crawler entry points, the AWS fetch wrappers, the backend webhook, the configuration loader, the logger and the test backend. They are I/O wrappers with no decision logic of their own.
