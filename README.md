# Topology planner of serverless-container-constructs, in Dafny

The library's `AlbFargateServices` construct turns a list of Fargate tasks into
a deploy-time topology. This model covers the decisions it makes:

- where the VPC comes from (`getOrCreateVpc`): a lookup of the default VPC, a lookup by id, or a new VPC;
- whether a caller's subnet selection is legal (`validateSubnets`), and whether it is public;
- which of the two ALB fronts (external, internal) the construct needs;
- for every task, in order: one Fargate service with its capacity-provider strategy, public-IP flag
  and scaling parameters (`??` defaults 10 / 50 / 1000), plus the target group, listener and
  request-scaling policy on each front the task reaches;
- the Route53 alias records, the endpoint outputs and the default stack description.

Modules:

| file | module | models |
|---|---|---|
| wrappers.dfy | `Wrappers` | `Option` (with `GetOr`, the `??` operator) and `Result` |
| decimal.dfy | `Decimal` | how a template literal renders an integral port number |
| vpc_choice.dfy | `VpcChoice` | src/common/common-functions.ts, and its copy at src/main.ts:311-322 |
| subnets.dfy | `Subnets` | the subnet rules of `validateSubnets`, as functions, with lemmas |
| wiring.dfy | `Wiring` | the per-task rules. They appear twice in the source (src/main.ts:183-245 and src/alb-fargate-svcs.ts:38-90) and are defined once here |
| route53.dfy | `Route53Plan` | alias records, endpoint strings and outputs |
| template.dfy | `Template` | the stack whose template description is defaulted |
| services_construct.dfy | `ServicesConstruct` | the `AlbFargateServices` class of src/main.ts |
| alb_services_construct.dfy | `AlbServicesConstruct` | the `AlbFargateServices` class of src/alb-fargate-svcs.ts, built on a base construct |

State that the source changes in place is kept in classes. `ServicesConstruct.AlbFargateServices`
has the flags `hasExternalLoadBalancer`, `hasInternalLoadBalancer` and `isPublicSubnets`, the
placement `vpcSubnets`, and the `service` list that the task loop appends to.
`Template.Stack` holds the template description. Each loop the model covers is a `while` loop
with invariants. These are the task and subnet loops and the `some` scans. The `map`, `concat` and
`includes` calls of src/main.ts:292-298 become sequence operations. Each such method is proved against a specification function (`CheckSelection`,
`NeedsExternal`, `ServicesFor`, `WiringFor`, `AliasRecords`, `EndpointOutputs`). The lemmas
beside those functions state what the source promises.

The constructor of src/main.ts can throw, so it is modelled as the method
`ServicesConstruct.NewAlbFargateServices`. It returns the new object or the subnet error. Every
value the construct reads from outside is an input:
- the CDK context and the environment variable;
- the VPC that the chosen source yields;
- the subnet ids that `vpc.selectSubnets` resolves the selection to;
- the stack.

Four behaviours of the code, kept as written:
- An explicit empty subnet selection is accepted, and it is not public. No "empty selection"
  error exists in the code.
- Accessibility has two variants. An absent accessibility means "both fronts"; there is no
  third `BOTH` value.
- Validation is not pure. It sets `isPublicSubnets` on the construct, and only when it succeeds.
- With no selection, no validation runs. The placement stays `{subnetType: PRIVATE}`. It is not
  resolved to the VPC's private subnets.

## Model

| member | source | states |
|---|---|---|
| `VpcChoice.GetOrCreateVpc` | src/common/common-functions.ts:4-15 | a default-VPC lookup exactly when the context flag or the environment flag is the string "1"; otherwise a lookup by id exactly when `use_vpc_id` is truthy, with that value; otherwise a new VPC with 3 AZs, 1 NAT gateway and flow logs |
| `VpcChoice.Truthy` | src/common/common-functions.ts:8 | JavaScript truthiness of a context value: absent and `null` are falsy; a string is truthy exactly when non-empty (so "0" is truthy); a number exactly when non-zero; an object is truthy |
| `Wrappers.Option.GetOr` | src/main.ts:125 | the `??` operator: a present value is kept, whatever it is, and only an absent one is replaced by the default |
| `VpcChoice.EmptyVpcIdCreatesVpc` | src/common/common-functions.ts:8-14 | an absent or empty VPC id, with no default flag, creates a new VPC |
| `VpcChoice.DefaultFlagIsExactlyTheStringOne` | src/common/common-functions.ts:6-7 | strict equality: the number 1 or other strings do not select the default VPC |
| `ServicesConstruct.VpcOriginOf` | src/main.ts:125 | the VPC source is consulted only when the caller gives no VPC |
| `ServicesConstruct.VpcOf` | src/main.ts:125 | the VPC is the caller's when given, otherwise the one the chosen source yields |
| `Subnets.SubnetError.Message` | src/main.ts:296-305 | an unknown id gives the id followed by " does not exist in the VPC"; an isolated id gives "Isolated subnet ", the id, then " is not allowed"; a mix gives the fixed sentence ending in "." |
| `Subnets.MessageIdentifiesError` | src/main.ts:296-305 | the thrown message determines the error: its kind and the offending id |
| `Subnets.OffenceError` | src/main.ts:295-300 | an offending id raises "does not exist" exactly when the VPC does not know it, otherwise "isolated"; the error names that id |
| `Subnets.Vpc.AllSubnetIds` | src/main.ts:292 | the VPC's public, private and isolated ids together: an id is in it exactly when it is in one of the three groups |
| `Subnets.Offends` | src/main.ts:295-298 | an id is rejected exactly when it is in neither the public nor the private group, or it is isolated |
| `Subnets.SomeIn` | src/main.ts:302-307 | `some` over set membership: false for an empty selection or group, true as soon as one selected id is in the group |
| `Subnets.FirstOffence` | src/main.ts:294-301 | the per-id loop's error, if any, is never the mix error, and names an id of the selection |
| `Subnets.CheckSelection` | src/main.ts:289-308 | a per-id error names a selected id; the mix error comes only with both a public and a private id; success returns "some id is public" and then no id is private |
| `Subnets.FirstOffenceIsFirst` | src/main.ts:294-301 | the per-id check passes exactly when no id is unknown or isolated; otherwise it reports the error of the first offending id in selection order |
| `Subnets.FailsAtFirstOffence` | src/main.ts:292-301 | if the first offending id is at position k, validation fails with "does not exist" when that id is unknown and with "isolated" otherwise; existence is checked first |
| `Subnets.AllIsolatedRejected` | src/main.ts:298-300 | a non-empty selection of isolated ids fails with the isolated error for its first id |
| `Subnets.MixedSelectionRejected` | src/main.ts:302-306 | a selection with a public and a private id always fails, and fails with the mix error once the per-id check passed |
| `Subnets.SuccessCharacterised` | src/main.ts:302-307 | validation succeeds exactly when no id offends and public and private are not mixed; the result is "some id is public", and every id is then public (not private), or every id private (not public) |
| `Subnets.AllPublicAccepted` | src/main.ts:302-307 | a non-empty selection of ids that are only public succeeds as public |
| `Subnets.EmptySelectionAccepted` | src/main.ts:294-307 | the empty selection succeeds and is not public |
| `Subnets.AnySubnetIn` | src/main.ts:302-303 | the `some` loop returns true exactly when some selected id is in the group |
| `ServicesConstruct.AlbFargateServices.ValidateSubnets` | src/main.ts:289-308 | the loop returns the error `CheckSelection` gives, leaving `isPublicSubnets` alone; on success it sets `isPublicSubnets` to `CheckSelection`'s verdict |
| `ServicesConstruct.AlbFargateServices.PlaceSubnets` | src/main.ts:127-130 | with a selection, it is stored and checked, failing exactly when `CheckSelection` fails; without one nothing is checked and the placement stays `{subnetType: PRIVATE}`, not public |
| `ServicesConstruct.AlbFargateServices.constructor` | src/main.ts:114-126 | the field initialisers: flags false, placement `{subnetType: PRIVATE}`, no services |
| `ServicesConstruct.AlbFargateServices.ResolveFronts` | src/main.ts:133-142 | each flag ends up as its old value or "some task reaches that front", so from false it becomes exactly that |
| `Wiring.SomeFrontNeeded` | src/main.ts:134-142 | a non-empty task list needs at least one front |
| `Wiring.AttachesExternal` | src/main.ts:136 | a task reaches the external front when its accessibility is absent or external-only, never when internal-only (as at src/main.ts:202 and src/alb-fargate-svcs.ts:47) |
| `Wiring.AttachesInternal` | src/main.ts:139 | a task reaches the internal front when its accessibility is absent or internal-only, never when external-only (as at src/main.ts:222 and src/alb-fargate-svcs.ts:67) |
| `Wiring.NoTasksNoFronts` | src/main.ts:115-116 | an empty task list needs no front |
| `ServicesConstruct.AlbFargateServices.CreateLoadBalancers` | src/main.ts:148-162 | an internet-facing external ALB and a private internal ALB, each created exactly when its flag is set |
| `Wiring.CapacityStrategyFor` | src/main.ts:170-188 | the task's own strategy wins, even an empty one; else spot gives the spot-only strategy; else none |
| `Wiring.SpotOnlyWeighsSpot` | src/main.ts:170-181 | the spot-only strategy gives weight 0 exactly to the provider that is not FARGATE_SPOT |
| `Wiring.ContainerLabel` | src/main.ts:184-185 | the container name when present; `undefined` when the task definition has no default container |
| `ServicesConstruct.ServiceFor` | src/main.ts:185-193 | the service's id is the label plus `Service`; its strategy is `CapacityStrategyFor` the task; `enableExecuteCommand ?? false`; the shared public-IP flag; its wiring targets its own position |
| `ServicesConstruct.ServicesFor` | src/main.ts:183-194 | exactly one service per task, in task order: service i carries `WireTask` of `tasks[i]` at position i |
| `ServicesConstruct.AlbFargateServices.CreateServices` | src/main.ts:183-194 | the loop pushes exactly one service per task, in task order, each as `ServiceFor` its task |
| `ServicesConstruct.ServicesFollowTasks` | src/main.ts:183-243 | service i carries task i's position, the shared placement and public-IP flag, `enableExecuteCommand ?? false`, the task's desired count, the task's own strategy or else the spot default (`CapacityStrategyFor`), and the fronts its accessibility asks for |
| `Wiring.ResolveScaling` | src/main.ts:197-199 | each scaling value is the caller's value when present and 10, 50 or 1000 only when absent |
| `Wiring.ExplicitZeroKept` | src/main.ts:197-216 | explicit zeros survive the defaults |
| `Wiring.WireTask` | src/main.ts:196-243 | the wiring targets the given service position, with an external attachment exactly when the task is not internal-only and an internal one exactly when it is not external-only |
| `Wiring.WireTaskAttachments` | src/main.ts:202-243 | an external attachment exactly when the task is not internal-only, an internal one exactly when it is not external-only, so at least one; each uses the listener port, the listener id, the defaulted request count and its front's ALB field |
| `Wiring.AttachmentsHaveTheirAlb` | src/main.ts:202-243 | when the ALB fields follow the front flags of the same tasks, every attachment's ALB is present, so `this.externalAlb!` and `this.internalAlb!` never meet an absent ALB |
| `Wiring.FrontAlb` | src/main.ts:148-162 | an ALB exists exactly when its front is needed, with the given id and facing |
| `Wiring.ExtListenerId` | src/main.ts:208 | the id is `ExtAlbListener` followed by the decimal rendering of the port |
| `Wiring.IntListenerId` | src/main.ts:229 | the id is `IntAlbListener` followed by the decimal rendering of the port |
| `Wiring.ListenerIdsDistinct` | src/alb-fargate-svcs.ts:53-74 | `ExtAlbListener<port>` and `IntAlbListener<port>` ids are injective in the port and never equal each other |
| `Decimal.IntToDecimalInjective` | src/alb-fargate-svcs.ts:53 | distinct integers render as distinct strings in `${port}` |
| `Decimal.DecimalRoundTrip` | src/alb-fargate-svcs.ts:53 | reading the decimal rendering of a natural number back gives that number |
| `Decimal.NatToDecimal` | src/alb-fargate-svcs.ts:53 | the rendering of a natural number is a non-empty digit string with no leading zero |
| `Decimal.IntToDecimal` | src/alb-fargate-svcs.ts:53 | the rendering is non-empty and starts with `-` exactly for negative numbers |
| `ServicesConstruct.ZoneNameOf` | src/main.ts:248 | the zone name is the caller's when given, else `svc.local` |
| `ServicesConstruct.ExternalRecordNameOf` | src/main.ts:249 | the external record name is the caller's when given, else `external` |
| `ServicesConstruct.InternalRecordNameOf` | src/main.ts:250 | the internal record name is the caller's when given, else `internal` |
| `Route53Plan.AliasRecordsPerFront` | src/main.ts:256-271 | an alias record per needed front: the internal one exactly when the internal flag is set, the external one exactly when the external flag is set, and no others |
| `Route53Plan.EndpointOutputsPerFront` | src/main.ts:273-280 | the two endpoint outputs of a front are emitted exactly when that front's flag is set |
| `Route53Plan.AliasRecords` | src/main.ts:256-271 | one record per needed front, so zero, one or two records |
| `Route53Plan.EndpointOutputs` | src/main.ts:273-280 | two outputs per needed front, so zero, two or four outputs |
| `Route53Plan.PrivateEndpoint` | src/main.ts:275 | the private endpoint is `http://`, the record name, a dot and the zone name |
| `Route53Plan.EmitRoute53` | src/alb-fargate-svcs.ts:100-124 | the conditional emission yields exactly the records and outputs of the specification functions |
| `Route53Plan.RecordsAndOutputsHaveTheirAlb` | src/alb-fargate-svcs.ts:100-124 | when the ALB fields follow the flags, every alias record and ALB output names a present ALB |
| `ServicesConstruct.AlbFargateServices.CreateRoute53` | src/main.ts:247-280 | the zone, record and output fields are those of the defaulted Route53 options and the current flags |
| `ServicesConstruct.AlbFargateServices.CreateResources` | src/main.ts:133-280 | after the subnet check, the object is `Built`: flags, ALBs, services and DNS all follow from the tasks |
| `Template.WithSolutionId` | src/alb-fargate-svcs.ts:133-135 | a truthy description is kept; an absent or empty one becomes the SO8030 description; the result is always truthy |
| `Template.Truthy` | src/alb-fargate-svcs.ts:133 | `!description` is false exactly for a present, non-empty description |
| `Template.WithSolutionIdIdempotent` | src/main.ts:283-285 | adding the solution id twice changes nothing the second time |
| `Template.AddSolutionId` | src/main.ts:283-285 | the stack description after the call is `WithSolutionId` of the one before |
| `ServicesConstruct.NewAlbFargateServices` | src/main.ts:122-287 | fails exactly when a selection is given and does not validate, with that error and the stack untouched; otherwise returns a fresh object in the `Planned` state and the defaulted stack description |
| `ServicesConstruct.NoSelectionStaysPrivate` | src/main.ts:117-130 | with no selection, the placement is `{subnetType: PRIVATE}` and no service gets a public IP |
| `ServicesConstruct.PublicSelectionAssignsPublicIp` | src/main.ts:192 | a selection validated as public gives every service a public IP |
| `ServicesConstruct.PlannedFrontsExist` | src/main.ts:202-280 | in a constructed object every listener, alias record and ALB output has its ALB |
| `AlbServicesConstruct.ExternalElbRecordNameOf` | src/alb-fargate-svcs.ts:93 | `externalElbRecordName` when given, else `external` |
| `AlbServicesConstruct.InternalElbRecordNameOf` | src/alb-fargate-svcs.ts:94 | `internalElbRecordName` when given, else `internal` |
| `AlbServicesConstruct.WiringFor` | src/alb-fargate-svcs.ts:38-90 | one wiring per task, in task order: wiring i is `WireTask` of `tasks[i]` and targets service i |
| `AlbServicesConstruct.BaseFlagsServeEveryAttachment` | src/alb-fargate-svcs.ts:38-90 | with the base's flags computed from the same tasks, wiring i targets service i and every attachment has an ALB facing the right way |
| `AlbServicesConstruct.AlbFargateServices.constructor` | src/alb-fargate-svcs.ts:16-135 | keeps the base's flags, zone and services; creates the ALBs, the positional wiring, the records and outputs; defaults the stack description |
| `AlbServicesConstruct.AlbFargateServices.CreateLoadBalancers` | src/alb-fargate-svcs.ts:22-36 | each ALB is created exactly when the base's flag for it is set |
| `AlbServicesConstruct.AlbFargateServices.WireTasks` | src/alb-fargate-svcs.ts:38-90 | wiring i is task i's wiring and targets `service[i]` |
| `AlbServicesConstruct.AlbFargateServices.CreateRoute53` | src/alb-fargate-svcs.ts:92-124 | records and outputs for the base's zone, from the `Elb` record-name options and the base's flags |

## Left out

- Creating the cloud resources is library behaviour and is not modelled. This covers the ALBs,
  target groups, listeners, access-log bucket, ECS cluster, hosted zone, CloudFormation outputs
  and the `addDependency` calls (src/alb-fargate-svcs.ts:126-130). The model records the decisions
  that vary with the input: which resources exist, their construct ids, the placement, the
  capacity strategy, and the scaling, port and count values.
- Fixed settings passed to the library are not recorded. These are:
  - the listeners' `open: true` and `protocol: HTTP` (src/main.ts:210-212, 231-233; src/alb-fargate-svcs.ts:55-57, 76-78);
  - the target groups' HTTP protocol (src/main.ts:204, 224; src/alb-fargate-svcs.ts:49, 69);
  - the `vpc: this.vpc` given to the ALBs, target groups, cluster and hosted zone (src/main.ts:150, 158, 165, 205, 225, 253). It is always the construct's own VPC;
  - the cluster's `enableFargateCapacityProviders: true` and `containerInsights: true` (src/main.ts:166-167);
  - each service's `taskDefinition` and `cluster` (src/main.ts:186-187), which are the same for every service or come straight from the task.
- `vpc.selectSubnets` is a foreign call. The ids it returns are an input.
- `Vpc.fromLookup` and `new ec2.Vpc` are foreign calls. The model returns the chosen `VpcSource`,
  and the VPC that source yields is an input. The flow-log settings are recorded only as "on".
- Reads of the CDK context and of `process.env` are I/O. They become parameters.
- The ALB's DNS name is a deploy-time token. The model keeps it symbolic: an output names the
  ALB field whose DNS name it shows.
- src/cdknag.ts and the cdk-nag suppressions (src/alb-fargate-svcs.ts:140-175) are metadata over
  the library.
- The access-log bucket's settings are library configuration.
- `BaseFargateServices` is not part of this model. Its flags, zone name and services are inputs
  to `AlbServicesConstruct.AlbFargateServices`.
- `AlbServicesConstruct.AlbFargateServices.constructor` requires at least one base service per
  task. The base class is not shown, so this is an assumption. It matches the construct in
  src/main.ts:183-194, which creates one service per task. The crash on a missing
  `service[index]` is not modelled.
- `Stack.of(this)` is not modelled. The enclosing stack is a parameter.
- src/integ.default.ts, the Go services and test/default.test.ts are left out. They are a
  driver, HTTP servers and a test harness.
- Construct-id collisions, such as two tasks with one port on one front, are rejected by the
  library, not by this code.
- Numbers are integers: ports, counts, scaling values and numeric context values. Non-integral
  numbers and NaN are not modelled. `IntToDecimal` renders integers only. It matches
  JavaScript's `${n}` only below 10^21 in magnitude, because JavaScript writes larger numbers in
  exponent form ("1e+21"). Listener ports are below 65536.
- `SubnetSelection` keeps only the `subnetType` and `subnetIds` properties. The construct stores
  the selection and passes it on without reading it.
- The task definition is reduced to the name of its default container. An absent name renders as
  `undefined` in construct ids.
- alb-fargate-svcs.ts reads `route53Ops.externalElbRecordName` / `internalElbRecordName`, while
  main.ts reads `externalAlbRecordName` / `internalAlbRecordName`. Each module keeps the names its
  file reads. The base's props type is not part of this model, so whether both spellings exist
  there is not decided.
