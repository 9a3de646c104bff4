/** The load-balancer part of the `AlbFargateServices` construct that extends the
    base Fargate construct: the base has already decided the front flags, the
    private zone name and one service per task; this part creates the ALBs, wires
    each task's service to its fronts, and adds the DNS records, the endpoint
    outputs and the stack description. */
module AlbServicesConstruct {
  import opened Wrappers
  import opened Wiring
  import opened Route53Plan
  import opened Template

  /** The record-name options as this construct reads them. */
  datatype ElbRoute53Options = ElbRoute53Options(
    externalElbRecordName: Option<string>, internalElbRecordName: Option<string>)

  /** A service created by the base construct, known by its construct id. */
  datatype ServiceRef = ServiceRef(id: string)

  /** What the base construct hands over. */
  datatype BaseState = BaseState(
    hasExternalLoadBalancer: bool, hasInternalLoadBalancer: bool, zoneName: string, service: seq<ServiceRef>)

  function ExternalElbRecordNameOf(ops: Option<ElbRoute53Options>): (n: string)
    ensures ops.None? || ops.value.externalElbRecordName.None? ==> n == "external"
    ensures ops.Some? && ops.value.externalElbRecordName.Some? ==> n == ops.value.externalElbRecordName.value
  {
    if ops.Some? then ops.value.externalElbRecordName.GetOr(DefaultExternalRecordName) else DefaultExternalRecordName
  }

  function InternalElbRecordNameOf(ops: Option<ElbRoute53Options>): (n: string)
    ensures ops.None? || ops.value.internalElbRecordName.None? ==> n == "internal"
    ensures ops.Some? && ops.value.internalElbRecordName.Some? ==> n == ops.value.internalElbRecordName.value
  {
    if ops.Some? then ops.value.internalElbRecordName.GetOr(DefaultInternalRecordName) else DefaultInternalRecordName
  }

  /** The wiring of every task, positionally: task i drives service i. */
  function WiringFor(tasks: seq<FargateTaskProps>, externalAlb: Option<LoadBalancer>,
                     internalAlb: Option<LoadBalancer>): (r: seq<TaskWiring>)
    ensures |r| == |tasks|
    ensures forall i :: 0 <= i < |r| ==> r[i] == WireTask(tasks[i], i, externalAlb, internalAlb)
    ensures forall i :: 0 <= i < |r| ==> r[i].serviceIndex == i
  {
    seq(|tasks|, i requires 0 <= i < |tasks| => WireTask(tasks[i], i, externalAlb, internalAlb))
  }

  /** When the base computed its flags from the same tasks, the ALBs created from
      those flags serve every attachment of every task. */
  lemma BaseFlagsServeEveryAttachment(tasks: seq<FargateTaskProps>, base: BaseState, id: string, i: nat)
    requires i < |tasks|
    requires base.hasExternalLoadBalancer == NeedsExternal(tasks)
    requires base.hasInternalLoadBalancer == NeedsInternal(tasks)
    ensures var w := WiringFor(tasks, FrontAlb(base.hasExternalLoadBalancer, "ExternalAlb", true, id + "-extalblog"),
                               FrontAlb(base.hasInternalLoadBalancer, "InternalAlb", false, id + "-intalblog"))[i];
      && w.serviceIndex == i
      && (w.external.Some? ==> w.external.value.loadBalancer.Some? && w.external.value.loadBalancer.value.internetFacing)
      && (w.internal.Some? ==> w.internal.value.loadBalancer.Some? && !w.internal.value.loadBalancer.value.internetFacing)
  {
    var ext := FrontAlb(base.hasExternalLoadBalancer, "ExternalAlb", true, id + "-extalblog");
    var intAlb := FrontAlb(base.hasInternalLoadBalancer, "InternalAlb", false, id + "-intalblog");
    AttachmentsHaveTheirAlb(tasks, i, ext, intAlb);
  }

  class AlbFargateServices {
    const hasExternalLoadBalancer: bool
    const hasInternalLoadBalancer: bool
    const zoneName: string
    /** The services of the base construct. The base class is not shown; the model
        assumes one service per task, as the construct of src/main.ts:183-194 creates. */
    const service: seq<ServiceRef>
    var externalAlb: Option<LoadBalancer>
    var internalAlb: Option<LoadBalancer>
    /** What was decided for each task; wiring[i] targets service[i]. */
    var wiring: seq<TaskWiring>
    var aliasRecords: seq<AliasRecord>
    var outputs: seq<Output>

    /** The base class is not shown; the model assumes it created a service for every
        task, as the construct of src/main.ts:183-194 does. */
    constructor (id: string, base: BaseState, tasks: seq<FargateTaskProps>,
                 route53Ops: Option<ElbRoute53Options>, stack: Stack)
      requires |tasks| <= |base.service|
      modifies stack
      ensures hasExternalLoadBalancer == base.hasExternalLoadBalancer
      ensures hasInternalLoadBalancer == base.hasInternalLoadBalancer
      ensures zoneName == base.zoneName && service == base.service
      ensures externalAlb == FrontAlb(hasExternalLoadBalancer, "ExternalAlb", true, id + "-extalblog")
      ensures internalAlb == FrontAlb(hasInternalLoadBalancer, "InternalAlb", false, id + "-intalblog")
      ensures wiring == WiringFor(tasks, externalAlb, internalAlb)
      ensures forall i :: 0 <= i < |wiring| ==> wiring[i].serviceIndex == i < |service|
      ensures aliasRecords == AliasRecords(hasInternalLoadBalancer, hasExternalLoadBalancer,
                                           InternalElbRecordNameOf(route53Ops), ExternalElbRecordNameOf(route53Ops),
                                           internalAlb, externalAlb)
      ensures outputs == EndpointOutputs(hasExternalLoadBalancer, hasInternalLoadBalancer,
                                         ExternalElbRecordNameOf(route53Ops), InternalElbRecordNameOf(route53Ops),
                                         zoneName, externalAlb, internalAlb)
      ensures stack.description == WithSolutionId(old(stack.description))
    {
      hasExternalLoadBalancer := base.hasExternalLoadBalancer;
      hasInternalLoadBalancer := base.hasInternalLoadBalancer;
      zoneName := base.zoneName;
      service := base.service;
      externalAlb, internalAlb := None, None;
      wiring, aliasRecords, outputs := [], [], [];
      new;
      CreateLoadBalancers(id);
      WireTasks(tasks);
      CreateRoute53(route53Ops);
      AddSolutionId(stack);
    }

    /** An internet-facing ALB for the external front and a private one for the
        internal front, each only when the base's flag is up. */
    method CreateLoadBalancers(id: string)
      modifies this`externalAlb, this`internalAlb
      ensures externalAlb == if hasExternalLoadBalancer
                             then Some(LoadBalancer("ExternalAlb", true, id + "-extalblog")) else old(externalAlb)
      ensures internalAlb == if hasInternalLoadBalancer
                             then Some(LoadBalancer("InternalAlb", false, id + "-intalblog")) else old(internalAlb)
    {
      if hasExternalLoadBalancer {
        externalAlb := Some(LoadBalancer("ExternalAlb", true, id + "-extalblog"));
      }
      if hasInternalLoadBalancer {
        internalAlb := Some(LoadBalancer("InternalAlb", false, id + "-intalblog"));
      }
    }

    /** Wires task i to service i, for every task in order. */
    method WireTasks(tasks: seq<FargateTaskProps>)
      requires |tasks| <= |service|
      modifies this`wiring
      ensures wiring == WiringFor(tasks, externalAlb, internalAlb)
      ensures forall i :: 0 <= i < |wiring| ==> wiring[i].serviceIndex == i < |service|
    {
      wiring := [];
      var index := 0;
      while index < |tasks|
        invariant 0 <= index <= |tasks|
        invariant |wiring| == index
        invariant forall k :: 0 <= k < index ==> wiring[k] == WireTask(tasks[k], k, externalAlb, internalAlb)
      {
        wiring := wiring + [WireTask(tasks[index], index, externalAlb, internalAlb)];
        index := index + 1;
      }
    }

    /** The alias record per front and the endpoint outputs, in the base's zone. */
    method CreateRoute53(route53Ops: Option<ElbRoute53Options>)
      modifies this`aliasRecords, this`outputs
      ensures aliasRecords == AliasRecords(hasInternalLoadBalancer, hasExternalLoadBalancer,
                                           InternalElbRecordNameOf(route53Ops), ExternalElbRecordNameOf(route53Ops),
                                           internalAlb, externalAlb)
      ensures outputs == EndpointOutputs(hasExternalLoadBalancer, hasInternalLoadBalancer,
                                         ExternalElbRecordNameOf(route53Ops), InternalElbRecordNameOf(route53Ops),
                                         zoneName, externalAlb, internalAlb)
    {
      var externalRecordName := ExternalElbRecordNameOf(route53Ops);
      var internalRecordName := InternalElbRecordNameOf(route53Ops);
      aliasRecords, outputs := EmitRoute53(hasExternalLoadBalancer, hasInternalLoadBalancer,
                                           externalRecordName, internalRecordName, zoneName, externalAlb, internalAlb);
    }
  }
}
