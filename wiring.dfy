/** The per-task rules: which load-balancer fronts a task reaches, its scaling
    parameters, its capacity-provider strategy, and the ids of what is created for it. */
module Wiring {
  import opened Wrappers
  import opened Decimal

  /** The source's enum has two variants; an absent value means "both fronts". */
  datatype Accessibility = ExternalOnly | InternalOnly

  datatype ServiceScalingPolicy = ServiceScalingPolicy(
    maxCapacity: Option<int>,
    targetCpuUtilization: Option<int>,
    requestPerTarget: Option<int>)

  datatype CapacityProviderStrategy = CapacityProviderStrategy(
    capacityProvider: string, base: Option<int>, weight: Option<int>)

  /** A task as the caller describes it. The task definition itself is reduced to
      the name of its default container, which names the created constructs. */
  datatype FargateTaskProps = FargateTaskProps(
    defaultContainerName: Option<string>,
    listenerPort: int,
    desiredCount: Option<int>,
    scalingPolicy: Option<ServiceScalingPolicy>,
    capacityProviderStrategy: Option<seq<CapacityProviderStrategy>>,
    accessibility: Option<Accessibility>)

  /** An application load balancer, as the construct creates it. */
  datatype LoadBalancer = LoadBalancer(id: string, internetFacing: bool, accessLogPrefix: string)

  /** A target group and listener on one front, and the request-count scaling
      policy that tracks that target group. `loadBalancer` is the ALB field the
      listener was given (the source writes `this.externalAlb!`). */
  datatype FrontAttachment = FrontAttachment(
    targetGroupId: string,
    listenerId: string,
    listenerPort: int,
    loadBalancer: Option<LoadBalancer>,
    requestScalingId: string,
    requestsPerTarget: int)

  /** Everything decided for the task at `serviceIndex`, targeting the service at
      that position. */
  datatype TaskWiring = TaskWiring(
    serviceIndex: nat,
    maxCapacity: int,
    targetCpuUtilization: int,
    external: Option<FrontAttachment>,
    internal: Option<FrontAttachment>)

  const DefaultMaxCapacity := 10
  const DefaultTargetCpuUtilization := 50
  const DefaultRequestPerTarget := 1000

  /** A task reaches the external front unless it is internal-only. */
  predicate AttachesExternal(a: Option<Accessibility>): (b: bool)
    ensures a.None? ==> b
    ensures a == Some(ExternalOnly) ==> b
    ensures a == Some(InternalOnly) ==> !b
  {
    a != Some(InternalOnly)
  }

  /** A task reaches the internal front unless it is external-only. */
  predicate AttachesInternal(a: Option<Accessibility>): (b: bool)
    ensures a.None? ==> b
    ensures a == Some(InternalOnly) ==> b
    ensures a == Some(ExternalOnly) ==> !b
  {
    a != Some(ExternalOnly)
  }

  /** The construct needs an external ALB: some task is not internal-only. */
  predicate NeedsExternal(tasks: seq<FargateTaskProps>) {
    exists i :: 0 <= i < |tasks| && AttachesExternal(tasks[i].accessibility)
  }

  /** The construct needs an internal ALB: some task is not external-only. */
  predicate NeedsInternal(tasks: seq<FargateTaskProps>) {
    exists i :: 0 <= i < |tasks| && AttachesInternal(tasks[i].accessibility)
  }

  lemma NoTasksNoFronts()
    ensures !NeedsExternal([]) && !NeedsInternal([])
  {
  }

  /** Every non-empty task list needs at least one front. */
  lemma SomeFrontNeeded(tasks: seq<FargateTaskProps>)
    requires |tasks| > 0
    ensures NeedsExternal(tasks) || NeedsInternal(tasks)
  {
    assert AttachesExternal(tasks[0].accessibility) || AttachesInternal(tasks[0].accessibility);
  }

  /** The scaling parameters, each replaced by its default only when absent. */
  datatype ScalingPlan = ScalingPlan(maxCapacity: int, targetCpuUtilization: int, requestPerTarget: int)

  function ResolveScaling(p: Option<ServiceScalingPolicy>): (r: ScalingPlan)
    ensures p.None? ==> r == ScalingPlan(10, 50, 1000)
    ensures p.Some? ==>
      && (p.value.maxCapacity.Some? ==> r.maxCapacity == p.value.maxCapacity.value)
      && (p.value.maxCapacity.None? ==> r.maxCapacity == 10)
      && (p.value.targetCpuUtilization.Some? ==> r.targetCpuUtilization == p.value.targetCpuUtilization.value)
      && (p.value.targetCpuUtilization.None? ==> r.targetCpuUtilization == 50)
      && (p.value.requestPerTarget.Some? ==> r.requestPerTarget == p.value.requestPerTarget.value)
      && (p.value.requestPerTarget.None? ==> r.requestPerTarget == 1000)
  {
    match p
    case None => ScalingPlan(DefaultMaxCapacity, DefaultTargetCpuUtilization, DefaultRequestPerTarget)
    case Some(policy) =>
      ScalingPlan(policy.maxCapacity.GetOr(DefaultMaxCapacity),
                  policy.targetCpuUtilization.GetOr(DefaultTargetCpuUtilization),
                  policy.requestPerTarget.GetOr(DefaultRequestPerTarget))
  }

  /** An explicit zero is a value, not an absence: it is kept. */
  lemma ExplicitZeroKept()
    ensures ResolveScaling(Some(ServiceScalingPolicy(Some(0), Some(0), Some(0)))) == ScalingPlan(0, 0, 0)
  {
  }

  /** The strategy of a FARGATE_SPOT-only cluster. */
  const SpotOnlyStrategy: seq<CapacityProviderStrategy> := [
    CapacityProviderStrategy("FARGATE_SPOT", Some(0), Some(1)),
    CapacityProviderStrategy("FARGATE", Some(0), Some(0))
  ]

  /** The task's own strategy wins (an explicit empty list included); otherwise a
      spot construct gives the spot-only strategy; otherwise none is set. */
  function CapacityStrategyFor(t: FargateTaskProps, spot: Option<bool>): (r: Option<seq<CapacityProviderStrategy>>)
    ensures t.capacityProviderStrategy.Some? ==> r == t.capacityProviderStrategy
    ensures t.capacityProviderStrategy.None? && spot == Some(true) ==> r == Some(SpotOnlyStrategy)
    ensures t.capacityProviderStrategy.None? && spot != Some(true) ==> r == None
  {
    match t.capacityProviderStrategy
    case Some(s) => Some(s)
    case None => if spot == Some(true) then Some(SpotOnlyStrategy) else None
  }

  /** The spot-only strategy puts all weight on FARGATE_SPOT. */
  lemma SpotOnlyWeighsSpot()
    ensures forall k :: 0 <= k < |SpotOnlyStrategy| ==>
      (SpotOnlyStrategy[k].weight == Some(0) <==> SpotOnlyStrategy[k].capacityProvider != "FARGATE_SPOT")
  {
  }

  /** The name a template literal gives an optional container name. */
  function ContainerLabel(name: Option<string>): (l: string)
    ensures name.Some? ==> l == name.value
    ensures name.None? ==> l == "undefined"
  {
    name.GetOr("undefined")
  }

  /** The external listener's construct id: a fixed prefix, then the port in decimal. */
  function ExtListenerId(port: int): (lid: string)
    ensures "ExtAlbListener" <= lid && lid[14..] == IntToDecimal(port)
  {
    "ExtAlbListener" + IntToDecimal(port)
  }

  /** The internal listener's construct id: a fixed prefix, then the port in decimal. */
  function IntListenerId(port: int): (lid: string)
    ensures "IntAlbListener" <= lid && lid[14..] == IntToDecimal(port)
  {
    "IntAlbListener" + IntToDecimal(port)
  }

  /** Listener ids on one front are distinct for distinct ports, and the two fronts
      never share an id. */
  lemma ListenerIdsDistinct(p: int, q: int)
    ensures ExtListenerId(p) == ExtListenerId(q) ==> p == q
    ensures IntListenerId(p) == IntListenerId(q) ==> p == q
    ensures ExtListenerId(p) != IntListenerId(q)
  {
    var n := |"ExtAlbListener"|;
    if ExtListenerId(p) == ExtListenerId(q) {
      assert ExtListenerId(p)[n..] == IntToDecimal(p);
      assert ExtListenerId(q)[n..] == IntToDecimal(q);
      IntToDecimalInjective(p, q);
    }
    if IntListenerId(p) == IntListenerId(q) {
      assert IntListenerId(p)[n..] == IntToDecimal(p);
      assert IntListenerId(q)[n..] == IntToDecimal(q);
      IntToDecimalInjective(p, q);
    }
    assert ExtListenerId(p)[0] != IntListenerId(q)[0];
  }

  /** The front attachments of one task and its scaling parameters. */
  function WireTask(t: FargateTaskProps, index: nat,
                    externalAlb: Option<LoadBalancer>, internalAlb: Option<LoadBalancer>): (w: TaskWiring)
    ensures w.serviceIndex == index
    ensures w.external.Some? <==> AttachesExternal(t.accessibility)
    ensures w.internal.Some? <==> AttachesInternal(t.accessibility)
  {
    var scaling := ResolveScaling(t.scalingPolicy);
    var prefix := ContainerLabel(t.defaultContainerName);
    var toExternal :=
      if AttachesExternal(t.accessibility) then
        Some(FrontAttachment(prefix + "ExtTG", ExtListenerId(t.listenerPort), t.listenerPort,
                             externalAlb, "RequestScaling", scaling.requestPerTarget))
      else None;
    var toInternal :=
      if AttachesInternal(t.accessibility) then
        Some(FrontAttachment(prefix + "IntTG", IntListenerId(t.listenerPort), t.listenerPort,
                             internalAlb, "RequestScaling2", scaling.requestPerTarget))
      else None;
    TaskWiring(index, scaling.maxCapacity, scaling.targetCpuUtilization, toExternal, toInternal)
  }

  /** A task gets an external target group and listener exactly when it is not
      internal-only, an internal one exactly when it is not external-only, and so at
      least one; both use the task's listener port and the defaulted scaling values,
      and each names the ALB field of its front. */
  lemma WireTaskAttachments(t: FargateTaskProps, index: nat,
                            externalAlb: Option<LoadBalancer>, internalAlb: Option<LoadBalancer>)
    ensures var w := WireTask(t, index, externalAlb, internalAlb);
      && w.serviceIndex == index
      && (w.external.Some? <==> t.accessibility != Some(InternalOnly))
      && (w.internal.Some? <==> t.accessibility != Some(ExternalOnly))
      && (w.external.Some? || w.internal.Some?)
      && w.maxCapacity == ResolveScaling(t.scalingPolicy).maxCapacity
      && w.targetCpuUtilization == ResolveScaling(t.scalingPolicy).targetCpuUtilization
      && (w.external.Some? ==>
            && w.external.value.loadBalancer == externalAlb
            && w.external.value.listenerPort == t.listenerPort
            && w.external.value.listenerId == ExtListenerId(t.listenerPort)
            && w.external.value.requestsPerTarget == ResolveScaling(t.scalingPolicy).requestPerTarget)
      && (w.internal.Some? ==>
            && w.internal.value.loadBalancer == internalAlb
            && w.internal.value.listenerPort == t.listenerPort
            && w.internal.value.listenerId == IntListenerId(t.listenerPort)
            && w.internal.value.requestsPerTarget == ResolveScaling(t.scalingPolicy).requestPerTarget)
  {
  }

  /** The ALB a front gets: created exactly when the front is needed. */
  function FrontAlb(needed: bool, albId: string, internetFacing: bool, accessLogPrefix: string): (alb: Option<LoadBalancer>)
    ensures alb.Some? <==> needed
    ensures alb.Some? ==> alb.value.id == albId && alb.value.internetFacing == internetFacing
  {
    if needed then Some(LoadBalancer(albId, internetFacing, accessLogPrefix)) else None
  }

  /** When the ALB fields are created from the front flags of the same task list,
      every attachment of every task has its ALB: the non-null assertions on the
      ALB fields never meet an absent ALB. */
  lemma AttachmentsHaveTheirAlb(tasks: seq<FargateTaskProps>, i: nat,
                                externalAlb: Option<LoadBalancer>, internalAlb: Option<LoadBalancer>)
    requires i < |tasks|
    requires externalAlb.Some? == NeedsExternal(tasks)
    requires internalAlb.Some? == NeedsInternal(tasks)
    ensures WireTask(tasks[i], i, externalAlb, internalAlb).external.Some? ==>
      WireTask(tasks[i], i, externalAlb, internalAlb).external.value.loadBalancer.Some?
    ensures WireTask(tasks[i], i, externalAlb, internalAlb).internal.Some? ==>
      WireTask(tasks[i], i, externalAlb, internalAlb).internal.value.loadBalancer.Some?
  {
    var w := WireTask(tasks[i], i, externalAlb, internalAlb);
    if w.external.Some? { assert AttachesExternal(tasks[i].accessibility); }
    if w.internal.Some? { assert AttachesInternal(tasks[i].accessibility); }
  }
}
