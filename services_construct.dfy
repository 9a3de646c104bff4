/** The `AlbFargateServices` construct of the library's entry module: it picks the
    VPC, validates the subnet selection, decides which ALB fronts exist, creates
    one Fargate service per task with its scaling and front attachments, and then
    the private DNS records, the endpoint outputs and the stack description. */
module ServicesConstruct {
  import opened Wrappers
  import opened Subnets
  import opened Wiring
  import opened Route53Plan
  import opened Template
  import opened VpcChoice

  datatype SubnetType = Public | Private | Isolated

  /** A subnet selection as the caller writes it; the construct only stores it and
      hands it to the VPC, which resolves it to subnet ids. */
  datatype SubnetSelection = SubnetSelection(subnetType: Option<SubnetType>, subnetIds: Option<seq<SubnetId>>)

  const DefaultVpcSubnets := SubnetSelection(Some(Private), None)

  datatype Route53Options = Route53Options(
    zoneName: Option<string>, externalAlbRecordName: Option<string>, internalAlbRecordName: Option<string>)

  datatype AlbFargateServicesProps = AlbFargateServicesProps(
    vpc: Option<Vpc>,
    tasks: seq<FargateTaskProps>,
    route53Ops: Option<Route53Options>,
    spot: Option<bool>,
    enableExecuteCommand: Option<bool>,
    vpcSubnets: Option<SubnetSelection>)

  /** What the construct learns from outside the program: the context and
      environment values that choose the VPC source, the VPC that source yields,
      and the subnet ids the VPC resolves the selection to. */
  datatype SynthContext = SynthContext(
    useDefaultVpc: Option<ContextValue>,
    envUseDefaultVpc: Option<string>,
    useVpcId: Option<ContextValue>,
    vpcFromSource: Vpc,
    selectedSubnetIds: seq<SubnetId>)

  datatype VpcOrigin = FromProps | FromSource(source: VpcSource)

  /** A Fargate service with the parameters the construct passes to it, and the
      decisions made for its task. */
  datatype FargateService = FargateService(
    id: string,
    capacityProviderStrategies: Option<seq<CapacityProviderStrategy>>,
    desiredCount: Option<int>,
    enableExecuteCommand: bool,
    vpcSubnets: SubnetSelection,
    assignPublicIp: bool,
    wiring: TaskWiring)

  /** The VPC given by the caller, otherwise the one from the chosen source. */
  function VpcOf(props: AlbFargateServicesProps, ctx: SynthContext): (v: Vpc)
    ensures props.vpc.Some? ==> v == props.vpc.value
    ensures props.vpc.None? ==> v == ctx.vpcFromSource
  {
    props.vpc.GetOr(ctx.vpcFromSource)
  }

  /** The VPC source is consulted only when the caller gives no VPC. */
  function VpcOriginOf(props: AlbFargateServicesProps, ctx: SynthContext): (o: VpcOrigin)
    ensures o.FromProps? <==> props.vpc.Some?
    ensures o.FromSource? ==> o.source == GetOrCreateVpc(ctx.useDefaultVpc, ctx.envUseDefaultVpc, ctx.useVpcId)
  {
    if props.vpc.Some? then FromProps
    else FromSource(GetOrCreateVpc(ctx.useDefaultVpc, ctx.envUseDefaultVpc, ctx.useVpcId))
  }

  function ServiceFor(t: FargateTaskProps, index: nat, spot: Option<bool>, enableExecuteCommand: Option<bool>,
                      vpcSubnets: SubnetSelection, isPublicSubnets: bool,
                      externalAlb: Option<LoadBalancer>, internalAlb: Option<LoadBalancer>): (s: FargateService)
    ensures s.id == ContainerLabel(t.defaultContainerName) + "Service"
    ensures s.capacityProviderStrategies == CapacityStrategyFor(t, spot)
    ensures s.enableExecuteCommand == (enableExecuteCommand == Some(true))
    ensures s.assignPublicIp == isPublicSubnets && s.wiring.serviceIndex == index
  {
    FargateService(ContainerLabel(t.defaultContainerName) + "Service",
                   CapacityStrategyFor(t, spot),
                   t.desiredCount,
                   enableExecuteCommand.GetOr(false),
                   vpcSubnets,
                   isPublicSubnets,
                   WireTask(t, index, externalAlb, internalAlb))
  }

  /** One service per task, in task order. */
  function ServicesFor(tasks: seq<FargateTaskProps>, spot: Option<bool>, enableExecuteCommand: Option<bool>,
                       vpcSubnets: SubnetSelection, isPublicSubnets: bool,
                       externalAlb: Option<LoadBalancer>, internalAlb: Option<LoadBalancer>): (r: seq<FargateService>)
    ensures |r| == |tasks|
    ensures forall i :: 0 <= i < |r| ==> r[i].wiring == WireTask(tasks[i], i, externalAlb, internalAlb)
  {
    seq(|tasks|, i requires 0 <= i < |tasks| =>
      ServiceFor(tasks[i], i, spot, enableExecuteCommand, vpcSubnets, isPublicSubnets, externalAlb, internalAlb))
  }

  /** Every service of the plan: its task's position, placement and public-IP flag
      shared by all, the task's own strategy or the spot default, and the fronts its
      task's accessibility asks for. */
  lemma ServicesFollowTasks(tasks: seq<FargateTaskProps>, spot: Option<bool>, enableExecuteCommand: Option<bool>,
                            vpcSubnets: SubnetSelection, isPublicSubnets: bool,
                            externalAlb: Option<LoadBalancer>, internalAlb: Option<LoadBalancer>, i: nat)
    requires i < |tasks|
    ensures var services := ServicesFor(tasks, spot, enableExecuteCommand, vpcSubnets, isPublicSubnets,
                                        externalAlb, internalAlb);
      && |services| == |tasks|
      && services[i].wiring.serviceIndex == i
      && services[i].vpcSubnets == vpcSubnets
      && services[i].assignPublicIp == isPublicSubnets
      && services[i].enableExecuteCommand == (enableExecuteCommand == Some(true))
      && services[i].desiredCount == tasks[i].desiredCount
      && services[i].capacityProviderStrategies == CapacityStrategyFor(tasks[i], spot)
      && (tasks[i].capacityProviderStrategy.Some? ==>
            services[i].capacityProviderStrategies == tasks[i].capacityProviderStrategy)
      && (services[i].wiring.external.Some? <==> AttachesExternal(tasks[i].accessibility))
      && (services[i].wiring.internal.Some? <==> AttachesInternal(tasks[i].accessibility))
  {
  }

  class AlbFargateServices {
    const vpc: Vpc
    const vpcOrigin: VpcOrigin
    /** The services created from the tasks. */
    var service: seq<FargateService>
    var hasExternalLoadBalancer: bool
    var hasInternalLoadBalancer: bool
    var vpcSubnets: SubnetSelection
    /** Whether the selected subnets are public ones. */
    var isPublicSubnets: bool
    var externalAlb: Option<LoadBalancer>
    var internalAlb: Option<LoadBalancer>
    var privateZoneName: string
    var aliasRecords: seq<AliasRecord>
    var outputs: seq<Output>

    /** The field initialisers of the construct. */
    constructor (vpc: Vpc, vpcOrigin: VpcOrigin)
      ensures this.vpc == vpc && this.vpcOrigin == vpcOrigin && service == []
      ensures !hasExternalLoadBalancer && !hasInternalLoadBalancer
      ensures vpcSubnets == DefaultVpcSubnets && !isPublicSubnets
      ensures externalAlb == None && internalAlb == None
      ensures privateZoneName == "" && aliasRecords == [] && outputs == []
    {
      this.vpc := vpc;
      this.vpcOrigin := vpcOrigin;
      service := [];
      hasExternalLoadBalancer, hasInternalLoadBalancer := false, false;
      vpcSubnets := DefaultVpcSubnets;
      isPublicSubnets := false;
      externalAlb, internalAlb := None, None;
      privateZoneName, aliasRecords, outputs := "", [], [];
    }

    /** Checks the selected ids in order, then the public/private mix; on success
        records whether the selection is public. An error leaves the flag alone. */
    method ValidateSubnets(selectedIds: seq<SubnetId>) returns (err: Option<SubnetError>)
      modifies this`isPublicSubnets
      ensures CheckSelection(vpc, selectedIds).Failure? ==>
        err == Some(CheckSelection(vpc, selectedIds).error) && isPublicSubnets == old(isPublicSubnets)
      ensures CheckSelection(vpc, selectedIds).Success? ==>
        err == None && isPublicSubnets == CheckSelection(vpc, selectedIds).value
    {
      var allSubnetIds := vpc.AllSubnetIds();
      var i := 0;
      while i < |selectedIds|
        invariant 0 <= i <= |selectedIds|
        invariant forall j :: 0 <= j < i ==> !Offends(vpc, selectedIds[j])
      {
        var s := selectedIds[i];
        if s !in allSubnetIds {
          FailsAtFirstOffence(vpc, selectedIds, i);
          return Some(NotInVpc(s));
        }
        if s in vpc.isolatedSubnetIds {
          FailsAtFirstOffence(vpc, selectedIds, i);
          return Some(IsolatedNotAllowed(s));
        }
        i := i + 1;
      }
      FirstOffenceIsFirst(vpc, selectedIds);
      var hasPublic := AnySubnetIn(selectedIds, vpc.publicSubnetIds);
      var hasPrivate := AnySubnetIn(selectedIds, vpc.privateSubnetIds);
      if hasPublic && hasPrivate {
        return Some(MixedPublicAndPrivate);
      }
      isPublicSubnets := AnySubnetIn(selectedIds, vpc.publicSubnetIds);
      err := None;
    }

    /** Raises the front flags for every task that reaches that front; a flag that
        is already up stays up. */
    method ResolveFronts(tasks: seq<FargateTaskProps>)
      modifies this`hasExternalLoadBalancer, this`hasInternalLoadBalancer
      ensures hasExternalLoadBalancer == (old(hasExternalLoadBalancer) || NeedsExternal(tasks))
      ensures hasInternalLoadBalancer == (old(hasInternalLoadBalancer) || NeedsInternal(tasks))
    {
      var i := 0;
      while i < |tasks|
        invariant 0 <= i <= |tasks|
        invariant hasExternalLoadBalancer ==
          (old(hasExternalLoadBalancer) || exists j :: 0 <= j < i && AttachesExternal(tasks[j].accessibility))
        invariant hasInternalLoadBalancer ==
          (old(hasInternalLoadBalancer) || exists j :: 0 <= j < i && AttachesInternal(tasks[j].accessibility))
      {
        var t := tasks[i];
        if t.accessibility != Some(InternalOnly) {
          hasExternalLoadBalancer := true;
        }
        if t.accessibility != Some(ExternalOnly) {
          hasInternalLoadBalancer := true;
        }
        i := i + 1;
      }
    }

    /** An internet-facing ALB for the external front and a private one for the
        internal front, each only when its flag is up. */
    method CreateLoadBalancers(id: string)
      modifies this`externalAlb, this`internalAlb
      ensures externalAlb == if hasExternalLoadBalancer
                             then Some(LoadBalancer("ExternalAlb", true, id + "-extalblog")) else old(externalAlb)
      ensures internalAlb == if hasInternalLoadBalancer
                             then Some(LoadBalancer("InternalAlb", false, id + "-intalblog")) else old(internalAlb)
    {
      if hasExternalLoadBalancer {
        externalAlb := Some(LoadBalancer("ExternalAlb", true, id + "-extalblog"));
      }
      if hasInternalLoadBalancer {
        internalAlb := Some(LoadBalancer("InternalAlb", false, id + "-intalblog"));
      }
    }

    /** Pushes exactly one service per task, in task order. */
    method CreateServices(tasks: seq<FargateTaskProps>, spot: Option<bool>, enableExecuteCommand: Option<bool>)
      requires service == []
      modifies this`service
      ensures service == ServicesFor(tasks, spot, enableExecuteCommand, vpcSubnets, isPublicSubnets,
                                     externalAlb, internalAlb)
    {
      var i := 0;
      while i < |tasks|
        invariant 0 <= i <= |tasks|
        invariant |service| == i
        invariant forall k :: 0 <= k < i ==>
          service[k] == ServiceFor(tasks[k], k, spot, enableExecuteCommand, vpcSubnets, isPublicSubnets,
                                   externalAlb, internalAlb)
      {
        var svc := ServiceFor(tasks[i], i, spot, enableExecuteCommand, vpcSubnets, isPublicSubnets,
                              externalAlb, internalAlb);
        service := service + [svc];
        i := i + 1;
      }
    }

    /** The state after every resource is created from the tasks: the front flags,
        the ALBs, one service per task and the DNS records and outputs. */
    ghost predicate Built(id: string, tasks: seq<FargateTaskProps>, spot: Option<bool>,
                          enableExecuteCommand: Option<bool>, route53Ops: Option<Route53Options>)
      reads this
    {
      && hasExternalLoadBalancer == NeedsExternal(tasks)
      && hasInternalLoadBalancer == NeedsInternal(tasks)
      && externalAlb == FrontAlb(hasExternalLoadBalancer, "ExternalAlb", true, id + "-extalblog")
      && internalAlb == FrontAlb(hasInternalLoadBalancer, "InternalAlb", false, id + "-intalblog")
      && service == ServicesFor(tasks, spot, enableExecuteCommand, vpcSubnets, isPublicSubnets, externalAlb, internalAlb)
      && privateZoneName == ZoneNameOf(route53Ops)
      && aliasRecords == AliasRecords(hasInternalLoadBalancer, hasExternalLoadBalancer,
                                      InternalRecordNameOf(route53Ops), ExternalRecordNameOf(route53Ops),
                                      internalAlb, externalAlb)
      && outputs == EndpointOutputs(hasExternalLoadBalancer, hasInternalLoadBalancer,
                                    ExternalRecordNameOf(route53Ops), InternalRecordNameOf(route53Ops),
                                    privateZoneName, externalAlb, internalAlb)
    }

    /** Stores and checks the caller's subnet selection, if any; without one the
        placement stays the private default and nothing is checked. */
    method PlaceSubnets(selection: Option<SubnetSelection>, selectedIds: seq<SubnetId>) returns (err: Option<SubnetError>)
      requires vpcSubnets == DefaultVpcSubnets && !isPublicSubnets
      modifies this`vpcSubnets, this`isPublicSubnets
      ensures err.Some? <==> selection.Some? && CheckSelection(vpc, selectedIds).Failure?
      ensures err.Some? ==> err.value == CheckSelection(vpc, selectedIds).error
      ensures err.None? ==>
        && vpcSubnets == selection.GetOr(DefaultVpcSubnets)
        && isPublicSubnets == (selection.Some? && CheckSelection(vpc, selectedIds) == Success(true))
    {
      err := None;
      if selection.Some? {
        vpcSubnets := selection.value;
        err := ValidateSubnets(selectedIds);
      }
    }

    /** Everything after the subnet check: fronts, ALBs, services and DNS. */
    method CreateResources(id: string, tasks: seq<FargateTaskProps>, spot: Option<bool>,
                           enableExecuteCommand: Option<bool>, route53Ops: Option<Route53Options>)
      requires service == [] && externalAlb == None && internalAlb == None
      requires !hasExternalLoadBalancer && !hasInternalLoadBalancer
      modifies this`hasExternalLoadBalancer, this`hasInternalLoadBalancer, this`externalAlb, this`internalAlb,
               this`service, this`privateZoneName, this`aliasRecords, this`outputs
      ensures Built(id, tasks, spot, enableExecuteCommand, route53Ops)
    {
      ResolveFronts(tasks);
      CreateLoadBalancers(id);
      CreateServices(tasks, spot, enableExecuteCommand);
      CreateRoute53(route53Ops);
    }

    /** The private zone, an alias record per front and the endpoint outputs. */
    method CreateRoute53(route53Ops: Option<Route53Options>)
      modifies this`privateZoneName, this`aliasRecords, this`outputs
      ensures privateZoneName == ZoneNameOf(route53Ops)
      ensures aliasRecords == AliasRecords(hasInternalLoadBalancer, hasExternalLoadBalancer,
                                           InternalRecordNameOf(route53Ops), ExternalRecordNameOf(route53Ops),
                                           internalAlb, externalAlb)
      ensures outputs == EndpointOutputs(hasExternalLoadBalancer, hasInternalLoadBalancer,
                                         ExternalRecordNameOf(route53Ops), InternalRecordNameOf(route53Ops),
                                         privateZoneName, externalAlb, internalAlb)
    {
      var zoneName := ZoneNameOf(route53Ops);
      var externalRecordName := ExternalRecordNameOf(route53Ops);
      var internalRecordName := InternalRecordNameOf(route53Ops);
      privateZoneName := zoneName;
      aliasRecords, outputs := EmitRoute53(hasExternalLoadBalancer, hasInternalLoadBalancer,
                                           externalRecordName, internalRecordName, zoneName, externalAlb, internalAlb);
    }
  }

  function ZoneNameOf(ops: Option<Route53Options>): (z: string)
    ensures ops.None? || ops.value.zoneName.None? ==> z == DefaultZoneName
    ensures ops.Some? && ops.value.zoneName.Some? ==> z == ops.value.zoneName.value
  {
    if ops.Some? then ops.value.zoneName.GetOr(DefaultZoneName) else DefaultZoneName
  }

  function ExternalRecordNameOf(ops: Option<Route53Options>): (n: string)
    ensures ops.None? || ops.value.externalAlbRecordName.None? ==> n == DefaultExternalRecordName
    ensures ops.Some? && ops.value.externalAlbRecordName.Some? ==> n == ops.value.externalAlbRecordName.value
  {
    if ops.Some? then ops.value.externalAlbRecordName.GetOr(DefaultExternalRecordName) else DefaultExternalRecordName
  }

  function InternalRecordNameOf(ops: Option<Route53Options>): (n: string)
    ensures ops.None? || ops.value.internalAlbRecordName.None? ==> n == DefaultInternalRecordName
    ensures ops.Some? && ops.value.internalAlbRecordName.Some? ==> n == ops.value.internalAlbRecordName.value
  {
    if ops.Some? then ops.value.internalAlbRecordName.GetOr(DefaultInternalRecordName) else DefaultInternalRecordName
  }

  /** The VPC and the subnet placement of an object whose subnet check passed. */
  ghost predicate Placed(s: AlbFargateServices, props: AlbFargateServicesProps, ctx: SynthContext)
    reads s`vpcSubnets, s`isPublicSubnets
  {
    && s.vpc == VpcOf(props, ctx)
    && s.vpcOrigin == VpcOriginOf(props, ctx)
    && s.vpcSubnets == props.vpcSubnets.GetOr(DefaultVpcSubnets)
    && s.isPublicSubnets == (props.vpcSubnets.Some? && CheckSelection(s.vpc, ctx.selectedSubnetIds) == Success(true))
  }

  /** The state of a successfully constructed object, given what it was built from. */
  ghost predicate Planned(s: AlbFargateServices, id: string, props: AlbFargateServicesProps, ctx: SynthContext)
    reads s
  {
    && Placed(s, props, ctx)
    && s.Built(id, props.tasks, props.spot, props.enableExecuteCommand, props.route53Ops)
  }

  /** The construct's constructor. The object exists and its VPC is chosen first;
      then it fails, before any ALB, service, record or output is created and before
      the stack description is touched, exactly when a subnet selection is given and
      does not validate. Without a selection the placement stays private and no service gets
      a public IP. Every front attachment, alias record and output finds its ALB. */
  method NewAlbFargateServices(id: string, props: AlbFargateServicesProps, ctx: SynthContext, stack: Stack)
    returns (r: Result<AlbFargateServices, SubnetError>)
    modifies stack
    ensures r.Failure? <==> props.vpcSubnets.Some? && CheckSelection(VpcOf(props, ctx), ctx.selectedSubnetIds).Failure?
    ensures r.Failure? ==>
      && r.error == CheckSelection(VpcOf(props, ctx), ctx.selectedSubnetIds).error
      && stack.description == old(stack.description)
    ensures r.Success? ==>
      && fresh(r.value)
      && Placed(r.value, props, ctx)
      && r.value.Built(id, props.tasks, props.spot, props.enableExecuteCommand, props.route53Ops)
      && stack.description == WithSolutionId(old(stack.description))
  {
    var s := new AlbFargateServices(VpcOf(props, ctx), VpcOriginOf(props, ctx));
    var err := s.PlaceSubnets(props.vpcSubnets, ctx.selectedSubnetIds);
    if err.Some? {
      return Failure(err.value);
    }
    s.CreateResources(id, props.tasks, props.spot, props.enableExecuteCommand, props.route53Ops);
    AddSolutionId(stack);
    r := Success(s);
  }

  /** Without a subnet selection no validation runs, the placement stays the
      private default and no service is given a public IP. */
  lemma NoSelectionStaysPrivate(s: AlbFargateServices, id: string, props: AlbFargateServicesProps, ctx: SynthContext)
    requires Planned(s, id, props, ctx) && props.vpcSubnets.None?
    ensures s.vpcSubnets == SubnetSelection(Some(Private), None) && !s.isPublicSubnets
    ensures |s.service| == |props.tasks|
    ensures forall i :: 0 <= i < |s.service| ==> !s.service[i].assignPublicIp && s.service[i].vpcSubnets == s.vpcSubnets
  {
  }

  /** A validated public selection gives every service a public IP. */
  lemma PublicSelectionAssignsPublicIp(s: AlbFargateServices, id: string, props: AlbFargateServicesProps,
                                       ctx: SynthContext)
    requires Planned(s, id, props, ctx) && props.vpcSubnets.Some?
    requires CheckSelection(s.vpc, ctx.selectedSubnetIds) == Success(true)
    ensures forall i :: 0 <= i < |s.service| ==> s.service[i].assignPublicIp
  {
  }

  /** In a constructed object every listener, alias record and ALB output is given
      an ALB that exists: the non-null assertions on the ALB fields are safe. */
  lemma PlannedFrontsExist(s: AlbFargateServices, id: string, props: AlbFargateServicesProps, ctx: SynthContext)
    requires Planned(s, id, props, ctx)
    ensures forall i :: 0 <= i < |s.service| ==>
      && (s.service[i].wiring.external.Some? ==> s.service[i].wiring.external.value.loadBalancer.Some?)
      && (s.service[i].wiring.internal.Some? ==> s.service[i].wiring.internal.value.loadBalancer.Some?)
    ensures forall rec :: rec in s.aliasRecords ==> rec.target.Some?
    ensures forall o :: o in s.outputs && o.value.HttpAlbDnsName? ==> o.value.alb.Some?
  {
    forall i | 0 <= i < |s.service|
      ensures s.service[i].wiring == WireTask(props.tasks[i], i, s.externalAlb, s.internalAlb)
      ensures s.service[i].wiring.external.Some? ==> s.service[i].wiring.external.value.loadBalancer.Some?
      ensures s.service[i].wiring.internal.Some? ==> s.service[i].wiring.internal.value.loadBalancer.Some?
    {
      AttachmentsHaveTheirAlb(props.tasks, i, s.externalAlb, s.internalAlb);
    }
    RecordsAndOutputsHaveTheirAlb(s.hasExternalLoadBalancer, s.hasInternalLoadBalancer,
                                  ExternalRecordNameOf(props.route53Ops), InternalRecordNameOf(props.route53Ops),
                                  s.privateZoneName, s.externalAlb, s.internalAlb);
  }
}
