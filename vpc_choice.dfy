/** The rule that decides where the construct's VPC comes from when the caller
    gives none: a lookup of the account's default VPC, a lookup by id, or a new VPC. */
module VpcChoice {
  import opened Wrappers

  /** A value read from the CDK context. Context values come from the command line
      (strings) or from cdk.json (any JSON value); numbers are modelled as integers. */
  datatype ContextValue = Str(s: string) | Num(n: int) | Bool(b: bool) | Null | Structured

  /** JavaScript truthiness of a possibly absent context value. */
  predicate Truthy(v: Option<ContextValue>): (b: bool)
    ensures v.None? || v == Some(Null) ==> !b
    ensures v == Some(Str("0")) || v == Some(Structured) ==> b
    ensures forall s :: v == Some(Str(s)) ==> (b <==> |s| > 0)
    ensures forall n :: v == Some(Num(n)) ==> (b <==> n != 0)
  {
    match v
    case None => false
    case Some(Str(s)) => s != ""
    case Some(Num(n)) => n != 0
    case Some(Bool(b)) => b
    case Some(Null) => false
    case Some(Structured) => true
  }

  /** The maximum number of availability zones and NAT gateways of a newly created VPC. */
  const NewVpcMaxAzs: nat := 3
  const NewVpcNatGateways: nat := 1

  datatype VpcSource =
    | DefaultVpcLookup
    | VpcIdLookup(vpcId: ContextValue)
    | NewVpc(maxAzs: nat, natGateways: nat, flowLogs: bool)

  /** `use_default_vpc` (context), `CDK_USE_DEFAULT_VPC` (environment) and
      `use_vpc_id` (context). Only the string "1" switches on a default flag
      (strict equality), and either default flag wins over a VPC id. */
  function GetOrCreateVpc(useDefaultVpc: Option<ContextValue>, envUseDefaultVpc: Option<string>,
                          useVpcId: Option<ContextValue>): (r: VpcSource)
    ensures r.DefaultVpcLookup? <==> useDefaultVpc == Some(Str("1")) || envUseDefaultVpc == Some("1")
    ensures r.VpcIdLookup? <==> !r.DefaultVpcLookup? && Truthy(useVpcId)
    ensures r.VpcIdLookup? ==> useVpcId == Some(r.vpcId)
    ensures r.NewVpc? ==> r.maxAzs == 3 && r.natGateways == 1 && r.flowLogs
  {
    if useDefaultVpc == Some(Str("1")) || envUseDefaultVpc == Some("1") then
      DefaultVpcLookup
    else if Truthy(useVpcId) then
      VpcIdLookup(useVpcId.value)
    else
      NewVpc(NewVpcMaxAzs, NewVpcNatGateways, true)
  }

  /** An empty or absent VPC id, with no default flag set, creates a new VPC. */
  lemma EmptyVpcIdCreatesVpc(useDefaultVpc: Option<ContextValue>, envUseDefaultVpc: Option<string>)
    requires useDefaultVpc != Some(Str("1")) && envUseDefaultVpc != Some("1")
    ensures GetOrCreateVpc(useDefaultVpc, envUseDefaultVpc, None) == NewVpc(3, 1, true)
    ensures GetOrCreateVpc(useDefaultVpc, envUseDefaultVpc, Some(Str(""))) == NewVpc(3, 1, true)
  {
  }

  /** A near miss of the flag (the number 1, or the string "true") is not the flag. */
  lemma DefaultFlagIsExactlyTheStringOne(useVpcId: Option<ContextValue>)
    ensures !GetOrCreateVpc(Some(Num(1)), None, useVpcId).DefaultVpcLookup?
    ensures !GetOrCreateVpc(Some(Str("true")), Some("yes"), useVpcId).DefaultVpcLookup?
  {
  }
}
