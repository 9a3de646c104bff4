/** The subnet-selection rules: which subnets a service may be placed in, and
    whether the placement is public. */
module Subnets {
  import opened Wrappers

  type SubnetId = string

  /** The subnet ids of a VPC, by subnet group, in the VPC's own order. */
  datatype Vpc = Vpc(publicSubnetIds: seq<SubnetId>, privateSubnetIds: seq<SubnetId>,
                     isolatedSubnetIds: seq<SubnetId>)
  {
    function AllSubnetIds(): (ids: seq<SubnetId>)
      ensures |ids| == |publicSubnetIds| + |privateSubnetIds| + |isolatedSubnetIds|
      ensures forall id :: id in ids <==> id in publicSubnetIds || id in privateSubnetIds || id in isolatedSubnetIds
    {
      publicSubnetIds + privateSubnetIds + isolatedSubnetIds
    }
  }

  datatype SubnetError =
    | NotInVpc(id: SubnetId)
    | IsolatedNotAllowed(id: SubnetId)
    | MixedPublicAndPrivate
  {
    /** The message of the error the construct throws: the offending id followed by
        the reason, the reason followed by the id, or the fixed mix message. */
    function Message(): (m: string)
      ensures NotInVpc? ==> |m| == |id| + 26 && m[..|id|] == id && m[|id|..] == " does not exist in the VPC"
      ensures IsolatedNotAllowed? ==>
        && |m| == 16 + |id| + 15 && m[..16] == "Isolated subnet " && m[16..16 + |id|] == id
        && m[16 + |id|..] == " is not allowed"
      ensures MixedPublicAndPrivate? ==> |m| > 0 && m[|m| - 1] == '.'
    {
      match this
      case NotInVpc(id) => id + " does not exist in the VPC"
      case IsolatedNotAllowed(id) => "Isolated subnet " + id + " is not allowed"
      case MixedPublicAndPrivate => "You should provide either all public or all private subnets, not both."
    }
  }

  /** Distinct errors have distinct messages: a message names its kind and its id. */
  lemma MessageIdentifiesError(e1: SubnetError, e2: SubnetError)
    requires e1.Message() == e2.Message()
    ensures e1 == e2
  {
    var m := e1.Message();
    if e1.NotInVpc? && e2.NotInVpc? {
      assert |e1.id| == |e2.id|;
      assert e1.id == m[..|e1.id|] == e2.id;
    } else if e1.IsolatedNotAllowed? && e2.IsolatedNotAllowed? {
      assert |e1.id| == |e2.id|;
      assert e1.id == m[16..16 + |e1.id|] == e2.id;
    } else {
      assert LastChar(e1) == m[|m| - 1] == LastChar(e2);
    }
  }

  /** The last character of each kind of message. */
  function LastChar(e: SubnetError): (c: char)
    ensures |e.Message()| > 0 && c == e.Message()[|e.Message()| - 1]
  {
    match e
    case NotInVpc(_) => 'C'
    case IsolatedNotAllowed(_) => 'd'
    case MixedPublicAndPrivate => '.'
  }

  /** An id that the per-id check rejects: unknown to the VPC, or isolated. */
  predicate Offends(vpc: Vpc, id: SubnetId): (b: bool)
    ensures b <==> (id !in vpc.publicSubnetIds && id !in vpc.privateSubnetIds) || id in vpc.isolatedSubnetIds
  {
    id !in vpc.AllSubnetIds() || id in vpc.isolatedSubnetIds
  }

  /** The error an offending id raises; existence is checked before isolation. */
  function OffenceError(vpc: Vpc, id: SubnetId): (e: SubnetError)
    ensures e.NotInVpc? <==> id !in vpc.AllSubnetIds()
    ensures !e.MixedPublicAndPrivate? && e.id == id
  {
    if id !in vpc.AllSubnetIds() then NotInVpc(id) else IsolatedNotAllowed(id)
  }

  /** The per-id check, in selection order: the first offending id decides the error. */
  function FirstOffence(vpc: Vpc, ids: seq<SubnetId>): (r: Option<SubnetError>)
    ensures r.Some? ==> !r.value.MixedPublicAndPrivate? && r.value.id in ids
  {
    if ids == [] then None
    else if Offends(vpc, ids[0]) then Some(OffenceError(vpc, ids[0]))
    else FirstOffence(vpc, ids[1..])
  }

  /** Some selected id belongs to the given subnet group (`Array.some`). */
  predicate SomeIn(ids: seq<SubnetId>, group: seq<SubnetId>): (b: bool)
    ensures b ==> |ids| > 0 && |group| > 0
    ensures forall id :: id in ids && id in group ==> b
  {
    exists i :: 0 <= i < |ids| && ids[i] in group
  }

  /** The whole validation: the per-id check, then the public/private mix check;
      on success, whether the selection is public. */
  function CheckSelection(vpc: Vpc, ids: seq<SubnetId>): (r: Result<bool, SubnetError>)
    ensures r.Failure? && !r.error.MixedPublicAndPrivate? ==> r.error.id in ids
    ensures r == Failure(MixedPublicAndPrivate) ==> SomeIn(ids, vpc.publicSubnetIds) && SomeIn(ids, vpc.privateSubnetIds)
    ensures r.Success? ==> r.value == SomeIn(ids, vpc.publicSubnetIds) && !(r.value && SomeIn(ids, vpc.privateSubnetIds))
  {
    match FirstOffence(vpc, ids)
    case Some(e) => Failure(e)
    case None =>
      if SomeIn(ids, vpc.publicSubnetIds) && SomeIn(ids, vpc.privateSubnetIds) then
        Failure(MixedPublicAndPrivate)
      else
        Success(SomeIn(ids, vpc.publicSubnetIds))
  }

  /** The per-id check passes exactly when no id offends, and otherwise reports
      the error of the first offending id. */
  lemma {:induction false} FirstOffenceIsFirst(vpc: Vpc, ids: seq<SubnetId>)
    ensures FirstOffence(vpc, ids).None? <==> forall k :: 0 <= k < |ids| ==> !Offends(vpc, ids[k])
    ensures FirstOffence(vpc, ids).Some? ==>
      exists k :: 0 <= k < |ids| && Offends(vpc, ids[k]) && (forall j :: 0 <= j < k ==> !Offends(vpc, ids[j]))
        && FirstOffence(vpc, ids) == Some(OffenceError(vpc, ids[k]))
  {
    if ids != [] && !Offends(vpc, ids[0]) {
      FirstOffenceIsFirst(vpc, ids[1..]);
      if FirstOffence(vpc, ids[1..]).Some? {
        var k :| 0 <= k < |ids[1..]| && Offends(vpc, ids[1..][k])
          && (forall j :: 0 <= j < k ==> !Offends(vpc, ids[1..][j]))
          && FirstOffence(vpc, ids[1..]) == Some(OffenceError(vpc, ids[1..][k]));
        assert Offends(vpc, ids[k + 1]);
        assert forall j :: 0 <= j < k + 1 ==> !Offends(vpc, ids[j]) by {
          forall j | 0 <= j < k + 1 ensures !Offends(vpc, ids[j]) {
            if j > 0 { assert ids[j] == ids[1..][j - 1]; }
          }
        }
      } else {
        forall k | 0 <= k < |ids| ensures !Offends(vpc, ids[k]) {
          if k > 0 { assert ids[k] == ids[1..][k - 1]; }
        }
      }
    }
  }

  /** If the ids before position k pass and the id at k offends, validation fails
      with the error of that id, whatever follows it. */
  lemma {:induction false} FailsAtFirstOffence(vpc: Vpc, ids: seq<SubnetId>, k: nat)
    requires k < |ids| && Offends(vpc, ids[k])
    requires forall j :: 0 <= j < k ==> !Offends(vpc, ids[j])
    ensures CheckSelection(vpc, ids) == Failure(OffenceError(vpc, ids[k]))
    ensures ids[k] !in vpc.AllSubnetIds() ==> CheckSelection(vpc, ids) == Failure(NotInVpc(ids[k]))
    ensures ids[k] in vpc.AllSubnetIds() ==> CheckSelection(vpc, ids) == Failure(IsolatedNotAllowed(ids[k]))
    decreases k
  {
    if k > 0 {
      assert !Offends(vpc, ids[0]);
      FailsAtFirstOffence(vpc, ids[1..], k - 1);
    }
  }

  /** A selection of only isolated subnets is rejected, naming its first id. */
  lemma AllIsolatedRejected(vpc: Vpc, ids: seq<SubnetId>)
    requires |ids| > 0 && forall k :: 0 <= k < |ids| ==> ids[k] in vpc.isolatedSubnetIds
    ensures CheckSelection(vpc, ids) == Failure(IsolatedNotAllowed(ids[0]))
  {
    FailsAtFirstOffence(vpc, ids, 0);
  }

  /** A selection with a public and a private id fails: with the mix error, unless
      the per-id check already failed. */
  lemma MixedSelectionRejected(vpc: Vpc, ids: seq<SubnetId>, p: nat, q: nat)
    requires p < |ids| && q < |ids|
    requires ids[p] in vpc.publicSubnetIds && ids[q] in vpc.privateSubnetIds
    ensures CheckSelection(vpc, ids).Failure?
    ensures FirstOffence(vpc, ids).None? ==> CheckSelection(vpc, ids) == Failure(MixedPublicAndPrivate)
  {
  }

  /** Validation succeeds exactly when no id offends and the selection does not mix
      public and private ids; the result is then "some selected id is public", and
      the placement is homogeneous: all public ids, or all private ids. */
  lemma SuccessCharacterised(vpc: Vpc, ids: seq<SubnetId>)
    ensures CheckSelection(vpc, ids).Success? <==>
      (forall k :: 0 <= k < |ids| ==> !Offends(vpc, ids[k]))
      && !(SomeIn(ids, vpc.publicSubnetIds) && SomeIn(ids, vpc.privateSubnetIds))
    ensures CheckSelection(vpc, ids).Success? ==>
      && CheckSelection(vpc, ids).value == SomeIn(ids, vpc.publicSubnetIds)
      && (forall k :: 0 <= k < |ids| ==>
            if CheckSelection(vpc, ids).value
            then ids[k] in vpc.publicSubnetIds && ids[k] !in vpc.privateSubnetIds
            else ids[k] in vpc.privateSubnetIds && ids[k] !in vpc.publicSubnetIds)
  {
    FirstOffenceIsFirst(vpc, ids);
    if CheckSelection(vpc, ids).Success? {
      forall k | 0 <= k < |ids|
        ensures ids[k] in vpc.publicSubnetIds || ids[k] in vpc.privateSubnetIds
      {
        assert !Offends(vpc, ids[k]);
      }
    }
  }

  /** A public selection: every id public and none isolated or private. */
  lemma AllPublicAccepted(vpc: Vpc, ids: seq<SubnetId>)
    requires |ids| > 0
    requires forall k :: 0 <= k < |ids| ==>
      ids[k] in vpc.publicSubnetIds && ids[k] !in vpc.privateSubnetIds && ids[k] !in vpc.isolatedSubnetIds
    ensures CheckSelection(vpc, ids) == Success(true)
  {
    SuccessCharacterised(vpc, ids);
    assert ids[0] in vpc.publicSubnetIds;
  }

  /** An empty selection passes, and is not public. */
  lemma EmptySelectionAccepted(vpc: Vpc)
    ensures CheckSelection(vpc, []) == Success(false)
  {
  }

  /** `Array.some` over the selection: does any selected id belong to the group? */
  method AnySubnetIn(ids: seq<SubnetId>, group: seq<SubnetId>) returns (found: bool)
    ensures found == SomeIn(ids, group)
  {
    found := false;
    var i := 0;
    while i < |ids| && !found
      invariant 0 <= i <= |ids|
      invariant found ==> i > 0 && ids[i - 1] in group
      invariant !found ==> forall j :: 0 <= j < i ==> ids[j] !in group
    {
      found := ids[i] in group;
      i := i + 1;
    }
  }
}
