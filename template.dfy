/** The description of the CloudFormation template of the enclosing stack. */
module Template {
  import opened Wrappers

  const SolutionDescription := "(SO8030) - AWS CDK stack with serverless-container-constructs"

  /** The template options of the stack that holds the construct. */
  class Stack {
    var description: Option<string>

    constructor (description: Option<string>)
      ensures this.description == description
    {
      this.description := description;
    }
  }

  /** A description that JavaScript treats as true: present and non-empty. */
  predicate Truthy(d: Option<string>): (b: bool)
    ensures d.None? ==> !b
    ensures d.Some? ==> (b <==> |d.value| > 0)
  {
    d.Some? && d.value != ""
  }

  /** The description after the solution id is added: an existing description is
      kept; an absent or empty one becomes the solution description. */
  function WithSolutionId(d: Option<string>): (r: Option<string>)
    ensures Truthy(d) ==> r == d
    ensures !Truthy(d) ==> r == Some(SolutionDescription)
    ensures Truthy(r)
  {
    if Truthy(d) then d else Some(SolutionDescription)
  }

  /** Adding the solution id twice changes nothing the second time. */
  lemma WithSolutionIdIdempotent(d: Option<string>)
    ensures WithSolutionId(WithSolutionId(d)) == WithSolutionId(d)
  {
  }

  method AddSolutionId(stack: Stack)
    modifies stack
    ensures stack.description == WithSolutionId(old(stack.description))
  {
    if !Truthy(stack.description) {
      stack.description := Some(SolutionDescription);
    }
  }
}
