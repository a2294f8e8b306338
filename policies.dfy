/**
 * The conflict-resolution policies both writers accept. The source passes
 * them as strings and compares them with `==`; a string that names none of
 * the four is kept as `Unknown` so that its fall-through behaviour can be
 * modelled too.
 */
module Policies {

  /** The four policy names the clients compare against. */
  const KnownNames: set<string> := {"append", "ignore", "fail", "replace"}

  datatype PolicyTag = Append | Ignore | Fail | Replace | Unknown(name: string)

  /**
   * A policy a caller's string can select: an `Unknown` policy never
   * carries one of the four known names.
   */
  type Policy = p: PolicyTag | p.Unknown? ==> p.name !in KnownNames witness Append

  function PolicyName(p: Policy): string {
    match p
    case Append => "append"
    case Ignore => "ignore"
    case Fail => "fail"
    case Replace => "replace"
    case Unknown(name) => name
  }

  /** The policy a caller's string selects. */
  function ParsePolicy(s: string): (p: Policy)
    ensures PolicyName(p) == s
    ensures p.Unknown? <==> s !in KnownNames
  {
    if s == "append" then Append
    else if s == "ignore" then Ignore
    else if s == "fail" then Fail
    else if s == "replace" then Replace
    else Unknown(s)
  }

  /** Every policy is selected by its own name, so no policy is out of a caller's reach. */
  lemma ParsePolicyName(p: Policy)
    ensures ParsePolicy(PolicyName(p)) == p
  {
  }
}
