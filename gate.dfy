/** The server-side AI gate of app/lib/supabase/client.ts (`canUseAI(userId)`): a decision
    over the subscriber's profile row. Fetching the row is a call into the hosted backend
    and is an input here: either the row or the error the fetch threw. */
module Gate {
  import opened Wrappers
  import Usage

  /** The columns of the `users` row the decision reads. */
  datatype Profile = Profile(plan: Usage.Plan, usage_count: int, usage_limit: int)

  datatype Reason = BasicPlan | WithinLimit | LimitExceeded

  datatype Decision = Decision(canUse: bool, reason: Reason)

  /** The error a failed profile fetch throws. */
  datatype FetchError = FetchError(message: string)

  /** The three-way decision: the plan check comes first, then the usage limit. */
  function Decide(p: Profile): (d: Decision)
    ensures d.canUse <==> d.reason != LimitExceeded
    ensures d.canUse <==> p.plan == Usage.Basic || p.usage_count < p.usage_limit
    ensures d.reason == BasicPlan <==> p.plan == Usage.Basic
    ensures d.reason == WithinLimit <==> p.plan != Usage.Basic && p.usage_count < p.usage_limit
  {
    if p.plan == Usage.Basic then Decision(true, BasicPlan)
    else if p.usage_count < p.usage_limit then Decision(true, WithinLimit)
    else Decision(false, LimitExceeded)
  }

  /** `canUseAI(userId)` given the outcome of `getUserProfile(userId)`: a fetch error is
      rethrown, never turned into a decision. */
  function CanUseAI(fetched: Result<Profile, FetchError>): (r: Result<Decision, FetchError>)
    ensures fetched.Failure? <==> r.Failure?
    ensures fetched.Failure? ==> r.error == fetched.error
    ensures fetched.Success? ==> r.value == Decide(fetched.value)
  {
    match fetched
    case Failure(e) => Failure(e)
    case Success(p) => Success(Decide(p))
  }

  /** A Basic profile is let through whatever its counters say. */
  lemma BasicIgnoresCounters(p: Profile, count: int, limit: int)
    requires p.plan == Usage.Basic
    ensures Decide(p.(usage_count := count, usage_limit := limit)) == Decision(true, BasicPlan)
  {
  }

  /** For a paid plan, raising the count can only close the gate. */
  lemma MoreUsageNeverOpens(p: Profile, extra: nat)
    requires !Decide(p).canUse
    ensures !Decide(p.(usage_count := p.usage_count + extra)).canUse
  {
  }
}
