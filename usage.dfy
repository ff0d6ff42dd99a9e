/** The client-side usage-entitlement ledger of app/lib/stores/usage.ts: one process-wide
    record of the subscriber's plan, free AI credits and billing period, persisted to
    browser storage under a fixed key after every change. */
module Usage {
  import opened Wrappers
  import Text

  datatype Plan = Basic | Standard | Premium

  /** Length of a billing period: 30 days in milliseconds. */
  const PERIOD_MS: int := 30 * 24 * 60 * 60 * 1000

  /** Free credits granted per period for each plan. */
  function Allot(plan: Plan): (n: nat)
    ensures n == 0 <==> plan == Basic
    ensures plan == Standard ==> n == 150
    ensures plan == Premium ==> n == 750
  {
    match plan
    case Basic => 0
    case Standard => 150
    case Premium => 750
  }

  /** The stored record; timestamps are milliseconds since the epoch. */
  datatype UsageData = UsageData(
    plan: Plan,
    freeUsageRemaining: int,
    totalFreeUsage: int,
    currentPeriodStart: int,
    currentPeriodEnd: int,
    subscriptionId: Option<string>,
    customerId: Option<string>)

  /** The invariant the plan/reset/decrement paths keep: credits within the grant, the
      grant equal to the plan's allotment, and a non-empty period. */
  predicate Valid(u: UsageData)
  {
    && 0 <= u.freeUsageRemaining <= u.totalFreeUsage
    && u.totalFreeUsage == Allot(u.plan)
    && u.currentPeriodStart < u.currentPeriodEnd
  }

  /** `DEFAULT_USAGE`: the clock is read once for the start (t0) and once more for the end (t1). */
  function DefaultUsage(t0: int, t1: int): (u: UsageData)
    ensures u.plan == Basic && u.freeUsageRemaining == 0 && u.totalFreeUsage == 0
    ensures u.currentPeriodEnd - u.currentPeriodStart == PERIOD_MS + (t1 - t0)
    ensures u.subscriptionId == None && u.customerId == None
    ensures t0 <= t1 ==> Valid(u)
  {
    UsageData(Basic, 0, 0, t0, t1 + PERIOD_MS, None, None)
  }

  /** One key of a `Partial<UsageData>`: absent, or present with a value. An optional field
      can be present with the value `undefined`, which is `Put(None)`. */
  datatype Field<T> = Keep | Put(value: T)

  function Pick<T>(f: Field<T>, current: T): T
  {
    match f
    case Keep => current
    case Put(v) => v
  }

  datatype UsagePatch = UsagePatch(
    plan: Field<Plan>,
    freeUsageRemaining: Field<int>,
    totalFreeUsage: Field<int>,
    currentPeriodStart: Field<int>,
    currentPeriodEnd: Field<int>,
    subscriptionId: Field<Option<string>>,
    customerId: Field<Option<string>>)

  const NoChange := UsagePatch(Keep, Keep, Keep, Keep, Keep, Keep, Keep)

  /** `{ ...current, ...patch }`: every key present in the patch wins, every absent key is kept. */
  function Merge(u: UsageData, p: UsagePatch): (r: UsageData)
    ensures p.plan.Keep? ==> r.plan == u.plan
    ensures p.plan.Put? ==> r.plan == p.plan.value
    ensures p.freeUsageRemaining.Keep? ==> r.freeUsageRemaining == u.freeUsageRemaining
    ensures p.freeUsageRemaining.Put? ==> r.freeUsageRemaining == p.freeUsageRemaining.value
    ensures p.totalFreeUsage.Keep? ==> r.totalFreeUsage == u.totalFreeUsage
    ensures p.totalFreeUsage.Put? ==> r.totalFreeUsage == p.totalFreeUsage.value
    ensures p.currentPeriodStart.Keep? ==> r.currentPeriodStart == u.currentPeriodStart
    ensures p.currentPeriodStart.Put? ==> r.currentPeriodStart == p.currentPeriodStart.value
    ensures p.currentPeriodEnd.Keep? ==> r.currentPeriodEnd == u.currentPeriodEnd
    ensures p.currentPeriodEnd.Put? ==> r.currentPeriodEnd == p.currentPeriodEnd.value
    ensures p.subscriptionId.Keep? ==> r.subscriptionId == u.subscriptionId
    ensures p.subscriptionId.Put? ==> r.subscriptionId == p.subscriptionId.value
    ensures p.customerId.Keep? ==> r.customerId == u.customerId
    ensures p.customerId.Put? ==> r.customerId == p.customerId.value
  {
    UsageData(
      Pick(p.plan, u.plan),
      Pick(p.freeUsageRemaining, u.freeUsageRemaining),
      Pick(p.totalFreeUsage, u.totalFreeUsage),
      Pick(p.currentPeriodStart, u.currentPeriodStart),
      Pick(p.currentPeriodEnd, u.currentPeriodEnd),
      Pick(p.subscriptionId, u.subscriptionId),
      Pick(p.customerId, u.customerId))
  }

  /** An empty partial leaves the record as it is. */
  lemma MergeNoChange(u: UsageData)
    ensures Merge(u, NoChange) == u
  {
  }

  /** The partial `decrementUsage` hands to `updateUsage`. */
  function DecrementPatch(u: UsageData): UsagePatch
  {
    NoChange.(freeUsageRemaining := Put(u.freeUsageRemaining - 1))
  }

  /** The partial `setPlan` hands to `updateUsage`; both optional ids are always present. */
  function PlanPatch(plan: Plan, subscriptionId: Option<string>, customerId: Option<string>, now: int): UsagePatch
  {
    UsagePatch(Put(plan), Put(Allot(plan)), Put(Allot(plan)), Put(now), Put(now + PERIOD_MS),
               Put(subscriptionId), Put(customerId))
  }

  /** The partial `resetUsageForNewPeriod` hands to `updateUsage`: no plan, no ids. */
  function ResetPatch(u: UsageData, now: int): UsagePatch
  {
    NoChange.(freeUsageRemaining := Put(Allot(u.plan)), totalFreeUsage := Put(Allot(u.plan)),
              currentPeriodStart := Put(now), currentPeriodEnd := Put(now + PERIOD_MS))
  }

  /** The record after one `decrementUsage` call. */
  function Decremented(u: UsageData): UsageData
  {
    if u.freeUsageRemaining > 0 then Merge(u, DecrementPatch(u)) else u
  }

  /** The record after k successive `decrementUsage` calls. */
  function DecrementedTimes(u: UsageData, k: nat): UsageData
    decreases k
  {
    if k == 0 then u else Decremented(DecrementedTimes(u, k - 1))
  }

  /** Over any number of calls the count drops by one per successful call and stops at zero;
      nothing else in the record moves, and the ledger invariant survives. */
  lemma {:induction false} DecrementedTimesSpec(u: UsageData, k: nat)
    requires u.freeUsageRemaining >= 0
    ensures var r := DecrementedTimes(u, k);
      && r.freeUsageRemaining == (if k <= u.freeUsageRemaining then u.freeUsageRemaining - k else 0)
      && r == u.(freeUsageRemaining := r.freeUsageRemaining)
      && (Valid(u) ==> Valid(r))
    decreases k
  {
    if k > 0 {
      DecrementedTimesSpec(u, k - 1);
    }
  }

  /** A plan change lands in a valid state from any state. */
  lemma SetPlanValid(u: UsageData, plan: Plan, subscriptionId: Option<string>, customerId: Option<string>, now: int)
    ensures Valid(Merge(u, PlanPatch(plan, subscriptionId, customerId, now)))
  {
  }

  /** `setPlan('standard')` grants 150 free credits and `setPlan('premium')` grants 750, both
      as the remaining and as the total count, whatever the record held before. */
  lemma SetPlanGrants(u: UsageData, subscriptionId: Option<string>, customerId: Option<string>, now: int)
    ensures var r := Merge(u, PlanPatch(Standard, subscriptionId, customerId, now));
      r.freeUsageRemaining == 150 && r.totalFreeUsage == 150
    ensures var r := Merge(u, PlanPatch(Premium, subscriptionId, customerId, now));
      r.freeUsageRemaining == 750 && r.totalFreeUsage == 750
  {
  }

  /** A period reset keeps a record whose plan grant is known valid, and it is idempotent
      for a fixed clock reading. */
  lemma ResetValid(u: UsageData, now: int)
    ensures Valid(Merge(u, ResetPatch(u, now)))
    ensures var r := Merge(u, ResetPatch(u, now)); Merge(r, ResetPatch(r, now)) == r
  {
  }

  /** `canUseAI()`: Basic means the subscriber's own keys, otherwise a free credit is needed. */
  predicate CanUseAI(u: UsageData)
  {
    u.plan == Basic || u.freeUsageRemaining > 0
  }

  const OWN_KEYS_MESSAGE := "Using your own API keys"
  const EXHAUSTED_MESSAGE := "Free usage exhausted" + " - using your own API keys"
  const REMAINING_SUFFIX := " free uses remaining this month"

  /** `getUsageMessage()`. */
  function UsageMessage(u: UsageData): (m: string)
    ensures u.plan == Basic ==> m == OWN_KEYS_MESSAGE
    ensures u.plan != Basic && u.freeUsageRemaining > 0 ==>
      m == Text.NatToString(u.freeUsageRemaining) + REMAINING_SUFFIX
    ensures u.plan != Basic && u.freeUsageRemaining <= 0 ==> m == EXHAUSTED_MESSAGE
  {
    if u.plan == Basic then OWN_KEYS_MESSAGE
    else if u.freeUsageRemaining > 0 then Text.NatToString(u.freeUsageRemaining) + REMAINING_SUFFIX
    else EXHAUSTED_MESSAGE
  }

  /** The status text and the gate agree: the exhausted text is shown exactly when AI use is
      refused, and a credit count, when shown, reads back as the remaining credits. */
  lemma {:induction false} MessageMatchesGate(u: UsageData)
    ensures UsageMessage(u) == EXHAUSTED_MESSAGE <==> !CanUseAI(u)
    ensures u.plan != Basic && u.freeUsageRemaining > 0 ==>
      var m := UsageMessage(u);
      var digits := m[..|m| - |REMAINING_SUFFIX|];
      (forall i :: 0 <= i < |digits| ==> Text.IsDigit(digits[i])) && Text.ParseDigits(digits) == u.freeUsageRemaining
  {
    var m := UsageMessage(u);
    if u.plan != Basic && u.freeUsageRemaining > 0 {
      var n := Text.NatToString(u.freeUsageRemaining);
      assert m[0] == n[0];
      assert Text.IsDigit(m[0]);
      assert m != EXHAUSTED_MESSAGE by {
        assert EXHAUSTED_MESSAGE[0] == 'F';
      }
      assert m[..|m| - |REMAINING_SUFFIX|] == n;
      Text.NatToStringRoundTrip(u.freeUsageRemaining);
    }
    if u.plan == Basic {
      assert |OWN_KEYS_MESSAGE| != |EXHAUSTED_MESSAGE|;
    }
  }

  /** On a valid record, a refused gate means a non-Basic plan with no credit left, so a
      decrement would report failure and change nothing. */
  lemma GateClosedMeansNoCredit(u: UsageData)
    requires Valid(u)
    requires !CanUseAI(u)
    ensures u.plan != Basic && u.freeUsageRemaining == 0 && Decremented(u) == u
  {
  }

  /** The browser storage slot under the key 'refine_usage', as read at startup: nothing
      (or an empty string), text that does not parse, or a parsed record. */
  datatype Slot = Empty | Malformed | Holds(data: UsageData)

  /** `initUsageStore()`: outside server rendering, a stored parseable record is trusted as
      is; otherwise (server rendering, nothing stored, or a parse error) the default. */
  function InitUsage(ssr: bool, stored: Slot, t0: int, t1: int): (u: UsageData)
    ensures !ssr && stored.Holds? ==> u == stored.data
    ensures ssr || !stored.Holds? ==> u == DefaultUsage(t0, t1)
  {
    if !ssr && stored.Holds? then stored.data else DefaultUsage(t0, t1)
  }

  /** `usageStore` together with the storage slot it writes to. */
  class UsageStore {
    var usage: UsageData
    var persisted: Slot
    const ssr: bool

    /** Module load: the store starts from `initUsageStore()`; startup never writes. */
    constructor (ssr: bool, stored: Slot, t0: int, t1: int)
      ensures this.ssr == ssr && persisted == stored
      ensures usage == InitUsage(ssr, stored, t0, t1)
    {
      this.ssr := ssr;
      persisted := stored;
      usage := InitUsage(ssr, stored, t0, t1);
    }

    /** Outside server rendering, the slot holds exactly the in-memory record. */
    ghost predicate InSync()
      reads this
    {
      !ssr ==> persisted == Holds(usage)
    }

    /** `updateUsage(partial)`: merge, publish, then write the whole record unless server-rendering. */
    method UpdateUsage(patch: UsagePatch)
      modifies this
      ensures usage == Merge(old(usage), patch)
      ensures persisted == if ssr then old(persisted) else Holds(usage)
      ensures InSync()
    {
      var newUsage := Merge(usage, patch);
      usage := newUsage;
      if !ssr {
        persisted := Holds(newUsage);
      }
    }

    /** `decrementUsage()`: spends one credit when one is left. */
    method DecrementUsage() returns (used: bool)
      modifies this
      ensures used <==> old(usage).freeUsageRemaining > 0
      ensures usage == Decremented(old(usage))
      ensures used ==> usage.freeUsageRemaining == old(usage).freeUsageRemaining - 1 && InSync()
      ensures !used ==> usage == old(usage) && persisted == old(persisted)
      ensures ssr ==> persisted == old(persisted)
      ensures old(Valid(usage)) ==> Valid(usage)
    {
      var current := usage;
      if current.freeUsageRemaining > 0 {
        UpdateUsage(DecrementPatch(current));
        return true;
      }
      return false;
    }

    /** `setPlan(plan, subscriptionId?, customerId?)` at clock reading `now`. */
    method SetPlan(plan: Plan, subscriptionId: Option<string>, customerId: Option<string>, now: int)
      modifies this
      ensures usage == Merge(old(usage), PlanPatch(plan, subscriptionId, customerId, now))
      ensures usage.plan == plan
      ensures usage.freeUsageRemaining == usage.totalFreeUsage == Allot(plan)
      ensures usage.currentPeriodStart == now && usage.currentPeriodEnd - usage.currentPeriodStart == PERIOD_MS
      ensures usage.subscriptionId == subscriptionId && usage.customerId == customerId
      ensures Valid(usage) && CanUseAI(usage)
      ensures InSync()
      ensures ssr ==> persisted == old(persisted)
    {
      UpdateUsage(PlanPatch(plan, subscriptionId, customerId, now));
    }

    /** `resetUsageForNewPeriod()` at clock reading `now`. */
    method ResetUsageForNewPeriod(now: int)
      modifies this
      ensures usage == Merge(old(usage), ResetPatch(old(usage), now))
      ensures usage.plan == old(usage).plan
      ensures usage.subscriptionId == old(usage).subscriptionId && usage.customerId == old(usage).customerId
      ensures usage.freeUsageRemaining == usage.totalFreeUsage == Allot(usage.plan)
      ensures usage.currentPeriodStart == now && usage.currentPeriodEnd - usage.currentPeriodStart == PERIOD_MS
      ensures Valid(usage) && CanUseAI(usage)
      ensures InSync()
      ensures ssr ==> persisted == old(persisted)
    {
      var current := usage;
      UpdateUsage(ResetPatch(current, now));
    }
  }

  /** Outside server rendering, a store in sync with its slot (as every mutator leaves it)
      reloads, at the next startup, the record it holds in memory. */
  lemma ReloadRoundTrip(store: UsageStore, t0: int, t1: int)
    requires store.InSync() && !store.ssr
    ensures InitUsage(false, store.persisted, t0, t1) == store.usage
  {
  }
}
