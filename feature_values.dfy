/**
 * Non-boolean entitlements: `getFeatureValue` over a partial record of values
 * (plan name, numeric quotas, boolean features), and the quota and plan
 * getters that fall back to a default when a value is absent.
 */
module FeatureValues {
  import opened Options
  import opened Features

  /** The numeric keys of `LICENSE_QUOTAS`. */
  datatype Quota = UsersLimit | TriggerLimit | VariablesLimit | WorkflowHistoryPruneLimit | TeamProjectLimit

  /**
   * `UNLIMITED_LICENSE_QUOTA`. Its value is defined outside this model, so it is
   * left abstract: no property below depends on which integer it is.
   */
  const UnlimitedQuota: int

  /** The plan name reported when none is known. */
  const DefaultPlanName: string := "Community"

  /** A key of `FeatureReturnType`: `planName`, a numeric quota or a boolean feature. */
  datatype FeatureKey = PlanNameKey | QuotaKey(quota: Quota) | FlagKey(feature: Feature)

  /** A value of `FeatureReturnType`. */
  datatype FeatureValue = Text(text: string) | Number(number: int) | Flag(flag: bool)

  /** Whether a value has the type `FeatureReturnType` gives its key. */
  predicate Fits(key: FeatureKey, value: FeatureValue) {
    match key
    case PlanNameKey => value.Text?
    case QuotaKey(_) => value.Number?
    case FlagKey(_) => value.Flag?
  }

  /**
   * `FeatureReturnType`: a record in which every key is optional and carries a
   * value of its own type.
   */
  datatype Values = Values(planName: Option<string>, quotas: map<Quota, int>, flags: map<Feature, bool>)

  /** The values this implementation knows: none at all (its `getFeatureValue` always yields `undefined`). */
  const NoValues: Values := Values(None, map[], map[])

  /** `getFeatureValue`: the value stored under a key, typed as the key demands, or `None`. */
  function GetFeatureValue(values: Values, key: FeatureKey): (r: Option<FeatureValue>)
    ensures r.Some? ==> Fits(key, r.value)
    ensures key.PlanNameKey? ==> r == (if values.planName.Some? then Some(Text(values.planName.value)) else None)
    ensures key.QuotaKey? ==> r == (if key.quota in values.quotas then Some(Number(values.quotas[key.quota])) else None)
    ensures key.FlagKey? ==> r == (if key.feature in values.flags then Some(Flag(values.flags[key.feature])) else None)
  {
    match key
    case PlanNameKey =>
      if values.planName.Some? then Some(Text(values.planName.value)) else None
    case QuotaKey(q) =>
      if q in values.quotas then Some(Number(values.quotas[q])) else None
    case FlagKey(f) =>
      if f in values.flags then Some(Flag(values.flags[f])) else None
  }

  /** The number a quota lookup yields, or `fallback` when it yields nothing (`?? fallback`). */
  function QuotaOr(values: Values, q: Quota, fallback: int): (limit: int)
    ensures q in values.quotas ==> limit == values.quotas[q]
    ensures q !in values.quotas ==> limit == fallback
  {
    match GetFeatureValue(values, QuotaKey(q))
    case Some(Number(n)) => n
    case _ => fallback
  }

  /** `getUsersLimit`: the stored users limit, unlimited when absent. */
  function GetUsersLimit(values: Values): (limit: int)
    ensures UsersLimit in values.quotas ==> limit == values.quotas[UsersLimit]
    ensures UsersLimit !in values.quotas ==> limit == UnlimitedQuota
  {
    QuotaOr(values, UsersLimit, UnlimitedQuota)
  }

  /** `getTriggerLimit`: the stored trigger limit, unlimited when absent. */
  function GetTriggerLimit(values: Values): (limit: int)
    ensures TriggerLimit in values.quotas ==> limit == values.quotas[TriggerLimit]
    ensures TriggerLimit !in values.quotas ==> limit == UnlimitedQuota
  {
    QuotaOr(values, TriggerLimit, UnlimitedQuota)
  }

  /** `getVariablesLimit`: the stored variables limit, unlimited when absent. */
  function GetVariablesLimit(values: Values): (limit: int)
    ensures VariablesLimit in values.quotas ==> limit == values.quotas[VariablesLimit]
    ensures VariablesLimit !in values.quotas ==> limit == UnlimitedQuota
  {
    QuotaOr(values, VariablesLimit, UnlimitedQuota)
  }

  /** `getWorkflowHistoryPruneLimit`: the stored prune limit, unlimited when absent. */
  function GetWorkflowHistoryPruneLimit(values: Values): (limit: int)
    ensures WorkflowHistoryPruneLimit in values.quotas ==> limit == values.quotas[WorkflowHistoryPruneLimit]
    ensures WorkflowHistoryPruneLimit !in values.quotas ==> limit == UnlimitedQuota
  {
    QuotaOr(values, WorkflowHistoryPruneLimit, UnlimitedQuota)
  }

  /** `getTeamProjectLimit`: the stored team project limit, zero (not unlimited) when absent. */
  function GetTeamProjectLimit(values: Values): (limit: int)
    ensures TeamProjectLimit in values.quotas ==> limit == values.quotas[TeamProjectLimit]
    ensures TeamProjectLimit !in values.quotas ==> limit == 0
  {
    QuotaOr(values, TeamProjectLimit, 0)
  }

  /** `getPlanName`: the stored plan name, `Community` when absent. */
  function GetPlanName(values: Values): (name: string)
    ensures values.planName.Some? ==> name == values.planName.value
    ensures values.planName.None? ==> name == DefaultPlanName
  {
    match GetFeatureValue(values, PlanNameKey)
    case Some(Text(s)) => s
    case _ => DefaultPlanName
  }

  /**
   * `isWithinUsersLimit`: holds exactly when the users limit is the unlimited
   * sentinel, whether stored or defaulted; the number of users is not consulted.
   */
  function IsWithinUsersLimit(values: Values): (within: bool)
    ensures within <==> UsersLimit !in values.quotas || values.quotas[UsersLimit] == UnlimitedQuota
  {
    GetUsersLimit(values) == UnlimitedQuota
  }

  /**
   * With this implementation's `getFeatureValue`, which yields nothing, every
   * getter gives its fallback and the users limit is never exceeded.
   */
  lemma NoValuesFallbacks(key: FeatureKey)
    ensures GetFeatureValue(NoValues, key) == None
    ensures GetUsersLimit(NoValues) == UnlimitedQuota
    ensures GetTriggerLimit(NoValues) == UnlimitedQuota
    ensures GetVariablesLimit(NoValues) == UnlimitedQuota
    ensures GetWorkflowHistoryPruneLimit(NoValues) == UnlimitedQuota
    ensures GetTeamProjectLimit(NoValues) == 0
    ensures GetPlanName(NoValues) == "Community"
    ensures IsWithinUsersLimit(NoValues)
  {
  }
}
