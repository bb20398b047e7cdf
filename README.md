# License entitlements of the n8n CLI, modelled in Dafny

This project models the `License` service of `packages/cli/src/license.ts`. That class is the
license layer of the n8n command-line server in this fork. Most of its lifecycle methods are
stubs that only log. The part with behaviour has two pieces:

* **The renewal gate.** `renewalEnabled` decides whether this process should renew the shared
  license. The inputs are the instance type, the `license.autoRenewEnabled` setting, the
  multi-main setup flag and leadership. Only a `main` instance renews. The configuration
  switch turns renewal off everywhere. With several mains, only the leader renews, so mains
  that are still `unset` or are followers stay quiet and do not trigger rate limiting (429)
  at the license server. With a single main, leadership plays no part.
* **The entitlement read surface.**
  * A fixed `features` map, built once from a list of 22 entries.
  * `isFeatureEnabled`, which falls back to enabled (`?? true`) for any key the map does not
    hold.
  * The 21 named `is…Enabled` / `is…Licensed` accessors.
  * `getFeatureValue` and the quota and plan getters. Each getter has its own fallback:
    unlimited, zero or `Community`.
  * `isWithinUsersLimit`.
  * `reinit`, which calls `init(true)`.

Everything is pure, so the model is made of datatypes, functions and lemmas. The class's
injected collaborators are passed in as plain values:

* the instance settings (type, leadership);
* the global configuration (multi-main flag);
* the `config` store (`license.autoRenewEnabled`).

Files:

| file | module | contents |
|---|---|---|
| `options.dfy` | `Options` | `Option`, the `undefined`-or-value that `??` consumes |
| `renewal.dfy` | `Renewal` | the renewal gate and its truth table |
| `features.dfy` | `Features` | the `features` map, `new Map(entries)`, `isFeatureEnabled` |
| `features.dfy` | `FeatureAccessors` | the named accessors and which key each reads |
| `feature_values.dfy` | `FeatureValues` | `getFeatureValue`, quota/plan getters, `isWithinUsersLimit` |
| `lifecycle.dfy` | `Lifecycle` | `init` / `reinit` as the calls they make |

Two facts about the code that the model keeps:

* `isWithinUsersLimit` takes no usage count. It only compares the users limit with
  `UNLIMITED_LICENSE_QUOTA` (`license.ts:258-260`).
* In this code `renewalEnabled` is private and is never called, because `init` is a stub. The
  gate is still modelled as written, since it is the decision the class encodes.

## Model

| member | source | states |
|---|---|---|
| `Renewal.RenewalEnabled` | packages/cli/src/license.ts:62-77 | non-main instances never renew; auto-renew off never renews; in multi-main setup a main renews iff auto-renew is on and it is the leader; in single-main setup a main renews iff auto-renew is on |
| `Renewal.RenewerIsTheOwner` | packages/cli/src/license.ts:62-77 | any instance that renews is a main with auto-renew on, and is the leader whenever multi-main setup is enabled |
| `Renewal.NonLeaderMainNeverRenews` | packages/cli/src/license.ts:67-74 | in multi-main setup a main whose status is `unset` or `follower` does not renew, whatever the auto-renew setting |
| `Renewal.LeaderRenewsInMultiMain` | packages/cli/src/license.ts:72-74 | in multi-main setup with auto-renew on, a main renews exactly when its status is `leader` |
| `Renewal.LeadershipIrrelevantInSingleMain` | packages/cli/src/license.ts:72-76 | without multi-main setup, two instances that differ only in leadership make the same decision |
| `Features.MapFromEntries` | packages/cli/src/license.ts:34-57 | the map built from an entry list has exactly the keys the entries list |
| `Features.MapFromEntriesLastWins` | packages/cli/src/license.ts:34-57 | a key maps to the value of an entry that no later entry overrides (the last occurrence wins) |
| `Features.InitialEntriesDistinct` | packages/cli/src/license.ts:35-56 | no feature key is listed twice in the `features` initializer |
| `Features.InitialEntriesShape` | packages/cli/src/license.ts:35-56 | every listed entry is a named feature key, and its value is `false` for `SHOW_NON_PROD_BANNER` and `true` otherwise |
| `Features.InitialFeaturesTable` | packages/cli/src/license.ts:34-57 | the `features` map holds exactly the 22 listed keys; `SHOW_NON_PROD_BANNER` maps to false and every other key maps to true |
| `Features.InitialFeatureListed` | packages/cli/src/license.ts:34-57 | a key is in the `features` map iff it is one of the listed keys |
| `Features.IsFeatureEnabled` | packages/cli/src/license.ts:104-106 | for a key in the map, the answer is the map's value; for any key absent from the map, the answer is `true` (default allow) |
| `Features.InitialFeatureEnabled` | packages/cli/src/license.ts:104-105 | with the shipped map, `isFeatureEnabled(k)` is true iff `k` is not `SHOW_NON_PROD_BANNER` |
| `Features.UnlistedFeatureEnabled` | packages/cli/src/license.ts:105 | a feature key that the map does not list is absent from it and is reported enabled |
| `FeatureAccessors.AccessorFeature` | packages/cli/src/license.ts:108-190 | every named accessor reads a listed key, and none reads `SHOW_NON_PROD_BANNER` |
| `FeatureAccessors.Query` | packages/cli/src/license.ts:108-190 | an accessor answers the map's value for its key, or `true` if the key is absent |
| `FeatureAccessors.AccessorFeatureInjective` | packages/cli/src/license.ts:108-190 | two accessors that read the same key are the same accessor |
| `FeatureAccessors.AccessorRoundTrip` | packages/cli/src/license.ts:108-190 | the accessor found for an accessor's key is that accessor |
| `FeatureAccessors.KeyRoundTrip` | packages/cli/src/license.ts:108-190 | a key that has an accessor is the key that accessor reads |
| `FeatureAccessors.AccessorsCoverListedKeys` | packages/cli/src/license.ts:34-190 | a key has an accessor iff it is in the `features` map and is not `SHOW_NON_PROD_BANNER` |
| `FeatureAccessors.EveryAccessorTrueInitially` | packages/cli/src/license.ts:34-190 | with the shipped map every accessor returns true, `isAPIDisabled` included |
| `FeatureValues.GetFeatureValue` | packages/cli/src/license.ts:196-198 | a present value always has the type its key demands; `planName`, quota and flag keys give their stored value or nothing when absent |
| `FeatureValues.QuotaOr` | packages/cli/src/license.ts:228-248 | a quota lookup gives the stored number unchanged when present and the fallback when absent |
| `FeatureValues.GetUsersLimit` | packages/cli/src/license.ts:228-230 | gives the stored users limit unchanged, or `UNLIMITED_LICENSE_QUOTA` when absent |
| `FeatureValues.GetTriggerLimit` | packages/cli/src/license.ts:232-234 | gives the stored trigger limit unchanged, or `UNLIMITED_LICENSE_QUOTA` when absent |
| `FeatureValues.GetVariablesLimit` | packages/cli/src/license.ts:236-238 | gives the stored variables limit unchanged, or `UNLIMITED_LICENSE_QUOTA` when absent |
| `FeatureValues.GetWorkflowHistoryPruneLimit` | packages/cli/src/license.ts:240-244 | gives the stored prune limit unchanged, or `UNLIMITED_LICENSE_QUOTA` when absent |
| `FeatureValues.GetTeamProjectLimit` | packages/cli/src/license.ts:246-248 | gives the stored team project limit unchanged, or 0 when absent |
| `FeatureValues.GetPlanName` | packages/cli/src/license.ts:250-252 | gives the stored plan name unchanged, or `Community` when absent |
| `FeatureValues.IsWithinUsersLimit` | packages/cli/src/license.ts:258-260 | holds iff no users limit is stored or the stored one equals `UNLIMITED_LICENSE_QUOTA` |
| `FeatureValues.NoValuesFallbacks` | packages/cli/src/license.ts:196-260 | with this code's `getFeatureValue`, every key yields nothing: the four limits are unlimited, the team project limit is 0, the plan is `Community` and the users limit always holds |
| `Lifecycle.InitInvocation` | packages/cli/src/license.ts:79-81 | records one `init` call with the `forceRecreate` argument it received, `false` when omitted |
| `Lifecycle.ReinitCalls` | packages/cli/src/license.ts:262-265 | `reinit` makes exactly one `init` call, and that call has `forceRecreate` set |
| `Lifecycle.ReinitDiffersFromDefaultInit` | packages/cli/src/license.ts:79-265 | `reinit` is not a plain `init()`: the default `init()` does not force recreation |

## Left out

- Logging: `init`, `activate`, `reload`, `renew` and `shutdown` only write a debug line, so
  they carry no state. Only the `reinit` → `init(true)` call is modelled.
- Constant-returning stubs add nothing to the model. These are `loadCertStr` (`'666'`),
  `getCurrentEntitlements` (`[]`), `getManagementJwt` (`''`), `getConsumerId` (`'unknown'`)
  and `getInfo` (`'n/a'`).
- `getMainPlan` builds an object stamped with the wall-clock time, which is not modelled.
- Dependency injection (`@Service`, `@OnShutdown`), `config.getEnv`, `GlobalConfig` and
  `InstanceSettings` become plain parameters. Their own code is not part of this model.
- How `isLeader` is derived from the leadership status is assumed: the model takes it to be
  `true` exactly for the `leader` status. The `Webhook` and `Worker` constructors stand in for
  the non-main instance types, and no property depends on which non-main type it is.
- The module `./constants` is not part of this model.
  - `UNLIMITED_LICENSE_QUOTA` is an abstract integer.
  - The `LICENSE_FEATURES` and `LICENSE_QUOTAS` keys are distinct datatype constructors, not
    strings.
  - `OtherFeature(id)` stands for any boolean feature key that the map does not list. It is
    numbered rather than named, so it can never coincide with a listed key.
- Quota values and `UNLIMITED_LICENSE_QUOTA` are TypeScript `number`s; the model uses
  unbounded integers. For integer values the getters pass the number through unchanged and
  the `===` test loses nothing, but fractional and `NaN` quotas cannot be represented.
- Asynchrony (`async`/`await`) does not affect any result here and is not modelled.
