/**
 * Boolean license features: the fixed `features` map of `License`, the
 * `isFeatureEnabled` lookup with its default-allow fallback, and the named
 * `is...Enabled` / `is...Licensed` accessors that read one key each.
 */
module Features {
  /**
   * The keys of `LICENSE_FEATURES` that the map lists, and `OtherFeature(id)` for
   * any other boolean license feature key, numbered by `id`. An `OtherFeature` is
   * never one of the listed keys. Distinct constructors are distinct keys.
   */
  datatype Feature =
    | Sharing | Ldap | Saml | LogStreaming | AdvancedExecutionFilters | Variables
    | SourceControl | ApiDisabled | ExternalSecrets | ShowNonProdBanner | WorkflowHistory
    | DebugInEditor | BinaryDataS3 | MultipleMainInstances | WorkerView
    | AdvancedPermissions | ProjectRoleAdmin | ProjectRoleEditor | ProjectRoleViewer
    | AiAssistant | AskAi | CommunityNodesCustomRegistry
    | OtherFeature(id: nat)

  /** The keys that occur in a list of map entries. */
  function EntryKeys(entries: seq<(Feature, bool)>): set<Feature> {
    set i | 0 <= i < |entries| :: entries[i].0
  }

  /**
   * The map that `new Map(entries)` builds: entries are inserted in order, so a
   * key listed twice keeps its last value.
   */
  function MapFromEntries(entries: seq<(Feature, bool)>): (m: map<Feature, bool>)
    ensures m.Keys == EntryKeys(entries)
  {
    if entries == [] then map[]
    else
      var init, last := entries[..|entries| - 1], entries[|entries| - 1];
      assert EntryKeys(entries) == EntryKeys(init) + {last.0} by {
        forall k | k in EntryKeys(entries) ensures k in EntryKeys(init) + {last.0} {
          var i :| 0 <= i < |entries| && entries[i].0 == k;
          if i < |entries| - 1 { assert init[i] == entries[i]; }
        }
        forall k | k in EntryKeys(init) ensures k in EntryKeys(entries) {
          var i :| 0 <= i < |init| && init[i].0 == k;
          assert entries[i] == init[i];
        }
      }
      MapFromEntries(init)[last.0 := last.1]
  }

  /** The value an entry puts into the map survives unless a later entry repeats its key. */
  lemma {:induction false} MapFromEntriesLastWins(entries: seq<(Feature, bool)>, i: nat)
    requires i < |entries|
    requires forall j :: i < j < |entries| ==> entries[j].0 != entries[i].0
    ensures entries[i].0 in MapFromEntries(entries)
    ensures MapFromEntries(entries)[entries[i].0] == entries[i].1
  {
    var init := entries[..|entries| - 1];
    if i < |entries| - 1 {
      assert init[i] == entries[i];
      MapFromEntriesLastWins(init, i);
    }
  }

  /** The entries the `features` map is built from, in their listed order. */
  const InitialEntries: seq<(Feature, bool)> := [
    (Sharing, true),
    (Ldap, true),
    (Saml, true),
    (LogStreaming, true),
    (AdvancedExecutionFilters, true),
    (Variables, true),
    (SourceControl, true),
    (ApiDisabled, true),
    (ExternalSecrets, true),
    (ShowNonProdBanner, false),
    (WorkflowHistory, true),
    (DebugInEditor, true),
    (BinaryDataS3, true),
    (MultipleMainInstances, true),
    (WorkerView, true),
    (AdvancedPermissions, true),
    (ProjectRoleAdmin, true),
    (ProjectRoleEditor, true),
    (ProjectRoleViewer, true),
    (AiAssistant, true),
    (AskAi, true),
    (CommunityNodesCustomRegistry, true)
  ]

  /** The `features` field: built once and never changed afterwards. */
  const InitialFeatures: map<Feature, bool> := MapFromEntries(InitialEntries)

  /** `isFeatureEnabled`: the map's value for a listed key, `true` for any other key. */
  function IsFeatureEnabled(features: map<Feature, bool>, feature: Feature): (enabled: bool)
    ensures feature in features ==> enabled == features[feature]
    ensures feature !in features ==> enabled
  {
    if feature in features then features[feature] else true
  }

  /** The listed keys are pairwise distinct, so every listed value survives construction. */
  lemma InitialEntriesDistinct()
    ensures forall i, j :: 0 <= i < j < |InitialEntries| ==> InitialEntries[i].0 != InitialEntries[j].0
  {
  }

  /** Each listed entry names a listed key and is on exactly when that key is not the banner. */
  lemma InitialEntriesShape()
    ensures forall i :: 0 <= i < |InitialEntries| ==>
      !InitialEntries[i].0.OtherFeature? && InitialEntries[i].1 == (InitialEntries[i].0 != ShowNonProdBanner)
  {
  }

  /**
   * The `features` map holds exactly the listed keys; `SHOW_NON_PROD_BANNER` is
   * off and every other listed key is on.
   */
  lemma InitialFeaturesTable()
    ensures forall f: Feature :: f in InitialFeatures <==> !f.OtherFeature?
    ensures forall f :: f in InitialFeatures ==> InitialFeatures[f] == (f != ShowNonProdBanner)
  {
    InitialEntriesDistinct();
    InitialEntriesShape();
    forall f: Feature
      ensures f in InitialFeatures <==> !f.OtherFeature?
      ensures f in InitialFeatures ==> InitialFeatures[f] == (f != ShowNonProdBanner)
    {
      if !f.OtherFeature? {
        var i := IndexOf(f);
        MapFromEntriesLastWins(InitialEntries, i);
      } else {
        assert f !in EntryKeys(InitialEntries);
      }
    }
  }

  /** A key is in the `features` map exactly when it is one of the listed keys. */
  lemma InitialFeatureListed(f: Feature)
    ensures f in InitialFeatures <==> !f.OtherFeature?
  {
    InitialFeaturesTable();
  }

  /** Where a listed key stands in the entry list. */
  function IndexOf(f: Feature): (i: nat)
    requires !f.OtherFeature?
    ensures i < |InitialEntries| && InitialEntries[i].0 == f
  {
    match f
    case Sharing => 0
    case Ldap => 1
    case Saml => 2
    case LogStreaming => 3
    case AdvancedExecutionFilters => 4
    case Variables => 5
    case SourceControl => 6
    case ApiDisabled => 7
    case ExternalSecrets => 8
    case ShowNonProdBanner => 9
    case WorkflowHistory => 10
    case DebugInEditor => 11
    case BinaryDataS3 => 12
    case MultipleMainInstances => 13
    case WorkerView => 14
    case AdvancedPermissions => 15
    case ProjectRoleAdmin => 16
    case ProjectRoleEditor => 17
    case ProjectRoleViewer => 18
    case AiAssistant => 19
    case AskAi => 20
    case CommunityNodesCustomRegistry => 21
  }

  /**
   * With the `features` map every key is enabled except `SHOW_NON_PROD_BANNER`:
   * listed keys by their value, all others by the default-allow fallback.
   */
  lemma InitialFeatureEnabled(f: Feature)
    ensures IsFeatureEnabled(InitialFeatures, f) <==> f != ShowNonProdBanner
  {
    InitialFeaturesTable();
  }

  /** A key the map does not list is reported enabled (the default-allow fallback). */
  lemma UnlistedFeatureEnabled(id: nat)
    ensures OtherFeature(id) !in InitialFeatures
    ensures IsFeatureEnabled(InitialFeatures, OtherFeature(id))
  {
  }
}

/**
 * The named accessors of `License` (`isSharingEnabled`, ..., `isCustomNpmRegistryEnabled`),
 * each of which asks `isFeatureEnabled` about one fixed key.
 */
module FeatureAccessors {
  import opened Options
  import opened Features

  datatype Accessor =
    | IsSharingEnabled | IsLogStreamingEnabled | IsLdapEnabled | IsSamlEnabled
    | IsAiAssistantEnabled | IsAskAiEnabled | IsAdvancedExecutionFiltersEnabled
    | IsAdvancedPermissionsLicensed | IsDebugInEditorLicensed | IsBinaryDataS3Licensed
    | IsMultipleMainInstancesLicensed | IsVariablesEnabled | IsSourceControlLicensed
    | IsExternalSecretsEnabled | IsWorkflowHistoryLicensed | IsApiDisabled
    | IsWorkerViewLicensed | IsProjectRoleAdminLicensed | IsProjectRoleEditorLicensed
    | IsProjectRoleViewerLicensed | IsCustomNpmRegistryEnabled

  /** The key an accessor reads: always a listed key, never the banner. */
  function AccessorFeature(a: Accessor): (f: Feature)
    ensures !f.OtherFeature? && f != ShowNonProdBanner
  {
    match a
    case IsSharingEnabled => Sharing
    case IsLogStreamingEnabled => LogStreaming
    case IsLdapEnabled => Ldap
    case IsSamlEnabled => Saml
    case IsAiAssistantEnabled => AiAssistant
    case IsAskAiEnabled => AskAi
    case IsAdvancedExecutionFiltersEnabled => AdvancedExecutionFilters
    case IsAdvancedPermissionsLicensed => AdvancedPermissions
    case IsDebugInEditorLicensed => DebugInEditor
    case IsBinaryDataS3Licensed => BinaryDataS3
    case IsMultipleMainInstancesLicensed => MultipleMainInstances
    case IsVariablesEnabled => Variables
    case IsSourceControlLicensed => SourceControl
    case IsExternalSecretsEnabled => ExternalSecrets
    case IsWorkflowHistoryLicensed => WorkflowHistory
    case IsApiDisabled => ApiDisabled
    case IsWorkerViewLicensed => WorkerView
    case IsProjectRoleAdminLicensed => ProjectRoleAdmin
    case IsProjectRoleEditorLicensed => ProjectRoleEditor
    case IsProjectRoleViewerLicensed => ProjectRoleViewer
    case IsCustomNpmRegistryEnabled => CommunityNodesCustomRegistry
  }

  /** The accessor that reads a key, if there is one. */
  function AccessorOf(f: Feature): Option<Accessor> {
    match f
    case Sharing => Some(IsSharingEnabled)
    case LogStreaming => Some(IsLogStreamingEnabled)
    case Ldap => Some(IsLdapEnabled)
    case Saml => Some(IsSamlEnabled)
    case AiAssistant => Some(IsAiAssistantEnabled)
    case AskAi => Some(IsAskAiEnabled)
    case AdvancedExecutionFilters => Some(IsAdvancedExecutionFiltersEnabled)
    case AdvancedPermissions => Some(IsAdvancedPermissionsLicensed)
    case DebugInEditor => Some(IsDebugInEditorLicensed)
    case BinaryDataS3 => Some(IsBinaryDataS3Licensed)
    case MultipleMainInstances => Some(IsMultipleMainInstancesLicensed)
    case Variables => Some(IsVariablesEnabled)
    case SourceControl => Some(IsSourceControlLicensed)
    case ExternalSecrets => Some(IsExternalSecretsEnabled)
    case WorkflowHistory => Some(IsWorkflowHistoryLicensed)
    case ApiDisabled => Some(IsApiDisabled)
    case WorkerView => Some(IsWorkerViewLicensed)
    case ProjectRoleAdmin => Some(IsProjectRoleAdminLicensed)
    case ProjectRoleEditor => Some(IsProjectRoleEditorLicensed)
    case ProjectRoleViewer => Some(IsProjectRoleViewerLicensed)
    case CommunityNodesCustomRegistry => Some(IsCustomNpmRegistryEnabled)
    case ShowNonProdBanner => None
    case OtherFeature(_) => None
  }

  /** Calling an accessor: the map's value for its key, or `true` when the key is absent. */
  function Query(features: map<Feature, bool>, a: Accessor): (enabled: bool)
    ensures AccessorFeature(a) in features ==> enabled == features[AccessorFeature(a)]
    ensures AccessorFeature(a) !in features ==> enabled
  {
    IsFeatureEnabled(features, AccessorFeature(a))
  }

  /** Distinct accessors read distinct keys. */
  lemma AccessorFeatureInjective(a: Accessor, b: Accessor)
    requires AccessorFeature(a) == AccessorFeature(b)
    ensures a == b
  {
  }

  /** Looking up the accessor of an accessor's key gives that accessor back. */
  lemma AccessorRoundTrip(a: Accessor)
    ensures AccessorOf(AccessorFeature(a)) == Some(a)
  {
  }

  /** A key that has an accessor is the key that accessor reads. */
  lemma KeyRoundTrip(f: Feature)
    requires AccessorOf(f).Some?
    ensures AccessorFeature(AccessorOf(f).value) == f
  {
  }

  /** Every listed key except the banner has an accessor, and only those keys do. */
  lemma AccessorsCoverListedKeys(f: Feature)
    ensures AccessorOf(f).Some? <==> f in InitialFeatures && f != ShowNonProdBanner
  {
    InitialFeatureListed(f);
  }

  /**
   * With the `features` map every accessor answers `true` -- including
   * `isAPIDisabled`, so the public API is reported disabled.
   */
  lemma EveryAccessorTrueInitially(a: Accessor)
    ensures Query(InitialFeatures, a)
  {
    InitialFeatureEnabled(AccessorFeature(a));
  }
}
