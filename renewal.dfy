/**
 * Which instance renews the shared license: the `renewalEnabled` decision of
 * `License`. The four inputs are passed in as values: the instance type and
 * leadership come from the instance settings, `autoRenewEnabled` from the
 * `license.autoRenewEnabled` configuration key, and `multiMainEnabled` from
 * the multi-main setup configuration.
 */
module Renewal {
  /** The role of a running process; only `Main` instances may ever renew. */
  datatype InstanceType = Main | Webhook | Worker

  /** Leadership status of a main instance in a multi-main setup. */
  datatype LeadershipStatus = Unset | Leader | Follower

  /** `isLeader` as the instance settings report it. */
  predicate IsLeader(status: LeadershipStatus) {
    status == Leader
  }

  /**
   * Whether this instance should renew the license, on init and periodically.
   * The postconditions are the gate's whole truth table.
   */
  function RenewalEnabled(instanceType: InstanceType, autoRenewEnabled: bool,
                          multiMainEnabled: bool, isLeader: bool): (renew: bool)
    // only mains renew
    ensures instanceType != Main ==> !renew
    // the configuration switch turns renewal off everywhere
    ensures !autoRenewEnabled ==> !renew
    // in multi-main setup only the leader renews
    ensures instanceType == Main && multiMainEnabled ==> (renew <==> autoRenewEnabled && isLeader)
    // in single-main setup the main follows the configuration switch alone
    ensures instanceType == Main && !multiMainEnabled ==> renew == autoRenewEnabled
  {
    if instanceType != Main then false
    else if multiMainEnabled then autoRenewEnabled && isLeader
    else autoRenewEnabled
  }

  /** Whoever renews is a main with auto-renew on, and the leader whenever there are several mains. */
  lemma RenewerIsTheOwner(instanceType: InstanceType, autoRenewEnabled: bool,
                          multiMainEnabled: bool, isLeader: bool)
    requires RenewalEnabled(instanceType, autoRenewEnabled, multiMainEnabled, isLeader)
    ensures instanceType == Main && autoRenewEnabled
    ensures multiMainEnabled ==> isLeader
  {
  }

  /**
   * In multi-main setup every main starts as `Unset` and later becomes leader or
   * follower; neither an unset nor a follower main renews, so the mains do not
   * all hit the license server at once.
   */
  lemma NonLeaderMainNeverRenews(autoRenewEnabled: bool, status: LeadershipStatus)
    requires status == Unset || status == Follower
    ensures !RenewalEnabled(Main, autoRenewEnabled, true, IsLeader(status))
  {
  }

  /** In multi-main setup, with auto-renew on, exactly the leader renews. */
  lemma LeaderRenewsInMultiMain(status: LeadershipStatus)
    ensures RenewalEnabled(Main, true, true, IsLeader(status)) <==> status == Leader
  {
  }

  /** In single-main setup leadership does not affect the decision. */
  lemma LeadershipIrrelevantInSingleMain(instanceType: InstanceType, autoRenewEnabled: bool,
                                         isLeader1: bool, isLeader2: bool)
    ensures RenewalEnabled(instanceType, autoRenewEnabled, false, isLeader1)
         == RenewalEnabled(instanceType, autoRenewEnabled, false, isLeader2)
  {
  }
}
