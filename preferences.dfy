/** The "RateThisApp" shared-preference namespace: seven keys, each of which
    may be absent. Every write is treated as synchronous (apply and commit alike). */
module Preferences {

  datatype Option<+T> = None | Some(value: T) {
    /** The stored value, or `default` when the key is absent. */
    function GetOr(default: T): T {
      match this
      case Some(v) => v
      case None => default
    }
  }

  /** One optional entry per key: rta_install_date, rta_launch_times, rta_opt_out,
      rta_ask_later_date, rta_user_reviewed, rta_counter_version, rta_reviewed_version. */
  datatype Prefs = Prefs(
    installDate: Option<int>,
    launchTimes: Option<int>,
    optOut: Option<bool>,
    askLaterDate: Option<int>,
    alreadyReviewed: Option<bool>,
    counterVersion: Option<int>,
    reviewedVersion: Option<int>)

  /** A namespace nothing has been written to yet (a fresh install, or cleared app data). */
  const Empty: Prefs := Prefs(None, None, None, None, None, None, None)

  /** The version sentinel read back when a version key is absent. */
  const NoVersion: int := -1

  // Reads with the defaults the engine passes to getLong / getInt / getBoolean.

  function StoredInstallDate(p: Prefs): int { p.installDate.GetOr(0) }

  function StoredLaunchTimes(p: Prefs): int { p.launchTimes.GetOr(0) }

  function StoredOptOut(p: Prefs): bool { p.optOut.GetOr(false) }

  function StoredAskLaterDate(p: Prefs): int { p.askLaterDate.GetOr(0) }

  function StoredAlreadyReviewed(p: Prefs): bool { p.alreadyReviewed.GetOr(false) }

  function StoredCounterVersion(p: Prefs): int { p.counterVersion.GetOr(NoVersion) }

  function StoredReviewedVersion(p: Prefs): int { p.reviewedVersion.GetOr(NoVersion) }
}
