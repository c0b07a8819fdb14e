/** The eligibility engine as values: the in-memory mirrors of the persisted
    record, the show/hide decision, and one function per state change. The
    class in module RateThisApp performs the same changes step by step and
    promises to agree with these functions. */
module Eligibility {
  import opened Preferences

  /** Milliseconds in one day: the factor TimeUnit.DAYS.toMillis applies. */
  const MillisPerDay: int := 86400000

  /** The part of the configuration the engine reads. */
  datatype Criteria = Criteria(
    installDays: int,
    launchTimes: int,
    andCondition: bool,
    promptForNewVersion: bool,
    currentAppVersion: int)

  /** The process-wide fields that mirror the store; dates are milliseconds. */
  datatype Mirrors = Mirrors(
    installDate: int,
    launchTimes: int,
    optOut: bool,
    askLaterDate: int,
    alreadyReviewed: bool,
    counterVersion: int,
    reviewedVersion: int)

  /** The persisted record together with its mirrors. The two can disagree:
      several operations write only one of them. */
  datatype State = State(prefs: Prefs, mirrors: Mirrors)

  function DaysToMillis(days: int): int {
    days * MillisPerDay
  }

  function Max(a: int, b: int): int {
    if a >= b then a else b
  }

  /** The earliest instant at which the elapsed-time criterion holds: one full
      threshold after the later of the install date and the ask-later date. */
  function WindowOpens(m: Mirrors, c: Criteria): int {
    Max(m.installDate, m.askLaterDate) + DaysToMillis(c.installDays)
  }

  predicate LaunchFulfilled(m: Mirrors, c: Criteria) {
    m.launchTimes >= c.launchTimes
  }

  /** shouldShowRateDialog, with the wall clock passed in as `now`. */
  function ShouldShow(m: Mirrors, c: Criteria, now: int): (show: bool)
    ensures m.optOut || m.alreadyReviewed ==> !show
    ensures !m.optOut && !m.alreadyReviewed && c.andCondition ==>
              (show <==> LaunchFulfilled(m, c) && now >= WindowOpens(m, c))
    ensures !m.optOut && !m.alreadyReviewed && !c.andCondition ==>
              (show <==> LaunchFulfilled(m, c) || now >= WindowOpens(m, c))
  {
    if m.optOut || m.alreadyReviewed then
      false
    else
      var launchTimesFulfilled := m.launchTimes >= c.launchTimes;
      var threshold := DaysToMillis(c.installDays);
      var installThresholdFulfilled :=
        now - m.installDate >= threshold && now - m.askLaterDate >= threshold;
      if c.andCondition then launchTimesFulfilled && installThresholdFulfilled
      else launchTimesFulfilled || installThresholdFulfilled
  }

  /** Once the prompt is due, it stays due as the clock advances. */
  lemma ShouldShowMonotoneInTime(m: Mirrors, c: Criteria, now: int, later: int)
    requires now <= later
    ensures ShouldShow(m, c, now) ==> ShouldShow(m, c, later)
  {
  }

  /** More launches never make a due prompt undue. */
  lemma ShouldShowMonotoneInLaunches(m: Mirrors, c: Criteria, now: int, more: int)
    requires m.launchTimes <= more
    ensures ShouldShow(m, c, now) ==> ShouldShow(m.(launchTimes := more), c, now)
  {
  }

  /** With 7 days and 10 launches joined by OR, eleven launches one day after
      install make the dialog due. */
  lemma ElevenLaunchesOneDayUnderOr(installDate: int)
    ensures ShouldShow(Mirrors(installDate, 11, false, installDate, false, NoVersion, NoVersion),
                       Criteria(7, 10, false, false, NoVersion), installDate + DaysToMillis(1))
  {
  }

  /** Refreshing every mirror from the store, with the store's defaults. */
  function Reload(p: Prefs): (m: Mirrors)
    ensures p == Empty ==> m == Mirrors(0, 0, false, 0, false, NoVersion, NoVersion)
    ensures m.optOut <==> p.optOut == Some(true)
    ensures m.alreadyReviewed <==> p.alreadyReviewed == Some(true)
    ensures p.installDate.Some? ==> m.installDate == p.installDate.value
    ensures p.launchTimes.Some? ==> m.launchTimes == p.launchTimes.value
    ensures p.askLaterDate.Some? ==> m.askLaterDate == p.askLaterDate.value
    ensures p.counterVersion.Some? ==> m.counterVersion == p.counterVersion.value
    ensures p.reviewedVersion.Some? ==> m.reviewedVersion == p.reviewedVersion.value
  {
    Mirrors(StoredInstallDate(p), StoredLaunchTimes(p), StoredOptOut(p),
            StoredAskLaterDate(p), StoredAlreadyReviewed(p),
            StoredCounterVersion(p), StoredReviewedVersion(p))
  }

  /** storeInstallDate, with the package manager's first-install time passed in. */
  function StoreInstallDateStep(s: State, firstInstallTime: int): (r: State)
    ensures StoredInstallDate(r.prefs) == firstInstallTime
    ensures r.prefs.(installDate := s.prefs.installDate) == s.prefs
    ensures r.mirrors == s.mirrors
  {
    s.(prefs := s.prefs.(installDate := Some(firstInstallTime)))
  }

  /** clearSharedPreferences: forget the install date and the launch count,
      refresh the counter version, withdraw the review; `now` is the instant
      the install-date mirror is set to. */
  function ClearStep(s: State, currentAppVersion: int, now: int): (r: State)
    ensures r.prefs.optOut == s.prefs.optOut
    ensures r.prefs.askLaterDate == s.prefs.askLaterDate
    ensures r.prefs.reviewedVersion == s.prefs.reviewedVersion
    ensures r.prefs.installDate.None? && r.prefs.launchTimes.None?
    ensures StoredInstallDate(r.prefs) == 0 && StoredLaunchTimes(r.prefs) == 0
    ensures StoredCounterVersion(r.prefs) == currentAppVersion
    ensures r.prefs.alreadyReviewed == Some(false)
    ensures r.mirrors.optOut == s.mirrors.optOut
    ensures r.mirrors.askLaterDate == s.mirrors.askLaterDate
    ensures r.mirrors.reviewedVersion == s.mirrors.reviewedVersion
    ensures r.mirrors.installDate == now && r.mirrors.launchTimes == 0
    ensures r.mirrors.counterVersion == currentAppVersion && !r.mirrors.alreadyReviewed
  {
    var p1 := s.prefs.(installDate := None);
    var m1 := s.mirrors.(installDate := now);
    var p2 := p1.(launchTimes := None);
    var m2 := m1.(launchTimes := 0);
    var p3 := p2.(counterVersion := Some(currentAppVersion));
    var m3 := m2.(counterVersion := currentAppVersion);
    var p4 := p3.(alreadyReviewed := Some(false));
    var m4 := m3.(alreadyReviewed := false);
    State(p4, m4)
  }

  /** The version-reset condition of onStart, in terms of the record before the launch. */
  predicate ResetDue(p: Prefs, c: Criteria): (due: bool)
    // Never due once the stored counter version is current, as after any onStart.
    ensures due ==> StoredCounterVersion(p) != c.currentAppVersion
    ensures p.optOut == Some(true) ==> !due
    ensures !c.promptForNewVersion ==> !due
  {
    && !StoredOptOut(p)
    && c.promptForNewVersion
    && StoredReviewedVersion(p) < c.currentAppVersion
    && StoredCounterVersion(p) < c.currentAppVersion
  }

  /** onStart, with the clock and the package manager's first-install time passed in. */
  function StartStep(s: State, c: Criteria, now: int, firstInstallTime: int): (r: State)
    // Afterwards the stored counter version is always the current app version.
    ensures StoredCounterVersion(r.prefs) == c.currentAppVersion
    // Opt-out, ask-later date and reviewed version are never written; their mirrors are refreshed.
    ensures r.prefs.optOut == s.prefs.optOut
    ensures r.prefs.askLaterDate == s.prefs.askLaterDate
    ensures r.prefs.reviewedVersion == s.prefs.reviewedVersion
    ensures r.mirrors.optOut == StoredOptOut(s.prefs)
    ensures r.mirrors.askLaterDate == StoredAskLaterDate(s.prefs)
    ensures r.mirrors.reviewedVersion == StoredReviewedVersion(s.prefs)
    // A version reset discards the counters, this launch included.
    ensures ResetDue(s.prefs, c) ==>
              && r.prefs.installDate.None? && r.prefs.launchTimes.None?
              && r.prefs.alreadyReviewed == Some(false)
              && r.mirrors.installDate == now && r.mirrors.launchTimes == 0
              && !r.mirrors.alreadyReviewed
              && r.mirrors.counterVersion == c.currentAppVersion
    // Otherwise: one more launch, the install date written only if absent,
    // the counter version written only if it differs, and nothing else.
    ensures !ResetDue(s.prefs, c) ==>
              && StoredLaunchTimes(r.prefs) == StoredLaunchTimes(s.prefs) + 1
              && (StoredInstallDate(s.prefs) != 0 ==> r.prefs.installDate == s.prefs.installDate)
              && (StoredInstallDate(s.prefs) == 0 ==> r.prefs.installDate == Some(firstInstallTime))
              && (StoredCounterVersion(s.prefs) == c.currentAppVersion ==>
                    r.prefs.counterVersion == s.prefs.counterVersion)
              && r.prefs.alreadyReviewed == s.prefs.alreadyReviewed
              // every mirror shows the store except the counter version, which lags behind
              && r.mirrors == Reload(r.prefs).(counterVersion := StoredCounterVersion(s.prefs))
  {
    var s1 := if StoredInstallDate(s.prefs) == 0 then StoreInstallDateStep(s, firstInstallTime) else s;
    var launchTimes := StoredLaunchTimes(s1.prefs) + 1;
    var p2 := s1.prefs.(launchTimes := Some(launchTimes));
    var m := Reload(p2);
    if !m.optOut && c.promptForNewVersion && m.reviewedVersion < c.currentAppVersion
       && m.counterVersion < c.currentAppVersion
    then
      ClearStep(State(p2, m), c.currentAppVersion, now)
    else if m.counterVersion != c.currentAppVersion then
      State(p2.(counterVersion := Some(c.currentAppVersion)), m)
    else
      State(p2, m)
  }

  /** setOptOut (also stopRateDialog and the "No, thanks" button). */
  function SetOptOutStep(s: State, optOut: bool): (r: State)
    ensures StoredOptOut(r.prefs) == optOut && r.mirrors.optOut == optOut
    ensures r.prefs.(optOut := s.prefs.optOut) == s.prefs
    ensures r.mirrors.(optOut := s.mirrors.optOut) == s.mirrors
    ensures optOut ==> forall c: Criteria, now: int :: !ShouldShow(r.mirrors, c, now)
  {
    State(s.prefs.(optOut := Some(optOut)), s.mirrors.(optOut := optOut))
  }

  /** setAlreadyReviewed: the flag goes to store and mirror, the reviewed
      version to the store only. */
  function SetAlreadyReviewedStep(s: State, alreadyReviewed: bool, currentAppVersion: int): (r: State)
    ensures StoredAlreadyReviewed(r.prefs) == alreadyReviewed
    ensures StoredReviewedVersion(r.prefs) == currentAppVersion
    ensures r.mirrors.alreadyReviewed == alreadyReviewed
    ensures r.prefs.(alreadyReviewed := s.prefs.alreadyReviewed,
                     reviewedVersion := s.prefs.reviewedVersion) == s.prefs
    ensures r.mirrors.(alreadyReviewed := s.mirrors.alreadyReviewed) == s.mirrors
    ensures alreadyReviewed ==> forall c: Criteria, now: int :: !ShouldShow(r.mirrors, c, now)
  {
    var p1 := s.prefs.(alreadyReviewed := Some(alreadyReviewed));
    var p2 := p1.(reviewedVersion := Some(currentAppVersion));
    State(p2, s.mirrors.(alreadyReviewed := alreadyReviewed))
  }

  /** storeAskLaterDate: writes the store only; the mirror keeps its old value. */
  function StoreAskLaterStep(s: State, now: int): (r: State)
    ensures StoredAskLaterDate(r.prefs) == now
    ensures r.prefs.(askLaterDate := s.prefs.askLaterDate) == s.prefs
    ensures r.mirrors == s.mirrors
  {
    s.(prefs := s.prefs.(askLaterDate := Some(now)))
  }

  /** The "Later" button and the cancel listener: clear, then stamp the ask-later date. */
  function AskLaterStep(s: State, currentAppVersion: int, now: int): (r: State)
    ensures StoredAskLaterDate(r.prefs) == now && r.mirrors.installDate == now
    ensures StoredLaunchTimes(r.prefs) == 0 && r.mirrors.launchTimes == 0
    ensures StoredInstallDate(r.prefs) == 0
    ensures r.prefs.optOut == s.prefs.optOut && r.mirrors.optOut == s.mirrors.optOut
    ensures r.prefs.reviewedVersion == s.prefs.reviewedVersion
    ensures !StoredAlreadyReviewed(r.prefs) && !r.mirrors.alreadyReviewed
    ensures StoredCounterVersion(r.prefs) == currentAppVersion
    // The ask-later mirror is left stale; the other mirrors follow clearSharedPreferences.
    ensures r.mirrors.askLaterDate == s.mirrors.askLaterDate
    ensures r.mirrors.counterVersion == currentAppVersion
    ensures r.mirrors.reviewedVersion == s.mirrors.reviewedVersion
  {
    StoreAskLaterStep(ClearStep(s, currentAppVersion, now), now)
  }
}
