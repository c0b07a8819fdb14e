/** Sequences of launches and dialog responses within one process lifetime,
    and what the engine guarantees across them. */
module Sessions {
  import opened Preferences
  import opened Eligibility

  datatype Event =
    | Launch(now: int, firstInstallTime: int)  // onStart
    | Rate                                     // "Rate now" as merged (HEAD side)
    | RateIncoming                             // "Rate now" on the incoming side of the conflict
    | No                                       // "No, thanks", or stopRateDialog
    | Later(now: int)                          // "Later", or the dialog cancelled
    | Init(config: Criteria)                   // a new configuration is installed

  /** The effect of one event on the record, under configuration `c`. */
  function Apply(s: State, c: Criteria, e: Event): (r: State)
    // Only "No, thanks" and the incoming "Rate now" write the opt-out flag, and they set it.
    ensures (e.No? || e.RateIncoming?) ==> StoredOptOut(r.prefs) && r.mirrors.optOut
    ensures !(e.No? || e.RateIncoming?) ==> r.prefs.optOut == s.prefs.optOut
    ensures e.Rate? ==> StoredAlreadyReviewed(r.prefs) && r.mirrors.alreadyReviewed
    // Only "Later" writes the ask-later date.
    ensures e.Later? ==> StoredAskLaterDate(r.prefs) == e.now && StoredLaunchTimes(r.prefs) == 0
    ensures !e.Later? ==> r.prefs.askLaterDate == s.prefs.askLaterDate
    ensures e.Launch? ==> StoredCounterVersion(r.prefs) == c.currentAppVersion
    ensures e.Init? ==> r == s
  {
    match e
    case Launch(now, firstInstallTime) => StartStep(s, c, now, firstInstallTime)
    case Rate => SetAlreadyReviewedStep(s, true, c.currentAppVersion)
    case RateIncoming => SetOptOutStep(s, true)
    case No => SetOptOutStep(s, true)
    case Later(now) => AskLaterStep(s, c.currentAppVersion, now)
    case Init(_) => s
  }

  /** The configuration in force after event `e`. */
  function Next(c: Criteria, e: Event): Criteria {
    if e.Init? then e.config else c
  }

  function Run(s: State, c: Criteria, evs: seq<Event>): State
    decreases |evs|
  {
    if evs == [] then s else Run(Apply(s, c, evs[0]), Next(c, evs[0]), evs[1..])
  }

  lemma RunCons(s: State, c: Criteria, e: Event, evs: seq<Event>)
    ensures Run(s, c, [e] + evs) == Run(Apply(s, c, e), Next(c, e), evs)
  {
    assert ([e] + evs)[0] == e;
    assert ([e] + evs)[1..] == evs;
  }

  /** Nothing the engine does clears a recorded opt-out, in the store or in the
      mirror: the version reset is guarded by it and no handler writes false. */
  lemma {:induction false} OptOutSticky(s: State, c: Criteria, evs: seq<Event>)
    requires StoredOptOut(s.prefs) && s.mirrors.optOut
    ensures StoredOptOut(Run(s, c, evs).prefs) && Run(s, c, evs).mirrors.optOut
    decreases |evs|
  {
    if evs != [] {
      OptOutSticky(Apply(s, c, evs[0]), Next(c, evs[0]), evs[1..]);
    }
  }

  /** After "No, thanks" (or the incoming side's "Rate now"), the dialog is never
      due again, whatever follows and whatever configuration or clock is consulted. */
  lemma OptOutResponseSuppresses(s: State, c: Criteria, e: Event, evs: seq<Event>, c2: Criteria, now: int)
    requires e.No? || e.RateIncoming?
    ensures !ShouldShow(Run(s, c, [e] + evs).mirrors, c2, now)
  {
    RunCons(s, c, e, evs);
    OptOutSticky(Apply(s, c, e), c, evs);
  }

  /** An opt-out found in the store (say, from an earlier process) suppresses the
      dialog from the first onStart on, whatever the mirrors held before it. */
  lemma StoredOptOutSuppressesAfterLaunch(s: State, c: Criteria, now: int, firstInstallTime: int,
                                          evs: seq<Event>, c2: Criteria, t: int)
    requires StoredOptOut(s.prefs)
    ensures !ShouldShow(Run(s, c, [Launch(now, firstInstallTime)] + evs).mirrors, c2, t)
  {
    RunCons(s, c, Launch(now, firstInstallTime), evs);
    OptOutSticky(StartStep(s, c, now, firstInstallTime), c, evs);
  }

  /** The mark "Later" leaves at instant t: the stored ask-later date is t, and
      either its mirror has been refreshed to t or the install-date mirror is t. */
  predicate AskedLaterAt(s: State, t: int) {
    StoredAskLaterDate(s.prefs) == t && (s.mirrors.askLaterDate == t || s.mirrors.installDate == t)
  }

  lemma {:induction false} AskedLaterPreserved(s: State, c: Criteria, t: int, evs: seq<Event>)
    requires AskedLaterAt(s, t)
    requires forall i :: 0 <= i < |evs| ==> !evs[i].Later?
    ensures AskedLaterAt(Run(s, c, evs), t)
    decreases |evs|
  {
    if evs != [] {
      AskedLaterPreserved(Apply(s, c, evs[0]), Next(c, evs[0]), t, evs[1..]);
    }
  }

  /** After "Later" at instant t, until a full threshold has passed since t the
      elapsed-time criterion fails: under AND the dialog is not due, under OR only
      the launch count can make it due. This holds across later launches, although
      each of them re-stores the package manager's original install time. */
  lemma AskLaterCooldown(s: State, c: Criteria, t: int, evs: seq<Event>, c2: Criteria, now: int)
    requires forall i :: 0 <= i < |evs| ==> !evs[i].Later?
    requires now < t + DaysToMillis(c2.installDays)
    ensures now < WindowOpens(Run(s, c, [Later(t)] + evs).mirrors, c2)
    ensures ShouldShow(Run(s, c, [Later(t)] + evs).mirrors, c2, now) ==>
              !c2.andCondition && LaunchFulfilled(Run(s, c, [Later(t)] + evs).mirrors, c2)
  {
    RunCons(s, c, Later(t), evs);
    AskedLaterPreserved(AskLaterStep(s, c.currentAppVersion, t), c, t, evs);
  }

  /** Straight after "Later", with a positive threshold on both criteria, the
      dialog is not due. */
  lemma HiddenRightAfterAskLater(s: State, c: Criteria, t: int, now: int)
    requires c.launchTimes > 0
    requires now < t + DaysToMillis(c.installDays)
    ensures !ShouldShow(Run(s, c, [Later(t)]).mirrors, c, now)
  {
    AskLaterCooldown(s, c, t, [], c, now);
  }

  /** Once the stored counter version is the current one (as after any onStart),
      further launches never reset: each adds exactly one to the stored count and
      an install date already present is kept. */
  lemma {:induction false} LaunchesCount(s: State, c: Criteria, evs: seq<Event>)
    requires StoredCounterVersion(s.prefs) == c.currentAppVersion
    requires forall i :: 0 <= i < |evs| ==> evs[i].Launch?
    ensures StoredLaunchTimes(Run(s, c, evs).prefs) == StoredLaunchTimes(s.prefs) + |evs|
    ensures StoredInstallDate(s.prefs) != 0 ==> Run(s, c, evs).prefs.installDate == s.prefs.installDate
    ensures StoredCounterVersion(Run(s, c, evs).prefs) == c.currentAppVersion
    ensures |evs| > 0 ==> Run(s, c, evs).mirrors.launchTimes == StoredLaunchTimes(Run(s, c, evs).prefs)
    decreases |evs|
  {
    if evs != [] {
      LaunchesCount(Apply(s, c, evs[0]), Next(c, evs[0]), evs[1..]);
    }
  }

  /** Under one configuration, a run of launches resets at most once (at the
      first), then counts every further launch. */
  lemma AtMostOneResetPerVersion(s: State, c: Criteria, e: Event, evs: seq<Event>)
    requires e.Launch?
    requires forall i :: 0 <= i < |evs| ==> evs[i].Launch?
    ensures StoredLaunchTimes(Run(s, c, [e] + evs).prefs) == StoredLaunchTimes(Apply(s, c, e).prefs) + |evs|
  {
    RunCons(s, c, e, evs);
    LaunchesCount(Apply(s, c, e), c, evs);
  }

  /** Re-prompting for a new version: after "Rate now" under version v, the first
      launch under a newer version with re-prompting enabled withdraws the review
      and starts counting afresh. */
  lemma ReviewThenUpgradeReprompts(s: State, c: Criteria, c2: Criteria, now: int, firstInstallTime: int)
    requires !StoredOptOut(s.prefs)
    requires StoredCounterVersion(s.prefs) <= c.currentAppVersion < c2.currentAppVersion
    requires c2.promptForNewVersion
    ensures var r := Run(s, c, [Rate, Init(c2), Launch(now, firstInstallTime)]);
            && !r.mirrors.alreadyReviewed && !StoredAlreadyReviewed(r.prefs)
            && r.mirrors.launchTimes == 0 && StoredLaunchTimes(r.prefs) == 0
            && r.mirrors.installDate == now && StoredInstallDate(r.prefs) == 0
  {
    var s1 := SetAlreadyReviewedStep(s, true, c.currentAppVersion);
    RunCons(s, c, Rate, [Init(c2), Launch(now, firstInstallTime)]);
    RunCons(s1, c, Init(c2), [Launch(now, firstInstallTime)]);
    assert ResetDue(s1.prefs, c2);
  }

  /** A review stays recorded, in the store and in the mirror, across launches,
      responses and reconfigurations, as long as no configuration re-prompts for
      new versions and "Later" is never pressed. */
  lemma {:induction false} ReviewedSticky(s: State, c: Criteria, evs: seq<Event>)
    requires StoredAlreadyReviewed(s.prefs) && s.mirrors.alreadyReviewed
    requires !c.promptForNewVersion
    requires forall i :: 0 <= i < |evs| ==> !evs[i].Later?
    requires forall i :: 0 <= i < |evs| ==> evs[i].Init? ==> !evs[i].config.promptForNewVersion
    ensures StoredAlreadyReviewed(Run(s, c, evs).prefs) && Run(s, c, evs).mirrors.alreadyReviewed
    decreases |evs|
  {
    if evs != [] {
      ReviewedSticky(Apply(s, c, evs[0]), Next(c, evs[0]), evs[1..]);
    }
  }

  /** "Later" on a dialog opened after "Rate now" (the public showRateDialog does
      not consult the decision) withdraws the review, although no new version
      was installed. */
  lemma LaterWithdrawsReview(s: State, c: Criteria, t: int)
    ensures StoredAlreadyReviewed(Run(s, c, [Rate]).prefs) && Run(s, c, [Rate]).mirrors.alreadyReviewed
    ensures !StoredAlreadyReviewed(Run(s, c, [Rate, Later(t)]).prefs)
    ensures !Run(s, c, [Rate, Later(t)]).mirrors.alreadyReviewed
  {
    RunCons(s, c, Rate, [Later(t)]);
  }
}
