/** The library's entry points as objects: the configuration with its
    constructors and setters, and the engine that owns the preference store and
    the process-wide mirrors. Each state change below is written step by step
    and promises to agree with its counterpart in module Eligibility. */
module RateThisApp {
  import opened Preferences
  import opened Eligibility

  /** How the launch and elapsed-time criteria are combined. */
  datatype RateConditions = And | Or

  const DefaultInstallDays: int := 7
  const DefaultLaunchTimes: int := 10

  /** The dialog texts and behaviour; 0 means "use the bundled resource". */
  datatype DialogSettings = DialogSettings(
    url: Option<string>,
    titleId: int,
    messageId: int,
    yesButtonId: int,
    noButtonId: int,
    cancelButtonId: int,
    cancelable: bool)

  const DefaultDialog: DialogSettings := DialogSettings(None, 0, 0, 0, 0, 0, true)

  class Config {
    var url: Option<string>
    var criteriaInstallDays: int
    var criteriaLaunchTimes: int
    var titleId: int
    var messageId: int
    var yesButtonId: int
    var noButtonId: int
    var cancelButtonId: int
    var cancelable: bool
    var andCondition: bool
    var promptForNewVersion: bool
    var currentAppVersion: int

    /** What the engine reads of this configuration. */
    function Criteria(): Criteria
      reads this
    {
      Eligibility.Criteria(criteriaInstallDays, criteriaLaunchTimes, andCondition,
                           promptForNewVersion, currentAppVersion)
    }

    function Dialog(): DialogSettings
      reads this
    {
      DialogSettings(url, titleId, messageId, yesButtonId, noButtonId, cancelButtonId, cancelable)
    }

    /** Default criteria: 7 days, 10 launches, OR, no re-prompting, version -1. */
    constructor ()
      ensures Criteria() == Eligibility.Criteria(DefaultInstallDays, DefaultLaunchTimes, false, false, NoVersion)
      ensures Dialog() == DefaultDialog
    {
      url, titleId, messageId, yesButtonId, noButtonId, cancelButtonId, cancelable :=
        None, 0, 0, 0, 0, 0, true;
      criteriaInstallDays, criteriaLaunchTimes := DefaultInstallDays, DefaultLaunchTimes;
      andCondition, promptForNewVersion, currentAppVersion := false, false, NoVersion;
    }

    /** Default criteria joined as `join` says. */
    constructor WithJoin(join: RateConditions)
      ensures Criteria() == Eligibility.Criteria(DefaultInstallDays, DefaultLaunchTimes, join == And, false, NoVersion)
      ensures Dialog() == DefaultDialog
    {
      url, titleId, messageId, yesButtonId, noButtonId, cancelButtonId, cancelable :=
        None, 0, 0, 0, 0, 0, true;
      criteriaInstallDays, criteriaLaunchTimes := DefaultInstallDays, DefaultLaunchTimes;
      andCondition, promptForNewVersion, currentAppVersion := false, false, NoVersion;
      andCondition := join == And;
    }

    constructor WithCriteria(installDays: int, launchTimes: int)
      ensures Criteria() == Eligibility.Criteria(installDays, launchTimes, false, false, NoVersion)
      ensures Dialog() == DefaultDialog
    {
      url, titleId, messageId, yesButtonId, noButtonId, cancelButtonId, cancelable :=
        None, 0, 0, 0, 0, 0, true;
      criteriaInstallDays, criteriaLaunchTimes := installDays, launchTimes;
      andCondition, promptForNewVersion, currentAppVersion := false, false, NoVersion;
    }

    constructor WithCriteriaAndJoin(installDays: int, launchTimes: int, join: RateConditions)
      ensures Criteria() == Eligibility.Criteria(installDays, launchTimes, join == And, false, NoVersion)
      ensures Dialog() == DefaultDialog
    {
      url, titleId, messageId, yesButtonId, noButtonId, cancelButtonId, cancelable :=
        None, 0, 0, 0, 0, 0, true;
      criteriaInstallDays, criteriaLaunchTimes := installDays, launchTimes;
      andCondition, promptForNewVersion, currentAppVersion := join == And, false, NoVersion;
    }

    method SetTitle(stringId: int)
      modifies this
      ensures Criteria() == old(Criteria())
      ensures Dialog() == old(Dialog()).(titleId := stringId)
    {
      titleId := stringId;
    }

    method SetMessage(stringId: int)
      modifies this
      ensures Criteria() == old(Criteria())
      ensures Dialog() == old(Dialog()).(messageId := stringId)
    {
      messageId := stringId;
    }

    method SetYesButtonText(stringId: int)
      modifies this
      ensures Criteria() == old(Criteria())
      ensures Dialog() == old(Dialog()).(yesButtonId := stringId)
    {
      yesButtonId := stringId;
    }

    method SetNoButtonText(stringId: int)
      modifies this
      ensures Criteria() == old(Criteria())
      ensures Dialog() == old(Dialog()).(noButtonId := stringId)
    {
      noButtonId := stringId;
    }

    method SetCancelButtonText(stringId: int)
      modifies this
      ensures Criteria() == old(Criteria())
      ensures Dialog() == old(Dialog()).(cancelButtonId := stringId)
    {
      cancelButtonId := stringId;
    }

    /** `None` stands for Java's null URL. */
    method SetUrl(newUrl: Option<string>)
      modifies this
      ensures Criteria() == old(Criteria())
      ensures Dialog() == old(Dialog()).(url := newUrl)
    {
      url := newUrl;
    }

    method SetCancelable(newCancelable: bool)
      modifies this
      ensures Criteria() == old(Criteria())
      ensures Dialog() == old(Dialog()).(cancelable := newCancelable)
    {
      cancelable := newCancelable;
    }

    method SetPromptForNewVersion(prompt: bool, appVersion: int)
      modifies this
      ensures Criteria() == old(Criteria()).(promptForNewVersion := prompt, currentAppVersion := appVersion)
      ensures Dialog() == old(Dialog())
    {
      promptForNewVersion := prompt;
      currentAppVersion := appVersion;
    }

    method SetOrCondition()
      modifies this
      ensures Criteria() == old(Criteria()).(andCondition := false)
      ensures Dialog() == old(Dialog())
    {
      andCondition := false;
    }

    method SetAndCondition()
      modifies this
      ensures Criteria() == old(Criteria()).(andCondition := true)
      ensures Dialog() == old(Dialog())
    {
      andCondition := true;
    }
  }

  /** The engine: the persisted "RateThisApp" preferences, the static fields that
      mirror them, and the installed configuration. */
  class Engine {
    var prefs: Prefs
    var installDate: int
    var launchTimes: int
    var optOut: bool
    var askLaterDate: int
    var alreadyReviewed: bool
    var counterVersion: int
    var reviewedVersion: int
    var config: Config

    function Mirrors(): Mirrors
      reads this
    {
      Eligibility.Mirrors(installDate, launchTimes, optOut, askLaterDate, alreadyReviewed,
                          counterVersion, reviewedVersion)
    }

    function State(): State
      reads this
    {
      Eligibility.State(prefs, Mirrors())
    }

    /** Class load: whatever an earlier process persisted, both date mirrors at
        the load instant, the other mirrors at their initial values, the default
        configuration. */
    constructor (stored: Prefs, loadTime: int)
      ensures State() == Eligibility.State(stored, Eligibility.Mirrors(loadTime, 0, false, loadTime, false, NoVersion, NoVersion))
      ensures fresh(config) && config.Criteria() == Eligibility.Criteria(DefaultInstallDays, DefaultLaunchTimes, false, false, NoVersion)
      ensures config.Dialog() == DefaultDialog
    {
      prefs := stored;
      installDate, launchTimes, optOut, askLaterDate := loadTime, 0, false, loadTime;
      alreadyReviewed, counterVersion, reviewedVersion := false, NoVersion, NoVersion;
      config := new Config();
    }

    /** init: later changes to `c` through its setters are seen by the engine. */
    method Init(c: Config)
      modifies this
      ensures config == c && State() == old(State())
    {
      config := c;
    }

    method OnStart(now: int, firstInstallTime: int)
      modifies this
      ensures config == old(config)
      ensures State() == StartStep(old(State()), config.Criteria(), now, firstInstallTime)
    {
      // First launch: record the install date.
      if StoredInstallDate(prefs) == 0 {
        StoreInstallDate(firstInstallTime);
      }
      var count := StoredLaunchTimes(prefs);
      count := count + 1;
      prefs := prefs.(launchTimes := Some(count));

      installDate := StoredInstallDate(prefs);
      launchTimes := StoredLaunchTimes(prefs);
      optOut := StoredOptOut(prefs);
      askLaterDate := StoredAskLaterDate(prefs);
      alreadyReviewed := StoredAlreadyReviewed(prefs);
      counterVersion := StoredCounterVersion(prefs);
      reviewedVersion := StoredReviewedVersion(prefs);

      if !optOut && config.promptForNewVersion && reviewedVersion < config.currentAppVersion
         && counterVersion < config.currentAppVersion
      {
        ClearSharedPreferences(now);
      } else if counterVersion != config.currentAppVersion {
        // The store is refreshed; the mirror keeps the old counter version.
        prefs := prefs.(counterVersion := Some(config.currentAppVersion));
      }
    }

    /** shouldShowRateDialog: decided on the mirrors, not on the store. */
    function ShouldShowRateDialog(now: int): (show: bool)
      reads this, config
      ensures optOut || alreadyReviewed ==> !show
      ensures !optOut && !alreadyReviewed && config.andCondition ==>
                (show <==> launchTimes >= config.criteriaLaunchTimes
                           && now >= WindowOpens(Mirrors(), config.Criteria()))
      ensures !optOut && !alreadyReviewed && !config.andCondition ==>
                (show <==> launchTimes >= config.criteriaLaunchTimes
                           || now >= WindowOpens(Mirrors(), config.Criteria()))
    {
      ShouldShow(Mirrors(), config.Criteria(), now)
    }

    /** showRateDialogIfNeeded without the dialog: reports whether it would be shown. */
    method ShowRateDialogIfNeeded(now: int) returns (shown: bool)
      ensures shown == ShouldShowRateDialog(now)
    {
      shown := ShouldShowRateDialog(now);
    }

    /** stopRateDialog */
    method StopRateDialog()
      modifies this
      ensures config == old(config)
      ensures State() == SetOptOutStep(old(State()), true)
    {
      SetOptOut(true);
    }

    /** getLaunchCount reads the store, not the mirror. */
    function GetLaunchCount(): (count: int)
      reads this
      ensures prefs.launchTimes.None? ==> count == 0
      ensures prefs.launchTimes.Some? ==> count == prefs.launchTimes.value
    {
      StoredLaunchTimes(prefs)
    }

    /** "Rate now", as on the HEAD side of the unresolved merge conflict in the
        positive-button handler: mark the app reviewed. Opening the store is not modelled. */
    method RateClicked()
      modifies this
      ensures config == old(config)
      ensures State() == SetAlreadyReviewedStep(old(State()), true, config.currentAppVersion)
    {
      SetAlreadyReviewed(true);
    }

    /** "Rate now", as on the incoming side of the same conflict: opt out instead. */
    method RateClickedIncoming()
      modifies this
      ensures config == old(config)
      ensures State() == SetOptOutStep(old(State()), true)
    {
      SetOptOut(true);
    }

    /** "No, thanks". */
    method NoClicked()
      modifies this
      ensures config == old(config)
      ensures State() == SetOptOutStep(old(State()), true)
    {
      SetOptOut(true);
    }

    /** "Later", and the cancel listener, which does the same. */
    method AskLater(now: int)
      modifies this
      ensures config == old(config)
      ensures State() == AskLaterStep(old(State()), config.currentAppVersion, now)
    {
      ClearSharedPreferences(now);
      StoreAskLaterDate(now);
    }

    method ClearSharedPreferences(now: int)
      modifies this
      ensures config == old(config)
      ensures State() == ClearStep(old(State()), config.currentAppVersion, now)
    {
      prefs := prefs.(installDate := None);
      installDate := now;
      prefs := prefs.(launchTimes := None);
      launchTimes := 0;
      prefs := prefs.(counterVersion := Some(config.currentAppVersion));
      counterVersion := config.currentAppVersion;
      prefs := prefs.(alreadyReviewed := Some(false));
      alreadyReviewed := false;
    }

    method SetOptOut(newOptOut: bool)
      modifies this
      ensures config == old(config)
      ensures State() == SetOptOutStep(old(State()), newOptOut)
    {
      prefs := prefs.(optOut := Some(newOptOut));
      optOut := newOptOut;
    }

    /** storeInstallDate, with the package manager's first-install time passed in. */
    method StoreInstallDate(firstInstallTime: int)
      modifies this
      ensures config == old(config)
      ensures State() == StoreInstallDateStep(old(State()), firstInstallTime)
    {
      prefs := prefs.(installDate := Some(firstInstallTime));
    }

    /** storeAskLaterDate: the store only, not the mirror. */
    method StoreAskLaterDate(now: int)
      modifies this
      ensures config == old(config)
      ensures State() == StoreAskLaterStep(old(State()), now)
    {
      prefs := prefs.(askLaterDate := Some(now));
    }

    method SetAlreadyReviewed(reviewed: bool)
      modifies this
      ensures config == old(config)
      ensures State() == SetAlreadyReviewedStep(old(State()), reviewed, config.currentAppVersion)
    {
      prefs := prefs.(alreadyReviewed := Some(reviewed));
      prefs := prefs.(reviewedVersion := Some(config.currentAppVersion));
      alreadyReviewed := reviewed;
    }
  }

  /** A client of the engine's contracts: a launch, "No, thanks", another launch
      much later; the dialog is not shown, whatever the store held before. */
  method NoThenRelaunch(stored: Prefs, loadTime: int, firstInstallTime: int, later: int) returns (shown: bool)
    ensures !shown
  {
    var engine := new Engine(stored, loadTime);
    engine.OnStart(loadTime, firstInstallTime);
    engine.NoClicked();
    engine.OnStart(later, firstInstallTime);
    shown := engine.ShowRateDialogIfNeeded(later);
  }
}
