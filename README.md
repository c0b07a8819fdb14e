# RateThisApp eligibility engine in Dafny

RateThisApp is an Android library that decides, on each launch of an app,
whether to ask the user to rate it. It keeps a small record in the app's
shared preferences (install date, launch count, opt-out flag, ask-later date,
already-reviewed flag, counter version, reviewed version). It also keeps
process-wide static copies of those values, the mirrors. The decision
`shouldShowRateDialog` reads only the mirrors. The mirrors are refreshed from
the store in `onStart` and written directly by some handlers, so the two can
drift apart.

The model has four modules:

- `Preferences` (preferences.dfy): the store as a record of seven optional
  entries, plus the reads with the library's defaults (0, false, -1).
- `Eligibility` (eligibility.dfy): the record and its mirrors as values. It
  holds the decision `ShouldShow` and a pure function for every state change
  (`StartStep`, `ClearStep`, `SetOptOutStep`, `SetAlreadyReviewedStep`,
  `StoreAskLaterStep`, `StoreInstallDateStep`, `AskLaterStep`). Each function
  states what it does in its contract.
- `Sessions` (sessions.dfy): sequences of launches, dialog responses and
  configuration changes within one process lifetime. It proves the inductive
  guarantees: opt-out is permanent, "Later" imposes a cool-down, and launches
  are counted between resets.
- `RateThisApp` (rate_this_app.dfy): the objects. `Config` has its four
  constructors and its setters. `Engine` holds the store (`prefs`), the seven
  mirrors as separate fields, and the installed configuration. Its methods
  perform each change step by step, as the Java code does. Each one ensures
  that the new `State()` equals the matching `Eligibility` function applied to
  the old state.

The environment is passed in as parameters:

- The wall clock is a `now: int` parameter in milliseconds.
- The package manager's first-install time is a `firstInstallTime: int`
  parameter to `OnStart`.
- The class-load instant, when the static date mirrors are initialised, is a
  `loadTime` parameter to the `Engine` constructor.
- The day threshold is `days * 86400000`.

The source's "Rate now" handler contains an unresolved merge conflict.
`Engine.RateClicked` models the HEAD side, which calls
`setAlreadyReviewed(true)`. `Engine.RateClickedIncoming` models the incoming
side, which calls `setOptOut(true)`. Traces in `Sessions` include both, as
`Rate` and `RateIncoming`.

Some behaviour comes from the code and is held in the contracts:

- `storeAskLaterDate` writes only the store, so the ask-later mirror is stale
  until the next `onStart`.
- The `onStart` branch that only refreshes the counter version writes only the
  store, so the counter-version mirror lags behind.
- `setAlreadyReviewed` stores the reviewed version but does not update its
  mirror.
- `onStart` applies the incremented launch count (line 112). A version reset
  at line 123 then discards it, so the count left is 0, not 1.
- "Later" and a version reset both remove the stored install date. The next
  launch therefore stores the package manager's original first-install time
  again. After "Later", only the ask-later date holds the time window shut
  (`Sessions.AskLaterCooldown`).

A version reset does not make the engine behave as on a fresh install. The
next launch re-stores the original first-install time (RateThisApp.java
lines 103-104 and 349), so the install-date criterion starts afresh only until
that launch.

"Later" also withdraws a review. The public `showRateDialog` opens the dialog
without consulting the decision. If "Later" is pressed on such a dialog after
"Rate now", the review is cleared even though no new version was installed
(`Sessions.LaterWithdrawsReview`). This contradicts the comment on
`setAlreadyReviewed`. Without "Later" and without re-prompting, a review stays
recorded (`Sessions.ReviewedSticky`).

## Model

| member | source | states |
|---|---|---|
| `Eligibility.ShouldShow` | ratethisapp/src/main/java/com/kobakei/ratethisapp/RateThisApp.java:166-182 | False whenever opt-out or already-reviewed is set. Otherwise: under AND, launch count at or above the threshold and `now` at or after the window opening; under OR, either one. The window opens one full day threshold after the later of the install date and the ask-later date. |
| `Eligibility.ShouldShowMonotoneInTime` | ratethisapp/src/main/java/com/kobakei/ratethisapp/RateThisApp.java:172-174 | With the record fixed, a dialog that is due stays due as the clock advances. |
| `Eligibility.ShouldShowMonotoneInLaunches` | ratethisapp/src/main/java/com/kobakei/ratethisapp/RateThisApp.java:170 | More launches never make a due dialog undue. |
| `Eligibility.ElevenLaunchesOneDayUnderOr` | ratethisapp/src/main/java/com/kobakei/ratethisapp/RateThisApp.java:429-431 | Default 7 days and 10 launches joined by OR: 11 launches one day after install make the dialog due. |
| `Eligibility.StoreInstallDateStep` | ratethisapp/src/main/java/com/kobakei/ratethisapp/RateThisApp.java:343-356 | Stores the given first-install time as the install date. Nothing else in the store changes, and no mirror changes. |
| `Eligibility.ClearStep` | ratethisapp/src/main/java/com/kobakei/ratethisapp/RateThisApp.java:309-322 | Removes install date and launch count, stores counter version := current and already-reviewed := false. Mirrors: install date := now, launch count 0, counter version current, not reviewed. Opt-out, ask-later date and reviewed version are unchanged in both. |
| `Eligibility.StartStep` | ratethisapp/src/main/java/com/kobakei/ratethisapp/RateThisApp.java:99-129 | Afterwards the stored counter version is always the current one. Opt-out, ask-later date and reviewed version are never written; their mirrors show the stored values. Reset (exactly when not opted out, re-prompt enabled, reviewed version < current and counter version < current) clears the counters and the review, with mirror install date := now and launch mirror 0. Otherwise: stored launch count +1; install date written only if absent (0); counter version written only if it differs; every mirror equals the store except the counter version, which keeps the old value. |
| `Eligibility.SetOptOutStep` | ratethisapp/src/main/java/com/kobakei/ratethisapp/RateThisApp.java:329-335 | Opt-out written to store and mirror, nothing else changed. When set, the dialog is not due under any configuration or clock. |
| `Eligibility.SetAlreadyReviewedStep` | ratethisapp/src/main/java/com/kobakei/ratethisapp/RateThisApp.java:375-382 | Stores the flag and reviewed version := current, and sets the flag's mirror. Nothing else changes, including the reviewed-version mirror. When set, the dialog is not due. |
| `Eligibility.StoreAskLaterStep` | ratethisapp/src/main/java/com/kobakei/ratethisapp/RateThisApp.java:362-367 | Stores ask-later date := now. Nothing else in the store changes, and the mirrors are untouched. |
| `Eligibility.AskLaterStep` | ratethisapp/src/main/java/com/kobakei/ratethisapp/RateThisApp.java:265-292 | "Later" or cancel: stored ask-later date and install-date mirror both become now. Launch count is 0 in store and mirror, and the install date is absent. Opt-out and reviewed version are unchanged in store and mirror. The review is withdrawn and the counter version is current in both. The ask-later mirror keeps its stale value. |
| `Eligibility.Reload` | ratethisapp/src/main/java/com/kobakei/ratethisapp/RateThisApp.java:114-120 | An empty store reads as install date 0, no launches, not opted out, ask-later 0, not reviewed, versions -1. Each present entry is read verbatim. A flag is set exactly when it is stored as true. |
| `Eligibility.ResetDue` | ratethisapp/src/main/java/com/kobakei/ratethisapp/RateThisApp.java:122 | The onStart reset guard. It is never due when the stored counter version is already current (as after any launch), when opt-out is stored, or when re-prompting is off. |
| `Sessions.Apply` | ratethisapp/src/main/java/com/kobakei/ratethisapp/RateThisApp.java:244-292 | Button wiring plus onStart. Only "No, thanks" and the incoming "Rate now" write opt-out, and they set it. "Rate now" records the review. Only "Later" writes the ask-later date, and it zeroes the launch count. A launch leaves the counter version current. A reconfiguration changes nothing. |
| `Sessions.ReviewedSticky` | ratethisapp/src/main/java/com/kobakei/ratethisapp/RateThisApp.java:370-382 | With no configuration re-prompting and no "Later", a recorded review survives every trace, in store and mirror. |
| `Sessions.LaterWithdrawsReview` | ratethisapp/src/main/java/com/kobakei/ratethisapp/RateThisApp.java:309-322 | "Rate now" records the review; "Later" right after it withdraws the review in store and mirror. |
| `Sessions.OptOutSticky` | ratethisapp/src/main/java/com/kobakei/ratethisapp/RateThisApp.java:114-126 | Once opt-out is set in store and mirror, no sequence of launches, responses or reconfigurations clears it in either one. |
| `Sessions.OptOutResponseSuppresses` | ratethisapp/src/main/java/com/kobakei/ratethisapp/RateThisApp.java:275-283 | After "No, thanks" (or the incoming side's "Rate now"), the dialog is never due again, under any later events, configuration or clock. |
| `Sessions.StoredOptOutSuppressesAfterLaunch` | ratethisapp/src/main/java/com/kobakei/ratethisapp/RateThisApp.java:114-122 | An opt-out already in the store suppresses the dialog from the first `onStart` on, whatever the mirrors held before. |
| `Sessions.AskedLaterPreserved` | ratethisapp/src/main/java/com/kobakei/ratethisapp/RateThisApp.java:114-126 | Events other than "Later" keep the stored ask-later date. They also keep at least one of the two date mirrors equal to it. |
| `Sessions.AskLaterCooldown` | ratethisapp/src/main/java/com/kobakei/ratethisapp/RateThisApp.java:265-292 | After "Later" at t, and until a full threshold has passed since t, the window is shut, even across launches that re-store the original install date. The dialog is then due only under OR, and only through the launch criterion. |
| `Sessions.HiddenRightAfterAskLater` | ratethisapp/src/main/java/com/kobakei/ratethisapp/RateThisApp.java:172-179 | Right after "Later", with positive launch and day thresholds, the dialog is not due before the threshold elapses. |
| `Sessions.LaunchesCount` | ratethisapp/src/main/java/com/kobakei/ratethisapp/RateThisApp.java:103-126 | With the stored counter version current, n launches never reset. They add exactly n to the stored count, keep an existing install date, and leave the launch mirror equal to the store. |
| `Sessions.AtMostOneResetPerVersion` | ratethisapp/src/main/java/com/kobakei/ratethisapp/RateThisApp.java:122-126 | Under one configuration, a run of launches can reset only at its first launch. Each later launch adds one to the count. |
| `Sessions.ReviewThenUpgradeReprompts` | ratethisapp/src/main/java/com/kobakei/ratethisapp/RateThisApp.java:122-123 | "Rate now", then a newer version with re-prompting, then a launch: the review is withdrawn and the counters restart. |
| `RateThisApp.Config.constructor` | ratethisapp/src/main/java/com/kobakei/ratethisapp/RateThisApp.java:429-431 | Defaults: 7 days, 10 launches, OR, no re-prompting, version -1, no custom texts or URL, cancelable. |
| `RateThisApp.Config.WithJoin` | ratethisapp/src/main/java/com/kobakei/ratethisapp/RateThisApp.java:433-436 | Default thresholds; AND exactly when the join is `And`. |
| `RateThisApp.Config.WithCriteria` | ratethisapp/src/main/java/com/kobakei/ratethisapp/RateThisApp.java:443-446 | The given thresholds, with every other setting at its default. |
| `RateThisApp.Config.WithCriteriaAndJoin` | ratethisapp/src/main/java/com/kobakei/ratethisapp/RateThisApp.java:454-458 | The given thresholds and join, with every other setting at its default. |
| `RateThisApp.Config.SetTitle` | ratethisapp/src/main/java/com/kobakei/ratethisapp/RateThisApp.java:464-466 | Only the title id changes. |
| `RateThisApp.Config.SetMessage` | ratethisapp/src/main/java/com/kobakei/ratethisapp/RateThisApp.java:472-474 | Only the message id changes. |
| `RateThisApp.Config.SetYesButtonText` | ratethisapp/src/main/java/com/kobakei/ratethisapp/RateThisApp.java:480-482 | Only the rate-button id changes. |
| `RateThisApp.Config.SetNoButtonText` | ratethisapp/src/main/java/com/kobakei/ratethisapp/RateThisApp.java:488-490 | Only the no-thanks-button id changes. |
| `RateThisApp.Config.SetCancelButtonText` | ratethisapp/src/main/java/com/kobakei/ratethisapp/RateThisApp.java:496-498 | Only the later-button id changes. |
| `RateThisApp.Config.SetUrl` | ratethisapp/src/main/java/com/kobakei/ratethisapp/RateThisApp.java:505-507 | Only the URL changes. |
| `RateThisApp.Config.SetCancelable` | ratethisapp/src/main/java/com/kobakei/ratethisapp/RateThisApp.java:509-511 | Only the cancelable flag changes. |
| `RateThisApp.Config.SetPromptForNewVersion` | ratethisapp/src/main/java/com/kobakei/ratethisapp/RateThisApp.java:518-521 | Only the re-prompt flag and the current app version change. |
| `RateThisApp.Config.SetOrCondition` | ratethisapp/src/main/java/com/kobakei/ratethisapp/RateThisApp.java:526 | Only the join changes, to OR. |
| `RateThisApp.Config.SetAndCondition` | ratethisapp/src/main/java/com/kobakei/ratethisapp/RateThisApp.java:531 | Only the join changes, to AND. |
| `RateThisApp.Engine.constructor` | ratethisapp/src/main/java/com/kobakei/ratethisapp/RateThisApp.java:59-67 | Class load: the store as persisted, both date mirrors at the load instant, 0/false/-1 elsewhere, and a fresh configuration with default criteria and dialog settings. |
| `RateThisApp.Engine.Init` | ratethisapp/src/main/java/com/kobakei/ratethisapp/RateThisApp.java:81-83 | Installs the configuration object, and the record is unchanged. |
| `RateThisApp.Engine.OnStart` | ratethisapp/src/main/java/com/kobakei/ratethisapp/RateThisApp.java:99-129 | New store and mirrors are exactly `StartStep` of the old ones, and the configuration is untouched. |
| `RateThisApp.Engine.ShouldShowRateDialog` | ratethisapp/src/main/java/com/kobakei/ratethisapp/RateThisApp.java:166-182 | Decided on the mirrors and the installed configuration. False when opted out or reviewed. Otherwise: launch threshold AND/OR the window opening, as the join says. |
| `RateThisApp.Engine.ShowRateDialogIfNeeded` | ratethisapp/src/main/java/com/kobakei/ratethisapp/RateThisApp.java:136-143 | Reports exactly `ShouldShowRateDialog`. The dialog itself is not shown. |
| `RateThisApp.Engine.StopRateDialog` | ratethisapp/src/main/java/com/kobakei/ratethisapp/RateThisApp.java:207-209 | Same state change as `SetOptOutStep(_, true)`. |
| `RateThisApp.Engine.GetLaunchCount` | ratethisapp/src/main/java/com/kobakei/ratethisapp/RateThisApp.java:215-218 | The stored launch count, 0 when absent. This is the store, not the mirror. |
| `RateThisApp.Engine.RateClicked` | ratethisapp/src/main/java/com/kobakei/ratethisapp/RateThisApp.java:255-258 | HEAD side of the conflict: same state change as `SetAlreadyReviewedStep(_, true, current version)`. |
| `RateThisApp.Engine.RateClickedIncoming` | ratethisapp/src/main/java/com/kobakei/ratethisapp/RateThisApp.java:259-262 | Incoming side of the conflict: same state change as `SetOptOutStep(_, true)`. |
| `RateThisApp.Engine.NoClicked` | ratethisapp/src/main/java/com/kobakei/ratethisapp/RateThisApp.java:275-283 | Same state change as `SetOptOutStep(_, true)`. |
| `RateThisApp.Engine.AskLater` | ratethisapp/src/main/java/com/kobakei/ratethisapp/RateThisApp.java:265-292 | "Later" button and cancel listener: the state change `AskLaterStep` describes. |
| `RateThisApp.Engine.ClearSharedPreferences` | ratethisapp/src/main/java/com/kobakei/ratethisapp/RateThisApp.java:309-322 | New state is `ClearStep` of the old one. |
| `RateThisApp.Engine.SetOptOut` | ratethisapp/src/main/java/com/kobakei/ratethisapp/RateThisApp.java:329-335 | New state is `SetOptOutStep` of the old one. |
| `RateThisApp.Engine.StoreInstallDate` | ratethisapp/src/main/java/com/kobakei/ratethisapp/RateThisApp.java:343-356 | New state is `StoreInstallDateStep` of the old one. |
| `RateThisApp.Engine.StoreAskLaterDate` | ratethisapp/src/main/java/com/kobakei/ratethisapp/RateThisApp.java:362-367 | New state is `StoreAskLaterStep` of the old one, with the mirror left stale. |
| `RateThisApp.Engine.SetAlreadyReviewed` | ratethisapp/src/main/java/com/kobakei/ratethisapp/RateThisApp.java:375-382 | New state is `SetAlreadyReviewedStep` of the old one. |
| `RateThisApp.NoThenRelaunch` | ratethisapp/src/main/java/com/kobakei/ratethisapp/RateThisApp.java:275-283 | Client of the class contracts: launch, "No, thanks", launch again much later; the dialog is not shown. |

## Left out

- Dialog construction, theming, resource-id fallbacks and cancelability wiring: these are UI. Only the state effect of each button is modelled.
- The single-live-dialog guard through a weak reference: this is UI leak avoidance.
- Opening the store (market URI, web URL fallback, activity dispatch): these are foreign Android calls.
- The package-manager lookup and SDK-version check in `storeInstallDate`: the caller supplies `firstInstallTime`, including the current time when the lookup fails.
- Apply versus commit flush semantics: every write is synchronous.
- Logging (`printStatus`, `log`) and the `Callback` notifications: these have no effect on the state.
- Eligibility.ShouldShow: reads one `now`, where the source reads the clock twice on lines 173-174. The two reads can differ by a few milliseconds.
- Eligibility.StartStep: does not model Java's 32-bit `int` wrap-around of the launch count. All integers are unbounded.
- Eligibility.ShouldShow: does not model `long` overflow of the time differences. The day threshold itself, `int` days times 86400000 in a `long` (line 172), cannot overflow.
- Eligibility.AskLaterStep: uses one `now` for the two clock reads of the "Later"/cancel path, `new Date()` at line 313 and `System.currentTimeMillis()` at line 365.
- RateThisApp.Engine.constructor: uses one `loadTime` for the two class-load clock reads at lines 59 and 62.
- Sessions.Run: covers one process lifetime. After a process restart the mirrors hold their class-load values (`Engine.constructor`) until `onStart` runs.
- Config aliasing: `Engine.Init` keeps a reference to the configuration object, so later setter calls on it take effect. The pure traces instead model a configuration change as an explicit `Init` event.
