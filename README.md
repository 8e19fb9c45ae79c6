# Kiosk mode (Lock Task Mode) logic of the Headwind MDM launcher, in Dafny

This project models the kiosk core of `ProUtils` in the Headwind MDM Android launcher. The
launcher uses Android's Lock Task Mode to pin a managed device to one kiosk app (COSU:
company owned, single use). The model covers:

- **the decision whether kiosk mode is required** (`kioskModeRequired`), the null/empty
  guard of `getKioskAppIntent`, and the API-level branch of `isKioskModeRunning`;
- **the lock task package list** the launcher submits: its own package first, then the
  kiosk app, then the settings app. `startCosuKioskMode` and `updateKioskAllowedApps` build
  this list in the same way;
- **the lock task feature mask** computed by `updateLockTaskFeatures` from the six optional
  kiosk flags of the server configuration. The power-menu bit has the inverted default;
- **the lock/unlock state machine**: `startCosuKioskMode`, `updateKioskOptions`,
  `updateKioskAllowedApps` and `unlockKiosk`. It covers their gates (API level, device
  owner, policy manager and admin component), the order of the platform calls, and what
  each platform exception leaves behind.

Layout, one module per file:

| file | module | what |
|---|---|---|
| android_api.dfy | AndroidApi | API levels (21, 23, 28), `LOCK_TASK_FEATURE_*` bits, intent flags, lock task modes, the launch-intent lookup as an oracle |
| lock_task_features.dfy | LockTaskFeatures | `ServerConfig`, the feature mask as a function, and the `\|=` accumulation as a method |
| allowed_packages.dfy | AllowedPackages | the package list as a function, and the successive `add`s as a method |
| kiosk_spec.dfy | KioskSpec | every operation as a pure function from what the platform reports (`DeviceEnv`) and what it holds (`PolicyState`) to the new state |
| kiosk_traces.dfy | KioskTraces | any sequence of calls, each against the platform as it is at that moment, and invariants proved by induction over it |
| kiosk_device.dfy | KioskDevice | class `Device`: activity, device policy manager and package manager as one object, with the platform calls as methods that may throw |
| pro_utils.dfy | ProUtils | the four operations and `updateLockTaskFeatures`, statement by statement, against a `Device`; each is proved to do exactly what its KioskSpec function says |

Platform exceptions are fault flags in the environment: `setLockTaskPackages`,
`setLockTaskFeatures`, `startLockTask`, `stopLockTask` and `startActivity` may each throw.
A platform call method returns `thrown` and changes nothing when it throws. The calling
operation then does what the source's `catch` does.

Some behaviour is kept as the code has it, even where an idealised description of a
lockdown controller would promise otherwise:

- The package list is not deduplicated. If the settings package is the launcher itself or
  the kiosk app and settings are enabled, it appears twice (`AllowListDuplicates`).
- If `startLockTask` throws, the call returns false. The package list and the feature mask
  that were already written stay written (`StartLockTaskFaultKeepsPolicy`).
- If `startActivity` throws after lock task mode has started, the call returns false while
  the device is locked (`StartCosu`, `LockAndLaunch`).
- A kiosk app without a launch intent still gives `true` (`MissingLaunchIntentStillStarts`).
- One `try` covers all of `unlockKiosk`. If `stopLockTask` throws, nothing changes: the lock
  task mode stays as it was and the package list is not cleared (`Unlock`).
- Failures are reported as `false` (or nothing, for the `void` operations), not as typed
  error kinds.

## Model

| member | source | states |
|---|---|---|
| `LockTaskFeatures.FeatureMaskBits` | app/src/main/java/com/hmdm/launcher/pro/ProUtils.java:520-546 | HOME, OVERVIEW, NOTIFICATIONS, SYSTEM_INFO and KEYGUARD are each set iff their flag is non-null and true; GLOBAL_ACTIONS iff lock buttons is null or false; no other bit is ever set |
| `LockTaskFeatures.FeatureMaskDeterminesFlags` | app/src/main/java/com/hmdm/launcher/pro/ProUtils.java:520-546 | two configurations give the same mask iff they agree on all six flags, null counting as false |
| `LockTaskFeatures.UnconfiguredAllowsOnlyGlobalActions` | app/src/main/java/com/hmdm/launcher/pro/ProUtils.java:543-546 | with no flag configured, only the power menu stays available |
| `LockTaskFeatures.ComputeLockTaskFeatures` | app/src/main/java/com/hmdm/launcher/pro/ProUtils.java:520-546 | the accumulation from LOCK_TASK_FEATURE_NONE by successive `\|=` yields exactly the feature mask |
| `AllowedPackages.AllowList` | app/src/main/java/com/hmdm/launcher/pro/ProUtils.java:325-334 | own package first; kiosk app second iff non-null and not the own package; settings package last iff enabled; length 1 + [kiosk added] + [settings]; membership characterised |
| `AllowedPackages.AllowListDuplicates` | app/src/main/java/com/hmdm/launcher/pro/ProUtils.java:325-334 | the list repeats an entry iff settings are enabled and the settings package is the own package or the added kiosk app |
| `AllowedPackages.BuildAllowList` | app/src/main/java/com/hmdm/launcher/pro/ProUtils.java:429-438 | the successive `add`s build exactly the allow list |
| `KioskSpec.KioskModeRequired` | app/src/main/java/com/hmdm/launcher/pro/ProUtils.java:67-86 | true iff API level >= 21, the configuration is non-null with kiosk mode on, and the app is device owner |
| `KioskSpec.KioskAppIntent` | app/src/main/java/com/hmdm/launcher/pro/ProUtils.java:280-293 | null for a null or empty package name; otherwise an intent for that package iff it has a launch intent; a resolved intent is the package manager's, with no flags of its own |
| `KioskSpec.IsKioskModeRunning` | app/src/main/java/com/hmdm/launcher/pro/ProUtils.java:258-275 | true iff API level >= 21, the activity manager exists and the lock task mode is not NONE; both API-level branches agree |
| `KioskSpec.KioskLaunch` | app/src/main/java/com/hmdm/launcher/pro/ProUtils.java:352-355 | the launched intent keeps its package and carries NEW_TASK and CLEAR_TOP; every other flag bit is the intent's own |
| `KioskSpec.ApplyLockTaskFeatures` | app/src/main/java/com/hmdm/launcher/pro/ProUtils.java:508-554 | only the feature mask can change; it changes only at API >= 28 with a non-null configuration; then, unless setLockTaskFeatures throws, it becomes the configuration's mask |
| `KioskSpec.StartCosu` | app/src/main/java/com/hmdm/launcher/pro/ProUtils.java:304-377 | a failed gate, or a throwing setLockTaskPackages, leaves everything unchanged and gives false; the result is true iff the gates pass and neither setLockTaskPackages, startLockTask nor a due kiosk launch throws; the package list is the allow list once it was written; past the gates and setLockTaskPackages the feature mask is what updateLockTaskFeatures writes; the mode is LOCKED exactly when the gates pass and neither setLockTaskPackages nor startLockTask throws, else unchanged; the kiosk app's launch (with NEW_TASK and CLEAR_TOP) is appended exactly when, beyond that, it is launchable and startActivity does not throw |
| `KioskSpec.LockAndLaunch` | app/src/main/java/com/hmdm/launcher/pro/ProUtils.java:346-366 | after startLockTask the mode is LOCKED unless it threw; the result is false iff startLockTask throws or the kiosk app is launchable and startActivity throws; the kiosk app's launch is appended exactly when startLockTask did not throw, the app is launchable and startActivity does not throw; packages and features are untouched |
| `KioskSpec.UpdateOptions` | app/src/main/java/com/hmdm/launcher/pro/ProUtils.java:383-407 | only the feature mask can change; it becomes the configuration's mask exactly when the API is >= 28, the device owner has policy manager and admin component, a configuration is given and setLockTaskFeatures does not throw; in every other case the state is unchanged |
| `KioskSpec.UpdateAllowedApps` | app/src/main/java/com/hmdm/launcher/pro/ProUtils.java:412-447 | only the package list can change: it becomes the allow list when the gates pass and setLockTaskPackages does not throw, else it stays |
| `KioskSpec.Unlock` | app/src/main/java/com/hmdm/launcher/pro/ProUtils.java:452-478 | at API >= 21, unless stopLockTask throws, the mode becomes NONE, and the package list is cleared iff owner with policy manager and admin component and setLockTaskPackages does not throw; otherwise nothing changes |
| `KioskSpec.KioskModeRequiredPassesGates` | app/src/main/java/com/hmdm/launcher/pro/ProUtils.java:305-322 | when kiosk mode is required and the policy manager and admin component exist, startCosuKioskMode passes all its gates |
| `KioskSpec.StartMakesKioskModeRun` | app/src/main/java/com/hmdm/launcher/pro/ProUtils.java:346-348 | after a successful start, isKioskModeRunning is true iff the activity manager exists |
| `KioskSpec.StartThenUnlock` | app/src/main/java/com/hmdm/launcher/pro/ProUtils.java:452-478 | start then unlock on an owner device without package/stop faults ends with mode NONE, an empty package list, and kiosk mode not running |
| `KioskSpec.StartLockTaskFaultKeepsPolicy` | app/src/main/java/com/hmdm/launcher/pro/ProUtils.java:336-347 | when startLockTask throws the result is false, the mode is unchanged, but the package list (and at API >= 28 the feature mask) already written stay |
| `KioskSpec.MissingLaunchIntentStillStarts` | app/src/main/java/com/hmdm/launcher/pro/ProUtils.java:350-366 | a kiosk app with no launch intent still yields true and locked mode, and nothing is launched |
| `KioskSpec.UpdateAllowedAppsMatchesStart` | app/src/main/java/com/hmdm/launcher/pro/ProUtils.java:429-441 | updateKioskAllowedApps writes the same list startCosuKioskMode writes for the same inputs |
| `KioskSpec.UpdateAllowedAppsIdempotent` | app/src/main/java/com/hmdm/launcher/pro/ProUtils.java:412-447 | a second identical updateKioskAllowedApps changes nothing |
| `KioskSpec.UpdateOptionsIdempotent` | app/src/main/java/com/hmdm/launcher/pro/ProUtils.java:383-407 | a second identical updateKioskOptions changes nothing |
| `KioskTraces.PreLollipopChangesNothing` | app/src/main/java/com/hmdm/launcher/pro/ProUtils.java:304-478 | below API 21, no sequence of kiosk calls changes any platform state |
| `KioskTraces.PrePieKeepsFeatures` | app/src/main/java/com/hmdm/launcher/pro/ProUtils.java:508-518 | below API 28, no sequence of calls writes the feature mask |
| `KioskTraces.NonOwnerKeepsPolicy` | app/src/main/java/com/hmdm/launcher/pro/ProUtils.java:304-478 | without device owner rights, no sequence of calls changes the package list, the feature mask or the launched apps |
| `KioskTraces.LauncherStaysAllowed` | app/src/main/java/com/hmdm/launcher/pro/ProUtils.java:324-478 | over any sequence of calls, whenever the device is in locked mode the launcher's own package heads the package list |
| `KioskTraces.RepeatedAllowedAppsUpdates` | app/src/main/java/com/hmdm/launcher/pro/ProUtils.java:412-447 | any number (at least one) of identical updateKioskAllowedApps calls leaves what one call leaves |
| `KioskTraces.RepeatedOptionsUpdates` | app/src/main/java/com/hmdm/launcher/pro/ProUtils.java:383-407 | any number (at least one) of identical updateKioskOptions calls leaves what one call leaves |
| `ProUtils.UpdateLockTaskFeatures` | app/src/main/java/com/hmdm/launcher/pro/ProUtils.java:508-554 | the device state afterwards is exactly `ApplyLockTaskFeatures` of the state before |
| `ProUtils.StartCosuKioskMode` | app/src/main/java/com/hmdm/launcher/pro/ProUtils.java:304-377 | the result and the new device state are exactly `StartCosu` of the state before; the platform's reported capabilities are unchanged |
| `ProUtils.LockTaskAndLaunch` | app/src/main/java/com/hmdm/launcher/pro/ProUtils.java:346-366 | the result and new state are exactly `LockAndLaunch` of the state before |
| `ProUtils.UpdateKioskOptions` | app/src/main/java/com/hmdm/launcher/pro/ProUtils.java:383-407 | the new device state is exactly `UpdateOptions` of the state before |
| `ProUtils.UpdateKioskAllowedApps` | app/src/main/java/com/hmdm/launcher/pro/ProUtils.java:412-447 | the new device state is exactly `UpdateAllowedApps` of the state before |
| `ProUtils.UnlockKiosk` | app/src/main/java/com/hmdm/launcher/pro/ProUtils.java:452-478 | the new device state is exactly `Unlock` of the state before |
| `ProUtils.KioskRoundTrip` | app/src/main/java/com/hmdm/launcher/pro/ProUtils.java:452-478 | a caller that starts and then unlocks an owner device without package/stop faults ends with mode NONE and an empty package list |

## Left out

- Overlay creation (`preventStatusBarExpansion`, `preventApplicationsList`, `createKioskUnlockButton`) and `getStatusBarHeight`: window-manager and view plumbing with thread affinity and float density scaling, outside the lock task state.
- `isKioskAppInstalled` and `isPackageInstalled`: package-manager queries. `ServerConfig` therefore has no `mainApp` field, since only `isKioskAppInstalled` reads it. The launch-intent lookup is an oracle, the set `launchable`, and a resolved intent carries no flags of its own.
- `Log` and `RemoteLogger` calls: I/O. The different log severity for a missing launch intent is therefore not visible in the model.
- Stubs and no-ops: `isPro`, `initCrashlytics`, `sendExceptionToCrashlytics`, `checkAccessibilityService`, `checkUsageStatistics`, `processConfig`, `processLocation`. Resource and clock reads: `getAppName`, `getCopyright`.
- The `SettingsHelper` singleton: the configuration is passed to each operation as an `Option<ServerConfig>`. Const.java is not part of this model, so `Const.SETTINGS_PACKAGE_NAME` is an environment field.
- Exceptions from `getSystemService`, `getAdminComponentName`, `RemoteLogger.log`, `Utils.isDeviceOwner`, `getPackageManager`/`getLaunchIntentForPackage` and `SettingsHelper.getInstance`/`getConfig`: none of these is modelled as throwing (in `startCosuKioskMode` the `isDeviceOwner` call sits outside the `try`, so an exception there would escape rather than give `false`); only the five platform calls named above may throw. A fault flag holds for a whole call, so the same flag governs every `setLockTaskPackages` within one call.
- `Device.StartLockTask`: the platform is taken to enter LOCKED mode, because the caller is always device owner with its own package allowed. PINNED mode can only come from outside these operations.
- Concurrency: the operations are taken to run one at a time on the UI thread, as the source assumes.
- The distinction between `SecurityException` and other exceptions in `startCosuKioskMode`: both give `false` and the same state.
