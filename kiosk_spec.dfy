/** The kiosk decisions and the lock/unlock state machine of ProUtils as pure functions over
    what the platform reports (DeviceEnv) and what the device policy holds (PolicyState).
    The methods of module ProUtils are proved to behave exactly as these functions say. */
module KioskSpec {
  import opened AndroidApi
  import opened LockTaskFeatures
  import opened AllowedPackages

  /** What a call observes of the platform. The capabilities are read afresh at every call;
      each `...Fault` says that the named platform call throws. */
  datatype DeviceEnv = DeviceEnv(
    sdkInt: int,                 // Build.VERSION.SDK_INT
    isDeviceOwner: bool,         // Utils.isDeviceOwner
    hasPolicyManager: bool,      // getSystemService(DEVICE_POLICY_SERVICE) != null
    hasAdminComponent: bool,     // LegacyUtils.getAdminComponentName != null
    hasActivityManager: bool,    // getSystemService(ACTIVITY_SERVICE) != null
    ownPackage: string,          // activity.getPackageName()
    settingsPackage: string,     // Const.SETTINGS_PACKAGE_NAME
    launchable: set<string>,     // packages with a launch intent
    packagesFault: bool,         // setLockTaskPackages throws
    featuresFault: bool,         // setLockTaskFeatures throws
    startFault: bool,            // startLockTask throws
    stopFault: bool,             // stopLockTask throws
    launchFault: bool)           // startActivity throws

  /** What the platform holds after a call: the lock task package list, the feature mask
      (None until one is first set), the lock task mode, and the intents started so far. */
  datatype PolicyState = PolicyState(
    lockTaskPackages: seq<string>,
    features: Option<bv32>,
    mode: LockTaskMode,
    launched: seq<Intent>)

  /** Both the device policy manager and the admin component are available. */
  predicate AdminReady(env: DeviceEnv)
  {
    env.hasPolicyManager && env.hasAdminComponent
  }

  /** The three gates of startCosuKioskMode and updateKioskAllowedApps, in their order. */
  predicate LockGatesPass(env: DeviceEnv)
  {
    env.sdkInt >= Lollipop && env.isDeviceOwner && AdminReady(env)
  }

  // ---------------------------------------------------------------- queries

  /** kioskModeRequired. */
  function KioskModeRequired(sdkInt: int, isDeviceOwner: bool, config: Option<ServerConfig>): (required: bool)
    ensures required <==> sdkInt >= Lollipop && config != None && config.value.kioskMode && isDeviceOwner
  {
    if sdkInt < Lollipop then false
    else if config == None || !config.value.kioskMode then false
    else if !isDeviceOwner then false
    else true
  }

  /** getKioskAppIntent: null for a null or empty package name, else the package manager's
      launch intent, which may itself be null. */
  function KioskAppIntent(kioskApp: Option<string>, launchable: set<string>): (intent: Option<Intent>)
    ensures kioskApp == None || kioskApp.value == "" ==> intent == None
    ensures intent != None <==> kioskApp != None && kioskApp.value != "" && kioskApp.value in launchable
    ensures intent != None ==> intent.value.package == kioskApp.value && intent.value.flags == 0
  {
    if kioskApp == None || |kioskApp.value| == 0 then None
    else LaunchIntentForPackage(launchable, kioskApp.value)
  }

  /** isKioskModeRunning: from API 23 the lock task mode state is compared with
      LOCK_TASK_MODE_NONE, below it the older isInLockTaskMode is asked. */
  function IsKioskModeRunning(sdkInt: int, hasActivityManager: bool, mode: LockTaskMode): (running: bool)
    ensures running <==> sdkInt >= Lollipop && hasActivityManager && mode != LockTaskModeNone
  {
    if sdkInt < Lollipop then false
    else if !hasActivityManager then false
    else if sdkInt >= Marshmallow then mode != LockTaskModeNone
    else IsInLockTaskMode(mode)
  }

  // ---------------------------------------------------------------- operations

  /** The intent startCosuKioskMode starts: the launch intent with NEW_TASK and CLEAR_TOP
      added. */
  function KioskLaunch(intent: Intent): (launch: Intent)
    ensures launch.package == intent.package
    ensures launch.flags & FlagActivityNewTask != 0 && launch.flags & FlagActivityClearTop != 0
    ensures launch.flags & !(FlagActivityNewTask | FlagActivityClearTop) == intent.flags & !(FlagActivityNewTask | FlagActivityClearTop)
  {
    intent.(flags := intent.flags | FlagActivityNewTask | FlagActivityClearTop)
  }

  /** updateLockTaskFeatures: below API 28 or without a configuration nothing is written; a
      fault in setLockTaskFeatures is caught there and also leaves the mask as it was. */
  function ApplyLockTaskFeatures(env: DeviceEnv, st: PolicyState, config: Option<ServerConfig>): (after: PolicyState)
    ensures after.lockTaskPackages == st.lockTaskPackages && after.mode == st.mode && after.launched == st.launched
    ensures after.features != st.features ==> env.sdkInt >= Pie && config != None
    ensures env.sdkInt >= Pie && config != None && !env.featuresFault ==> after.features == Some(FeatureMask(config.value))
    ensures env.sdkInt < Pie || config == None || env.featuresFault ==> after == st
  {
    if env.sdkInt < Pie then st
    else if config == None then st
    else if env.featuresFault then st
    else st.(features := Some(FeatureMask(config.value)))
  }

  /** The result of startCosuKioskMode and the state it leaves behind. */
  datatype StartOutcome = StartOutcome(started: bool, after: PolicyState)

  /** The kiosk app is launched after lock task mode starts: it gets its own allow-list entry
      and has a launch intent. */
  predicate LaunchesKioskApp(env: DeviceEnv, kioskApp: Option<string>)
  {
    KioskAppAdded(env.ownPackage, kioskApp) && kioskApp.value in env.launchable
  }

  /** startCosuKioskMode. The gates are checked in order; then the package list is set, the
      features are set (API 28 and up), lock task mode is started and the kiosk app is
      launched. An exception at any of these steps makes the call return false, and what was
      written before it stays written. */
  function StartCosu(env: DeviceEnv, st: PolicyState, kioskApp: Option<string>, enableSettings: bool, config: Option<ServerConfig>)
    : (out: StartOutcome)
    ensures !LockGatesPass(env) ==> out == StartOutcome(false, st)
    ensures out.started <==> LockGatesPass(env) && !env.packagesFault && !env.startFault
                             && !(LaunchesKioskApp(env, kioskApp) && env.launchFault)
    ensures LockGatesPass(env) && !env.packagesFault
            ==> out.after.lockTaskPackages == AllowList(env.ownPackage, kioskApp, enableSettings, env.settingsPackage)
    ensures out.started ==> out.after.mode == LockTaskModeLocked
    ensures out.after.features != st.features ==> env.sdkInt >= Pie && config != None && LockGatesPass(env)
    ensures LockGatesPass(env) && env.packagesFault ==> out == StartOutcome(false, st)
    ensures LockGatesPass(env) && !env.packagesFault ==> out.after.features == ApplyLockTaskFeatures(env, st, config).features
    ensures out.after.mode == if LockGatesPass(env) && !env.packagesFault && !env.startFault then LockTaskModeLocked else st.mode
    ensures out.after.launched
            == if LockGatesPass(env) && !env.packagesFault && !env.startFault && LaunchesKioskApp(env, kioskApp) && !env.launchFault
               then st.launched + [KioskLaunch(Intent(kioskApp.value, 0))]
               else st.launched
  {
    if env.sdkInt < Lollipop then StartOutcome(false, st)
    else if !env.isDeviceOwner then StartOutcome(false, st)
    else if !AdminReady(env) then StartOutcome(false, st)
    else if env.packagesFault then StartOutcome(false, st)
    else
      var listed := st.(lockTaskPackages := AllowList(env.ownPackage, kioskApp, enableSettings, env.settingsPackage));
      var configured := if env.sdkInt >= Pie then ApplyLockTaskFeatures(env, listed, config) else listed;
      LockAndLaunch(env, configured, kioskApp)
  }

  /** The tail of startCosuKioskMode, once the package list and features are set: start lock
      task mode, then launch the kiosk app if it has its own entry and a launch intent. */
  function LockAndLaunch(env: DeviceEnv, st: PolicyState, kioskApp: Option<string>): (out: StartOutcome)
    ensures out.started <==> !env.startFault && !(LaunchesKioskApp(env, kioskApp) && env.launchFault)
    ensures out.after.lockTaskPackages == st.lockTaskPackages && out.after.features == st.features
    ensures out.after.mode == if env.startFault then st.mode else LockTaskModeLocked
    ensures out.after.launched
            == if !env.startFault && LaunchesKioskApp(env, kioskApp) && !env.launchFault
               then st.launched + [KioskLaunch(Intent(kioskApp.value, 0))]
               else st.launched
  {
    if env.startFault then StartOutcome(false, st)
    else
      var locked := st.(mode := LockTaskModeLocked);
      if KioskAppAdded(env.ownPackage, kioskApp) then
        match LaunchIntentForPackage(env.launchable, kioskApp.value)
        case None => StartOutcome(true, locked)
        case Some(intent) =>
          if env.launchFault then StartOutcome(false, locked)
          else StartOutcome(true, locked.(launched := locked.launched + [KioskLaunch(intent)]))
      else StartOutcome(true, locked)
  }

  /** updateKioskOptions: API 28 and up, device owner, policy manager and admin component,
      then updateLockTaskFeatures. Only the feature mask can change. */
  function UpdateOptions(env: DeviceEnv, st: PolicyState, config: Option<ServerConfig>): (after: PolicyState)
    ensures after.lockTaskPackages == st.lockTaskPackages && after.mode == st.mode && after.launched == st.launched
    ensures after.features != st.features
            ==> env.sdkInt >= Pie && env.isDeviceOwner && AdminReady(env) && config != None
                && after.features == Some(FeatureMask(config.value))
    ensures env.sdkInt >= Pie && env.isDeviceOwner && AdminReady(env) && config != None && !env.featuresFault
            ==> after.features == Some(FeatureMask(config.value))
    ensures !(env.sdkInt >= Pie && env.isDeviceOwner && AdminReady(env) && config != None && !env.featuresFault)
            ==> after == st
  {
    if env.sdkInt < Pie then st
    else if !env.isDeviceOwner then st
    else if !AdminReady(env) then st
    else ApplyLockTaskFeatures(env, st, config)
  }

  /** updateKioskAllowedApps: the gates of startCosuKioskMode, then the same package list is
      set. Only the package list can change; a fault leaves it as it was. */
  function UpdateAllowedApps(env: DeviceEnv, st: PolicyState, kioskApp: Option<string>, enableSettings: bool): (after: PolicyState)
    ensures after.features == st.features && after.mode == st.mode && after.launched == st.launched
    ensures after.lockTaskPackages
            == if LockGatesPass(env) && !env.packagesFault
               then AllowList(env.ownPackage, kioskApp, enableSettings, env.settingsPackage)
               else st.lockTaskPackages
  {
    if env.sdkInt < Lollipop then st
    else if !env.isDeviceOwner then st
    else if !AdminReady(env) then st
    else if env.packagesFault then st
    else st.(lockTaskPackages := AllowList(env.ownPackage, kioskApp, enableSettings, env.settingsPackage))
  }

  /** unlockKiosk: stop lock task mode and, for a device owner with policy manager and admin
      component, clear the package list. One try block covers both, so a fault in
      stopLockTask skips the clearing too. */
  function Unlock(env: DeviceEnv, st: PolicyState): (after: PolicyState)
    ensures after.features == st.features && after.launched == st.launched
    ensures after.mode == if env.sdkInt >= Lollipop && !env.stopFault then LockTaskModeNone else st.mode
    ensures after.lockTaskPackages
            == if env.sdkInt >= Lollipop && !env.stopFault && env.isDeviceOwner && AdminReady(env) && !env.packagesFault
               then []
               else st.lockTaskPackages
  {
    if env.sdkInt < Lollipop then st
    else if env.stopFault then st
    else
      var stopped := st.(mode := LockTaskModeNone);
      if env.isDeviceOwner && AdminReady(env) && !env.packagesFault then stopped.(lockTaskPackages := [])
      else stopped
  }

  // ---------------------------------------------------------------- properties

  /** When kiosk mode is required and the policy manager and admin component are there,
      startCosuKioskMode gets past all its gates. */
  lemma KioskModeRequiredPassesGates(env: DeviceEnv, config: Option<ServerConfig>)
    requires KioskModeRequired(env.sdkInt, env.isDeviceOwner, config) && AdminReady(env)
    ensures LockGatesPass(env)
  {
  }

  /** A successful start leaves the device in lock task mode, as isKioskModeRunning sees it
      wherever the activity manager is available. */
  lemma StartMakesKioskModeRun(env: DeviceEnv, st: PolicyState, kioskApp: Option<string>, enableSettings: bool, config: Option<ServerConfig>)
    requires StartCosu(env, st, kioskApp, enableSettings, config).started
    ensures IsKioskModeRunning(env.sdkInt, env.hasActivityManager, StartCosu(env, st, kioskApp, enableSettings, config).after.mode)
            <==> env.hasActivityManager
  {
  }

  /** Start followed by unlock on an owner device without faults: lock task mode is off and
      the package list is empty again. */
  lemma StartThenUnlock(env: DeviceEnv, st: PolicyState, kioskApp: Option<string>, enableSettings: bool, config: Option<ServerConfig>)
    requires LockGatesPass(env) && !env.packagesFault && !env.stopFault
    ensures var after := Unlock(env, StartCosu(env, st, kioskApp, enableSettings, config).after);
            after.mode == LockTaskModeNone && after.lockTaskPackages == []
            && !IsKioskModeRunning(env.sdkInt, env.hasActivityManager, after.mode)
  {
  }

  /** When startLockTask throws, the call reports failure but the package list (and, from
      API 28, the feature mask) it wrote first stays written. */
  lemma StartLockTaskFaultKeepsPolicy(env: DeviceEnv, st: PolicyState, kioskApp: Option<string>, enableSettings: bool, config: Option<ServerConfig>)
    requires LockGatesPass(env) && !env.packagesFault && env.startFault
    ensures var out := StartCosu(env, st, kioskApp, enableSettings, config);
            && !out.started
            && out.after.lockTaskPackages == AllowList(env.ownPackage, kioskApp, enableSettings, env.settingsPackage)
            && out.after.mode == st.mode
            && (env.sdkInt >= Pie && config != None && !env.featuresFault ==> out.after.features == Some(FeatureMask(config.value)))
  {
  }

  /** A kiosk app without a launch intent still counts as a successful start. */
  lemma MissingLaunchIntentStillStarts(env: DeviceEnv, st: PolicyState, kioskApp: Option<string>, enableSettings: bool, config: Option<ServerConfig>)
    requires LockGatesPass(env) && !env.packagesFault && !env.startFault
    requires KioskAppAdded(env.ownPackage, kioskApp) && kioskApp.value !in env.launchable
    ensures var out := StartCosu(env, st, kioskApp, enableSettings, config);
            out.started && out.after.mode == LockTaskModeLocked && out.after.launched == st.launched
  {
  }

  /** updateKioskAllowedApps writes the very list startCosuKioskMode writes for the same
      inputs, whatever either started from. */
  lemma UpdateAllowedAppsMatchesStart(env: DeviceEnv, st1: PolicyState, st2: PolicyState,
                                      kioskApp: Option<string>, enableSettings: bool, config: Option<ServerConfig>)
    requires LockGatesPass(env) && !env.packagesFault
    ensures UpdateAllowedApps(env, st1, kioskApp, enableSettings).lockTaskPackages
            == StartCosu(env, st2, kioskApp, enableSettings, config).after.lockTaskPackages
  {
  }

  /** Repeating updateKioskAllowedApps with the same inputs changes nothing more. */
  lemma UpdateAllowedAppsIdempotent(env: DeviceEnv, st: PolicyState, kioskApp: Option<string>, enableSettings: bool)
    ensures var once := UpdateAllowedApps(env, st, kioskApp, enableSettings);
            UpdateAllowedApps(env, once, kioskApp, enableSettings) == once
  {
  }

  /** Repeating updateKioskOptions with the same configuration changes nothing more. */
  lemma UpdateOptionsIdempotent(env: DeviceEnv, st: PolicyState, config: Option<ServerConfig>)
    ensures var once := UpdateOptions(env, st, config);
            UpdateOptions(env, once, config) == once
  {
  }
}
