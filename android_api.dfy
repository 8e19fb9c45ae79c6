/** Platform values the kiosk logic depends on: API levels, lock-task feature bits, intent
    flags and the package manager's launch-intent lookup, with the values the Android SDK
    gives them. */
module AndroidApi {

  /** A Java reference that may be null. */
  datatype Option<+T> = None | Some(value: T)

  // Build.VERSION_CODES
  const Lollipop: int := 21
  const Marshmallow: int := 23
  const Pie: int := 28

  // DevicePolicyManager.LOCK_TASK_FEATURE_* (a Java int, so 32 bits)
  const FeatureNone: bv32 := 0
  const FeatureSystemInfo: bv32 := 1
  const FeatureNotifications: bv32 := 2
  const FeatureHome: bv32 := 4
  const FeatureOverview: bv32 := 8
  const FeatureGlobalActions: bv32 := 16
  const FeatureKeyguard: bv32 := 32

  /** The six feature bits the kiosk logic may set. */
  const KioskFeatureBits: bv32 :=
    FeatureSystemInfo | FeatureNotifications | FeatureHome | FeatureOverview | FeatureGlobalActions | FeatureKeyguard

  // Intent.FLAG_ACTIVITY_*
  const FlagActivityNewTask: bv32 := 0x1000_0000
  const FlagActivityClearTop: bv32 := 0x0400_0000

  /** ActivityManager.LOCK_TASK_MODE_NONE, _LOCKED and _PINNED. */
  datatype LockTaskMode = LockTaskModeNone | LockTaskModeLocked | LockTaskModePinned

  /** A launch request for a package, with its intent flags. */
  datatype Intent = Intent(package: string, flags: bv32)

  /** PackageManager.getLaunchIntentForPackage, as an oracle: the packages in `launchable`
      resolve to an intent with no flags set, every other name to null. */
  function LaunchIntentForPackage(launchable: set<string>, pkg: string): Option<Intent>
  {
    if pkg in launchable then Some(Intent(pkg, 0)) else None
  }

  /** ActivityManager.isInLockTaskMode, the query used below API 23: true in both the
      locked and the pinned mode. */
  predicate IsInLockTaskMode(mode: LockTaskMode)
  {
    mode != LockTaskModeNone
  }
}
