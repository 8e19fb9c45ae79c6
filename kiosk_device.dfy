/** The platform as ProUtils drives it: the calling activity, the device policy manager and
    the package manager, folded into one object whose fields the platform calls update. */
module KioskDevice {
  import opened AndroidApi
  import opened KioskSpec

  class Device {
    // What the platform reports; read afresh at every call.
    var sdkInt: int
    var isDeviceOwner: bool
    var hasPolicyManager: bool
    var hasAdminComponent: bool
    var hasActivityManager: bool
    const ownPackage: string
    const settingsPackage: string
    var launchable: set<string>

    // Which platform calls throw.
    var packagesFault: bool
    var featuresFault: bool
    var startFault: bool
    var stopFault: bool
    var launchFault: bool

    // What the platform holds.
    var lockTaskPackages: seq<string>
    var features: Option<bv32>
    var lockTaskMode: LockTaskMode
    var launched: seq<Intent>

    function Env(): DeviceEnv
      reads this
    {
      DeviceEnv(sdkInt, isDeviceOwner, hasPolicyManager, hasAdminComponent, hasActivityManager,
                ownPackage, settingsPackage, launchable,
                packagesFault, featuresFault, startFault, stopFault, launchFault)
    }

    function State(): PolicyState
      reads this
    {
      PolicyState(lockTaskPackages, features, lockTaskMode, launched)
    }

    constructor (env: DeviceEnv, st: PolicyState)
      ensures Env() == env && State() == st
    {
      sdkInt, isDeviceOwner := env.sdkInt, env.isDeviceOwner;
      hasPolicyManager, hasAdminComponent, hasActivityManager := env.hasPolicyManager, env.hasAdminComponent, env.hasActivityManager;
      ownPackage, settingsPackage, launchable := env.ownPackage, env.settingsPackage, env.launchable;
      packagesFault, featuresFault, startFault := env.packagesFault, env.featuresFault, env.startFault;
      stopFault, launchFault := env.stopFault, env.launchFault;
      lockTaskPackages, features, lockTaskMode, launched := st.lockTaskPackages, st.features, st.mode, st.launched;
    }

    /** DevicePolicyManager.setLockTaskPackages; `thrown` reports the exception. */
    method SetLockTaskPackages(packages: seq<string>) returns (thrown: bool)
      modifies this`lockTaskPackages
      ensures thrown == packagesFault
      ensures lockTaskPackages == if thrown then old(lockTaskPackages) else packages
    {
      thrown := packagesFault;
      if !thrown {
        lockTaskPackages := packages;
      }
    }

    /** DevicePolicyManager.setLockTaskFeatures. */
    method SetLockTaskFeatures(mask: bv32) returns (thrown: bool)
      modifies this`features
      ensures thrown == featuresFault
      ensures features == if thrown then old(features) else Some(mask)
    {
      thrown := featuresFault;
      if !thrown {
        features := Some(mask);
      }
    }

    /** Activity.startLockTask, called by a device owner whose own package is allowed, so
        the device enters the locked mode. */
    method StartLockTask() returns (thrown: bool)
      modifies this`lockTaskMode
      ensures thrown == startFault
      ensures lockTaskMode == if thrown then old(lockTaskMode) else LockTaskModeLocked
    {
      thrown := startFault;
      if !thrown {
        lockTaskMode := LockTaskModeLocked;
      }
    }

    /** Activity.stopLockTask. */
    method StopLockTask() returns (thrown: bool)
      modifies this`lockTaskMode
      ensures thrown == stopFault
      ensures lockTaskMode == if thrown then old(lockTaskMode) else LockTaskModeNone
    {
      thrown := stopFault;
      if !thrown {
        lockTaskMode := LockTaskModeNone;
      }
    }

    /** Activity.startActivity; the started intents are recorded in order. */
    method StartActivity(intent: Intent) returns (thrown: bool)
      modifies this`launched
      ensures thrown == launchFault
      ensures launched == if thrown then old(launched) else old(launched) + [intent]
    {
      thrown := launchFault;
      if !thrown {
        launched := launched + [intent];
      }
    }
  }
}
