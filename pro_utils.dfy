/** The lock task operations of ProUtils, statement by statement, against the platform
    object. Each is proved to leave exactly the state (and give exactly the result) that the
    matching function of KioskSpec describes, so every property proved there holds of them. */
module ProUtils {
  import opened AndroidApi
  import opened LockTaskFeatures
  import opened AllowedPackages
  import opened KioskSpec
  import opened KioskDevice

  /** updateLockTaskFeatures. */
  method UpdateLockTaskFeatures(d: Device, config: Option<ServerConfig>)
    modifies d`features
    ensures d.State() == ApplyLockTaskFeatures(d.Env(), old(d.State()), config)
  {
    if d.sdkInt < Pie {
      return;
    }
    if config == None {
      return;
    }
    var mask := ComputeLockTaskFeatures(config.value);
    var thrown := d.SetLockTaskFeatures(mask);
  }

  /** startCosuKioskMode. */
  method StartCosuKioskMode(d: Device, kioskApp: Option<string>, enableSettings: bool, config: Option<ServerConfig>)
    returns (started: bool)
    modifies d`lockTaskPackages, d`features, d`lockTaskMode, d`launched
    ensures d.Env() == old(d.Env())
    ensures StartOutcome(started, d.State()) == StartCosu(d.Env(), old(d.State()), kioskApp, enableSettings, config)
  {
    if d.sdkInt < Lollipop {
      return false;
    }
    if !d.isDeviceOwner {
      return false;
    }
    if !d.hasPolicyManager || !d.hasAdminComponent {
      return false;
    }
    ghost var env := d.Env();
    var packages := BuildAllowList(d.ownPackage, kioskApp, enableSettings, d.settingsPackage);
    var thrown := d.SetLockTaskPackages(packages);
    if thrown {
      return false;
    }
    ghost var listed := old(d.State()).(lockTaskPackages := packages);
    assert d.State() == listed;
    if d.sdkInt >= Pie {
      UpdateLockTaskFeatures(d, config);
    }
    ghost var configured := if env.sdkInt >= Pie then ApplyLockTaskFeatures(env, listed, config) else listed;
    assert d.State() == configured;
    started := LockTaskAndLaunch(d, kioskApp);
  }

  /** The statements of startCosuKioskMode from startLockTask on. */
  method LockTaskAndLaunch(d: Device, kioskApp: Option<string>) returns (started: bool)
    modifies d`lockTaskMode, d`launched
    ensures StartOutcome(started, d.State()) == LockAndLaunch(d.Env(), old(d.State()), kioskApp)
  {
    var thrown := d.StartLockTask();
    if thrown {
      return false;
    }
    if kioskApp != None && kioskApp.value != d.ownPackage {
      var intent := LaunchIntentForPackage(d.launchable, kioskApp.value);
      if intent != None {
        thrown := d.StartActivity(KioskLaunch(intent.value));
        if thrown {
          return false;
        }
      }
    }
    return true;
  }

  /** updateKioskOptions. */
  method UpdateKioskOptions(d: Device, config: Option<ServerConfig>)
    modifies d`features
    ensures d.State() == UpdateOptions(d.Env(), old(d.State()), config)
  {
    if d.sdkInt < Pie {
      return;
    }
    if !d.isDeviceOwner {
      return;
    }
    if !d.hasPolicyManager || !d.hasAdminComponent {
      return;
    }
    UpdateLockTaskFeatures(d, config);
  }

  /** updateKioskAllowedApps. */
  method UpdateKioskAllowedApps(d: Device, kioskApp: Option<string>, enableSettings: bool)
    modifies d`lockTaskPackages
    ensures d.State() == UpdateAllowedApps(d.Env(), old(d.State()), kioskApp, enableSettings)
  {
    if d.sdkInt < Lollipop {
      return;
    }
    if !d.isDeviceOwner {
      return;
    }
    if !d.hasPolicyManager || !d.hasAdminComponent {
      return;
    }
    var packages := BuildAllowList(d.ownPackage, kioskApp, enableSettings, d.settingsPackage);
    var thrown := d.SetLockTaskPackages(packages);
  }

  /** unlockKiosk. */
  method UnlockKiosk(d: Device)
    modifies d`lockTaskPackages, d`lockTaskMode
    ensures d.State() == Unlock(d.Env(), old(d.State()))
  {
    if d.sdkInt < Lollipop {
      return;
    }
    var thrown := d.StopLockTask();
    if thrown {
      return;
    }
    if d.isDeviceOwner {
      if d.hasPolicyManager && d.hasAdminComponent {
        thrown := d.SetLockTaskPackages([]);
      }
    }
  }

  /** A caller that enters kiosk mode and leaves it again on an owner device whose
      setLockTaskPackages and stopLockTask do not throw: from the contracts above alone, the
      device ends unlocked with an empty package list. */
  method KioskRoundTrip(d: Device, kioskApp: Option<string>, enableSettings: bool, config: Option<ServerConfig>)
    returns (started: bool)
    requires LockGatesPass(d.Env()) && !d.packagesFault && !d.stopFault
    modifies d`lockTaskPackages, d`features, d`lockTaskMode, d`launched
    ensures d.Env() == old(d.Env())
    ensures started == StartCosu(d.Env(), old(d.State()), kioskApp, enableSettings, config).started
    ensures d.lockTaskMode == LockTaskModeNone && d.lockTaskPackages == []
  {
    started := StartCosuKioskMode(d, kioskApp, enableSettings, config);
    UnlockKiosk(d);
  }
}
