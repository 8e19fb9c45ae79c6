/** The server configuration the kiosk logic reads, and the lock-task feature mask derived
    from it (ProUtils.updateLockTaskFeatures). */
module LockTaskFeatures {
  import opened AndroidApi

  /** The part of ServerConfig the kiosk logic reads. The six kiosk flags are boxed
      Booleans in the source: `None` stands for null ("not configured"). */
  datatype ServerConfig = ServerConfig(
    kioskMode: bool,
    kioskHome: Option<bool>,
    kioskRecents: Option<bool>,
    kioskNotifications: Option<bool>,
    kioskSystemInfo: Option<bool>,
    kioskKeyguard: Option<bool>,
    kioskLockButtons: Option<bool>)

  /** `flag != null && flag`: an absent flag reads as false. */
  predicate IsSetTrue(flag: Option<bool>)
  {
    flag != None && flag.value
  }

  /** `bit` if `cond` holds, no feature otherwise. */
  function FeatureIf(cond: bool, bit: bv32): bv32
  {
    if cond then bit else FeatureNone
  }

  /** The mask handed to setLockTaskFeatures: each feature the configuration allows, or-ed
      together. */
  function FeatureMask(c: ServerConfig): bv32
  {
    FeatureIf(IsSetTrue(c.kioskHome), FeatureHome)
    | FeatureIf(IsSetTrue(c.kioskRecents), FeatureOverview)
    | FeatureIf(IsSetTrue(c.kioskNotifications), FeatureNotifications)
    | FeatureIf(IsSetTrue(c.kioskSystemInfo), FeatureSystemInfo)
    | FeatureIf(IsSetTrue(c.kioskKeyguard), FeatureKeyguard)
    | FeatureIf(c.kioskLockButtons == None || !c.kioskLockButtons.value, FeatureGlobalActions)
  }

  /** Each "allow" flag sets its feature bit exactly when it is present and true; the power
      menu (global actions) bit is set exactly when lock buttons is absent or false, the
      opposite default; no bit outside the six kiosk features is ever set. */
  lemma FeatureMaskBits(c: ServerConfig)
    ensures (FeatureMask(c) & FeatureHome != 0) <==> IsSetTrue(c.kioskHome)
    ensures (FeatureMask(c) & FeatureOverview != 0) <==> IsSetTrue(c.kioskRecents)
    ensures (FeatureMask(c) & FeatureNotifications != 0) <==> IsSetTrue(c.kioskNotifications)
    ensures (FeatureMask(c) & FeatureSystemInfo != 0) <==> IsSetTrue(c.kioskSystemInfo)
    ensures (FeatureMask(c) & FeatureKeyguard != 0) <==> IsSetTrue(c.kioskKeyguard)
    ensures (FeatureMask(c) & FeatureGlobalActions != 0) <==> (c.kioskLockButtons == None || c.kioskLockButtons == Some(false))
    ensures FeatureMask(c) & !KioskFeatureBits == 0
  {
  }

  /** The six flags as the mask sees them, each absent flag read as false. */
  predicate SameFeatureFlags(c1: ServerConfig, c2: ServerConfig)
  {
    && IsSetTrue(c1.kioskHome) == IsSetTrue(c2.kioskHome)
    && IsSetTrue(c1.kioskRecents) == IsSetTrue(c2.kioskRecents)
    && IsSetTrue(c1.kioskNotifications) == IsSetTrue(c2.kioskNotifications)
    && IsSetTrue(c1.kioskSystemInfo) == IsSetTrue(c2.kioskSystemInfo)
    && IsSetTrue(c1.kioskKeyguard) == IsSetTrue(c2.kioskKeyguard)
    && IsSetTrue(c1.kioskLockButtons) == IsSetTrue(c2.kioskLockButtons)
  }

  /** The mask carries exactly the information of the six flags: two configurations give
      the same mask if and only if they agree on every flag, absent counting as false. */
  lemma FeatureMaskDeterminesFlags(c1: ServerConfig, c2: ServerConfig)
    ensures FeatureMask(c1) == FeatureMask(c2) <==> SameFeatureFlags(c1, c2)
  {
    FeatureMaskBits(c1);
    FeatureMaskBits(c2);
    var m1, m2 := FeatureMask(c1), FeatureMask(c2);
    if m1 == m2 {
      assert m1 & FeatureHome == m2 & FeatureHome;
      assert m1 & FeatureOverview == m2 & FeatureOverview;
      assert m1 & FeatureNotifications == m2 & FeatureNotifications;
      assert m1 & FeatureSystemInfo == m2 & FeatureSystemInfo;
      assert m1 & FeatureKeyguard == m2 & FeatureKeyguard;
      assert m1 & FeatureGlobalActions == m2 & FeatureGlobalActions;
    }
  }

  /** A configuration with no kiosk flag set allows only the power menu. */
  lemma UnconfiguredAllowsOnlyGlobalActions(c: ServerConfig)
    requires c.kioskHome == c.kioskRecents == c.kioskNotifications == None
    requires c.kioskSystemInfo == c.kioskKeyguard == c.kioskLockButtons == None
    ensures FeatureMask(c) == FeatureGlobalActions
  {
  }

  /** The accumulation of updateLockTaskFeatures: start from no feature and or-in each
      allowed feature in turn. */
  method ComputeLockTaskFeatures(c: ServerConfig) returns (features: bv32)
    ensures features == FeatureMask(c)
  {
    features := FeatureNone;
    if c.kioskHome != None && c.kioskHome.value {
      features := features | FeatureHome;
    }
    ghost var upTo := FeatureIf(IsSetTrue(c.kioskHome), FeatureHome);
    assert features == upTo;
    if c.kioskRecents != None && c.kioskRecents.value {
      features := features | FeatureOverview;
    }
    upTo := upTo | FeatureIf(IsSetTrue(c.kioskRecents), FeatureOverview);
    assert features == upTo;
    if c.kioskNotifications != None && c.kioskNotifications.value {
      features := features | FeatureNotifications;
    }
    upTo := upTo | FeatureIf(IsSetTrue(c.kioskNotifications), FeatureNotifications);
    assert features == upTo;
    if c.kioskSystemInfo != None && c.kioskSystemInfo.value {
      features := features | FeatureSystemInfo;
    }
    upTo := upTo | FeatureIf(IsSetTrue(c.kioskSystemInfo), FeatureSystemInfo);
    assert features == upTo;
    if c.kioskKeyguard != None && c.kioskKeyguard.value {
      features := features | FeatureKeyguard;
    }
    upTo := upTo | FeatureIf(IsSetTrue(c.kioskKeyguard), FeatureKeyguard);
    assert features == upTo;
    if c.kioskLockButtons == None || !c.kioskLockButtons.value {
      features := features | FeatureGlobalActions;
    }
  }
}
