/** Sequences of calls to the kiosk operations, each against the platform as it is at that
    call (capabilities are never cached), and what holds after any such sequence. */
module KioskTraces {
  import opened AndroidApi
  import opened LockTaskFeatures
  import opened KioskSpec

  /** One call of a public kiosk operation with its arguments. */
  datatype Call =
    | StartCall(kioskApp: Option<string>, enableSettings: bool, config: Option<ServerConfig>)
    | UpdateOptionsCall(config: Option<ServerConfig>)
    | UpdateAllowedAppsCall(kioskApp: Option<string>, enableSettings: bool)
    | UnlockCall

  /** A call and the platform it meets. */
  datatype Step = Step(env: DeviceEnv, call: Call)

  function Apply(step: Step, st: PolicyState): PolicyState
  {
    match step.call
    case StartCall(kioskApp, enableSettings, config) => StartCosu(step.env, st, kioskApp, enableSettings, config).after
    case UpdateOptionsCall(config) => UpdateOptions(step.env, st, config)
    case UpdateAllowedAppsCall(kioskApp, enableSettings) => UpdateAllowedApps(step.env, st, kioskApp, enableSettings)
    case UnlockCall => Unlock(step.env, st)
  }

  /** The state after the calls of `steps`, first to last. */
  function Run(steps: seq<Step>, st: PolicyState): PolicyState
    decreases |steps|
  {
    if steps == [] then st else Run(steps[1..], Apply(steps[0], st))
  }

  /** Below Lollipop every operation returns at its first check: no sequence of calls
      changes anything. */
  lemma {:induction false} PreLollipopChangesNothing(steps: seq<Step>, st: PolicyState)
    requires forall i :: 0 <= i < |steps| ==> steps[i].env.sdkInt < Lollipop
    ensures Run(steps, st) == st
    decreases |steps|
  {
    if steps != [] {
      assert Apply(steps[0], st) == st;
      PreLollipopChangesNothing(steps[1..], st);
    }
  }

  /** Below Pie the feature mask is never written. */
  lemma {:induction false} PrePieKeepsFeatures(steps: seq<Step>, st: PolicyState)
    requires forall i :: 0 <= i < |steps| ==> steps[i].env.sdkInt < Pie
    ensures Run(steps, st).features == st.features
    decreases |steps|
  {
    if steps != [] {
      var next := Apply(steps[0], st);
      assert next.features == st.features;
      PrePieKeepsFeatures(steps[1..], next);
    }
  }

  /** Without device owner rights no call touches the package list, the feature mask or the
      launched apps; only unlockKiosk's stopLockTask, which needs no ownership, runs. */
  lemma {:induction false} NonOwnerKeepsPolicy(steps: seq<Step>, st: PolicyState)
    requires forall i :: 0 <= i < |steps| ==> !steps[i].env.isDeviceOwner
    ensures var after := Run(steps, st);
            after.lockTaskPackages == st.lockTaskPackages && after.features == st.features && after.launched == st.launched
    decreases |steps|
  {
    if steps != [] {
      var next := Apply(steps[0], st);
      assert next.lockTaskPackages == st.lockTaskPackages && next.features == st.features && next.launched == st.launched;
      NonOwnerKeepsPolicy(steps[1..], next);
    }
  }

  /** While the device is locked by these operations, the launcher's own package heads the
      lock task package list, so the launcher itself is never locked out. */
  predicate LauncherAllowedWhileLocked(st: PolicyState, ownPackage: string)
  {
    st.mode == LockTaskModeLocked ==> |st.lockTaskPackages| > 0 && st.lockTaskPackages[0] == ownPackage
  }

  lemma {:induction false} LauncherStaysAllowed(steps: seq<Step>, st: PolicyState, ownPackage: string)
    requires LauncherAllowedWhileLocked(st, ownPackage)
    requires forall i :: 0 <= i < |steps| ==> steps[i].env.ownPackage == ownPackage
    ensures LauncherAllowedWhileLocked(Run(steps, st), ownPackage)
    decreases |steps|
  {
    if steps != [] {
      var next := Apply(steps[0], st);
      assert LauncherAllowedWhileLocked(next, ownPackage);
      LauncherStaysAllowed(steps[1..], next, ownPackage);
    }
  }

  /** `n` copies of one step. */
  function Repeat(step: Step, n: nat): seq<Step>
  {
    seq(n, _ => step)
  }

  /** Calling updateKioskAllowedApps any number of times with unchanged inputs leaves what
      one call leaves. */
  lemma {:induction false} RepeatedAllowedAppsUpdates(env: DeviceEnv, st: PolicyState, kioskApp: Option<string>, enableSettings: bool, n: nat)
    requires n >= 1
    ensures Run(Repeat(Step(env, UpdateAllowedAppsCall(kioskApp, enableSettings)), n), st)
            == UpdateAllowedApps(env, st, kioskApp, enableSettings)
    decreases n
  {
    var step := Step(env, UpdateAllowedAppsCall(kioskApp, enableSettings));
    var once := UpdateAllowedApps(env, st, kioskApp, enableSettings);
    assert Repeat(step, n)[1..] == Repeat(step, n - 1);
    if n > 1 {
      RepeatedAllowedAppsUpdates(env, once, kioskApp, enableSettings, n - 1);
      UpdateAllowedAppsIdempotent(env, st, kioskApp, enableSettings);
    }
  }

  /** The same for updateKioskOptions. */
  lemma {:induction false} RepeatedOptionsUpdates(env: DeviceEnv, st: PolicyState, config: Option<ServerConfig>, n: nat)
    requires n >= 1
    ensures Run(Repeat(Step(env, UpdateOptionsCall(config)), n), st) == UpdateOptions(env, st, config)
    decreases n
  {
    var step := Step(env, UpdateOptionsCall(config));
    var once := UpdateOptions(env, st, config);
    assert Repeat(step, n)[1..] == Repeat(step, n - 1);
    if n > 1 {
      RepeatedOptionsUpdates(env, once, config, n - 1);
      UpdateOptionsIdempotent(env, st, config);
    }
  }
}
