/** The list of packages allowed to run in lock task mode, as startCosuKioskMode and
    updateKioskAllowedApps build it. */
module AllowedPackages {
  import opened AndroidApi

  /** The kiosk app gets its own entry: it is non-null and not the launcher itself. */
  predicate KioskAppAdded(ownPackage: string, kioskApp: Option<string>)
  {
    kioskApp != None && kioskApp.value != ownPackage
  }

  /** The launcher's own package, then the kiosk app if it gets its own entry, then the
      settings package if settings are enabled. Nothing is deduplicated. */
  function AllowList(ownPackage: string, kioskApp: Option<string>, enableSettings: bool, settingsPackage: string)
    : (packages: seq<string>)
    ensures |packages| == 1 + (if KioskAppAdded(ownPackage, kioskApp) then 1 else 0) + (if enableSettings then 1 else 0)
    ensures packages[0] == ownPackage
    ensures KioskAppAdded(ownPackage, kioskApp) ==> packages[1] == kioskApp.value
    ensures enableSettings ==> packages[|packages| - 1] == settingsPackage
    ensures forall p :: p in packages <==> p == ownPackage || kioskApp == Some(p) || (enableSettings && p == settingsPackage)
  {
    [ownPackage]
    + (if KioskAppAdded(ownPackage, kioskApp) then [kioskApp.value] else [])
    + (if enableSettings then [settingsPackage] else [])
  }

  predicate NoDuplicates(s: seq<string>)
  {
    forall i, j :: 0 <= i < j < |s| ==> s[i] != s[j]
  }

  /** The list repeats a package exactly when settings are enabled and the settings package
      is the launcher itself or the kiosk app. */
  lemma AllowListDuplicates(ownPackage: string, kioskApp: Option<string>, enableSettings: bool, settingsPackage: string)
    ensures !NoDuplicates(AllowList(ownPackage, kioskApp, enableSettings, settingsPackage))
        <==> enableSettings && (settingsPackage == ownPackage || (KioskAppAdded(ownPackage, kioskApp) && kioskApp.value == settingsPackage))
  {
  }

  /** The statements of startCosuKioskMode and updateKioskAllowedApps that fill the
      ArrayList, one `add` at a time. */
  method BuildAllowList(ownPackage: string, kioskApp: Option<string>, enableSettings: bool, settingsPackage: string)
    returns (packages: seq<string>)
    ensures packages == AllowList(ownPackage, kioskApp, enableSettings, settingsPackage)
  {
    packages := [];
    packages := packages + [ownPackage];
    if kioskApp != None && kioskApp.value != ownPackage {
      packages := packages + [kioskApp.value];
    }
    if enableSettings {
      packages := packages + [settingsPackage];
    }
  }
}
