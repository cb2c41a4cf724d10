/** The installed-package registry and the rule by which package broadcasts
    update it (MainApplication.toInstalledItem and listenApplications). */
module Packages {
  import opened Wrappers

  /** What the package manager reports about one package. The hash of its single
      signing certificate is computed by code outside this model and arrives here
      already computed, or None when the package has no single signature. */
  datatype PackageInfo = PackageInfo(
    packageName: string,
    versionName: Option<string>,
    versionCode: int,
    singleSignatureHash: Option<string>)

  /** One registry record. */
  datatype InstalledItem = InstalledItem(
    packageName: string,
    version: string,
    versionCode: int,
    signature: string)

  /** The registry, keyed by package name. */
  type Registry = map<string, InstalledItem>

  /** The package manager at one moment: getPackageInfo(name) succeeds exactly
      for the names in the table and fails (throws) for every other name. */
  type PackageTable = map<string, PackageInfo>

  /** The platform's own guarantee: a lookup by name returns that package. */
  ghost predicate Consistent(packages: PackageTable) {
    forall n :: n in packages ==> packages[n].packageName == n
  }

  function OrEmpty(s: Option<string>): string {
    if s.Some? then s.value else ""
  }

  /** PackageInfo.toInstalledItem: a missing version name or signature becomes "". */
  function ToInstalledItem(p: PackageInfo): (r: InstalledItem)
    ensures r.packageName == p.packageName && r.versionCode == p.versionCode
    ensures p.versionName.None? ==> r.version == ""
    ensures p.versionName.Some? ==> r.version == p.versionName.value
    ensures p.singleSignatureHash.None? ==> r.signature == ""
    ensures p.singleSignatureHash.Some? ==> r.signature == p.singleSignatureHash.value
  {
    InstalledItem(p.packageName, OrEmpty(p.versionName), p.versionCode, OrEmpty(p.singleSignatureHash))
  }

  /** The registry entry for a name, if any. */
  function Entry(registry: Registry, name: string): Option<InstalledItem> {
    if name in registry then Some(registry[name]) else None
  }

  /** The item the registry should hold for a name after a lookup in `packages`:
      the converted package, or nothing when the lookup fails. */
  function LookupItem(packages: PackageTable, name: string): Option<InstalledItem> {
    if name in packages then Some(ToInstalledItem(packages[name])) else None
  }

  // ---- Broadcast intents ----

  const ACTION_PACKAGE_ADDED: string := "android.intent.action.PACKAGE_ADDED"
  const ACTION_PACKAGE_REMOVED: string := "android.intent.action.PACKAGE_REMOVED"
  const PACKAGE_SCHEME: string := "package"

  /** A data URI; both parts may be null on the platform. */
  datatype Uri = Uri(scheme: Option<string>, schemeSpecificPart: Option<string>)

  /** A broadcast intent: an optional action and an optional data URI. */
  datatype Intent = Intent(action: Option<string>, data: Option<Uri>)

  /** The package name carried by an intent: the scheme-specific part of a
      `package:` URI, and nothing for any other URI or no URI. */
  function PackageNameOf(intent: Intent): Option<string> {
    match intent.data
    case None => None
    case Some(uri) => if uri.scheme == Some(PACKAGE_SCHEME) then uri.schemeSpecificPart else None
  }

  /** The package an intent makes the receiver act on, or None when the receiver
      ignores it. */
  function EventTarget(intent: Intent): (r: Option<string>)
    ensures r.Some? <==>
      && intent.data.Some?
      && intent.data.value.scheme == Some(PACKAGE_SCHEME)
      && intent.data.value.schemeSpecificPart.Some?
      && (intent.action == Some(ACTION_PACKAGE_ADDED) || intent.action == Some(ACTION_PACKAGE_REMOVED))
    ensures r.Some? ==> r.value == intent.data.value.schemeSpecificPart.value
  {
    var name := PackageNameOf(intent);
    if name.Some? && OrEmpty(intent.action) in {ACTION_PACKAGE_ADDED, ACTION_PACKAGE_REMOVED} then name else None
  }

  /** The receiver's effect on the registry for one intent, with the package
      manager in the state `packages`: both actions look the package up, put the
      converted item on success and delete the name on failure. */
  function ApplyPackageEvent(registry: Registry, intent: Intent, packages: PackageTable): (r: Registry)
    ensures EventTarget(intent).None? ==> r == registry
    ensures EventTarget(intent).Some? && Consistent(packages) ==>
      var name := EventTarget(intent).value;
      && Entry(r, name) == LookupItem(packages, name)
      && forall n :: n != name ==> Entry(r, n) == Entry(registry, n)
  {
    match EventTarget(intent)
    case None => registry
    case Some(name) =>
      if name in packages then
        var item := ToInstalledItem(packages[name]);
        registry[item.packageName := item]
      else
        registry - {name}
  }

  /** PACKAGE_ADDED and PACKAGE_REMOVED take the same path. */
  lemma AddedAndRemovedAgree(registry: Registry, uri: Uri, packages: PackageTable)
    ensures ApplyPackageEvent(registry, Intent(Some(ACTION_PACKAGE_ADDED), Some(uri)), packages)
         == ApplyPackageEvent(registry, Intent(Some(ACTION_PACKAGE_REMOVED), Some(uri)), packages)
  {
  }

  /** A removal notification for a package that is still installed (an update
      replacing it, or a reinstall before the broadcast arrives) leaves the fresh
      record in place instead of deleting it. */
  lemma RemovedButInstalledIsKept(registry: Registry, name: string, packages: PackageTable)
    requires Consistent(packages) && name in packages
    ensures var r := ApplyPackageEvent(registry, Intent(Some(ACTION_PACKAGE_REMOVED), Some(Uri(Some(PACKAGE_SCHEME), Some(name)))), packages);
      name in r && r[name] == ToInstalledItem(packages[name])
  {
  }

  // ---- A sequence of broadcasts ----

  /** One delivered broadcast together with the package manager's state at the
      moment the receiver looked the package up. */
  datatype Delivery = Delivery(intent: Intent, packages: PackageTable)

  /** The registry after handling the deliveries in order. */
  function ApplyEvents(registry: Registry, ds: seq<Delivery>): Registry {
    if ds == [] then registry
    else ApplyPackageEvent(ApplyEvents(registry, ds[..|ds| - 1]), ds[|ds| - 1].intent, ds[|ds| - 1].packages)
  }

  /** The index of the last delivery the receiver acts on for `name`. */
  function LastDeliveryFor(ds: seq<Delivery>, name: string): (k: Option<nat>)
    ensures k.Some? ==> k.value < |ds| && EventTarget(ds[k.value].intent) == Some(name)
    ensures k.Some? ==> forall j :: k.value < j < |ds| ==> EventTarget(ds[j].intent) != Some(name)
    ensures k.None? ==> forall j :: 0 <= j < |ds| ==> EventTarget(ds[j].intent) != Some(name)
  {
    if ds == [] then None
    else if EventTarget(ds[|ds| - 1].intent) == Some(name) then Some(|ds| - 1)
    else LastDeliveryFor(ds[..|ds| - 1], name)
  }

  /** The last event per package wins: after any sequence of broadcasts, the entry
      for a name is what the lookup of the last broadcast about that name found,
      and an untouched name keeps its entry. */
  lemma {:induction false} LastEventWins(registry: Registry, ds: seq<Delivery>, name: string)
    requires forall j :: 0 <= j < |ds| ==> Consistent(ds[j].packages)
    ensures Entry(ApplyEvents(registry, ds), name) ==
      match LastDeliveryFor(ds, name)
      case None => Entry(registry, name)
      case Some(k) => LookupItem(ds[k].packages, name)
  {
    if ds != [] {
      var init, last := ds[..|ds| - 1], ds[|ds| - 1];
      assert forall j :: 0 <= j < |init| ==> init[j] == ds[j];
      LastEventWins(registry, init, name);
      assert Consistent(last.packages);
    }
  }

  // ---- Startup enumeration ----

  /** The names of a batch of items. */
  function NamesOf(items: seq<InstalledItem>): set<string> {
    set i | i in items :: i.packageName
  }

  predicate DistinctNames(items: seq<InstalledItem>) {
    forall i, j :: 0 <= i < j < |items| ==> items[i].packageName != items[j].packageName
  }

  /** The registry's putAll: upserts every item of the batch, in order. */
  function PutAll(registry: Registry, items: seq<InstalledItem>): (r: Registry)
    ensures r.Keys == registry.Keys + NamesOf(items)
    ensures forall n :: n in registry && n !in NamesOf(items) ==> r[n] == registry[n]
    decreases |items|
  {
    if items == [] then registry
    else
      assert NamesOf(items) == {items[0].packageName} + NamesOf(items[1..]) by {
        assert forall i :: i in items <==> i == items[0] || i in items[1..];
      }
      PutAll(registry[items[0].packageName := items[0]], items[1..])
  }

  /** With distinct names (as the platform enumerates them), every item of the
      batch ends up in the registry under its own name. */
  lemma {:induction false} PutAllStoresEveryItem(registry: Registry, items: seq<InstalledItem>)
    requires DistinctNames(items)
    ensures forall i :: 0 <= i < |items| ==>
      items[i].packageName in PutAll(registry, items) && PutAll(registry, items)[items[i].packageName] == items[i]
    decreases |items|
  {
    if items != [] {
      var rest := items[1..];
      var next := registry[items[0].packageName := items[0]];
      PutAllStoresEveryItem(next, rest);
      forall i | 0 <= i < |items|
        ensures PutAll(registry, items)[items[i].packageName] == items[i]
      {
        if i == 0 {
          assert items[0].packageName !in NamesOf(rest) by {
            forall x | x in rest ensures x.packageName != items[0].packageName {
              var j :| 0 <= j < |rest| && rest[j] == x;
              assert items[j + 1] == x;
            }
          }
        } else {
          assert rest[i - 1] == items[i];
        }
      }
    }
  }

  /** The startup enumeration, each package converted by ToInstalledItem, in order. */
  function InstalledItems(packages: seq<PackageInfo>): (r: seq<InstalledItem>)
    ensures |r| == |packages| && forall i :: 0 <= i < |packages| ==> r[i] == ToInstalledItem(packages[i])
  {
    seq(|packages|, i requires 0 <= i < |packages| => ToInstalledItem(packages[i]))
  }

  /** The registry after the startup enumeration and its single putAll. */
  function RegisterInstalled(registry: Registry, packages: seq<PackageInfo>): Registry {
    PutAll(registry, InstalledItems(packages))
  }

  /** After startup, every enumerated package has the entry that is its
      toInstalledItem image, and names not enumerated keep their entries. */
  lemma RegisterInstalledIsImage(registry: Registry, packages: seq<PackageInfo>)
    requires forall i, j :: 0 <= i < j < |packages| ==> packages[i].packageName != packages[j].packageName
    ensures var r := RegisterInstalled(registry, packages);
      && (forall i :: 0 <= i < |packages| ==>
            packages[i].packageName in r && r[packages[i].packageName] == ToInstalledItem(packages[i]))
      && (forall n :: n in registry && (forall i :: 0 <= i < |packages| ==> packages[i].packageName != n) ==>
            n in r && r[n] == registry[n])
  {
    var items := InstalledItems(packages);
    PutAllStoresEveryItem(registry, items);
    forall n | n in registry && (forall i :: 0 <= i < |packages| ==> packages[i].packageName != n)
      ensures n !in NamesOf(items)
    {
      assert forall j :: 0 <= j < |items| ==> items[j].packageName != n;
    }
  }
}
