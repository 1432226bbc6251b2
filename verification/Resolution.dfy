/** Resolving a VirtualCluster against its Cell and VirtualNodeClass (internal/controller/resolution.go). */
module Resolution {
  import opened Api
  import opened Text
  import Sorting

  const REQUESTS := "requests."
  const LIMITS := "limits."

  /** The library functions the fingerprint is built from: SHA-256 and Quantity.String. */
  datatype Codec = Codec(hash: string -> string, show: Quantity -> string)

  datatype Snapshot = Snapshot(
    cellUid: string, managedCluster: string, classUid: string, profileHash: string, machineProfile: string,
    k3kVersion: string, childK3sVersion: string, k3kChildVersion: string, childImageTag: string,
    hostNamespace: string, k3kCluster: string, quota: QuotaList,
    controlPlane: ResourceList, reflectedSystem: ResourceList, acceleratorKeys: seq<string>,
    storageClass: string, hostPathTenant: (string, string))

  const NO_SNAPSHOT := Snapshot("", "", "", "", "", "", "", "", "", "", "", map[], map[], map[], [], "", ("", ""))

  predicate IsQuotaKey(key: string) {
    HasPrefix(key, REQUESTS) || HasPrefix(key, LIMITS)
  }

  function BaseName(key: string): string {
    TrimPrefix(TrimPrefix(key, REQUESTS), LIMITS)
  }

  /** A quota key that asks for a device of the machine profile. */
  predicate IsDeviceKey(key: string) {
    IsQuotaKey(key) && '/' in BaseName(key)
  }

  predicate Declares(devices: seq<Device>, resource: string) {
    exists i :: 0 <= i < |devices| && devices[i].resourceName == resource
  }

  predicate EntitlementDeclared(devices: seq<Device>, key: string, quantity: Quantity) {
    IsDeviceKey(key) ==> Declares(devices, BaseName(key)) && quantity.milli > 0 && quantity.IsInteger()
  }

  predicate EntitlementPaired(hard: QuotaList, resource: string) {
    && (REQUESTS + resource in hard <==> LIMITS + resource in hard)
    && (REQUESTS + resource in hard ==> hard[REQUESTS + resource].milli == hard[LIMITS + resource].milli)
  }

  /** What a class may ask of a profile. */
  predicate Resolvable(profile: MachineProfile, hard: QuotaList) {
    && profile.name != ""
    && (forall key :: key in hard ==> EntitlementDeclared(profile.devices, key, hard[key]))
    && (forall i :: 0 <= i < |profile.devices| ==> EntitlementPaired(hard, profile.devices[i].resourceName))
  }

  function DeviceResources(devices: seq<Device>): (r: seq<string>)
    ensures |r| == |devices| && forall i :: 0 <= i < |devices| ==> r[i] == devices[i].resourceName
  {
    seq(|devices|, i requires 0 <= i < |devices| => devices[i].resourceName)
  }

  // ---- fingerprint ---------------------------------------------------------------------------

  function DeviceLine(d: Device): string {
    "device=" + d.name + "/" + d.resourceName
  }

  function DeviceLines(devices: seq<Device>): string {
    if devices == [] then "" else
      DeviceLines(devices[..|devices| - 1]) + "\n" + DeviceLine(devices[|devices| - 1])
  }

  function QuotaLines(codec: Codec, quota: QuotaList, keys: seq<string>): string
    requires forall k :: k in keys ==> k in quota
  {
    if keys == [] then "" else
      var last := keys[|keys| - 1];
      QuotaLines(codec, quota, keys[..|keys| - 1]) + "\n" + last + "=" + codec.show(quota[last])
  }

  lemma {:induction false} SortedKeysAreKeys(s: set<string>)
    ensures forall k :: k in Sorting.SortedKeys(s) <==> k in s
  {
    if s != {} {
      SortedKeysAreKeys(s - {Sorting.Least(s)});
    }
  }

  ghost function Fingerprint(codec: Codec, profile: MachineProfile, quota: QuotaList, storageClass: string): string {
    SortedKeysAreKeys(quota.Keys);
    codec.hash("profile=" + profile.name + "\nstorage=" + storageClass + DeviceLines(profile.devices)
               + QuotaLines(codec, quota, Sorting.SortedKeys(quota.Keys)))
  }

  /** Lists a map's keys in whatever order the map is iterated, then sorts them. */
  method CollectSorted(all: set<string>) returns (sorted: seq<string>)
    ensures sorted == Sorting.SortedKeys(all)
  {
    var keys: seq<string> := [];
    var left := all;
    while left != {}
      invariant left <= all
      invariant multiset(keys) == multiset(all - left)
      decreases |left|
    {
      var key :| key in left;
      assert all - (left - {key}) == (all - left) + {key};
      left := left - {key};
      keys := keys + [key];
    }
    assert all - left == all;
    sorted := Sorting.Sort(keys, (x: string) => x);
    Sorting.SortedIsOrdered(sorted);
    Sorting.OrderedIsUnique(sorted, all);
  }

  method DescribeDevices(devices: seq<Device>) returns (text: string)
    ensures text == DeviceLines(devices)
  {
    text := "";
    for i := 0 to |devices|
      invariant text == DeviceLines(devices[..i])
    {
      assert devices[..i + 1][..i] == devices[..i];
      text := text + "\n" + DeviceLine(devices[i]);
    }
    assert devices[..|devices|] == devices;
  }

  method DescribeQuota(codec: Codec, quota: QuotaList, keys: seq<string>) returns (text: string)
    requires forall k :: k in keys ==> k in quota
    ensures text == QuotaLines(codec, quota, keys)
  {
    text := "";
    for i := 0 to |keys|
      invariant text == QuotaLines(codec, quota, keys[..i])
    {
      assert keys[..i + 1][..i] == keys[..i];
      text := text + "\n" + keys[i] + "=" + codec.show(quota[keys[i]]);
    }
    assert keys[..|keys|] == keys;
  }

  method ProfileFingerprint(codec: Codec, profile: MachineProfile, quota: QuotaList, storageClass: string) returns (r: string)
    ensures r == Fingerprint(codec, profile, quota, storageClass)
  {
    var devices := DescribeDevices(profile.devices);
    var keys := CollectSorted(quota.Keys);
    SortedKeysAreKeys(quota.Keys);
    var lines := DescribeQuota(codec, quota, keys);
    r := codec.hash("profile=" + profile.name + "\nstorage=" + storageClass + devices + lines);
  }

  // ---- resolution ----------------------------------------------------------------------------

  ghost function SnapshotOf(codec: Codec, cellUid: string, cell: CellSpec, classUid: string, class_: ClassSpec): Snapshot {
    Snapshot(
      cellUid, cell.managedCluster, classUid,
      Fingerprint(codec, cell.profile, class_.workloadHard, class_.storageClassName),
      cell.profile.name, K3K_VERSION, CHILD_K3S_VERSION, CHILD_K3K_SPEC, CHILD_K3K_SPEC, "", "",
      class_.workloadHard, CONTROL_PLANE_RESERVATION, REFLECTED_SYSTEM_RESERVATION,
      DeviceResources(cell.profile.devices), class_.storageClassName, ("", ""))
  }

  /** Looks a device key up in the profile and stops at the first match. */
  method IsEntitled(devices: seq<Device>, key: string, quantity: Quantity) returns (ok: bool)
    requires IsDeviceKey(key)
    ensures ok == EntitlementDeclared(devices, key, quantity)
  {
    for i := 0 to |devices|
      invariant forall j :: 0 <= j < i ==> devices[j].resourceName != BaseName(key)
    {
      if devices[i].resourceName == BaseName(key) {
        return quantity.milli > 0 && quantity.IsInteger();
      }
    }
    ok := false;
  }

  /** Ranges over the quota in any order and leaves at the first undeclared entitlement. */
  method AllEntitled(devices: seq<Device>, hard: QuotaList) returns (ok: bool)
    ensures ok == forall key :: key in hard ==> EntitlementDeclared(devices, key, hard[key])
  {
    var left := hard.Keys;
    while left != {}
      invariant left <= hard.Keys
      invariant forall key :: key in hard && key !in left ==> EntitlementDeclared(devices, key, hard[key])
      decreases |left|
    {
      var key :| key in left;
      left := left - {key};
      if IsDeviceKey(key) {
        var entitled := IsEntitled(devices, key, hard[key]);
        if !entitled {
          return false;
        }
      }
    }
    ok := true;
  }

  method AllPaired(devices: seq<Device>, hard: QuotaList) returns (ok: bool)
    ensures ok == forall i :: 0 <= i < |devices| ==> EntitlementPaired(hard, devices[i].resourceName)
  {
    for i := 0 to |devices|
      invariant forall j :: 0 <= j < i ==> EntitlementPaired(hard, devices[j].resourceName)
    {
      var request, limit := REQUESTS + devices[i].resourceName, LIMITS + devices[i].resourceName;
      if (request in hard) != (limit in hard) || (request in hard && hard[request].milli != hard[limit].milli) {
        return false;
      }
    }
    ok := true;
  }

  /** What a snapshot records of its Cell and class, and the platform's versions and reservations. */
  predicate Records(s: Snapshot, cellUid: string, cell: CellSpec, classUid: string, class_: ClassSpec) {
    && s.cellUid == cellUid && s.managedCluster == cell.managedCluster && s.machineProfile == cell.profile.name
    && s.classUid == classUid && s.quota == class_.workloadHard && s.storageClass == class_.storageClassName
    && s.k3kVersion == "v1.2.0" && s.childK3sVersion == "v1.34.2+k3s1" && s.k3kChildVersion == s.childImageTag == "v1.34.2-k3s1"
    && s.controlPlane == map["cpu" := 500, "memory" := 1073741824000]
    && s.reflectedSystem == map["cpu" := 100, "memory" := 268435456000]
    && |s.acceleratorKeys| == |cell.profile.devices|
    && forall i :: 0 <= i < |cell.profile.devices| ==> s.acceleratorKeys[i] == cell.profile.devices[i].resourceName
  }

  /** A requested device is declared by the profile and requested and limited in the same positive whole amount. */
  predicate DevicePaired(profile: MachineProfile, hard: QuotaList, device: string) {
    '/' in device && !HasPrefix(device, "limits.") && "requests." + device in hard ==>
      && (exists i :: 0 <= i < |profile.devices| && profile.devices[i].resourceName == device)
      && "limits." + device in hard && hard["limits." + device].milli == hard["requests." + device].milli
      && hard["requests." + device].milli > 0 && hard["requests." + device].milli % 1000 == 0
  }

  lemma DevicesArePaired(profile: MachineProfile, hard: QuotaList, device: string)
    requires Resolvable(profile, hard)
    ensures DevicePaired(profile, hard, device)
  {
    var key := REQUESTS + device;
    if '/' in device && !HasPrefix(device, LIMITS) && key in hard {
      assert HasPrefix(key, REQUESTS) && TrimPrefix(key, REQUESTS) == device && BaseName(key) == device;
      assert EntitlementDeclared(profile.devices, key, hard[key]);
      var i :| 0 <= i < |profile.devices| && profile.devices[i].resourceName == device;
      assert EntitlementPaired(hard, profile.devices[i].resourceName);
    }
  }

  /** Whether resolution succeeds, and its result, do not depend on the order the quota map is iterated in. */
  method ResolveVirtualCluster(codec: Codec, cellUid: string, cell: CellSpec, classUid: string, class_: ClassSpec)
    returns (r: Result<Snapshot>)
    ensures r.Ok? <==> Resolvable(cell.profile, class_.workloadHard)
    ensures r.Ok? ==> r.value == SnapshotOf(codec, cellUid, cell, classUid, class_)
    ensures r.Ok? ==> Records(r.value, cellUid, cell, classUid, class_)
    ensures r.Ok? ==> forall device: string :: DevicePaired(cell.profile, class_.workloadHard, device)
  {
    if Resolvable(cell.profile, class_.workloadHard) {
      forall device: string ensures DevicePaired(cell.profile, class_.workloadHard, device) {
        DevicesArePaired(cell.profile, class_.workloadHard, device);
      }
    }
    var profile, hard := cell.profile, class_.workloadHard;
    if profile.name == "" {
      return Err("cell machine profile is not declared");
    }
    var entitled := AllEntitled(profile.devices, hard);
    if !entitled {
      return Err("device entitlement is not a positive integer of a declared device");
    }
    var paired := AllPaired(profile.devices, hard);
    if !paired {
      return Err("device entitlement must have equal request and limit");
    }
    var accelerators: seq<string> := [];
    for i := 0 to |profile.devices|
      invariant accelerators == DeviceResources(profile.devices)[..i]
    {
      accelerators := accelerators + [profile.devices[i].resourceName];
    }
    var hash := ProfileFingerprint(codec, profile, hard, class_.storageClassName);
    r := Ok(Snapshot(
      cellUid, cell.managedCluster, classUid, hash, profile.name,
      K3K_VERSION, CHILD_K3S_VERSION, CHILD_K3K_SPEC, CHILD_K3K_SPEC, "", "",
      hard, CONTROL_PLANE_RESERVATION, REFLECTED_SYSTEM_RESERVATION, accelerators, class_.storageClassName, ("", "")));
  }

  /** sameResolvedProvider: the quota is compared by amount, everything else by value. */
  predicate SameProvider(a: Snapshot, b: Snapshot) {
    && a.cellUid == b.cellUid && a.managedCluster == b.managedCluster && a.classUid == b.classUid
    && a.profileHash == b.profileHash && a.machineProfile == b.machineProfile
    && a.k3kVersion == b.k3kVersion && a.childK3sVersion == b.childK3sVersion
    && a.k3kChildVersion == b.k3kChildVersion && a.childImageTag == b.childImageTag
    && a.hostNamespace == b.hostNamespace && a.k3kCluster == b.k3kCluster
    && SemanticEqual(a.quota, b.quota)
    && a.controlPlane == b.controlPlane && a.reflectedSystem == b.reflectedSystem
    && a.storageClass == b.storageClass && a.acceleratorKeys == b.acceleratorKeys
    && a.hostPathTenant == b.hostPathTenant
  }

  /** Nothing else is left out of the comparison: up to the quota, whose amounts agree, the snapshots are one. */
  lemma SameProviderIff(a: Snapshot, b: Snapshot)
    ensures SameProvider(a, b) <==>
      && a.(quota := b.quota) == b && (forall k :: k in a.quota <==> k in b.quota)
      && forall k :: k in a.quota && k in b.quota ==> a.quota[k].milli == b.quota[k].milli
  {
    assert a.quota.Keys == b.quota.Keys <==> forall k :: k in a.quota <==> k in b.quota;
  }

  // ---- the fingerprint as lines ------------------------------------------------------------------

  /** strings.Join with line breaks. */
  function Joined(parts: seq<string>): string
    requires parts != []
  {
    if |parts| == 1 then parts[0] else Joined(parts[..|parts| - 1]) + "\n" + parts[|parts| - 1]
  }

  ghost function DeviceParts(devices: seq<Device>): seq<string> {
    seq(|devices|, i requires 0 <= i < |devices| => "device=" + devices[i].name + "/" + devices[i].resourceName)
  }

  ghost function QuotaParts(codec: Codec, quota: QuotaList, keys: seq<string>): seq<string>
    requires forall k :: k in keys ==> k in quota
  {
    seq(|keys|, i requires 0 <= i < |keys| => keys[i] + "=" + codec.show(quota[keys[i]]))
  }

  lemma JoinedMore(parts: seq<string>, part: string)
    requires parts != []
    ensures Joined(parts + [part]) == Joined(parts) + "\n" + part
  {
    assert (parts + [part])[..|parts|] == parts;
  }

  lemma QuotaLine(text: string, key: string, amount: string)
    ensures text + "\n" + (key + "=" + amount) == text + "\n" + key + "=" + amount
  {
    assert text + "\n" + (key + "=") == text + "\n" + key + "=";
  }

  lemma {:induction false} DevicesJoin(parts: seq<string>, devices: seq<Device>)
    requires parts != []
    ensures Joined(parts + DeviceParts(devices)) == Joined(parts) + DeviceLines(devices)
  {
    if devices == [] {
      assert parts + DeviceParts(devices) == parts;
    } else {
      var init, last := devices[..|devices| - 1], devices[|devices| - 1];
      var part := "device=" + last.name + "/" + last.resourceName;
      DevicesJoin(parts, init);
      assert DeviceParts(devices) == DeviceParts(init) + [part];
      assert parts + DeviceParts(devices) == parts + DeviceParts(init) + [part];
      JoinedMore(parts + DeviceParts(init), part);
    }
  }

  lemma {:induction false} QuotaJoins(codec: Codec, parts: seq<string>, quota: QuotaList, keys: seq<string>)
    requires parts != [] && forall k :: k in keys ==> k in quota
    ensures Joined(parts + QuotaParts(codec, quota, keys)) == Joined(parts) + QuotaLines(codec, quota, keys)
  {
    if keys == [] {
      assert parts + QuotaParts(codec, quota, keys) == parts;
    } else {
      var init, last := keys[..|keys| - 1], keys[|keys| - 1];
      var part := last + "=" + codec.show(quota[last]);
      QuotaJoins(codec, parts, quota, init);
      assert QuotaParts(codec, quota, keys) == QuotaParts(codec, quota, init) + [part];
      assert parts + QuotaParts(codec, quota, keys) == parts + QuotaParts(codec, quota, init) + [part];
      JoinedMore(parts + QuotaParts(codec, quota, init), part);
      QuotaLine(QuotaLines(codec, quota, init), last, codec.show(quota[last]));
    }
  }

  /** The fingerprint hashes one line for the profile and the storage class, one per device in the profile's order, and one per
      quota key in ascending order. */
  lemma FingerprintIsJoined(codec: Codec, profile: MachineProfile, quota: QuotaList, storageClass: string)
    ensures forall k :: k in Sorting.SortedKeys(quota.Keys) <==> k in quota
    ensures Fingerprint(codec, profile, quota, storageClass) == codec.hash(Joined(
      ["profile=" + profile.name, "storage=" + storageClass] + DeviceParts(profile.devices) + QuotaParts(codec, quota, Sorting.SortedKeys(quota.Keys))))
  {
    SortedKeysAreKeys(quota.Keys);
    var head := ["profile=" + profile.name, "storage=" + storageClass];
    assert head[..1] == ["profile=" + profile.name];
    assert Joined(head) == "profile=" + profile.name + "\n" + ("storage=" + storageClass);
    assert Joined(head) == "profile=" + profile.name + "\nstorage=" + storageClass;
    DevicesJoin(head, profile.devices);
    QuotaJoins(codec, head + DeviceParts(profile.devices), quota, Sorting.SortedKeys(quota.Keys));
  }
}
