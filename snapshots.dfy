/**
 * The objects the Family Safety client library hands to the coordinator, the plain
 * records the coordinator's refresh turns them into, and the specification of that
 * normalisation (the loops of `_async_update_data`).
 *
 * Every function here folds over a PREFIX of its list (`xs[..|xs| - 1]`, then the last
 * element), because the source walks each list from the front and updates a dictionary
 * per element: the fold over `xs[..i]` is exactly the state after `i` iterations.
 */
module Snapshots {
  import opened Wrappers

  /**
   * A point in time, in whole seconds since 0001-01-01T00:00:00, the first instant a
   * Python `datetime` can hold; instants are copied or offset, never otherwise inspected.
   */
  type Timestamp = int

  // ---------------------------------------------------------------------------
  // What the client library returns

  datatype RemoteApplication = RemoteApplication(appId: string, name: string, blocked: bool)

  datatype RemoteDevice = RemoteDevice(
    deviceId: string,
    deviceName: string,
    deviceClass: string,
    deviceMake: string,
    deviceModel: string,
    osName: string,
    todayTimeUsed: int,
    lastSeen: Timestamp,
    blocked: bool)

  /** A managed account; `accountBalance` is a float in the library, copied and never computed with. */
  datatype RemoteAccount = RemoteAccount(
    userId: string,
    firstName: string,
    surname: string,
    profilePicture: string,
    todayScreentimeUsage: int,
    averageScreentimeUsage: int,
    accountBalance: Option<real>,
    accountCurrency: Option<string>,
    devices: seq<RemoteDevice>,
    applications: seq<RemoteApplication>)

  // ---------------------------------------------------------------------------
  // The records of a published snapshot (the dictionaries of `coordinator.data`)

  datatype ApplicationRecord = ApplicationRecord(appId: string, appName: string, blocked: bool)

  datatype DeviceRecord = DeviceRecord(
    deviceId: string,
    deviceName: string,
    deviceClass: string,
    deviceMake: string,
    deviceModel: string,
    osName: string,
    todayTimeUsed: int,
    lastSeen: Timestamp,
    blocked: bool,
    accountId: string)

  datatype AccountRecord = AccountRecord(
    userId: string,
    firstName: string,
    surname: string,
    profilePicture: string,
    todayScreentimeUsage: int,
    averageScreentimeUsage: int,
    accountBalance: Option<real>,
    accountCurrency: Option<string>,
    devices: seq<string>,
    applications: seq<ApplicationRecord>)

  /** `{"accounts": ..., "devices": ...}` as returned by a successful refresh. */
  datatype Snapshot = Snapshot(accounts: map<string, AccountRecord>, devices: map<string, DeviceRecord>)

  const EmptySnapshot := Snapshot(map[], map[])

  // ---------------------------------------------------------------------------
  // Per-object conversions

  /** The application an application record describes. */
  function AppOfRecord(rec: ApplicationRecord): RemoteApplication {
    RemoteApplication(rec.appId, rec.appName, rec.blocked)
  }

  /** An application's record keeps every field of the application. */
  function AppRecordOf(app: RemoteApplication): (r: ApplicationRecord)
    ensures AppOfRecord(r) == app
  {
    ApplicationRecord(app.appId, app.name, app.blocked)
  }

  /** The device a device record describes, without its owner. */
  function DeviceOfRecord(rec: DeviceRecord): RemoteDevice {
    RemoteDevice(rec.deviceId, rec.deviceName, rec.deviceClass, rec.deviceMake, rec.deviceModel,
                 rec.osName, rec.todayTimeUsed, rec.lastSeen, rec.blocked)
  }

  /** A device's record keeps every field of the device and adds the id of its owner. */
  function DeviceRecordOf(d: RemoteDevice, accountId: string): (r: DeviceRecord)
    ensures DeviceOfRecord(r) == d
    ensures r.accountId == accountId
  {
    DeviceRecord(d.deviceId, d.deviceName, d.deviceClass, d.deviceMake, d.deviceModel,
                 d.osName, d.todayTimeUsed, d.lastSeen, d.blocked, accountId)
  }

  /** The record as first inserted, before its device and application lists are filled. */
  function BareAccountRecord(a: RemoteAccount): AccountRecord {
    AccountRecord(a.userId, a.firstName, a.surname, a.profilePicture,
                  a.todayScreentimeUsage, a.averageScreentimeUsage,
                  a.accountBalance, a.accountCurrency, [], [])
  }

  /** The application list of an account record: one entry per application, in source order. */
  function AppRecords(apps: seq<RemoteApplication>): (r: seq<ApplicationRecord>)
    ensures |r| == |apps|
    ensures forall j :: 0 <= j < |apps| ==>
      r[j].appId == apps[j].appId && r[j].appName == apps[j].name && r[j].blocked == apps[j].blocked
  {
    if apps == [] then [] else AppRecords(apps[..|apps| - 1]) + [AppRecordOf(apps[|apps| - 1])]
  }

  /** The device-id list of an account record: one id per device, in source order. */
  function DeviceIds(ds: seq<RemoteDevice>): (r: seq<string>)
    ensures |r| == |ds|
    ensures forall j :: 0 <= j < |ds| ==> r[j] == ds[j].deviceId
  {
    if ds == [] then [] else DeviceIds(ds[..|ds| - 1]) + [ds[|ds| - 1].deviceId]
  }

  /**
   * The complete record of one account once its devices and applications are stored: the
   * account's own fields, the ids of its devices and a full record of each application.
   */
  function AccountRecordOf(a: RemoteAccount): (r: AccountRecord)
    ensures r.(devices := [], applications := []) == BareAccountRecord(a)
    ensures |r.devices| == |a.devices| && forall j :: 0 <= j < |a.devices| ==> r.devices[j] == a.devices[j].deviceId
    ensures |r.applications| == |a.applications|
    ensures forall j :: 0 <= j < |a.applications| ==> AppOfRecord(r.applications[j]) == a.applications[j]
  {
    BareAccountRecord(a).(devices := DeviceIds(a.devices), applications := AppRecords(a.applications))
  }

  // ---------------------------------------------------------------------------
  // Id sets

  function AccountIds(xs: seq<RemoteAccount>): set<string> {
    set i | 0 <= i < |xs| :: xs[i].userId
  }

  function DeviceIdSet(ds: seq<RemoteDevice>): set<string> {
    set j | 0 <= j < |ds| :: ds[j].deviceId
  }

  /** Every device id any account of `xs` lists. */
  function AllDeviceIds(xs: seq<RemoteAccount>): (r: set<string>)
  {
    if xs == [] then {} else AllDeviceIds(xs[..|xs| - 1]) + DeviceIdSet(xs[|xs| - 1].devices)
  }

  // ---------------------------------------------------------------------------
  // Normalisation

  /**
   * `devicesData` after storing the devices `ds` of account `accountId` into `m`:
   * later devices overwrite earlier entries with the same id, other entries stay.
   */
  function AddDevices(m: map<string, DeviceRecord>, accountId: string, ds: seq<RemoteDevice>): (r: map<string, DeviceRecord>)
    ensures r.Keys == m.Keys + DeviceIdSet(ds)
    ensures forall k :: k in DeviceIdSet(ds) ==> r[k].accountId == accountId
    ensures forall k :: k in m && k !in DeviceIdSet(ds) ==> r[k] == m[k]
  {
    if ds == [] then m
    else
      var init := ds[..|ds| - 1];
      var d := ds[|ds| - 1];
      assert DeviceIdSet(ds) == DeviceIdSet(init) + {d.deviceId};
      AddDevices(m, accountId, init)[d.deviceId := DeviceRecordOf(d, accountId)]
  }

  /** No later account of `xs` has the id of `xs[i]`. */
  predicate LastAccountAt(xs: seq<RemoteAccount>, i: nat) {
    i < |xs| && forall j :: i < j < |xs| ==> xs[j].userId != xs[i].userId
  }

  /** No later device of `ds` has the id of `ds[p]`. */
  predicate LastDeviceAt(ds: seq<RemoteDevice>, p: nat) {
    p < |ds| && forall q :: p < q < |ds| ==> ds[q].deviceId != ds[p].deviceId
  }

  /** `xs[i].devices[p]` is the last device with its id across all the accounts of `xs`. */
  predicate LastDeviceOf(xs: seq<RemoteAccount>, i: nat, p: nat) {
    i < |xs| && LastDeviceAt(xs[i].devices, p)
    && forall j :: i < j < |xs| ==> xs[i].devices[p].deviceId !in DeviceIdSet(xs[j].devices)
  }

  /** One pass of the outer loop: store the account's record, then its devices. */
  function AddAccount(s: Snapshot, a: RemoteAccount): (r: Snapshot)
    ensures r.accounts.Keys == s.accounts.Keys + {a.userId}
    ensures r.accounts[a.userId] == AccountRecordOf(a)
    ensures forall k :: k in s.accounts && k != a.userId ==> r.accounts[k] == s.accounts[k]
    ensures r.devices.Keys == s.devices.Keys + DeviceIdSet(a.devices)
    ensures forall k :: k in DeviceIdSet(a.devices) ==> r.devices[k].accountId == a.userId
    ensures forall k :: k in s.devices && k !in DeviceIdSet(a.devices) ==> r.devices[k] == s.devices[k]
  {
    Snapshot(s.accounts[a.userId := AccountRecordOf(a)], AddDevices(s.devices, a.userId, a.devices))
  }

  /**
   * The snapshot a refresh builds from the account list `xs`. Its account keys are the
   * ids of `xs`, its device keys every device id those accounts list, and every device
   * record names an account that is a key of the snapshot (referential integrity).
   */
  function Normalise(xs: seq<RemoteAccount>): (r: Snapshot)
    ensures r.accounts.Keys == AccountIds(xs)
    ensures r.devices.Keys == AllDeviceIds(xs)
    ensures forall k :: k in r.devices ==> r.devices[k].accountId in r.accounts
  {
    if xs == [] then EmptySnapshot
    else
      var init := xs[..|xs| - 1];
      assert AccountIds(xs) == AccountIds(init) + {xs[|xs| - 1].userId};
      AddAccount(Normalise(init), xs[|xs| - 1])
  }

  /**
   * The record stored under an account id is built from the LAST account in `xs` with
   * that id: its `devices` are that account's device ids and its `applications` that
   * account's applications, both in source order.
   */
  lemma {:induction false} NormaliseLastRecord(xs: seq<RemoteAccount>, i: nat)
    requires LastAccountAt(xs, i)
    ensures Normalise(xs).accounts[xs[i].userId] == AccountRecordOf(xs[i])
    decreases |xs|
  {
    var init := xs[..|xs| - 1];
    if i < |xs| - 1 {
      assert LastAccountAt(init, i);
      NormaliseLastRecord(init, i);
      assert xs[|xs| - 1].userId != xs[i].userId;
    }
  }

  /** Every device id an account record lists is a key of the device map. */
  lemma {:induction false} NormaliseListedDevicesExist(xs: seq<RemoteAccount>)
    ensures forall k, d :: k in Normalise(xs).accounts && d in Normalise(xs).accounts[k].devices
              ==> d in Normalise(xs).devices
    decreases |xs|
  {
    if xs != [] {
      var init := xs[..|xs| - 1];
      var a := xs[|xs| - 1];
      NormaliseListedDevicesExist(init);
      forall d | d in DeviceIds(a.devices) ensures d in DeviceIdSet(a.devices) {
        var j :| 0 <= j < |a.devices| && DeviceIds(a.devices)[j] == d;
      }
    }
  }

  /** Each account lists its own devices: the device ids of one account are among all device ids. */
  lemma {:induction false} DeviceIdsInAll(xs: seq<RemoteAccount>, i: nat)
    requires i < |xs|
    ensures DeviceIdSet(xs[i].devices) <= AllDeviceIds(xs)
    decreases |xs|
  {
    if i < |xs| - 1 {
      DeviceIdsInAll(xs[..|xs| - 1], i);
    }
  }

  /** Account ids are unique, and no device id occurs twice, within one account or across two. */
  ghost predicate UniqueIds(xs: seq<RemoteAccount>) {
    && (forall i, j :: 0 <= i < j < |xs| ==> xs[i].userId != xs[j].userId)
    && (forall i, p, q :: 0 <= i < |xs| && 0 <= p < q < |xs[i].devices| ==>
          xs[i].devices[p].deviceId != xs[i].devices[q].deviceId)
    && (forall i, j :: 0 <= i < j < |xs| ==> DeviceIdSet(xs[i].devices) !! DeviceIdSet(xs[j].devices))
  }

  /**
   * With unique ids, the snapshot is exact both ways: each device of each account is
   * stored as that device's record under its id, owned by that account, and listed by it.
   */
  lemma NormaliseUniqueDevice(xs: seq<RemoteAccount>, i: nat, p: nat)
    requires UniqueIds(xs)
    requires i < |xs| && p < |xs[i].devices|
    ensures xs[i].devices[p].deviceId in Normalise(xs).devices
    ensures Normalise(xs).devices[xs[i].devices[p].deviceId] == DeviceRecordOf(xs[i].devices[p], xs[i].userId)
    ensures xs[i].devices[p].deviceId in Normalise(xs).accounts[xs[i].userId].devices
  {
    NormaliseDeviceRecord(xs, i, p);
    NormaliseLastRecord(xs, i);
    assert DeviceIds(xs[i].devices)[p] == xs[i].devices[p].deviceId;
  }

  /**
   * Whatever the duplicates, the record stored under a device id is built from the last
   * device with that id over all the accounts, owned by the account that lists it.
   */
  lemma {:induction false} NormaliseLastDevice(xs: seq<RemoteAccount>, i: nat, p: nat)
    requires LastDeviceOf(xs, i, p)
    ensures var d := xs[i].devices[p];
      d.deviceId in Normalise(xs).devices && Normalise(xs).devices[d.deviceId] == DeviceRecordOf(d, xs[i].userId)
    decreases |xs|
  {
    var init := xs[..|xs| - 1];
    var a := xs[|xs| - 1];
    var d := xs[i].devices[p];
    if i == |xs| - 1 {
      assert d.deviceId in DeviceIdSet(a.devices);
      AddDevicesLast(Normalise(init).devices, a.userId, a.devices, p);
    } else {
      assert LastDeviceOf(init, i, p);
      NormaliseLastDevice(init, i, p);
      assert d.deviceId !in DeviceIdSet(a.devices);
    }
  }

  /** Dropping the last account keeps ids unique. */
  lemma UniqueIdsInit(xs: seq<RemoteAccount>)
    requires xs != [] && UniqueIds(xs)
    ensures UniqueIds(xs[..|xs| - 1])
  {
  }

  /** With unique ids, a device's record in the snapshot is the one built from it. */
  lemma {:induction false} NormaliseDeviceRecord(xs: seq<RemoteAccount>, i: nat, p: nat)
    requires UniqueIds(xs)
    requires i < |xs| && p < |xs[i].devices|
    ensures xs[i].devices[p].deviceId in Normalise(xs).devices
    ensures Normalise(xs).devices[xs[i].devices[p].deviceId] == DeviceRecordOf(xs[i].devices[p], xs[i].userId)
    decreases |xs|
  {
    var a := xs[|xs| - 1];
    var d := xs[i].devices[p];
    assert d.deviceId in DeviceIdSet(xs[i].devices);
    DeviceIdsInAll(xs, i);
    if i < |xs| - 1 {
      UniqueIdsInit(xs);
      NormaliseDeviceRecord(xs[..|xs| - 1], i, p);
      assert d.deviceId !in DeviceIdSet(a.devices);
    } else {
      AddDevicesLast(Normalise(xs[..|xs| - 1]).devices, a.userId, a.devices, p);
    }
  }

  /** Under `AddDevices`, a device whose id does not recur later in the list is stored as its own record. */
  lemma {:induction false} AddDevicesLast(m: map<string, DeviceRecord>, accountId: string, ds: seq<RemoteDevice>, p: nat)
    requires p < |ds|
    requires forall q :: p < q < |ds| ==> ds[q].deviceId != ds[p].deviceId
    ensures AddDevices(m, accountId, ds)[ds[p].deviceId] == DeviceRecordOf(ds[p], accountId)
    decreases |ds|
  {
    if p < |ds| - 1 {
      AddDevicesLast(m, accountId, ds[..|ds| - 1], p);
    }
  }

  // ---------------------------------------------------------------------------
  // The coordinator's handle tables (`_accounts`, `_devices`)

  /** `_accounts` after a refresh over `xs`: each account is stored under its id, later ones overwriting. */
  function RegisterAccounts(t: map<string, RemoteAccount>, xs: seq<RemoteAccount>): (r: map<string, RemoteAccount>)
    ensures r.Keys == t.Keys + AccountIds(xs)
    ensures forall k :: k in t && k !in AccountIds(xs) ==> r[k] == t[k]
  {
    if xs == [] then t
    else
      var init := xs[..|xs| - 1];
      assert AccountIds(xs) == AccountIds(init) + {xs[|xs| - 1].userId};
      RegisterAccounts(t, init)[xs[|xs| - 1].userId := xs[|xs| - 1]]
  }

  /** `_devices` after storing the devices `ds` of one account. */
  function RegisterDeviceList(t: map<string, RemoteDevice>, ds: seq<RemoteDevice>): (r: map<string, RemoteDevice>)
    ensures r.Keys == t.Keys + DeviceIdSet(ds)
    ensures forall k :: k in t && k !in DeviceIdSet(ds) ==> r[k] == t[k]
  {
    if ds == [] then t
    else
      var init := ds[..|ds| - 1];
      assert DeviceIdSet(ds) == DeviceIdSet(init) + {ds[|ds| - 1].deviceId};
      RegisterDeviceList(t, init)[ds[|ds| - 1].deviceId := ds[|ds| - 1]]
  }

  /** `_devices` after a refresh over `xs`. */
  function RegisterDevices(t: map<string, RemoteDevice>, xs: seq<RemoteAccount>): (r: map<string, RemoteDevice>)
    ensures r.Keys == t.Keys + AllDeviceIds(xs)
    ensures forall k :: k in t && k !in AllDeviceIds(xs) ==> r[k] == t[k]
  {
    if xs == [] then t else RegisterDeviceList(RegisterDevices(t, xs[..|xs| - 1]), xs[|xs| - 1].devices)
  }

  /** The handle stored under an account id is the last account of the refresh with that id. */
  lemma {:induction false} RegisterAccountsLast(t: map<string, RemoteAccount>, xs: seq<RemoteAccount>, i: nat)
    requires LastAccountAt(xs, i)
    ensures xs[i].userId in RegisterAccounts(t, xs) && RegisterAccounts(t, xs)[xs[i].userId] == xs[i]
    decreases |xs|
  {
    if i < |xs| - 1 {
      var init := xs[..|xs| - 1];
      assert LastAccountAt(init, i);
      RegisterAccountsLast(t, init, i);
    }
  }

  /** The handle stored under a device id is the last device of the list with that id. */
  lemma {:induction false} RegisterDeviceListLast(t: map<string, RemoteDevice>, ds: seq<RemoteDevice>, p: nat)
    requires LastDeviceAt(ds, p)
    ensures ds[p].deviceId in RegisterDeviceList(t, ds) && RegisterDeviceList(t, ds)[ds[p].deviceId] == ds[p]
    decreases |ds|
  {
    if p < |ds| - 1 {
      var init := ds[..|ds| - 1];
      assert LastDeviceAt(init, p);
      RegisterDeviceListLast(t, init, p);
    }
  }

  /** The handle stored under a device id is the last device with that id over all the accounts. */
  lemma {:induction false} RegisterDevicesLast(t: map<string, RemoteDevice>, xs: seq<RemoteAccount>, i: nat, p: nat)
    requires LastDeviceOf(xs, i, p)
    ensures var d := xs[i].devices[p];
      d.deviceId in RegisterDevices(t, xs) && RegisterDevices(t, xs)[d.deviceId] == d
    decreases |xs|
  {
    var init := xs[..|xs| - 1];
    if i == |xs| - 1 {
      RegisterDeviceListLast(RegisterDevices(t, init), xs[i].devices, p);
    } else {
      assert LastDeviceOf(init, i, p);
      RegisterDevicesLast(t, init, i, p);
    }
  }

  /** One more device: the device loop's specification functions grow by that device. */
  lemma DeviceStep(m: map<string, DeviceRecord>, t: map<string, RemoteDevice>, accountId: string, ds: seq<RemoteDevice>, j: nat)
    requires j < |ds|
    ensures DeviceIds(ds[..j + 1]) == DeviceIds(ds[..j]) + [ds[j].deviceId]
    ensures AddDevices(m, accountId, ds[..j + 1]) == AddDevices(m, accountId, ds[..j])[ds[j].deviceId := DeviceRecordOf(ds[j], accountId)]
    ensures RegisterDeviceList(t, ds[..j + 1]) == RegisterDeviceList(t, ds[..j])[ds[j].deviceId := ds[j]]
  {
    assert ds[..j + 1][..j] == ds[..j];
  }

  /** Registering into a table is the same as overlaying the entries registered into an empty one. */
  lemma {:induction false} RegisterAccountsOverlay(t: map<string, RemoteAccount>, xs: seq<RemoteAccount>)
    ensures RegisterAccounts(t, xs) == t + RegisterAccounts(map[], xs)
    decreases |xs|
  {
    if xs != [] {
      RegisterAccountsOverlay(t, xs[..|xs| - 1]);
    }
  }

  lemma {:induction false} RegisterDeviceListOverlay(t: map<string, RemoteDevice>, ds: seq<RemoteDevice>)
    ensures RegisterDeviceList(t, ds) == t + RegisterDeviceList(map[], ds)
    decreases |ds|
  {
    if ds != [] {
      RegisterDeviceListOverlay(t, ds[..|ds| - 1]);
    }
  }

  /** Overlaying maps is associative. */
  lemma OverlayAssoc<K, V>(a: map<K, V>, b: map<K, V>, c: map<K, V>)
    ensures (a + b) + c == a + (b + c)
  {
  }

  /** Overlaying the same map a second time changes nothing. */
  lemma OverlayTwice<K, V>(a: map<K, V>, b: map<K, V>)
    ensures (a + b) + b == a + b
  {
  }

  lemma {:induction false} RegisterDevicesOverlay(t: map<string, RemoteDevice>, xs: seq<RemoteAccount>)
    ensures RegisterDevices(t, xs) == t + RegisterDevices(map[], xs)
    decreases |xs|
  {
    if xs != [] {
      var init := xs[..|xs| - 1];
      var ds := xs[|xs| - 1].devices;
      RegisterDevicesOverlay(t, init);
      RegisterDeviceListOverlay(RegisterDevices(t, init), ds);
      RegisterDeviceListOverlay(RegisterDevices(map[], init), ds);
      OverlayAssoc(t, RegisterDevices(map[], init), RegisterDeviceList(map[], ds));
    }
  }

  /** Registering the same accounts twice leaves both tables as registering them once. */
  lemma RegisterTwice(ta: map<string, RemoteAccount>, td: map<string, RemoteDevice>, xs: seq<RemoteAccount>)
    ensures RegisterAccounts(RegisterAccounts(ta, xs), xs) == RegisterAccounts(ta, xs)
    ensures RegisterDevices(RegisterDevices(td, xs), xs) == RegisterDevices(td, xs)
  {
    RegisterAccountsOverlay(ta, xs);
    RegisterAccountsOverlay(RegisterAccounts(ta, xs), xs);
    OverlayTwice(ta, RegisterAccounts(map[], xs));
    RegisterDevicesOverlay(td, xs);
    RegisterDevicesOverlay(RegisterDevices(td, xs), xs);
    OverlayTwice(td, RegisterDevices(map[], xs));
  }
}
