/**
 * The sensor platform: which sensor entities setup creates from a published snapshot,
 * and what each sensor reports (its value, its extra attributes, its name and unique id).
 *
 * A sensor looks its record up in the coordinator's data on every read, so every
 * reading here is a function of `data: Option<Snapshot>` (`None` before the first
 * successful refresh) and the sensor's account or device id. A missing record gives
 * `None` for a value and `None` for the attributes (Python's empty dictionary).
 */
module Sensors {
  import opened Wrappers
  import opened Text
  import opened Snapshots

  // ---------------------------------------------------------------------------
  // Duration attributes

  datatype DurationAttributes = DurationAttributes(
    totalSeconds: int,
    formattedTime: string,
    hours: int,
    minutes: int,
    seconds: int)

  /** `h * 3600 + m * 60 + s == t` with minutes and seconds below 60 pins down the split. */
  lemma SplitSeconds(t: int)
    ensures (t / 3600) * 3600 + ((t % 3600) / 60) * 60 + t % 60 == t
    ensures 0 <= (t % 3600) / 60 < 60 && 0 <= t % 60 < 60
  {
    var r := t % 3600;
    assert t == (t / 3600) * 3600 + r;
    assert r == (r / 60) * 60 + r % 60;
    assert t % 60 == r % 60 by {
      assert t == ((t / 3600) * 60 + r / 60) * 60 + r % 60;
    }
  }

  /**
   * `_format_duration_attributes`: a count of seconds split into hours, minutes and
   * seconds (floor division, as Python's `//` and `%` with a positive divisor), and
   * written `hh:mm:ss` with each part zero-padded to two characters.
   */
  function FormatDurationAttributes(totalSeconds: int): (r: DurationAttributes)
    ensures r.totalSeconds == totalSeconds
    ensures r.hours * 3600 + r.minutes * 60 + r.seconds == totalSeconds
    ensures 0 <= r.minutes < 60 && 0 <= r.seconds < 60
    ensures totalSeconds >= 0 ==> r.hours >= 0
    ensures r.formattedTime == Pad2(r.hours) + ":" + Pad2(r.minutes) + ":" + Pad2(r.seconds)
  {
    SplitSeconds(totalSeconds);
    var hours := totalSeconds / 3600;
    var minutes := (totalSeconds % 3600) / 60;
    var seconds := totalSeconds % 60;
    DurationAttributes(totalSeconds, Pad2(hours) + ":" + Pad2(minutes) + ":" + Pad2(seconds), hours, minutes, seconds)
  }

  /** Reads an `h...h:mm:ss` string back as a count of seconds; `None` for anything else. */
  function ParseFormattedTime(f: string): Option<int> {
    if |f| < 7 || f[|f| - 3] != ':' || f[|f| - 6] != ':' then None
    else ParseClock(f[..|f| - 6], f[|f| - 5..|f| - 3], f[|f| - 2..])
  }

  /** The seconds that hours, minutes and seconds written in decimal add up to; `None` unless all are digits. */
  function ParseClock(h: string, m: string, s: string): Option<int> {
    if AllDigits(h) && AllDigits(m) && AllDigits(s)
    then Some(ParseDigits(h) * 3600 + ParseDigits(m) * 60 + ParseDigits(s))
    else None
  }

  lemma TwoDigits(n: nat)
    requires n < 100
    ensures |Pad2(n)| == 2
  {
    if n >= 10 {
      assert NatToString(n) == NatToString(n / 10) + [DigitChar(n % 10)];
    }
  }

  /**
   * For a non-negative total, `formatted_time` carries the whole total: reading it back
   * gives the total again, however many digits the hours take.
   */
  lemma FormattedTimeRoundTrip(t: nat)
    ensures ParseFormattedTime(FormatDurationAttributes(t).formattedTime) == Some(t)
  {
    var d := FormatDurationAttributes(t);
    TwoDigits(d.minutes);
    TwoDigits(d.seconds);
    Pad2RoundTrip(d.hours);
    Pad2RoundTrip(d.minutes);
    Pad2RoundTrip(d.seconds);
    ParseJoined(Pad2(d.hours), Pad2(d.minutes), Pad2(d.seconds));
  }

  /** A string `h:mm:ss` is read as the clock with those hours, minutes and seconds. */
  lemma ParseJoined(h: string, m: string, s: string)
    requires |h| >= 1 && |m| == 2 && |s| == 2
    ensures ParseFormattedTime(h + ":" + m + ":" + s) == ParseClock(h, m, s)
  {
    JoinedParts(h, m, s);
  }

  /** Where the parts of `h:mm:ss` sit, counted from the end. */
  lemma JoinedParts(h: string, m: string, s: string)
    requires |m| == 2 && |s| == 2
    ensures var f := h + ":" + m + ":" + s;
      && |f| == |h| + 6 && f[|f| - 3] == ':' && f[|f| - 6] == ':'
      && f[..|f| - 6] == h && f[|f| - 5..|f| - 3] == m && f[|f| - 2..] == s
  {
    var f := h + ":" + m + ":" + s;
    assert f[..|f| - 6] == h;
    assert f[|f| - 5..|f| - 3] == m;
    assert f[|f| - 2..] == s;
  }

  // ---------------------------------------------------------------------------
  // The entities setup creates

  datatype AccountSensorKind = ScreenTime | AccountInfo | ApplicationCount | Balance
  datatype DeviceSensorKind = DeviceScreenTime | DeviceInfo

  datatype Entity =
    | AccountSensor(kind: AccountSensorKind, accountId: string)
    | DeviceSensor(deviceKind: DeviceSensorKind, deviceId: string)

  /** Pairwise different elements. */
  ghost predicate Distinct(es: seq<Entity>) {
    forall i, j :: 0 <= i < j < |es| ==> es[i] != es[j]
  }

  /** `_create_account_sensors`: screen time, account info and application count, plus balance when there is one. */
  function AccountSensors(accountId: string, record: AccountRecord): (r: seq<Entity>)
    ensures |r| == if record.accountBalance.Some? then 4 else 3
    ensures forall e :: e in r ==> e.AccountSensor? && e.accountId == accountId
    ensures forall k :: AccountSensor(k, accountId) in r <==> (k == Balance ==> record.accountBalance.Some?)
    ensures Distinct(r)
  {
    var sensors := [AccountSensor(ScreenTime, accountId), AccountSensor(AccountInfo, accountId),
                    AccountSensor(ApplicationCount, accountId)];
    assert forall k :: AccountSensor(k, accountId) in sensors <==> k != Balance by {
      forall k: AccountSensorKind ensures AccountSensor(k, accountId) in sensors <==> k != Balance {
        if k == ScreenTime {
          assert sensors[0] == AccountSensor(k, accountId);
        } else if k == AccountInfo {
          assert sensors[1] == AccountSensor(k, accountId);
        } else if k == ApplicationCount {
          assert sensors[2] == AccountSensor(k, accountId);
        }
      }
    }
    if record.accountBalance.Some? then sensors + [AccountSensor(Balance, accountId)] else sensors
  }

  /** `_create_device_sensors`: screen time and info. */
  function DeviceSensors(deviceId: string): (r: seq<Entity>)
    ensures |r| == 2
    ensures forall e :: e in r ==> e.DeviceSensor? && e.deviceId == deviceId
    ensures forall k :: DeviceSensor(k, deviceId) in r
    ensures Distinct(r)
  {
    var r := [DeviceSensor(DeviceScreenTime, deviceId), DeviceSensor(DeviceInfo, deviceId)];
    assert forall k :: DeviceSensor(k, deviceId) in r by {
      forall k: DeviceSensorKind ensures DeviceSensor(k, deviceId) in r {
        if k == DeviceScreenTime {
          assert r[0] == DeviceSensor(k, deviceId);
        } else {
          assert r[1] == DeviceSensor(k, deviceId);
        }
      }
    }
    r
  }

  /** Two duplicate-free lists with no element in common make a duplicate-free list. */
  lemma DistinctAppend(a: seq<Entity>, b: seq<Entity>)
    requires Distinct(a) && Distinct(b)
    requires forall e :: e in a ==> e !in b
    ensures Distinct(a + b)
  {
    forall i, j | 0 <= i < j < |a + b| ensures (a + b)[i] != (a + b)[j] {
      if i < |a| && j >= |a| {
        assert (a + b)[i] in a && (a + b)[j] in b;
      }
    }
  }

  /** The accounts that have a balance. */
  function BalanceHolders(accounts: map<string, AccountRecord>): set<string> {
    set k | k in accounts && accounts[k].accountBalance.Some?
  }

  /** The entity belongs to the snapshot: its account or device is there, and a balance sensor needs a balance. */
  ghost predicate Expected(s: Snapshot, e: Entity) {
    match e
    case AccountSensor(kind, id) => id in s.accounts && (kind == Balance ==> s.accounts[id].accountBalance.Some?)
    case DeviceSensor(_, id) => id in s.devices
  }

  /** The account sensors setup creates for the accounts `ids`. */
  ghost predicate AccountSensorOf(accounts: map<string, AccountRecord>, ids: set<string>, e: Entity) {
    e.AccountSensor? && e.accountId in ids && e.accountId in accounts
    && (e.kind == Balance ==> accounts[e.accountId].accountBalance.Some?)
  }

  /** `entities` holds exactly the account sensors of the accounts `ids`, each once. */
  ghost predicate ListsAccountSensors(accounts: map<string, AccountRecord>, ids: set<string>, entities: seq<Entity>) {
    && (forall e :: e in entities <==> AccountSensorOf(accounts, ids, e))
    && Distinct(entities)
  }

  /** One step of the account loop: the sensors of one more account extend the list without duplicates. */
  lemma AccountSensorsStep(accounts: map<string, AccountRecord>, entities: seq<Entity>, done: set<string>, id: string)
    requires id in accounts && id !in done
    requires ListsAccountSensors(accounts, done, entities)
    ensures ListsAccountSensors(accounts, done + {id}, entities + AccountSensors(id, accounts[id]))
  {
    var added := AccountSensors(id, accounts[id]);
    DistinctAppend(entities, added);
    forall e: Entity | e.AccountSensor? && e.accountId == id
      ensures e in added <==> AccountSensorOf(accounts, {id}, e)
    {
      assert e == AccountSensor(e.kind, id);
    }
  }

  /** The state of the account loop: `done` handled, `withBalance` those of them with a balance. */
  ghost predicate AccountLoop(accounts: map<string, AccountRecord>, pending: set<string>, done: set<string>,
                              withBalance: set<string>, entities: seq<Entity>)
  {
    && pending + done == accounts.Keys && pending !! done
    && withBalance <= done
    && (forall k :: k in done ==> (k in withBalance <==> accounts[k].accountBalance.Some?))
    && |entities| == 3 * |done| + |withBalance|
    && ListsAccountSensors(accounts, done, entities)
  }

  function WithBalance(accounts: map<string, AccountRecord>, withBalance: set<string>, id: string): set<string>
    requires id in accounts
  {
    if accounts[id].accountBalance.Some? then withBalance + {id} else withBalance
  }

  /** One pass of the account loop keeps its state consistent. */
  lemma AccountLoopStep(accounts: map<string, AccountRecord>, pending: set<string>, done: set<string>,
                        withBalance: set<string>, entities: seq<Entity>, id: string)
    requires AccountLoop(accounts, pending, done, withBalance, entities) && id in pending
    ensures AccountLoop(accounts, pending - {id}, done + {id}, WithBalance(accounts, withBalance, id),
                        entities + AccountSensors(id, accounts[id]))
  {
    var added := AccountSensors(id, accounts[id]);
    AccountSensorsStep(accounts, entities, done, id);
    assert |WithBalance(accounts, withBalance, id)| + 3 == |withBalance| + |added|;
    assert |done + {id}| == |done| + 1;
  }

  /** When the account loop ends it has made every account sensor the snapshot calls for. */
  lemma AccountLoopDone(accounts: map<string, AccountRecord>, done: set<string>, withBalance: set<string>, entities: seq<Entity>)
    requires AccountLoop(accounts, {}, done, withBalance, entities)
    ensures |entities| == 3 * |accounts| + |BalanceHolders(accounts)|
    ensures forall e :: e in entities <==> e.AccountSensor? && Expected(Snapshot(accounts, map[]), e)
    ensures Distinct(entities)
  {
    assert withBalance == BalanceHolders(accounts);
    assert |accounts.Keys| == |accounts|;
  }

  /** The account loop of setup. */
  method CreateAccountSensors(accounts: map<string, AccountRecord>) returns (entities: seq<Entity>)
    ensures |entities| == 3 * |accounts| + |BalanceHolders(accounts)|
    ensures forall e :: e in entities <==> e.AccountSensor? && Expected(Snapshot(accounts, map[]), e)
    ensures Distinct(entities)
  {
    entities := [];
    var pending := accounts.Keys;
    ghost var done: set<string> := {};
    ghost var withBalance: set<string> := {};
    while pending != {}
      invariant AccountLoop(accounts, pending, done, withBalance, entities)
      decreases pending
    {
      var id :| id in pending;
      AccountLoopStep(accounts, pending, done, withBalance, entities, id);
      entities := entities + AccountSensors(id, accounts[id]);
      pending := pending - {id};
      done := done + {id};
      withBalance := WithBalance(accounts, withBalance, id);
    }
    AccountLoopDone(accounts, done, withBalance, entities);
  }

  /** The device loop of setup. */
  method CreateDeviceSensors(devices: map<string, DeviceRecord>) returns (entities: seq<Entity>)
    ensures |entities| == 2 * |devices|
    ensures forall e :: e in entities <==> e.DeviceSensor? && e.deviceId in devices
    ensures Distinct(entities)
  {
    entities := [];
    var pending := devices.Keys;
    ghost var done: set<string> := {};
    while pending != {}
      invariant pending + done == devices.Keys && pending !! done
      invariant |entities| == 2 * |done|
      invariant forall e :: e in entities <==> e.DeviceSensor? && e.deviceId in done
      invariant Distinct(entities)
      decreases pending
    {
      var id :| id in pending;
      var added := DeviceSensors(id);
      DistinctAppend(entities, added);
      forall e: Entity | e.DeviceSensor? && e.deviceId == id ensures e in added {
        assert e == DeviceSensor(e.deviceKind, id);
      }
      entities := entities + added;
      pending := pending - {id};
      done := done + {id};
    }
    assert |devices.Keys| == |devices|;
  }

  /**
   * `async_setup_entry`: nothing without data; otherwise three sensors per account, one
   * more per account with a balance, two per device, every account sensor before every
   * device sensor, each entity exactly once.
   */
  method SetupEntities(data: Option<Snapshot>) returns (entities: seq<Entity>)
    ensures data.None? ==> entities == []
    ensures data.Some? ==>
      |entities| == 3 * |data.value.accounts| + |BalanceHolders(data.value.accounts)| + 2 * |data.value.devices|
    ensures forall e :: e in entities <==> data.Some? && Expected(data.value, e)
    ensures Distinct(entities)
    ensures forall i, j :: 0 <= i < j < |entities| && entities[i].DeviceSensor? ==> entities[j].DeviceSensor?
  {
    entities := [];
    if data.Some? {
      var accountSensors := CreateAccountSensors(data.value.accounts);
      var deviceSensors := CreateDeviceSensors(data.value.devices);
      entities := accountSensors + deviceSensors;
      forall i | 0 <= i < |accountSensors| ensures entities[i].AccountSensor? {
        assert entities[i] in accountSensors;
      }
      forall j | |accountSensors| <= j < |entities| ensures entities[j].DeviceSensor? {
        assert entities[j] in deviceSensors;
      }
    }
  }

  // ---------------------------------------------------------------------------
  // Record lookups and names

  /** `_get_account_data`. */
  function AccountData(data: Option<Snapshot>, accountId: string): (r: Option<AccountRecord>)
    ensures r.Some? <==> data.Some? && accountId in data.value.accounts
    ensures r.Some? ==> r.value == data.value.accounts[accountId]
  {
    if data.Some? && accountId in data.value.accounts then Some(data.value.accounts[accountId]) else None
  }

  /** `_get_device_data`. */
  function DeviceData(data: Option<Snapshot>, deviceId: string): (r: Option<DeviceRecord>)
    ensures r.Some? <==> data.Some? && deviceId in data.value.devices
    ensures r.Some? ==> r.value == data.value.devices[deviceId]
  {
    if data.Some? && deviceId in data.value.devices then Some(data.value.devices[deviceId]) else None
  }

  /** `_get_account_name`: the stored first name, "Unknown" only when there is no record. */
  function AccountName(data: Option<Snapshot>, accountId: string): (r: string)
    ensures AccountData(data, accountId).None? ==> r == "Unknown"
    ensures AccountData(data, accountId).Some? ==> r == AccountData(data, accountId).value.firstName
  {
    match AccountData(data, accountId)
    case Some(record) => record.firstName
    case None => "Unknown"
  }

  /** `_get_device_name`: the stored device name, "Unknown Device" only when there is no record. */
  function DeviceName(data: Option<Snapshot>, deviceId: string): (r: string)
    ensures DeviceData(data, deviceId).None? ==> r == "Unknown Device"
    ensures DeviceData(data, deviceId).Some? ==> r == DeviceData(data, deviceId).value.deviceName
  {
    match DeviceData(data, deviceId)
    case Some(record) => record.deviceName
    case None => "Unknown Device"
  }

  /**
   * The `_attr_name` each sensor's constructor sets, from the data present at construction:
   * the name of the account or device it reads, followed by a label for its kind.
   */
  function EntityName(data: Option<Snapshot>, e: Entity): (r: string)
    ensures var owner := if e.AccountSensor? then AccountName(data, e.accountId) else DeviceName(data, e.deviceId);
      |owner| < |r| && r[..|owner|] == owner && r[|owner|] == ' '
  {
    match e
    case AccountSensor(ScreenTime, id) => AccountName(data, id) + " Screen Time"
    case AccountSensor(AccountInfo, id) => AccountName(data, id) + " Account Info"
    case AccountSensor(ApplicationCount, id) => AccountName(data, id) + " Applications"
    case AccountSensor(Balance, id) => AccountName(data, id) + " Balance"
    case DeviceSensor(DeviceScreenTime, id) => DeviceName(data, id) + " Screen Time"
    case DeviceSensor(DeviceInfo, id) => DeviceName(data, id) + " Info"
  }

  /** Two different sensors of the same account, or of the same device, have different names. */
  lemma EntityNamesDiffer(data: Option<Snapshot>, e1: Entity, e2: Entity)
    requires e1 != e2 && e1.AccountSensor? == e2.AccountSensor? && TargetId(e1) == TargetId(e2)
    ensures EntityName(data, e1) != EntityName(data, e2)
  {
    var owner := if e1.AccountSensor? then AccountName(data, e1.accountId) else DeviceName(data, e1.deviceId);
    assert EntityName(data, e1)[|owner|..] != EntityName(data, e2)[|owner|..];
  }

  /** A sensor whose record is missing is named after "Unknown" or "Unknown Device". */
  lemma EntityNameFallback(data: Option<Snapshot>, e: Entity)
    requires e.AccountSensor? ==> AccountData(data, e.accountId).None?
    requires e.DeviceSensor? ==> DeviceData(data, e.deviceId).None?
    ensures e.AccountSensor? ==> EntityName(data, e)[..7] == "Unknown"
    ensures e.DeviceSensor? ==> EntityName(data, e)[..14] == "Unknown Device"
  {
  }

  function TargetId(e: Entity): string {
    match e
    case AccountSensor(_, id) => id
    case DeviceSensor(_, id) => id
  }

  function IdSuffix(e: Entity): string {
    match e
    case AccountSensor(ScreenTime, _) => "screentime"
    case AccountSensor(AccountInfo, _) => "info"
    case AccountSensor(ApplicationCount, _) => "app_count"
    case AccountSensor(Balance, _) => "balance"
    case DeviceSensor(DeviceScreenTime, _) => "screentime"
    case DeviceSensor(DeviceInfo, _) => "info"
  }

  /** `_attr_unique_id`: the config entry id, the account or device id and a per-kind suffix, joined by "_". */
  function UniqueId(entryId: string, e: Entity): (r: string)
    ensures |r| == |entryId| + |TargetId(e)| + |IdSuffix(e)| + 2
    ensures r[..|entryId| + 1] == entryId + "_"
    ensures r[|entryId| + 1..|r| - |IdSuffix(e)| - 1] == TargetId(e)
    ensures r[|r| - |IdSuffix(e)| - 1..] == "_" + IdSuffix(e)
  {
    entryId + "_" + TargetId(e) + "_" + IdSuffix(e)
  }

  /**
   * Two different sensors share a unique id only when one is an account sensor and the
   * other a device sensor for an account id equal to a device id: within accounts, and
   * within devices, unique ids are unique.
   */
  lemma UniqueIdCollision(entryId: string, e1: Entity, e2: Entity)
    requires e1 != e2 && UniqueId(entryId, e1) == UniqueId(entryId, e2)
    ensures e1.AccountSensor? != e2.AccountSensor?
    ensures TargetId(e1) == TargetId(e2) && IdSuffix(e1) == IdSuffix(e2)
  {
    var s1, s2 := IdSuffix(e1), IdSuffix(e2);
    SameEnding(entryId + "_" + TargetId(e1) + "_", s1, entryId + "_" + TargetId(e2) + "_", s2);
    SuffixByEnding(e1, e2);
    SamePrefix(entryId, TargetId(e1), TargetId(e2), s1);
  }

  /** Two strings that both end a common string agree on their last two characters. */
  lemma SameEnding(p1: string, s1: string, p2: string, s2: string)
    requires |s1| >= 2 && |s2| >= 2 && p1 + s1 == p2 + s2
    ensures s1[|s1| - 1] == s2[|s2| - 1] && s1[|s1| - 2] == s2[|s2| - 2]
  {
    var u := p1 + s1;
    assert s1[|s1| - 1] == u[|u| - 1] && s1[|s1| - 2] == u[|u| - 2];
    assert s2[|s2| - 1] == u[|u| - 1] && s2[|s2| - 2] == u[|u| - 2];
  }

  /** The suffixes differ in their last two characters. */
  lemma SuffixByEnding(e1: Entity, e2: Entity)
    requires IdSuffix(e1)[|IdSuffix(e1)| - 1] == IdSuffix(e2)[|IdSuffix(e2)| - 1]
    requires IdSuffix(e1)[|IdSuffix(e1)| - 2] == IdSuffix(e2)[|IdSuffix(e2)| - 2]
    ensures IdSuffix(e1) == IdSuffix(e2)
  {
  }

  /** The id in the middle of a unique id is determined by the whole. */
  lemma SamePrefix(entryId: string, x1: string, x2: string, suffix: string)
    requires entryId + "_" + x1 + "_" + suffix == entryId + "_" + x2 + "_" + suffix
    ensures x1 == x2
  {
    var u := entryId + "_" + x1 + "_" + suffix;
    assert x1 == u[|entryId| + 1..|u| - |suffix| - 1];
    assert x2 == u[|entryId| + 1..|u| - |suffix| - 1];
  }

  // ---------------------------------------------------------------------------
  // Sensor readings

  datatype ScreenTimeAttributes = ScreenTimeAttributes(
    userId: string,
    averageScreentime: int,
    stateClass: string,
    date: string,
    duration: DurationAttributes)

  /** Account screen time: the stored `today_screentime_usage`, reported as minutes. */
  function ScreenTimeValue(data: Option<Snapshot>, accountId: string): (r: Option<int>)
    ensures r.Some? <==> AccountData(data, accountId).Some?
    ensures r.Some? ==> r.value == data.value.accounts[accountId].todayScreentimeUsage
  {
    match AccountData(data, accountId)
    case Some(record) => Some(record.todayScreentimeUsage)
    case None => None
  }

  /** Account screen-time attributes: the same stored usage, split as a count of seconds; `today` is the current date. */
  function ScreenTimeAttributesOf(data: Option<Snapshot>, accountId: string, today: string): (r: Option<ScreenTimeAttributes>)
    ensures r.Some? <==> AccountData(data, accountId).Some?
    ensures r.Some? ==> var record := data.value.accounts[accountId];
      && r.value.userId == record.userId && r.value.averageScreentime == record.averageScreentimeUsage
      && r.value.stateClass == "total" && r.value.date == today
      && r.value.duration == FormatDurationAttributes(record.todayScreentimeUsage)
  {
    match AccountData(data, accountId)
    case Some(record) =>
      Some(ScreenTimeAttributes(record.userId, record.averageScreentimeUsage, "total", today,
                                FormatDurationAttributes(record.todayScreentimeUsage)))
    case None => None
  }

  /**
   * The state and the attributes read one stored integer two ways: the state reports it
   * as minutes, the attributes split the very same number as seconds. No conversion
   * happens between the two.
   */
  lemma ScreenTimeReadingsAgree(data: Option<Snapshot>, accountId: string, today: string)
    ensures ScreenTimeValue(data, accountId).Some? <==> ScreenTimeAttributesOf(data, accountId, today).Some?
    ensures ScreenTimeValue(data, accountId).Some? ==>
      var v := ScreenTimeValue(data, accountId).value;
      var d := ScreenTimeAttributesOf(data, accountId, today).value.duration;
      d.totalSeconds == v && d.hours * 3600 + d.minutes * 60 + d.seconds == v
  {
  }

  /** The account-info state: first name and surname joined by a space, surrounding whitespace stripped. */
  function AccountInfoValue(data: Option<Snapshot>, accountId: string): (r: Option<string>)
    ensures r.Some? <==> AccountData(data, accountId).Some?
    ensures r.Some? ==> var record := data.value.accounts[accountId];
      r.value == DisplayName(record.firstName, record.surname)
  {
    match AccountData(data, accountId)
    case Some(record) => Some(DisplayName(record.firstName, record.surname))
    case None => None
  }

  /** `f"{first_name} {surname}".strip()`. */
  function DisplayName(firstName: string, surname: string): (r: string)
    ensures IsStripped(firstName + " " + surname, r)
  {
    Strip(firstName + " " + surname)
  }

  /** With both names present and unpadded, the display name is exactly "first surname". */
  lemma DisplayNameJoins(firstName: string, surname: string)
    requires firstName != [] && surname != []
    requires !IsSpace(firstName[0]) && !IsSpace(surname[|surname| - 1])
    ensures DisplayName(firstName, surname) == firstName + " " + surname
  {
    StripUnpadded(firstName + " " + surname);
  }

  /** With an empty surname the display name is the stripped first name. */
  lemma DisplayNameNoSurname(firstName: string)
    ensures DisplayName(firstName, "") == Strip(firstName)
  {
    assert firstName + " " + "" == firstName + " ";
    StripAppendedSpace(firstName);
  }

  /** With an empty first name the display name is the stripped surname. */
  lemma DisplayNameNoFirstName(surname: string)
    ensures DisplayName("", surname) == Strip(surname)
  {
    assert "" + " " + surname == " " + surname;
    StripLeadingSpace(" ", surname);
  }

  /** A single trailing space does not survive stripping. */
  lemma StripAppendedSpace(s: string)
    ensures Strip(s + " ") == Strip(s)
  {
    if StripLeading(s) == [] {
      AllSpaceStripsLeading(s + " ");
    } else {
      StripLeadingAppend(s, " ");
      StripTrailingSpace(StripLeading(s), " ");
    }
  }

  lemma {:induction false} AllSpaceStripsLeading(s: string)
    requires forall k :: 0 <= k < |s| ==> IsSpace(s[k])
    ensures StripLeading(s) == []
    decreases |s|
  {
    if s != [] {
      AllSpaceStripsLeading(s[1..]);
    }
  }

  /** Once a string has a non-space, text appended after it is untouched by left-stripping. */
  lemma StripLeadingAppend(s: string, t: string)
    requires StripLeading(s) != []
    ensures StripLeading(s + t) == StripLeading(s) + t
  {
    var left := StripLeading(s);
    var n := |s| - |left|;
    SplitAppend(s, n, t);
    StripLeadingSpace(s[..n], left + t);
    StripLeadingNonSpace(left + t);
  }

  lemma SplitAppend(s: string, n: nat, t: string)
    requires n <= |s|
    ensures s + t == s[..n] + (s[n..] + t)
  {
    assert s == s[..n] + s[n..];
  }

  lemma StripLeadingNonSpace(s: string)
    requires s != [] && !IsSpace(s[0])
    ensures StripLeading(s) == s
  {
  }

  datatype AccountInfoAttributes = AccountInfoAttributes(
    userId: string,
    firstName: string,
    surname: string,
    profilePicture: string,
    deviceCount: nat,
    applicationCount: nat)

  /** Account-info attributes: names and picture as stored, and how many devices and applications the record lists. */
  function AccountInfoAttributesOf(data: Option<Snapshot>, accountId: string): (r: Option<AccountInfoAttributes>)
    ensures r.Some? <==> AccountData(data, accountId).Some?
    ensures r.Some? ==> var record := data.value.accounts[accountId];
      && r.value.userId == record.userId && r.value.firstName == record.firstName
      && r.value.surname == record.surname && r.value.profilePicture == record.profilePicture
      && r.value.deviceCount == |record.devices| && r.value.applicationCount == |record.applications|
  {
    match AccountData(data, accountId)
    case Some(record) =>
      Some(AccountInfoAttributes(record.userId, record.firstName, record.surname, record.profilePicture,
                                 |record.devices|, |record.applications|))
    case None => None
  }

  /** `entity_picture`: the stored profile picture. */
  function EntityPicture(data: Option<Snapshot>, accountId: string): (r: Option<string>)
    ensures r.Some? <==> AccountData(data, accountId).Some?
    ensures r.Some? ==> r.value == data.value.accounts[accountId].profilePicture
  {
    match AccountData(data, accountId)
    case Some(record) => Some(record.profilePicture)
    case None => None
  }

  /** The applications of a list whose `blocked` flag is set, in order. */
  function BlockedApps(apps: seq<ApplicationRecord>): (r: seq<ApplicationRecord>)
    ensures |r| <= |apps|
    ensures forall a :: a in r <==> a in apps && a.blocked
    ensures |r| == |apps| <==> forall i :: 0 <= i < |apps| ==> apps[i].blocked
    ensures forall a :: multiset(r)[a] == if a.blocked then multiset(apps)[a] else 0
  {
    if apps == [] then []
    else
      var rest := BlockedApps(apps[1..]);
      BlockedAppsStep(apps, rest);
      if apps[0].blocked then [apps[0]] + rest else rest
  }

  /** One step of `BlockedApps`: keeping or dropping the head keeps its contract. */
  lemma BlockedAppsStep(apps: seq<ApplicationRecord>, rest: seq<ApplicationRecord>)
    requires apps != []
    requires |rest| <= |apps[1..]|
    requires forall a :: a in rest <==> a in apps[1..] && a.blocked
    requires |rest| == |apps[1..]| <==> forall i :: 0 <= i < |apps[1..]| ==> apps[1..][i].blocked
    requires forall a :: multiset(rest)[a] == if a.blocked then multiset(apps[1..])[a] else 0
    ensures var r := if apps[0].blocked then [apps[0]] + rest else rest;
      && |r| <= |apps|
      && (forall a :: a in r <==> a in apps && a.blocked)
      && (|r| == |apps| <==> forall i :: 0 <= i < |apps| ==> apps[i].blocked)
      && (forall a :: multiset(r)[a] == if a.blocked then multiset(apps)[a] else 0)
  {
    assert apps == [apps[0]] + apps[1..];
    assert forall i :: 1 <= i < |apps| ==> apps[i] == apps[1..][i - 1];
  }

  /** The application-count state: how many applications the record lists. */
  function ApplicationCountValue(data: Option<Snapshot>, accountId: string): (r: Option<nat>)
    ensures r.Some? <==> AccountData(data, accountId).Some?
    ensures r.Some? ==> r.value == |data.value.accounts[accountId].applications|
  {
    match AccountData(data, accountId)
    case Some(record) => Some(|record.applications|)
    case None => None
  }

  datatype ApplicationAttributes = ApplicationAttributes(blockedCount: nat, applications: seq<ApplicationRecord>)

  /** Application attributes: the number of blocked applications, and the list itself. */
  function ApplicationAttributesOf(data: Option<Snapshot>, accountId: string): (r: Option<ApplicationAttributes>)
    ensures r.Some? <==> AccountData(data, accountId).Some?
    ensures r.Some? ==> var record := data.value.accounts[accountId];
      && r.value.applications == record.applications
      && r.value.blockedCount == |BlockedApps(record.applications)|
  {
    match AccountData(data, accountId)
    case Some(record) =>
      Some(ApplicationAttributes(|BlockedApps(record.applications)|, record.applications))
    case None => None
  }

  /** `blocked_count` never exceeds the state, and equals it exactly when every application is blocked. */
  lemma BlockedCountBounded(data: Option<Snapshot>, accountId: string)
    requires AccountData(data, accountId).Some?
    ensures var count := ApplicationCountValue(data, accountId).value;
      var attributes := ApplicationAttributesOf(data, accountId).value;
      && attributes.blockedCount <= count
      && (attributes.blockedCount == count <==>
            forall i :: 0 <= i < |attributes.applications| ==> attributes.applications[i].blocked)
  {
  }

  /** The balance state: the stored balance, `None` without a record or without a balance. */
  function BalanceValue(data: Option<Snapshot>, accountId: string): (r: Option<real>)
    ensures AccountData(data, accountId).None? ==> r.None?
    ensures AccountData(data, accountId).Some? ==> r == data.value.accounts[accountId].accountBalance
  {
    match AccountData(data, accountId)
    case Some(record) => record.accountBalance
    case None => None
  }

  /** The balance unit, set at construction: the stored currency when the record is there, else unset. */
  function BalanceUnit(data: Option<Snapshot>, accountId: string): (r: Option<string>)
    ensures AccountData(data, accountId).None? ==> r.None?
    ensures AccountData(data, accountId).Some? ==> r == data.value.accounts[accountId].accountCurrency
  {
    match AccountData(data, accountId)
    case Some(record) => record.accountCurrency
    case None => None
  }

  datatype DeviceScreenTimeAttributes = DeviceScreenTimeAttributes(
    deviceId: string,
    deviceName: string,
    stateClass: string,
    date: string,
    duration: DurationAttributes)

  /** Device screen time: the stored `today_time_used`, reported as minutes. */
  function DeviceScreenTimeValue(data: Option<Snapshot>, deviceId: string): (r: Option<int>)
    ensures r.Some? <==> DeviceData(data, deviceId).Some?
    ensures r.Some? ==> r.value == data.value.devices[deviceId].todayTimeUsed
  {
    match DeviceData(data, deviceId)
    case Some(record) => Some(record.todayTimeUsed)
    case None => None
  }

  /** Device screen-time attributes: the same stored usage split as a count of seconds. */
  function DeviceScreenTimeAttributesOf(data: Option<Snapshot>, deviceId: string, today: string): (r: Option<DeviceScreenTimeAttributes>)
    ensures r.Some? <==> DeviceData(data, deviceId).Some?
    ensures r.Some? ==> var record := data.value.devices[deviceId];
      && r.value.deviceId == record.deviceId && r.value.deviceName == record.deviceName
      && r.value.stateClass == "total" && r.value.date == today
      && r.value.duration == FormatDurationAttributes(record.todayTimeUsed)
  {
    match DeviceData(data, deviceId)
    case Some(record) =>
      Some(DeviceScreenTimeAttributes(record.deviceId, record.deviceName, "total", today,
                                      FormatDurationAttributes(record.todayTimeUsed)))
    case None => None
  }

  /** As for accounts, the device's state and attributes read one stored integer, unconverted. */
  lemma DeviceScreenTimeReadingsAgree(data: Option<Snapshot>, deviceId: string, today: string)
    ensures DeviceScreenTimeValue(data, deviceId).Some? <==> DeviceScreenTimeAttributesOf(data, deviceId, today).Some?
    ensures DeviceScreenTimeValue(data, deviceId).Some? ==>
      var v := DeviceScreenTimeValue(data, deviceId).value;
      var d := DeviceScreenTimeAttributesOf(data, deviceId, today).value.duration;
      d.totalSeconds == v && d.hours * 3600 + d.minutes * 60 + d.seconds == v
  {
  }

  /** The device-info state: the stored device name. */
  function DeviceInfoValue(data: Option<Snapshot>, deviceId: string): (r: Option<string>)
    ensures r.Some? <==> DeviceData(data, deviceId).Some?
    ensures r.Some? ==> r.value == data.value.devices[deviceId].deviceName
  {
    match DeviceData(data, deviceId)
    case Some(record) => Some(record.deviceName)
    case None => None
  }

  datatype DeviceInfoAttributes = DeviceInfoAttributes(
    deviceId: string,
    deviceName: string,
    deviceModel: string,
    osName: string,
    lastSeen: Timestamp,
    deviceMake: string,
    deviceClass: string)

  /** Device-info attributes: the stored device fields. */
  function DeviceInfoAttributesOf(data: Option<Snapshot>, deviceId: string): (r: Option<DeviceInfoAttributes>)
    ensures r.Some? <==> DeviceData(data, deviceId).Some?
    ensures r.Some? ==> var d := data.value.devices[deviceId];
      && r.value.deviceId == d.deviceId && r.value.deviceName == d.deviceName
      && r.value.deviceModel == d.deviceModel && r.value.osName == d.osName
      && r.value.lastSeen == d.lastSeen && r.value.deviceMake == d.deviceMake
      && r.value.deviceClass == d.deviceClass
  {
    match DeviceData(data, deviceId)
    case Some(d) => Some(DeviceInfoAttributes(d.deviceId, d.deviceName, d.deviceModel, d.osName, d.lastSeen, d.deviceMake, d.deviceClass))
    case None => None
  }
}
