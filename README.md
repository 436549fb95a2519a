# Microsoft Family Safety integration — a verified model of its core

The integration connects Home Assistant to a Microsoft Family Safety family. This
project models its two working files in Dafny and proves properties of them.

- **The data coordinator** (`coordinator.py`). Each refresh:
  - creates a client if there is none;
  - asks the client to update;
  - classifies the errors the update can raise;
  - normalises the returned account objects into a snapshot, that is, two maps: account id → account record and device id → device record.

  On the way it keeps two handle tables, `_accounts` and `_devices`. These hold the remote objects that the mutation commands act on. The coordinator also has:
  - the commands themselves: block or unblock a platform, approve or deny a request;
  - the device-to-account lookup;
  - the OS-name-to-platform classifier;
  - cleanup.
- **The sensor platform** (`sensor.py`):
  - which sensor entities setup creates from a snapshot;
  - what each sensor reports: its state, its attributes, its name and its unique id.

Modules:

- `Wrappers` (`wrappers.dfy`): the `Option` type.
- `Text` (`text.dfy`): the Python string operations the code relies on, each with its own properties. These are `in` on strings, `lower()`, `strip()`, `str(n)` and the `02d` format.
- `Snapshots` (`snapshots.dfy`):
  - the remote account, device and application objects;
  - the snapshot records;
  - the normalisation `Normalise`, a fold over the account list that mirrors the code's loop;
  - the handle-table updates.
- `Coordinator` (`coordinator.dfy`):
  - `RefreshStep`, one refresh as a pure function from the state before it and what the client library does;
  - the class `FamilySafetyCoordinator` with the fields the Python object updates. Its method `UpdateData` runs the loops of `_async_update_data` in place and is proved to produce exactly the state and result of `RefreshStep`.
- `Sensors` (`sensors.dfy`): the sensor projections and the entity-setup loops.

The client library is not modelled. Its behaviour is an input:
- `FamilySafety.create` either succeeds (carrying the accounts it fetched) or raises.
- `api.update()` either returns (leaving some account collection, possibly `None`) or raises a `TypeError`, an `HttpException` or any other error, each with its message text. A `TypeError` also leaves the collection as it stood.
- A command's remote call either returns or raises.

`datetime.now()` is a parameter `now`, in seconds. The sensor's ISO date is a parameter `today`.

## Model

| member | source | states |
|---|---|---|
| Text.Contains | custom_components/microsoft_family_safety/coordinator.py:76 | the substring test `sub in s` holds exactly when `sub` occurs in `s` at some offset |
| Text.OccursShift | custom_components/microsoft_family_safety/coordinator.py:76 | when `s` does not start with `sub`, `sub` occurs in `s` exactly when it occurs in `s` without its first character |
| Text.ContainsAt | custom_components/microsoft_family_safety/coordinator.py:152 | an occurrence of `sub` at any offset `i` makes the substring test succeed |
| Text.ContainsLowered | custom_components/microsoft_family_safety/coordinator.py:152 | a word placed anywhere in a text is found in the lower-cased text as the lower-cased word, whatever its case |
| Text.ToLower | custom_components/microsoft_family_safety/coordinator.py:274 | `lower()` keeps the length and maps each character on its own (ASCII letters to lower case) |
| Text.NatToString | custom_components/microsoft_family_safety/sensor.py:52 | `str(n)` for `n >= 0` is all digits, one digit exactly when `n < 10`, no leading zero otherwise |
| Text.IntToString | custom_components/microsoft_family_safety/sensor.py:52 | a negative number prints as a minus sign followed by the digits of its magnitude |
| Text.ParseNatToString | custom_components/microsoft_family_safety/sensor.py:52 | reading the digits back gives the number: rendering is invertible |
| Text.ParseLeadingZero | custom_components/microsoft_family_safety/sensor.py:52 | the zero the `02d` padding adds does not change the value read back |
| Text.Pad2 | custom_components/microsoft_family_safety/sensor.py:52 | `f"{n:02d}"`: a single digit gets a leading "0", everything else (including negatives) prints as `str(n)`, never shorter than two characters |
| Text.Pad2RoundTrip | custom_components/microsoft_family_safety/sensor.py:52 | for `n >= 0` the padded form is all digits and reads back as `n` |
| Text.StripLeading | custom_components/microsoft_family_safety/sensor.py:230 | the result is a suffix of the input, everything cut is whitespace, and it does not start with whitespace |
| Text.StripTrailing | custom_components/microsoft_family_safety/sensor.py:230 | the result is a prefix of the input, everything cut is whitespace, and it does not end with whitespace |
| Text.Strip | custom_components/microsoft_family_safety/sensor.py:230 | `str.strip()`: the result is a block of the input with only whitespace outside it, starting and ending with a non-space |
| Text.StripUnpadded | custom_components/microsoft_family_safety/sensor.py:230 | a string that neither starts nor ends with whitespace is left unchanged |
| Text.StripTrailingSpace | custom_components/microsoft_family_safety/sensor.py:230 | whitespace appended to a string is removed again |
| Text.StripLeadingSpace | custom_components/microsoft_family_safety/sensor.py:230 | whitespace prepended to a string is removed again |
| Snapshots.AppRecordOf | custom_components/microsoft_family_safety/coordinator.py:139-143 | an application record keeps the application's id, name and blocked flag: the application can be read back from it |
| Snapshots.DeviceRecordOf | custom_components/microsoft_family_safety/coordinator.py:119-130 | a device record keeps every field of the device, so the device can be read back from it, and adds the owning account id |
| Snapshots.AccountRecordOf | custom_components/microsoft_family_safety/coordinator.py:100-144 | an account record keeps the account's own fields, lists the ids of its devices in order, and holds a full record of each application in order |
| Snapshots.AppRecords | custom_components/microsoft_family_safety/coordinator.py:138-144 | the application list of a record has one entry per application, in source order, with `app_name` = `name` and `blocked` copied |
| Snapshots.DeviceIds | custom_components/microsoft_family_safety/coordinator.py:133 | the `devices` list of a record holds the account's device ids in source order |
| Snapshots.AddDevices | custom_components/microsoft_family_safety/coordinator.py:117-133 | the device loop adds exactly the account's device ids as keys; every entry it writes is owned by this account; entries for other ids stay |
| Snapshots.AddAccount | custom_components/microsoft_family_safety/coordinator.py:99-144 | one pass of the account loop stores the account's record under its id, adds exactly its device ids to the device map, owned by it, and leaves every other entry as it was |
| Snapshots.Normalise | custom_components/microsoft_family_safety/coordinator.py:92-149 | the snapshot's account keys are the returned account ids; its device keys are all the devices those accounts list; every device record's `account_id` is an account key (referential integrity) |
| Snapshots.NormaliseLastRecord | custom_components/microsoft_family_safety/coordinator.py:99-144 | the record under an account id is built from the last account with that id: its device ids and applications, in source order |
| Snapshots.NormaliseListedDevicesExist | custom_components/microsoft_family_safety/coordinator.py:132-133 | every device id an account record lists is a key of the device map |
| Snapshots.DeviceIdsInAll | custom_components/microsoft_family_safety/coordinator.py:118-132 | each account's device ids are among the snapshot's device keys |
| Snapshots.NormaliseUniqueDevice | custom_components/microsoft_family_safety/coordinator.py:118-133 | when ids are unique, each device of each account is stored as its own record under its id, owned by that account and listed by it |
| Snapshots.AddDevicesLast | custom_components/microsoft_family_safety/coordinator.py:132 | a device not followed by another with the same id keeps its own record (later devices overwrite earlier ones) |
| Snapshots.NormaliseLastDevice | custom_components/microsoft_family_safety/coordinator.py:118-133 | with duplicate device ids allowed, the record under a device id is built from the last device with that id over all the accounts, owned by the account listing it |
| Snapshots.RegisterAccounts | custom_components/microsoft_family_safety/coordinator.py:115 | `_accounts` gains exactly the returned account ids; entries for accounts not returned keep their old handle |
| Snapshots.RegisterDeviceList | custom_components/microsoft_family_safety/coordinator.py:136 | `_devices` gains exactly one account's device ids; other entries stay |
| Snapshots.RegisterDevices | custom_components/microsoft_family_safety/coordinator.py:117-136 | `_devices` gains exactly all returned device ids; entries for devices not returned keep their old handle |
| Snapshots.RegisterAccountsLast | custom_components/microsoft_family_safety/coordinator.py:99-115 | the handle stored under an account id is the last returned account with that id |
| Snapshots.RegisterDeviceListLast | custom_components/microsoft_family_safety/coordinator.py:118-136 | the handle stored under a device id is the last device of the account's list with that id |
| Snapshots.RegisterDevicesLast | custom_components/microsoft_family_safety/coordinator.py:99-136 | the handle stored under a device id is the last returned device with that id, over all accounts |
| Snapshots.RegisterAccountsOverlay | custom_components/microsoft_family_safety/coordinator.py:115 | registering into a table equals overlaying the fresh entries on the old table: only insert or overwrite, never delete |
| Snapshots.RegisterDeviceListOverlay | custom_components/microsoft_family_safety/coordinator.py:136 | the same overlay property for one account's devices |
| Snapshots.RegisterDevicesOverlay | custom_components/microsoft_family_safety/coordinator.py:117-136 | the same overlay property for all devices of a refresh |
| Snapshots.RegisterTwice | custom_components/microsoft_family_safety/coordinator.py:115-136 | registering the same account list twice leaves both tables as registering it once |
| Coordinator.RefreshStep | custom_components/microsoft_family_safety/coordinator.py:65-161 | with no client and a failing create, the refresh raises `ConfigEntryAuthFailed("auth_failed")` and changes nothing; otherwise a client exists afterwards; a published snapshot becomes `data`; a refresh that raises keeps `data` and both handle tables; handles are never dropped and the auth flag is never cleared |
| Coordinator.NoneAccountsGiveEmptySnapshot | custom_components/microsoft_family_safety/coordinator.py:72-89 | a `None` account collection publishes the empty snapshot rather than failing, whether it comes back from `update()` or through the `'NoneType' object is not iterable` `TypeError` |
| Coordinator.OtherTypeErrorFails | custom_components/microsoft_family_safety/coordinator.py:83-84 | any other `TypeError` ends as `UpdateFailed("Unexpected error: …")` (line 159-161) and keeps the published data and the auth flag |
| Coordinator.NoneTypeMessageRecognised | custom_components/microsoft_family_safety/coordinator.py:76 | the library's `TypeError` text is recognised wherever it sits inside a longer message |
| Coordinator.AuthErrorRecognised | custom_components/microsoft_family_safety/coordinator.py:152 | any text containing "401", or "authentication" in any mix of case, counts as an authentication failure |
| Coordinator.AuthEscalatesOnce | custom_components/microsoft_family_safety/coordinator.py:151-157 | with the flag clear, an auth `HttpException` sets it and raises `ConfigEntryAuthFailed("token_expired")`; the next one raises `UpdateFailed("Authentication failed: …")` |
| Coordinator.AuthAfterFlag | custom_components/microsoft_family_safety/coordinator.py:151-156 | in any state with the flag set, however it was reached, an auth `HttpException` raises `UpdateFailed("Authentication failed: …")` and the flag stays set |
| Coordinator.RetryFlagOneShot | custom_components/microsoft_family_safety/coordinator.py:153-155 | no refresh clears the flag, a successful one included; the only refresh that sets it is an auth `HttpException` that escalates |
| Coordinator.NonAuthHttpLeavesFlag | custom_components/microsoft_family_safety/coordinator.py:158 | a non-auth `HttpException` raises `UpdateFailed("Error communicating with API: …")` and leaves the flag as it was |
| Coordinator.FailedRefreshKeepsSnapshot | custom_components/microsoft_family_safety/coordinator.py:151-161 | a refresh that raises keeps the published data and leaves both handle tables untouched |
| Coordinator.RefreshKeepsStaleHandles | custom_components/microsoft_family_safety/coordinator.py:115-136 | a refresh never drops a handle; after a successful one, accounts and devices it did not return keep their old handles |
| Coordinator.RefreshedDevicesResolve | custom_components/microsoft_family_safety/coordinator.py:99-149 | after a successful refresh, the published snapshot is referentially sound and every device resolves through its `account_id` to an account handle |
| Coordinator.RefreshIdempotent | custom_components/microsoft_family_safety/coordinator.py:65-149 | two refreshes against the same remote answer leave the coordinator exactly as one did |
| Coordinator.RefreshWithoutClientCreatesOne | custom_components/microsoft_family_safety/coordinator.py:47-68 | with no client, a refresh whose `FamilySafety.create` succeeds leaves a client in place, and one whose create raises ends in `ConfigEntryAuthFailed("auth_failed")` and changes nothing |
| Coordinator.RefreshAfterCleanup | custom_components/microsoft_family_safety/coordinator.py:47-68 | after cleanup a refresh whose create succeeds makes a new client, since there is no shut-down state |
| Coordinator.PlatformFromOs | custom_components/microsoft_family_safety/coordinator.py:271-280 | Windows exactly when the lower-cased name contains "windows"; no platform exactly when it contains none of "windows", "xbox", "android" and "ios" |
| Coordinator.PlatformFromOsIgnoresCase | custom_components/microsoft_family_safety/coordinator.py:271-280 | two names that agree letter by letter up to case get the same platform |
| Coordinator.PlatformWindowsFirst | custom_components/microsoft_family_safety/coordinator.py:273-275 | a name holding "windows" in any mix of case, at any position, maps to Windows, whatever else it holds |
| Coordinator.PlatformXboxBeforeMobile | custom_components/microsoft_family_safety/coordinator.py:273-277 | a name holding "xbox" in any mix of case, and no "windows", maps to Xbox, whatever else it holds |
| Coordinator.PlatformMobile | custom_components/microsoft_family_safety/coordinator.py:273-279 | a name holding "android" or "ios" in any mix of case, and neither "windows" nor "xbox", maps to Mobile |
| Coordinator.CleanedUp | custom_components/microsoft_family_safety/coordinator.py:283-287 | after cleanup there is no client and both handle tables are empty; the published data and the auth flag stay |
| Coordinator.CleanupIdempotent | custom_components/microsoft_family_safety/coordinator.py:283-287 | cleaning up twice is cleaning up once, and afterwards no account id passes the block and unblock guards |
| Coordinator.Issue | custom_components/microsoft_family_safety/coordinator.py:182-195 | a command makes its remote call; it requests exactly one refresh when the call returns, and none with the error re-raised when the call raises |
| Coordinator.FamilySafetyCoordinator.constructor | custom_components/microsoft_family_safety/coordinator.py:33-45 | a new coordinator has no client, empty handle tables, the flag clear and no data |
| Coordinator.FamilySafetyCoordinator.StoreAccounts | custom_components/microsoft_family_safety/coordinator.py:92-149 | the account loop builds exactly `Normalise(xs)` and extends both handle tables as `RegisterAccounts`/`RegisterDevices` say; nothing else changes |
| Coordinator.FamilySafetyCoordinator.StoreAccount | custom_components/microsoft_family_safety/coordinator.py:99-144 | one pass of the account loop adds the account to the snapshot under construction exactly as `AddAccount` does (its record with device ids and applications in order, then its device records), stores its handle and registers its devices' handles |
| Coordinator.FamilySafetyCoordinator.StoreDevices | custom_components/microsoft_family_safety/coordinator.py:117-136 | the device loop returns the account's device ids in order and the device map extended as `AddDevices` says (every record owned by the account), and registers each device's handle |
| Coordinator.FamilySafetyCoordinator.StoreApplications | custom_components/microsoft_family_safety/coordinator.py:138-144 | the application loop appends one application record per application, in order |
| Coordinator.FamilySafetyCoordinator.UpdateData | custom_components/microsoft_family_safety/coordinator.py:65-161 | the in-place refresh leaves the state and returns the result that `RefreshStep` specifies, so every refresh lemma above holds of it |
| Coordinator.FamilySafetyCoordinator.BlockPlatform | custom_components/microsoft_family_safety/coordinator.py:163-195 | an unknown account raises `ValueError` before any remote call. A duration that takes now + duration past the years `datetime` holds raises `OverflowError` before any call. Otherwise the call is an `UNTIL` override on that account's handle; `valid_until` is unset exactly when the duration is missing or 0, and is now + duration minutes otherwise; one refresh follows a call that returns, and a call that raises has its error re-raised |
| Coordinator.FamilySafetyCoordinator.UnblockPlatform | custom_components/microsoft_family_safety/coordinator.py:197-219 | an unknown account raises `ValueError` before any remote call; otherwise a `CANCEL` override valid until now, followed by one refresh when it returns; a call that raises has its error re-raised |
| Coordinator.FamilySafetyCoordinator.ApproveRequest | custom_components/microsoft_family_safety/coordinator.py:221-231 | without a client it raises `ValueError("API not initialized")` and makes no call; otherwise it approves the request with its extension; one refresh follows success, and a raising call has its error re-raised |
| Coordinator.FamilySafetyCoordinator.DenyRequest | custom_components/microsoft_family_safety/coordinator.py:233-243 | without a client it raises `ValueError("API not initialized")` and makes no call; otherwise it denies the request; one refresh follows success, and a raising call has its error re-raised |
| Coordinator.FamilySafetyCoordinator.GetAccountForDevice | custom_components/microsoft_family_safety/coordinator.py:245-255 | it finds a handle exactly when there is data, the device is in it and its owning account has a handle, and then it is that account's handle |
| Coordinator.FamilySafetyCoordinator.GetPlatformsForAccount | custom_components/microsoft_family_safety/coordinator.py:257-269 | the empty set without data; otherwise exactly the platforms that some device of the account classifies to, with unclassified devices left out |
| Coordinator.FamilySafetyCoordinator.Cleanup | custom_components/microsoft_family_safety/coordinator.py:283-287 | the new state is `CleanedUp` of the old one |
| Sensors.FormatDurationAttributes | custom_components/microsoft_family_safety/sensor.py:40-56 | `hours*3600 + minutes*60 + seconds` equals the total, minutes and seconds lie in 0..59, hours are non-negative for a non-negative total, `total_seconds` is the input, and `formatted_time` joins the three padded parts with ":" |
| Sensors.FormattedTimeRoundTrip | custom_components/microsoft_family_safety/sensor.py:52 | for a non-negative total, `formatted_time` reads back as the total however many digits the hours take: the string loses nothing |
| Sensors.AccountSensors | custom_components/microsoft_family_safety/sensor.py:59-75 | three sensors for the account, plus a balance sensor exactly when a balance is present, all different |
| Sensors.DeviceSensors | custom_components/microsoft_family_safety/sensor.py:78-87 | two different sensors for the device, screen time and info |
| Sensors.DistinctAppend | custom_components/microsoft_family_safety/sensor.py:102 | extending the entity list with sensors of a new account or device keeps it free of duplicates |
| Sensors.AccountSensorsStep | custom_components/microsoft_family_safety/sensor.py:101-102 | one pass of the account loop adds exactly that account's sensors, without duplicates |
| Sensors.CreateAccountSensors | custom_components/microsoft_family_safety/sensor.py:101-102 | the account loop makes 3 sensors per account plus 1 per account with a balance; an account sensor is made exactly when its account is present (a balance sensor only with a balance), each once |
| Sensors.CreateDeviceSensors | custom_components/microsoft_family_safety/sensor.py:104-105 | the device loop makes 2 sensors per device; a device sensor is made exactly when its device is present, each once |
| Sensors.SetupEntities | custom_components/microsoft_family_safety/sensor.py:90-107 | no entities without data; otherwise 3 per account + 1 per account with a balance + 2 per device, exactly the sensors the snapshot calls for, no duplicates, every account sensor before every device sensor |
| Sensors.AccountData | custom_components/microsoft_family_safety/sensor.py:124-128 | a record is found exactly when there is data holding the account id, and then it is the stored record |
| Sensors.DeviceData | custom_components/microsoft_family_safety/sensor.py:150-154 | a record is found exactly when there is data holding the device id, and then it is the stored record |
| Sensors.AccountName | custom_components/microsoft_family_safety/sensor.py:130-133 | the stored first name when the record exists, "Unknown" when it does not |
| Sensors.DeviceName | custom_components/microsoft_family_safety/sensor.py:156-159 | the stored device name when the record exists, "Unknown Device" when it does not |
| Sensors.EntityName | custom_components/microsoft_family_safety/sensor.py:179 | a sensor's name starts with its account's name (device sensors: its device's name), followed by a space; the same holds at lines 219, 270, 312, 342 and 382 |
| Sensors.EntityNamesDiffer | custom_components/microsoft_family_safety/sensor.py:179-382 | the kind labels (lines 179, 219, 270, 312, 342, 382) keep names apart: two different sensors of the same account, or of the same device, never share a name |
| Sensors.EntityNameFallback | custom_components/microsoft_family_safety/sensor.py:179 | a sensor built without its record is named after "Unknown" (account sensors) or "Unknown Device" (device sensors); the same applies at lines 219, 270, 312, 342 and 382 |
| Sensors.UniqueId | custom_components/microsoft_family_safety/sensor.py:178 | the unique id is the entry id, "_", the account or device id, "_" and the kind's suffix, each part at its own place; the same holds at lines 218, 269, 309, 341 and 381 |
| Sensors.UniqueIdCollision | custom_components/microsoft_family_safety/sensor.py:178 | two different sensors share a unique id only when one is an account sensor and the other a device sensor for an equal id; per-kind suffixes (lines 218, 269, 309, 341, 381) never clash |
| Sensors.ScreenTimeValue | custom_components/microsoft_family_safety/sensor.py:181-185 | the state is the stored `today_screentime_usage`, and there is none without a record |
| Sensors.ScreenTimeAttributesOf | custom_components/microsoft_family_safety/sensor.py:187-202 | attributes exist exactly when the record does; they carry its user id, its average usage, state class "total", the current date, and the duration split of the stored usage |
| Sensors.ScreenTimeReadingsAgree | custom_components/microsoft_family_safety/sensor.py:187-202 | the state and the attributes read the same stored integer, the attributes splitting it as seconds with no conversion between the two; both are absent together |
| Sensors.AccountInfoValue | custom_components/microsoft_family_safety/sensor.py:221-226 | there is a state exactly when there is a record, and it is the display name of the record's first name and surname |
| Sensors.DisplayName | custom_components/microsoft_family_safety/sensor.py:228-230 | the display name is "first surname" with only surrounding whitespace cut off |
| Sensors.DisplayNameJoins | custom_components/microsoft_family_safety/sensor.py:230 | with both names present and unpadded, the display name is exactly first name, space, surname |
| Sensors.DisplayNameNoSurname | custom_components/microsoft_family_safety/sensor.py:230 | with an empty surname, the separating space disappears and the display name is the stripped first name |
| Sensors.DisplayNameNoFirstName | custom_components/microsoft_family_safety/sensor.py:230 | with an empty first name, the display name is the stripped surname |
| Sensors.StripAppendedSpace | custom_components/microsoft_family_safety/sensor.py:230 | a trailing space does not survive `strip()` |
| Sensors.AllSpaceStripsLeading | custom_components/microsoft_family_safety/sensor.py:230 | an all-whitespace string strips to nothing |
| Sensors.StripLeadingAppend | custom_components/microsoft_family_safety/sensor.py:230 | once a string has a non-space, text appended after it is untouched by left-stripping |
| Sensors.AccountInfoAttributesOf | custom_components/microsoft_family_safety/sensor.py:232-246 | attributes exist exactly when the record does; `user_id`, `first_name`, `surname` and `profile_picture` are the record's, and `device_count` and `application_count` are the lengths of its lists |
| Sensors.EntityPicture | custom_components/microsoft_family_safety/sensor.py:248-252 | a picture exists exactly when the record does, and it is the stored profile picture |
| Sensors.BlockedApps | custom_components/microsoft_family_safety/sensor.py:286 | the blocked applications are exactly the listed ones with `blocked` set, each as many times as it is listed; no more of them than applications, and all of them exactly when every application is blocked |
| Sensors.ApplicationCountValue | custom_components/microsoft_family_safety/sensor.py:272-276 | the state is the number of listed applications, and there is none without a record |
| Sensors.ApplicationAttributesOf | custom_components/microsoft_family_safety/sensor.py:278-291 | attributes exist exactly when the record does; `blocked_count` is the number of blocked applications and `applications` is the record's list |
| Sensors.BlockedCountBounded | custom_components/microsoft_family_safety/sensor.py:272-291 | `blocked_count` never exceeds the state, and equals it exactly when every application is blocked |
| Sensors.BalanceValue | custom_components/microsoft_family_safety/sensor.py:318-322 | the stored balance, none without a record |
| Sensors.BalanceUnit | custom_components/microsoft_family_safety/sensor.py:311-316 | the unit is the stored currency when the record is present at construction, unset otherwise |
| Sensors.DeviceScreenTimeValue | custom_components/microsoft_family_safety/sensor.py:344-348 | the state is the stored `today_time_used`, and there is none without a record |
| Sensors.DeviceScreenTimeAttributesOf | custom_components/microsoft_family_safety/sensor.py:350-365 | attributes exist exactly when the record does; they carry its device id and name, state class "total", the current date, and the duration split of the stored usage |
| Sensors.DeviceScreenTimeReadingsAgree | custom_components/microsoft_family_safety/sensor.py:350-365 | as for accounts: the same integer, unconverted, read as minutes by the state and split as seconds by the attributes |
| Sensors.DeviceInfoValue | custom_components/microsoft_family_safety/sensor.py:384-388 | the state is the stored device name, none without a record |
| Sensors.DeviceInfoAttributesOf | custom_components/microsoft_family_safety/sensor.py:390-405 | attributes exist exactly when the record does; device id, name, model, OS name, last seen, make and class are the stored device's |

## Left out

- Host framework. Not modelled:
  - the scheduling of refreshes, the single-flight guarantee and `async_request_refresh` (modelled only as a count of refresh requests);
  - entity registration, `CoordinatorEntity` and async/await;
  - logging.

  The host's storing of a returned snapshot as `data` is folded into `UpdateData`.
- The client library (`FamilySafety`, `Account`, `Device`, `OverrideTarget`, `OverrideType`) is not part of this model. Its calls are inputs: an outcome per call.
  - `OverrideTarget` is modelled as its three members Windows, Xbox and Mobile, all assumed truthy for the `if platform:` test.
- Python dictionary iteration order. Maps are unordered, so entity setup and `get_platforms_for_account` visit ids in an unspecified order. Setup's order is stated only as "every account sensor before every device sensor".
- An exception raised part-way through the normalisation loops is not modelled. An example is a remote device list that is `None`, which the code would report as `UpdateFailed("Unexpected error: …")` after partly updating the handle tables. Remote lists are modelled as always present.
- Coordinator.RefreshStep: after an `HttpException` or another error, the client's account collection is modelled as unchanged by the failed `update()`. After a `TypeError`, it is modelled as the collection the error left.
- `str.lower()` is modelled for ASCII letters only. Other case mappings do not matter for the ASCII keywords the classifier looks for.
- `account_balance` is a `real`, not a binary float. `last_seen` and `now` are integer seconds counted from the first instant of year 1, and `today` is an opaque string.
- Coordinator.FamilySafetyCoordinator.BlockPlatform: the `OverflowError` is modelled by its kind only, `DateOutOfRange`, without Python's message text, and `now` has no fraction of a second, so the range test is exact to the second.
- Sensor constants with no behaviour are not modelled: icons, device classes, units of measurement and state classes.
- The `.get(key, default)` defaults for a record that is present are unreachable here and are not modelled. These are "USD" for the currency, 0 for screen time and "" for names. Every snapshot record carries every key, so only the missing-record fallbacks can fire.
- `config_flow.py`, `switch.py`, `__init__.py` and `const.py` are not part of this model. They hold the OAuth flow, a platform that is never loaded, setup glue and constants; their keys appear here as field names.
- The usage counters are copied from the remote objects as they are, with no millisecond-to-minute conversion, because the code does none. The sensors read one stored integer as minutes for the state and as seconds for the attributes, and the model keeps that as written.
- A successful refresh does not clear `_is_retrying_auth`, because the code never resets it.
- There is no shut-down state: after cleanup a refresh creates a new client.
