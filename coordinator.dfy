/**
 * The Family Safety data-update coordinator: one refresh of the snapshot with its error
 * classification and one-shot auth flag, the handle tables that guard the mutation
 * commands, the commands themselves, the platform lookups and the cleanup.
 *
 * Calls into the client library are not executed: their outcomes are parameters
 * (`CreateOutcome`, `UpdateOutcome`, `CallOutcome`), and the remote calls the coordinator
 * issues are returned as values (`RemoteCall`).
 */
module Coordinator {
  import opened Wrappers
  import opened Text
  import opened Snapshots

  /** The `OverrideTarget` values the coordinator maps operating systems to. */
  datatype Platform = Windows | Xbox | Mobile

  datatype OverrideType = Until | Cancel

  /** The client object; the coordinator reads and writes its `accounts` attribute. */
  datatype Api = Api(accounts: Option<seq<RemoteAccount>>)

  /** What `FamilySafety.create` did: built a client (with whatever accounts it fetched) or raised. */
  datatype CreateOutcome = Created(accounts: Option<seq<RemoteAccount>>) | CreateRaised(message: string)

  /**
   * What `api.update()` did: it either set `api.accounts` (possibly to `None`), or raised a
   * `TypeError` (leaving `api.accounts` as `accountsLeft`), an `HttpException`, or anything else.
   */
  datatype UpdateOutcome =
    | Updated(accounts: Option<seq<RemoteAccount>>)
    | RaisedTypeError(message: string, accountsLeft: Option<seq<RemoteAccount>>)
    | RaisedHttpException(message: string)
    | RaisedOther(message: string)

  /** How a refresh ends: a new snapshot, `ConfigEntryAuthFailed(reason)` or `UpdateFailed(message)`. */
  datatype RefreshResult =
    | Published(snapshot: Snapshot)
    | ConfigEntryAuthFailed(reason: string)
    | UpdateFailed(message: string)

  /** The coordinator's fields: `api`, `_accounts`, `_devices`, `_is_retrying_auth` and the published `data`. */
  datatype CoordinatorState = CoordinatorState(
    api: Option<Api>,
    accounts: map<string, RemoteAccount>,
    devices: map<string, RemoteDevice>,
    isRetryingAuth: bool,
    data: Option<Snapshot>)

  datatype Step = Step(state: CoordinatorState, result: RefreshResult)

  const ERROR_AUTH_FAILED := "auth_failed"
  const ERROR_TOKEN_EXPIRED := "token_expired"
  const NONE_NOT_ITERABLE := "'NoneType' object is not iterable"

  const InitialState := CoordinatorState(None, map[], map[], false, None)

  /** An `HttpException` counts as an authentication failure when its text says 401 or "authentication" in any case. */
  predicate IsAuthError(message: string) {
    Contains(message, "401") || Contains(ToLower(message), "authentication")
  }

  // ---------------------------------------------------------------------------
  // One refresh, as a function of the state before it and the library's behaviour

  /** A successful refresh over the account list `xs`: handle tables extended, snapshot published. */
  function Succeed(s: CoordinatorState, xs: seq<RemoteAccount>): Step {
    var snapshot := Normalise(xs);
    Step(CoordinatorState(Some(Api(Some(xs))),
                          RegisterAccounts(s.accounts, xs),
                          RegisterDevices(s.devices, xs),
                          s.isRetryingAuth,
                          Some(snapshot)),
         Published(snapshot))
  }

  /**
   * `_async_update_data` followed by the host storing a returned snapshot as `data`.
   * A client is created first when there is none; a `None` account collection, directly
   * or through the library's "'NoneType' object is not iterable" `TypeError`, is read as
   * no accounts; an auth-looking `HttpException` escalates once and then fails plainly.
   */
  function RefreshStep(s: CoordinatorState, create: CreateOutcome, update: UpdateOutcome): (r: Step)
    ensures !ClientAvailable(s, create) ==> r == Step(s, ConfigEntryAuthFailed(ERROR_AUTH_FAILED))
    ensures ClientAvailable(s, create) ==> r.state.api.Some?
    ensures r.result.Published? ==> r.state.data == Some(r.result.snapshot)
    ensures !r.result.Published? ==> r.state.data == s.data && r.state.accounts == s.accounts && r.state.devices == s.devices
    ensures s.accounts.Keys <= r.state.accounts.Keys && s.devices.Keys <= r.state.devices.Keys
    ensures s.isRetryingAuth ==> r.state.isRetryingAuth
  {
    if s.api.None? && create.CreateRaised? then
      Step(s, ConfigEntryAuthFailed(ERROR_AUTH_FAILED))
    else
      var api := if s.api.Some? then s.api.value else Api(create.accounts);
      match update
      case Updated(accounts) =>
        Succeed(s, accounts.GetOr([]))
      case RaisedTypeError(message, left) =>
        if Contains(message, NONE_NOT_ITERABLE) then Succeed(s, left.GetOr([]))
        else Step(s.(api := Some(Api(left))), UpdateFailed("Unexpected error: " + message))
      case RaisedHttpException(message) =>
        if !IsAuthError(message) then
          Step(s.(api := Some(api)), UpdateFailed("Error communicating with API: " + message))
        else if !s.isRetryingAuth then
          Step(s.(api := Some(api), isRetryingAuth := true), ConfigEntryAuthFailed(ERROR_TOKEN_EXPIRED))
        else
          Step(s.(api := Some(api)), UpdateFailed("Authentication failed: " + message))
      case RaisedOther(message) =>
        Step(s.(api := Some(api)), UpdateFailed("Unexpected error: " + message))
  }

  /** A client exists, or creating one succeeds: the refresh gets as far as `api.update()`. */
  predicate ClientAvailable(s: CoordinatorState, create: CreateOutcome) {
    s.api.Some? || create.Created?
  }

  // ---------------------------------------------------------------------------
  // Properties of a refresh

  /** A `None` account collection, returned or reported through the known `TypeError`, publishes an empty snapshot. */
  lemma NoneAccountsGiveEmptySnapshot(s: CoordinatorState, create: CreateOutcome, message: string)
    requires ClientAvailable(s, create)
    requires Contains(message, NONE_NOT_ITERABLE)
    ensures RefreshStep(s, create, Updated(None)).result == Published(EmptySnapshot)
    ensures RefreshStep(s, create, RaisedTypeError(message, None)).result == Published(EmptySnapshot)
  {
  }

  /** Any other `TypeError` ends as `UpdateFailed`, and leaves the published snapshot and auth flag alone. */
  lemma OtherTypeErrorFails(s: CoordinatorState, create: CreateOutcome, message: string, left: Option<seq<RemoteAccount>>)
    requires ClientAvailable(s, create)
    requires !Contains(message, NONE_NOT_ITERABLE)
    ensures var step := RefreshStep(s, create, RaisedTypeError(message, left));
      && step.result == UpdateFailed("Unexpected error: " + message)
      && step.state.data == s.data && step.state.isRetryingAuth == s.isRetryingAuth
  {
  }

  /** The exact `TypeError` text of the library bug is recognised inside a longer message. */
  lemma NoneTypeMessageRecognised(prefix: string, suffix: string)
    ensures Contains(prefix + NONE_NOT_ITERABLE + suffix, NONE_NOT_ITERABLE)
  {
    var m := prefix + NONE_NOT_ITERABLE + suffix;
    assert m[|prefix|..|prefix| + |NONE_NOT_ITERABLE|] == NONE_NOT_ITERABLE;
    ContainsAt(m, NONE_NOT_ITERABLE, |prefix|);
  }

  /**
   * The first auth-looking `HttpException` sets the flag and raises `ConfigEntryAuthFailed`;
   * the next one only raises `UpdateFailed` (`AuthAfterFlag` covers any later one).
   */
  lemma AuthEscalatesOnce(s: CoordinatorState, create: CreateOutcome, message: string,
                          create2: CreateOutcome, message2: string)
    requires ClientAvailable(s, create) && !s.isRetryingAuth
    requires IsAuthError(message) && IsAuthError(message2)
    ensures var first := RefreshStep(s, create, RaisedHttpException(message));
      && first.result == ConfigEntryAuthFailed(ERROR_TOKEN_EXPIRED)
      && first.state.isRetryingAuth
      && RefreshStep(first.state, create2, RaisedHttpException(message2)).result
           == UpdateFailed("Authentication failed: " + message2)
  {
  }

  /**
   * Once the flag is set, by whatever refreshes came before, an auth-looking
   * `HttpException` only raises `UpdateFailed` and leaves the state as it was.
   */
  lemma AuthAfterFlag(s: CoordinatorState, create: CreateOutcome, message: string)
    requires ClientAvailable(s, create) && s.isRetryingAuth && IsAuthError(message)
    ensures RefreshStep(s, create, RaisedHttpException(message)).result
              == UpdateFailed("Authentication failed: " + message)
    ensures RefreshStep(s, create, RaisedHttpException(message)).state.isRetryingAuth
  {
  }

  /** Any text holding "401", or "authentication" in any mix of case, is an authentication failure. */
  lemma AuthErrorRecognised(prefix: string, word: string, suffix: string)
    requires ToLower(word) == "authentication" || word == "401"
    ensures IsAuthError(prefix + word + suffix)
  {
    if word == "401" {
      var m := prefix + word + suffix;
      assert m[|prefix|..|prefix| + |word|] == word;
      ContainsAt(m, "401", |prefix|);
    } else {
      ContainsLowered(prefix, word, suffix);
    }
  }

  /**
   * The auth flag is one-shot: no refresh ever clears it (a successful one included), and
   * the only refresh that sets it is an auth-looking `HttpException` that escalates.
   */
  lemma RetryFlagOneShot(s: CoordinatorState, create: CreateOutcome, update: UpdateOutcome)
    ensures s.isRetryingAuth ==> RefreshStep(s, create, update).state.isRetryingAuth
    ensures !s.isRetryingAuth && RefreshStep(s, create, update).state.isRetryingAuth ==>
      && update.RaisedHttpException? && IsAuthError(update.message)
      && RefreshStep(s, create, update).result == ConfigEntryAuthFailed(ERROR_TOKEN_EXPIRED)
  {
  }

  /** A non-auth `HttpException` raises `UpdateFailed` and leaves the flag as it was. */
  lemma NonAuthHttpLeavesFlag(s: CoordinatorState, create: CreateOutcome, message: string)
    requires ClientAvailable(s, create) && !IsAuthError(message)
    ensures var step := RefreshStep(s, create, RaisedHttpException(message));
      && step.result == UpdateFailed("Error communicating with API: " + message)
      && step.state.isRetryingAuth == s.isRetryingAuth
  {
  }

  /** A refresh that fails keeps the previously published snapshot and never shrinks the handle tables. */
  lemma FailedRefreshKeepsSnapshot(s: CoordinatorState, create: CreateOutcome, update: UpdateOutcome)
    requires !RefreshStep(s, create, update).result.Published?
    ensures RefreshStep(s, create, update).state.data == s.data
    ensures RefreshStep(s, create, update).state.accounts == s.accounts
    ensures RefreshStep(s, create, update).state.devices == s.devices
  {
  }

  /**
   * A refresh only inserts or overwrites handle-table entries: the old keys stay, and an
   * entry for an account or device that the refresh did not return keeps its old handle.
   */
  lemma RefreshKeepsStaleHandles(s: CoordinatorState, create: CreateOutcome, update: UpdateOutcome)
    ensures var step := RefreshStep(s, create, update);
      && s.accounts.Keys <= step.state.accounts.Keys
      && s.devices.Keys <= step.state.devices.Keys
      && (step.result.Published? ==>
            && (forall k :: k in s.accounts && k !in step.result.snapshot.accounts ==> step.state.accounts[k] == s.accounts[k])
            && (forall k :: k in s.devices && k !in step.result.snapshot.devices ==> step.state.devices[k] == s.devices[k]))
  {
  }

  /**
   * After a successful refresh the published snapshot is referentially sound, and every
   * device in it resolves, through its `account_id`, to an account handle.
   */
  lemma RefreshedDevicesResolve(s: CoordinatorState, create: CreateOutcome, update: UpdateOutcome)
    requires RefreshStep(s, create, update).result.Published?
    ensures var step := RefreshStep(s, create, update);
      var snap := step.result.snapshot;
      && step.state.data == Some(snap)
      && (forall d :: d in snap.devices ==> snap.devices[d].accountId in snap.accounts)
      && (forall d :: d in snap.devices ==> snap.devices[d].accountId in step.state.accounts)
  {
    var xs := if update.Updated? then update.accounts.GetOr([]) else update.accountsLeft.GetOr([]);
    assert RefreshStep(s, create, update) == Succeed(s, xs);
    SucceedResolves(s, xs);
  }

  /** Every device of the snapshot a successful refresh publishes resolves to an account handle. */
  lemma SucceedResolves(s: CoordinatorState, xs: seq<RemoteAccount>)
    ensures var snap := Normalise(xs);
      forall d :: d in snap.devices ==> snap.devices[d].accountId in RegisterAccounts(s.accounts, xs)
  {
  }

  /** Refreshing twice against an unchanged remote answer leaves the coordinator as one refresh did. */
  lemma RefreshIdempotent(s: CoordinatorState, create: CreateOutcome, create2: CreateOutcome, accounts: Option<seq<RemoteAccount>>)
    requires ClientAvailable(s, create)
    ensures var first := RefreshStep(s, create, Updated(accounts));
      RefreshStep(first.state, create2, Updated(accounts)) == first
  {
    RegisterTwice(s.accounts, s.devices, accounts.GetOr([]));
  }

  /**
   * A coordinator without a client (new, or cleaned up) creates one again: whatever the
   * update then does, the coordinator has a client afterwards. If creating raises, nothing changes.
   */
  lemma RefreshWithoutClientCreatesOne(s: CoordinatorState, fetched: Option<seq<RemoteAccount>>, message: string, update: UpdateOutcome)
    requires s.api.None?
    ensures RefreshStep(s, Created(fetched), update).state.api.Some?
    ensures RefreshStep(s, CreateRaised(message), update) == Step(s, ConfigEntryAuthFailed(ERROR_AUTH_FAILED))
  {
  }

  /** In particular, cleaning up does not shut the coordinator down: the next refresh makes a new client. */
  lemma RefreshAfterCleanup(s: CoordinatorState, fetched: Option<seq<RemoteAccount>>, update: UpdateOutcome)
    ensures RefreshStep(CleanedUp(s), Created(fetched), update).state.api.Some?
  {
    RefreshWithoutClientCreatesOne(CleanedUp(s), fetched, "", update);
  }

  // ---------------------------------------------------------------------------
  // Platforms

  /** `_get_platform_from_os`: Windows first, then Xbox, then Android or iOS as mobile, ignoring case. */
  function PlatformFromOs(osName: string): (r: Option<Platform>)
    ensures r == Some(Windows) <==> Contains(ToLower(osName), "windows")
    ensures r.None? <==>
      && !Contains(ToLower(osName), "windows") && !Contains(ToLower(osName), "xbox")
      && !Contains(ToLower(osName), "android") && !Contains(ToLower(osName), "ios")
  {
    var os := ToLower(osName);
    if Contains(os, "windows") then Some(Windows)
    else if Contains(os, "xbox") then Some(Xbox)
    else if Contains(os, "android") || Contains(os, "ios") then Some(Mobile)
    else None
  }

  /** Letter case does not matter: names that agree up to the case of their letters map to the same platform. */
  lemma PlatformFromOsIgnoresCase(a: string, b: string)
    requires |a| == |b|
    requires forall i :: 0 <= i < |a| ==> LowerChar(a[i]) == LowerChar(b[i])
    ensures PlatformFromOs(a) == PlatformFromOs(b)
  {
    assert ToLower(a) == ToLower(b);
  }

  /** A name holding "windows" in any case, anywhere, maps to Windows, whatever else it holds. */
  lemma PlatformWindowsFirst(prefix: string, word: string, suffix: string)
    requires ToLower(word) == "windows"
    ensures PlatformFromOs(prefix + word + suffix) == Some(Windows)
  {
    ContainsLowered(prefix, word, suffix);
  }

  /** Without "windows", a name holding "xbox" in any case, anywhere, maps to Xbox, even when it also names a mobile system. */
  lemma PlatformXboxBeforeMobile(prefix: string, word: string, suffix: string)
    requires ToLower(word) == "xbox"
    requires !Contains(ToLower(prefix + word + suffix), "windows")
    ensures PlatformFromOs(prefix + word + suffix) == Some(Xbox)
  {
    ContainsLowered(prefix, word, suffix);
  }

  /** Without "windows" or "xbox", a name holding "android" or "ios" in any case, anywhere, maps to Mobile. */
  lemma PlatformMobile(prefix: string, word: string, suffix: string)
    requires ToLower(word) == "android" || ToLower(word) == "ios"
    requires !Contains(ToLower(prefix + word + suffix), "windows")
    requires !Contains(ToLower(prefix + word + suffix), "xbox")
    ensures PlatformFromOs(prefix + word + suffix) == Some(Mobile)
  {
    ContainsLowered(prefix, word, suffix);
  }

  /** Some device of the snapshot belongs to `accountId` and runs on `p`. */
  ghost predicate HasDeviceOn(s: Snapshot, accountId: string, p: Platform) {
    exists k :: k in s.devices && s.devices[k].accountId == accountId && PlatformFromOs(s.devices[k].osName) == Some(p)
  }

  // ---------------------------------------------------------------------------
  // Cleanup

  /** The state `async_cleanup` leaves: no client and empty handle tables; the published data and the flag stay. */
  function CleanedUp(s: CoordinatorState): (r: CoordinatorState)
    ensures r.api.None? && r.accounts == map[] && r.devices == map[]
    ensures r.data == s.data && r.isRetryingAuth == s.isRetryingAuth
  {
    s.(api := None, accounts := map[], devices := map[])
  }

  /** Cleaning up twice is cleaning up once; afterwards every command is refused before any remote call. */
  lemma CleanupIdempotent(s: CoordinatorState)
    ensures CleanedUp(CleanedUp(s)) == CleanedUp(s)
    ensures forall accountId :: accountId !in CleanedUp(s).accounts
  {
  }

  // ---------------------------------------------------------------------------
  // Mutation commands

  /** A call the coordinator makes into the client library. */
  datatype RemoteCall =
    | OverrideDevice(account: RemoteAccount, target: Platform, override: OverrideType, validUntil: Option<Timestamp>)
    | ApprovePendingRequest(requestId: string, extensionTime: int)
    | DenyPendingRequest(requestId: string)

  /** Whether that call returned or raised. */
  datatype CallOutcome = CallSucceeded | CallRaised(message: string)

  /**
   * The error a command raises: its own `ValueError`, the client library's error re-raised,
   * or the `OverflowError` of a `datetime` pushed past the years 1 to 9999.
   */
  datatype CommandError = ValueError(message: string) | Reraised(message: string) | DateOutOfRange

  /** One second past 9999-12-31T23:59:59, the last instant a `datetime` can hold. */
  const DATETIME_END: int := 3652059 * 86400

  predicate InDateRange(t: Timestamp) {
    0 <= t < DATETIME_END
  }

  /** Whether `now` plus the block's duration leaves the range of `datetime`. */
  predicate BlockOverflows(now: Timestamp, durationMinutes: Option<int>) {
    durationMinutes.Some? && durationMinutes.value != 0 && !InDateRange(now + 60 * durationMinutes.value)
  }

  /** The remote call made (if any), how many refreshes were requested, and the error raised (if any). */
  datatype CommandResult = CommandResult(call: Option<RemoteCall>, refreshRequests: nat, error: Option<CommandError>)

  /** Make `call`; when it returns, request one refresh; when it raises, re-raise its error. */
  function Issue(call: RemoteCall, outcome: CallOutcome): (r: CommandResult)
    ensures r.call == Some(call)
    ensures r.refreshRequests == 1 <==> outcome.CallSucceeded?
    ensures r.refreshRequests <= 1
    ensures r.error.None? <==> outcome.CallSucceeded?
    ensures outcome.CallRaised? ==> r.error == Some(Reraised(outcome.message))
  {
    match outcome
    case CallSucceeded => CommandResult(Some(call), 1, None)
    case CallRaised(message) => CommandResult(Some(call), 0, Some(Reraised(message)))
  }

  /** The command fails before reaching the client library. */
  function Refuse(message: string): CommandResult {
    CommandResult(None, 0, Some(ValueError(message)))
  }

  // ---------------------------------------------------------------------------
  // The coordinator object

  class FamilySafetyCoordinator {
    var api: Option<Api>
    var accountHandles: map<string, RemoteAccount>
    var deviceHandles: map<string, RemoteDevice>
    var isRetryingAuth: bool
    var data: Option<Snapshot>

    function State(): CoordinatorState
      reads this
    {
      CoordinatorState(api, accountHandles, deviceHandles, isRetryingAuth, data)
    }

    constructor ()
      ensures State() == InitialState
    {
      api := None;
      accountHandles := map[];
      deviceHandles := map[];
      isRetryingAuth := false;
      data := None;
    }

    /**
     * The loops of `_async_update_data`: build the snapshot from `xs` and store every
     * account and device object in the handle tables.
     */
    method StoreAccounts(xs: seq<RemoteAccount>) returns (snapshot: Snapshot)
      modifies this`accountHandles, this`deviceHandles
      ensures snapshot == Normalise(xs)
      ensures accountHandles == RegisterAccounts(old(accountHandles), xs)
      ensures deviceHandles == RegisterDevices(old(deviceHandles), xs)
    {
      var accountsData: map<string, AccountRecord> := map[];
      var devicesData: map<string, DeviceRecord> := map[];
      for i := 0 to |xs|
        invariant Snapshot(accountsData, devicesData) == Normalise(xs[..i])
        invariant accountHandles == RegisterAccounts(old(accountHandles), xs[..i])
        invariant deviceHandles == RegisterDevices(old(deviceHandles), xs[..i])
      {
        accountsData, devicesData := StoreAccount(accountsData, devicesData, xs[i]);
        assert xs[..i + 1][..i] == xs[..i];
      }
      assert xs[..|xs|] == xs;
      snapshot := Snapshot(accountsData, devicesData);
    }

    /**
     * One pass of the account loop: the account's record and handle, then its devices and
     * applications. The record's `devices` and `applications` lists, which the loops fill
     * in place, are built as `deviceIds` and `applications` and stored with the record.
     */
    method StoreAccount(accountsData: map<string, AccountRecord>, devicesData: map<string, DeviceRecord>, account: RemoteAccount)
      returns (accountsOut: map<string, AccountRecord>, devicesOut: map<string, DeviceRecord>)
      modifies this`accountHandles, this`deviceHandles
      ensures Snapshot(accountsOut, devicesOut) == AddAccount(Snapshot(accountsData, devicesData), account)
      ensures accountHandles == old(accountHandles)[account.userId := account]
      ensures deviceHandles == RegisterDeviceList(old(deviceHandles), account.devices)
    {
      accountHandles := accountHandles[account.userId := account];
      var deviceIds;
      deviceIds, devicesOut := StoreDevices(devicesData, account);
      var applications := StoreApplications(account);
      accountsOut := accountsData[account.userId := BareAccountRecord(account).(devices := deviceIds, applications := applications)];
    }

    /** The device loop for one account: list each device id, store its record owned by the account, and its handle. */
    method StoreDevices(devicesData: map<string, DeviceRecord>, account: RemoteAccount)
      returns (deviceIds: seq<string>, devicesOut: map<string, DeviceRecord>)
      modifies this`deviceHandles
      ensures deviceIds == DeviceIds(account.devices)
      ensures devicesOut == AddDevices(devicesData, account.userId, account.devices)
      ensures deviceHandles == RegisterDeviceList(old(deviceHandles), account.devices)
    {
      var accountId := account.userId;
      var ds := account.devices;
      deviceIds, devicesOut := [], devicesData;
      for j := 0 to |ds|
        invariant deviceIds == DeviceIds(ds[..j])
        invariant devicesOut == AddDevices(devicesData, accountId, ds[..j])
        invariant deviceHandles == RegisterDeviceList(old(deviceHandles), ds[..j])
      {
        var device := ds[j];
        DeviceStep(devicesData, old(deviceHandles), accountId, ds, j);
        devicesOut := devicesOut[device.deviceId := DeviceRecordOf(device, accountId)];
        deviceIds := deviceIds + [device.deviceId];
        deviceHandles := deviceHandles[device.deviceId := device];
      }
      assert ds[..|ds|] == ds;
    }

    /** The application loop for one account: one application record per application, in order. */
    static method StoreApplications(account: RemoteAccount) returns (applications: seq<ApplicationRecord>)
      ensures applications == AppRecords(account.applications)
    {
      var apps := account.applications;
      applications := [];
      for k := 0 to |apps|
        invariant applications == AppRecords(apps[..k])
      {
        assert apps[..k + 1][..k] == apps[..k];
        applications := applications + [AppRecordOf(apps[k])];
      }
      assert apps[..|apps|] == apps;
    }

    /**
     * `_async_update_data`, with the host storing a returned snapshot as `data`. The new
     * state and the result are exactly those of `RefreshStep`.
     */
    method UpdateData(create: CreateOutcome, update: UpdateOutcome) returns (result: RefreshResult)
      modifies this
      ensures Step(State(), result) == RefreshStep(old(State()), create, update)
    {
      if api.None? {
        match create {
          case CreateRaised(_) =>
            return ConfigEntryAuthFailed(ERROR_AUTH_FAILED);
          case Created(fetched) =>
            api := Some(Api(fetched));
        }
      }
      match update {
        case Updated(fetched) =>
          api := Some(Api(fetched));
        case RaisedTypeError(message, left) =>
          api := Some(Api(left));
          if !Contains(message, NONE_NOT_ITERABLE) {
            return UpdateFailed("Unexpected error: " + message);
          }
          if api.value.accounts.None? {
            api := Some(Api(Some([])));
          }
        case RaisedHttpException(message) =>
          if IsAuthError(message) {
            if !isRetryingAuth {
              isRetryingAuth := true;
              return ConfigEntryAuthFailed(ERROR_TOKEN_EXPIRED);
            }
            return UpdateFailed("Authentication failed: " + message);
          }
          return UpdateFailed("Error communicating with API: " + message);
        case RaisedOther(message) =>
          return UpdateFailed("Unexpected error: " + message);
      }
      if api.value.accounts.None? {
        api := Some(Api(Some([])));
      }
      var snapshot := StoreAccounts(api.value.accounts.value);
      data := Some(snapshot);
      result := Published(snapshot);
    }

    /** `async_block_platform`: an `UNTIL` override on the account's platform, open-ended when no duration is given. */
    method BlockPlatform(accountId: string, platform: Platform, durationMinutes: Option<int>, now: Timestamp, outcome: CallOutcome)
      returns (r: CommandResult)
      ensures accountId !in accountHandles ==> r == Refuse("Account " + accountId + " not found")
      ensures accountId in accountHandles && BlockOverflows(now, durationMinutes) ==>
        r == CommandResult(None, 0, Some(DateOutOfRange))
      ensures accountId in accountHandles && !BlockOverflows(now, durationMinutes) ==>
        && r.call.Some? && r.call.value.OverrideDevice?
        && r.call.value.account == accountHandles[accountId]
        && r.call.value.target == platform && r.call.value.override == Until
        && (r.call.value.validUntil.None? <==> durationMinutes.None? || durationMinutes.value == 0)
        && (r.call.value.validUntil.Some? ==>
              r.call.value.validUntil.value == now + 60 * durationMinutes.value
              && InDateRange(r.call.value.validUntil.value))
        && (r.refreshRequests == 1 <==> outcome.CallSucceeded?) && r.refreshRequests <= 1
        && (r.error.None? <==> outcome.CallSucceeded?)
        && (outcome.CallRaised? ==> r.error == Some(Reraised(outcome.message)))
    {
      if accountId !in accountHandles {
        return Refuse("Account " + accountId + " not found");
      }
      var account := accountHandles[accountId];
      var validUntil: Option<Timestamp> := None;
      if durationMinutes.Some? && durationMinutes.value != 0 {
        var until := now + 60 * durationMinutes.value;
        if !InDateRange(until) {
          return CommandResult(None, 0, Some(DateOutOfRange));
        }
        validUntil := Some(until);
      }
      r := Issue(OverrideDevice(account, platform, Until, validUntil), outcome);
    }

    /** `async_unblock_platform`: a `CANCEL` override, stamped with the current time. */
    method UnblockPlatform(accountId: string, platform: Platform, now: Timestamp, outcome: CallOutcome)
      returns (r: CommandResult)
      ensures accountId !in accountHandles ==> r == Refuse("Account " + accountId + " not found")
      ensures accountId in accountHandles ==>
        && r.call == Some(OverrideDevice(accountHandles[accountId], platform, Cancel, Some(now)))
        && (r.refreshRequests == 1 <==> outcome.CallSucceeded?) && r.refreshRequests <= 1
        && (r.error.None? <==> outcome.CallSucceeded?)
        && (outcome.CallRaised? ==> r.error == Some(Reraised(outcome.message)))
    {
      if accountId !in accountHandles {
        return Refuse("Account " + accountId + " not found");
      }
      r := Issue(OverrideDevice(accountHandles[accountId], platform, Cancel, Some(now)), outcome);
    }

    /** `async_approve_request`: refused without a client, otherwise one approval call. */
    method ApproveRequest(requestId: string, extensionTime: int, outcome: CallOutcome) returns (r: CommandResult)
      ensures api.None? ==> r == Refuse("API not initialized")
      ensures api.Some? ==>
        && r.call == Some(ApprovePendingRequest(requestId, extensionTime))
        && (r.refreshRequests == 1 <==> outcome.CallSucceeded?) && r.refreshRequests <= 1
        && (r.error.None? <==> outcome.CallSucceeded?)
        && (outcome.CallRaised? ==> r.error == Some(Reraised(outcome.message)))
    {
      if api.None? {
        return Refuse("API not initialized");
      }
      r := Issue(ApprovePendingRequest(requestId, extensionTime), outcome);
    }

    /** `async_deny_request`: refused without a client, otherwise one denial call. */
    method DenyRequest(requestId: string, outcome: CallOutcome) returns (r: CommandResult)
      ensures api.None? ==> r == Refuse("API not initialized")
      ensures api.Some? ==>
        && r.call == Some(DenyPendingRequest(requestId))
        && (r.refreshRequests == 1 <==> outcome.CallSucceeded?) && r.refreshRequests <= 1
        && (r.error.None? <==> outcome.CallSucceeded?)
        && (outcome.CallRaised? ==> r.error == Some(Reraised(outcome.message)))
    {
      if api.None? {
        return Refuse("API not initialized");
      }
      r := Issue(DenyPendingRequest(requestId), outcome);
    }

    /** `_get_account_for_device`: the handle of the account the snapshot says owns the device. */
    function GetAccountForDevice(deviceId: string): (r: Option<RemoteAccount>)
      reads this
      ensures r.Some? <==> data.Some? && deviceId in data.value.devices
                           && data.value.devices[deviceId].accountId in accountHandles
      ensures r.Some? ==> r.value == accountHandles[data.value.devices[deviceId].accountId]
    {
      if data.None? || deviceId !in data.value.devices then None
      else
        var accountId := data.value.devices[deviceId].accountId;
        if accountId in accountHandles then Some(accountHandles[accountId]) else None
    }

    /** `get_platforms_for_account`: the platforms of the account's devices in the published snapshot. */
    method GetPlatformsForAccount(accountId: string) returns (platforms: set<Platform>)
      ensures data.None? ==> platforms == {}
      ensures forall p :: p in platforms <==> data.Some? && HasDeviceOn(data.value, accountId, p)
    {
      platforms := {};
      if data.None? {
        return;
      }
      var devices := data.value.devices;
      var pending := devices.Keys;
      ghost var done: set<string> := {};
      while pending != {}
        invariant pending + done == devices.Keys && pending !! done
        invariant forall p :: p in platforms <==>
          exists k :: k in done && devices[k].accountId == accountId && PlatformFromOs(devices[k].osName) == Some(p)
        decreases pending
      {
        var k :| k in pending;
        var device := devices[k];
        if device.accountId == accountId {
          var platform := PlatformFromOs(device.osName);
          if platform.Some? {
            platforms := platforms + {platform.value};
          }
        }
        pending := pending - {k};
        done := done + {k};
      }
    }

    /** `async_cleanup`: forget every handle and the client; the published data and the flag stay. */
    method Cleanup()
      modifies this
      ensures State() == CleanedUp(old(State()))
    {
      accountHandles := map[];
      deviceHandles := map[];
      api := None;
    }
  }
}
