/** The session manager `API_Provider` of src/context/APIContext.tsx as an
    object whose methods update its fields in program order. Each remote
    call is an input outcome; the auth-changed event bus is the append-only
    log `events`. */
module ApiContext {
  import opened Wrappers
  import opened Records
  import opened StatusMap
  import opened AuthSession

  class ApiProvider {
    /** `appKey`, `appSecret`, `consumerKey`, `endpoint`, `tgToken`,
        `tgChatId`, `iam` and `zone`, one `useState` each in the source. */
    var legacy: Settings
    var isLoading: bool
    var isAuthenticated: bool
    var accounts: seq<Account>
    var currentAccountId: string
    var accountStatuses: map<string, Status>
    /** The browser's local key-value store. */
    var store: map<string, string>
    /** Every value passed to `apiEvents.emitAuthChanged`, oldest first. */
    var events: seq<bool>
    var requests: seq<Request>
    var toasts: seq<Toast>

    function State(): Session
      reads this
    {
      Session(legacy, isLoading, isAuthenticated, accounts, currentAccountId, accountStatuses,
              store, events, requests, toasts)
    }

    ghost predicate Valid()
      reads this
    {
      CurrentPersisted(State())
    }

    /** The `useState` initial values; `store` is what the browser kept. */
    constructor (store: map<string, string>)
      ensures Valid() && State() == Initial(store)
    {
      legacy := Settings("", "", "", DEFAULT_ENDPOINT, "", "", DEFAULT_IAM, DEFAULT_ZONE);
      isLoading, isAuthenticated := true, false;
      accounts, currentAccountId, accountStatuses := [], "", map[];
      this.store := store;
      events, requests, toasts := [], [], [];
    }

    /** `loadAPIKeys`, run once on mount. */
    method LoadApiKeys(settings: Outcome<Option<Settings>>)
      requires Valid()
      modifies this
      ensures Valid() && State() == Boot(old(State()), settings)
    {
      var apiKey := Stored(store, SECRET_KEY);
      if apiKey == "" {
        isLoading := false;
        return;
      }
      requests := requests + [GetSettings];
      match settings {
        case Ok(data) =>
          legacy := legacy.(tgToken := if data.Some? then data.value.tgToken else "",
                            tgChatId := if data.Some? then data.value.tgChatId else "");
          if data.Some? && data.value.appKey != "" {
            var d := data.value;
            legacy := legacy.(appKey := d.appKey, appSecret := d.appSecret, consumerKey := d.consumerKey,
                              endpoint := Or(d.endpoint, DEFAULT_ENDPOINT), iam := Or(d.iam, DEFAULT_IAM),
                              zone := Or(d.zone, DEFAULT_ZONE));
            isAuthenticated := true;
            events := events + [true];  // apiEvents.emitAuthChanged(true)
          }
        case Fail(_) =>
          isAuthenticated := false;
          events := events + [false];  // apiEvents.emitAuthChanged(false)
      }
      isLoading := false;
    }

    /** `refreshAccountStatuses`: it never throws. */
    method RefreshAccountStatuses(probe: Outcome<seq<Option<StatusItem>>>)
      requires Valid()
      modifies this
      ensures Valid() && State() == StatusesRefreshed(old(State()), probe)
    {
      requests := requests + [GetAccountStatus];
      var m := BuildStatusMap(probe, accounts);
      accountStatuses := m;
    }

    /** `refreshAccounts`: both trailing calls run inside their own
      `try {} catch {}`, and neither can throw. */
    method RefreshAccounts(o: RefreshOutcomes)
      requires Valid()
      modifies this
      ensures Valid() && State() == Refreshed(old(State()), o)
    {
      requests := requests + [GetAccounts];
      match o.list {
        case Ok(list) =>
          accounts := list;
          var local := Stored(store, CURRENT_KEY);
          var useId := Or(local, if |list| > 0 then list[0].id else "");
          if useId != "" {
            currentAccountId := useId;
            store := store[CURRENT_KEY := useId];
            var verified := CheckAuthentication(o.verify);
          }
          RefreshAccountStatuses(o.probe);
        case Fail(_) =>
          accounts := [];
      }
    }

    /** `setAPIKeys`; `thrown` is the error it rethrows. */
    method SetApiKeys(keys: Settings, saved: Outcome<()>) returns (thrown: Option<RemoteError>)
      requires Valid()
      modifies this
      ensures Valid() && State() == KeysSet(old(State()), keys, saved)
      ensures thrown == if saved.Fail? then Some(saved.error) else None
    {
      isLoading := true;
      requests := requests + [PostSettings(WithDefaults(keys))];
      match saved {
        case Ok(_) =>
          legacy := WithDefaults(keys);
          isAuthenticated := true;
          events := events + [true];  // apiEvents.emitAuthChanged(true)
          toasts := toasts + [ToastSuccess(KEYS_SAVED)];
          thrown := None;
        case Fail(e) =>
          toasts := toasts + [ToastError(KEYS_SAVE_FAILED)];
          thrown := Some(e);
      }
      isLoading := false;
    }

    /** `checkAuthentication`: it never throws. */
    method CheckAuthentication(verify: Outcome<bool>) returns (valid: bool)
      requires Valid()
      modifies this
      ensures Valid() && State() == Checked(old(State()), verify)
      ensures valid == Verdict(verify) && valid == isAuthenticated
    {
      requests := requests + [PostVerifyAuth(legacy.appKey, legacy.appSecret, legacy.consumerKey, legacy.endpoint)];
      match verify {
        case Ok(v) =>
          isAuthenticated := v;
          events := events + [v];  // apiEvents.emitAuthChanged(isValid)
          valid := v;
        case Fail(_) =>
          isAuthenticated := false;
          events := events + [false];  // apiEvents.emitAuthChanged(false)
          valid := false;
      }
    }

    /** `setCurrentAccount`: optimistic, with no rollback. */
    method SetCurrentAccount(id: string, verify: Outcome<bool>)
      requires Valid()
      modifies this
      ensures Valid() && State() == CurrentSet(old(State()), id, verify)
    {
      currentAccountId := id;
      store := store[CURRENT_KEY := id];
      var ok := CheckAuthentication(verify);
      if ok {
        toasts := toasts + [ToastSuccess(ACCOUNT_SWITCHED)];
      } else {
        toasts := toasts + [ToastWarning(SWITCH_UNVERIFIED)];
      }
    }
  }
}
