/** The state of the session manager `API_Provider`
    (src/context/APIContext.tsx) as one value, and one function per
    operation giving the state after it. The provider class in
    provider.dfy is proved against these functions. */
module AuthSession {
  import opened Wrappers
  import opened Records
  import opened StatusMap

  /** Keys of the local key-value store. */
  const SECRET_KEY := "api_secret_key"
  const CURRENT_KEY := "current_account_id"

  const KEYS_SAVED := "API设置已保存"
  const KEYS_SAVE_FAILED := "保存API设置失败"
  const ACCOUNT_SWITCHED := "账户已切换"
  const SWITCH_UNVERIFIED := "账户切换后认证失败"

  /** Every field of the provider, plus three logs: the auth-changed
      emissions, the requests sent and the toasts shown. */
  datatype Session = Session(
    legacy: Settings,
    isLoading: bool,
    isAuthenticated: bool,
    accounts: seq<Account>,
    currentAccountId: string,
    accountStatuses: map<string, Status>,
    store: map<string, string>,
    events: seq<bool>,
    requests: seq<Request>,
    toasts: seq<Toast>)

  /** The outcomes of the remote calls one `refreshAccounts` may make: the
      account list, the verification it triggers and the batch status probe. */
  datatype RefreshOutcomes = RefreshOutcomes(
    list: Outcome<seq<Account>>,
    verify: Outcome<bool>,
    probe: Outcome<seq<Option<StatusItem>>>)

  /** `localStorage.getItem(key)`, where a missing key and the empty string
      are both falsy. */
  function Stored(store: map<string, string>, key: string): string
  {
    if key in store then store[key] else ""
  }

  /** A non-empty current id is the one persisted in the store. */
  predicate CurrentPersisted(s: Session)
  {
    s.currentAccountId == "" || Stored(s.store, CURRENT_KEY) == s.currentAccountId
  }

  /** The state on mount, before any operation has run. */
  function Initial(store: map<string, string>): (s: Session)
    ensures s.isLoading && !s.isAuthenticated && s.events == [] && s.requests == [] && s.toasts == []
    ensures s.accounts == [] && s.currentAccountId == "" && s.accountStatuses == map[] && s.store == store
    ensures s.legacy == WithDefaults(Settings("", "", "", "", "", "", "", ""))
    ensures CurrentPersisted(s)
  {
    Session(Settings("", "", "", DEFAULT_ENDPOINT, "", "", DEFAULT_IAM, DEFAULT_ZONE),
            true, false, [], "", map[], store, [], [], [])
  }

  /** `data && data.appKey`: the settings carry a legacy credential set. */
  predicate HasLegacy(data: Option<Settings>)
  {
    data.Some? && data.value.appKey != ""
  }

  /** `loadAPIKeys`, the boot step. */
  function Boot(s: Session, settings: Outcome<Option<Settings>>): (r: Session)
    ensures !r.isLoading
    ensures r.accounts == s.accounts && r.currentAccountId == s.currentAccountId
    ensures r.accountStatuses == s.accountStatuses && r.store == s.store && r.toasts == s.toasts
    // no stored secret: no request, no emission, only the loading flag clears
    ensures Stored(s.store, SECRET_KEY) == "" ==> r == s.(isLoading := false)
    ensures Stored(s.store, SECRET_KEY) != "" ==> r.requests == s.requests + [GetSettings]
    // the settings call rejects
    ensures Stored(s.store, SECRET_KEY) != "" && settings.Fail? ==>
      !r.isAuthenticated && r.events == s.events + [false] && r.legacy == s.legacy
    // the Telegram fields are always loaded
    ensures Stored(s.store, SECRET_KEY) != "" && settings.Ok? ==>
      r.legacy.tgToken == (if settings.value.Some? then settings.value.value.tgToken else "") &&
      r.legacy.tgChatId == (if settings.value.Some? then settings.value.value.tgChatId else "")
    ensures Stored(s.store, SECRET_KEY) != "" && settings.Ok? && HasLegacy(settings.value) ==>
      r.legacy == WithDefaults(settings.value.value) && r.isAuthenticated && r.events == s.events + [true]
    ensures Stored(s.store, SECRET_KEY) != "" && settings.Ok? && !HasLegacy(settings.value) ==>
      r.isAuthenticated == s.isAuthenticated && r.events == s.events &&
      r.legacy.(tgToken := s.legacy.tgToken, tgChatId := s.legacy.tgChatId) == s.legacy
    ensures CurrentPersisted(s) ==> CurrentPersisted(r)
  {
    if Stored(s.store, SECRET_KEY) == "" then s.(isLoading := false)
    else
      var s1 := s.(requests := s.requests + [GetSettings]);
      match settings
      case Fail(_) =>
        s1.(isAuthenticated := false, events := s1.events + [false], isLoading := false)
      case Ok(data) =>
        var tgToken := if data.Some? then data.value.tgToken else "";
        var tgChatId := if data.Some? then data.value.tgChatId else "";
        var s2 := s1.(legacy := s1.legacy.(tgToken := tgToken, tgChatId := tgChatId));
        var s3 :=
          if HasLegacy(data) then
            var d := data.value;
            s2.(legacy := s2.legacy.(appKey := d.appKey, appSecret := d.appSecret, consumerKey := d.consumerKey,
                                      endpoint := Or(d.endpoint, DEFAULT_ENDPOINT), iam := Or(d.iam, DEFAULT_IAM),
                                      zone := Or(d.zone, DEFAULT_ZONE)),
                isAuthenticated := true, events := s2.events + [true])
          else s2;
        s3.(isLoading := false)
  }

  /** The validity `checkAuthentication` reports: the backend's answer, or
      false when the call rejects. */
  function Verdict(verify: Outcome<bool>): (valid: bool)
    ensures verify.Ok? ==> valid == verify.value
    ensures verify.Fail? ==> !valid
  {
    verify.Ok? && verify.value
  }

  /** `checkAuthentication`: sends the legacy fields, stores and emits the
      verdict, and touches nothing else (not the loading flag). */
  function Checked(s: Session, verify: Outcome<bool>): (r: Session)
    ensures r.requests == s.requests + [VerifyRequest(s.legacy)]
    ensures r.isAuthenticated == Verdict(verify)
    ensures r.events == s.events + [Verdict(verify)]
    ensures verify.Fail? ==> !r.isAuthenticated && r.events == s.events + [false]
    ensures r.(requests := s.requests, isAuthenticated := s.isAuthenticated, events := s.events) == s
    ensures s.requests <= r.requests && s.toasts <= r.toasts
    ensures CurrentPersisted(s) ==> CurrentPersisted(r)
  {
    var valid := Verdict(verify);
    s.(requests := s.requests + [VerifyRequest(s.legacy)], isAuthenticated := valid, events := s.events + [valid])
  }

  /** `setCurrentAccount`: the id is stored and persisted before the
      verification, and is kept whatever the verification says. */
  function CurrentSet(s: Session, id: string, verify: Outcome<bool>): (r: Session)
    ensures r.currentAccountId == id && r.store == s.store[CURRENT_KEY := id]
    ensures Stored(r.store, CURRENT_KEY) == id
    ensures r.requests == s.requests + [VerifyRequest(s.legacy)]
    ensures r.isAuthenticated == Verdict(verify) && r.events == s.events + [Verdict(verify)]
    ensures r.toasts == s.toasts + [if Verdict(verify) then ToastSuccess(ACCOUNT_SWITCHED) else ToastWarning(SWITCH_UNVERIFIED)]
    ensures r.legacy == s.legacy && r.isLoading == s.isLoading
    ensures r.accounts == s.accounts && r.accountStatuses == s.accountStatuses
    ensures s.requests <= r.requests && s.toasts <= r.toasts
    ensures CurrentPersisted(s) ==> CurrentPersisted(r)
  {
    var s1 := s.(currentAccountId := id, store := s.store[CURRENT_KEY := id]);
    var s2 := Checked(s1, verify);
    s2.(toasts := s2.toasts + [if Verdict(verify) then ToastSuccess(ACCOUNT_SWITCHED) else ToastWarning(SWITCH_UNVERIFIED)])
  }

  /** `refreshAccountStatuses`: one batch request, and the map replaced by
      the one built from its outcome and the known accounts. */
  function StatusesRefreshed(s: Session, probe: Outcome<seq<Option<StatusItem>>>): (r: Session)
    ensures r.accountStatuses == StatusMapAfter(probe, s.accounts)
    ensures r.(accountStatuses := s.accountStatuses) == s.(requests := s.requests + [GetAccountStatus])
    ensures CurrentPersisted(s) ==> CurrentPersisted(r)
  {
    s.(requests := s.requests + [GetAccountStatus], accountStatuses := StatusMapAfter(probe, s.accounts))
  }

  /** `local || (list.length > 0 ? list[0].id : '')`: the stored id when it
      is non-empty, with no check that it is listed. */
  function ChosenId(store: map<string, string>, list: seq<Account>): (id: string)
    ensures Stored(store, CURRENT_KEY) != "" ==> id == Stored(store, CURRENT_KEY)
    ensures Stored(store, CURRENT_KEY) == "" && list != [] ==> id == list[0].id
    ensures Stored(store, CURRENT_KEY) == "" && list == [] ==> id == ""
  {
    Or(Stored(store, CURRENT_KEY), if |list| > 0 then list[0].id else "")
  }

  /** `refreshAccounts`. */
  function Refreshed(s: Session, o: RefreshOutcomes): (r: Session)
    // the list call rejects: no account, the current id untouched
    ensures o.list.Fail? ==> r == s.(accounts := [], requests := s.requests + [GetAccounts])
    ensures o.list.Ok? ==> r.accounts == o.list.value
    // only a non-empty chosen id is set and persisted
    ensures o.list.Ok? ==>
      (var c := ChosenId(s.store, o.list.value);
       (c != "" ==> r.currentAccountId == c && r.store == s.store[CURRENT_KEY := c]) &&
       (c == "" ==> r.currentAccountId == s.currentAccountId && r.store == s.store))
    // exactly one verification when an id was chosen, then the status probe in every case
    ensures o.list.Ok? ==>
      (var c := ChosenId(s.store, o.list.value);
       r.requests == s.requests + [GetAccounts] + (if c != "" then [VerifyRequest(s.legacy)] else []) + [GetAccountStatus] &&
       r.events == s.events + (if c != "" then [Verdict(o.verify)] else []))
    ensures o.list.Ok? ==> r.accountStatuses == StatusMapAfter(o.probe, o.list.value)
    // the triggered verification decides the flag; without a chosen id it is untouched
    ensures o.list.Ok? ==>
      r.isAuthenticated == (if ChosenId(s.store, o.list.value) != "" then Verdict(o.verify) else s.isAuthenticated)
    ensures o.list.Fail? ==> r.isAuthenticated == s.isAuthenticated
    ensures r.legacy == s.legacy && r.isLoading == s.isLoading && r.toasts == s.toasts
    ensures s.requests <= r.requests && s.toasts <= r.toasts
    ensures CurrentPersisted(s) ==> CurrentPersisted(r)
  {
    var s1 := s.(requests := s.requests + [GetAccounts]);
    match o.list
    case Fail(_) => s1.(accounts := [])
    case Ok(list) =>
      var s2 := s1.(accounts := list);
      var useId := ChosenId(s2.store, list);
      var s3 :=
        if useId != "" then Checked(s2.(currentAccountId := useId, store := s2.store[CURRENT_KEY := useId]), o.verify)
        else s2;
      StatusesRefreshed(s3, o.probe)
  }

  /** `setAPIKeys`: the keys are posted with their defaults; on success the
      fields take them and `true` is emitted, on failure nothing but the
      toast and the loading flag changes. */
  function KeysSet(s: Session, keys: Settings, saved: Outcome<()>): (r: Session)
    ensures !r.isLoading
    ensures r.requests == s.requests + [PostSettings(WithDefaults(keys))]
    ensures saved.Ok? ==>
      r.legacy == WithDefaults(keys) && r.isAuthenticated && r.events == s.events + [true] &&
      r.toasts == s.toasts + [ToastSuccess(KEYS_SAVED)]
    ensures saved.Fail? ==>
      r.legacy == s.legacy && r.isAuthenticated == s.isAuthenticated && r.events == s.events &&
      r.toasts == s.toasts + [ToastError(KEYS_SAVE_FAILED)]
    ensures r.accounts == s.accounts && r.currentAccountId == s.currentAccountId
    ensures r.accountStatuses == s.accountStatuses && r.store == s.store
    ensures CurrentPersisted(s) ==> CurrentPersisted(r)
  {
    var s1 := s.(isLoading := true, requests := s.requests + [PostSettings(WithDefaults(keys))]);
    var s2 :=
      match saved
      case Ok(_) =>
        s1.(legacy := WithDefaults(keys), isAuthenticated := true, events := s1.events + [true],
            toasts := s1.toasts + [ToastSuccess(KEYS_SAVED)])
      case Fail(_) => s1.(toasts := s1.toasts + [ToastError(KEYS_SAVE_FAILED)]);
    s2.(isLoading := false)
  }

  /** Boot on a fresh provider with no stored secret: no request, nothing
      emitted, loading over and still unauthenticated. */
  lemma BootWithoutSecret(store: map<string, string>, settings: Outcome<Option<Settings>>)
    requires Stored(store, SECRET_KEY) == ""
    ensures var r := Boot(Initial(store), settings);
      !r.isLoading && !r.isAuthenticated && r.events == [] && r.requests == []
  {
  }

  /** A refresh never replaces a non-empty persisted current id. */
  lemma RefreshKeepsCurrent(s: Session, o: RefreshOutcomes)
    requires CurrentPersisted(s) && s.currentAccountId != ""
    ensures Refreshed(s, o).currentAccountId == s.currentAccountId
  {
  }

  /** The stored id is adopted even when the fetched list does not hold it. */
  lemma RefreshAdoptsUnlistedStoredId(s: Session, o: RefreshOutcomes)
    requires o.list.Ok? && Stored(s.store, CURRENT_KEY) != ""
    requires Stored(s.store, CURRENT_KEY) !in Ids(o.list.value)
    ensures Refreshed(s, o).currentAccountId !in Ids(Refreshed(s, o).accounts)
  {
  }

  /** The status map a refresh leaves does not depend on the map before it. */
  lemma StatusRefreshReplacesWholesale(s: Session, old_map: map<string, Status>, probe: Outcome<seq<Option<StatusItem>>>)
    ensures StatusesRefreshed(s.(accountStatuses := old_map), probe) == StatusesRefreshed(s, probe)
  {
  }
}
