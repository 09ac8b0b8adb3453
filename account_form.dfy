/** The pure parts of the account page (src/pages/APIAccountsPage.tsx):
    the form defaults, the credential check, the advisory identity
    resolution, the save payload and the status badge. */
module AccountForm {
  import opened Wrappers
  import opened Records
  import opened StatusMap

  /** The form after `resetForm` and on mount. */
  const BLANK_FORM := Account("", "", "", "", "", DEFAULT_ENDPOINT, DEFAULT_ZONE)

  /** `appKey && appSecret && consumerKey`: the credential triple is complete. */
  predicate HasCredentials(a: Account)
  {
    a.appKey != "" && a.appSecret != "" && a.consumerKey != ""
  }

  /** The form `fillFromAccount` shows for an account. */
  function FilledFrom(acc: Account): (f: Account)
    ensures f.id == acc.id && f.alias == acc.alias
    ensures f.appKey == acc.appKey && f.appSecret == acc.appSecret && f.consumerKey == acc.consumerKey
    ensures f.endpoint == (if acc.endpoint != "" then acc.endpoint else DEFAULT_ENDPOINT)
    ensures f.zone == (if acc.zone != "" then acc.zone else DEFAULT_ZONE)
    ensures HasCredentials(f) <==> HasCredentials(acc)
  {
    Account(acc.id, acc.alias, acc.appKey, acc.appSecret, acc.consumerKey,
            Or(acc.endpoint, DEFAULT_ENDPOINT), Or(acc.zone, DEFAULT_ZONE))
  }

  /** Editing a form filled from an account and filling again changes
      nothing; the blank form is such a fixed point and has no credentials. */
  lemma FilledFromIdempotent(acc: Account)
    ensures FilledFrom(FilledFrom(acc)) == FilledFrom(acc)
    ensures FilledFrom(BLANK_FORM) == BLANK_FORM && !HasCredentials(BLANK_FORM)
  {
  }

  /** The body of POST /accounts/resolve-info's reply. */
  datatype Identity = Identity(success: bool, customerCode: string, nichandle: string, email: string)

  /** `idVal` and `aliasVal` after the advisory resolution: a successful
      reply replaces both, anything else keeps the form's. */
  function ResolvedIdentity(form: Account, resolve: Outcome<Identity>): (r: (string, string))
    ensures !(resolve.Ok? && resolve.value.success) ==> r == (form.id, form.alias)
    ensures resolve.Ok? && resolve.value.success ==>
      var i := resolve.value;
      (i.customerCode != "" ==> r.0 == i.customerCode) &&
      (i.customerCode == "" ==> r.0 == i.nichandle) &&
      (i.email != "" ==> r.1 == i.email) &&
      (i.email == "" ==> r.1 == r.0)
  {
    match resolve
    case Ok(i) =>
      if i.success then
        var id := Or(i.customerCode, i.nichandle);
        (id, Or(i.email, id))
      else (form.id, form.alias)
    case Fail(_) => (form.id, form.alias)
  }

  /** `{ ...form, id: idVal, alias: aliasVal }`. */
  function SavePayload(form: Account, resolve: Outcome<Identity>): (p: Account)
    ensures p.(id := form.id, alias := form.alias) == form
    ensures (p.id, p.alias) == ResolvedIdentity(form, resolve)
  {
    var (id, alias) := ResolvedIdentity(form, resolve);
    form.(id := id, alias := alias)
  }

  /** The resolve request: the form's triple, the endpoint defaulted. */
  function ResolveRequest(form: Account): (r: Request)
    ensures r.PostResolveInfo?
    ensures r.appKey == form.appKey && r.appSecret == form.appSecret && r.consumerKey == form.consumerKey
    ensures r.endpoint == (if form.endpoint != "" then form.endpoint else DEFAULT_ENDPOINT)
  {
    PostResolveInfo(form.appKey, form.appSecret, form.consumerKey, Or(form.endpoint, DEFAULT_ENDPOINT))
  }

  /** The badge shown beside an account. */
  datatype Badge =
    | Unconfigured            // 未配置
    | Checking                // 检测中...
    | Connected               // 已连接
    | Disconnected(tooltip: string)  // 未连接

  function BadgeOf(acc: Account, statuses: map<string, Status>): (b: Badge)
    ensures b == Unconfigured <==> !HasCredentials(acc)
    ensures b == Checking <==> HasCredentials(acc) && acc.id !in statuses
    ensures b == Connected <==> HasCredentials(acc) && acc.id in statuses && statuses[acc.id].valid
    ensures b.Disconnected? <==> HasCredentials(acc) && acc.id in statuses && !statuses[acc.id].valid
    ensures b.Disconnected? ==>
      b.tooltip == (if statuses[acc.id].error.Some? then statuses[acc.id].error.value else "")
  {
    if !HasCredentials(acc) then Unconfigured
    else if acc.id !in statuses then Checking
    else
      var st := statuses[acc.id];
      if st.valid then Connected
      else Disconnected(if st.error.Some? then st.error.value else "")
  }

  /** After a failed probe every listed account with a complete triple shows
      "未连接" with the probe's error. */
  lemma BadgeAfterFailedProbe(accounts: seq<Account>, e: RemoteError, k: int)
    requires 0 <= k < |accounts| && HasCredentials(accounts[k])
    ensures BadgeOf(accounts[k], StatusMapAfter(Fail(e), accounts)) == Disconnected(ErrorText(e, CHECK_FAILED))
  {
    EveryKnownAccountMarked(Fail(e), accounts, k);
  }

  /** After an empty probe every listed account with a complete triple shows
      "未连接" with the "状态不可用" tooltip. */
  lemma BadgeAfterEmptyProbe(accounts: seq<Account>, k: int)
    requires 0 <= k < |accounts| && HasCredentials(accounts[k])
    ensures BadgeOf(accounts[k], StatusMapAfter(Ok([]), accounts)) == Disconnected(STATUS_UNAVAILABLE)
  {
    EveryKnownAccountMarked(Ok([]), accounts, k);
  }

  /** An account the non-empty probe does not report stays "检测中". */
  lemma BadgeOfUnreported(arr: seq<Option<StatusItem>>, accounts: seq<Account>, acc: Account)
    requires arr != [] && acc in accounts && acc.id !in ItemIds(arr) && HasCredentials(acc)
    ensures BadgeOf(acc, StatusMapAfter(Ok(arr), accounts)) == Checking
  {
    UnreportedAccountHasNoEntry(arr, accounts, acc);
  }

  /** Three accounts: A valid, B invalid, C without a consumer key. The
      badges are "已连接", "未连接" with B's error and "未配置"; C gets no
      map entry at all. */
  lemma ThreeAccountScenario()
    ensures
      var a := Account("A", "", "ka", "sa", "ca", DEFAULT_ENDPOINT, DEFAULT_ZONE);
      var b := Account("B", "", "kb", "sb", "cb", DEFAULT_ENDPOINT, DEFAULT_ZONE);
      var c := Account("C", "", "kc", "sc", "", DEFAULT_ENDPOINT, DEFAULT_ZONE);
      var m := StatusMapAfter(Ok([Some(StatusItem("A", Some(true), None)),
                                  Some(StatusItem("B", Some(false), Some("invalid credential")))]), [a, b, c]);
      BadgeOf(a, m) == Connected && BadgeOf(b, m) == Disconnected("invalid credential") &&
      BadgeOf(c, m) == Unconfigured && "C" !in m
  {
    var arr := [Some(StatusItem("A", Some(true), None)),
                Some(StatusItem("B", Some(false), Some("invalid credential")))];
    assert arr[..1] == [arr[0]];
    assert [arr[0]][..0] == [];
  }
}
