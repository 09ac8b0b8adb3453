/** The account page's handlers (src/pages/APIAccountsPage.tsx): saving,
    deleting and making an account the default, each as a function on the
    provider's session, and the page object whose methods are proved
    against them. The page's requests and notifications go to the same
    logs as the provider's, so their order is kept. */
module AccountsPage {
  import opened Wrappers
  import opened Records
  import opened StatusMap
  import opened AuthSession
  import opened AccountForm
  import opened ApiContext
  import opened QueryId

  const FILL_CREDENTIALS := "请填写 APP KEY / APP SECRET / CONSUMER KEY"
  const ACCOUNT_SAVED := "账户已保存"
  const SAVE_FAILED := "保存失败"
  const ACCOUNT_DELETED := "账户已删除"
  const DELETE_FAILED := "删除失败"
  const DEFAULT_SET := "默认账户已设置"
  const SET_FAILED := "设置失败"

  /** The `{ success, error }` body the account endpoints reply with. */
  datatype Reply = Reply(success: bool, error: string)

  /** `res.data?.success` */
  predicate Succeeded(o: Outcome<Reply>)
  {
    o.Ok? && o.value.success
  }

  /** The message shown for a reply that did not succeed: the reply's own
      error, the rejection's server or client message, or the fallback. */
  function ReplyError(o: Outcome<Reply>, fallback: string): (r: string)
    ensures fallback != "" ==> r != ""
    ensures o.Ok? ==> r == (if o.value.error != "" then o.value.error else fallback)
    ensures o.Fail? ==> r == ErrorText(o.error, fallback)
  {
    match o
    case Ok(reply) => Or(reply.error, fallback)
    case Fail(e) => ErrorText(e, fallback)
  }

  /** `saveAccount` on the session: with an incomplete triple only the
      warning; otherwise the resolve request, the save, and on success the
      refresh followed by switching to the saved id. */
  function SavedSession(s: Session, form: Account, resolve: Outcome<Identity>, saved: Outcome<Reply>,
                        refresh: RefreshOutcomes, verify: Outcome<bool>): (r: Session)
    ensures !HasCredentials(form) ==> r == s.(toasts := s.toasts + [ToastError(FILL_CREDENTIALS)])
    ensures HasCredentials(form) ==>
      s.requests + [ResolveRequest(form), PostAccount(SavePayload(form, resolve))] <= r.requests
    // a successful save: the notification, the refresh, then the switch to the saved id
    ensures HasCredentials(form) && Succeeded(saved) ==>
      r == CurrentSet(Refreshed(s.(requests := s.requests + [ResolveRequest(form), PostAccount(SavePayload(form, resolve))],
                                   toasts := s.toasts + [ToastSuccess(ACCOUNT_SAVED)]), refresh),
                      SavePayload(form, resolve).id, verify)
    ensures HasCredentials(form) && !Succeeded(saved) ==>
      r == s.(requests := s.requests + [ResolveRequest(form), PostAccount(SavePayload(form, resolve))],
              toasts := s.toasts + [ToastError(SaveErrorText(ReplyError(saved, SAVE_FAILED)))])
    ensures CurrentPersisted(s) ==> CurrentPersisted(r)
  {
    if !HasCredentials(form) then s.(toasts := s.toasts + [ToastError(FILL_CREDENTIALS)])
    else
      var payload := SavePayload(form, resolve);
      var s1 := s.(requests := s.requests + [ResolveRequest(form), PostAccount(payload)]);
      if Succeeded(saved) then
        var s2 := Refreshed(s1.(toasts := s1.toasts + [ToastSuccess(ACCOUNT_SAVED)]), refresh);
        CurrentSet(s2, payload.id, verify)
      else s1.(toasts := s1.toasts + [ToastError(SaveErrorText(ReplyError(saved, SAVE_FAILED)))])
  }

  /** `deleteAccount` on the session; the current id is the one the
      handler saw when it started. */
  function DeletedSession(s: Session, id: string, deleted: Outcome<Reply>,
                          refresh: RefreshOutcomes, verify: Outcome<bool>): (r: Session)
    ensures s.requests + [DeleteAccountById(id)] <= r.requests
    ensures !Succeeded(deleted) ==>
      r == s.(requests := s.requests + [DeleteAccountById(id)],
              toasts := s.toasts + [ToastError(ReplyError(deleted, DELETE_FAILED))])
    ensures Succeeded(deleted) ==> r.accounts == (if refresh.list.Ok? then refresh.list.value else [])
    // another account deleted: the notification and the refresh, no switch
    ensures Succeeded(deleted) && s.currentAccountId != id ==>
      r == Refreshed(s.(requests := s.requests + [DeleteAccountById(id)],
                        toasts := s.toasts + [ToastSuccess(ACCOUNT_DELETED)]), refresh) &&
      r.toasts == s.toasts + [ToastSuccess(ACCOUNT_DELETED)]
    // the current account deleted: the notification, then the switch to no account
    ensures Succeeded(deleted) && s.currentAccountId == id ==>
      r == CurrentSet(Refreshed(s.(requests := s.requests + [DeleteAccountById(id)],
                                   toasts := s.toasts + [ToastSuccess(ACCOUNT_DELETED)]), refresh), "", verify)
    ensures Succeeded(deleted) && s.currentAccountId == id ==>
      r.toasts == s.toasts + [ToastSuccess(ACCOUNT_DELETED),
                              if Verdict(verify) then ToastSuccess(ACCOUNT_SWITCHED) else ToastWarning(SWITCH_UNVERIFIED)]
    ensures CurrentPersisted(s) ==> CurrentPersisted(r)
  {
    var s1 := s.(requests := s.requests + [DeleteAccountById(id)]);
    if Succeeded(deleted) then
      var s2 := Refreshed(s1.(toasts := s1.toasts + [ToastSuccess(ACCOUNT_DELETED)]), refresh);
      if s.currentAccountId == id then CurrentSet(s2, "", verify) else s2
    else s1.(toasts := s1.toasts + [ToastError(ReplyError(deleted, DELETE_FAILED))])
  }

  /** The credential check is one test in both places: a form the save
      refuses without sending anything is exactly one whose account would
      show "未配置". */
  lemma CredentialCheckAgrees(s: Session, form: Account, resolve: Outcome<Identity>, saved: Outcome<Reply>,
                              refresh: RefreshOutcomes, verify: Outcome<bool>, statuses: map<string, Status>)
    ensures !HasCredentials(form) <==> SavedSession(s, form, resolve, saved, refresh, verify).requests == s.requests
    ensures !HasCredentials(form) <==> BadgeOf(form, statuses) == Unconfigured
  {
    if HasCredentials(form) {
      var r := SavedSession(s, form, resolve, saved, refresh, verify);
      assert |r.requests| >= |s.requests| + 2;
    }
  }

  /** A successful save makes the saved id current and stored, leaves the
      refreshed list, and notifies the save and then the switch. */
  lemma SaveSwitchesToSavedId(s: Session, form: Account, resolve: Outcome<Identity>, saved: Outcome<Reply>,
                              refresh: RefreshOutcomes, verify: Outcome<bool>)
    requires HasCredentials(form) && Succeeded(saved)
    ensures var r := SavedSession(s, form, resolve, saved, refresh, verify);
      var id := SavePayload(form, resolve).id;
      r.currentAccountId == id && Stored(r.store, CURRENT_KEY) == id &&
      r.accounts == (if refresh.list.Ok? then refresh.list.value else []) &&
      r.toasts == s.toasts + [ToastSuccess(ACCOUNT_SAVED),
                              if Verdict(verify) then ToastSuccess(ACCOUNT_SWITCHED) else ToastWarning(SWITCH_UNVERIFIED)]
  {
    var s1 := s.(requests := s.requests + [ResolveRequest(form), PostAccount(SavePayload(form, resolve))]);
    var s2 := Refreshed(s1.(toasts := s1.toasts + [ToastSuccess(ACCOUNT_SAVED)]), refresh);
    assert s2.toasts == s.toasts + [ToastSuccess(ACCOUNT_SAVED)];
  }

  /** Deleting the current account clears it, in the store too. */
  lemma DeleteCurrentClears(s: Session, id: string, deleted: Outcome<Reply>,
                            refresh: RefreshOutcomes, verify: Outcome<bool>)
    requires Succeeded(deleted) && s.currentAccountId == id
    ensures var r := DeletedSession(s, id, deleted, refresh, verify);
      r.currentAccountId == "" && Stored(r.store, CURRENT_KEY) == ""
  {
  }

  /** Deleting the persisted current account: the refresh first re-adopts
      the deleted id, still in the store, and verifies it; the clear then
      verifies a second time. */
  lemma DeleteCurrentVerifiesTwice(s: Session, id: string, deleted: Outcome<Reply>,
                                   refresh: RefreshOutcomes, verify: Outcome<bool>)
    requires Succeeded(deleted) && s.currentAccountId == id && id != "" && CurrentPersisted(s) && refresh.list.Ok?
    ensures DeletedSession(s, id, deleted, refresh, verify).events == s.events + [Verdict(refresh.verify), Verdict(verify)]
  {
    var s1 := s.(requests := s.requests + [DeleteAccountById(id)], toasts := s.toasts + [ToastSuccess(ACCOUNT_DELETED)]);
    assert ChosenId(s1.store, refresh.list.value) == id;
  }

  /** Deleting another account keeps a persisted current id. */
  lemma DeleteOtherKeepsCurrent(s: Session, id: string, deleted: Outcome<Reply>,
                                refresh: RefreshOutcomes, verify: Outcome<bool>)
    requires s.currentAccountId != id && s.currentAccountId != "" && CurrentPersisted(s)
    ensures DeletedSession(s, id, deleted, refresh, verify).currentAccountId == s.currentAccountId
  {
  }

  /** `setDefault` on the session: the backend's default changes, the
      page's current account does not. */
  function DefaultSetSession(s: Session, id: string, res: Outcome<Reply>, refresh: RefreshOutcomes): (r: Session)
    ensures s.requests + [PutDefaultAccount(id)] <= r.requests
    ensures !Succeeded(res) ==>
      r == s.(requests := s.requests + [PutDefaultAccount(id)],
              toasts := s.toasts + [ToastError(ReplyError(res, SET_FAILED))])
    ensures Succeeded(res) ==>
      r == Refreshed(s.(requests := s.requests + [PutDefaultAccount(id)],
                        toasts := s.toasts + [ToastSuccess(DEFAULT_SET)]), refresh)
    ensures Succeeded(res) ==> r.toasts == s.toasts + [ToastSuccess(DEFAULT_SET)]
    ensures Succeeded(res) ==> r.accounts == (if refresh.list.Ok? then refresh.list.value else [])
    ensures CurrentPersisted(s) && s.currentAccountId != "" ==> r.currentAccountId == s.currentAccountId
    ensures CurrentPersisted(s) ==> CurrentPersisted(r)
  {
    var s1 := s.(requests := s.requests + [PutDefaultAccount(id)]);
    if Succeeded(res) then Refreshed(s1.(toasts := s1.toasts + [ToastSuccess(DEFAULT_SET)]), refresh)
    else s1.(toasts := s1.toasts + [ToastError(ReplyError(res, SET_FAILED))])
  }

  /** Set-default does change an empty current id: with nothing stored, the
      refresh it runs adopts the first listed account. */
  lemma DefaultSetAdoptsFirstListed(s: Session, id: string, res: Outcome<Reply>, refresh: RefreshOutcomes)
    requires Succeeded(res) && Stored(s.store, CURRENT_KEY) == ""
    requires refresh.list.Ok? && refresh.list.value != [] && refresh.list.value[0].id != ""
    ensures DefaultSetSession(s, id, res, refresh).currentAccountId == refresh.list.value[0].id
  {
  }

  /** The account page: the form, the saving flag and the id being edited,
      over the provider it talks to. */
  class Page {
    const api: ApiProvider
    var form: Account
    var saving: bool
    var editingId: string

    constructor (api: ApiProvider)
      ensures this.api == api && form == BLANK_FORM && !saving && editingId == ""
    {
      this.api := api;
      form := BLANK_FORM;
      saving := false;
      editingId := "";
    }

    /** `fillFromAccount` */
    method FillFromAccount(acc: Account)
      modifies this
      ensures form == FilledFrom(acc) && editingId == acc.id && saving == old(saving)
    {
      editingId := acc.id;
      form := FilledFrom(acc);
    }

    /** `resetForm` */
    method ResetForm()
      modifies this
      ensures form == BLANK_FORM && editingId == "" && saving == old(saving)
    {
      editingId := "";
      form := BLANK_FORM;
    }

    /** `saveAccount`: the form is reset only after a successful save, and
        the saving flag is cleared whenever it was raised. */
    method SaveAccount(resolve: Outcome<Identity>, saved: Outcome<Reply>, refresh: RefreshOutcomes, verify: Outcome<bool>)
      requires api.Valid()
      modifies this, api
      ensures api.Valid()
      ensures api.State() == SavedSession(old(api.State()), old(form), resolve, saved, refresh, verify)
      ensures HasCredentials(old(form)) && Succeeded(saved) ==> form == BLANK_FORM && editingId == ""
      ensures !(HasCredentials(old(form)) && Succeeded(saved)) ==> form == old(form) && editingId == old(editingId)
      ensures saving == (old(saving) && !HasCredentials(old(form)))
    {
      if !HasCredentials(form) {
        api.toasts := api.toasts + [ToastError(FILL_CREDENTIALS)];
        return;
      }
      saving := true;
      var payload := SavePayload(form, resolve);
      api.requests := api.requests + [ResolveRequest(form), PostAccount(payload)];
      if Succeeded(saved) {
        api.toasts := api.toasts + [ToastSuccess(ACCOUNT_SAVED)];
        api.RefreshAccounts(refresh);
        api.SetCurrentAccount(payload.id, verify);
        ResetForm();
      } else {
        api.toasts := api.toasts + [ToastError(SaveErrorText(ReplyError(saved, SAVE_FAILED)))];
      }
      saving := false;
    }

    /** `deleteAccount` */
    method DeleteAccount(id: string, deleted: Outcome<Reply>, refresh: RefreshOutcomes, verify: Outcome<bool>)
      requires api.Valid()
      modifies api
      ensures api.Valid()
      ensures api.State() == DeletedSession(old(api.State()), id, deleted, refresh, verify)
    {
      var current := api.currentAccountId;
      api.requests := api.requests + [DeleteAccountById(id)];
      if Succeeded(deleted) {
        api.toasts := api.toasts + [ToastSuccess(ACCOUNT_DELETED)];
        api.RefreshAccounts(refresh);
        if current == id {
          api.SetCurrentAccount("", verify);
        }
      } else {
        api.toasts := api.toasts + [ToastError(ReplyError(deleted, DELETE_FAILED))];
      }
    }

    /** `setDefault` */
    method SetDefault(id: string, res: Outcome<Reply>, refresh: RefreshOutcomes)
      requires api.Valid()
      modifies api
      ensures api.Valid()
      ensures api.State() == DefaultSetSession(old(api.State()), id, res, refresh)
    {
      api.requests := api.requests + [PutDefaultAccount(id)];
      if Succeeded(res) {
        api.toasts := api.toasts + [ToastSuccess(DEFAULT_SET)];
        api.RefreshAccounts(refresh);
      } else {
        api.toasts := api.toasts + [ToastError(ReplyError(res, SET_FAILED))];
      }
    }
  }
}
