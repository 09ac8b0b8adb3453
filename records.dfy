/** The records exchanged with the settings service and kept by the
    session manager (src/context/APIContext.tsx). */
module Records {
  import opened Wrappers

  const DEFAULT_ENDPOINT := "ovh-eu"
  const DEFAULT_IAM := "go-ovh-ie"
  const DEFAULT_ZONE := "IE"

  /** The legacy credential set plus the Telegram configuration. The same
      shape is the body of GET /settings, the keys given to `setAPIKeys` and
      the body it posts; an absent field is the empty string. */
  datatype Settings = Settings(
    appKey: string, appSecret: string, consumerKey: string, endpoint: string,
    tgToken: string, tgChatId: string, iam: string, zone: string)

  /** The defaults `setAPIKeys` applies: endpoint, iam and zone fall back to
      the OVH Europe values, the Telegram fields to the empty string. */
  function WithDefaults(k: Settings): (r: Settings)
    ensures r.appKey == k.appKey && r.appSecret == k.appSecret && r.consumerKey == k.consumerKey
    ensures r.tgToken == k.tgToken && r.tgChatId == k.tgChatId
    ensures r.endpoint != "" && r.iam != "" && r.zone != ""
    ensures k.endpoint != "" ==> r.endpoint == k.endpoint
    ensures k.iam != "" ==> r.iam == k.iam
    ensures k.zone != "" ==> r.zone == k.zone
    ensures k.endpoint == "" ==> r.endpoint == DEFAULT_ENDPOINT
    ensures k.iam == "" ==> r.iam == DEFAULT_IAM
    ensures k.zone == "" ==> r.zone == DEFAULT_ZONE
  {
    Settings(k.appKey, k.appSecret, k.consumerKey, Or(k.endpoint, DEFAULT_ENDPOINT),
             k.tgToken, k.tgChatId, Or(k.iam, DEFAULT_IAM), Or(k.zone, DEFAULT_ZONE))
  }

  /** One entry of the account registry; it is also the account form and
      the payload posted to /accounts. */
  datatype Account = Account(
    id: string, alias: string, appKey: string, appSecret: string,
    consumerKey: string, endpoint: string, zone: string)

  /** A value of the status map: `{valid, error?}`. */
  datatype Status = Status(valid: bool, error: Option<string>)

  /** One item of the batch status response; `valid` is None when the
      backend sent no such field. */
  datatype StatusItem = StatusItem(id: string, valid: Option<bool>, error: Option<string>)

  /** A request the client sends, recorded in the order it is sent. */
  datatype Request =
    | GetSettings
    | PostSettings(body: Settings)
    | PostVerifyAuth(appKey: string, appSecret: string, consumerKey: string, endpoint: string)
    | GetAccounts
    | GetAccountStatus
    | PostResolveInfo(appKey: string, appSecret: string, consumerKey: string, endpoint: string)
    | PostAccount(payload: Account)
    | DeleteAccountById(id: string)
    | PutDefaultAccount(id: string)

  /** The verification request `checkAuthentication` sends: the legacy
      credential triple and endpoint. */
  function VerifyRequest(legacy: Settings): Request
  {
    PostVerifyAuth(legacy.appKey, legacy.appSecret, legacy.consumerKey, legacy.endpoint)
  }

  /** A notification shown to the operator. */
  datatype Toast = ToastSuccess(text: string) | ToastWarning(text: string) | ToastError(text: string)
}
