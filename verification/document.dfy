/** The rotation-state document kept in the Gist (`boxtoplay.json`), the worker's
    configuration, and the ways a run can abort. */
module Document {
  import opened Wrappers

  /** What reading a key of a JSON object yields: the key is absent, bound to `null`,
      or bound to a value. */
  datatype Field<T> = Missing | Null | Present(value: T) {

    /** `obj.get(key)`: `None` both for an absent key and for `null`. */
    function Get(): (r: Option<T>)
      ensures r.Some? <==> Present?
      ensures r.Some? ==> r.value == value
    {
      if Present? then Some(value) else None
    }
  }

  /** Python truthiness of an optional string: present, not `null`, not empty. */
  predicate Truthy(f: Field<string>) {
    f.Present? && f.value != ""
  }

  /** The provider's session cookie, the one credential the gate insists on. */
  const SessionCookie: string := "BOXTOPLAY_SESSION"

  /** `cookies.get("BOXTOPLAY_SESSION")` is truthy. */
  predicate HasSession(cookies: map<string, string>) {
    SessionCookie in cookies && cookies[SessionCookie] != ""
  }

  /** One entry of `accounts`. `email` and `password` are read with `[]` by the worker and so
      are always present; `ftp_password` is an optional per-account key the worker reads
      but never writes. */
  datatype Account = Account(
    email: string,
    password: string,
    cookies: Field<map<string, string>>,
    ftpHost: Field<string>,
    ftpUser: Field<string>,
    serverId: Field<string>,
    ftpPassword: Field<string>)

  /** The whole document: `active_account_index`, `current_server_id`, the shared
      `ftp_password`, and the `accounts` list (absent or present). */
  datatype State = State(
    activeIndex: Field<int>,
    currentServerId: Field<string>,
    ftpPassword: Field<string>,
    accounts: Option<seq<Account>>)

  /** The environment the worker reads: `GIST_ID`, `GH_TOKEN` and `FTP_PASSWORD`
      (an unset variable is the empty string). */
  datatype Config = Config(gistId: string, ghToken: string, ftpPasswordEnv: string)

  /** Both Gist credentials are set; otherwise the worker stops before touching anything. */
  predicate StoreConfigured(c: Config) {
    c.gistId != "" && c.ghToken != ""
  }

  /** Every way a run ends with exit status 1: an early return, or an exception caught by `main`. */
  datatype Fault =
    | StoreNotConfigured
    | StateFetchFailed
    | AccountsMissing
    | ActiveIndexNull
    | IndexOutOfRange
    | CookiesNotAnObject
    | ShutdownFailed
    | TargetLoginFailed
    | PurchaseFailed
    | ServerNotFound
    | DnsChangeFailed
    | FtpSetupFailed
    | InstallFailed
    | InvalidServerId
    | InvalidFtpHost
    | InvalidFtpUser
    | SessionCookieMissing
    | ServerInfoRejected
    | FinalizeFailed
    | NotReadyToSave
    | StateRejected
    | StateWriteFailed

  /** `account.get("cookies", {}).get("BOXTOPLAY_SESSION", "")`: an absent cookie object reads
      as empty, but a `null` one makes the second `.get` raise. */
  function SessionToken(acc: Account): (r: Result<string, Fault>)
    ensures r.Failure? <==> acc.cookies.Null?
    ensures r.Failure? ==> r.error == CookiesNotAnObject
    ensures acc.cookies.Present? && HasSession(acc.cookies.value) ==> r == Success(acc.cookies.value[SessionCookie])
    ensures r.Success? && r.value != "" ==> acc.cookies.Present? && HasSession(acc.cookies.value)
  {
    match acc.cookies
    case Missing => Success("")
    case Null => Failure(CookiesNotAnObject)
    case Present(m) => Success(if SessionCookie in m then m[SessionCookie] else "")
  }
}
