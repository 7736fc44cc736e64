/** The validation gate: the checks run on harvested server data and on the whole state
    document before anything is written to the Gist. */
module Validation {
  import opened Wrappers
  import opened Text
  import opened Document

  // ---------------------------------------------------------------------------
  // validate_server_info
  // ---------------------------------------------------------------------------

  /** One message of `validate_server_info`; each field reports at most one of its two. */
  datatype ServerInfoError =
    | ServerIdEmpty
    | ServerIdNotNumeric
    | FtpHostEmpty
    | FtpHostMalformed
    | FtpUserEmpty
    | FtpUserTooShort

  /** The provider's name, accepted anywhere in a lower-cased FTP host. */
  const ProviderMarker: string := "boxtoplay"

  const MinFtpUserLength: nat := 3

  /** What a good server id is: a non-empty string of decimal digits. */
  predicate ServerIdValid(id: Option<string>) {
    id.Some? && IsDigitString(id.value)
  }

  /** What a good FTP host is: non-empty, and naming the provider or containing a dot. */
  predicate FtpHostValid(host: Option<string>) {
    NonEmpty(host) && (Contains(Lower(host.value), ProviderMarker) || Contains(host.value, "."))
  }

  /** What a good FTP user is: at least three characters. */
  predicate FtpUserValid(user: Option<string>) {
    user.Some? && |user.value| >= MinFtpUserLength
  }

  function ServerIdErrors(id: Option<string>): (e: seq<ServerInfoError>)
    ensures |e| == Bad(ServerIdValid(id))
    ensures e == [] || e == [ServerIdEmpty] || e == [ServerIdNotNumeric]
    ensures ServerIdEmpty in e <==> !NonEmpty(id)
  {
    if !NonEmpty(id) then [ServerIdEmpty]
    else if !IsDigitString(id.value) then [ServerIdNotNumeric]
    else []
  }

  function FtpHostErrors(host: Option<string>): (e: seq<ServerInfoError>)
    ensures |e| == Bad(FtpHostValid(host))
    ensures e == [] || e == [FtpHostEmpty] || e == [FtpHostMalformed]
    ensures FtpHostEmpty in e <==> !NonEmpty(host)
  {
    if !NonEmpty(host) then [FtpHostEmpty]
    else if !Contains(Lower(host.value), ProviderMarker) && !Contains(host.value, ".") then [FtpHostMalformed]
    else []
  }

  function FtpUserErrors(user: Option<string>): (e: seq<ServerInfoError>)
    ensures |e| == Bad(FtpUserValid(user))
    ensures e == [] || e == [FtpUserEmpty] || e == [FtpUserTooShort]
    ensures FtpUserEmpty in e <==> !NonEmpty(user)
  {
    if !NonEmpty(user) then [FtpUserEmpty]
    else if |user.value| < MinFtpUserLength then [FtpUserTooShort]
    else []
  }

  /** 1 for a field that fails its check, 0 otherwise. */
  function Bad(ok: bool): nat {
    if ok then 0 else 1
  }

  function BadFieldCount(id: Option<string>, host: Option<string>, user: Option<string>): nat {
    Bad(ServerIdValid(id)) + Bad(FtpHostValid(host)) + Bad(FtpUserValid(user))
  }

  /** The `errors` list of `validate_server_info`. All three fields are checked whatever the
      earlier ones gave, each bad field contributes exactly one message and a good one none,
      so there are as many messages as bad fields, and never more than three. */
  function ServerInfoErrors(id: Option<string>, host: Option<string>, user: Option<string>): (errs: seq<ServerInfoError>)
    ensures |errs| == BadFieldCount(id, host, user) <= 3
    ensures ServerIdEmpty in errs <==> !NonEmpty(id)
    ensures FtpHostEmpty in errs <==> !NonEmpty(host)
    ensures FtpUserEmpty in errs <==> !NonEmpty(user)
  {
    ServerIdErrors(id) + FtpHostErrors(host) + FtpUserErrors(user)
  }

  /** Each field contributes one of its two messages when it is bad and neither when it is good:
      never both "empty" and "malformed". */
  lemma ServerInfoErrorsPerField(id: Option<string>, host: Option<string>, user: Option<string>)
    ensures var errs := ServerInfoErrors(id, host, user);
      && multiset(errs)[ServerIdEmpty] + multiset(errs)[ServerIdNotNumeric] == Bad(ServerIdValid(id))
      && multiset(errs)[FtpHostEmpty] + multiset(errs)[FtpHostMalformed] == Bad(FtpHostValid(host))
      && multiset(errs)[FtpUserEmpty] + multiset(errs)[FtpUserTooShort] == Bad(FtpUserValid(user))
  {
    var a, b, c := ServerIdErrors(id), FtpHostErrors(host), FtpUserErrors(user);
    assert multiset(a + b + c) == multiset(a) + multiset(b) + multiset(c);
  }

  /** `validate_server_info`: accepts exactly when all three fields are good. */
  function ValidateServerInfo(id: Option<string>, host: Option<string>, user: Option<string>): (ok: bool)
    ensures ok <==> ServerIdValid(id) && FtpHostValid(host) && FtpUserValid(user)
  {
    ServerInfoErrors(id, host, user) == []
  }

  /** An empty id, an empty host and a two-letter user are reported together, not just the first. */
  lemma ServerInfoReportsEveryBadField()
    ensures ServerInfoErrors(Some(""), Some(""), Some("ab")) == [ServerIdEmpty, FtpHostEmpty, FtpUserTooShort]
  {
  }

  // ---------------------------------------------------------------------------
  // validate_state_before_save
  // ---------------------------------------------------------------------------

  /** One message of `validate_state_before_save`. */
  datatype StateError =
    | AccountsMalformed
    | ActiveIndexMissing
    | ActiveIndexInvalid
    | CurrentServerIdMissing
    | CurrentServerIdNotNumeric
    | TargetServerIdMissing
    | TargetFtpHostMissing
    | TargetFtpUserMissing
    | TargetCookiesInvalid
    | ServerIdMismatch

  predicate TwoAccounts(s: State) {
    s.accounts.Some? && |s.accounts.value| == 2
  }

  /** `cookies` is a non-empty object whose session cookie is non-empty. */
  predicate CookiesValid(c: Field<map<string, string>>) {
    c.Present? && HasSession(c.value)
  }

  /** What a document must satisfy before it may be saved with slot `t` as the new active one. */
  predicate SaveReady(s: State, t: int)
    requires 0 <= t <= 1
  {
    && TwoAccounts(s)
    && s.activeIndex.Present? && (s.activeIndex.value == 0 || s.activeIndex.value == 1)
    && !s.currentServerId.Missing?
    && (Truthy(s.currentServerId) ==> IsDigitString(s.currentServerId.value))
    && var acc := s.accounts.value[t];
       && Truthy(acc.serverId)
       && Truthy(acc.ftpHost)
       && Truthy(acc.ftpUser)
       && CookiesValid(acc.cookies)
       && (Truthy(s.currentServerId) ==> s.currentServerId.value == acc.serverId.value)
  }

  function ActiveIndexErrors(f: Field<int>): seq<StateError> {
    match f
    case Missing => [ActiveIndexMissing]
    case Null => [ActiveIndexInvalid]
    case Present(v) => if v == 0 || v == 1 then [] else [ActiveIndexInvalid]
  }

  function CurrentServerIdErrors(f: Field<string>): seq<StateError> {
    if f.Missing? then [CurrentServerIdMissing]
    else if Truthy(f) && !IsDigitString(f.value) then [CurrentServerIdNotNumeric]
    else []
  }

  function TargetErrors(acc: Account): seq<StateError> {
    (if Truthy(acc.serverId) then [] else [TargetServerIdMissing])
    + (if Truthy(acc.ftpHost) then [] else [TargetFtpHostMissing])
    + (if Truthy(acc.ftpUser) then [] else [TargetFtpUserMissing])
    + (if CookiesValid(acc.cookies) then [] else [TargetCookiesInvalid])
  }

  function ConsistencyErrors(current: Field<string>, acc: Account): seq<StateError> {
    if Truthy(current) && Truthy(acc.serverId) && current.value != acc.serverId.value then [ServerIdMismatch] else []
  }

  /** The `errors` list of `validate_state_before_save`. A malformed `accounts` entry stops the
      check at once with that single message; otherwise every other check runs. */
  function StateErrors(s: State, t: int): (errs: seq<StateError>)
    requires 0 <= t <= 1
    ensures !TwoAccounts(s) ==> errs == [AccountsMalformed]
    ensures TwoAccounts(s) ==> AccountsMalformed !in errs
    ensures errs == [] <==> SaveReady(s, t)
  {
    if !TwoAccounts(s) then [AccountsMalformed]
    else
      var acc := s.accounts.value[t];
      ActiveIndexErrors(s.activeIndex)
      + CurrentServerIdErrors(s.currentServerId)
      + TargetErrors(acc)
      + ConsistencyErrors(s.currentServerId, acc)
  }

  /** `validate_state_before_save(state, t)`: accepts exactly the documents that are `SaveReady`. */
  function ValidateStateBeforeSave(s: State, t: int): (ok: bool)
    requires 0 <= t <= 1
    ensures ok <==> SaveReady(s, t)
    ensures ok ==> TwoAccounts(s) && s.accounts.value[t].serverId.Present?
    ensures ok && Truthy(s.currentServerId) ==> s.currentServerId == s.accounts.value[t].serverId
  {
    StateErrors(s, t) == []
  }

  /** The gate accepts an empty `ftp_user` nowhere, but does accept a two-letter one: its user
      check is presence only, unlike `validate_server_info`. */
  lemma GateAcceptsShortUser(s: State)
    requires SaveReady(s, 0)
    ensures ValidateStateBeforeSave(s.(accounts := Some(s.accounts.value[0 := s.accounts.value[0].(ftpUser := Present("ab"))])), 0)
  {
  }

  // ---------------------------------------------------------------------------
  // update_state
  // ---------------------------------------------------------------------------

  /** `update_state(doc, target)`: refuses without Gist credentials, refuses a document the gate
      rejects (when a target is given), and otherwise writes the document whole if the PATCH
      succeeds (`patchOk`). The result is the document now stored. */
  function UpdateState(c: Config, doc: State, target: Option<int>, patchOk: bool): (r: Result<State, Fault>)
    requires target.Some? ==> 0 <= target.value <= 1
    ensures r.Success? ==> r.value == doc
    ensures r.Success? <==> StoreConfigured(c) && (target.Some? ==> SaveReady(doc, target.value)) && patchOk
    ensures !StoreConfigured(c) ==> r == Failure(StoreNotConfigured)
    ensures StoreConfigured(c) && target.Some? && !SaveReady(doc, target.value) ==> r == Failure(StateRejected)
  {
    if !StoreConfigured(c) then Failure(StoreNotConfigured)
    else if target.Some? && !ValidateStateBeforeSave(doc, target.value) then Failure(StateRejected)
    else if !patchOk then Failure(StateWriteFailed)
    else Success(doc)
  }
}
