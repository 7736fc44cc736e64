# BoxToPlay worker: rotation core in Dafny

The worker keeps a Minecraft server alive on BoxToPlay's free offer by rotating between two
accounts. Each run reads a rotation-state document from a GitHub Gist. It stops the server of
the active account and buys a fresh server on the other account. It then mirrors the `world`
directory across with lftp, starts the new server, and writes back the document with the active
index flipped.

This project models the pure core of that run:

- **Validation gate** (`Validation`): `validate_server_info`, `validate_state_before_save` and
  the "validate, then write" behaviour of `update_state`. Each one's accept/reject decision is
  stated field by field, and its error list is modelled message by message.
- **Rotation state transition** (`Rotation`): the index flip, the look-ups of the two accounts
  with Python's indexing rules, the FTP-password fallbacks, the in-place overwrite of the
  document, and one whole run of `main` as a function of the outside world's answers.
- **Transfer decisions** (`Transfer`): the outcome table of `transfer_world_data` over
  "download ok" and "upload ok".
- **Account steps** (`Provision`): the `#`-stripping of the scraped server id, the bounded
  ten-attempt poll for the new server's id (as a loop and as a recursive reference), the
  post-checks of `process_target_account`, and the FTP credentials `process_active_account`
  hands to the transfer.

`Text` holds ASCII versions of `isdigit`, `lower`, `in` and `lstrip`. `Document` holds the
document's data model: JSON keys are `Missing | Null | Present(v)`, so that `.get`, `in` and
truthiness are exact. `Wrappers` holds `Option` and `Result`; an exception is a `Failure`.

The browser, the Gist API and lftp are not executed. Their results are parameters:
`TargetProbe` for the target account's browser session, and `Probes` for the whole run. A
flag that is false stands for the covered step raising (or, for logins and the purchase,
returning `False`). An exception ends the run with exit status 1 and no write. The flags
cover these steps:

- `Probes.outgoingLoginOk`: the cookie login, then the credential login, of the outgoing
  account (worker.py:905-909).
- `Probes.outgoingShutdownOk`: the old server's DNS clear and stop together
  (worker.py:916-920). Both run only when the panel shows a server.
- `TargetProbe.loginOk` and `TargetProbe.purchaseOk`: the target's logins and
  `buy_free_server` (worker.py:956-963).
- `TargetProbe.dnsOk`: the new server's DNS change (worker.py:978).
- `TargetProbe.ftpSetupOk`: `setup_ftp_account`, which re-raises its errors
  (worker.py:982, 698-700).
- `TargetProbe.installOk`: the modpack install and the first cookie harvest together
  (worker.py:985-988).
- `Probes.finalizeOk`: `finalize_server` (worker.py:1145).

`logout` and `close_driver` catch their own exceptions (worker.py:504-512, 354-360), so they
never raise. Driver creation and the retry's second harvest have no flag. They are assumed not
to raise; see "## Left out".

`Rotation.Run` takes a `PullRule`. `AsWritten` is the code's pull password (worker.py:926).
`SharedPassword` is the correction described under "## Findings".

Notes on the code's behaviour:

- `main` discards the result of `transfer_world_data` (worker.py:1135). A failed upload is
  therefore not fatal, and the run still commits (`UploadFailureIsNotFatal`).
- A failed download returns `True` without attempting the upload (worker.py:849-851).
- The outgoing account is decommissioned only when its `ftp_host` is truthy
  (worker.py:1105). A missing `server_id` does not decide this.
- After a failed download or a failed upload, `transfer_world_data` leaves the scratch
  directory for `main`'s `finally` (worker.py:1209). It removes the directory itself after a
  good upload (worker.py:869) and when one of its steps raises (worker.py:876). Exceptions
  inside the transfer are not modelled, so `scratchRemoved` covers only the first case.
- `finalize_server` starts the new server only when its cookie login succeeds
  (worker.py:1046-1048). When that login fails, it returns normally, the new server stays
  stopped, and the run still commits.
- `"defaultpass"` is used only when the document has no `ftp_password` key at all
  (worker.py:1094). A `null` value gives `None`, and an empty string stays empty.
- The gate requires the `current_server_id` key to be present, but accepts `null` or empty
  (worker.py:226-229). Its check on the target's `ftp_user` is presence only, so a
  two-letter user passes it (`GateAcceptsShortUser`).

## Model

| member | source | states |
|---|---|---|
| Text.IsDigitString | worker.py:178 | `str(x).isdigit()` over ASCII: at least one character, and every character a decimal digit |
| Text.Lower | worker.py:184 | `ftp_host.lower()` keeps the length, maps every upper-case ASCII letter to its lower-case letter, and keeps every other character |
| Text.Contains | worker.py:184 | `sub in s`: `sub` is a prefix of `s` or of one of its tails |
| Text.ContainsIffOccurs | worker.py:184 | the substring test `"boxtoplay" in …` / `"." in …` holds exactly when the text occurs at some position |
| Text.StripLeading | worker.py:542 | `lstrip('#')` returns a suffix that does not start with `#`, and every removed character was `#` |
| Text.StripRepeatPrefix | worker.py:542 | stripping any run of `#` in front of an id that does not start with `#` gives the id back |
| Document.SessionToken | worker.py:905 | reading the session cookie raises exactly when `cookies` is `null`; an absent object reads as empty |
| Validation.ServerInfoErrors | worker.py:173-191 | all three fields are checked; there are as many messages as bad fields, at most three; the "empty" message appears exactly for an empty/`None` field |
| Validation.ServerInfoErrorsPerField | worker.py:175-191 | each field gives one of its two messages when bad and none when good, never both "empty" and "malformed" |
| Validation.ValidateServerInfo | worker.py:161-199 | accepts iff the id is non-empty ASCII digits, the host is non-empty and contains "boxtoplay" (any case) or a dot, and the user has at least 3 characters |
| Validation.ServerInfoReportsEveryBadField | worker.py:173-196 | an empty id, an empty host and the user "ab" produce three messages, in field order |
| Validation.StateErrors | worker.py:213-257 | a missing or non-two-element `accounts` gives exactly one message and nothing else is checked; otherwise no messages iff the document is save-ready |
| Validation.ValidateStateBeforeSave | worker.py:202-257 | accepts iff there are two accounts; the index is present and 0 or 1; `current_server_id` is present and empty/null or digits; the target has id, host, user and a session cookie; and two set ids are equal |
| Validation.GateAcceptsShortUser | worker.py:240-241 | the gate checks the target's `ftp_user` for presence only |
| Validation.UpdateState | worker.py:260-306 | a write happens iff the Gist is configured, the gate accepts (when a target index is given) and the PATCH succeeds; what is stored is the document given |
| Transfer.TransferWorldData | worker.py:815-877 | no source host: success, nothing attempted; download fails: success, no upload; upload fails: failure; the scratch directory is removed only after a good upload |
| Transfer.TransferFailsOnlyOnPush | worker.py:849-865 | the call fails iff there is a source host, the download succeeds and the upload fails |
| Transfer.PushResultIrrelevantWithoutPush | worker.py:831-851 | when no upload is attempted, the upload's success changes nothing |
| Provision.PanelServerId | worker.py:519-548 | no server block or a scraping error gives no id; otherwise the heading minus its leading `#`s, so the id never starts with `#` |
| Provision.PanelServerIdStripsHashes | worker.py:538-544 | a heading `#…#id` yields exactly `id` |
| Provision.PollFrom | worker.py:965-975 | the poll's result, when there is one, is a non-empty id |
| Provision.PollFromIsFirstFound | worker.py:965-975 | the poll finds an id iff one of the ten attempts sees one, and then it is the first such attempt's id |
| Provision.PollServerId | worker.py:965-975 | the loop makes at most ten reads, stops at the first non-empty id, and agrees with the recursive reference |
| Provision.ProcessTarget | worker.py:933-1031 | `null` cookies, failed login and refused purchase abort, and so does a raising DNS change, FTP form or modpack install; a returned result has a digit id from the poll, a host of at least 5 and a user of at least 3 characters passing `validate_server_info`, and a session cookie from the first or the retried harvest |
| Provision.ProcessTargetSucceedsIff | worker.py:955-1031 | `process_target_account` returns normally exactly when every step and every post-check succeeds |
| Provision.HostFormatIsTheLastCheck | worker.py:995-1020 | once the earlier checks pass, only the host format can still make `validate_server_info` reject |
| Provision.ProcessOutgoing | worker.py:884-930 | `null` cookies raise; a failed login gives no pull source; after a login, a raising DNS clear or stop (both run only when a server id was read) raises; otherwise the account's stored FTP host and user with the given password |
| Provision.ReadyToSave | worker.py:1158-1165 | `main`'s presence checks before saving: server id, FTP host and FTP user non-empty, and the cookies hold a non-empty session cookie |
| Rotation.NextIndex | worker.py:1088-1089 | the next index is 0 or 1, and it is 1 exactly when the current index is 0 |
| Rotation.FlipIsInvolution | worker.py:1088-1089 | on 0 and 1 the flip always changes the index and undoes itself |
| Rotation.PyIndex | worker.py:1091-1092 | a list index is valid iff it lies in -len..len-1; negative ones count from the end |
| Rotation.SelectSlots | worker.py:1086-1092 | an absent index defaults to 0; `null` or a missing `accounts` raises; the incoming position is the flipped index; on a two-account document with index 0 or 1 the two positions are the index and its flip |
| Rotation.OutOfRangeIndexAliasesSlots | worker.py:1088-1092 | the stored index -2 on two accounts makes outgoing and incoming the same account; nothing rejects it on load |
| Rotation.ResolveFtpPassword | worker.py:1094 | the environment password wins; otherwise the document's value, with `"defaultpass"` only for an absent key |
| Rotation.PullPasswordAsWritten | worker.py:926 | with `FTP_PASSWORD` unset and no per-account `ftp_password`, the pull password is the empty string |
| Rotation.Rotate | worker.py:1167-1175 | the active index becomes the incoming slot; `current_server_id` and that account's `server_id` become the same new id; only its cookies, host, user and id change; the other account and the shared password are untouched |
| Rotation.RotateSatisfiesGate | worker.py:1158-1175 | the rotated document passes `validate_state_before_save(state, next)` iff the original has two accounts and the result is complete with a digit id; the consistency check holds by construction |
| Rotation.TargetResultPassesGate | worker.py:995-1028 | any result returned by `process_target_account`, written into a two-account document, passes the gate |
| Rotation.Run | worker.py:1055-1209 | a run commits only through `update_state`, and only after the outgoing part, `process_target_account` and `finalize_server` all returned normally; what it stores is exactly the loaded document rotated with the target's result, it passes the gate for the incoming index, and that index becomes active; no Gist credentials or a failed read abort before anything else |
| Rotation.UploadFailureIsNotFatal | worker.py:1135 | the exit status and the stored document do not depend on whether the upload succeeded |
| Rotation.OutgoingReturns | worker.py:1104-1108 | the outgoing account's part returns normally: no FTP host, or a non-`null` cookie object and, after a login, a normal shutdown |
| Rotation.CommitAfterProvisioning | worker.py:1104-1198 | after a successful provisioning, the run commits iff the outgoing part returned normally, `finalize_server` returned normally, the document has two accounts and the write succeeds; it stores exactly the rotated document; the presence checks never fire |
| Rotation.PurchaseRefusalWritesNothing | worker.py:961-963 | a refused purchase aborts the run before any transfer or write |
| Rotation.NoOutgoingHostNoMigration | worker.py:1104-1108 | an outgoing account without an FTP host gives no pull source, and the transfer is skipped |
| Rotation.BrowserExceptionWritesNothing | worker.py:912-1145 | a raising shutdown of a logged-in outgoing account, a raising DNS change or modpack install on the target, or a raising `finalize_server` ends the run with exit status 1 |
| Rotation.OutgoingLoginFailureSkipsMigration | worker.py:906-909 | when the outgoing login fails there is no pull source and the transfer is skipped |
| Rotation.FirstRunScenario | worker.py:1086-1198 | first rotation of a seeded document: nothing is pulled; account 1 becomes active with id "445566"; account 0 is unchanged |
| Rotation.RunRecordsPullSource | worker.py:1104-1106 | once the outgoing account has an FTP host and returns normally, every outcome of the run carries the pull source it returned |
| Rotation.PullPasswordAsWrittenMismatch | worker.py:926 | as written, the run after a rotation pulls with "" from the account whose FTP login that rotation created with "secret" |
| Rotation.NextRunPullsFromCreatedAccount | worker.py:1168-1175 | with the shared password, the run after a rotation pulls from exactly the host and user that rotation created, with the password it created them with |

## Left out

- Browser automation is not executed: cookie and credential login, XPath scraping, the purchase and checkout clicks, DNS, start/stop, modpack and `finalize_server` (worker.py:321-700, 1034-1048). Their outcomes are the booleans and strings of `TargetProbe` and `Probes`; the list above says which flag covers which step.
- Creating a Selenium driver (worker.py:1102, 1117, 1141) can raise. That would also end the run with exit status 1 and no write. The model assumes these calls return normally.
- The second cookie harvest in the retry (worker.py:1011-1013) is assumed to return normally. Its `driver.get` or `get_all_cookies` raising would end the run like a missing cookie.
- The Gist GET/PATCH and JSON (de)serialisation (worker.py:122-158, 287-306) are not modelled. They are network I/O; their success is `stateFetched` / `stateWriteOk`.
- The lftp subprocesses, their timeouts and exit codes (worker.py:723-812) are not modelled; they are `downloadOk` / `uploadOk`. A filesystem exception while creating the scratch directory is not modelled either.
- Temporary-directory cleanup in `main`'s `finally` (worker.py:1209) always runs, so it is not recorded in `RunOutcome`. Logging and `time.sleep` delays are omitted.
- The time-based FTP user name (worker.py:675) is an arbitrary string input.
- Keys of the document or of an account other than the modelled ones are not representable. `main` mutates the document in place, so it keeps such keys untouched when it writes. `Rotation.Rotate`'s frame therefore speaks only of the modelled fields.
- Account entries missing `email` or `password`, and `null` entries in `accounts`, are not modelled: `Account` always carries both strings. In the code, a missing `email` raises `KeyError` at worker.py:1096 and a `null` entry fails at the same line, and either ends the run with exit status 1. A missing `password` raises at worker.py:907/958 once the cookie login fails.
- JSON values of other types are not modelled: a numeric `server_id` or `current_server_id`, a boolean or string index, a `null` `accounts` list, or `null` cookie values. Ids are strings and cookie values are strings.
- `str.isdigit` and `str.lower` are ASCII-only; Unicode digits and case mappings are not modelled.
- A `None` FTP password sent to the FTP account form is not modelled. Whether that form succeeds is the probe's `ftpSetupOk`.
- Validation.ValidateStateBeforeSave: defined only for a target index of 0 or 1, the only values `main` passes. Other indices would use Python's negative indexing or raise.
- Concurrent runs racing on the Gist, the startup `pkill`, and reading the environment are not modelled. Configuration is the `Config` parameter.

## Findings

| source | as written | input that shows it | evidently intended | confidence | as-written member | corrected member |
|---|---|---|---|---|---|---|
| worker.py:926 | the outgoing account's pull password is `FTP_PASSWORD or account.get("ftp_password", "")` | `FTP_PASSWORD` unset, document `ftp_password` = "secret", accounts without their own `ftp_password` (the commit never writes one): the pull uses "" but the FTP account was created with "secret" (worker.py:1094, 982) | fall back to the document's shared `ftp_password`, as worker.py:1094 does | medium, not executed | Rotation.PullPasswordAsWritten | Rotation.NextRunPullsFromCreatedAccount |

`Rotation.PullPasswordAsWrittenMismatch` exhibits the discrepancy on `Rotation.Run` with
`AsWritten`. With `SharedPassword`, `Run` pulls with `ResolveFtpPassword`, the password of
worker.py:1094, and `Rotation.NextRunPullsFromCreatedAccount` proves that the next
run then pulls with the same credentials this run created.
