/** The account-level steps of a rotation: reading the server id off the panel, the bounded
    poll for a freshly bought server, the target account's harvest and post-checks, and what
    the outgoing account contributes to the transfer. Browser actions are not executed: their
    results arrive as probe values. */
module Provision {
  import opened Wrappers
  import opened Text
  import opened Document
  import opened Validation
  import opened Transfer

  // ---------------------------------------------------------------------------
  // get_current_server_id
  // ---------------------------------------------------------------------------

  /** One look at the panel: how many server blocks it shows, and the heading text of the
      newest one (`None` when reading it raised). */
  datatype PanelView = PanelView(blockCount: nat, heading: Option<string>)

  /** `get_current_server_id`: nothing without a server block or when scraping fails; otherwise
      the heading with its leading `#` characters removed. */
  function PanelServerId(v: PanelView): (r: Option<string>)
    ensures v.blockCount == 0 || v.heading.None? ==> r.None?
    ensures r.Some? ==> r.value == [] || r.value[0] != '#'
    ensures r.Some? ==> exists k :: 0 <= k <= |v.heading.value| && v.heading.value == Repeat('#', k) + r.value
  {
    if v.blockCount == 0 || v.heading.None? then None
    else
      var h := v.heading.value;
      var id := StripLeading(h, '#');
      assert h == Repeat('#', |h| - |id|) + id;
      Some(id)
  }

  /** A heading `#…#id` yields exactly `id`. */
  lemma PanelServerIdStripsHashes(blockCount: nat, hashes: nat, id: string)
    requires blockCount > 0
    requires id == [] || id[0] != '#'
    ensures PanelServerId(PanelView(blockCount, Some(Repeat('#', hashes) + id))) == Some(id)
  {
    StripRepeatPrefix('#', hashes, id);
  }

  // ---------------------------------------------------------------------------
  // The bounded poll for the new server's id
  // ---------------------------------------------------------------------------

  const MaxPollAttempts: nat := 10

  /** What `get_current_server_id` returns for each successive look at the panel. */
  function PanelAnswers(panel: seq<PanelView>): seq<Option<string>> {
    seq(|panel|, i requires 0 <= i < |panel| => PanelServerId(panel[i]))
  }

  /** The answer on attempt `i`; attempts past the end of `answers` see no server. */
  function Answer(answers: seq<Option<string>>, i: nat): Option<string> {
    if i < |answers| then answers[i] else None
  }

  /** Attempt `i` is the first of attempts `from` .. 9 to see an id. */
  predicate FirstFoundAt(answers: seq<Option<string>>, from: nat, i: nat) {
    from <= i < MaxPollAttempts && NonEmpty(Answer(answers, i))
    && forall j :: from <= j < i ==> !NonEmpty(Answer(answers, j))
  }

  /** The id the poll settles on when it starts at attempt `attempt`: the first answer that
      is an id, or `None` once the ten attempts are spent. */
  function PollFrom(answers: seq<Option<string>>, attempt: nat): (r: Option<string>)
    requires attempt <= MaxPollAttempts
    decreases MaxPollAttempts - attempt
    ensures r.Some? ==> NonEmpty(r)
  {
    if attempt == MaxPollAttempts then None
    else if NonEmpty(Answer(answers, attempt)) then Answer(answers, attempt)
    else PollFrom(answers, attempt + 1)
  }

  /** The poll finds an id exactly when one of the remaining attempts sees one, and then it is
      the answer of the first such attempt. */
  lemma {:induction false} PollFromIsFirstFound(answers: seq<Option<string>>, attempt: nat)
    requires attempt <= MaxPollAttempts
    decreases MaxPollAttempts - attempt
    ensures PollFrom(answers, attempt).Some? <==> exists i :: attempt <= i < MaxPollAttempts && NonEmpty(Answer(answers, i))
    ensures PollFrom(answers, attempt).Some? ==>
              exists i :: FirstFoundAt(answers, attempt, i) && PollFrom(answers, attempt) == Answer(answers, i)
  {
    if attempt < MaxPollAttempts {
      if NonEmpty(Answer(answers, attempt)) {
        assert FirstFoundAt(answers, attempt, attempt);
      } else {
        PollFromIsFirstFound(answers, attempt + 1);
        if PollFrom(answers, attempt + 1).Some? {
          var i :| FirstFoundAt(answers, attempt + 1, i) && PollFrom(answers, attempt + 1) == Answer(answers, i);
          assert FirstFoundAt(answers, attempt, i);
        }
      }
    }
  }

  /** The `for attempt in range(10)` loop: reads the panel until an id shows up, at most ten
      times. Returns the id (or `None`, after which the caller raises) and the number of answers reads. */
  method PollServerId(answers: seq<Option<string>>) returns (id: Option<string>, lookups: nat)
    ensures id == PollFrom(answers, 0)
    ensures 1 <= lookups <= MaxPollAttempts
    ensures id.Some? ==> id == Answer(answers, lookups - 1)
    ensures forall j :: 0 <= j < lookups - 1 ==> !NonEmpty(Answer(answers, j))
    ensures id.None? ==> lookups == MaxPollAttempts && !NonEmpty(Answer(answers, lookups - 1))
  {
    var attempt: nat := 0;
    while attempt < MaxPollAttempts
      invariant attempt <= MaxPollAttempts
      invariant forall j :: 0 <= j < attempt ==> !NonEmpty(Answer(answers, j))
      invariant PollFrom(answers, attempt) == PollFrom(answers, 0)
      decreases MaxPollAttempts - attempt
    {
      var answer := Answer(answers, attempt);
      if NonEmpty(answer) {
        assert PollFrom(answers, attempt) == answer;
        return answer, attempt + 1;
      }
      assert PollFrom(answers, attempt) == PollFrom(answers, attempt + 1);
      attempt := attempt + 1;
    }
    assert PollFrom(answers, attempt) == None;
    return None, MaxPollAttempts;
  }

  // ---------------------------------------------------------------------------
  // process_target_account
  // ---------------------------------------------------------------------------

  const MinFtpHostLength: nat := 5

  /** What the browser session on the target account produces: whether login (cookie, then
      credentials) and the purchase succeed, the successive panel views while polling, whether
      the DNS change returns normally, whether the FTP account form goes through, whether the
      modpack installation and the cookie harvest return normally, the scraped FTP host, the
      generated FTP user, and the cookie jar before and after the single retry. */
  datatype TargetProbe = TargetProbe(
    loginOk: bool,
    purchaseOk: bool,
    panel: seq<PanelView>,
    dnsOk: bool,
    ftpSetupOk: bool,
    installOk: bool,
    ftpHost: string,
    ftpUser: string,
    cookies: map<string, string>,
    cookiesOnRetry: map<string, string>)

  /** The dictionary `process_target_account` returns. */
  datatype TargetResult = TargetResult(
    serverId: string,
    ftpHost: string,
    ftpUser: string,
    ftpPassword: Option<string>,
    cookies: map<string, string>)

  /** The presence checks `main` runs before saving: id, host, user and session cookie all set. */
  predicate ReadyToSave(tr: TargetResult) {
    tr.serverId != "" && tr.ftpHost != "" && tr.ftpUser != "" && HasSession(tr.cookies)
  }

  /** `process_target_account`. Login, purchase and the poll must succeed, then the harvested
      data must pass the post-checks; a returned result therefore has an all-digit id, a host
      of at least five characters accepted by `validate_server_info`, a user of at least three
      and a session cookie, so it always passes `main`'s presence checks. */
  function ProcessTarget(acc: Account, ftpPassword: Option<string>, p: TargetProbe): (r: Result<TargetResult, Fault>)
    ensures acc.cookies.Null? ==> r == Failure(CookiesNotAnObject)
    ensures !acc.cookies.Null? && !p.loginOk ==> r == Failure(TargetLoginFailed)
    ensures !acc.cookies.Null? && p.loginOk && !p.purchaseOk ==> r == Failure(PurchaseFailed)
    ensures PollFrom(PanelAnswers(p.panel), 0).None? ==> r.Failure?
    ensures r.Success? ==> Some(r.value.serverId) == PollFrom(PanelAnswers(p.panel), 0)
    ensures r.Success? ==> r.value.ftpHost == p.ftpHost && r.value.ftpUser == p.ftpUser
    ensures r.Success? ==> r.value.ftpPassword == ftpPassword
    ensures r.Success? ==> r.value.cookies == (if HasSession(p.cookies) then p.cookies else p.cookiesOnRetry)
    ensures r.Success? ==> IsDigitString(r.value.serverId)
    ensures r.Success? ==> |r.value.ftpHost| >= MinFtpHostLength && |r.value.ftpUser| >= MinFtpUserLength
    ensures r.Success? ==> ValidateServerInfo(Some(r.value.serverId), Some(r.value.ftpHost), Some(r.value.ftpUser))
    ensures r.Success? ==> ReadyToSave(r.value)
  {
    var _ :- SessionToken(acc);
    if !p.loginOk then Failure(TargetLoginFailed)
    else if !p.purchaseOk then Failure(PurchaseFailed)
    else
      var id :- PollFrom(PanelAnswers(p.panel), 0).ToResult(ServerNotFound);
      if !p.dnsOk then Failure(DnsChangeFailed)
      else if !p.ftpSetupOk then Failure(FtpSetupFailed)
      else if !p.installOk then Failure(InstallFailed)
      else if !IsDigitString(id) then Failure(InvalidServerId)
      else if |p.ftpHost| < MinFtpHostLength then Failure(InvalidFtpHost)
      else if |p.ftpUser| < MinFtpUserLength then Failure(InvalidFtpUser)
      else
        var cookies := if HasSession(p.cookies) then p.cookies else p.cookiesOnRetry;
        if !HasSession(cookies) then Failure(SessionCookieMissing)
        else if !ValidateServerInfo(Some(id), Some(p.ftpHost), Some(p.ftpUser)) then Failure(ServerInfoRejected)
        else Success(TargetResult(id, p.ftpHost, p.ftpUser, ftpPassword, cookies))
  }

  /** Everything `process_target_account` needs to return normally. */
  predicate TargetAccepts(acc: Account, p: TargetProbe) {
    var id := PollFrom(PanelAnswers(p.panel), 0);
    && !acc.cookies.Null?
    && p.loginOk
    && p.purchaseOk
    && id.Some?
    && p.dnsOk
    && p.ftpSetupOk
    && p.installOk
    && IsDigitString(id.value)
    && |p.ftpHost| >= MinFtpHostLength
    && |p.ftpUser| >= MinFtpUserLength
    && (HasSession(p.cookies) || HasSession(p.cookiesOnRetry))
    && FtpHostValid(Some(p.ftpHost))
  }

  /** `process_target_account` returns normally exactly when every step and check succeeds. */
  lemma ProcessTargetSucceedsIff(acc: Account, pw: Option<string>, p: TargetProbe)
    ensures ProcessTarget(acc, pw, p).Success? <==> TargetAccepts(acc, p)
  {
  }

  /** Of the post-checks, only the host format can still reject: with a good id, a long enough
      user and a session cookie, a five-character host lacking both the provider's name and a dot
      is refused by `validate_server_info`. */
  lemma HostFormatIsTheLastCheck(acc: Account, pw: Option<string>, p: TargetProbe)
    requires !acc.cookies.Null? && p.loginOk && p.purchaseOk && p.dnsOk && p.ftpSetupOk && p.installOk
    requires PollFrom(PanelAnswers(p.panel), 0).Some? && IsDigitString(PollFrom(PanelAnswers(p.panel), 0).value)
    requires |p.ftpHost| >= MinFtpHostLength && |p.ftpUser| >= MinFtpUserLength && HasSession(p.cookies)
    ensures ProcessTarget(acc, pw, p).Success? <==> FtpHostValid(Some(p.ftpHost))
  {
  }

  // ---------------------------------------------------------------------------
  // process_active_account
  // ---------------------------------------------------------------------------

  /** `process_active_account` as far as the rotation sees it: a `null` cookie object raises;
      a failed login gives `None` (no pull source); after a login, clearing the DNS and stopping
      the old server (`shutdownOk`; both run only when the panel shows a server, and are
      trivially fine otherwise) must return normally, and then the result is the account's
      stored FTP host and user with the given password. `logout` swallows its own errors. */
  function ProcessOutgoing(acc: Account, loginOk: bool, shutdownOk: bool, password: Option<string>): (r: Result<Option<FtpInfo>, Fault>)
    ensures r.Failure? <==> acc.cookies.Null? || (loginOk && !shutdownOk)
    ensures acc.cookies.Null? ==> r == Failure(CookiesNotAnObject)
    ensures r.Success? && r.value.Some? ==> loginOk
    ensures r.Success? && loginOk ==> r.value == Some(FtpInfo(acc.ftpHost.Get(), acc.ftpUser.Get(), password))
    ensures r.Success? && !loginOk ==> r.value.None?
  {
    var _ :- SessionToken(acc);
    if !loginOk then Success(None)
    else if !shutdownOk then Failure(ShutdownFailed)
    else Success(Some(FtpInfo(acc.ftpHost.Get(), acc.ftpUser.Get(), password)))
  }
}
