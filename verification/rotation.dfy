/** `main`: one rotation run. It loads the document, picks the outgoing and the incoming account,
    decommissions the first, provisions the second, migrates the world, and commits the
    flipped document through the validation gate. */
module Rotation {
  import opened Wrappers
  import opened Text
  import opened Document
  import opened Validation
  import opened Transfer
  import opened Provision

  // ---------------------------------------------------------------------------
  // Choosing the two accounts
  // ---------------------------------------------------------------------------

  /** `1 if current_index == 0 else 0`. */
  function NextIndex(current: int): (next: nat)
    ensures next <= 1
    ensures next == 1 <==> current == 0
  {
    if current == 0 then 1 else 0
  }

  /** On the two legal indices the flip always changes the index and undoes itself. */
  lemma FlipIsInvolution(i: int)
    requires i == 0 || i == 1
    ensures NextIndex(i) != i
    ensures NextIndex(NextIndex(i)) == i
    ensures NextIndex(i) == 1 - i
  {
  }

  /** Which element `xs[i]` denotes for a list of length `len`, Python style: negative indices
      count from the end, anything else out of range raises. */
  function PyIndex(len: nat, i: int): (r: Option<nat>)
    ensures r.Some? <==> -(len as int) <= i < len
    ensures r.Some? ==> r.value < len
    ensures r.Some? ==> r.value == i || r.value == len + i
  {
    if 0 <= i < len then Some(i)
    else if -(len as int) <= i < 0 then Some(len + i)
    else None
  }

  /** The index as read (`current`), and the positions of the outgoing (`active`) and incoming
      (`target`) accounts. */
  datatype Slots = Slots(current: int, active: nat, target: nat)

  /** `current_index = state.get("active_account_index", 0)`, the flip, and the two
      `state["accounts"][…]` look-ups, with the exceptions they raise. */
  function SelectSlots(s: State): (r: Result<Slots, Fault>)
    ensures r.Success? ==> s.accounts.Some?
    ensures r.Success? ==> r.value.active < |s.accounts.value| && r.value.target < |s.accounts.value|
    ensures r.Success? ==> r.value.target == NextIndex(r.value.current)
    ensures r.Success? && s.activeIndex.Missing? ==> r.value.current == 0
    ensures r.Success? && s.activeIndex.Present? ==> r.value.current == s.activeIndex.value
    ensures s.accounts.None? ==> r == Failure(AccountsMissing)
    ensures s.accounts.Some? && s.activeIndex.Null? ==> r == Failure(ActiveIndexNull)
    ensures TwoAccounts(s) && (s.activeIndex.Missing? || (s.activeIndex.Present? && 0 <= s.activeIndex.value <= 1)) ==>
              r.Success? && r.value.active == r.value.current && r.value.target == 1 - r.value.current
  {
    if s.accounts.None? then Failure(AccountsMissing)
    else if s.activeIndex.Null? then Failure(ActiveIndexNull)
    else
      var accounts := s.accounts.value;
      var current := if s.activeIndex.Present? then s.activeIndex.value else 0;
      var next := NextIndex(current);
      match PyIndex(|accounts|, current)
      case None => Failure(IndexOutOfRange)
      case Some(active) =>
        if next < |accounts| then Success(Slots(current, active, next)) else Failure(IndexOutOfRange)
  }

  /** A stored index that is neither 0 nor 1 is not rejected on load: -2 on a two-account
      document makes the outgoing and the incoming account the same one. */
  lemma OutOfRangeIndexAliasesSlots(s: State)
    requires TwoAccounts(s) && s.activeIndex == Present(-2)
    ensures SelectSlots(s).Success?
    ensures SelectSlots(s).value.active == SelectSlots(s).value.target == 0
  {
  }

  // ---------------------------------------------------------------------------
  // FTP passwords
  // ---------------------------------------------------------------------------

  /** The password a fresh FTP account is created with, and the upload password:
      `FTP_PASSWORD or state.get("ftp_password", "defaultpass")`. The default applies only when
      the key is absent; a `null` gives `None` and an empty string stays empty. */
  const DefaultFtpPassword: string := "defaultpass"

  function ResolveFtpPassword(c: Config, s: State): (pw: Option<string>)
    ensures c.ftpPasswordEnv != "" ==> pw == Some(c.ftpPasswordEnv)
    ensures c.ftpPasswordEnv == "" ==> pw == (if s.ftpPassword.Missing? then Some(DefaultFtpPassword) else s.ftpPassword.Get())
  {
    if c.ftpPasswordEnv != "" then Some(c.ftpPasswordEnv)
    else match s.ftpPassword
      case Missing => Some(DefaultFtpPassword)
      case Null => None
      case Present(p) => Some(p)
  }

  /** worker.py:926 as written: the outgoing account's pull password is
      `FTP_PASSWORD or account.get("ftp_password", "")`, a per-account key no run ever writes. */
  function PullPasswordAsWritten(c: Config, acc: Account): (pw: Option<string>)
    ensures c.ftpPasswordEnv != "" ==> pw == Some(c.ftpPasswordEnv)
    ensures c.ftpPasswordEnv == "" && acc.ftpPassword.Missing? ==> pw == Some("")
    ensures c.ftpPasswordEnv == "" && !acc.ftpPassword.Missing? ==> pw == acc.ftpPassword.Get()
  {
    if c.ftpPasswordEnv != "" then Some(c.ftpPasswordEnv)
    else match acc.ftpPassword
      case Missing => Some("")
      case Null => None
      case Present(p) => Some(p)
  }

  /** Which password a run pulls the old world with: worker.py:926 as written, or the corrected
      choice, the run-wide password every FTP account of the rotation is created with. */
  datatype PullRule = AsWritten | SharedPassword

  function PullPasswordUnder(rule: PullRule, c: Config, s: State, outgoing: Account): Option<string> {
    match rule
    case AsWritten => PullPasswordAsWritten(c, outgoing)
    case SharedPassword => ResolveFtpPassword(c, s)
  }

  // ---------------------------------------------------------------------------
  // The commit
  // ---------------------------------------------------------------------------

  /** The in-place update before `update_state`: the incoming account becomes active, the new id
      is written both at the top and on that account, and its cookies, FTP host and FTP user are
      replaced. Its email, password and `ftp_password`, the other account, and the shared
      `ftp_password` are left alone. */
  function Rotate(s: State, next: nat, tr: TargetResult): (s': State)
    requires s.accounts.Some? && next < |s.accounts.value|
    ensures s'.activeIndex == Present(next as int)
    ensures s'.currentServerId == Present(tr.serverId)
    ensures s'.ftpPassword == s.ftpPassword
    ensures s'.accounts.Some? && |s'.accounts.value| == |s.accounts.value|
    ensures forall i :: 0 <= i < |s.accounts.value| && i != next ==> s'.accounts.value[i] == s.accounts.value[i]
    ensures s'.accounts.value[next].serverId == s'.currentServerId
    ensures s'.accounts.value[next].cookies == Present(tr.cookies)
    ensures s'.accounts.value[next].ftpHost == Present(tr.ftpHost)
    ensures s'.accounts.value[next].ftpUser == Present(tr.ftpUser)
    ensures s'.accounts.value[next].email == s.accounts.value[next].email
    ensures s'.accounts.value[next].password == s.accounts.value[next].password
    ensures s'.accounts.value[next].ftpPassword == s.accounts.value[next].ftpPassword
  {
    var accounts := s.accounts.value;
    var incoming := accounts[next].(
      cookies := Present(tr.cookies),
      ftpHost := Present(tr.ftpHost),
      ftpUser := Present(tr.ftpUser),
      serverId := Present(tr.serverId));
    State(Present(next), Present(tr.serverId), s.ftpPassword, Some(accounts[next := incoming]))
  }

  /** The rotated document passes the gate exactly when the original held two accounts and the
      harvested result is complete with an all-digit id; in particular the id-consistency check
      always holds by construction. */
  lemma RotateSatisfiesGate(s: State, next: nat, tr: TargetResult)
    requires s.accounts.Some? && next <= 1 && next < |s.accounts.value|
    ensures ValidateStateBeforeSave(Rotate(s, next, tr), next) <==>
              TwoAccounts(s) && ReadyToSave(tr) && IsDigitString(tr.serverId)
  {
    var s' := Rotate(s, next, tr);
    if TwoAccounts(s) && ReadyToSave(tr) && IsDigitString(tr.serverId) {
      assert SaveReady(s', next);
    }
  }

  /** A result from `process_target_account` on a two-account document always passes the gate. */
  lemma TargetResultPassesGate(s: State, next: nat, acc: Account, pw: Option<string>, p: TargetProbe)
    requires TwoAccounts(s) && next <= 1
    requires ProcessTarget(acc, pw, p).Success?
    ensures ValidateStateBeforeSave(Rotate(s, next, ProcessTarget(acc, pw, p).value), next)
  {
    RotateSatisfiesGate(s, next, ProcessTarget(acc, pw, p).value);
  }

  // ---------------------------------------------------------------------------
  // A whole run
  // ---------------------------------------------------------------------------

  /** The results of everything outside the worker during one run: the Gist read, the login to
      the outgoing account and whether clearing its DNS and stopping its server return normally,
      the target account's browser session, the two lftp mirrors, whether `finalize_server`
      returns normally (it starts the new server only when its cookie login succeeds), and the
      Gist write. */
  datatype Probes = Probes(
    stateFetched: bool,
    outgoingLoginOk: bool,
    outgoingShutdownOk: bool,
    target: TargetProbe,
    downloadOk: bool,
    uploadOk: bool,
    finalizeOk: bool,
    stateWriteOk: bool)

  /** How a run ends: exit status 0 with the document now stored, or exit status 1 with the
      reason. Both record the pull source handed to the transfer and the transfer's outcome when
      the run got that far. */
  datatype RunOutcome =
    | Committed(written: State, pulledFrom: Option<FtpInfo>, transfer: Option<TransferOutcome>)
    | Aborted(fault: Fault, pulledFrom: Option<FtpInfo>, transfer: Option<TransferOutcome>)
  {
    function ExitCode(): int {
      if Committed? then 0 else 1
    }
  }

  /** One run of `main`; `rule` picks the pull password (`AsWritten` is the code). Only a
      successful `update_state` ends in `Committed`, and what it stores is the rotated document
      the gate accepted. */
  function Run(rule: PullRule, c: Config, stored: State, p: Probes): (o: RunOutcome)
    ensures o.Committed? ==> SelectSlots(stored).Success?
    ensures o.Committed? ==> ValidateStateBeforeSave(o.written, SelectSlots(stored).value.target)
    ensures o.Committed? ==> o.written.activeIndex == Present(SelectSlots(stored).value.target as int)
    ensures o.Committed? ==> o.transfer.Some? && p.finalizeOk && p.stateWriteOk && TwoAccounts(stored)
    ensures o.Committed? ==>
              && SelectSlots(stored).Success?
              && OutgoingReturns(stored, p)
              && var t := SelectSlots(stored).value.target;
                 var r := ProcessTarget(stored.accounts.value[t], ResolveFtpPassword(c, stored), p.target);
                 r.Success? && o.written == Rotate(stored, t, r.value)
    ensures !StoreConfigured(c) ==> o == Aborted(StoreNotConfigured, None, None)
    ensures StoreConfigured(c) && !p.stateFetched ==> o == Aborted(StateFetchFailed, None, None)
  {
    if !StoreConfigured(c) then Aborted(StoreNotConfigured, None, None)
    else if !p.stateFetched then Aborted(StateFetchFailed, None, None)
    else match SelectSlots(stored)
      case Failure(f) => Aborted(f, None, None)
      case Success(slots) =>
        var accounts := stored.accounts.value;
        var outgoing := accounts[slots.active];
        var incoming := accounts[slots.target];
        var source :=
          if Truthy(outgoing.ftpHost)
          then ProcessOutgoing(outgoing, p.outgoingLoginOk, p.outgoingShutdownOk, PullPasswordUnder(rule, c, stored, outgoing))
          else Success(None);
        match source
        case Failure(f) => Aborted(f, None, None)
        case Success(pull) =>
          match ProcessTarget(incoming, ResolveFtpPassword(c, stored), p.target)
          case Failure(f) => Aborted(f, pull, None)
          case Success(tr) =>
            var transfer := TransferWorldData(pull, p.downloadOk, p.uploadOk);
            if !p.finalizeOk then Aborted(FinalizeFailed, pull, Some(transfer))
            else if !ReadyToSave(tr) then Aborted(NotReadyToSave, pull, Some(transfer))
            else
              var doc := Rotate(stored, slots.target, tr);
              match UpdateState(c, doc, Some(slots.target as int), p.stateWriteOk)
              case Failure(f) => Aborted(f, pull, Some(transfer))
              case Success(w) => Committed(w, pull, Some(transfer))
  }

  /** Whether a run commits does not depend on the push: `main` discards the transfer's result,
      so a failed upload neither aborts the run nor changes what is stored. */
  lemma UploadFailureIsNotFatal(rule: PullRule, c: Config, stored: State, p: Probes)
    ensures Run(rule, c, stored, p).ExitCode() == Run(rule, c, stored, p.(uploadOk := false)).ExitCode()
    ensures Run(rule, c, stored, p).Committed? ==>
              Run(rule, c, stored, p.(uploadOk := false)).written == Run(rule, c, stored, p).written
  {
  }

  /** The outgoing account's part of a run returns normally: it has no FTP host, or its cookie
      object is not `null` and a successful login is followed by a normal shutdown. */
  predicate OutgoingReturns(stored: State, p: Probes)
    requires SelectSlots(stored).Success?
  {
    var outgoing := stored.accounts.value[SelectSlots(stored).value.active];
    Truthy(outgoing.ftpHost) ==> !outgoing.cookies.Null? && (p.outgoingLoginOk ==> p.outgoingShutdownOk)
  }

  /** Once the target account has been provisioned, the run commits exactly when the outgoing
      account's part returned normally, `finalize_server` returned normally, the document holds
      two accounts and the Gist write succeeds; it stores the rotated document. The presence checks
      before the commit never fire. */
  lemma CommitAfterProvisioning(rule: PullRule, c: Config, stored: State, p: Probes)
    requires StoreConfigured(c) && p.stateFetched && SelectSlots(stored).Success?
    requires var slots := SelectSlots(stored).value;
             ProcessTarget(stored.accounts.value[slots.target], ResolveFtpPassword(c, stored), p.target).Success?
    ensures var slots := SelectSlots(stored).value;
            var tr := ProcessTarget(stored.accounts.value[slots.target], ResolveFtpPassword(c, stored), p.target).value;
            var o := Run(rule, c, stored, p);
            && (o.Committed? <==> OutgoingReturns(stored, p) && p.finalizeOk && TwoAccounts(stored) && p.stateWriteOk)
            && (o.Committed? ==> o.written == Rotate(stored, slots.target, tr))
            && !(o.Aborted? && o.fault == NotReadyToSave)
  {
    var slots := SelectSlots(stored).value;
    var accounts := stored.accounts.value;
    var outgoing := accounts[slots.active];
    var source :=
      if Truthy(outgoing.ftpHost)
      then ProcessOutgoing(outgoing, p.outgoingLoginOk, p.outgoingShutdownOk, PullPasswordUnder(rule, c, stored, outgoing))
      else Success(None);
    assert source.Success? <==> OutgoingReturns(stored, p);
    if source.Success? {
      var tr := ProcessTarget(accounts[slots.target], ResolveFtpPassword(c, stored), p.target).value;
      assert ReadyToSave(tr) && IsDigitString(tr.serverId);
      var doc := Rotate(stored, slots.target, tr);
      RotateSatisfiesGate(stored, slots.target, tr);
      var u := UpdateState(c, doc, Some(slots.target as int), p.stateWriteOk);
      assert u.Success? <==> TwoAccounts(stored) && p.stateWriteOk;
    }
  }

  /** A refused purchase aborts the run before anything is written. */
  lemma PurchaseRefusalWritesNothing(rule: PullRule, c: Config, stored: State, p: Probes)
    requires p.target.loginOk && !p.target.purchaseOk
    ensures Run(rule, c, stored, p).Aborted?
    ensures Run(rule, c, stored, p).transfer.None?
  {
  }

  /** When the outgoing account cannot be logged into, there is no pull source and the transfer
      is skipped; the run can still commit. */
  lemma OutgoingLoginFailureSkipsMigration(rule: PullRule, c: Config, stored: State, p: Probes)
    requires !p.outgoingLoginOk
    ensures Run(rule, c, stored, p).transfer.Some? ==>
              Run(rule, c, stored, p).pulledFrom.None? && Run(rule, c, stored, p).transfer.value == Skipped
  {
  }

  /** When the outgoing account has no FTP host, nothing is pulled and the transfer is skipped. */
  lemma NoOutgoingHostNoMigration(rule: PullRule, c: Config, stored: State, p: Probes)
    requires SelectSlots(stored).Success?
    requires !Truthy(stored.accounts.value[SelectSlots(stored).value.active].ftpHost)
    ensures Run(rule, c, stored, p).pulledFrom.None?
    ensures Run(rule, c, stored, p).transfer.Some? ==> Run(rule, c, stored, p).transfer.value == Skipped
  {
  }

  /** A browser step that raises (clearing the old server's DNS or stopping it, the new server's
      DNS change or modpack installation, `finalize_server`) ends the run with exit status 1 and
      writes nothing. */
  lemma BrowserExceptionWritesNothing(rule: PullRule, c: Config, stored: State, p: Probes)
    requires !p.outgoingShutdownOk || !p.target.dnsOk || !p.target.installOk || !p.finalizeOk
    requires SelectSlots(stored).Success? ==>
               var outgoing := stored.accounts.value[SelectSlots(stored).value.active];
               !p.outgoingShutdownOk ==> Truthy(outgoing.ftpHost) && p.outgoingLoginOk
    ensures Run(rule, c, stored, p).ExitCode() == 1
  {
  }

  lemma ScenarioPoll(panel: seq<PanelView>)
    requires panel == [PanelView(0, None), PanelView(1, Some("#445566"))]
    ensures PollFrom(PanelAnswers(panel), 0) == Some("445566")
  {
    PanelServerIdStripsHashes(1, 1, "445566");
    assert Repeat('#', 1) + "445566" == "#445566";
    var answers := PanelAnswers(panel);
    assert answers == [None, Some("445566")];
    assert PollFrom(answers, 1) == Some("445566");
  }

  lemma ScenarioIdIsNumeric(id: string)
    requires id == "445566"
    ensures IsDigitString(id)
  {
    forall i | 0 <= i < |id|
      ensures IsAsciiDigit(id[i])
    {
      assert id[i] in {'4', '5', '6'};
    }
  }

  lemma ScenarioHost(host: string)
    requires host == "ftp.boxtoplay.com"
    ensures FtpHostValid(Some(host))
  {
    ContainsIffOccurs(host, ".");
    assert OccursAt(host, ".", 3);
  }

  /** The target side of the first-run scenario: the poll sees the id on its second look and the
      harvested data passes every post-check. */
  lemma ScenarioProvisioning(acc: Account, pw: Option<string>, probe: TargetProbe)
    requires acc.cookies.Present?
    requires probe == TargetProbe(true, true, [PanelView(0, None), PanelView(1, Some("#445566"))], true, true, true,
                                  "ftp.boxtoplay.com", "user_1700000000", map[SessionCookie := "abc"], map[])
    ensures ProcessTarget(acc, pw, probe).Success?
    ensures ProcessTarget(acc, pw, probe).value.serverId == "445566"
  {
    ScenarioPoll(probe.panel);
    ScenarioHost(probe.ftpHost);
    assert |probe.ftpHost| >= MinFtpHostLength && |probe.ftpUser| >= MinFtpUserLength;
    assert HasSession(probe.cookies);
    ScenarioIdIsNumeric(PollFrom(PanelAnswers(probe.panel), 0).value);
    assert TargetAccepts(acc, probe);
    ProcessTargetSucceedsIff(acc, pw, probe);
  }

  /** The first-run scenario commits the rotated document without pulling anything. */
  lemma ScenarioCommits(rule: PullRule, c: Config, stored: State, p: Probes, tr: TargetResult)
    requires c == Config("gist", "token", "")
    requires stored.accounts.Some? && |stored.accounts.value| == 2
    requires stored.activeIndex == Present(0) && stored.currentServerId.Null?
    requires stored.accounts.value[0].ftpHost.Null? && stored.accounts.value[1].cookies.Present?
    requires p == Probes(true, true, true, p.target, true, true, true, true)
    requires p.target == TargetProbe(true, true, [PanelView(0, None), PanelView(1, Some("#445566"))], true, true, true,
                                     "ftp.boxtoplay.com", "user_1700000000", map[SessionCookie := "abc"], map[])
    requires ProcessTarget(stored.accounts.value[1], ResolveFtpPassword(c, stored), p.target) == Success(tr)
    ensures tr.serverId == "445566"
    ensures Run(rule, c, stored, p) == Committed(Rotate(stored, 1, tr), None, Some(Skipped))
  {
    ScenarioProvisioning(stored.accounts.value[1], ResolveFtpPassword(c, stored), p.target);
    assert SelectSlots(stored) == Success(Slots(0, 0, 1));
    assert OutgoingReturns(stored, p) && TwoAccounts(stored);
    CommitAfterProvisioning(rule, c, stored, p);
    NoOutgoingHostNoMigration(rule, c, stored, p);
  }

  /** The first rotation on a freshly seeded document: account 0 has no FTP host, so nothing is
      decommissioned or migrated, and account 1 becomes active with the polled id. */
  lemma FirstRunScenario(rule: PullRule, first: Account, blank: Account)
    requires first == Account("compte1@example.com", "password1", Present(map[]), Null, Null, Null, Missing)
    requires blank == Account("compte2@example.com", "password2", Present(map[]), Null, Null, Null, Missing)
    ensures
      var stored := State(Present(0), Null, Present("motdepasse"), Some([first, blank]));
      var probe := TargetProbe(true, true, [PanelView(0, None), PanelView(1, Some("#445566"))], true, true, true,
                               "ftp.boxtoplay.com", "user_1700000000", map[SessionCookie := "abc"], map[]);
      var o := Run(rule, Config("gist", "token", ""), stored, Probes(true, true, true, probe, true, true, true, true));
      && o.Committed?
      && o.written.activeIndex == Present(1)
      && o.written.currentServerId == Present("445566")
      && o.written.accounts.value[0] == first
      && o.pulledFrom.None?
      && o.transfer == Some(Skipped)
  {
    var c := Config("gist", "token", "");
    var stored := State(Present(0), Null, Present("motdepasse"), Some([first, blank]));
    var probe := TargetProbe(true, true, [PanelView(0, None), PanelView(1, Some("#445566"))], true, true, true,
                             "ftp.boxtoplay.com", "user_1700000000", map[SessionCookie := "abc"], map[]);
    var p := Probes(true, true, true, probe, true, true, true, true);
    ScenarioProvisioning(blank, ResolveFtpPassword(c, stored), probe);
    var tr := ProcessTarget(blank, ResolveFtpPassword(c, stored), probe).value;
    ScenarioCommits(rule, c, stored, p, tr);
  }

  // ---------------------------------------------------------------------------
  // The pull password across two runs
  // ---------------------------------------------------------------------------

  /** Where a run records its pull source: once the document is loaded and the outgoing account
      has an FTP host and returns normally, every outcome carries what it returned. */
  lemma RunRecordsPullSource(rule: PullRule, c: Config, stored: State, p: Probes)
    requires StoreConfigured(c) && p.stateFetched && SelectSlots(stored).Success?
    requires var outgoing := stored.accounts.value[SelectSlots(stored).value.active];
             && Truthy(outgoing.ftpHost)
             && ProcessOutgoing(outgoing, p.outgoingLoginOk, p.outgoingShutdownOk, PullPasswordUnder(rule, c, stored, outgoing)).Success?
    ensures var outgoing := stored.accounts.value[SelectSlots(stored).value.active];
            Run(rule, c, stored, p).pulledFrom ==
              ProcessOutgoing(outgoing, p.outgoingLoginOk, p.outgoingShutdownOk, PullPasswordUnder(rule, c, stored, outgoing)).value
  {
  }

  /** As written, the run after a rotation pulls from the account that rotation provisioned with
      an empty password, although its FTP login was created with the shared password from the
      document: `FTP_PASSWORD` unset, `ftp_password` set to "secret". */
  lemma PullPasswordAsWrittenMismatch(q: Probes)
    requires q.stateFetched && q.outgoingLoginOk && q.outgoingShutdownOk
    ensures
      var c := Config("gist", "token", "");
      var acc := Account("a@example.com", "pw", Present(map[]), Null, Null, Null, Missing);
      var s := State(Present(1), Null, Present("secret"), Some([acc, acc]));
      var tr := TargetResult("445566", "ftp.boxtoplay.com", "user_1", ResolveFtpPassword(c, s),
                             map[SessionCookie := "abc"]);
      && tr.ftpPassword == Some("secret")
      && Run(AsWritten, c, Rotate(s, 0, tr), q).pulledFrom == Some(FtpInfo(Some(tr.ftpHost), Some(tr.ftpUser), Some("")))
  {
    var c := Config("gist", "token", "");
    var acc := Account("a@example.com", "pw", Present(map[]), Null, Null, Null, Missing);
    var s := State(Present(1), Null, Present("secret"), Some([acc, acc]));
    var tr := TargetResult("445566", "ftp.boxtoplay.com", "user_1", ResolveFtpPassword(c, s), map[SessionCookie := "abc"]);
    var s' := Rotate(s, 0, tr);
    assert SelectSlots(s') == Success(Slots(0, 0, 1));
    RunRecordsPullSource(AsWritten, c, s', q);
  }

  /** Corrected: with the shared password, the run after a rotation pulls from exactly the FTP
      account that rotation created, with the password it was created with. */
  lemma NextRunPullsFromCreatedAccount(c: Config, s: State, next: nat, acc: Account, p: TargetProbe, q: Probes)
    requires TwoAccounts(s) && next <= 1
    requires ProcessTarget(acc, ResolveFtpPassword(c, s), p).Success?
    requires StoreConfigured(c) && q.stateFetched && q.outgoingLoginOk && q.outgoingShutdownOk
    ensures
      var tr := ProcessTarget(acc, ResolveFtpPassword(c, s), p).value;
      Run(SharedPassword, c, Rotate(s, next, tr), q).pulledFrom == Some(FtpInfo(Some(tr.ftpHost), Some(tr.ftpUser), tr.ftpPassword))
  {
    var tr := ProcessTarget(acc, ResolveFtpPassword(c, s), p).value;
    var s' := Rotate(s, next, tr);
    assert SelectSlots(s').Success? && SelectSlots(s').value.active == next;
    RunRecordsPullSource(SharedPassword, c, s', q);
  }
}
