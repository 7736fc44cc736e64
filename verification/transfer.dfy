/** `transfer_world_data`: the decision table of the world migration. The two lftp mirror runs
    are not executed here; their success is given as `downloadOk` and `uploadOk`. */
module Transfer {
  import opened Wrappers
  import opened Text

  /** The `{"host", "user", "password"}` dictionary handed to the transfer; any value may be `None`. */
  datatype FtpInfo = FtpInfo(host: Option<string>, user: Option<string>, password: Option<string>)

  /** What one call did: its boolean result, which of the two lftp runs it started, and whether it
      created and then removed the scratch directory itself. */
  datatype TransferOutcome = TransferOutcome(
    ok: bool,
    downloadAttempted: bool,
    uploadAttempted: bool,
    scratchCreated: bool,
    scratchRemoved: bool)

  /** `not source_ftp or not source_ftp.get("host")` is false: there is somewhere to pull from. */
  predicate HasSourceHost(source: Option<FtpInfo>) {
    source.Some? && NonEmpty(source.value.host)
  }

  /** The outcome that changes nothing: no directory, no lftp run, success. */
  const Skipped: TransferOutcome := TransferOutcome(true, false, false, false, false)

  /** Without a source host nothing is attempted and the call succeeds. A failed pull also
      succeeds, without pushing anything. Only a failed push makes the call fail, and only the
      fully successful path removes the scratch directory itself. */
  function TransferWorldData(source: Option<FtpInfo>, downloadOk: bool, uploadOk: bool): (o: TransferOutcome)
    ensures !HasSourceHost(source) ==> o == Skipped
    ensures o.downloadAttempted <==> HasSourceHost(source)
    ensures o.uploadAttempted <==> HasSourceHost(source) && downloadOk
    ensures !o.ok <==> o.uploadAttempted && !uploadOk
    ensures o.scratchCreated <==> o.downloadAttempted
    ensures o.scratchRemoved <==> o.uploadAttempted && o.ok
  {
    if !HasSourceHost(source) then Skipped
    else if !downloadOk then TransferOutcome(true, true, false, true, false)
    else if !uploadOk then TransferOutcome(false, true, true, true, false)
    else TransferOutcome(true, true, true, true, true)
  }

  /** The call reports failure exactly in one case: a source host, a good pull, a failed push. */
  lemma TransferFailsOnlyOnPush(source: Option<FtpInfo>, downloadOk: bool, uploadOk: bool)
    ensures !TransferWorldData(source, downloadOk, uploadOk).ok <==> HasSourceHost(source) && downloadOk && !uploadOk
  {
  }

  /** Whether the push succeeded changes nothing unless a push was attempted. */
  lemma PushResultIrrelevantWithoutPush(source: Option<FtpInfo>, downloadOk: bool)
    requires !(HasSourceHost(source) && downloadOk)
    ensures TransferWorldData(source, downloadOk, true) == TransferWorldData(source, downloadOk, false)
  {
  }
}
