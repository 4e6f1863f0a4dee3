/** Restoring WAL files with barman-cloud-wal-restore, prefetching into a spool
    (pkg/restorer/restorer.go). */
module Restorer {
  import opened Common
  import opened Spool

  /** The spool file marking that the end of the WAL stream was reached. */
  const EndOfWalStreamFlagFilename: string := "end-of-wal-stream"

  /** How barman-cloud-wal-restore ended: successfully, with an exit status, or with
      an error that is not an exit status (it could not be started, say). */
  datatype RunOutcome = Succeeded | Exited(code: int) | OtherFailure(cause: Error)

  const ExitCodeBucketOrWalNotFound: int := 1
  const ExitCodeConnectivityError: int := 2
  const ExitCodeInvalidWalName: int := 3
  const ExitCodeGeneric: int := 4

  /** The error an exit status of barman-cloud-wal-restore stands for. */
  function ExitCodeError(walName: string, exitCode: int): (r: Error)
    ensures r.WalNotFound? <==> exitCode == ExitCodeBucketOrWalNotFound
    ensures r == ConnectivityFailure <==> exitCode == ExitCodeConnectivityError
    ensures r.InvalidWalFileName? <==> exitCode == ExitCodeInvalidWalName
    ensures r == GenericRestoreFailure <==> exitCode == ExitCodeGeneric
    ensures r.UnrecognizedExitCode? <==> !(1 <= exitCode <= 4)
  {
    if exitCode == ExitCodeBucketOrWalNotFound then WalNotFound(walName)
    else if exitCode == ExitCodeConnectivityError then ConnectivityFailure
    else if exitCode == ExitCodeInvalidWalName then InvalidWalFileName(walName)
    else if exitCode == ExitCodeGeneric then GenericRestoreFailure
    else UnrecognizedExitCode(exitCode)
  }

  /** Distinct exit statuses are reported as distinct errors. */
  lemma ExitCodeErrorInjective(walName: string, a: int, b: int)
    requires ExitCodeError(walName, a) == ExitCodeError(walName, b)
    ensures a == b
  {
  }

  /** What Restore reports for a run of barman-cloud-wal-restore. */
  function RestoreRunError(walName: string, outcome: RunOutcome): (r: Option<Error>)
    ensures r.None? <==> outcome.Succeeded?
    // only the "not found" exit status makes the WAL count as missing
    ensures (r.Some? && r.value.WalNotFound?) <==> outcome == Exited(ExitCodeBucketOrWalNotFound)
    ensures outcome.OtherFailure? ==> r == Some(UnexpectedRestoreFailure(walName, outcome.cause))
  {
    match outcome
    case Succeeded => None
    case Exited(code) => Some(ExitCodeError(walName, code))
    case OtherFailure(cause) => Some(UnexpectedRestoreFailure(walName, cause))
  }

  /** The result of restoring one WAL (start and end times are not modelled). */
  datatype RestoreResult = RestoreResult(walName: string, destinationPath: string, err: Option<Error>)

  class WalRestorer {
    const spool: WalSpool
    const env: seq<string>

    constructor (spool: WalSpool, env: seq<string>)
      ensures this.spool == spool && this.env == env
    {
      this.spool := spool;
      this.env := env;
    }

    /** RestoreFromSpool: move a prefetched WAL to its destination. A WAL that is not
        in the spool is not an error. */
    method RestoreFromSpool(walName: string, destinationPath: string, fault: Option<Error>)
      returns (wasInSpool: bool, err: Option<Error>)
      modifies spool
      ensures wasInSpool <==> fault.None? && walName in old(spool.files)
      ensures wasInSpool ==> err.None? && spool.files == old(spool.files) - {walName}
      ensures !wasInSpool ==> spool.files == old(spool.files)
      ensures err == if fault == Some(NonExistentFile) then None else fault
    {
      var moveError := spool.MoveOut(walName, fault);
      if moveError == Some(NonExistentFile) {
        return false, None;
      }
      if moveError.Some? {
        return false, moveError;
      }
      return true, None;
    }

    /** IsEndOfWALStream: whether the flag file is in the spool. */
    method IsEndOfWalStream(fault: Option<Error>) returns (isEos: bool, err: Option<Error>)
      ensures fault.Some? ==> !isEos && err == Some(EndOfWalStreamCheckFailed(fault.value))
      ensures fault.None? ==> err.None? && (isEos <==> EndOfWalStreamFlagFilename in spool.files)
    {
      var contains, containsError := spool.Contains(EndOfWalStreamFlagFilename, fault);
      if containsError.Some? {
        return false, Some(EndOfWalStreamCheckFailed(containsError.value));
      }
      return contains, None;
    }

    /** SetEndOfWALStream: create the flag file unless it is already there. */
    method SetEndOfWalStream(containsFault: Option<Error>, touchFault: Option<Error>) returns (err: Option<Error>)
      modifies spool
      ensures containsFault.Some? ==>
        err == Some(EndOfWalStreamCheckFailed(containsFault.value)) && spool.files == old(spool.files)
      ensures containsFault.None? && EndOfWalStreamFlagFilename in old(spool.files) ==>
        err.None? && spool.files == old(spool.files)
      ensures containsFault.None? && EndOfWalStreamFlagFilename !in old(spool.files) ==>
        err == touchFault
        && spool.files == if touchFault.None? then old(spool.files) + {EndOfWalStreamFlagFilename} else old(spool.files)
      // whenever it succeeds, the flag is set
      ensures err.None? ==> EndOfWalStreamFlagFilename in spool.files
    {
      var contains;
      contains, err := IsEndOfWalStream(containsFault);
      if err.Some? {
        return;
      }
      if contains {
        return None;
      }
      err := spool.Touch(EndOfWalStreamFlagFilename, touchFault);
    }

    /** ResetEndOfWalStream: remove the flag file. */
    method ResetEndOfWalStream(fault: Option<Error>) returns (err: Option<Error>)
      modifies spool
      ensures fault.Some? ==> err == Some(EndOfWalStreamRemoveFailed(fault.value)) && spool.files == old(spool.files)
      ensures fault.None? ==> err.None? && spool.files == old(spool.files) - {EndOfWalStreamFlagFilename}
      ensures err.None? ==> EndOfWalStreamFlagFilename !in spool.files
    {
      var removeError := spool.Remove(EndOfWalStreamFlagFilename, fault);
      if removeError.Some? {
        return Some(EndOfWalStreamRemoveFailed(removeError.value));
      }
      return None;
    }

    /** The command line barman-cloud-wal-restore receives. */
    function RestoreInvocation(walName: string, destinationPath: string, baseOptions: seq<string>): (r: Invocation)
      ensures |r.args| == |baseOptions| + 2 && r.args[..|baseOptions|] == baseOptions
      ensures r.args[|baseOptions|] == walName && r.args[|baseOptions| + 1] == destinationPath
      ensures r.program == BarmanCloudWalRestore && r.env == env
    {
      Invocation(BarmanCloudWalRestore, baseOptions + [walName, destinationPath], env)
    }

    /** What Restore returns. */
    function RestoreError(walName: string, destinationPath: string, baseOptions: seq<string>, run: Invocation -> RunOutcome)
      : (r: Option<Error>)
      ensures |baseOptions| >= MaxInt - 2 ==> r == Some(OptionsTooLong(walName))
      ensures |baseOptions| < MaxInt - 2 ==>
        r == RestoreRunError(walName, run(RestoreInvocation(walName, destinationPath, baseOptions)))
    {
      if |baseOptions| >= MaxInt - 2 then Some(OptionsTooLong(walName))
      else RestoreRunError(walName, run(RestoreInvocation(walName, destinationPath, baseOptions)))
    }

    /** Restore: refuse option lists whose extension would overflow, run
        barman-cloud-wal-restore and classify its failure. `invoked` is the command
        line that was run, if any. */
    method Restore(walName: string, destinationPath: string, baseOptions: seq<string>, run: Invocation -> RunOutcome)
      returns (err: Option<Error>, invoked: Option<Invocation>)
      ensures err == RestoreError(walName, destinationPath, baseOptions, run)
      ensures invoked.Some? <==> |baseOptions| < MaxInt - 2
      ensures invoked.Some? ==> invoked.value == RestoreInvocation(walName, destinationPath, baseOptions)
    {
      var optionsLength := |baseOptions|;
      if optionsLength >= MaxInt - 2 {
        return Some(OptionsTooLong(walName)), None;
      }
      var options := baseOptions + [walName, destinationPath];
      var cmd := Invocation(BarmanCloudWalRestore, options, env);
      invoked := Some(cmd);
      var outcome := run(cmd);
      match outcome {
        case Succeeded =>
          err := None;
        case OtherFailure(cause) =>
          err := Some(UnexpectedRestoreFailure(walName, cause));
        case Exited(exitCode) =>
          if exitCode == ExitCodeBucketOrWalNotFound {
            err := Some(WalNotFound(walName));
          } else if exitCode == ExitCodeConnectivityError {
            err := Some(ConnectivityFailure);
          } else if exitCode == ExitCodeInvalidWalName {
            err := Some(InvalidWalFileName(walName));
          } else if exitCode == ExitCodeGeneric {
            err := Some(GenericRestoreFailure);
          } else {
            err := Some(UnrecognizedExitCode(exitCode));
          }
      }
    }

    /** Where the WAL at a position of the fetch list is restored: the WAL PostgreSQL
        asked for (position 0) to the requested destination, the prefetched ones into
        the spool. */
    function SlotDestination(walIndex: nat, walName: string, destinationPath: string): (r: string)
      ensures walIndex == 0 ==> r == destinationPath
      ensures walIndex != 0 ==> r == spool.FileName(walName)
    {
      if walIndex == 0 then destinationPath else spool.FileName(walName)
    }

    /** RestoreList: one result per WAL of the fetch list, in order. The goroutines of
        the source are run one after the other here; each writes only its own slot. */
    method RestoreList(fetchList: seq<string>, destinationPath: string, options: seq<string>, run: Invocation -> RunOutcome)
      returns (resultList: seq<RestoreResult>)
      ensures |resultList| == |fetchList|
      ensures forall i :: 0 <= i < |fetchList| ==>
        resultList[i].walName == fetchList[i]
        && resultList[i].destinationPath == SlotDestination(i, fetchList[i], destinationPath)
        && resultList[i].err == RestoreError(fetchList[i], resultList[i].destinationPath, options, run)
    {
      resultList := [];
      var walIndex := 0;
      while walIndex < |fetchList|
        invariant 0 <= walIndex <= |fetchList|
        invariant |resultList| == walIndex
        invariant forall i :: 0 <= i < walIndex ==>
          resultList[i].walName == fetchList[i]
          && resultList[i].destinationPath == SlotDestination(i, fetchList[i], destinationPath)
          && resultList[i].err == RestoreError(fetchList[i], resultList[i].destinationPath, options, run)
      {
        var walName := fetchList[walIndex];
        var slotDestination;
        if walIndex == 0 {
          slotDestination := destinationPath;
        } else {
          slotDestination := spool.FileName(walName);
        }
        var err, _ := Restore(walName, slotDestination, options, run);
        resultList := resultList + [RestoreResult(walName, slotDestination, err)];
        walIndex := walIndex + 1;
      }
    }
  }
}
