/** Running barman-cloud-wal-archive on WAL files (pkg/walarchive/cmd.go). */
module WalArchive {
  import opened Common
  import opened Capabilities

  /** The archiver: the environment of the commands and the functions it calls back.
      Each callback is the outcome of the corresponding call:
      - run: RunStreaming on a barman-cloud command line;
      - touch: Touch on a WAL name (marking it archived in the spool);
      - removeEmptyFileArchive: RemoveEmptyFileArchive, called after a successful
        archive. */
  datatype BarmanArchiver = BarmanArchiver(
    env: seq<string>,
    run: Invocation -> Option<Error>,
    touch: string -> Option<Error>,
    removeEmptyFileArchive: () -> Option<Error>
  )

  /** The outcome of archiving one WAL (start and end times are not modelled). */
  datatype WalArchiverResult = WalArchiverResult(walName: string, err: Option<Error>)

  /** The command line barman-cloud-wal-archive receives for a WAL. */
  function ArchiveInvocation(archiver: BarmanArchiver, walName: string, baseOptions: seq<string>): (r: Invocation)
    ensures |r.args| == |baseOptions| + 1
    ensures r.args[..|baseOptions|] == baseOptions && r.args[|baseOptions|] == walName
    ensures r.program == BarmanCloudWalArchive && r.env == archiver.env
  {
    Invocation(BarmanCloudWalArchive, baseOptions + [walName], archiver.env)
  }

  /** What Archive returns. */
  function ArchiveError(archiver: BarmanArchiver, walName: string, baseOptions: seq<string>): (r: Option<Error>)
    ensures |baseOptions| >= MaxInt - 1 ==> r == Some(OptionsTooLong(walName))
    ensures |baseOptions| < MaxInt - 1 ==>
      var runError := archiver.run(ArchiveInvocation(archiver, walName, baseOptions));
      (runError.Some? ==> r == Some(ArchiveInvocationFailed(runError.value)))
      && (runError.None? ==> r == archiver.removeEmptyFileArchive())
  {
    if |baseOptions| >= MaxInt - 1 then Some(OptionsTooLong(walName))
    else
      match archiver.run(ArchiveInvocation(archiver, walName, baseOptions))
      case Some(e) => Some(ArchiveInvocationFailed(e))
      case None => archiver.removeEmptyFileArchive()
  }

  /** Archive: refuse option lists whose extension would overflow, run the command,
      and remove the empty-archive marker after a success. `invoked` is the command
      line that was run, if any. */
  method Archive(archiver: BarmanArchiver, walName: string, baseOptions: seq<string>)
    returns (err: Option<Error>, invoked: Option<Invocation>)
    ensures err == ArchiveError(archiver, walName, baseOptions)
    ensures invoked.Some? <==> |baseOptions| < MaxInt - 1
    ensures invoked.Some? ==> invoked.value == ArchiveInvocation(archiver, walName, baseOptions)
  {
    var optionsLength := |baseOptions|;
    if optionsLength >= MaxInt - 1 {
      return Some(OptionsTooLong(walName)), None;
    }
    var options := baseOptions + [walName];
    var cmd := Invocation(BarmanCloudWalArchive, options, archiver.env);
    var runError := archiver.run(cmd);
    if runError.Some? {
      return Some(ArchiveInvocationFailed(runError.value)), Some(cmd);
    }
    return archiver.removeEmptyFileArchive(), Some(cmd);
  }

  /** The error recorded for the WAL at position `walIndex`: the archive error, or,
      for every WAL but the first (the one PostgreSQL asked for), the error of
      marking it archived in the spool. */
  function ListEntryError(archiver: BarmanArchiver, walIndex: nat, walName: string, options: seq<string>)
    : (r: Option<Error>)
    ensures ArchiveError(archiver, walName, options).Some? ==> r == ArchiveError(archiver, walName, options)
    ensures ArchiveError(archiver, walName, options).None? && walIndex == 0 ==> r.None?
    ensures ArchiveError(archiver, walName, options).None? && walIndex != 0 ==> r == archiver.touch(walName)
  {
    var err := ArchiveError(archiver, walName, options);
    if err.None? && walIndex != 0 then archiver.touch(walName) else err
  }

  /** ArchiveList: one result per WAL, in the order of the list. The goroutines of the
      source are run one after the other here; each writes only its own slot. */
  method ArchiveList(archiver: BarmanArchiver, walNames: seq<string>, options: seq<string>)
    returns (result: seq<WalArchiverResult>)
    ensures |result| == |walNames|
    ensures forall i :: 0 <= i < |walNames| ==>
      result[i] == WalArchiverResult(walNames[i], ListEntryError(archiver, i, walNames[i], options))
  {
    result := [];
    var idx := 0;
    while idx < |walNames|
      invariant 0 <= idx <= |walNames|
      invariant |result| == idx
      invariant forall i :: 0 <= i < idx ==>
        result[i] == WalArchiverResult(walNames[i], ListEntryError(archiver, i, walNames[i], options))
    {
      var err, _ := Archive(archiver, walNames[idx], options);
      if err.None? && idx != 0 {
        err := archiver.touch(walNames[idx]);
      }
      result := result + [WalArchiverResult(walNames[idx], err)];
      idx := idx + 1;
    }
  }

  /** WrappedArchiveList: archive the list and report its first error. */
  method WrappedArchiveList(archiver: BarmanArchiver, options: seq<string>, walFileList: seq<string>)
    returns (err: Option<Error>)
    ensures err.None? <==> forall i :: 0 <= i < |walFileList| ==> ListEntryError(archiver, i, walFileList[i], options).None?
    ensures err.Some? ==>
      exists i :: 0 <= i < |walFileList| && ListEntryError(archiver, i, walFileList[i], options) == err
        && forall j :: 0 <= j < i ==> ListEntryError(archiver, j, walFileList[j], options).None?
  {
    var archiverResult := ArchiveList(archiver, walFileList, options);
    var i := 0;
    while i < |archiverResult|
      invariant 0 <= i <= |archiverResult|
      invariant forall j :: 0 <= j < i ==> archiverResult[j].err.None?
    {
      if archiverResult[i].err.Some? {
        return archiverResult[i].err;
      }
      i := i + 1;
    }
    return None;
  }

  /** CheckWalArchiveDestination: a failing capability probe is reported; a Barman
      without barman-cloud-check-wal-archive skips the check; otherwise the check runs
      with the given options and its failure is wrapped. */
  method CheckWalArchiveDestination(archiver: BarmanArchiver, capabilities: Result<Capabilities>, options: seq<string>)
    returns (err: Option<Error>, invoked: Option<Invocation>)
    ensures capabilities.Failure? ==> err == Some(capabilities.error) && invoked.None?
    ensures capabilities.Success? && !capabilities.value.hasCheckWalArchive ==> err.None? && invoked.None?
    ensures capabilities.Success? && capabilities.value.hasCheckWalArchive ==>
      invoked == Some(Invocation(BarmanCloudCheckWalArchive, options, archiver.env))
      && (err.None? <==> archiver.run(invoked.value).None?)
      && (err.Some? ==> err.value == ArchiveInvocationFailed(archiver.run(invoked.value).value))
  {
    if capabilities.Failure? {
      return Some(capabilities.error), None;
    }
    if !capabilities.value.hasCheckWalArchive {
      return None, None;
    }
    var cmd := Invocation(BarmanCloudCheckWalArchive, options, archiver.env);
    var runError := archiver.run(cmd);
    if runError.Some? {
      return Some(ArchiveInvocationFailed(runError.value)), Some(cmd);
    }
    return None, Some(cmd);
  }
}
