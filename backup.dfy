/** Taking a base backup with barman-cloud-backup (pkg/backup/backup.go): the command
    line, the compatibility check and the mapping of the command's failure. */
module Backup {
  import opened Common
  import opened Capabilities
  import opened BarmanApi
  import opened CommandBuilder

  /** A backup command: the object-store configuration and Barman's capabilities. */
  datatype Command = Command(configuration: BarmanObjectStoreConfiguration, capabilities: Capabilities)

  /** The flags the `data` section contributes, each only when set, in this order:
      compression, encryption, immediate checkpoint, jobs. */
  function DataFlags(data: DataBackupConfiguration): seq<string> {
    (if |data.compression| != 0 then ["--" + data.compression] else [])
    + (if |data.encryption| != 0 then ["--encryption", data.encryption] else [])
    + (if data.immediateCheckpoint then ["--immediate-checkpoint"] else [])
    + (if data.jobs.Some? then ["--jobs", Itoa(data.jobs.value)] else [])
  }

  /** What GetDataConfiguration returns. */
  function DataConfiguration(cmd: Command, options: seq<string>): (r: Result<seq<string>>)
    ensures cmd.configuration.data.None? ==> r == Success(options)
    ensures r.Failure? <==>
      cmd.configuration.data.Some? && cmd.configuration.data.value.compression == CompressionSnappy
      && !cmd.capabilities.hasSnappy
    ensures r.Failure? ==> r.error == SnappyUnsupported
    ensures r.Success? ==> options <= r.value
    ensures r.Success? && cmd.configuration.data.Some? ==>
      var data := cmd.configuration.data.value;
      options + DataFlags(data) <= r.value
      && r.value == AppendAdditionalCommandArgs(data.additionalCommandArgs, options + DataFlags(data))
  {
    if cmd.configuration.data.None? then Success(options)
    else
      var data := cmd.configuration.data.value;
      if data.compression == CompressionSnappy && !cmd.capabilities.hasSnappy then Failure(SnappyUnsupported)
      else Success(AppendDataAdditionalCommandArgs(data, options + DataFlags(data)))
  }

  /** GetDataConfiguration, appending step by step. */
  method GetDataConfiguration(cmd: Command, options: seq<string>) returns (r: Result<seq<string>>)
    ensures r == DataConfiguration(cmd, options)
  {
    if cmd.configuration.data.None? {
      return Success(options);
    }
    var data := cmd.configuration.data.value;
    if data.compression == CompressionSnappy && !cmd.capabilities.hasSnappy {
      return Failure(SnappyUnsupported);
    }
    var opts := options;
    if |data.compression| != 0 {
      opts := opts + ["--" + data.compression];
    }
    if |data.encryption| != 0 {
      opts := opts + ["--encryption", data.encryption];
    }
    if data.immediateCheckpoint {
      opts := opts + ["--immediate-checkpoint"];
    }
    if data.jobs.Some? {
      opts := opts + ["--jobs", Itoa(data.jobs.value)];
    }
    assert opts == options + DataFlags(data);
    return Success(AppendDataAdditionalCommandArgs(data, opts));
  }

  /** The arguments every backup starts with: the user, then the backup name when
      Barman supports names and the executor does not force a legacy backup. */
  function LeadingOptions(cmd: Command, backupName: string, forceLegacy: bool): seq<string> {
    ["--user", "postgres"]
    + (if ShouldExecuteBackupWithName(cmd.capabilities, forceLegacy) then ["--name", backupName] else [])
  }

  /** What GetBarmanCloudBackupOptions returns. */
  function BackupOptions(cmd: Command, ext: Externals, backupName: string, serverName: string, forceLegacy: bool)
    : (r: Result<seq<string>>)
    ensures r.Success? ==> |r.value| >= 4 && r.value[..2] == ["--user", "postgres"]
    ensures r.Success? && ShouldExecuteBackupWithName(cmd.capabilities, forceLegacy) ==>
      r.value[2..4] == ["--name", backupName]
    // the leading block, which names the backup exactly when backups are named
    ensures r.Success? ==> LeadingOptions(cmd, backupName, forceLegacy) <= r.value
    ensures r.Success? ==> r.value[|r.value| - 2..] == [cmd.configuration.destinationPath, serverName]
    // the whole command line: the leading block and the data section, the tags, the
    // endpoint, the provider, then the destination and the server name
    ensures r.Success? ==>
      DataConfiguration(cmd, LeadingOptions(cmd, backupName, forceLegacy)).Success?
      && TagOptions("--tags", cmd.configuration.tags, ext).Success?
      && CloudProviderOptions([], cmd.configuration.credentials, ext).Success?
      && r.value == DataConfiguration(cmd, LeadingOptions(cmd, backupName, forceLegacy)).value
                 + TagOptions("--tags", cmd.configuration.tags, ext).value
                 + EndpointOptions(cmd.configuration.endpointUrl)
                 + CloudProviderOptions([], cmd.configuration.credentials, ext).value
                 + [cmd.configuration.destinationPath, serverName]
    // a failure of the data section, of the tag formatter or of the provider is returned as is
    ensures DataConfiguration(cmd, LeadingOptions(cmd, backupName, forceLegacy)).Failure? ==>
      r == Failure(SnappyUnsupported)
    ensures (DataConfiguration(cmd, LeadingOptions(cmd, backupName, forceLegacy)).Success?
             && TagOptions("--tags", cmd.configuration.tags, ext).Failure?) ==>
      r == Failure(TagOptions("--tags", cmd.configuration.tags, ext).error)
    ensures (DataConfiguration(cmd, LeadingOptions(cmd, backupName, forceLegacy)).Success?
             && TagOptions("--tags", cmd.configuration.tags, ext).Success?) ==>
      (r.Failure? <==> CloudProviderOptions([], cmd.configuration.credentials, ext).Failure?)
  {
    match DataConfiguration(cmd, LeadingOptions(cmd, backupName, forceLegacy))
    case Failure(e) => Failure(e)
    case Success(withData) =>
      match TagOptions("--tags", cmd.configuration.tags, ext)
      case Failure(e) => Failure(e)
      case Success(tags) =>
        match CloudProviderOptions(withData + tags + EndpointOptions(cmd.configuration.endpointUrl),
                                   cmd.configuration.credentials, ext)
        case Failure(e) => Failure(e)
        case Success(withProvider) => Success(withProvider + [cmd.configuration.destinationPath, serverName])
  }

  /** GetBarmanCloudBackupOptions, appending step by step. */
  method GetBarmanCloudBackupOptions(cmd: Command, ext: Externals, backupName: string, serverName: string, forceLegacy: bool)
    returns (r: Result<seq<string>>)
    ensures r == BackupOptions(cmd, ext, backupName, serverName, forceLegacy)
  {
    var options := ["--user", "postgres"];
    if ShouldExecuteBackupWithName(cmd.capabilities, forceLegacy) {
      options := options + ["--name", backupName];
    }
    assert options == LeadingOptions(cmd, backupName, forceLegacy);
    var withData := GetDataConfiguration(cmd, options);
    if withData.Failure? {
      return Failure(withData.error);
    }
    options := withData.value;
    if |cmd.configuration.tags| > 0 {
      var tags := ext.formatTags("--tags", cmd.configuration.tags);
      if tags.Failure? {
        return Failure(tags.error);
      }
      options := options + tags.value;
    } else {
      assert options == options + [];
    }
    if |cmd.configuration.endpointUrl| > 0 {
      options := options + ["--endpoint-url", cmd.configuration.endpointUrl];
    } else {
      assert options == options + [];
    }
    var withProvider := AppendCloudProviderOptions(options, cmd.configuration.credentials, ext);
    if withProvider.Failure? {
      return Failure(withProvider.error);
    }
    options := withProvider.value + [cmd.configuration.destinationPath, serverName];
    return Success(options);
  }

  /** IsCompatible: Barman before 3 cannot back up PostgreSQL 15. */
  function IsCompatible(cmd: Command, postgresMajor: nat): (r: Option<Error>)
    ensures r.Some? <==> postgresMajor == 15 && cmd.capabilities.version.major < 3
    ensures r.Some? ==> r.value == PostgresUnsupported(postgresMajor, cmd.capabilities.version.major)
  {
    if postgresMajor == 15 && cmd.capabilities.version.major < 3 then
      Some(PostgresUnsupported(postgresMajor, cmd.capabilities.version.major))
    else None
  }

  /** The exit status barman-cloud-backup uses for bad arguments, as the error text. */
  const BadArgumentsErrorCode: string := "3"

  /** How Take reports a failure of barman-cloud-backup. */
  function BackupRunError(runError: Option<Error>): (r: Option<Error>)
    ensures runError.None? ==> r.None?
    ensures runError == Some(External(BadArgumentsErrorCode)) ==> r == Some(InvalidBackupArguments)
    ensures runError.Some? && runError != Some(External(BadArgumentsErrorCode)) ==> r == runError
  {
    match runError
    case None => None
    case Some(e) => if e == External(BadArgumentsErrorCode) then Some(InvalidBackupArguments) else Some(e)
  }

  /** Take: build the options, then run barman-cloud-backup with TMPDIR pointing at the
      temporary directory. `run` stands for the subprocess; `invoked` is the command
      that was run, None when the options could not be built. */
  method Take(cmd: Command, ext: Externals, backupName: string, serverName: string, env: seq<string>,
              forceLegacy: bool, backupTemporaryDirectory: string, run: Invocation -> Option<Error>)
    returns (err: Option<Error>, invoked: Option<Invocation>)
    ensures BackupOptions(cmd, ext, backupName, serverName, forceLegacy).Failure? ==>
      invoked.None? && err == Some(BackupOptions(cmd, ext, backupName, serverName, forceLegacy).error)
    ensures BackupOptions(cmd, ext, backupName, serverName, forceLegacy).Success? ==>
      invoked == Some(Invocation(BarmanCloudBackup, BackupOptions(cmd, ext, backupName, serverName, forceLegacy).value,
                                 env + ["TMPDIR=" + backupTemporaryDirectory]))
      && err == BackupRunError(run(invoked.value))
  {
    var options := GetBarmanCloudBackupOptions(cmd, ext, backupName, serverName, forceLegacy);
    if options.Failure? {
      return Some(options.error), None;
    }
    var cmdEnv := env + ["TMPDIR=" + backupTemporaryDirectory];
    var invocation := Invocation(BarmanCloudBackup, options.value, cmdEnv);
    var runError := run(invocation);
    if runError.Some? {
      if runError.value == External(BadArgumentsErrorCode) {
        return Some(InvalidBackupArguments), Some(invocation);
      }
      return runError, Some(invocation);
    }
    return None, Some(invocation);
  }
}
