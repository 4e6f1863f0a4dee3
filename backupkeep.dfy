/** Setting or releasing the keep annotation of a backup with barman-cloud-backup-keep
    (pkg/command/backupkeep.go). */
module BackupKeep {
  import opened Common
  import opened BarmanApi
  import opened CommandBuilder

  /** `--target T` to keep a backup, `--release` to release it. */
  function KeepOptions(keep: bool, keepTarget: string): seq<string> {
    if keep then ["--target", keepTarget] else ["--release"]
  }

  /** The arguments of barman-cloud-backup-keep, or why they cannot be built. */
  function KeepBackupOptions(configuration: BarmanObjectStoreConfiguration, backupName: string, serverName: string,
                             keep: bool, keepTarget: string, ext: Externals)
    : (r: Result<seq<string>>)
    ensures r.Failure? <==> CloudProviderOptions([], configuration.credentials, ext).Failure?
    ensures r.Failure? ==> r.error == CloudProviderOptions([], configuration.credentials, ext).error
    ensures r.Success? ==>
      r.value == EndpointOptions(configuration.endpointUrl)
                 + CloudProviderOptions([], configuration.credentials, ext).value
                 + KeepOptions(keep, keepTarget)
                 + [configuration.destinationPath, serverName, backupName]
    ensures r.Success? ==>
      EndpointOptions(configuration.endpointUrl) <= r.value
      && |r.value| >= 3
      && r.value[|r.value| - 3..] == [configuration.destinationPath, serverName, backupName]
      // exactly one of keep and release, right before the positional arguments
      && var n := |KeepOptions(keep, keepTarget)|;
         |r.value| >= n + 3 && r.value[|r.value| - 3 - n..|r.value| - 3] == KeepOptions(keep, keepTarget)
  {
    match CloudProviderOptions(EndpointOptions(configuration.endpointUrl), configuration.credentials, ext)
    case Failure(e) => Failure(e)
    case Success(options) =>
      Success(options + KeepOptions(keep, keepTarget) + [configuration.destinationPath, serverName, backupName])
  }

  /** KeepBackup: build the options and run barman-cloud-backup-keep with the given
      environment. `run` stands for the subprocess; `invoked` is the command that was
      run, None when the options could not be built. */
  method KeepBackup(configuration: BarmanObjectStoreConfiguration, backupName: string, serverName: string,
                    keep: bool, keepTarget: string, env: seq<string>, ext: Externals, run: Invocation -> Option<Error>)
    returns (err: Option<Error>, invoked: Option<Invocation>)
    ensures KeepBackupOptions(configuration, backupName, serverName, keep, keepTarget, ext).Failure? ==>
      invoked.None? && err == Some(KeepBackupOptions(configuration, backupName, serverName, keep, keepTarget, ext).error)
    ensures KeepBackupOptions(configuration, backupName, serverName, keep, keepTarget, ext).Success? ==>
      invoked == Some(Invocation(BarmanCloudBackupKeep, KeepBackupOptions(configuration, backupName, serverName, keep, keepTarget, ext).value, env))
      && err == run(invoked.value)
  {
    var options: seq<string> := [];
    if configuration.endpointUrl != "" {
      options := options + ["--endpoint-url", configuration.endpointUrl];
    }
    assert options == EndpointOptions(configuration.endpointUrl);
    var withProvider := AppendCloudProviderOptions(options, configuration.credentials, ext);
    if withProvider.Failure? {
      return Some(withProvider.error), None;
    }
    options := withProvider.value;
    if keep {
      options := options + ["--target", keepTarget];
    } else {
      options := options + ["--release"];
    }
    options := options + [configuration.destinationPath, serverName, backupName];
    var cmd := Invocation(BarmanCloudBackupKeep, options, env);
    err := run(cmd);
    invoked := Some(cmd);
  }
}
