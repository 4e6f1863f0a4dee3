/** Applying a retention policy with barman-cloud-backup-delete
    (pkg/command/backupdelete.go). */
module BackupDelete {
  import opened Common
  import opened Capabilities
  import opened BarmanApi
  import opened CommandBuilder

  /** The arguments of barman-cloud-backup-delete, or why they cannot be built. */
  function DeleteOptions(configuration: BarmanObjectStoreConfiguration, serverName: string, retentionPolicy: string, ext: Externals)
    : (r: Result<seq<string>>)
    // Barman must be probed successfully and support retention policies
    ensures ext.capabilities.Failure? ==> r == Failure(ext.capabilities.error)
    ensures ext.capabilities.Success? && !ext.capabilities.value.hasRetentionPolicy ==>
      var v := ext.capabilities.value.version;
      r == Failure(RetentionPolicyRequiresBarman214(v.major, v.minor, v.patch))
    // then the provider, then the policy parser, may refuse
    ensures ext.capabilities.Success? && ext.capabilities.value.hasRetentionPolicy ==>
      (r.Success? <==>
        CloudProviderOptions([], configuration.credentials, ext).Success? && ext.parsePolicy(retentionPolicy).Success?)
    ensures (ext.capabilities.Success? && ext.capabilities.value.hasRetentionPolicy
             && CloudProviderOptions([], configuration.credentials, ext).Success?
             && ext.parsePolicy(retentionPolicy).Failure?) ==>
      r == Failure(ext.parsePolicy(retentionPolicy).error)
    // a successful command line ends with the parsed policy, the destination and the server
    ensures r.Success? ==>
      CloudProviderOptions([], configuration.credentials, ext).Success?
      && r.value == EndpointOptions(configuration.endpointUrl)
                    + CloudProviderOptions([], configuration.credentials, ext).value
                    + ["--retention-policy", ext.parsePolicy(retentionPolicy).value,
                       configuration.destinationPath, serverName]
    ensures (ext.capabilities.Success? && ext.capabilities.value.hasRetentionPolicy
             && CloudProviderOptions([], configuration.credentials, ext).Failure?) ==>
      r == Failure(CloudProviderOptions([], configuration.credentials, ext).error)
    ensures r.Success? ==>
      EndpointOptions(configuration.endpointUrl) <= r.value
      && |r.value| >= 4
      && r.value[|r.value| - 4..]
         == ["--retention-policy", ext.parsePolicy(retentionPolicy).value, configuration.destinationPath, serverName]
  {
    match ext.capabilities
    case Failure(e) => Failure(e)
    case Success(caps) =>
      if !caps.hasRetentionPolicy then
        Failure(RetentionPolicyRequiresBarman214(caps.version.major, caps.version.minor, caps.version.patch))
      else
        match CloudProviderOptions(EndpointOptions(configuration.endpointUrl), configuration.credentials, ext)
        case Failure(e) => Failure(e)
        case Success(options) =>
          match ext.parsePolicy(retentionPolicy)
          case Failure(e) => Failure(e)
          case Success(parsedPolicy) =>
            Success(options + ["--retention-policy", parsedPolicy, configuration.destinationPath, serverName])
  }

  /** DeleteBackupsByPolicy: build the options and run barman-cloud-backup-delete
      with the given environment. `run` stands for the subprocess; `invoked` is the
      command that was run, None when the options could not be built. */
  method DeleteBackupsByPolicy(configuration: BarmanObjectStoreConfiguration, serverName: string, env: seq<string>,
                               retentionPolicy: string, ext: Externals, run: Invocation -> Option<Error>)
    returns (err: Option<Error>, invoked: Option<Invocation>)
    ensures DeleteOptions(configuration, serverName, retentionPolicy, ext).Failure? ==>
      invoked.None? && err == Some(DeleteOptions(configuration, serverName, retentionPolicy, ext).error)
    ensures DeleteOptions(configuration, serverName, retentionPolicy, ext).Success? ==>
      invoked == Some(Invocation(BarmanCloudBackupDelete, DeleteOptions(configuration, serverName, retentionPolicy, ext).value, env))
      && err == run(invoked.value)
  {
    if ext.capabilities.Failure? {
      return Some(ext.capabilities.error), None;
    }
    var capabilities := ext.capabilities.value;
    if !capabilities.hasRetentionPolicy {
      var v := capabilities.version;
      return Some(RetentionPolicyRequiresBarman214(v.major, v.minor, v.patch)), None;
    }
    var options: seq<string> := [];
    if configuration.endpointUrl != "" {
      options := options + ["--endpoint-url", configuration.endpointUrl];
    }
    assert options == EndpointOptions(configuration.endpointUrl);
    var withProvider := AppendCloudProviderOptions(options, configuration.credentials, ext);
    if withProvider.Failure? {
      return Some(withProvider.error), None;
    }
    var parsedPolicy := ext.parsePolicy(retentionPolicy);
    if parsedPolicy.Failure? {
      return Some(parsedPolicy.error), None;
    }
    options := withProvider.value + ["--retention-policy", parsedPolicy.value, configuration.destinationPath, serverName];
    var cmd := Invocation(BarmanCloudBackupDelete, options, env);
    err := run(cmd);
    invoked := Some(cmd);
  }
}
