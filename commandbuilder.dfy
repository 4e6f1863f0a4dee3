/** The cloud-provider part of every barman-cloud command line, and the options of
    barman-cloud-wal-restore (pkg/command/commandbuilder.go). */
module CommandBuilder {
  import opened Common
  import opened Capabilities
  import opened BarmanApi

  /** What `ctx.Value(useDefaultAzureCredentials)` holds: nothing, a boolean, or a
      value of some other type. */
  datatype ContextValue = Unset | BoolValue(b: bool) | OtherValue

  /** The helpers outside the core that the builders consult, as values:
      - capabilities: what CurrentCapabilities returns (the probe may fail);
      - context: the useDefaultAzureCredentials entry of the request context;
      - formatTags: utils.MapToBarmanTagsFormat(flag, tags);
      - parsePolicy: utils.ParsePolicy(policy). */
  datatype Externals = Externals(
    capabilities: Result<Capabilities>,
    context: ContextValue,
    formatTags: (string, map<string, string>) -> Result<seq<string>>,
    parsePolicy: string -> Result<string>
  )

  /** checkUseDefaultAzureCredentials: only a boolean true in the context counts. */
  function CheckUseDefaultAzureCredentials(v: ContextValue): (r: bool)
    ensures r <==> v == BoolValue(true)
  {
    match v
    case BoolValue(b) => b
    case _ => false
  }

  /** The arguments appendCloudProviderOptions adds for the configured provider, or
      why it refuses, once the capabilities are known. */
  function ProviderOptions(credentials: BarmanCredentials, caps: Capabilities, useDefaultAzure: bool): (r: Result<seq<string>>)
    // no provider: nothing is added
    ensures credentials.aws.None? && credentials.azure.None? && credentials.google.None? ==> r == Success([])
    // AWS never fails, and names the provider only when Barman supports S3
    ensures credentials.aws.Some? ==> r == Success(if caps.hasS3 then ["--cloud-provider", "aws-s3"] else [])
    // Azure fails without Azure support, or when managed identity is needed and missing
    ensures credentials.aws.None? && credentials.azure.Some? ==>
      (r.Failure? <==>
        !caps.hasAzure
        || (credentials.azure.value.inheritFromAzureAd && !useDefaultAzure && !caps.hasAzureManagedIdentity))
    ensures credentials.aws.None? && credentials.azure.Some? && r.Success? ==>
      |r.value| >= 2 && r.value[..2] == ["--cloud-provider", "azure-blob-storage"]
      && (|r.value| > 2 <==> credentials.azure.value.inheritFromAzureAd && !useDefaultAzure)
      && (|r.value| > 2 ==> r.value[2..] == ["--credential", "managed-identity"])
    // Google fails exactly without Google support
    ensures credentials.aws.None? && credentials.azure.None? && credentials.google.Some? ==>
      r == (if caps.hasGoogle then Success(["--cloud-provider", "google-cloud-storage"]) else Failure(GoogleRequiresBarman219))
  {
    if credentials.aws.Some? then
      Success(if caps.hasS3 then ["--cloud-provider", "aws-s3"] else [])
    else if credentials.azure.Some? then
      if !caps.hasAzure then Failure(AzureRequiresBarman213)
      else if !credentials.azure.value.inheritFromAzureAd || useDefaultAzure then
        Success(["--cloud-provider", "azure-blob-storage"])
      else if !caps.hasAzureManagedIdentity then Failure(AzureManagedIdentityRequiresBarman218)
      else Success(["--cloud-provider", "azure-blob-storage", "--credential", "managed-identity"])
    else if credentials.google.Some? then
      if caps.hasGoogle then Success(["--cloud-provider", "google-cloud-storage"])
      else Failure(GoogleRequiresBarman219)
    else
      Success([])
  }

  /** Precedence between providers: AWS hides Azure and Google, Azure hides Google. */
  lemma ProviderPrecedence(credentials: BarmanCredentials, caps: Capabilities, useDefaultAzure: bool)
    ensures credentials.aws.Some? ==>
      ProviderOptions(credentials, caps, useDefaultAzure)
      == ProviderOptions(BarmanCredentials(None, credentials.aws, None), caps, useDefaultAzure)
    ensures credentials.aws.None? && credentials.azure.Some? ==>
      ProviderOptions(credentials, caps, useDefaultAzure)
      == ProviderOptions(BarmanCredentials(credentials.azure, None, None), caps, useDefaultAzure)
  {
  }

  /** The whole of appendCloudProviderOptions: a failing capability probe is returned
      as is; otherwise the provider's arguments follow the given options. */
  function CloudProviderOptions(options: seq<string>, credentials: BarmanCredentials, ext: Externals): (r: Result<seq<string>>)
    ensures ext.capabilities.Failure? ==> r == Failure(ext.capabilities.error)
    ensures r.Success? ==> options <= r.value
    ensures ext.capabilities.Success? ==>
      (r.Success? <==> ProviderOptions(credentials, ext.capabilities.value, CheckUseDefaultAzureCredentials(ext.context)).Success?)
    ensures r.Success? ==>
      r.value[|options|..] == ProviderOptions(credentials, ext.capabilities.value, CheckUseDefaultAzureCredentials(ext.context)).value
  {
    match ext.capabilities
    case Failure(e) => Failure(e)
    case Success(caps) =>
      match ProviderOptions(credentials, caps, CheckUseDefaultAzureCredentials(ext.context))
      case Failure(e) => Failure(e)
      case Success(added) => Success(options + added)
  }

  /** appendCloudProviderOptions, appending step by step as the source does. */
  method AppendCloudProviderOptions(options: seq<string>, credentials: BarmanCredentials, ext: Externals)
    returns (r: Result<seq<string>>)
    ensures r == CloudProviderOptions(options, credentials, ext)
  {
    if ext.capabilities.Failure? {
      return Failure(ext.capabilities.error);
    }
    var capabilities := ext.capabilities.value;
    var opts := options;
    assert opts == options + [];
    if credentials.aws.Some? {
      if capabilities.hasS3 {
        opts := opts + ["--cloud-provider", "aws-s3"];
      }
    } else if credentials.azure.Some? {
      if !capabilities.hasAzure {
        return Failure(AzureRequiresBarman213);
      }
      opts := opts + ["--cloud-provider", "azure-blob-storage"];
      if credentials.azure.value.inheritFromAzureAd && !CheckUseDefaultAzureCredentials(ext.context) {
        if !capabilities.hasAzureManagedIdentity {
          return Failure(AzureManagedIdentityRequiresBarman218);
        }
        opts := opts + ["--credential", "managed-identity"];
        assert opts == options + ["--cloud-provider", "azure-blob-storage", "--credential", "managed-identity"];
      }
    } else if credentials.google.Some? {
      if !capabilities.hasGoogle {
        return Failure(GoogleRequiresBarman219);
      }
      opts := opts + ["--cloud-provider", "google-cloud-storage"];
    }
    return Success(opts);
  }

  /** `--endpoint-url URL` when an endpoint is configured. */
  function EndpointOptions(endpointUrl: string): (r: seq<string>)
    ensures |endpointUrl| > 0 ==> r == ["--endpoint-url", endpointUrl]
    ensures |endpointUrl| == 0 ==> r == []
  {
    if |endpointUrl| > 0 then ["--endpoint-url", endpointUrl] else []
  }

  /** utils.MapToBarmanTagsFormat(flag, tags), called only when there are tags. */
  function TagOptions(flag: string, tags: map<string, string>, ext: Externals): (r: Result<seq<string>>)
    ensures |tags| == 0 ==> r == Success([])
    ensures |tags| > 0 ==> r == ext.formatTags(flag, tags)
  {
    if |tags| > 0 then ext.formatTags(flag, tags) else Success([])
  }

  /** The configured server name overrides the cluster name. */
  function ServerNameFor(configured: string, clusterName: string): (r: string)
    ensures |configured| != 0 ==> r == configured
    ensures |configured| == 0 ==> r == clusterName
  {
    if |configured| != 0 then configured else clusterName
  }

  /** The options of barman-cloud-wal-restore: endpoint, provider, destination and
      server name, then the user's restore arguments. */
  function WalRestoreOptions(configuration: BarmanObjectStoreConfiguration, clusterName: string, ext: Externals)
    : (r: Result<seq<string>>)
    ensures r.Failure? <==> CloudProviderOptions([], configuration.credentials, ext).Failure?
    ensures r.Failure? ==> r == Failure(CloudProviderOptions([], configuration.credentials, ext).error)
    ensures r.Success? ==>
      var provider := CloudProviderOptions([], configuration.credentials, ext).value;
      var base := EndpointOptions(configuration.endpointUrl) + provider
                  + [configuration.destinationPath, ServerNameFor(configuration.serverName, clusterName)];
      base <= r.value
      && (configuration.wal.None? ==> r.value == base)
      // then the restore arguments whose flag the options above do not carry, in order
      && r.value == AppendRestoreAdditionalCommandArgs(configuration.wal, base)
      && (configuration.wal.Some? ==>
            r.value[|base|..] == KeptArgs(configuration.wal.value.restoreAdditionalCommandArgs, FlagsOf(base)))
  {
    match CloudProviderOptions(EndpointOptions(configuration.endpointUrl), configuration.credentials, ext)
    case Failure(e) => Failure(e)
    case Success(opts) =>
      Success(AppendRestoreAdditionalCommandArgs(
        configuration.wal,
        opts + [configuration.destinationPath, ServerNameFor(configuration.serverName, clusterName)]))
  }

  /** CloudWalRestoreOptions */
  method CloudWalRestoreOptions(configuration: BarmanObjectStoreConfiguration, clusterName: string, ext: Externals)
    returns (r: Result<seq<string>>)
    ensures r == WalRestoreOptions(configuration, clusterName, ext)
  {
    var options: seq<string> := [];
    if |configuration.endpointUrl| > 0 {
      options := options + ["--endpoint-url", configuration.endpointUrl];
    }
    assert options == EndpointOptions(configuration.endpointUrl);
    var withProvider := AppendCloudProviderOptions(options, configuration.credentials, ext);
    if withProvider.Failure? {
      return Failure(withProvider.error);
    }
    options := withProvider.value;
    var serverName := clusterName;
    if |configuration.serverName| != 0 {
      serverName := configuration.serverName;
    }
    assert serverName == ServerNameFor(configuration.serverName, clusterName);
    options := options + [configuration.destinationPath, serverName];
    options := AppendRestoreAdditionalCommandArgs(configuration.wal, options);
    return Success(options);
  }
}
