/** The environment variables that carry the object-store credentials to the
    barman-cloud tools (pkg/credentials/env.go). The Kubernetes secrets of the
    namespace are a map from secret name to the secret's data; writing the Google
    credentials file is a parameter giving the outcome of the write for a content. */
module Credentials {
  import opened Common
  import opened BarmanApi

  /** The secrets of the namespace: name -> (key -> value). */
  type SecretStore = map<string, map<string, string>>

  const ScratchDataDirectory: string := "/controller"
  const CertificatesDir: string := ScratchDataDirectory + "/certificates/"
  const BarmanEndpointCACertificateFileName: string := "barman-ca.crt"
  const BarmanBackupEndpointCACertificateLocation: string :=
    CertificatesDir + "backup-" + BarmanEndpointCACertificateFileName
  const BarmanRestoreEndpointCACertificateLocation: string :=
    CertificatesDir + "restore-" + BarmanEndpointCACertificateFileName
  const GoogleCredentialsPath: string := "/controller/.application_credentials.json"

  /** An environment as the Go code returns it: the slice (None for nil) and the
      error. Every path except the GKE one returns either a slice or an error. */
  datatype EnvOutcome = EnvOutcome(env: Option<seq<string>>, err: Option<Error>)

  function Ok(env: seq<string>): EnvOutcome { EnvOutcome(Some(env), None) }

  function Fail(e: Error): EnvOutcome { EnvOutcome(None, Some(e)) }

  /** `NAME=value` */
  function Assignment(name: string, value: string): string { name + "=" + value }

  /** Whether a reference names a key of an existing secret. */
  predicate Resolvable(store: SecretStore, reference: SecretKeySelector) {
    reference.name in store && reference.key in store[reference.name]
  }

  /** extractValueFromSecret: fetch the secret, then the key inside it. */
  function ExtractValueFromSecret(store: SecretStore, reference: SecretKeySelector): (r: Result<string>)
    ensures r.Success? <==> Resolvable(store, reference)
    ensures r.Success? ==> r.value == store[reference.name][reference.key]
    ensures reference.name !in store ==> r == Failure(SecretFetchFailed(reference.name))
    ensures reference.name in store && reference.key !in store[reference.name] ==>
      r == Failure(MissingSecretKey(reference.key, reference.name))
  {
    if reference.name !in store then Failure(SecretFetchFailed(reference.name))
    else if reference.key !in store[reference.name] then Failure(MissingSecretKey(reference.key, reference.name))
    else Success(store[reference.name][reference.key])
  }

  // ---------------------------------------------------------------------------
  // Optional variables: appended, in order, for each reference that is set.

  /** An environment variable whose value comes from a secret, if the reference is set. */
  datatype EnvVariable = EnvVariable(name: string, reference: Option<SecretKeySelector>)

  /** How many of the variables have their reference set. */
  function SetCount(vars: seq<EnvVariable>): nat {
    if vars == [] then 0 else (if vars[0].reference.Some? then 1 else 0) + SetCount(vars[1..])
  }

  /** Whether every set reference among the variables can be resolved. */
  predicate AllResolvable(store: SecretStore, vars: seq<EnvVariable>) {
    forall i :: 0 <= i < |vars| && vars[i].reference.Some? ==> Resolvable(store, vars[i].reference.value)
  }

  /** Append `NAME=value` for each variable whose reference is set, in order; the
      first reference that cannot be resolved aborts with its error. */
  function AppendVariables(store: SecretStore, vars: seq<EnvVariable>, env: seq<string>): (r: Result<seq<string>>)
    ensures r.Success? <==> AllResolvable(store, vars)
    ensures r.Success? ==> env <= r.value && |r.value| == |env| + SetCount(vars)
    decreases |vars|
  {
    if vars == [] then Success(env)
    else
      assert forall i :: 1 <= i < |vars| ==> vars[1..][i - 1] == vars[i];
      if vars[0].reference.None? then AppendVariables(store, vars[1..], env)
      else
        match ExtractValueFromSecret(store, vars[0].reference.value)
        case Failure(e) => Failure(e)
        case Success(value) => AppendVariables(store, vars[1..], env + [Assignment(vars[0].name, value)])
  }

  /** Each set variable lands at its place: after the variables set before it. */
  lemma {:induction false} AppendVariablesOrder(store: SecretStore, vars: seq<EnvVariable>, env: seq<string>, i: nat)
    requires AllResolvable(store, vars)
    requires i < |vars| && vars[i].reference.Some?
    ensures |env| + SetCount(vars[..i]) < |AppendVariables(store, vars, env).value|
    ensures AppendVariables(store, vars, env).value[|env| + SetCount(vars[..i])]
            == Assignment(vars[i].name, store[vars[i].reference.value.name][vars[i].reference.value.key])
    decreases |vars|
  {
    assert forall k :: 1 <= k < |vars| ==> vars[1..][k - 1] == vars[k];
    var r := AppendVariables(store, vars, env);
    if i == 0 {
      assert vars[..0] == [];
      var value := store[vars[0].reference.value.name][vars[0].reference.value.key];
      var env' := env + [Assignment(vars[0].name, value)];
      assert r == AppendVariables(store, vars[1..], env');
    } else {
      assert vars[..i][1..] == vars[1..][..i - 1];
      assert SetCount(vars[..i]) == (if vars[0].reference.Some? then 1 else 0) + SetCount(vars[1..][..i - 1]);
      if vars[0].reference.None? {
        AppendVariablesOrder(store, vars[1..], env, i - 1);
      } else {
        var value := store[vars[0].reference.value.name][vars[0].reference.value.key];
        var env' := env + [Assignment(vars[0].name, value)];
        AppendVariablesOrder(store, vars[1..], env', i - 1);
      }
    }
  }

  /** The first reference that cannot be resolved decides the error. */
  lemma {:induction false} AppendVariablesError(store: SecretStore, vars: seq<EnvVariable>, env: seq<string>, i: nat)
    requires i < |vars| && vars[i].reference.Some? && !Resolvable(store, vars[i].reference.value)
    requires AllResolvable(store, vars[..i])
    ensures AppendVariables(store, vars, env) == Failure(ExtractValueFromSecret(store, vars[i].reference.value).error)
    decreases |vars|
  {
    assert forall k :: 1 <= k < |vars| ==> vars[1..][k - 1] == vars[k];
    if i > 0 {
      assert vars[0] == vars[..i][0];
      assert vars[1..][..i - 1] == vars[..i][1..];
      if vars[0].reference.None? {
        AppendVariablesError(store, vars[1..], env, i - 1);
      } else {
        var value := store[vars[0].reference.value.name][vars[0].reference.value.key];
        AppendVariablesError(store, vars[1..], env + [Assignment(vars[0].name, value)], i - 1);
      }
    }
  }

  // ---------------------------------------------------------------------------
  // AWS

  /** The optional AWS variables, in the order they are appended. */
  function AwsOptionalVariables(s3: S3Credentials): seq<EnvVariable> {
    [EnvVariable("AWS_DEFAULT_REGION", s3.regionReference), EnvVariable("AWS_SESSION_TOKEN", s3.sessionToken)]
  }

  /** What envSetAWSCredentials returns. */
  function AwsEnv(store: SecretStore, s3: Option<S3Credentials>, env: seq<string>): (r: EnvOutcome)
    // never a partial environment: an environment or an error
    ensures r.env.Some? <==> r.err.None?
    ensures s3.None? ==> r == Fail(MissingS3Credentials)
    ensures s3.Some? && s3.value.inheritFromIamRole ==> r == Ok(env)
    ensures s3.Some? && !s3.value.inheritFromIamRole ==>
      (r.err.None? <==>
        s3.value.accessKeyIdReference.Some? && Resolvable(store, s3.value.accessKeyIdReference.value)
        && s3.value.secretAccessKeyReference.Some? && Resolvable(store, s3.value.secretAccessKeyReference.value)
        && AllResolvable(store, AwsOptionalVariables(s3.value)))
    ensures s3.Some? && !s3.value.inheritFromIamRole && s3.value.accessKeyIdReference.None? ==>
      r == Fail(MissingAccessKeyId)
    // the failing check decides the error: access key, secret key, then the optional variables
    ensures (s3.Some? && !s3.value.inheritFromIamRole && s3.value.accessKeyIdReference.Some?
             && !Resolvable(store, s3.value.accessKeyIdReference.value)) ==>
      r == Fail(ExtractValueFromSecret(store, s3.value.accessKeyIdReference.value).error)
    ensures (s3.Some? && !s3.value.inheritFromIamRole && s3.value.accessKeyIdReference.Some?
             && Resolvable(store, s3.value.accessKeyIdReference.value)
             && s3.value.secretAccessKeyReference.None?) ==>
      r == Fail(MissingSecretAccessKey)
    ensures (s3.Some? && !s3.value.inheritFromIamRole && s3.value.accessKeyIdReference.Some?
             && Resolvable(store, s3.value.accessKeyIdReference.value)
             && s3.value.secretAccessKeyReference.Some?
             && !Resolvable(store, s3.value.secretAccessKeyReference.value)) ==>
      r == Fail(ExtractValueFromSecret(store, s3.value.secretAccessKeyReference.value).error)
    ensures (s3.Some? && !s3.value.inheritFromIamRole && s3.value.accessKeyIdReference.Some?
             && Resolvable(store, s3.value.accessKeyIdReference.value)
             && s3.value.secretAccessKeyReference.Some?
             && Resolvable(store, s3.value.secretAccessKeyReference.value)
             && !AllResolvable(store, AwsOptionalVariables(s3.value))) ==>
      r == Fail(AppendVariables(store, AwsOptionalVariables(s3.value), env).error)
    // on success: the input, the optional region and token, then the two keys
    ensures r.err.None? && s3.Some? && !s3.value.inheritFromIamRole ==>
      var e := r.env.value;
      var access := s3.value.accessKeyIdReference.value;
      var secret := s3.value.secretAccessKeyReference.value;
      |e| == |env| + SetCount(AwsOptionalVariables(s3.value)) + 2
      && e[..|e| - 2] == AppendVariables(store, AwsOptionalVariables(s3.value), env).value
      && e[|e| - 2] == Assignment("AWS_ACCESS_KEY_ID", store[access.name][access.key])
      && e[|e| - 1] == Assignment("AWS_SECRET_ACCESS_KEY", store[secret.name][secret.key])
  {
    if s3.None? then Fail(MissingS3Credentials)
    else if s3.value.inheritFromIamRole then Ok(env)
    else if s3.value.accessKeyIdReference.None? then Fail(MissingAccessKeyId)
    else
      match ExtractValueFromSecret(store, s3.value.accessKeyIdReference.value)
      case Failure(e) => Fail(e)
      case Success(accessKeyId) =>
        if s3.value.secretAccessKeyReference.None? then Fail(MissingSecretAccessKey)
        else
          match ExtractValueFromSecret(store, s3.value.secretAccessKeyReference.value)
          case Failure(e) => Fail(e)
          case Success(secretAccessKey) =>
            match AppendVariables(store, AwsOptionalVariables(s3.value), env)
            case Failure(e) => Fail(e)
            case Success(withOptional) =>
              Ok(withOptional
                 + [Assignment("AWS_ACCESS_KEY_ID", accessKeyId), Assignment("AWS_SECRET_ACCESS_KEY", secretAccessKey)])
  }

  /** envSetAWSCredentials, appending one variable at a time. */
  method EnvSetAwsCredentials(store: SecretStore, s3: Option<S3Credentials>, env: seq<string>) returns (r: EnvOutcome)
    ensures r == AwsEnv(store, s3, env)
  {
    if s3.None? {
      return Fail(MissingS3Credentials);
    }
    var credentials := s3.value;
    if credentials.inheritFromIamRole {
      return Ok(env);
    }
    if credentials.accessKeyIdReference.None? {
      return Fail(MissingAccessKeyId);
    }
    var accessKeyId := ExtractValueFromSecret(store, credentials.accessKeyIdReference.value);
    if accessKeyId.Failure? {
      return Fail(accessKeyId.error);
    }
    if credentials.secretAccessKeyReference.None? {
      return Fail(MissingSecretAccessKey);
    }
    var secretAccessKey := ExtractValueFromSecret(store, credentials.secretAccessKeyReference.value);
    if secretAccessKey.Failure? {
      return Fail(secretAccessKey.error);
    }
    var result := env;
    ghost var optional := AwsOptionalVariables(credentials);
    assert optional[1..] == [optional[1]] && optional[1..][1..] == [];
    if credentials.regionReference.Some? {
      var region := ExtractValueFromSecret(store, credentials.regionReference.value);
      if region.Failure? {
        return Fail(region.error);
      }
      result := result + [Assignment("AWS_DEFAULT_REGION", region.value)];
    }
    assert AppendVariables(store, optional, env) == AppendVariables(store, optional[1..], result);
    ghost var beforeToken := result;
    if credentials.sessionToken.Some? {
      var sessionKey := ExtractValueFromSecret(store, credentials.sessionToken.value);
      if sessionKey.Failure? {
        return Fail(sessionKey.error);
      }
      result := result + [Assignment("AWS_SESSION_TOKEN", sessionKey.value)];
    }
    assert AppendVariables(store, optional[1..], beforeToken) == AppendVariables(store, optional[1..][1..], result);
    assert AppendVariables(store, AwsOptionalVariables(credentials), env) == Success(result);
    ghost var withOptional := result;
    result := result + [Assignment("AWS_ACCESS_KEY_ID", accessKeyId.value)];
    result := result + [Assignment("AWS_SECRET_ACCESS_KEY", secretAccessKey.value)];
    assert result == withOptional
      + [Assignment("AWS_ACCESS_KEY_ID", accessKeyId.value), Assignment("AWS_SECRET_ACCESS_KEY", secretAccessKey.value)];
    return Ok(result);
  }

  // ---------------------------------------------------------------------------
  // Azure

  /** The Azure variables, in the order they are appended. */
  function AzureVariables(azure: AzureCredentials): seq<EnvVariable> {
    [ EnvVariable("AZURE_STORAGE_ACCOUNT", azure.storageAccount),
      EnvVariable("AZURE_STORAGE_KEY", azure.storageKey),
      EnvVariable("AZURE_STORAGE_SAS_TOKEN", azure.storageSasToken),
      EnvVariable("AZURE_STORAGE_CONNECTION_STRING", azure.connectionString) ]
  }

  /** What envSetAzureCredentials returns. */
  function AzureEnv(store: SecretStore, azure: Option<AzureCredentials>, env: seq<string>): (r: EnvOutcome)
    ensures r.env.Some? <==> r.err.None?
    ensures azure.None? ==> r == Fail(MissingAzureCredentials)
    ensures azure.Some? && azure.value.inheritFromAzureAd ==> r == Ok(env)
    ensures azure.Some? && !azure.value.inheritFromAzureAd ==>
      (r.err.None? <==> AllResolvable(store, AzureVariables(azure.value)))
    ensures r.err.None? && azure.Some? && !azure.value.inheritFromAzureAd ==>
      env <= r.env.value && |r.env.value| == |env| + SetCount(AzureVariables(azure.value))
    // the set variables, in the order of AzureVariables, after the given environment
    ensures r.err.None? && azure.Some? && !azure.value.inheritFromAzureAd ==>
      AppendVariables(store, AzureVariables(azure.value), env).Success?
      && r.env == Some(AppendVariables(store, AzureVariables(azure.value), env).value)
    ensures r.err.Some? && azure.Some? && !azure.value.inheritFromAzureAd ==>
      AppendVariables(store, AzureVariables(azure.value), env).Failure?
      && r.err == Some(AppendVariables(store, AzureVariables(azure.value), env).error)
  {
    if azure.None? then Fail(MissingAzureCredentials)
    else if azure.value.inheritFromAzureAd then Ok(env)
    else
      match AppendVariables(store, AzureVariables(azure.value), env)
      case Failure(e) => Fail(e)
      case Success(result) => Ok(result)
  }

  /** Appends one Azure variable when its reference is set. */
  method AppendAzureVariable(store: SecretStore, name: string, reference: Option<SecretKeySelector>, env: seq<string>)
    returns (r: Result<seq<string>>)
    ensures reference.None? ==> r == Success(env)
    ensures reference.Some? ==>
      r == match ExtractValueFromSecret(store, reference.value)
           case Failure(e) => Failure(e)
           case Success(value) => Success(env + [Assignment(name, value)])
  {
    if reference.None? {
      return Success(env);
    }
    var value := ExtractValueFromSecret(store, reference.value);
    if value.Failure? {
      return Failure(value.error);
    }
    return Success(env + [Assignment(name, value.value)]);
  }

  /** envSetAzureCredentials, appending one variable at a time. */
  method EnvSetAzureCredentials(store: SecretStore, azure: Option<AzureCredentials>, env: seq<string>)
    returns (r: EnvOutcome)
    ensures r == AzureEnv(store, azure, env)
  {
    if azure.None? {
      return Fail(MissingAzureCredentials);
    }
    var credentials := azure.value;
    if credentials.inheritFromAzureAd {
      return Ok(env);
    }
    ghost var vars := AzureVariables(credentials);
    ghost var expected := AppendVariables(store, vars, env);
    assert AzureEnv(store, azure, env) == if expected.Failure? then Fail(expected.error) else Ok(expected.value);
    var result := env;
    var step := AppendAzureVariable(store, "AZURE_STORAGE_ACCOUNT", credentials.storageAccount, result);
    if step.Failure? {
      return Fail(step.error);
    }
    result := step.value;
    assert AppendVariables(store, vars, env) == AppendVariables(store, vars[1..], result);
    step := AppendAzureVariable(store, "AZURE_STORAGE_KEY", credentials.storageKey, result);
    if step.Failure? {
      return Fail(step.error);
    }
    result := step.value;
    assert AppendVariables(store, vars, env) == AppendVariables(store, vars[2..], result) by {
      assert vars[1..][1..] == vars[2..];
    }
    step := AppendAzureVariable(store, "AZURE_STORAGE_SAS_TOKEN", credentials.storageSasToken, result);
    if step.Failure? {
      return Fail(step.error);
    }
    result := step.value;
    assert AppendVariables(store, vars, env) == AppendVariables(store, vars[3..], result) by {
      assert vars[2..][1..] == vars[3..];
    }
    ghost var beforeConnection := result;
    step := AppendAzureVariable(store, "AZURE_STORAGE_CONNECTION_STRING", credentials.connectionString, result);
    if step.Failure? {
      return Fail(step.error);
    }
    result := step.value;
    assert AppendVariables(store, vars[3..], beforeConnection) == AppendVariables(store, [], result) by {
      assert vars[3..][1..] == [];
    }
    return Ok(result);
  }

  // ---------------------------------------------------------------------------
  // Google

  /** What envSetGoogleCredentials returns. `writeCredentials` is the outcome of
      writing the credentials file with a given content. In a GKE environment without
      application credentials the (empty) file is written and the environment is
      returned together with the write's error, if any. Without application
      credentials outside GKE the source dereferences a nil reference; the model
      reports NilSecretReference there. */
  function GoogleEnv(store: SecretStore, google: GoogleCredentials, env: seq<string>,
                     writeCredentials: string -> Option<Error>): (r: EnvOutcome)
    ensures google.gkeEnvironment && google.applicationCredentials.None? ==>
      r == EnvOutcome(Some(env), writeCredentials(""))
    ensures !google.gkeEnvironment && google.applicationCredentials.None? ==> r == Fail(NilSecretReference)
    ensures google.applicationCredentials.Some? ==>
      (r.err.None? <==>
        Resolvable(store, google.applicationCredentials.value)
        && writeCredentials(ExtractValueFromSecret(store, google.applicationCredentials.value).value).None?)
    ensures google.applicationCredentials.Some? && r.err.None? ==>
      r.env == Some(env + [Assignment("GOOGLE_APPLICATION_CREDENTIALS", GoogleCredentialsPath)])
    ensures google.applicationCredentials.Some? && r.err.Some? ==> r.env.None?
  {
    if google.gkeEnvironment && google.applicationCredentials.None? then
      EnvOutcome(Some(env), writeCredentials(""))
    else if google.applicationCredentials.None? then
      Fail(NilSecretReference)
    else
      match ExtractValueFromSecret(store, google.applicationCredentials.value)
      case Failure(e) => Fail(e)
      case Success(content) =>
        match writeCredentials(content)
        case Some(e) => Fail(e)
        case None => Ok(env + [Assignment("GOOGLE_APPLICATION_CREDENTIALS", GoogleCredentialsPath)])
  }

  /** envSetGoogleCredentials */
  method EnvSetGoogleCredentials(store: SecretStore, google: GoogleCredentials, env: seq<string>,
                                 writeCredentials: string -> Option<Error>) returns (r: EnvOutcome)
    ensures r == GoogleEnv(store, google, env, writeCredentials)
  {
    var applicationCredentialsContent := "";
    if google.gkeEnvironment && google.applicationCredentials.None? {
      return EnvOutcome(Some(env), writeCredentials(applicationCredentialsContent));
    }
    if google.applicationCredentials.None? {
      return Fail(NilSecretReference);
    }
    var content := ExtractValueFromSecret(store, google.applicationCredentials.value);
    if content.Failure? {
      return Fail(content.error);
    }
    applicationCredentialsContent := content.value;
    var err := writeCredentials(applicationCredentialsContent);
    if err.Some? {
      return Fail(err.value);
    }
    return Ok(env + [Assignment("GOOGLE_APPLICATION_CREDENTIALS", GoogleCredentialsPath)]);
  }

  // ---------------------------------------------------------------------------
  // Dispatch and certificates

  /** What envSetCloudCredentials returns: AWS first, then Google, otherwise Azure. */
  function CloudEnv(store: SecretStore, configuration: BarmanObjectStoreConfiguration, env: seq<string>,
                    writeCredentials: string -> Option<Error>): (r: EnvOutcome)
    ensures configuration.credentials.aws.Some? ==> r == AwsEnv(store, configuration.credentials.aws, env)
    ensures configuration.credentials.aws.None? && configuration.credentials.google.Some? ==>
      r == GoogleEnv(store, configuration.credentials.google.value, env, writeCredentials)
    ensures configuration.credentials.aws.None? && configuration.credentials.google.None? ==>
      r == AzureEnv(store, configuration.credentials.azure, env)
    // no provider at all is reported as missing Azure credentials
    ensures configuration.credentials == BarmanCredentials(None, None, None) ==> r == Fail(MissingAzureCredentials)
  {
    if configuration.credentials.aws.Some? then AwsEnv(store, configuration.credentials.aws, env)
    else if configuration.credentials.google.Some? then
      GoogleEnv(store, configuration.credentials.google.value, env, writeCredentials)
    else AzureEnv(store, configuration.credentials.azure, env)
  }

  /** envSetCloudCredentials */
  method EnvSetCloudCredentials(store: SecretStore, configuration: BarmanObjectStoreConfiguration, env: seq<string>,
                                writeCredentials: string -> Option<Error>) returns (r: EnvOutcome)
    ensures r == CloudEnv(store, configuration, env, writeCredentials)
  {
    if configuration.credentials.aws.Some? {
      r := EnvSetAwsCredentials(store, configuration.credentials.aws, env);
      return;
    }
    if configuration.credentials.google.Some? {
      r := EnvSetGoogleCredentials(store, configuration.credentials.google.value, env, writeCredentials);
      return;
    }
    r := EnvSetAzureCredentials(store, configuration.credentials.azure, env);
  }

  /** The CA bundle variable: AWS_CA_BUNDLE for AWS, otherwise REQUESTS_CA_BUNDLE for
      Azure, and only when an endpoint CA is configured. */
  function CaBundleEnv(configuration: BarmanObjectStoreConfiguration, env: seq<string>, certificatesLocation: string)
    : (r: seq<string>)
    ensures configuration.endpointCa.Some? && configuration.credentials.aws.Some? ==>
      r == env + [Assignment("AWS_CA_BUNDLE", certificatesLocation)]
    ensures configuration.endpointCa.Some? && configuration.credentials.aws.None? && configuration.credentials.azure.Some? ==>
      r == env + [Assignment("REQUESTS_CA_BUNDLE", certificatesLocation)]
    ensures (configuration.endpointCa.None?
             || (configuration.credentials.aws.None? && configuration.credentials.azure.None?)) ==> r == env
  {
    if configuration.endpointCa.Some? && configuration.credentials.aws.Some? then
      env + [Assignment("AWS_CA_BUNDLE", certificatesLocation)]
    else if configuration.endpointCa.Some? && configuration.credentials.azure.Some? then
      env + [Assignment("REQUESTS_CA_BUNDLE", certificatesLocation)]
    else env
  }

  /** EnvSetCloudCredentialsAndCertificates: the CA bundle variable, then the
      provider's credentials. */
  method EnvSetCloudCredentialsAndCertificates(store: SecretStore, configuration: BarmanObjectStoreConfiguration,
                                               env: seq<string>, certificatesLocation: string,
                                               writeCredentials: string -> Option<Error>) returns (r: EnvOutcome)
    ensures r == CloudEnv(store, configuration, CaBundleEnv(configuration, env, certificatesLocation), writeCredentials)
  {
    var withCa := env;
    if configuration.endpointCa.Some? && configuration.credentials.aws.Some? {
      withCa := withCa + [Assignment("AWS_CA_BUNDLE", certificatesLocation)];
    } else if configuration.endpointCa.Some? && configuration.credentials.azure.Some? {
      withCa := withCa + [Assignment("REQUESTS_CA_BUNDLE", certificatesLocation)];
    }
    r := EnvSetCloudCredentials(store, configuration, withCa, writeCredentials);
  }

  /** A successful environment always extends the one it was given: credentials are
      only ever appended, after the CA bundle variable. */
  lemma CredentialsOnlyAppend(store: SecretStore, configuration: BarmanObjectStoreConfiguration, env: seq<string>,
                              certificatesLocation: string, writeCredentials: string -> Option<Error>)
    ensures var base := CaBundleEnv(configuration, env, certificatesLocation);
      var r := CloudEnv(store, configuration, base, writeCredentials);
      env <= base && (r.env.Some? ==> base <= r.env.value)
  {
    var base := CaBundleEnv(configuration, env, certificatesLocation);
    var creds := configuration.credentials;
    if creds.aws.Some? && !creds.aws.value.inheritFromIamRole && AwsEnv(store, creds.aws, base).err.None? {
      var e := AwsEnv(store, creds.aws, base).env.value;
      assert base <= AppendVariables(store, AwsOptionalVariables(creds.aws.value), base).value;
      assert e[..|e| - 2] == AppendVariables(store, AwsOptionalVariables(creds.aws.value), base).value;
    }
  }

  /** EnvSetBackupCloudCredentials: the backup's CA certificate location. */
  method EnvSetBackupCloudCredentials(store: SecretStore, configuration: BarmanObjectStoreConfiguration,
                                      env: seq<string>, writeCredentials: string -> Option<Error>) returns (r: EnvOutcome)
    ensures r == CloudEnv(store, configuration,
                          CaBundleEnv(configuration, env, BarmanBackupEndpointCACertificateLocation), writeCredentials)
  {
    r := EnvSetCloudCredentialsAndCertificates(store, configuration, env, BarmanBackupEndpointCACertificateLocation,
                                               writeCredentials);
  }

  /** EnvSetRestoreCloudCredentials: the restore's CA certificate location. */
  method EnvSetRestoreCloudCredentials(store: SecretStore, configuration: BarmanObjectStoreConfiguration,
                                       env: seq<string>, writeCredentials: string -> Option<Error>) returns (r: EnvOutcome)
    ensures r == CloudEnv(store, configuration,
                          CaBundleEnv(configuration, env, BarmanRestoreEndpointCACertificateLocation), writeCredentials)
  {
    r := EnvSetCloudCredentialsAndCertificates(store, configuration, env, BarmanRestoreEndpointCACertificateLocation,
                                               writeCredentials);
  }
}
