/** Admission checks on the object-store configuration (pkg/api/webhooks/config.go). */
module Webhooks {
  import opened Common
  import opened BarmanApi

  /** A field path, one name per level. */
  type Path = seq<string>

  /** A field.Invalid error: where, and why (the offending value is not modelled). */
  datatype FieldError = Invalid(path: Path, detail: string)

  const MissingCredentialsDetail: string :=
    "missing credentials. One and only one of azureCredentials, s3Credentials and googleCredentials are required"
  const TooManyCredentialsDetail: string :=
    "too many credentials. One and only one of azureCredentials, s3Credentials and googleCredentials are required"
  const InvalidRetentionPolicyDetail: string := "not a valid retention policy"

  /** The path under which the Google credentials are always reported. */
  const GoogleCredentialsPath: Path := ["spec", "backupConfiguration", "googleCredentials"]

  /** The per-provider validators of pkg/api, which are not part of this model. */
  datatype Validators = Validators(
    azure: (AzureCredentials, Path) -> seq<FieldError>,
    aws: (S3Credentials, Path) -> seq<FieldError>,
    google: (GoogleCredentials, Path) -> seq<FieldError>
  )

  /** How many providers have credentials. */
  function ProviderCount(credentials: BarmanCredentials): nat {
    (if credentials.azure.Some? then 1 else 0)
    + (if credentials.aws.Some? then 1 else 0)
    + (if credentials.google.Some? then 1 else 0)
  }

  /** The errors of the last provider present, in the order Azure, AWS, Google: each
      provider's validation replaces the errors collected before it. */
  function LastProviderErrors(credentials: BarmanCredentials, path: Path, validators: Validators): seq<FieldError> {
    if credentials.google.Some? then validators.google(credentials.google.value, GoogleCredentialsPath)
    else if credentials.aws.Some? then validators.aws(credentials.aws.value, path + ["awsCredentials"])
    else if credentials.azure.Some? then validators.azure(credentials.azure.value, path + ["azureCredentials"])
    else []
  }

  /** ValidateBackupConfiguration: validate the credentials and demand exactly one
      provider. A missing configuration is valid. */
  method ValidateBackupConfiguration(barmanObjectStore: Option<BarmanObjectStoreConfiguration>, path: Path,
                                     validators: Validators)
    returns (allErrors: seq<FieldError>)
    ensures barmanObjectStore.None? ==> allErrors == []
    ensures barmanObjectStore.Some? ==>
      var credentials := barmanObjectStore.value.credentials;
      (ProviderCount(credentials) == 0 ==> allErrors == [Invalid(path, MissingCredentialsDetail)])
      && (ProviderCount(credentials) == 1 ==> allErrors == LastProviderErrors(credentials, path, validators))
      && (ProviderCount(credentials) > 1 ==>
            allErrors == LastProviderErrors(credentials, path, validators) + [Invalid(path, TooManyCredentialsDetail)])
  {
    allErrors := [];
    if barmanObjectStore.None? {
      return [];
    }
    var credentials := barmanObjectStore.value.credentials;
    var credentialsCount := 0;
    if credentials.azure.Some? {
      credentialsCount := credentialsCount + 1;
      allErrors := validators.azure(credentials.azure.value, path + ["azureCredentials"]);
    }
    if credentials.aws.Some? {
      credentialsCount := credentialsCount + 1;
      allErrors := validators.aws(credentials.aws.value, path + ["awsCredentials"]);
    }
    if credentials.google.Some? {
      credentialsCount := credentialsCount + 1;
      allErrors := validators.google(credentials.google.value, GoogleCredentialsPath);
    }
    assert credentialsCount == ProviderCount(credentials);
    assert allErrors == LastProviderErrors(credentials, path, validators);
    if credentialsCount == 0 {
      allErrors := allErrors + [Invalid(path, MissingCredentialsDetail)];
    }
    if credentialsCount > 1 {
      allErrors := allErrors + [Invalid(path, TooManyCredentialsDetail)];
    }
  }

  /** ValidateRetentionPolicy: an empty policy is valid; otherwise a policy the parser
      rejects gets exactly one error. */
  method ValidateRetentionPolicy(retentionPolicy: string, path: Path, parsePolicy: string -> Result<string>)
    returns (allErrors: seq<FieldError>)
    ensures retentionPolicy == "" ==> allErrors == []
    ensures retentionPolicy != "" && parsePolicy(retentionPolicy).Success? ==> allErrors == []
    ensures retentionPolicy != "" && parsePolicy(retentionPolicy).Failure? ==>
      allErrors == [Invalid(path, InvalidRetentionPolicyDetail)]
  {
    allErrors := [];
    if retentionPolicy == "" {
      return [];
    }
    var parsed := parsePolicy(retentionPolicy);
    if parsed.Failure? {
      allErrors := allErrors + [Invalid(path, InvalidRetentionPolicyDetail)];
    }
  }
}
