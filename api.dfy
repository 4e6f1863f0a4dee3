/** The object-store configuration the builders read (the Go package pkg/api, whose
    type declarations are not part of this model; the fields below are the ones the
    core reads), and the merging of user-supplied extra command arguments. */
module BarmanApi {
  import opened Common

  /** A reference to one key of a Kubernetes secret. */
  datatype SecretKeySelector = SecretKeySelector(name: string, key: string)

  datatype S3Credentials = S3Credentials(
    accessKeyIdReference: Option<SecretKeySelector>,
    secretAccessKeyReference: Option<SecretKeySelector>,
    regionReference: Option<SecretKeySelector>,
    sessionToken: Option<SecretKeySelector>,
    inheritFromIamRole: bool
  )

  datatype AzureCredentials = AzureCredentials(
    connectionString: Option<SecretKeySelector>,
    storageAccount: Option<SecretKeySelector>,
    storageKey: Option<SecretKeySelector>,
    storageSasToken: Option<SecretKeySelector>,
    inheritFromAzureAd: bool
  )

  datatype GoogleCredentials = GoogleCredentials(
    applicationCredentials: Option<SecretKeySelector>,
    gkeEnvironment: bool
  )

  /** At most one provider is meant to be set; the code nevertheless decides by a
      fixed precedence when several are. */
  datatype BarmanCredentials = BarmanCredentials(
    azure: Option<AzureCredentials>,
    aws: Option<S3Credentials>,
    google: Option<GoogleCredentials>
  )

  datatype DataBackupConfiguration = DataBackupConfiguration(
    compression: string,
    encryption: string,
    immediateCheckpoint: bool,
    jobs: Option<int>,
    additionalCommandArgs: seq<string>
  )

  datatype WalBackupConfiguration = WalBackupConfiguration(
    compression: string,
    encryption: string,
    archiveAdditionalCommandArgs: seq<string>,
    restoreAdditionalCommandArgs: seq<string>
  )

  datatype BarmanObjectStoreConfiguration = BarmanObjectStoreConfiguration(
    credentials: BarmanCredentials,
    endpointUrl: string,
    endpointCa: Option<SecretKeySelector>,
    destinationPath: string,
    serverName: string,
    wal: Option<WalBackupConfiguration>,
    data: Option<DataBackupConfiguration>,
    tags: map<string, string>,
    historyTags: map<string, string>
  )

  const CompressionSnappy: string := "snappy"

  /** The flags already present among some options. */
  function FlagsOf(options: seq<string>): set<string> {
    set o | o in options :: FlagKey(o)
  }

  /** The extra arguments whose flag is not among `flags`, in their original order. */
  function KeptArgs(additional: seq<string>, flags: set<string>): (kept: seq<string>)
    ensures |kept| <= |additional|
    ensures forall a :: a in kept <==> a in additional && FlagKey(a) !in flags
  {
    if additional == [] then []
    else
      (if FlagKey(additional[0]) in flags then [] else [additional[0]])
      + KeptArgs(additional[1..], flags)
  }

  /** KeptArgs is a filter that keeps the order: the arguments kept from a
      concatenation are those kept from each part, one after the other. */
  lemma {:induction false} KeptArgsAppend(a: seq<string>, b: seq<string>, flags: set<string>)
    ensures KeptArgs(a + b, flags) == KeptArgs(a, flags) + KeptArgs(b, flags)
    decreases |a|
  {
    if a == [] {
      assert a + b == b;
    } else {
      assert (a + b)[0] == a[0];
      assert (a + b)[1..] == a[1..] + b;
      KeptArgsAppend(a[1..], b, flags);
    }
  }

  /** A single argument is kept exactly when its flag is not among `flags`. */
  lemma KeptArgsSingle(a: string, flags: set<string>)
    ensures FlagKey(a) in flags ==> KeptArgs([a], flags) == []
    ensures FlagKey(a) !in flags ==> KeptArgs([a], flags) == [a]
  {
    assert [a][1..] == [];
  }

  /** Arguments none of whose flags is among `flags` are all kept, in order. */
  lemma {:induction false} KeptArgsAllFresh(additional: seq<string>, flags: set<string>)
    requires forall i :: 0 <= i < |additional| ==> FlagKey(additional[i]) !in flags
    ensures KeptArgs(additional, flags) == additional
    decreases |additional|
  {
    if additional != [] {
      KeptArgsAllFresh(additional[1..], flags);
    }
  }

  /** appendAdditionalCommandArgs, as its tests pin it: the user's extra arguments go
      after the options, except those whose flag (the text before '=') an option
      already carries. */
  function AppendAdditionalCommandArgs(additional: seq<string>, options: seq<string>): (r: seq<string>)
    ensures options <= r
    ensures additional == [] ==> r == options
    ensures forall a :: a in r[|options|..] <==> a in additional && FlagKey(a) !in FlagsOf(options)
    // the appended part is the order-preserving filter of the extra arguments
    ensures r[|options|..] == KeptArgs(additional, FlagsOf(options))
  {
    options + KeptArgs(additional, FlagsOf(options))
  }

  /** An existing option is never repeated nor overridden by an extra argument: no
      appended argument carries the flag of an option that was already there. */
  lemma ExtraArgsNeverOverride(additional: seq<string>, options: seq<string>, i: int, j: int)
    requires 0 <= i < |options| <= j < |AppendAdditionalCommandArgs(additional, options)|
    ensures AppendAdditionalCommandArgs(additional, options)[i] == options[i]
    ensures FlagKey(AppendAdditionalCommandArgs(additional, options)[j]) != FlagKey(options[i])
  {
    var r := AppendAdditionalCommandArgs(additional, options);
    assert r[j] in r[|options|..];
    assert FlagKey(options[i]) in FlagsOf(options);
  }

  /** DataBackupConfiguration.AppendAdditionalCommandArgs */
  function AppendDataAdditionalCommandArgs(data: DataBackupConfiguration, options: seq<string>): seq<string> {
    AppendAdditionalCommandArgs(data.additionalCommandArgs, options)
  }

  /** WalBackupConfiguration.AppendArchiveAdditionalCommandArgs */
  function AppendArchiveAdditionalCommandArgs(wal: WalBackupConfiguration, options: seq<string>): seq<string> {
    AppendAdditionalCommandArgs(wal.archiveAdditionalCommandArgs, options)
  }

  /** WalBackupConfiguration.AppendRestoreAdditionalCommandArgs, which is called on a
      possibly nil section and then leaves the options alone. */
  function AppendRestoreAdditionalCommandArgs(wal: Option<WalBackupConfiguration>, options: seq<string>): (r: seq<string>)
    ensures wal.None? ==> r == options
  {
    if wal.None? then options else AppendAdditionalCommandArgs(wal.value.restoreAdditionalCommandArgs, options)
  }
}
