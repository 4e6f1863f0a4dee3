# barman-cloud core, modelled in Dafny

This project models the decision logic of cloudnative-pg/barman-cloud. That Go library
lets a PostgreSQL operator drive Barman's cloud tools:

- barman-cloud-backup, -backup-delete, -backup-keep
- barman-cloud-wal-archive, -wal-restore, -check-wal-archive

The model covers:

- **Catalog.** How the backup catalog decides which backups are done and parses their
  times. How it picks the backup a point-in-time recovery starts from: by ID, target
  time, target LSN or timeline.
- **Command lines.** How the command line of every tool is assembled: endpoint, cloud
  provider, data/WAL options, tags, the user's extra arguments that never override
  declared ones, destination and server name.
- **Credentials.** How the `KEY=value` environment with cloud credentials is built from
  Kubernetes secrets, in a fixed order. It fails without leaving a partial environment.
- **WAL archiving and restoring.**
  - Which `.ready` WAL files are archived together.
  - The spool of prefetched WAL files, with its end-of-WAL-stream flag.
  - The per-slot results of the parallel archive/restore lists.
  - How barman-cloud-wal-restore's exit codes are classified.
- **Admission checks.** The webhook checks on the object-store configuration, and the
  capability gates on the installed Barman version.

Helpers outside the core are parameters of the model:

- the capability probe
- the tag formatter
- the retention-policy parser
- the time, target-time and LSN parsers
- the sort order
- subprocess runs
- filesystem faults
- the Google credentials file write
- the per-provider webhook validators

Each tool's command line is specified by a function. Its contract states:

- the whole argument list, as the concatenation of its parts in the order the source
  appends them (leading options, section flags, extra arguments, tags, endpoint,
  provider, positional arguments);
- which error wins when a part fails.

The user's extra arguments are kept by an order-preserving filter (KeptArgs). It drops
every argument whose flag an earlier option already carries.

The Go builders grow a slice one `append` at a time. They are modelled as methods that
do the same and are proved equal to the function. Objects whose state changes are
classes:

- the spool (its set of file names)
- the catalog (its list, which sorting reorders)
- the WAL archiver
- the WAL restorer

Goroutines that each fill their own slot are modelled as sequential loops with per-slot
invariants.

Modules, in dependency order:

- `Common`: options, results, errors, `strconv.Itoa` with its inverse, and the flag of
  an argument.
- `Capabilities`
- `BarmanApi`: the configuration types, and the merging of extra arguments.
- `CommandBuilder`
- `Backup`
- `Spool`
- `WalArchive`
- `Archiver`
- `BackupDelete`
- `BackupKeep`
- `Credentials`
- `Restorer`
- `Webhooks`
- `Catalog`

## Model

| member | source | states |
|---|---|---|
| Catalog.IsBackupDone | pkg/catalog/catalog.go:369-371 | a backup is done exactly when both its begin and end instants differ from the zero time |
| Catalog.ParseTimeWithFallbackLayout | pkg/catalog/catalog.go:355-367 | the primary layout's result when it parses; else the fallback's result when that parses; else an error, which is the primary layout's |
| Catalog.TryParseIsoOrCtimeTime | pkg/catalog/catalog.go:340-353 | a non-empty ISO field is parsed as RFC 3339; else a non-empty ctime field goes through the ctime-then-RFC-3339 fallback; both empty give the zero time and no error |
| Catalog.DeserializeBackupTimeStrings | pkg/catalog/catalog.go:325-338 | only the begin and end instants change; a begin-time error stops before the end time is set; otherwise the end-time error is the result |
| Catalog.EmptyTimesAreNotDone | pkg/catalog/catalog.go:340-353 | a backup whose begin or end time strings are all empty deserializes to a backup that is not done |
| Catalog.NewBackupFromBarmanCloudBackupShow | pkg/catalog/catalog.go:305-319 | succeeds exactly when the time strings deserialize, returning the deserialized backup |
| Catalog.NumericTimelineMatch | pkg/catalog/catalog.go:57 | a numeric target timeline matches exactly the backups on that timeline ("" and "latest" match every timeline) |
| Catalog.LastIndexWhere | pkg/catalog/catalog.go:178-190 | the highest index whose element satisfies the condition, with none satisfying it above; -1 when none does |
| Catalog.FirstIndexWhere | pkg/catalog/catalog.go:237-244 | the lowest index whose element satisfies the condition, with none satisfying it below; the length when none does |
| Catalog.LastIndexWhereMonotone | pkg/catalog/catalog.go:201-212 | a weaker condition is met at the same index or later |
| Catalog.LatestFromTimeline | pkg/catalog/catalog.go:216-230 | no result iff no done backup is on the timeline; otherwise a done, timeline-matching backup with none such after it |
| Catalog.ClosestFromTargetTime | pkg/catalog/catalog.go:193-214 | an unparsable target is an error; otherwise the last done, timeline-matching backup with end time not after the target, or none when there is no such backup |
| Catalog.ClosestFromTargetLsn | pkg/catalog/catalog.go:170-191 | an unparsable target is an error; otherwise the last done, timeline-matching backup whose end LSN is strictly below the target, or none |
| Catalog.BackupFromId | pkg/catalog/catalog.go:232-245 | an empty ID is an error; otherwise the first done backup with that ID, and "no backup found with ID" exactly when no done backup has it |
| Catalog.TargetTimeMonotone | pkg/catalog/catalog.go:193-214 | a later target time never selects a backup earlier in the catalog |
| Catalog.LateTargetTimeIsLatest | pkg/catalog/catalog.go:193-230 | a target time after every backup's end selects the same backup as the timeline-only search |
| Catalog.Insert | pkg/catalog/catalog.go:379 | inserting into a sorted list keeps it sorted and adds exactly the element |
| Catalog.SortByKey | pkg/catalog/catalog.go:379 | the result is sorted by the catalog order and is a permutation of the input |
| Catalog.Catalog.NewCatalog | pkg/catalog/catalog.go:375-382 | the catalog holds a sorted permutation of the given backups |
| Catalog.Catalog.Sort | pkg/catalog/catalog.go:66 | sorting leaves a sorted permutation of the list |
| Catalog.Catalog.LatestBackupInfo | pkg/catalog/catalog.go:60-76 | nothing for an empty catalog (left unsorted); otherwise the catalog is sorted and the result is the done backup with the highest index, or nothing |
| Catalog.Catalog.GetLastSuccessfulBackupTime | pkg/catalog/catalog.go:79-85 | the end time of the latest done backup, or nothing when there is none; the catalog keeps its backups and ends up sorted unless it was empty |
| Catalog.Catalog.GetBackupIds | pkg/catalog/catalog.go:88-94 | one ID per backup, in catalog order |
| Catalog.Catalog.FirstRecoverabilityPoint | pkg/catalog/catalog.go:98-116 | the END time of the lowest-index done backup after sorting; nothing for an empty catalog or when no backup is done |
| Catalog.Catalog.GetFirstRecoverabilityPoint | pkg/catalog/catalog.go:119-121 | the end time of the first done backup in sorted order, or nothing; the catalog keeps its backups and ends up sorted unless it was empty |
| Catalog.Catalog.FindClosestBackupFromTargetLsn | pkg/catalog/catalog.go:170-191 | the backward scan returns ClosestFromTargetLsn |
| Catalog.Catalog.FindClosestBackupFromTargetTime | pkg/catalog/catalog.go:193-214 | the backward scan returns ClosestFromTargetTime |
| Catalog.Catalog.FindLatestBackupFromTimeline | pkg/catalog/catalog.go:216-230 | the backward scan returns LatestFromTimeline |
| Catalog.Catalog.FindBackupFromId | pkg/catalog/catalog.go:232-245 | the forward scan returns BackupFromId |
| Catalog.Catalog.FindBackupInfo | pkg/catalog/catalog.go:137-168 | a non-empty backup ID decides alone on the unsorted catalog; otherwise the catalog is sorted, then target time wins over target LSN, which wins over the latest backup of the timeline |
| Catalog.DeserializeAll | pkg/catalog/catalog.go:44-48 | succeeds iff every backup's times deserialize, giving each backup deserialized in place |
| Catalog.DeserializeAllFails | pkg/catalog/catalog.go:44-48 | the first backup whose times do not parse decides the error |
| Catalog.NewCatalogFromBarmanCloudBackupList | pkg/catalog/catalog.go:38-55 | a deserialization error yields no catalog; otherwise a fresh catalog holding a sorted permutation of the deserialized backups |
| Capabilities.ShouldExecuteBackupWithName | pkg/capabilities/type.go:50-56 | false whenever the executor forces the legacy backup, otherwise exactly the name capability |
| Capabilities.HasCompression | pkg/capabilities/type.go:59-71 | false for a nil receiver, otherwise true iff the compression is among the supported ones |
| Common.FlagKeyOfAssignment | pkg/api/config_test.go:71-105 | the flag of `key=value`, or of an argument without '=', is the text before '=' |
| Common.DecimalRoundTrip | pkg/catalog/catalog.go:183 | reading back the decimal rendering of a number gives the number |
| Common.ItoaInjective | pkg/catalog/catalog.go:183 | distinct timelines have distinct strconv.Itoa renderings |
| BarmanApi.AppendAdditionalCommandArgs | pkg/api/config_test.go:71-105 | the options are kept as a prefix; the appended part is KeptArgs of the extra arguments, so it holds exactly the extra arguments whose flag no option carries, in their original order |
| BarmanApi.KeptArgsAppend | pkg/api/config_test.go:71-105 | the kept arguments of a concatenation are the kept arguments of each part, one after the other, so the filter preserves order |
| BarmanApi.KeptArgsSingle | pkg/api/config_test.go:92-105 | one argument is dropped exactly when its flag is already present |
| BarmanApi.KeptArgsAllFresh | pkg/api/config_test.go:72-78 | extra arguments with new flags are all appended, in their order |
| BarmanApi.ExtraArgsNeverOverride | pkg/archiver/command_test.go:69-94 | no appended extra argument carries the flag of an option already present, and every option keeps its position |
| CommandBuilder.CheckUseDefaultAzureCredentials | pkg/command/commandbuilder.go:155-165 | true exactly when the context value is the boolean true |
| CommandBuilder.ProviderOptions | pkg/command/commandbuilder.go:92-148 | AWS: "--cloud-provider aws-s3" only with S3 support, never failing. Azure: fails without Azure support; adds "--credential managed-identity" exactly when inheriting from Azure AD without default credentials, and fails when that lacks managed-identity support. Google: fails exactly without Google support. No provider: nothing |
| CommandBuilder.ProviderPrecedence | pkg/command/commandbuilder.go:92-148 | AWS hides Azure and Google, and Azure hides Google |
| CommandBuilder.CloudProviderOptions | pkg/command/commandbuilder.go:80-149 | a failing capability probe is returned; on success the input options are a prefix followed by exactly the provider's arguments |
| CommandBuilder.AppendCloudProviderOptions | pkg/command/commandbuilder.go:80-149 | the step-by-step appends yield CloudProviderOptions |
| CommandBuilder.EndpointOptions | pkg/command/commandbuilder.go:36-41 | "--endpoint-url URL" iff an endpoint is configured |
| CommandBuilder.TagOptions | pkg/archiver/command.go:142-156 | the formatter is consulted only when there are tags |
| CommandBuilder.ServerNameFor | pkg/command/commandbuilder.go:48-51 | a configured server name overrides the cluster name |
| CommandBuilder.WalRestoreOptions | pkg/command/commandbuilder.go:30-57 | fails exactly when the provider options fail; otherwise endpoint, provider, destination and server name, then KeptArgs of the restore extra arguments; without a wal section nothing is appended |
| CommandBuilder.CloudWalRestoreOptions | pkg/command/commandbuilder.go:30-57 | the step-by-step construction yields WalRestoreOptions |
| Backup.DataConfiguration | pkg/backup/backup.go:55-93 | no data section: options unchanged; fails exactly for snappy without snappy support; otherwise compression, encryption, immediate checkpoint and jobs follow the options in that order, then the extra arguments |
| Backup.GetDataConfiguration | pkg/backup/backup.go:55-93 | the step-by-step construction yields DataConfiguration |
| Backup.BackupOptions | pkg/backup/backup.go:97-142 | the leading block ("--user postgres", then "--name <backupName>" exactly when backups are named) with the data section's flags and extra arguments, then the tags, the endpoint, the provider's arguments, destination and server name; data, tag and provider errors are propagated in that order |
| Backup.GetBarmanCloudBackupOptions | pkg/backup/backup.go:97-142 | the step-by-step construction yields BackupOptions |
| Backup.IsCompatible | pkg/backup/backup.go:173-184 | an error exactly when PostgreSQL's major version is 15 and Barman's is below 3 |
| Backup.BackupRunError | pkg/backup/backup.go:209-219 | a run error whose text is "3" becomes the invalid-arguments error; others pass through |
| Backup.Take | pkg/backup/backup.go:187-222 | an options error stops before running; otherwise barman-cloud-backup runs with those options and TMPDIR appended to the environment, and its error is classified |
| Spool.MoveOutError | pkg/restorer/restorer.go:94-106 | moving out succeeds exactly when no fault occurs and the file is present; an absent file gives the non-existent-file error |
| WalArchive.ArchiveInvocation | pkg/walarchive/cmd.go:68-82 | runs barman-cloud-wal-archive with the base options followed by the WAL name, with the archiver's environment |
| WalArchive.ArchiveError | pkg/walarchive/cmd.go:66-97 | an overlong option list is refused; a run failure is an error and skips the empty-file cleanup; otherwise the cleanup's result |
| WalArchive.Archive | pkg/walarchive/cmd.go:66-97 | returns ArchiveError, and runs the subprocess exactly when the options are not too long |
| WalArchive.ListEntryError | pkg/walarchive/cmd.go:112-119 | touch is called only after a successful archive of a slot other than 0, and its error becomes the slot's error |
| WalArchive.ArchiveList | pkg/walarchive/cmd.go:100-145 | one result per WAL, in order, slot i naming the i-th WAL and carrying ListEntryError |
| WalArchive.WrappedArchiveList | pkg/walarchive/cmd.go:38-47 | no error iff every slot succeeds; otherwise the error of the lowest-index failing slot |
| WalArchive.CheckWalArchiveDestination | pkg/walarchive/cmd.go:153-188 | a failing probe or a Barman without check support stops early; otherwise the run's error is wrapped |
| Archiver.Candidates | pkg/archiver/command.go:64-104 | at most one candidate per listed entry |
| Archiver.CandidatesMembers | pkg/archiver/command.go:86-100 | a path is a candidate iff it is the pg_wal path of a non-directory entry ending in ".ready", with the suffix stripped, whose name is not a suffix of the requested WAL |
| Archiver.CandidatesOfPrefix | pkg/archiver/command.go:64-104 | the candidates of a prefix of the listing are a prefix of the candidates |
| Archiver.WalFilesToArchiveProperties | pkg/archiver/command.go:41-111 | element 0 is the requested WAL; at most max(1, parallel) files; an unreadable directory or parallel at most 1 gives only the requested WAL; the rest are the first candidates, all of them when fewer than parallel |
| Archiver.WalArchiver.GatherWALFilesToArchive | pkg/archiver/command.go:41-111 | the walk with early exit yields WalFilesToArchive |
| Archiver.WalArchiver.WalArchiveOptions | pkg/archiver/command.go:115-172 | exactly the wal section's options, then the endpoint, then the tags and history tags, then the provider's arguments, then destination and server name; a tag, history-tag or provider error aborts with no options |
| Archiver.WalArchiver.BarmanCloudWalArchiveOptions | pkg/archiver/command.go:115-172 | the step-by-step construction yields WalArchiveOptions |
| Archiver.WalArchiver.DeleteFromSpool | pkg/archiver/archiver.go:101-112 | an absent WAL or a lookup error leaves the spool unchanged and reports false; a present WAL is removed and reports true |
| Archiver.WalArchiver.ArchiveList | pkg/archiver/archiver.go:115-130 | the results have the same length and order as the inner results, each field copied |
| Archiver.WalArchiver.CheckWalArchiveDestination | pkg/archiver/archiver.go:138-140 | a probe failure is returned; without the check tool nothing runs; otherwise the check runs with the given options and its failure is returned wrapped as an archive invocation failure |
| Archiver.WalArchiver.CheckWalArchiveOptions | pkg/archiver/archiver.go:144-170 | the endpoint, then the provider options, then destination and server name; fails exactly when the provider fails |
| Archiver.WalArchiver.BarmanCloudCheckWalArchiveOptions | pkg/archiver/archiver.go:144-170 | the step-by-step construction yields CheckWalArchiveOptions |
| Archiver.WalOptions | pkg/archiver/command.go:120-134 | without a wal section nothing; otherwise the compression and encryption flags, then KeptArgs of the archive extra arguments |
| BackupDelete.DeleteOptions | pkg/command/backupdelete.go:34-76 | a probe failure is returned; no retention-policy support fails before any argument; otherwise fails exactly when the provider or the policy parser fails; a provider failure is returned as is; on success exactly the endpoint, the provider's arguments, "--retention-policy", the parsed policy, destination and server name |
| BackupDelete.DeleteBackupsByPolicy | pkg/command/backupdelete.go:34-95 | an options error stops before running; otherwise the command runs with those options and its error is returned unchanged |
| BackupKeep.KeepBackupOptions | pkg/command/backupkeep.go:29-56 | fails exactly when the provider fails, with its error; otherwise exactly the endpoint, the provider's arguments, "--target <target>" when keeping or "--release" otherwise, then destination, server name and backup name |
| BackupKeep.KeepBackup | pkg/command/backupkeep.go:29-76 | an options error stops before running; otherwise the command runs and its error is returned |
| Credentials.ExtractValueFromSecret | pkg/credentials/env.go:327-345 | the value exactly when the secret exists and has the key; a missing secret and a missing key are distinct errors |
| Credentials.AppendVariables | pkg/credentials/env.go:170-198 | succeeds iff every set reference resolves; on success the environment is a prefix and one variable is added per set reference |
| Credentials.AppendVariablesOrder | pkg/credentials/env.go:170-198 | a set reference's assignment sits right after the environment and the earlier set references, in order |
| Credentials.AppendVariablesError | pkg/credentials/env.go:152-154 | the first unresolvable reference decides the error |
| Credentials.AwsEnv | pkg/credentials/env.go:126-201 | never a partial environment; a missing S3 section, access key or secret key is an error; otherwise the first unresolvable reference (access key, secret key, then region and token) decides the error; inheriting from an IAM role leaves the environment unchanged; otherwise the optional region and session token come first, and the access key and secret key come last |
| Credentials.EnvSetAwsCredentials | pkg/credentials/env.go:126-201 | the step-by-step appends yield AwsEnv |
| Credentials.AzureEnv | pkg/credentials/env.go:205-277 | inheriting from Azure AD leaves the environment unchanged; otherwise fails iff a set reference is unresolvable, with AppendVariables' error; on success the environment is AppendVariables of account, key, SAS token and connection string, each appended iff set, in that order |
| Credentials.AppendAzureVariable | pkg/credentials/env.go:217-274 | an unset reference adds nothing; a set one adds its assignment or fails |
| Credentials.EnvSetAzureCredentials | pkg/credentials/env.go:205-277 | the step-by-step appends yield AzureEnv |
| Credentials.GoogleEnv | pkg/credentials/env.go:279-325 | in GKE without credentials the environment is unchanged; otherwise the credentials file is written and GOOGLE_APPLICATION_CREDENTIALS is appended, and any failure leaves no environment |
| Credentials.EnvSetGoogleCredentials | pkg/credentials/env.go:279-325 | the step-by-step version yields GoogleEnv |
| Credentials.CloudEnv | pkg/credentials/env.go:106-122 | AWS first, then Google, else Azure; no provider at all gives "missing Azure credentials" |
| Credentials.EnvSetCloudCredentials | pkg/credentials/env.go:106-122 | yields CloudEnv |
| Credentials.CaBundleEnv | pkg/credentials/env.go:96-100 | AWS_CA_BUNDLE iff a CA and AWS are set; otherwise REQUESTS_CA_BUNDLE iff a CA and Azure are set; otherwise nothing |
| Credentials.EnvSetCloudCredentialsAndCertificates | pkg/credentials/env.go:88-102 | the CA bundle variable first, then the provider's credentials |
| Credentials.CredentialsOnlyAppend | pkg/credentials/env.go:88-122 | a successful assembly only appends to the given environment |
| Credentials.EnvSetBackupCloudCredentials | pkg/credentials/env.go:61-70 | uses the backup CA location |
| Credentials.EnvSetRestoreCloudCredentials | pkg/credentials/env.go:74-83 | uses the restore CA location |
| Restorer.ExitCodeError | pkg/restorer/restorer.go:255-271 | exit code 1 alone means "WAL not found"; 2, 3 and 4 give the connectivity, invalid-name and generic errors; any other code is unrecognized |
| Restorer.ExitCodeErrorInjective | pkg/restorer/restorer.go:255-271 | distinct exit codes are reported as distinct errors |
| Restorer.RestoreRunError | pkg/restorer/restorer.go:242-271 | no error iff the run succeeded; a "not found" error iff exit code 1; a failure that is not an exit status is wrapped as unexpected |
| Restorer.WalRestorer.RestoreFromSpool | pkg/restorer/restorer.go:94-106 | true iff the file was moved out of the spool; an absent file gives false and no error; other errors give false and the error |
| Restorer.WalRestorer.IsEndOfWalStream | pkg/restorer/restorer.go:128-135 | reports whether the flag file is in the spool; a lookup error is wrapped |
| Restorer.WalRestorer.SetEndOfWalStream | pkg/restorer/restorer.go:109-125 | idempotent: a present flag changes nothing; otherwise it is created; on success the flag is present |
| Restorer.WalRestorer.ResetEndOfWalStream | pkg/restorer/restorer.go:138-145 | on success the flag is absent; a removal error is wrapped and changes nothing |
| Restorer.WalRestorer.RestoreInvocation | pkg/restorer/restorer.go:229-240 | runs barman-cloud-wal-restore with the base options followed by the WAL name and the destination, with the restorer's environment |
| Restorer.WalRestorer.RestoreError | pkg/restorer/restorer.go:229-271 | an overlong option list is refused; otherwise the run's outcome is classified |
| Restorer.WalRestorer.Restore | pkg/restorer/restorer.go:218-272 | returns RestoreError, and runs the subprocess exactly when the options are not too long |
| Restorer.WalRestorer.SlotDestination | pkg/restorer/restorer.go:162-170 | slot 0 goes to the requested destination, every other slot into the spool |
| Restorer.WalRestorer.RestoreList | pkg/restorer/restorer.go:149-215 | one result per WAL of the fetch list, in order, slot i naming the i-th WAL with its slot destination and its restore error |
| Webhooks.ValidateBackupConfiguration | pkg/api/webhooks/config.go:27-73 | nil for a missing configuration; exactly the missing-credentials error with no provider; with one provider, that provider's errors; with several, the last provider's errors (Azure, then AWS, then Google) followed by the too-many-credentials error |
| Webhooks.ValidateRetentionPolicy | pkg/api/webhooks/config.go:76-93 | nil for an empty policy or one that parses; exactly one error for one that does not |

## Left out

- **Subprocesses.** Running barman-cloud-* (exec.Command, execlog.RunStreaming,
  cmd.Run, output buffers) is not modelled. Each run is a parameter mapping the
  invocation to its outcome (an error, or an exit code for barman-cloud-wal-restore).
- **Goroutines.** The goroutines and the wait group of ArchiveList and RestoreList are
  run one after the other. Each writes only its own slot, so the per-slot results do not
  depend on the order.
- **Start and end times.** The times of ArchiveList and RestoreList results come from
  the clock and are not modelled.
- **JSON decoding.** NewCatalogFromBarmanCloudBackupList and
  NewBackupFromBarmanCloudBackupShow take backups that are already decoded. The
  json.Unmarshal step and its error return (pkg/catalog/catalog.go:39-42 and 308-311)
  are not part of this model.
- **BarmanApi.AppendAdditionalCommandArgs.** The Go appendAdditionalCommandArgs is not
  part of this model; only its tests are (pkg/api/config_test.go:71-105 and
  pkg/archiver/command_test.go:69-94). KeptArgs is a definition that agrees with every
  case those tests pin. Two cases are not pinned by them and are the model's choice:
  - repeated extra arguments (`--x`, `--x` with no matching option) are all kept,
    because extras are filtered only against the options they are appended to;
  - an extra argument with an empty flag (`""` or `=v`) is kept unless an option also
    has an empty flag.
- **Foreign helpers.** These are parameters whose behaviour is not modelled:
  - Go's time.Parse layouts
  - the recovery target-time parser
  - LSN parsing and ordering
  - MapToBarmanTagsFormat
  - ParsePolicy
  - CurrentCapabilities
  - the per-provider credential validators of the webhook
- **Validator examples.** The examples pinned on ParsePolicy ("90d" accepted, "09"
  rejected) depend on the parser and are not restated.
- **Sort order.** The catalog's Less, Len and Swap are not part of this model. The
  order is a key function, and sorting is specified as yielding some sorted permutation.
  Stability and the particular permutation sort.Sort picks among equal keys are not
  modelled.
- **Catalog.Catalog.LatestBackupInfo.** Go returns a pointer into the list. The model
  returns the backup's value, so aliasing is not captured. The same holds for the find*
  methods.
- **Catalog.DeserializeBackupTimeStrings.** It writes the two time fields of the Go
  struct in place. The model returns the updated value instead.
- **GetBackupMethod.** Kept only as the constant `Catalog.BackupMethod`.
- **GetExecutedBackupInfo** (pkg/backup/backup.go:145-170). It only forwards to
  catalog queries in a package that is not part of this model.
- **Directory walk.**
  - The walk of pg_wal (filepath.WalkDir) is given as a listing of its entries in
    lexical order. An unreadable root (lstat or ReadDir failing) is one case,
    `Unreadable`.
  - path.Join's cleaning of `..` and repeated slashes is not modelled. Paths are joined
    with "/".
  - PGDATA is read from the process environment in the source. The model takes it as a
    parameter.
- **Archiver.Candidates.** The source tests the ".ready" suffix on the path. The model
  tests the entry name, which is the same test because ".ready" contains no '/'.
- **Spool.** The spool package (pkg/spool) is not part of this model. It is a set of
  file names with these assumptions:
  - removing an absent file is not an error;
  - moving out an absent file gives a "non-existent file" error;
  - every filesystem failure is a `fault` parameter.
- **Files written by subprocesses.** Files that barman-cloud-wal-restore writes into the
  spool, and the archiver's Touch, are not reflected in the spool's set.
- **Kubernetes secrets.** Fetching a secret is a lookup in a map from secret name to
  keys. A failed fetch is reported as "secret not found" (SecretFetchFailed), whatever
  the API server's reason.
- **Google credentials file.** Writing and removing the file is a parameter that may
  fail.
- **Credentials.GoogleEnv.** Without application credentials outside GKE, Go
  dereferences a nil reference and panics. The model reports this as an error
  (NilSecretReference) instead.
- **Webhook field paths.** Field paths are lists of names. The offending value carried
  by field.Invalid is not modelled.
- **Integer widths.** Only the `math.MaxInt` guards of Archive and Restore are modelled.
  Job counts and timelines are unbounded integers.
- **Logging** everywhere is not modelled.
- **Not modelled.**
  - pkg/walarchive/fadvise_linux.go is an OS page-cache hint with no logic to model.
  - commitlint.config.js is a linter setting.
  - pkg/api/webhooks/doc.go is a package comment.
- **Differences between source files.** Each member follows its own file's text:
  - pkg/backup/backup.go reads a HasSnappy capability that pkg/capabilities/type.go
    does not declare. The model's Capabilities carries it.
  - pkg/archiver/archiver.go:156 calls the provider-options helper without a context.
    The model uses an unset context value there.
  - The check-wal-archive failure is wrapped with the same error constructor as an
    archive failure.
