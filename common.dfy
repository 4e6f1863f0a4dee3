/** Values shared by every package of the model: optional values, results carrying
    the errors the Go code returns, subprocess invocations, and the few string
    functions of Go's standard library (strings, strconv) that the core relies on. */
module Common {

  datatype Option<+T> = None | Some(value: T)

  /** A Go `(T, error)` pair in which exactly one side is meaningful. */
  datatype Result<+T> = Success(value: T) | Failure(error: Error)

  /** The errors of the modelled code, one constructor per message it formats. */
  datatype Error =
    // An error produced by code outside the model (capability probe, tag formatter,
    // policy parser, time or LSN parser, subprocess, filesystem, Kubernetes API);
    // `text` is what its Error() method returns.
    | External(text: string)
      // pkg/catalog
    | TargetTimeUnparsable(cause: Error)
    | TargetLsnUnparsable(cause: Error)
    | NoBackupIdProvided
    | NoBackupFoundWithId(id: string)
      // pkg/command
    | AzureRequiresBarman213
    | AzureManagedIdentityRequiresBarman218
    | GoogleRequiresBarman219
    | RetentionPolicyRequiresBarman214(major: int, minor: int, patch: int)
      // pkg/backup
    | SnappyUnsupported
    | PostgresUnsupported(postgresMajor: int, barmanMajor: int)
    | InvalidBackupArguments
      // pkg/credentials
    | MissingS3Credentials
    | MissingAccessKeyId
    | MissingSecretAccessKey
    | MissingAzureCredentials
    | SecretFetchFailed(secretName: string)
    | MissingSecretKey(key: string, secretName: string)
    | NilSecretReference
      // pkg/restorer, pkg/walarchive and the spool
    | OptionsTooLong(walName: string)
    | WalNotFound(walName: string)
    | ConnectivityFailure
    | InvalidWalFileName(walName: string)
    | GenericRestoreFailure
    | UnrecognizedExitCode(code: int)
    | UnexpectedRestoreFailure(walName: string, cause: Error)
    | ArchiveInvocationFailed(cause: Error)
    | EndOfWalStreamCheckFailed(cause: Error)
    | EndOfWalStreamRemoveFailed(cause: Error)
    | NonExistentFile

  /** A subprocess as the code launches it: the tool, its arguments and its environment. */
  datatype Invocation = Invocation(program: string, args: seq<string>, env: seq<string>)

  /** The barman-cloud tools the modelled code runs. */
  const BarmanCloudBackup: string := "barman-cloud-backup"
  const BarmanCloudBackupDelete: string := "barman-cloud-backup-delete"
  const BarmanCloudBackupKeep: string := "barman-cloud-backup-keep"
  const BarmanCloudWalArchive: string := "barman-cloud-wal-archive"
  const BarmanCloudCheckWalArchive: string := "barman-cloud-check-wal-archive"
  const BarmanCloudWalRestore: string := "barman-cloud-wal-restore"

  /** Go's `math.MaxInt` on a 64-bit platform. */
  const MaxInt: int := 0x7fff_ffff_ffff_ffff

  function Max(a: int, b: int): int { if a < b then b else a }

  // ---------------------------------------------------------------------------
  // strings.HasSuffix / strings.TrimSuffix

  predicate HasSuffix(s: string, suffix: string) {
    |suffix| <= |s| && s[|s| - |suffix|..] == suffix
  }

  function TrimSuffix(s: string, suffix: string): (r: string)
    ensures HasSuffix(s, suffix) ==> r + suffix == s
    ensures !HasSuffix(s, suffix) ==> r == s
  {
    if HasSuffix(s, suffix) then s[..|s| - |suffix|] else s
  }

  // ---------------------------------------------------------------------------
  // The flag of a command-line argument: `strings.Split(arg, "=")[0]`.

  function FlagKey(arg: string): (key: string)
    ensures key <= arg
    ensures '=' !in key
    ensures |key| < |arg| ==> arg[|key|] == '='
  {
    if arg == [] || arg[0] == '=' then [] else [arg[0]] + FlagKey(arg[1..])
  }

  /** The flag of `key=value` is `key`, and an argument without '=' is its own flag. */
  lemma {:induction false} FlagKeyOfAssignment(key: string, rest: string)
    requires '=' !in key
    requires rest == [] || rest[0] == '='
    ensures FlagKey(key + rest) == key
    decreases |key|
  {
    if key != [] {
      assert (key + rest)[1..] == key[1..] + rest;
      FlagKeyOfAssignment(key[1..], rest);
    } else {
      assert key + rest == rest;
    }
  }

  // ---------------------------------------------------------------------------
  // strconv.Itoa and its inverse on digit strings

  predicate IsDigit(c: char) { '0' <= c <= '9' }

  predicate IsDigits(s: string) { forall i :: 0 <= i < |s| ==> IsDigit(s[i]) }

  function DigitChar(d: nat): (c: char)
    requires d < 10
    ensures IsDigit(c)
  {
    ('0' as int + d) as char
  }

  function DigitValue(c: char): nat
    requires IsDigit(c)
  {
    c as int - '0' as int
  }

  /** The decimal rendering of a natural number, without leading zeros. */
  function NatToDecimal(n: nat): (s: string)
    ensures |s| >= 1 && IsDigits(s)
    decreases n
  {
    if n < 10 then [DigitChar(n)] else NatToDecimal(n / 10) + [DigitChar(n % 10)]
  }

  /** The number a string of decimal digits denotes. */
  function DecimalValue(s: string): nat
    requires IsDigits(s)
  {
    if s == [] then 0 else DecimalValue(s[..|s| - 1]) * 10 + DigitValue(s[|s| - 1])
  }

  lemma {:induction false} DecimalRoundTrip(n: nat)
    ensures DecimalValue(NatToDecimal(n)) == n
    decreases n
  {
    if n >= 10 {
      DecimalRoundTrip(n / 10);
      var s := NatToDecimal(n / 10);
      var t := s + [DigitChar(n % 10)];
      assert t[..|t| - 1] == s;
    }
  }

  /** strconv.Itoa: a leading '-' for negative numbers, then the decimal digits. */
  function Itoa(n: int): string {
    if n < 0 then "-" + NatToDecimal(-n) else NatToDecimal(n)
  }

  /** Itoa never yields the empty string, and its first character is '-' exactly for
      negative numbers and a digit otherwise. */
  lemma ItoaSign(n: int)
    ensures |Itoa(n)| >= 1
    ensures Itoa(n)[0] == '-' <==> n < 0
    ensures n >= 0 ==> IsDigit(Itoa(n)[0])
  {
  }

  /** Distinct numbers have distinct renderings. */
  lemma ItoaInjective(a: int, b: int)
    requires Itoa(a) == Itoa(b)
    ensures a == b
  {
    var sa, sb := Itoa(a), Itoa(b);
    ItoaSign(a);
    ItoaSign(b);
    if a < 0 {
      assert sa[1..] == NatToDecimal(-a) && sb[1..] == NatToDecimal(-b);
      DecimalRoundTrip(-a);
      DecimalRoundTrip(-b);
    } else {
      DecimalRoundTrip(a);
      DecimalRoundTrip(b);
    }
  }
}
