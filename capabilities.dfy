/** What the installed Barman can do (pkg/capabilities/type.go). The probe that fills
    these values in (CurrentCapabilities) is not part of this model: callers receive
    its result as a parameter. */
module Capabilities {
  import opened Common

  /** A semantic version; only the major number is consulted by the core. */
  datatype Version = Version(major: nat, minor: nat, patch: nat)

  datatype Capabilities = Capabilities(
    version: Version,
    hasName: bool,   // not exported in Go: read through ShouldExecuteBackupWithName
    hasAzure: bool,
    hasS3: bool,
    hasGoogle: bool,
    hasRetentionPolicy: bool,
    hasTags: bool,
    hasCheckWalArchive: bool,
    hasErrorCodesForWalRestore: bool,
    hasErrorCodesForRestore: bool,
    hasAzureManagedIdentity: bool,
    // Read by pkg/backup/backup.go, which was written against a version of this
    // type that declares it.
    hasSnappy: bool,
    supportedCompressions: seq<string>
  )

  /** Whether the backup is taken with `--name`: never when the executor forces the
      legacy backup, otherwise exactly when Barman supports backup names.
      `forceLegacy` is what the executor's ShouldForceLegacyBackup answers. */
  function ShouldExecuteBackupWithName(c: Capabilities, forceLegacy: bool): (r: bool)
    ensures forceLegacy ==> !r
    ensures !forceLegacy ==> (r <==> c.hasName)
  {
    if forceLegacy then false else c.hasName
  }

  /** Whether Barman supports a compression; a nil receiver (None) supports none. */
  method HasCompression(c: Option<Capabilities>, compression: string) returns (r: bool)
    ensures c.None? ==> !r
    ensures c.Some? ==> (r <==> compression in c.value.supportedCompressions)
  {
    if c.None? {
      return false;
    }
    var items := c.value.supportedCompressions;
    var i := 0;
    while i < |items|
      invariant 0 <= i <= |items|
      invariant compression !in items[..i]
    {
      if items[i] == compression {
        return true;
      }
      i := i + 1;
    }
    assert items[..i] == items;
    return false;
  }
}
