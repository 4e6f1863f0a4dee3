/** The WAL archiver (pkg/archiver): which WAL files to archive together, the options
    of barman-cloud-wal-archive and barman-cloud-check-wal-archive, and the spool of
    WAL files archived ahead of PostgreSQL's requests. */
module Archiver {
  import opened Common
  import opened BarmanApi
  import opened CommandBuilder
  import opened Spool
  import WalArchive

  /** One entry of the archive_status directory, in the order WalkDir visits them
      (lexical order of the names). */
  datatype DirEntry = DirEntry(name: string, isDir: bool)

  /** The archive_status directory as WalkDir sees it: unreadable (the walk reports an
      error on the root, which the callback skips), or its entries. */
  datatype StatusListing = Unreadable | Listing(entries: seq<DirEntry>)

  const ReadySuffix: string := ".ready"

  /** The WAL an entry announces, when it is a `.ready` file other than the requested
      WAL (whose name ends with it). */
  predicate Eligible(entry: DirEntry, requestedWalFile: string) {
    !entry.isDir
    && HasSuffix(entry.name, ReadySuffix)
    && !HasSuffix(requestedWalFile, TrimSuffix(entry.name, ReadySuffix))
  }

  /** Every WAL of the listing that may be archived beside the requested one, as a
      path in pg_wal, in listing order. */
  function Candidates(pgWalDirectory: string, requestedWalFile: string, entries: seq<DirEntry>): (r: seq<string>)
    ensures |r| <= |entries|
  {
    if entries == [] then []
    else
      var last := entries[|entries| - 1];
      Candidates(pgWalDirectory, requestedWalFile, entries[..|entries| - 1])
      + (if Eligible(last, requestedWalFile) then [JoinPath(pgWalDirectory, TrimSuffix(last.name, ReadySuffix))] else [])
  }

  /** A path is a candidate exactly when some eligible entry of the listing names it. */
  lemma {:induction false} CandidatesMembers(pgWalDirectory: string, requestedWalFile: string, entries: seq<DirEntry>, w: string)
    ensures w in Candidates(pgWalDirectory, requestedWalFile, entries) <==>
      exists e :: e in entries && Eligible(e, requestedWalFile) && w == JoinPath(pgWalDirectory, TrimSuffix(e.name, ReadySuffix))
    decreases |entries|
  {
    if entries != [] {
      var init := entries[..|entries| - 1];
      var last := entries[|entries| - 1];
      assert entries == init + [last];
      CandidatesMembers(pgWalDirectory, requestedWalFile, init, w);
      if w in Candidates(pgWalDirectory, requestedWalFile, entries) {
        if w !in Candidates(pgWalDirectory, requestedWalFile, init) {
          assert last in entries;
        }
      } else {
        forall e | e in entries && Eligible(e, requestedWalFile)
          ensures w != JoinPath(pgWalDirectory, TrimSuffix(e.name, ReadySuffix))
        {
          if e != last {
            assert e in init;
          }
        }
      }
    }
  }

  /** A listing's candidates start with the candidates of any of its prefixes. */
  lemma {:induction false} CandidatesOfPrefix(pgWalDirectory: string, requestedWalFile: string, entries: seq<DirEntry>, i: nat)
    requires i <= |entries|
    ensures Candidates(pgWalDirectory, requestedWalFile, entries[..i]) <= Candidates(pgWalDirectory, requestedWalFile, entries)
    decreases |entries|
  {
    if i < |entries| {
      var init := entries[..|entries| - 1];
      assert entries[..i] == init[..i];
      CandidatesOfPrefix(pgWalDirectory, requestedWalFile, init, i);
    } else {
      assert entries[..i] == entries;
    }
  }

  /** The first `n` elements of `s`, or all of them when it is shorter; none for a
      non-positive `n`. */
  function Prefix<T>(s: seq<T>, n: int): (r: seq<T>)
    ensures r <= s
    ensures |r| == if n <= 0 then 0 else if n < |s| then n else |s|
  {
    if n <= 0 then [] else if n < |s| then s[..n] else s
  }

  /** What GatherWALFilesToArchive returns. */
  function WalFilesToArchive(pgWalDirectory: string, requestedWalFile: string, parallel: int, listing: StatusListing)
    : seq<string>
  {
    [requestedWalFile]
    + (if listing.Unreadable? then [] else Prefix(Candidates(pgWalDirectory, requestedWalFile, listing.entries), parallel - 1))
  }

  /** The requested WAL always comes first, and alone when the directory cannot be
      read; no more than `parallel` WALs are returned (and at least one); the others
      are the first ready WALs of the listing, each the path of a ready file whose WAL
      name is not a suffix of the requested one, so the requested WAL is never listed
      twice. */
  lemma WalFilesToArchiveProperties(pgWalDirectory: string, requestedWalFile: string, parallel: int, listing: StatusListing)
    ensures var r := WalFilesToArchive(pgWalDirectory, requestedWalFile, parallel, listing);
      1 <= |r| <= Max(1, parallel)
      && r[0] == requestedWalFile
      && (listing.Unreadable? || parallel <= 1 ==> r == [requestedWalFile])
      && (listing.Listing? ==>
            r[1..] <= Candidates(pgWalDirectory, requestedWalFile, listing.entries)
            && (|r| < parallel ==> r[1..] == Candidates(pgWalDirectory, requestedWalFile, listing.entries))
            && forall k :: 1 <= k < |r| ==>
                 exists e :: e in listing.entries && Eligible(e, requestedWalFile)
                   && r[k] == JoinPath(pgWalDirectory, TrimSuffix(e.name, ReadySuffix)))
  {
    var r := WalFilesToArchive(pgWalDirectory, requestedWalFile, parallel, listing);
    if listing.Listing? {
      var all := Candidates(pgWalDirectory, requestedWalFile, listing.entries);
      forall k | 1 <= k < |r|
        ensures exists e :: e in listing.entries && Eligible(e, requestedWalFile)
                  && r[k] == JoinPath(pgWalDirectory, TrimSuffix(e.name, ReadySuffix))
      {
        assert r[k] == all[k - 1];
        CandidatesMembers(pgWalDirectory, requestedWalFile, listing.entries, r[k]);
      }
    }
  }

  /** The WAL archiver. `pgData` is the PGDATA the process runs with, from which the
      pg_wal directory is derived. */
  class WalArchiver {
    const spool: WalSpool
    const env: seq<string>
    const pgDataDirectory: string
    const barmanArchiver: WalArchive.BarmanArchiver

    constructor (spool: WalSpool, env: seq<string>, pgDataDirectory: string, barmanArchiver: WalArchive.BarmanArchiver)
      ensures this.spool == spool && this.env == env && this.pgDataDirectory == pgDataDirectory
      ensures this.barmanArchiver == barmanArchiver
    {
      this.spool := spool;
      this.env := env;
      this.pgDataDirectory := pgDataDirectory;
      this.barmanArchiver := barmanArchiver;
    }

    /** GatherWALFilesToArchive: walk archive_status, collecting the ready WALs after
        the requested one until `parallel` WALs are gathered. */
    method GatherWALFilesToArchive(pgData: string, requestedWalFile: string, parallel: int, listing: StatusListing)
      returns (walList: seq<string>)
      ensures walList == WalFilesToArchive(JoinPath(pgData, "pg_wal"), requestedWalFile, parallel, listing)
    {
      var pgWalDirectory := JoinPath(pgData, "pg_wal");
      walList := [requestedWalFile];
      // the callback on the root: an unreadable directory is skipped, and a list
      // already long enough ends the walk
      if listing.Unreadable? || |walList| >= parallel {
        return;
      }
      var entries := listing.entries;
      var i := 0;
      while i < |entries|
        invariant 0 <= i <= |entries|
        invariant walList == [requestedWalFile] + Candidates(pgWalDirectory, requestedWalFile, entries[..i])
        invariant |walList| <= parallel
      {
        CandidatesOfPrefix(pgWalDirectory, requestedWalFile, entries[..i + 1], i);
        assert entries[..i + 1][..i] == entries[..i];
        if |walList| >= parallel {
          CandidatesOfPrefix(pgWalDirectory, requestedWalFile, entries, i);
          return;
        }
        var entry := entries[i];
        if Eligible(entry, requestedWalFile) {
          walList := walList + [JoinPath(pgWalDirectory, TrimSuffix(entry.name, ReadySuffix))];
        }
        i := i + 1;
      }
      assert entries[..i] == entries;
    }

    /** What BarmanCloudWalArchiveOptions returns: the `wal` section's options, the
        endpoint, the tags, the history tags, the provider, then destination and
        server name. The first failing step decides the error. */
    function WalArchiveOptions(configuration: BarmanObjectStoreConfiguration, clusterName: string, ext: Externals)
      : (r: Result<seq<string>>)
      ensures r.Success? ==>
        WalOptions(configuration.wal) + EndpointOptions(configuration.endpointUrl) <= r.value
        && |r.value| >= 2
        && r.value[|r.value| - 2..] == [configuration.destinationPath, ServerNameFor(configuration.serverName, clusterName)]
      // the whole command line, in the order the options are appended
      ensures r.Success? ==>
        TagOptions("--tags", configuration.tags, ext).Success?
        && TagOptions("--history-tags", configuration.historyTags, ext).Success?
        && CloudProviderOptions([], configuration.credentials, ext).Success?
        && r.value == WalOptions(configuration.wal) + EndpointOptions(configuration.endpointUrl)
                      + TagOptions("--tags", configuration.tags, ext).value
                      + TagOptions("--history-tags", configuration.historyTags, ext).value
                      + CloudProviderOptions([], configuration.credentials, ext).value
                      + [configuration.destinationPath, ServerNameFor(configuration.serverName, clusterName)]
      ensures TagOptions("--tags", configuration.tags, ext).Failure? ==>
        r == Failure(TagOptions("--tags", configuration.tags, ext).error)
      ensures (TagOptions("--tags", configuration.tags, ext).Success?
               && TagOptions("--history-tags", configuration.historyTags, ext).Failure?) ==>
        r == Failure(TagOptions("--history-tags", configuration.historyTags, ext).error)
      ensures (TagOptions("--tags", configuration.tags, ext).Success?
               && TagOptions("--history-tags", configuration.historyTags, ext).Success?) ==>
        (r.Failure? <==> CloudProviderOptions([], configuration.credentials, ext).Failure?)
    {
      match TagOptions("--tags", configuration.tags, ext)
      case Failure(e) => Failure(e)
      case Success(tags) =>
        match TagOptions("--history-tags", configuration.historyTags, ext)
        case Failure(e) => Failure(e)
        case Success(historyTags) =>
          var opts := WalOptions(configuration.wal) + EndpointOptions(configuration.endpointUrl) + tags + historyTags;
          match CloudProviderOptions(opts, configuration.credentials, ext)
          case Failure(e) => Failure(e)
          case Success(withProvider) =>
            Success(withProvider + [configuration.destinationPath, ServerNameFor(configuration.serverName, clusterName)])
    }

    /** BarmanCloudWalArchiveOptions, appending step by step. */
    method BarmanCloudWalArchiveOptions(configuration: BarmanObjectStoreConfiguration, clusterName: string, ext: Externals)
      returns (r: Result<seq<string>>)
      ensures r == WalArchiveOptions(configuration, clusterName, ext)
    {
      var options: seq<string> := [];
      if configuration.wal.Some? {
        var wal := configuration.wal.value;
        if |wal.compression| != 0 {
          options := options + ["--" + wal.compression];
        }
        if |wal.encryption| != 0 {
          options := options + ["-e", wal.encryption];
        }
        assert options == WalSectionOptions(wal);
        options := AppendArchiveAdditionalCommandArgs(wal, options);
      }
      if |configuration.endpointUrl| > 0 {
        options := options + ["--endpoint-url", configuration.endpointUrl];
      }
      assert options == WalOptions(configuration.wal) + EndpointOptions(configuration.endpointUrl);
      if |configuration.tags| > 0 {
        var tags := ext.formatTags("--tags", configuration.tags);
        if tags.Failure? {
          return Failure(tags.error);
        }
        options := options + tags.value;
      } else {
        assert options == options + [];
      }
      if |configuration.historyTags| > 0 {
        var historyTags := ext.formatTags("--history-tags", configuration.historyTags);
        if historyTags.Failure? {
          return Failure(historyTags.error);
        }
        options := options + historyTags.value;
      } else {
        assert options == options + [];
      }
      var withProvider := AppendCloudProviderOptions(options, configuration.credentials, ext);
      if withProvider.Failure? {
        return Failure(withProvider.error);
      }
      var serverName := clusterName;
      if |configuration.serverName| != 0 {
        serverName := configuration.serverName;
      }
      return Success(withProvider.value + [configuration.destinationPath, serverName]);
    }

    /** DeleteFromSpool: remove a WAL from the spool when it is there. The two faults
        are the outcomes of the spool's existence check and removal. */
    method DeleteFromSpool(walName: string, containsFault: Option<Error>, removeFault: Option<Error>)
      returns (hasBeenDeleted: bool, err: Option<Error>)
      modifies spool
      ensures containsFault.Some? ==> !hasBeenDeleted && err == containsFault && spool.files == old(spool.files)
      ensures containsFault.None? && walName !in old(spool.files) ==>
        !hasBeenDeleted && err.None? && spool.files == old(spool.files)
      ensures containsFault.None? && walName in old(spool.files) ==>
        hasBeenDeleted && err == removeFault
        && spool.files == if removeFault.None? then old(spool.files) - {walName} else old(spool.files)
    {
      var isContained;
      isContained, err := spool.Contains(walName, containsFault);
      if !isContained || err.Some? {
        return false, err;
      }
      err := spool.Remove(walName, removeFault);
      return true, err;
    }

    /** ArchiveList: the walarchive results, copied field by field. */
    method ArchiveList(walNames: seq<string>, options: seq<string>) returns (result: seq<WalArchive.WalArchiverResult>)
      ensures |result| == |walNames|
      ensures forall i :: 0 <= i < |walNames| ==>
        result[i].walName == walNames[i]
        && result[i].err == WalArchive.ListEntryError(barmanArchiver, i, walNames[i], options)
    {
      var res := WalArchive.ArchiveList(barmanArchiver, walNames, options);
      result := [];
      var i := 0;
      while i < |res|
        invariant 0 <= i <= |res|
        invariant result == res[..i]
      {
        result := result + [WalArchive.WalArchiverResult(res[i].walName, res[i].err)];
        i := i + 1;
      }
      assert res[..i] == res;
    }

    /** CheckWalArchiveDestination: delegated to the walarchive archiver. */
    method CheckWalArchiveDestination(ext: Externals, options: seq<string>) returns (err: Option<Error>)
      ensures ext.capabilities.Failure? ==> err == Some(ext.capabilities.error)
      ensures ext.capabilities.Success? && !ext.capabilities.value.hasCheckWalArchive ==> err.None?
      ensures ext.capabilities.Success? && ext.capabilities.value.hasCheckWalArchive ==>
        (err.None? <==> barmanArchiver.run(Invocation(BarmanCloudCheckWalArchive, options, barmanArchiver.env)).None?)
      ensures ext.capabilities.Success? && ext.capabilities.value.hasCheckWalArchive
              && barmanArchiver.run(Invocation(BarmanCloudCheckWalArchive, options, barmanArchiver.env)).Some? ==>
        err == Some(ArchiveInvocationFailed(barmanArchiver.run(Invocation(BarmanCloudCheckWalArchive, options, barmanArchiver.env)).value))
    {
      var invoked;
      err, invoked := WalArchive.CheckWalArchiveDestination(barmanArchiver, ext.capabilities, options);
    }

    /** What BarmanCloudCheckWalArchiveOptions returns. The provider helper it calls
        receives no request context, so the default Azure credentials are never
        requested. */
    function CheckWalArchiveOptions(configuration: BarmanObjectStoreConfiguration, clusterName: string, ext: Externals)
      : (r: Result<seq<string>>)
      ensures r.Failure? <==> CloudProviderOptions([], configuration.credentials, ext.(context := Unset)).Failure?
      ensures r.Success? ==>
        r.value == EndpointOptions(configuration.endpointUrl)
          + CloudProviderOptions([], configuration.credentials, ext.(context := Unset)).value
          + [configuration.destinationPath, ServerNameFor(configuration.serverName, clusterName)]
    {
      match CloudProviderOptions(EndpointOptions(configuration.endpointUrl), configuration.credentials, ext.(context := Unset))
      case Failure(e) => Failure(e)
      case Success(opts) => Success(opts + [configuration.destinationPath, ServerNameFor(configuration.serverName, clusterName)])
    }

    /** BarmanCloudCheckWalArchiveOptions, appending step by step. */
    method BarmanCloudCheckWalArchiveOptions(configuration: BarmanObjectStoreConfiguration, clusterName: string, ext: Externals)
      returns (r: Result<seq<string>>)
      ensures r == CheckWalArchiveOptions(configuration, clusterName, ext)
    {
      var options: seq<string> := [];
      if |configuration.endpointUrl| > 0 {
        options := options + ["--endpoint-url", configuration.endpointUrl];
      }
      assert options == EndpointOptions(configuration.endpointUrl);
      var withProvider := AppendCloudProviderOptions(options, configuration.credentials, ext.(context := Unset));
      if withProvider.Failure? {
        return Failure(withProvider.error);
      }
      var serverName := clusterName;
      if |configuration.serverName| != 0 {
        serverName := configuration.serverName;
      }
      return Success(withProvider.value + [configuration.destinationPath, serverName]);
    }
  }

  /** The `wal` section's own flags: compression, then encryption. */
  function WalSectionOptions(wal: WalBackupConfiguration): seq<string> {
    (if |wal.compression| != 0 then ["--" + wal.compression] else [])
    + (if |wal.encryption| != 0 then ["-e", wal.encryption] else [])
  }

  /** The `wal` section's flags followed by the user's archive arguments that do not
      repeat them. */
  function WalOptions(wal: Option<WalBackupConfiguration>): (r: seq<string>)
    ensures wal.None? ==> r == []
    ensures wal.Some? ==> WalSectionOptions(wal.value) <= r
    // after the section's flags come the archive arguments whose flag they do not carry, in order
    ensures wal.Some? ==>
      r[|WalSectionOptions(wal.value)|..]
      == KeptArgs(wal.value.archiveAdditionalCommandArgs, FlagsOf(WalSectionOptions(wal.value)))
  {
    if wal.None? then [] else AppendArchiveAdditionalCommandArgs(wal.value, WalSectionOptions(wal.value))
  }
}
