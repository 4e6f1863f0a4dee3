/** The backup catalog (pkg/catalog/catalog.go): the backups barman-cloud-backup-list
    reports, which of them are done, and which one a point-in-time recovery starts
    from. Instants are integers, 0 standing for Go's zero time; parsing times and
    LSNs, and the order in which the catalog is sorted, are parameters. */
module Catalog {
  import opened Common

  /** An instant; comparisons are those of time.Time. */
  type Time = int

  /** time.Time{}: the zero instant. */
  const ZeroTime: Time := 0

  /** The ctime-like layout barman-cloud-backup-list uses. */
  const BarmanTimeLayout: string := "Mon Jan 2 15:04:05 2006"

  /** Go's time.RFC3339 layout (section 5.6 of RFC 3339). */
  const Rfc3339Layout: string := "2006-01-02T15:04:05Z07:00"

  /** What time.Parse(layout, value) returns: an instant, and an error when the value
      does not match the layout (the instant is then whatever the parser left). */
  datatype Parsed = Parsed(time: Time, err: Option<Error>)

  /** time.Parse, which is not part of this model. */
  type TimeParser = (string, string) -> Parsed

  /** How LSNs are handled (machinery's types.LSN, not part of this model): whether a
      string parses as an LSN, and the strict order of LSNs. */
  datatype LsnOrder = LsnOrder(parse: string -> Option<Error>, less: (string, string) -> bool)

  /** A backup as barman-cloud-backup-list describes it. The JSON decoding that fills
      the string fields is not part of this model. */
  datatype BarmanBackup = BarmanBackup(
    backupName: string,
    backupLabel: string,
    beginTimeString: string,
    endTimeString: string,
    beginTimeIsoString: string,
    endTimeIsoString: string,
    beginTime: Time,
    endTime: Time,
    beginWal: string,
    endWal: string,
    beginLsn: string,
    endLsn: string,
    systemId: string,
    id: string,
    error: string,
    timeLine: int
  )

  /** isBackupDone: both the begin and the end time are set. */
  predicate IsBackupDone(b: BarmanBackup) {
    b.beginTime != ZeroTime && b.endTime != ZeroTime
  }

  // ---------------------------------------------------------------------------
  // Time parsing

  /** parseTimeWithFallbackLayout: the primary layout first, then the fallback; when
      both fail, the fallback's instant comes back with the primary layout's error. */
  function ParseTimeWithFallbackLayout(value: string, primaryLayout: string, fallbackLayout: string, parse: TimeParser)
    : (r: Parsed)
    ensures parse(primaryLayout, value).err.None? ==> r == Parsed(parse(primaryLayout, value).time, None)
    ensures parse(primaryLayout, value).err.Some? && parse(fallbackLayout, value).err.None? ==>
      r == Parsed(parse(fallbackLayout, value).time, None)
    ensures r.err.None? <==> parse(primaryLayout, value).err.None? || parse(fallbackLayout, value).err.None?
    ensures r.err.Some? ==> r.err == parse(primaryLayout, value).err
  {
    var primary := parse(primaryLayout, value);
    if primary.err.None? then Parsed(primary.time, None)
    else
      var fallback := parse(fallbackLayout, value);
      if fallback.err.None? then Parsed(fallback.time, None)
      else Parsed(fallback.time, primary.err)
  }

  /** tryParseISOOrCtimeTime: the ISO field when it is set; otherwise the ctime field,
      which some Barman versions fill with an ISO time, with RFC 3339 as fallback;
      otherwise the zero time without error. */
  function TryParseIsoOrCtimeTime(isoValue: string, ctimeOrIsoValue: string, parse: TimeParser): (r: Parsed)
    ensures isoValue != "" ==> r == parse(Rfc3339Layout, isoValue)
    ensures isoValue == "" && ctimeOrIsoValue != "" ==>
      r == ParseTimeWithFallbackLayout(ctimeOrIsoValue, BarmanTimeLayout, Rfc3339Layout, parse)
    ensures isoValue == "" && ctimeOrIsoValue == "" ==> r == Parsed(ZeroTime, None)
  {
    if isoValue != "" then parse(Rfc3339Layout, isoValue)
    else if ctimeOrIsoValue != "" then ParseTimeWithFallbackLayout(ctimeOrIsoValue, BarmanTimeLayout, Rfc3339Layout, parse)
    else Parsed(ZeroTime, None)
  }

  /** What deserializeBackupTimeStrings leaves in the backup, and its error. */
  datatype Deserialized = Deserialized(backup: BarmanBackup, err: Option<Error>)

  /** deserializeBackupTimeStrings: set the begin time, stopping at its error, then
      the end time. Only the two instants change. */
  function DeserializeBackupTimeStrings(b: BarmanBackup, parse: TimeParser): (r: Deserialized)
    ensures r.backup.(beginTime := b.beginTime, endTime := b.endTime) == b
    ensures r.backup.beginTime == TryParseIsoOrCtimeTime(b.beginTimeIsoString, b.beginTimeString, parse).time
    ensures TryParseIsoOrCtimeTime(b.beginTimeIsoString, b.beginTimeString, parse).err.Some? ==>
      r.err == TryParseIsoOrCtimeTime(b.beginTimeIsoString, b.beginTimeString, parse).err && r.backup.endTime == b.endTime
    ensures TryParseIsoOrCtimeTime(b.beginTimeIsoString, b.beginTimeString, parse).err.None? ==>
      r.err == TryParseIsoOrCtimeTime(b.endTimeIsoString, b.endTimeString, parse).err
      && r.backup.endTime == TryParseIsoOrCtimeTime(b.endTimeIsoString, b.endTimeString, parse).time
  {
    var begin := TryParseIsoOrCtimeTime(b.beginTimeIsoString, b.beginTimeString, parse);
    var withBegin := b.(beginTime := begin.time);
    if begin.err.Some? then Deserialized(withBegin, begin.err)
    else
      var end := TryParseIsoOrCtimeTime(b.endTimeIsoString, b.endTimeString, parse);
      Deserialized(withBegin.(endTime := end.time), end.err)
  }

  /** A backup whose begin or end time strings are both empty deserializes without
      error to a backup that is not done. */
  lemma EmptyTimesAreNotDone(b: BarmanBackup, parse: TimeParser)
    requires (b.beginTimeIsoString == "" && b.beginTimeString == "") || (b.endTimeIsoString == "" && b.endTimeString == "")
    requires DeserializeBackupTimeStrings(b, parse).err.None?
    ensures !IsBackupDone(DeserializeBackupTimeStrings(b, parse).backup)
  {
  }

  /** NewBackupFromBarmanCloudBackupShow, from the decoded backup. */
  function NewBackupFromBarmanCloudBackupShow(decoded: BarmanBackup, parse: TimeParser): (r: Result<BarmanBackup>)
    ensures r.Success? <==> DeserializeBackupTimeStrings(decoded, parse).err.None?
    ensures r.Success? ==> r.value == DeserializeBackupTimeStrings(decoded, parse).backup
  {
    var d := DeserializeBackupTimeStrings(decoded, parse);
    if d.err.Some? then Failure(d.err.value) else Success(d.backup)
  }

  // ---------------------------------------------------------------------------
  // Timelines

  /** Whether a backup is on the target timeline: the timeline's decimal rendering
      equals it, or the target is empty or "latest" (which the regular expression
      `^(|latest)$` accepts). */
  predicate MatchesTimeline(b: BarmanBackup, targetTli: string) {
    Itoa(b.timeLine) == targetTli || targetTli == "" || targetTli == "latest"
  }

  /** A numeric target matches exactly the backups on that timeline. */
  lemma NumericTimelineMatch(b: BarmanBackup, timeLine: int)
    ensures MatchesTimeline(b, Itoa(timeLine)) <==> b.timeLine == timeLine
  {
    ItoaSign(timeLine);
    assert Itoa(timeLine)[0] != "latest"[0];
    if Itoa(b.timeLine) == Itoa(timeLine) {
      ItoaInjective(b.timeLine, timeLine);
    }
  }

  // ---------------------------------------------------------------------------
  // Scans

  /** The highest index whose element satisfies `p`, or -1. */
  function LastIndexWhere<T>(s: seq<T>, p: T -> bool): (r: int)
    ensures -1 <= r < |s|
    ensures r >= 0 ==> p(s[r])
    ensures forall j :: r < j < |s| ==> !p(s[j])
  {
    if |s| == 0 then -1
    else if p(s[|s| - 1]) then |s| - 1
    else LastIndexWhere(s[..|s| - 1], p)
  }

  /** The lowest index whose element satisfies `p`, or |s|. */
  function FirstIndexWhere<T>(s: seq<T>, p: T -> bool): (r: int)
    ensures 0 <= r <= |s|
    ensures r < |s| ==> p(s[r])
    ensures forall j :: 0 <= j < r ==> !p(s[j])
  {
    if |s| == 0 then 0
    else if p(s[0]) then 0
    else 1 + FirstIndexWhere(s[1..], p)
  }

  /** A weaker condition is met at least as late in the list. */
  lemma LastIndexWhereMonotone<T>(s: seq<T>, p: T -> bool, q: T -> bool)
    requires forall x :: p(x) ==> q(x)
    ensures LastIndexWhere(s, p) <= LastIndexWhere(s, q)
  {
    var rp := LastIndexWhere(s, p);
    if rp >= 0 {
      assert q(s[rp]);
    }
  }

  /** The element at the highest index satisfying `p`, if any. */
  function PickLast<T>(s: seq<T>, p: T -> bool): Option<T> {
    var i := LastIndexWhere(s, p);
    if i < 0 then None else Some(s[i])
  }

  /** A done backup of the timeline that ended no later than the target time. */
  predicate TimeCandidate(b: BarmanBackup, targetTime: Time, targetTli: string) {
    IsBackupDone(b) && MatchesTimeline(b, targetTli) && b.endTime <= targetTime
  }

  /** A done backup of the timeline that ended strictly before the target LSN. */
  predicate LsnCandidate(b: BarmanBackup, targetLsn: string, targetTli: string, lsn: LsnOrder) {
    IsBackupDone(b) && MatchesTimeline(b, targetTli) && lsn.less(b.endLsn, targetLsn)
  }

  /** What findLatestBackupFromTimeline returns: the last done backup of the timeline. */
  function LatestFromTimeline(list: seq<BarmanBackup>, targetTli: string): (r: Option<BarmanBackup>)
    ensures r.None? <==> forall j :: 0 <= j < |list| ==> !(IsBackupDone(list[j]) && MatchesTimeline(list[j], targetTli))
    ensures r.Some? ==>
      exists i :: 0 <= i < |list| && list[i] == r.value
        && IsBackupDone(list[i]) && MatchesTimeline(list[i], targetTli)
        && forall j :: i < j < |list| ==> !(IsBackupDone(list[j]) && MatchesTimeline(list[j], targetTli))
  {
    PickLast(list, b => IsBackupDone(b) && MatchesTimeline(b, targetTli))
  }

  /** What findClosestBackupFromTargetTime returns: an error for an unparsable
      target, otherwise the last candidate, if any. */
  function ClosestFromTargetTime(list: seq<BarmanBackup>, targetTimeString: string, targetTli: string,
                                 parseTargetTime: string -> Result<Time>): (r: Result<Option<BarmanBackup>>)
    ensures parseTargetTime(targetTimeString).Failure? ==>
      r == Failure(TargetTimeUnparsable(parseTargetTime(targetTimeString).error))
    ensures parseTargetTime(targetTimeString).Success? ==>
      var t := parseTargetTime(targetTimeString).value;
      r.Success?
      && (r.value.None? <==> forall j :: 0 <= j < |list| ==> !TimeCandidate(list[j], t, targetTli))
      && (r.value.Some? ==>
            exists i :: 0 <= i < |list| && list[i] == r.value.value && TimeCandidate(list[i], t, targetTli)
              && forall j :: i < j < |list| ==> !TimeCandidate(list[j], t, targetTli))
  {
    match parseTargetTime(targetTimeString)
    case Failure(e) => Failure(TargetTimeUnparsable(e))
    case Success(t) => Success(PickLast(list, b => TimeCandidate(b, t, targetTli)))
  }

  /** What findClosestBackupFromTargetLSN returns: an error for an unparsable
      target, otherwise the last candidate, if any. */
  function ClosestFromTargetLsn(list: seq<BarmanBackup>, targetLsn: string, targetTli: string, lsn: LsnOrder)
    : (r: Result<Option<BarmanBackup>>)
    ensures lsn.parse(targetLsn).Some? ==> r == Failure(TargetLsnUnparsable(lsn.parse(targetLsn).value))
    ensures lsn.parse(targetLsn).None? ==>
      r.Success?
      && (r.value.None? <==> forall j :: 0 <= j < |list| ==> !LsnCandidate(list[j], targetLsn, targetTli, lsn))
      && (r.value.Some? ==>
            exists i :: 0 <= i < |list| && list[i] == r.value.value
              && LsnCandidate(list[i], targetLsn, targetTli, lsn)
              && forall j :: i < j < |list| ==> !LsnCandidate(list[j], targetLsn, targetTli, lsn))
  {
    if lsn.parse(targetLsn).Some? then Failure(TargetLsnUnparsable(lsn.parse(targetLsn).value))
    else Success(PickLast(list, b => LsnCandidate(b, targetLsn, targetTli, lsn)))
  }

  /** What findBackupFromID returns: the first done backup with the ID. */
  function BackupFromId(list: seq<BarmanBackup>, backupId: string): (r: Result<BarmanBackup>)
    ensures backupId == "" ==> r == Failure(NoBackupIdProvided)
    ensures backupId != "" ==>
      (r.Failure? <==> forall j :: 0 <= j < |list| ==> !(IsBackupDone(list[j]) && list[j].id == backupId))
    ensures backupId != "" && r.Failure? ==> r.error == NoBackupFoundWithId(backupId)
    ensures r.Success? ==>
      exists i :: 0 <= i < |list| && list[i] == r.value
        && IsBackupDone(list[i]) && list[i].id == backupId
        && forall j :: 0 <= j < i ==> !(IsBackupDone(list[j]) && list[j].id == backupId)
  {
    if backupId == "" then Failure(NoBackupIdProvided)
    else
      var i := FirstIndexWhere(list, b => IsBackupDone(b) && b.id == backupId);
      if i == |list| then Failure(NoBackupFoundWithId(backupId)) else Success(list[i])
  }

  /** A later target time never selects a backup earlier in the catalog. */
  lemma TargetTimeMonotone(list: seq<BarmanBackup>, targetTli: string, t1: Time, t2: Time)
    requires t1 <= t2
    ensures LastIndexWhere(list, b => TimeCandidate(b, t1, targetTli))
            <= LastIndexWhere(list, b => TimeCandidate(b, t2, targetTli))
  {
    LastIndexWhereMonotone(list, b => TimeCandidate(b, t1, targetTli), b => TimeCandidate(b, t2, targetTli));
  }

  /** Without a time or LSN bound, the time search with a target after every backup
      selects the latest backup of the timeline. */
  lemma LateTargetTimeIsLatest(list: seq<BarmanBackup>, targetTli: string, t: Time)
    requires forall j :: 0 <= j < |list| ==> list[j].endTime <= t
    ensures PickLast(list, b => TimeCandidate(b, t, targetTli)) == LatestFromTimeline(list, targetTli)
  {
    var p := (b: BarmanBackup) => TimeCandidate(b, t, targetTli);
    var q := (b: BarmanBackup) => IsBackupDone(b) && MatchesTimeline(b, targetTli);
    var i, k := LastIndexWhere(list, p), LastIndexWhere(list, q);
    if i >= 0 { assert q(list[i]); }
    if k >= 0 { assert p(list[k]); }
  }

  // ---------------------------------------------------------------------------
  // Sorting

  /** The catalog's order (Less, which is not part of this model), as a key. */
  type SortKey = BarmanBackup -> Time

  predicate SortedBy(s: seq<BarmanBackup>, key: SortKey) {
    forall i, j :: 0 <= i < j < |s| ==> key(s[i]) <= key(s[j])
  }

  function Insert(x: BarmanBackup, s: seq<BarmanBackup>, key: SortKey): (r: seq<BarmanBackup>)
    requires SortedBy(s, key)
    ensures SortedBy(r, key)
    ensures multiset(r) == multiset(s) + multiset{x}
    ensures |r| == |s| + 1
    ensures r[0] == x || (|s| > 0 && r[0] == s[0])
  {
    if s == [] then [x]
    else if key(x) <= key(s[0]) then [x] + s
    else
      assert s == [s[0]] + s[1..];
      var rest := Insert(x, s[1..], key);
      assert key(s[0]) <= key(rest[0]);
      assert forall k :: 0 <= k < |rest| ==> key(s[0]) <= key(rest[k]);
      [s[0]] + rest
  }

  /** An order-respecting permutation of the list (one of those sort.Sort may yield). */
  function SortByKey(s: seq<BarmanBackup>, key: SortKey): (r: seq<BarmanBackup>)
    ensures SortedBy(r, key)
    ensures multiset(r) == multiset(s)
  {
    if s == [] then []
    else
      assert s == [s[0]] + s[1..];
      Insert(s[0], SortByKey(s[1..], key), key)
  }

  /** What GetBackupMethod reports for this catalog. */
  const BackupMethod: string := "barmanObjectStore"

  /** The point-in-time-recovery target. */
  datatype RecoveryTarget = RecoveryTarget(backupId: string, targetTime: string, targetLsn: string, targetTli: string)

  /** The catalog of one server's backups. */
  class Catalog {
    var list: seq<BarmanBackup>
    const sortKey: SortKey

    /** NewCatalog: the given backups, sorted. */
    constructor NewCatalog(list: seq<BarmanBackup>, sortKey: SortKey)
      ensures this.sortKey == sortKey
      ensures SortedBy(this.list, sortKey) && multiset(this.list) == multiset(list)
    {
      this.sortKey := sortKey;
      this.list := SortByKey(list, sortKey);
    }

    /** sort.Sort(catalog) */
    method Sort()
      modifies this
      ensures SortedBy(list, sortKey) && multiset(list) == multiset(old(list))
    {
      list := SortByKey(list, sortKey);
    }

    /** LatestBackupInfo: the last done backup once the catalog is sorted. */
    method LatestBackupInfo() returns (r: Option<BarmanBackup>)
      modifies this
      ensures multiset(list) == multiset(old(list))
      ensures old(list) == [] ==> r.None? && list == old(list)
      ensures old(list) != [] ==> SortedBy(list, sortKey)
      ensures r == PickLast(list, IsBackupDone)
    {
      if |list| == 0 {
        return None;
      }
      Sort();
      var i := |list| - 1;
      while i >= 0
        invariant -1 <= i < |list|
        invariant forall j :: i < j < |list| ==> !IsBackupDone(list[j])
      {
        if IsBackupDone(list[i]) {
          return Some(list[i]);
        }
        i := i - 1;
      }
      return None;
    }

    /** GetLastSuccessfulBackupTime: the end time of the latest done backup. */
    method GetLastSuccessfulBackupTime() returns (r: Option<Time>)
      modifies this
      ensures multiset(list) == multiset(old(list))
      ensures old(list) == [] ==> list == old(list)
      ensures old(list) != [] ==> SortedBy(list, sortKey)
      ensures r.None? <==> PickLast(list, IsBackupDone).None?
      ensures r.Some? ==> r.value == PickLast(list, IsBackupDone).value.endTime
    {
      var latest := LatestBackupInfo();
      if latest.Some? {
        return Some(latest.value.endTime);
      }
      return None;
    }

    /** GetBackupIDs: the IDs, in catalog order. */
    method GetBackupIds() returns (backupIds: seq<string>)
      ensures |backupIds| == |list|
      ensures forall i :: 0 <= i < |list| ==> backupIds[i] == list[i].id
    {
      backupIds := [];
      var idx := 0;
      while idx < |list|
        invariant 0 <= idx <= |list|
        invariant |backupIds| == idx
        invariant forall i :: 0 <= i < idx ==> backupIds[i] == list[i].id
      {
        backupIds := backupIds + [list[idx].id];
        idx := idx + 1;
      }
    }

    /** FirstRecoverabilityPoint: the END time of the first done backup once the
        catalog is sorted. */
    method FirstRecoverabilityPoint() returns (r: Option<Time>)
      modifies this
      ensures multiset(list) == multiset(old(list))
      ensures old(list) == [] ==> r.None? && list == old(list)
      ensures old(list) != [] ==> SortedBy(list, sortKey)
      ensures var i := FirstIndexWhere(list, IsBackupDone);
        r == if i == |list| then None else Some(list[i].endTime)
    {
      if |list| == 0 {
        return None;
      }
      Sort();
      var i := 0;
      while i < |list|
        invariant 0 <= i <= |list|
        invariant forall j :: 0 <= j < i ==> !IsBackupDone(list[j])
      {
        if !IsBackupDone(list[i]) {
          i := i + 1;
          continue;
        }
        return Some(list[i].endTime);
      }
      return None;
    }

    /** GetFirstRecoverabilityPoint: see FirstRecoverabilityPoint. */
    method GetFirstRecoverabilityPoint() returns (r: Option<Time>)
      modifies this
      ensures multiset(list) == multiset(old(list))
      ensures old(list) == [] ==> list == old(list)
      ensures old(list) != [] ==> SortedBy(list, sortKey)
      ensures var i := FirstIndexWhere(list, IsBackupDone);
        r == if i == |list| then None else Some(list[i].endTime)
    {
      r := FirstRecoverabilityPoint();
    }

    /** findClosestBackupFromTargetLSN, scanning from the end of the catalog. */
    method FindClosestBackupFromTargetLsn(targetLsn: string, targetTli: string, lsn: LsnOrder)
      returns (r: Result<Option<BarmanBackup>>)
      ensures r == ClosestFromTargetLsn(list, targetLsn, targetTli, lsn)
    {
      var parseError := lsn.parse(targetLsn);
      if parseError.Some? {
        return Failure(TargetLsnUnparsable(parseError.value));
      }
      var i := |list| - 1;
      while i >= 0
        invariant -1 <= i < |list|
        invariant forall j :: i < j < |list| ==> !LsnCandidate(list[j], targetLsn, targetTli, lsn)
      {
        var barmanBackup := list[i];
        if !IsBackupDone(barmanBackup) {
          i := i - 1;
          continue;
        }
        if (Itoa(barmanBackup.timeLine) == targetTli || targetTli == "" || targetTli == "latest")
           && lsn.less(barmanBackup.endLsn, targetLsn) {
          return Success(Some(list[i]));
        }
        i := i - 1;
      }
      return Success(None);
    }

    /** findClosestBackupFromTargetTime, scanning from the end of the catalog. */
    method FindClosestBackupFromTargetTime(targetTimeString: string, targetTli: string,
                                           parseTargetTime: string -> Result<Time>)
      returns (r: Result<Option<BarmanBackup>>)
      ensures r == ClosestFromTargetTime(list, targetTimeString, targetTli, parseTargetTime)
    {
      var targetTime := parseTargetTime(targetTimeString);
      if targetTime.Failure? {
        return Failure(TargetTimeUnparsable(targetTime.error));
      }
      var i := |list| - 1;
      while i >= 0
        invariant -1 <= i < |list|
        invariant forall j :: i < j < |list| ==> !TimeCandidate(list[j], targetTime.value, targetTli)
      {
        var barmanBackup := list[i];
        if !IsBackupDone(barmanBackup) {
          i := i - 1;
          continue;
        }
        if (Itoa(barmanBackup.timeLine) == targetTli || targetTli == "" || targetTli == "latest")
           && !(barmanBackup.endTime > targetTime.value) {
          return Success(Some(list[i]));
        }
        i := i - 1;
      }
      return Success(None);
    }

    /** findLatestBackupFromTimeline, scanning from the end of the catalog. */
    method FindLatestBackupFromTimeline(targetTli: string) returns (r: Option<BarmanBackup>)
      ensures r == LatestFromTimeline(list, targetTli)
    {
      var i := |list| - 1;
      while i >= 0
        invariant -1 <= i < |list|
        invariant forall j :: i < j < |list| ==> !(IsBackupDone(list[j]) && MatchesTimeline(list[j], targetTli))
      {
        var barmanBackup := list[i];
        if !IsBackupDone(barmanBackup) {
          i := i - 1;
          continue;
        }
        if Itoa(barmanBackup.timeLine) == targetTli || targetTli == "" || targetTli == "latest" {
          return Some(list[i]);
        }
        i := i - 1;
      }
      return None;
    }

    /** findBackupFromID, scanning from the start of the catalog. */
    method FindBackupFromId(backupId: string) returns (r: Result<BarmanBackup>)
      ensures r == BackupFromId(list, backupId)
    {
      if backupId == "" {
        return Failure(NoBackupIdProvided);
      }
      var i := 0;
      while i < |list|
        invariant 0 <= i <= |list|
        invariant forall j :: 0 <= j < i ==> !(IsBackupDone(list[j]) && list[j].id == backupId)
      {
        var barmanBackup := list[i];
        if IsBackupDone(barmanBackup) && barmanBackup.id == backupId {
          return Success(barmanBackup);
        }
        i := i + 1;
      }
      return Failure(NoBackupFoundWithId(backupId));
    }

    /** FindBackupInfo: a backup ID, when given, decides alone (and the catalog is not
        sorted); otherwise, on the sorted catalog, a target time, else a target LSN,
        else the latest backup of the timeline. */
    method FindBackupInfo(target: RecoveryTarget, parseTargetTime: string -> Result<Time>, lsn: LsnOrder)
      returns (r: Result<Option<BarmanBackup>>)
      modifies this
      ensures multiset(list) == multiset(old(list))
      ensures target.backupId != "" ==>
        list == old(list)
        && r == match BackupFromId(list, target.backupId)
                case Failure(e) => Failure(e)
                case Success(b) => Success(Some(b))
      ensures target.backupId == "" ==> SortedBy(list, sortKey)
      ensures target.backupId == "" && target.targetTime != "" ==>
        r == ClosestFromTargetTime(list, target.targetTime, target.targetTli, parseTargetTime)
      ensures target.backupId == "" && target.targetTime == "" && target.targetLsn != "" ==>
        r == ClosestFromTargetLsn(list, target.targetLsn, target.targetTli, lsn)
      ensures target.backupId == "" && target.targetTime == "" && target.targetLsn == "" ==>
        r == Success(LatestFromTimeline(list, target.targetTli))
    {
      if target.backupId != "" {
        var found := FindBackupFromId(target.backupId);
        if found.Failure? {
          return Failure(found.error);
        }
        return Success(Some(found.value));
      }
      var targetTli := target.targetTli;
      Sort();
      if target.targetTime != "" {
        r := FindClosestBackupFromTargetTime(target.targetTime, targetTli, parseTargetTime);
        return;
      }
      if target.targetLsn != "" {
        r := FindClosestBackupFromTargetLsn(target.targetLsn, targetTli, lsn);
        return;
      }
      var latest := FindLatestBackupFromTimeline(targetTli);
      return Success(latest);
    }
  }

  /** What NewCatalogFromBarmanCloudBackupList builds from the decoded list: every
      backup with its times deserialized, or the first deserialization error. */
  function DeserializeAll(decoded: seq<BarmanBackup>, parse: TimeParser): (r: Result<seq<BarmanBackup>>)
    ensures r.Success? <==> forall i :: 0 <= i < |decoded| ==> DeserializeBackupTimeStrings(decoded[i], parse).err.None?
    ensures r.Success? ==>
      |r.value| == |decoded|
      && forall i :: 0 <= i < |decoded| ==> r.value[i] == DeserializeBackupTimeStrings(decoded[i], parse).backup
  {
    if decoded == [] then Success([])
    else
      var d := DeserializeBackupTimeStrings(decoded[0], parse);
      if d.err.Some? then Failure(d.err.value)
      else
        match DeserializeAll(decoded[1..], parse)
        case Failure(e) => Failure(e)
        case Success(rest) => Success([d.backup] + rest)
  }

  /** NewCatalogFromBarmanCloudBackupList, from the decoded list: deserialize each
      backup's times in place, then sort. */
  method NewCatalogFromBarmanCloudBackupList(decoded: seq<BarmanBackup>, parse: TimeParser, sortKey: SortKey)
    returns (catalog: Option<Catalog>, err: Option<Error>)
    ensures DeserializeAll(decoded, parse).Failure? ==>
      catalog.None? && err == Some(DeserializeAll(decoded, parse).error)
    ensures DeserializeAll(decoded, parse).Success? ==>
      err.None? && catalog.Some? && fresh(catalog.value)
      && catalog.value.sortKey == sortKey && SortedBy(catalog.value.list, sortKey)
      && multiset(catalog.value.list) == multiset(DeserializeAll(decoded, parse).value)
  {
    var list := decoded;
    var idx := 0;
    while idx < |list|
      invariant 0 <= idx <= |list| == |decoded|
      invariant forall i :: 0 <= i < idx ==> DeserializeBackupTimeStrings(decoded[i], parse).err.None?
      invariant forall i :: 0 <= i < idx ==> list[i] == DeserializeBackupTimeStrings(decoded[i], parse).backup
      invariant forall i :: idx <= i < |list| ==> list[i] == decoded[i]
    {
      var d := DeserializeBackupTimeStrings(list[idx], parse);
      if d.err.Some? {
        DeserializeAllFails(decoded, parse, idx);
        return None, d.err;
      }
      list := list[idx := d.backup];
      idx := idx + 1;
    }
    assert list == DeserializeAll(decoded, parse).value;
    var c := new Catalog.NewCatalog(list, sortKey);
    return Some(c), None;
  }

  /** The first backup whose times do not parse decides the error. */
  lemma {:induction false} DeserializeAllFails(decoded: seq<BarmanBackup>, parse: TimeParser, k: nat)
    requires k < |decoded| && DeserializeBackupTimeStrings(decoded[k], parse).err.Some?
    requires forall i :: 0 <= i < k ==> DeserializeBackupTimeStrings(decoded[i], parse).err.None?
    ensures DeserializeAll(decoded, parse) == Failure(DeserializeBackupTimeStrings(decoded[k], parse).err.value)
    decreases k
  {
    if k > 0 {
      assert forall i :: 0 <= i < k - 1 ==> decoded[1..][i] == decoded[i + 1];
      DeserializeAllFails(decoded[1..], parse, k - 1);
    }
  }
}
