/**
 * app/composables/useActivityLogs.ts: the audit trail. The `activity_logs`
 * table is a sequence of records in insertion order; queries read it newest
 * first.
 */
module Activity {
  import opened Wrappers
  import opened Sorting
  import opened Counting
  import opened Auth

  datatype Action =
    | Create | Update | Delete | Login | Logout | Invite
    | AcceptInvitation | Cancel | Reactivate | StatusChange | DeleteItem

  datatype EntityType = PackagingEntity | OrderEntity | UserEntity | InvitationEntity | AuthEntity

  const AllActions: seq<Action> :=
    [Create, Update, Delete, Login, Logout, Invite, AcceptInvitation, Cancel, Reactivate, StatusChange, DeleteItem]

  const AllEntityTypes: seq<EntityType> :=
    [PackagingEntity, OrderEntity, UserEntity, InvitationEntity, AuthEntity]

  /** What a caller asks to log; `details` is the free-form JSON object, flattened to text. */
  datatype Entry = Entry(
    action: Action,
    entityType: EntityType,
    entityId: Option<Id>,
    entityName: Option<string>,
    details: map<string, string>)

  /** A row of `activity_logs`. */
  datatype LogRecord = LogRecord(id: Id, userId: Id, entry: Entry, createdAt: int)

  /** What `logActivity` reports; it never throws. */
  datatype LogOutcome = Logged | NotAuthenticated | InsertFailed

  const NotAuthenticatedMessage: string := "User not authenticated"

  function ActionOf(r: LogRecord): Action {
    r.entry.action
  }

  function EntityOf(r: LogRecord): EntityType {
    r.entry.entityType
  }

  function CreatedAt(r: LogRecord): int {
    r.createdAt
  }

  // ---------------------------------------------------------------------------
  // Pagination
  // ---------------------------------------------------------------------------

  /** The page size `range` uses: `limit || 10` (0 stands for an absent limit). */
  function PageSize(limit: nat): (n: nat)
    ensures n > 0
    ensures limit > 0 ==> n == limit
  {
    if limit > 0 then limit else 10
  }

  /** The inclusive row window of `range(offset, offset + (limit || 10) - 1)`. */
  function RangeBounds(limit: nat, offset: nat): (bounds: (nat, int))
    ensures bounds.0 == offset
    ensures bounds.1 - bounds.0 + 1 == PageSize(limit)
  {
    (offset, offset + PageSize(limit) - 1)
  }

  /**
   * `limit(limit)` when a limit is given, then `range(...)` when a non-zero
   * offset is given (the range sets the window on its own); 0 stands for an
   * absent parameter.
   */
  function Paginate<T>(rows: seq<T>, limit: nat, offset: nat): (page: seq<T>)
    ensures offset > 0 ==>
      var (lo, hi) := RangeBounds(limit, offset);
      |page| <= hi - lo + 1
      && (forall k :: 0 <= k < |page| ==> lo + k < |rows| && page[k] == rows[lo + k])
      && (hi < |rows| ==> |page| == hi - lo + 1)
      && (lo < |rows| ==> |page| > 0)
    ensures offset > 0 ==>
      |page| == if offset >= |rows| then 0
                else if offset + PageSize(limit) <= |rows| then PageSize(limit)
                else |rows| - offset
    ensures offset == 0 ==> page == Take(rows, if limit > 0 then limit else |rows|)
  {
    if offset > 0 then
      var (lo, hi) := RangeBounds(limit, offset);
      if lo >= |rows| then []
      else rows[lo .. if hi + 1 <= |rows| then hi + 1 else |rows|]
    else if limit > 0 then Take(rows, limit)
    else rows
  }

  /** A page of a newest-first list is newest first. */
  lemma PaginateKeepsOrder(rows: seq<LogRecord>, limit: nat, offset: nat)
    requires SortedDescBy(rows, CreatedAt)
    ensures SortedDescBy(Paginate(rows, limit, offset), CreatedAt)
  {
  }

  // ---------------------------------------------------------------------------
  // Queries
  // ---------------------------------------------------------------------------

  /** The optional filters of `getAllActivityLogs`; instants stand for the ISO strings compared. */
  datatype LogFilter = LogFilter(
    action: Option<Action>,
    entityType: Option<EntityType>,
    userId: Option<Id>,
    startDate: Option<int>,
    endDate: Option<int>)

  predicate InPeriod(r: LogRecord, startDate: Option<int>, endDate: Option<int>) {
    (startDate.None? || r.createdAt >= startDate.value) && (endDate.None? || r.createdAt <= endDate.value)
  }

  predicate Matches(f: LogFilter, r: LogRecord) {
    (f.action.None? || r.entry.action == f.action.value)
    && (f.entityType.None? || r.entry.entityType == f.entityType.value)
    && (f.userId.None? || r.userId == f.userId.value)
    && InPeriod(r, f.startDate, f.endDate)
  }

  /** The records passing `f`, newest first. */
  function Newest(records: seq<LogRecord>, f: LogFilter): (rows: seq<LogRecord>)
    ensures SortedDescBy(rows, CreatedAt)
    ensures multiset(rows) == multiset(Filter(records, r => Matches(f, r)))
    ensures forall i :: 0 <= i < |rows| ==> Matches(f, rows[i]) && rows[i] in records
  {
    var rows := SortDescBy(Filter(records, r => Matches(f, r)), CreatedAt);
    FilteredMembers(records, r => Matches(f, r), rows);
    rows
  }

  /** A reordering of a filter result holds only records that pass the filter and come from the input. */
  lemma FilteredMembers(records: seq<LogRecord>, p: LogRecord -> bool, rows: seq<LogRecord>)
    requires multiset(rows) == multiset(Filter(records, p))
    ensures forall i :: 0 <= i < |rows| ==> p(rows[i]) && rows[i] in records
  {
    var kept := Filter(records, p);
    SameMembers(kept, rows);
    forall i | 0 <= i < |rows| ensures p(rows[i]) && rows[i] in records {
      assert rows[i] in kept;
      var k :| 0 <= k < |kept| && kept[k] == rows[i];
    }
  }

  /**
   * The log after a `logActivity(entry)` whose outcome the caller ignores:
   * either the record with the next id was appended, or nothing changed.
   */
  ghost predicate Appended(before: seq<LogRecord>, after: seq<LogRecord>, id: Id, profile: Option<UserProfile>, entry: Entry, now: int) {
    after == before || (profile.Some? && after == before + [LogRecord(id, profile.value.id, entry, now)])
  }

  class ActivityLog {
    /** The `activity_logs` table in insertion order. */
    var records: seq<LogRecord>
    /** The id the next inserted record receives. */
    var nextId: Id

    constructor ()
      ensures records == [] && nextId == 0
    {
      records := [];
      nextId := 0;
    }

    /**
     * `logActivity(entry)` on behalf of the current `profile`, at clock
     * reading `now`. The insert may fail; the failure is reported, never
     * thrown.
     */
    method LogActivity(profile: Option<UserProfile>, entry: Entry, now: int) returns (outcome: LogOutcome)
      modifies this
      ensures profile.None? ==> outcome == NotAuthenticated
      ensures profile.Some? ==> outcome != NotAuthenticated
      ensures outcome == Logged ==>
        records == old(records) + [LogRecord(old(nextId), profile.value.id, entry, now)] && nextId == old(nextId) + 1
      ensures outcome != Logged ==> records == old(records) && nextId == old(nextId)
    {
      if profile.None? {
        return NotAuthenticated;
      }
      var insertFails: bool := *;
      if insertFails {
        return InsertFailed;
      }
      records := records + [LogRecord(nextId, profile.value.id, entry, now)];
      nextId := nextId + 1;
      outcome := Logged;
    }

    /** `getAllActivityLogs`: the page of matching records and the exact count of all matches. */
    method GetAllActivityLogs(f: LogFilter, limit: nat, offset: nat) returns (r: Result<(seq<LogRecord>, nat)>)
      ensures r.Ok? ==> r.value.0 == Paginate(Newest(records, f), limit, offset)
      ensures r.Ok? ==> r.value.1 == |Filter(records, x => Matches(f, x))|
      ensures r.Err? ==> r.error == DatabaseErrorMessage
    {
      var fails: bool := *;
      if fails {
        return Err(DatabaseErrorMessage);
      }
      var rows := Newest(records, f);
      r := Ok((Paginate(rows, limit, offset), |Filter(records, x => Matches(f, x))|));
    }

    /** `getMyActivityLogs`: the current user's own records, newest first, paginated. */
    method GetMyActivityLogs(profile: Option<UserProfile>, limit: nat, offset: nat) returns (r: Result<seq<LogRecord>>)
      ensures profile.None? ==> r == Err(NotAuthenticatedMessage)
      ensures profile.Some? && r.Err? ==> r.error == DatabaseErrorMessage
      ensures r.Ok? ==>
        profile.Some?
        && r.value == Paginate(Newest(records, LogFilter(None, None, Some(profile.value.id), None, None)), limit, offset)
    {
      if profile.None? {
        return Err(NotAuthenticatedMessage);
      }
      var fails: bool := *;
      if fails {
        return Err(DatabaseErrorMessage);
      }
      r := Ok(Paginate(Newest(records, LogFilter(None, None, Some(profile.value.id), None, None)), limit, offset));
    }

    /** `getActivityStats`: on a failed query every count is zero. */
    method GetActivityStats(startDate: Option<int>, endDate: Option<int>) returns (ok: bool, stats: Stats)
      ensures !ok ==> stats == EmptyStats
      ensures ok ==> StatsOf(stats, Filter(records, x => InPeriod(x, startDate, endDate)))
    {
      var fails: bool := *;
      if fails {
        return false, EmptyStats;
      }
      stats := Tally(Filter(records, x => InPeriod(x, startDate, endDate)));
      ok := true;
    }
  }

  /** The own records of the user with id `me`: each is theirs, and there are no others. */
  lemma MyLogsAreOwn(records: seq<LogRecord>, me: Id, limit: nat, offset: nat)
    ensures var own := Newest(records, LogFilter(None, None, Some(me), None, None));
      var page := Paginate(own, limit, offset);
      (forall i :: 0 <= i < |page| ==> page[i].userId == me && page[i] in records)
      && SortedDescBy(page, CreatedAt)
      && (limit == 0 && offset == 0 ==>
        forall i :: 0 <= i < |records| && records[i].userId == me ==> records[i] in page)
  {
    var f := LogFilter(None, None, Some(me), None, None);
    var own := Newest(records, f);
    PaginateKeepsOrder(own, limit, offset);
    forall i | 0 <= i < |records| && records[i].userId == me
      ensures records[i] in own
    {
      var p := r => Matches(f, r);
      FilterMembers(records, p);
      SameMembers(Filter(records, p), own);
    }
  }

  // ---------------------------------------------------------------------------
  // Statistics
  // ---------------------------------------------------------------------------

  datatype Stats = Stats(
    total: nat,
    byAction: map<Action, nat>,
    byEntityType: map<EntityType, nat>,
    byUser: seq<(Id, string, nat)>)

  const EmptyStats: Stats := Stats(0, map[], map[], [])

  /**
   * `stats` describes `logs`: the total is their number, each action and
   * entity type that occurs maps to its count (and no other is present), and
   * the per-user list is empty.
   */
  ghost predicate StatsOf(stats: Stats, logs: seq<LogRecord>) {
    stats.total == |logs| && stats.byUser == []
    && (forall a :: a in stats.byAction <==> CountKey(logs, ActionOf, a) > 0)
    && (forall a :: a in stats.byAction ==> stats.byAction[a] == CountKey(logs, ActionOf, a))
    && (forall e :: e in stats.byEntityType <==> CountKey(logs, EntityOf, e) > 0)
    && (forall e :: e in stats.byEntityType ==> stats.byEntityType[e] == CountKey(logs, EntityOf, e))
  }

  /** `counts[key(log)] = (counts[key(log)] || 0) + 1` over every log, in order. */
  method CountBy<K>(logs: seq<LogRecord>, key: LogRecord -> K) returns (counts: map<K, nat>)
    ensures forall k :: k in counts <==> CountKey(logs, key, k) > 0
    ensures forall k :: k in counts ==> counts[k] == CountKey(logs, key, k)
  {
    counts := map[];
    var i := 0;
    while i < |logs|
      invariant 0 <= i <= |logs|
      invariant forall k :: k in counts <==> CountKey(logs[..i], key, k) > 0
      invariant forall k :: k in counts ==> counts[k] == CountKey(logs[..i], key, k)
    {
      var k := key(logs[i]);
      var before := if k in counts then counts[k] else 0;
      assert before == CountKey(logs[..i], key, k);
      counts := counts[k := before + 1];
      assert logs[..i + 1] == logs[..i] + [logs[i]];
      forall k' ensures CountKey(logs[..i + 1], key, k') == CountKey(logs[..i], key, k') + (if k == k' then 1 else 0) {
        CountKeyAppend(logs[..i], logs[i], key, k');
      }
      i := i + 1;
    }
    assert logs[..|logs|] == logs;
  }

  /** The `forEach` that counts by action and by entity type. */
  method Tally(logs: seq<LogRecord>) returns (stats: Stats)
    ensures StatsOf(stats, logs)
  {
    var byAction := CountBy(logs, ActionOf);
    var byEntity := CountBy(logs, EntityOf);
    stats := Stats(|logs|, byAction, byEntity, []);
  }

  function ActionIndex(a: Action): nat {
    match a
    case Create => 0 case Update => 1 case Delete => 2 case Login => 3 case Logout => 4 case Invite => 5
    case AcceptInvitation => 6 case Cancel => 7 case Reactivate => 8 case StatusChange => 9 case DeleteItem => 10
  }

  function EntityIndex(e: EntityType): nat {
    match e
    case PackagingEntity => 0 case OrderEntity => 1 case UserEntity => 2 case InvitationEntity => 3 case AuthEntity => 4
  }

  lemma ActionListedOnce(a: Action)
    ensures Occurrences(AllActions, a) == 1
  {
    assert forall j :: 0 <= j < |AllActions| ==> ActionIndex(AllActions[j]) == j;
    OccursOnce(AllActions, a, ActionIndex(a));
  }

  lemma EntityListedOnce(e: EntityType)
    ensures Occurrences(AllEntityTypes, e) == 1
  {
    assert forall j :: 0 <= j < |AllEntityTypes| ==> EntityIndex(AllEntityTypes[j]) == j;
    OccursOnce(AllEntityTypes, e, EntityIndex(e));
  }

  /** The per-action counts, and the per-entity-type counts, each add up to the total. */
  lemma StatsAddUp(stats: Stats, logs: seq<LogRecord>)
    requires StatsOf(stats, logs)
    ensures SumCounts(logs, ActionOf, AllActions) == stats.total
    ensures SumCounts(logs, EntityOf, AllEntityTypes) == stats.total
  {
    forall i | 0 <= i < |logs| ensures Occurrences(AllActions, ActionOf(logs[i])) == 1 {
      ActionListedOnce(ActionOf(logs[i]));
    }
    forall i | 0 <= i < |logs| ensures Occurrences(AllEntityTypes, EntityOf(logs[i])) == 1 {
      EntityListedOnce(EntityOf(logs[i]));
    }
    SumCountsTotal(logs, ActionOf, AllActions);
    SumCountsTotal(logs, EntityOf, AllEntityTypes);
  }
}
