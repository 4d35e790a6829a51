/** Durable synchronization of one week: immutable, content-addressed snapshots and a separate
    confirmation marker per week. */
module ScheduleSync {
  import opened Wrappers
  import opened Ordering
  import opened Days
  import opened Schedule
  import opened SnapshotHash
  import Matching
  import Diff = ScheduleDiff

  datatype Week = Week(group: string, monday: int)

  datatype SourceFailure = Unavailable | GroupNotFound | InvalidResponse

  datatype SyncError = InvalidRequest | HashMismatch | DuplicateIdentities | IncompleteSnapshot

  datatype Row = Row(week: Week, fetchedAt: int, contentHash: string, complete: bool, parity: Option<Parity>, lessons: seq<Lesson>)

  datatype Marker = Marker(
    snapshotId: Option<nat>, confirmedAt: Option<int>, parity: Option<Parity>,
    lastAttemptFailed: bool, failure: Option<SourceFailure>)

  datatype Version = Version(id: nat, lessons: seq<Lesson>)

  datatype Confirmation = Confirmation(
    version: Option<Version>, confirmedAt: Option<int>, parity: Option<Parity>,
    lastAttemptFailed: bool, failure: Option<SourceFailure>)

  datatype SyncResult = SyncResult(
    version: Option<Version>, confirmedAt: Option<int>, parity: Option<Parity>,
    created: bool, changes: seq<Diff.Change>)

  type Markers = map<Week, Marker>

  // ---------------------------------------------------------------- reading

  function LoadVersion(x: Rules, h: Hashes, rows: seq<Row>, id: nat): Result<Version, SyncError>
    requires id < |rows|
  {
    var back := Reloaded(x, h, rows[id].lessons);
    if ContentHash(x, h, back) != rows[id].contentHash then Failure(HashMismatch)
    else if !KeysDistinct(x, h, back) then Failure(DuplicateIdentities)
    else Success(Version(id, back))
  }

  /** The complete snapshot of the week that was fetched last, for stores without a marker. */
  function LatestComplete(rows: seq<Row>, week: Week): (r: Option<nat>)
    ensures r.Some? ==> r.value < |rows| && rows[r.value].week == week && rows[r.value].complete
    ensures r.Some? ==> forall i: nat | i < |rows| && rows[i].week == week && rows[i].complete ::
                          rows[i].fetchedAt < rows[r.value].fetchedAt ||
                          (rows[i].fetchedAt == rows[r.value].fetchedAt && i <= r.value)
    ensures r.None? ==> forall i | 0 <= i < |rows| :: rows[i].week != week || !rows[i].complete
  {
    if rows == [] then None
    else
      var last := |rows| - 1;
      var best := LatestComplete(rows[..last], week);
      if rows[last].week == week && rows[last].complete
         && (best.None? || rows[best.value].fetchedAt <= rows[last].fetchedAt)
      then Some(last) else best
  }

  function LoadConfirmation(x: Rules, h: Hashes, rows: seq<Row>, markers: Markers, week: Week)
    : Result<Confirmation, SyncError>
  {
    if week in markers && markers[week].snapshotId.None? then
      var m := markers[week];
      Success(Confirmation(None, m.confirmedAt, m.parity, m.lastAttemptFailed, m.failure))
    else if week in markers && MarkerUsable(rows, markers[week], week) then
      var m := markers[week];
      match LoadVersion(x, h, rows, m.snapshotId.value)
      case Success(v) => Success(Confirmation(Some(v), m.confirmedAt, m.parity, m.lastAttemptFailed, m.failure))
      case Failure(e) => Failure(e)
    else
      match LatestComplete(rows, week)
      case None => Success(Confirmation(None, None, None, false, None))
      case Some(id) =>
        match LoadVersion(x, h, rows, id)
        case Success(v) => Success(Confirmation(Some(v), Some(rows[id].fetchedAt), rows[id].parity, false, None))
        case Failure(e) => Failure(e)
  }

  predicate MarkerUsable(rows: seq<Row>, m: Marker, week: Week) {
    m.snapshotId.Some? && m.snapshotId.value < |rows|
    && rows[m.snapshotId.value].complete && rows[m.snapshotId.value].week == week
  }

  function FindContent(rows: seq<Row>, week: Week, contentHash: string): (r: Option<nat>)
    ensures r.Some? ==> r.value < |rows| && rows[r.value].week == week && rows[r.value].contentHash == contentHash
    ensures r.None? ==> forall i | 0 <= i < |rows| :: rows[i].week != week || rows[i].contentHash != contentHash
  {
    if rows == [] then None
    else if rows[|rows| - 1].week == week && rows[|rows| - 1].contentHash == contentHash then Some(|rows| - 1)
    else FindContent(rows[..|rows| - 1], week, contentHash)
  }

  /** A marker that names a complete snapshot of its week is what is confirmed: that snapshot, and the
      marker's own time, parity and last failure. */
  lemma MarkerDecides(x: Rules, h: Hashes, rows: seq<Row>, markers: Markers, week: Week, id: nat)
    requires week in markers && markers[week].snapshotId == Some(id)
    requires id < |rows| && rows[id].week == week && rows[id].complete
    requires LoadConfirmation(x, h, rows, markers, week).Success?
    ensures var c, m := LoadConfirmation(x, h, rows, markers, week).value, markers[week];
            && c.version.Some? && c.version.value.id == id && multiset(c.version.value.lessons) == multiset(rows[id].lessons)
            && c.confirmedAt == m.confirmedAt && c.parity == m.parity
            && c.lastAttemptFailed == m.lastAttemptFailed && c.failure == m.failure
  {
    SortKeepsElements(rows[id].lessons, ByStoredKey(x, h));
  }

  /** Without a marker, or with one that names no complete snapshot of the week, the complete snapshot
      fetched last is confirmed, the one stored last if two were fetched at once. */
  lemma LastFetchedWithoutMarker(x: Rules, h: Hashes, rows: seq<Row>, markers: Markers, week: Week, id: nat)
    requires week in markers ==> markers[week].snapshotId.Some?
    requires week in markers && markers[week].snapshotId.value < |rows| ==>
               var row := rows[markers[week].snapshotId.value]; row.week != week || !row.complete
    requires id < |rows| && rows[id].week == week && rows[id].complete
    requires forall i | 0 <= i < |rows| && rows[i].week == week && rows[i].complete ::
               rows[i].fetchedAt < rows[id].fetchedAt || (rows[i].fetchedAt == rows[id].fetchedAt && i <= id)
    requires LoadConfirmation(x, h, rows, markers, week).Success?
    ensures var c := LoadConfirmation(x, h, rows, markers, week).value;
            && c.version.Some? && c.version.value.id == id && multiset(c.version.value.lessons) == multiset(rows[id].lessons)
            && c.confirmedAt == Some(rows[id].fetchedAt) && c.parity == rows[id].parity
            && !c.lastAttemptFailed && c.failure.None?
  {
    SortKeepsElements(rows[id].lessons, ByStoredKey(x, h));
  }

  // ---------------------------------------------------------------- what every run keeps

  /** The last successful fetch of a week. */
  datatype Good = Good(lessons: seq<Lesson>, at: int, parity: Parity)

  ghost predicate RowOk(x: Rules, h: Hashes, row: Row) {
    && row.complete
    && row.contentHash == ContentHash(x, h, row.lessons)
    && KeysDistinct(x, h, row.lessons)
  }

  ghost predicate Confirms(x: Rules, h: Hashes, rows: seq<Row>, m: Marker, week: Week, good: Good) {
    && MarkerUsable(rows, m, week)
    && rows[m.snapshotId.value].contentHash == ContentHash(x, h, good.lessons)
    && m.confirmedAt == Some(good.at) && m.parity == Some(good.parity)
  }

  ghost predicate Inv(x: Rules, h: Hashes, rows: seq<Row>, markers: Markers, lastGood: map<Week, Good>) {
    && (forall i | 0 <= i < |rows| :: RowOk(x, h, rows[i]) && rows[i].week in lastGood)
    && (forall w | w in lastGood :: w in markers && Confirms(x, h, rows, markers[w], w, lastGood[w]))
    && (forall w | w in markers && w !in lastGood :: markers[w].snapshotId.None? && markers[w].confirmedAt.None?)
  }

  lemma ReloadKeepsKeysDistinct(x: Rules, h: Hashes, lessons: seq<Lesson>)
    requires KeysDistinct(x, h, lessons)
    ensures KeysDistinct(x, h, Reloaded(x, h, lessons))
  {
    var back := Reloaded(x, h, lessons);
    SortKeepsElements(lessons, ByStoredKey(x, h));
    assert Distinct(lessons);
    PermutationKeepsDistinct(lessons, back);
    forall i, j | 0 <= i < j < |back| ensures LessonKey(x, h, back[i]) != LessonKey(x, h, back[j]) {
      InMultiset(back, lessons, back[i]);
      InMultiset(back, lessons, back[j]);
      if LessonKey(x, h, back[i]) == LessonKey(x, h, back[j]) {
        SameKeySameLesson(x, h, lessons, back[i], back[j]);
      }
    }
  }

  /** A stored row can be read back exactly when its tied lessons were stored in key order. */
  lemma LoadVersionIff(x: Rules, h: Hashes, rows: seq<Row>, id: nat)
    requires HashesOk(h) && id < |rows| && RowOk(x, h, rows[id])
    ensures LoadVersion(x, h, rows, id).Success? <==> TiesInKeyOrder(x, h, rows[id].lessons)
    ensures LoadVersion(x, h, rows, id).Failure? ==> LoadVersion(x, h, rows, id).error == HashMismatch
    ensures LoadVersion(x, h, rows, id).Success? ==>
              CanonicalList(x, LoadVersion(x, h, rows, id).value.lessons) == CanonicalList(x, rows[id].lessons)
  {
    ReloadPassesIff(x, h, rows[id].lessons);
    ReloadKeepsKeysDistinct(x, h, rows[id].lessons);
  }

  /** The confirmed week has the canonical content of the last successful fetch, its time and its
      parity, no matter how many failed checks came after it. Reading it back fails exactly when
      the snapshot behind the marker was stored with tied lessons out of key order. */
  lemma ConfirmedIsLastFetch(x: Rules, h: Hashes, rows: seq<Row>, markers: Markers, lastGood: map<Week, Good>, week: Week)
    requires HashesOk(h) && Inv(x, h, rows, markers, lastGood) && week in lastGood
    ensures var id := markers[week].snapshotId.value;
            LoadConfirmation(x, h, rows, markers, week).Success? <==> TiesInKeyOrder(x, h, rows[id].lessons)
    ensures match LoadConfirmation(x, h, rows, markers, week)
            case Failure(e) => e == HashMismatch
            case Success(c) =>
              && c.version.Some?
              && CanonicalList(x, c.version.value.lessons) == CanonicalList(x, lastGood[week].lessons)
              && c.confirmedAt == Some(lastGood[week].at) && c.parity == Some(lastGood[week].parity)
  {
    var id := markers[week].snapshotId.value;
    assert RowOk(x, h, rows[id]);
    LoadVersionIff(x, h, rows, id);
  }

  /** A week that was never fetched successfully is never reported as confirmed. */
  lemma NeverFetchedIsUnconfirmed(x: Rules, h: Hashes, rows: seq<Row>, markers: Markers, lastGood: map<Week, Good>, week: Week)
    requires Inv(x, h, rows, markers, lastGood) && week !in lastGood
    ensures LoadConfirmation(x, h, rows, markers, week).Success?
    ensures LoadConfirmation(x, h, rows, markers, week).value.version.None?
    ensures LoadConfirmation(x, h, rows, markers, week).value.confirmedAt.None?
    ensures week !in markers ==> !LoadConfirmation(x, h, rows, markers, week).value.lastAttemptFailed
                                 && LoadConfirmation(x, h, rows, markers, week).value.failure.None?
  {
  }

  // ---------------------------------------------------------------- freshness

  datatype Freshness = Fresh | Stale | NotAvailable

  function FreshnessOf(checkedAt: int, confirmedAt: Option<int>, freshFor: int, forceStale: bool): Freshness {
    if confirmedAt.None? then NotAvailable
    else if !forceStale && 0 <= checkedAt - confirmedAt.value <= freshFor then Fresh
    else Stale
  }

  /** What was confirmed is fresh from the time of the last good fetch until the window closes, if no
      check failed since; before and after it is stale, and without a good fetch there is nothing. */
  lemma FreshIff(x: Rules, h: Hashes, rows: seq<Row>, markers: Markers, lastGood: map<Week, Good>,
                 week: Week, now: int, freshFor: int)
    requires HashesOk(h) && Inv(x, h, rows, markers, lastGood)
    requires LoadConfirmation(x, h, rows, markers, week).Success?
    ensures var c := LoadConfirmation(x, h, rows, markers, week).value;
            var verdict := FreshnessOf(now, c.confirmedAt, freshFor, c.lastAttemptFailed);
            && (verdict == NotAvailable <==> week !in lastGood)
            && (verdict == Fresh <==> week in lastGood && !markers[week].lastAttemptFailed
                                      && lastGood[week].at <= now <= lastGood[week].at + freshFor)
  {
    if week in lastGood {
      ConfirmedIsLastFetch(x, h, rows, markers, lastGood, week);
    } else {
      NeverFetchedIsUnconfirmed(x, h, rows, markers, lastGood, week);
    }
  }

  // ---------------------------------------------------------------- writing

  function FailedMarker(p: Confirmation, failure: SourceFailure): Marker {
    Marker(if p.version.Some? then Some(p.version.value.id) else None, p.confirmedAt, p.parity, true, Some(failure))
  }

  function GoodMarker(id: nat, good: Good): Marker {
    Marker(Some(id), Some(good.at), Some(good.parity), false, None)
  }

  lemma FailureKeepsInv(x: Rules, h: Hashes, rows: seq<Row>, markers: Markers, lastGood: map<Week, Good>,
                        week: Week, failure: SourceFailure)
    requires Inv(x, h, rows, markers, lastGood)
    requires LoadConfirmation(x, h, rows, markers, week).Success?
    ensures Inv(x, h, rows,
                markers[week := FailedMarker(LoadConfirmation(x, h, rows, markers, week).value, failure)], lastGood)
  {
    if week in lastGood {
      assert Confirms(x, h, rows, markers[week], week, lastGood[week]);
      assert RowOk(x, h, rows[markers[week].snapshotId.value]);
    } else {
      NeverFetchedIsUnconfirmed(x, h, rows, markers, lastGood, week);
    }
  }

  lemma SuccessKeepsInv(x: Rules, h: Hashes, rows: seq<Row>, rows': seq<Row>, markers: Markers,
                        lastGood: map<Week, Good>, week: Week, id: nat, good: Good)
    requires Inv(x, h, rows, markers, lastGood) && rows <= rows'
    requires forall i | |rows| <= i < |rows'| :: RowOk(x, h, rows'[i]) && rows'[i].week == week
    requires id < |rows'| && rows'[id].week == week && rows'[id].contentHash == ContentHash(x, h, good.lessons)
    ensures Inv(x, h, rows', markers[week := GoodMarker(id, good)], lastGood[week := good])
  {
    var markers', lastGood' := markers[week := GoodMarker(id, good)], lastGood[week := good];
    forall i | 0 <= i < |rows'| ensures RowOk(x, h, rows'[i]) && rows'[i].week in lastGood' {
      if i < |rows| {
        assert rows'[i] == rows[i];
      }
    }
    forall w | w in lastGood' ensures w in markers' && Confirms(x, h, rows', markers'[w], w, lastGood'[w]) {
      if w != week {
        assert Confirms(x, h, rows, markers[w], w, lastGood[w]);
      }
    }
  }

  /** A fetched week can be stored: its content is new and its identities differ, or the stored
      snapshot with that content can be read back. */
  predicate Storable(x: Rules, h: Hashes, rows: seq<Row>, week: Week, lessons: seq<Lesson>) {
    match FindContent(rows, week, ContentHash(x, h, lessons))
    case None => KeysDistinct(x, h, lessons)
    case Some(id) => rows[id].complete && LoadVersion(x, h, rows, id).Success?
  }

  class Service {
    const x: Rules
    const h: Hashes
    const retainTeachers: bool
    var rows: seq<Row>
    var markers: Markers
    ghost var lastGood: map<Week, Good>

    ghost predicate Valid()
      reads this
    {
      Inv(x, h, rows, markers, lastGood)
    }

    constructor (x: Rules, h: Hashes, retainTeachers: bool)
      ensures Valid() && this.x == x && this.h == h && this.retainTeachers == retainTeachers && lastGood == map[]
    {
      this.x, this.h, this.retainTeachers := x, h, retainTeachers;
      rows, markers, lastGood := [], map[], map[];
    }

    method StoreSnapshot(week: Week, lessons: seq<Lesson>, parity: Parity, checkedAt: int)
      returns (r: Result<Version, SyncError>, created: bool)
      modifies this`rows
      ensures r.Success? <==> Storable(x, h, old(rows), week, lessons)
      ensures old(rows) <= rows && (r.Failure? ==> rows == old(rows))
      ensures r.Success? ==> ContentHash(x, h, r.value.lessons) == ContentHash(x, h, lessons)
      ensures created <==> FindContent(old(rows), week, ContentHash(x, h, lessons)).None? && KeysDistinct(x, h, lessons)
      ensures created ==>
                && rows == old(rows) + [Row(week, checkedAt, ContentHash(x, h, lessons), true, Some(parity), lessons)]
                && r == Success(Version(|old(rows)|, lessons))
      ensures !created ==> rows == old(rows)
      ensures r.Success? ==>
                && r.value.id < |rows| && rows[r.value.id].week == week
                && rows[r.value.id].contentHash == ContentHash(x, h, lessons)
      ensures !created && r.Success? ==> LoadVersion(x, h, rows, r.value.id) == r
      ensures FindContent(old(rows), week, ContentHash(x, h, lessons)).None? && !KeysDistinct(x, h, lessons) ==>
                r == Failure(DuplicateIdentities)
    {
      var contentHash := ContentHash(x, h, lessons);
      var existing := FindContent(rows, week, contentHash);
      if existing.Some? {
        if !rows[existing.value].complete {
          return Failure(IncompleteSnapshot), false;
        }
        r := LoadVersion(x, h, rows, existing.value);
        return r, false;
      }
      if !KeysDistinct(x, h, lessons) {
        return Failure(DuplicateIdentities), false;
      }
      r := Success(Version(|rows|, lessons));
      rows := rows + [Row(week, checkedAt, contentHash, true, Some(parity), lessons)];
      created := true;
    }

    /** A failed check leaves the confirmed version in place and only marks it as stale. */
    method RecordFailedAttempt(week: Week, confirmation: Confirmation, failure: SourceFailure)
      requires Valid() && LoadConfirmation(x, h, rows, markers, week) == Success(confirmation)
      modifies this`markers
      ensures Valid()
      ensures markers == old(markers)[week := FailedMarker(confirmation, failure)]
    {
      FailureKeepsInv(x, h, rows, markers, lastGood, week, failure);
      markers := markers[week := FailedMarker(confirmation, failure)];
    }

    method CompareVersions(week: Week, previous: Option<Version>, current: Version, checkedAt: int)
      returns (changes: seq<Diff.Change>)
      ensures ChangesBetween(previous, current, changes)
    {
      if previous.None? || previous.value.id == current.id {
        return [];
      }
      var d, source, chosen := Diff.DiffSchedules(
        x, Snapshot("spbgasu", week.group, checkedAt, previous.value.lessons),
        Snapshot("spbgasu", week.group, checkedAt, current.lessons));
      changes := d.value;
    }

    /** The changes between two versions of a week: those of a matching, none without an earlier version
        or against the very same one. */
    ghost predicate ChangesBetween(previous: Option<Version>, current: Version, changes: seq<Diff.Change>) {
      if previous.None? || previous.value.id == current.id then changes == []
      else exists source, chosen ::
        && IsMatching(x, previous.value.lessons, current.lessons, source, chosen)
        && Diff.InRange(previous.value.lessons, current.lessons, Pairs(source, chosen))
        && changes == Diff.Report(x, previous.value.lessons, current.lessons, Pairs(source, chosen))
    }

    method Confirm(week: Week, parity: Parity, lessons: seq<Lesson>, checkedAt: int, previous: Confirmation)
      returns (r: Result<SyncResult, SyncError>)
      requires Valid()
      modifies this
      ensures Valid()
      ensures r.Success? ==>
                && r.value.version.Some? && r.value.confirmedAt == Some(checkedAt) && r.value.parity == Some(parity)
                && ContentHash(x, h, r.value.version.value.lessons) == ContentHash(x, h, lessons)
                && (r.value.created <==> forall i | 0 <= i < |old(rows)| ::
                      old(rows)[i].week != week || old(rows)[i].contentHash != ContentHash(x, h, lessons))
                && ChangesBetween(previous.version, r.value.version.value, r.value.changes)
      ensures r.Success? <==> Storable(x, h, old(rows), week, lessons)
      ensures r.Failure? ==> rows == old(rows) && markers == old(markers) && lastGood == old(lastGood)
      ensures r.Success? ==>
                && old(rows) <= rows
                && lastGood == old(lastGood)[week := Good(lessons, checkedAt, parity)]
                && r.value.version.Some? && r.value.confirmedAt == Some(checkedAt)
                && markers == old(markers)[week := GoodMarker(r.value.version.value.id, Good(lessons, checkedAt, parity))]
    {
      var stored, created := StoreSnapshot(week, lessons, parity, checkedAt);
      if stored.Failure? {
        return Failure(stored.error);
      }
      var current := stored.value;
      var changes := CompareVersions(week, previous.version, current, checkedAt);
      ghost var good := Good(lessons, checkedAt, parity);
      assert forall i | |old(rows)| <= i < |rows| :: RowOk(x, h, rows[i]) && rows[i].week == week;
      SuccessKeepsInv(x, h, old(rows), rows, markers, lastGood, week, current.id, good);
      markers := markers[week := Marker(Some(current.id), Some(checkedAt), Some(parity), false, None)];
      lastGood := lastGood[week := good];
      return Success(SyncResult(Some(current), Some(checkedAt), Some(parity), created, changes));
    }

    /** Teacher names are dropped unless they are to be kept. */
    function Retained(lessons: seq<Lesson>): (r: seq<Lesson>)
      ensures |r| == |lessons|
      ensures forall k | 0 <= k < |r| :: r[k] == if retainTeachers then lessons[k] else lessons[k].(teacher := None)
    {
      if retainTeachers then lessons else seq(|lessons|, k requires 0 <= k < |lessons| => lessons[k].(teacher := None))
    }

    /** `fetch` is what the source answered, already materialized for the week. A call that
        cannot read the confirmed version back fails and changes nothing, so the week stays
        unreadable. */
    method SyncWeek(week: Week, parity: Parity, fetch: Result<seq<Lesson>, SourceFailure>, checkedAt: int)
      returns (r: Result<SyncResult, SyncError>)
      requires Valid()
      modifies this
      ensures Valid()
      ensures old(rows) <= rows
      ensures r.Failure? ==> rows == old(rows) && markers == old(markers) && lastGood == old(lastGood)
      ensures week.group == "" || !IsMonday(week.monday) ==> r == Failure(InvalidRequest)
      ensures r.Success? <==>
                && week.group != "" && IsMonday(week.monday)
                && LoadConfirmation(x, h, old(rows), old(markers), week).Success?
                && (fetch.Success? ==> Storable(x, h, old(rows), week, Retained(fetch.value)))
      ensures r.Success? && fetch.Success? ==>
                && lastGood == old(lastGood)[week := Good(Retained(fetch.value), checkedAt, parity)]
                && r.value.version.Some? && r.value.confirmedAt == Some(checkedAt)
                && markers == old(markers)[week := Marker(Some(r.value.version.value.id), Some(checkedAt), Some(parity), false, None)]
      // What the caller is told: whether the content was new for the week, the fetched content itself
      // and what changed since the version confirmed before; after a failed fetch, the old confirmation.
      ensures r.Success? && fetch.Success? ==>
                && r.value.parity == Some(parity)
                && ContentHash(x, h, r.value.version.value.lessons) == ContentHash(x, h, Retained(fetch.value))
                && (HashesOk(h) ==> CanonicalList(x, r.value.version.value.lessons) == CanonicalList(x, Retained(fetch.value)))
                && (r.value.created <==> forall i | 0 <= i < |old(rows)| ::
                      old(rows)[i].week != week || old(rows)[i].contentHash != ContentHash(x, h, Retained(fetch.value)))
                && LoadConfirmation(x, h, old(rows), old(markers), week).Success?
                && ChangesBetween(LoadConfirmation(x, h, old(rows), old(markers), week).value.version, r.value.version.value, r.value.changes)
      ensures r.Success? && fetch.Failure? ==>
                && !r.value.created
                && var before := LoadConfirmation(x, h, old(rows), old(markers), week);
                   before.Success? && r.value.confirmedAt == before.value.confirmedAt && r.value.parity == before.value.parity
      ensures r.Success? && fetch.Failure? ==>
                && lastGood == old(lastGood) && rows == old(rows) && r.value.changes == []
                && var before := LoadConfirmation(x, h, old(rows), old(markers), week);
                   && before.Success? && r.value.version == before.value.version
                   && markers == old(markers)[week := FailedMarker(before.value, fetch.error)]
                   && markers[week].lastAttemptFailed && markers[week].failure == Some(fetch.error)
                   && markers[week].confirmedAt == before.value.confirmedAt && markers[week].parity == before.value.parity
                   && (markers[week].snapshotId.Some? <==> before.value.version.Some?)
                   && (before.value.version.Some? ==> markers[week].snapshotId == Some(before.value.version.value.id))
    {
      if week.group == "" || !IsMonday(week.monday) {
        return Failure(InvalidRequest);
      }
      var previous := LoadConfirmation(x, h, rows, markers, week);
      if previous.Failure? {
        return Failure(previous.error);
      }
      var p := previous.value;
      if fetch.Failure? {
        RecordFailedAttempt(week, p, fetch.error);
        return Success(SyncResult(p.version, p.confirmedAt, p.parity, false, []));
      }
      r := Confirm(week, parity, Retained(fetch.value), checkedAt, p);
    }
  }
}
