/**
 * The record store: `JobRecord` (job_agent/store/models.py:7-28) and
 * `JobRepository` (job_agent/store/repo.py).
 *
 * The database table is a map from `job_key`, its primary key, to the record,
 * so there is at most one record per key. Timestamps are integers (seconds);
 * the clock is read by the caller and passed in as `now`.
 *
 * The table operations are first given as functions on maps, with lemmas
 * about them; the class `JobRepository` holds the table in a field and its
 * methods are proved to update it as those functions say.
 */
module Store {
  import opened Wrappers
  import opened Models

  /** `timedelta(days=1)`, in seconds. */
  const Day: int := 86400

  /** One row of the `jobs` table. `score_reasons`, stored as JSON text, is kept as the list it
      encodes; `created_at` and `updated_at` are left out. */
  datatype JobRecord = JobRecord(
    jobKey: string,
    source: string,
    title: string,
    company: string,
    location: string,
    url: string,
    postedText: string,
    description: string,
    firstSeenAt: int,
    score: int,
    scoreReasons: seq<string>,
    action: Action,
    emailedAt: Option<int>,
    status: string)

  type Table = map<string, JobRecord>

  /** Every record is filed under its own key. */
  predicate WellKeyed(t: Table) {
    forall k :: k in t ==> t[k].jobKey == k
  }

  /** The row `insert` builds (repo.py:23-37): the posting, its key and first-seen time, the
      score result, status "NEW" and no `emailed_at`. */
  function NewRecord(observed: ObservedJob, result: ScoreResult): JobRecord {
    var job := observed.job;
    JobRecord(observed.jobKey, job.source, job.title, job.company, job.location, job.url,
              job.postedText, job.description, observed.firstSeenAt,
              result.score, result.reasons, result.action, None, "NEW")
  }

  /** The posting a record was made from. */
  function PostingOf(r: JobRecord): JobPosting {
    JobPosting(r.source, r.title, r.company, r.location, r.url, r.postedText, r.description)
  }

  /** The score result a record holds. */
  function ResultOf(r: JobRecord): ScoreResult {
    ScoreResult(r.score, r.scoreReasons, r.action)
  }

  /** A new record keeps the whole posting, its key and first-seen time, and the whole score result:
      nothing `insert` is given is lost. */
  lemma NewRecordKeepsInputs(observed: ObservedJob, result: ScoreResult)
    ensures var r := NewRecord(observed, result);
            PostingOf(r) == observed.job && ResultOf(r) == result &&
            r.jobKey == observed.jobKey && r.firstSeenAt == observed.firstSeenAt
  {
  }

  /** The table after a successful `insert`. */
  function Inserted(t: Table, observed: ObservedJob, result: ScoreResult): Table {
    t[observed.jobKey := NewRecord(observed, result)]
  }

  /** The table after `mark_emailed(key)` at time `now` (repo.py:41-46). */
  function MarkedEmailed(t: Table, key: string, now: int): Table {
    if key in t then t[key := t[key].(emailedAt := Some(now))] else t
  }

  /** The table after `mark_status(key, status)` (repo.py:48-53). */
  function MarkedStatus(t: Table, key: string, status: string): Table {
    if key in t then t[key := t[key].(status := status)] else t
  }

  /** The filter of `list_digest` (repo.py:58-62): emailed, and no earlier than one day before `now`. */
  predicate InDigestWindow(r: JobRecord, now: int) {
    r.emailedAt.Some? && r.emailedAt.value >= now - Day
  }

  /** The records `list_digest` returns, as a set. */
  function DigestRecords(t: Table, now: int): set<JobRecord> {
    set k | k in t && InDigestWindow(t[k], now) :: t[k]
  }

  /** Ordered by `emailed_at`, newest first. */
  predicate NewestFirst(rows: seq<JobRecord>) {
    && (forall i :: 0 <= i < |rows| ==> rows[i].emailedAt.Some?)
    && (forall i, j :: 0 <= i < j < |rows| ==> rows[i].emailedAt.value >= rows[j].emailedAt.value)
  }

  // ---------------------------------------------------------------------
  // Properties of the table operations

  /** `insert` adds exactly the new key, files the new record under it with status "NEW", no
      `emailed_at` and the score, reasons and action of the result, and keeps every other record. */
  lemma InsertedContents(t: Table, observed: ObservedJob, result: ScoreResult)
    requires WellKeyed(t) && observed.jobKey !in t
    ensures var t' := Inserted(t, observed, result);
            && WellKeyed(t')
            && t'.Keys == t.Keys + {observed.jobKey}
            && (forall k :: k in t ==> t'[k] == t[k])
            && t'[observed.jobKey].status == "NEW"
            && t'[observed.jobKey].emailedAt == None
            && t'[observed.jobKey].score == result.score
            && t'[observed.jobKey].scoreReasons == result.reasons
            && t'[observed.jobKey].action == result.action
            && |t'| == |t| + 1
  {
  }

  /** `mark_emailed` changes nothing on an absent key; on a present key it sets `emailed_at` to
      `now`, keeps every other field and every other record, and never adds or removes a key. */
  lemma MarkedEmailedFrame(t: Table, key: string, now: int)
    requires WellKeyed(t)
    ensures var t' := MarkedEmailed(t, key, now);
            && WellKeyed(t')
            && t'.Keys == t.Keys
            && (key !in t ==> t' == t)
            && (forall k :: k in t && k != key ==> t'[k] == t[k])
            && (key in t ==> t'[key].emailedAt == Some(now) && t'[key].(emailedAt := t[key].emailedAt) == t[key])
  {
  }

  /** Marking twice keeps only the last time: `emailed_at` is last-write-wins. */
  lemma MarkedEmailedLastWriteWins(t: Table, key: string, first: int, second: int)
    ensures MarkedEmailed(MarkedEmailed(t, key, first), key, second) == MarkedEmailed(t, key, second)
  {
  }

  /** `mark_status` accepts any status, with no transition check: on a present key the status is
      overwritten and nothing else changes; on an absent key nothing changes. */
  lemma MarkedStatusFrame(t: Table, key: string, status: string)
    requires WellKeyed(t)
    ensures var t' := MarkedStatus(t, key, status);
            && WellKeyed(t')
            && t'.Keys == t.Keys
            && (key !in t ==> t' == t)
            && (forall k :: k in t && k != key ==> t'[k] == t[k])
            && (key in t ==> t'[key].status == status && t'[key].(status := t[key].status) == t[key])
  {
  }

  /** A record enters the digest only once it has been emailed within the last day: marking it
      emailed at `now` puts it in the digest taken at `now`. */
  lemma MarkedEmailedEntersDigest(t: Table, key: string, now: int)
    requires key in t
    ensures MarkedEmailed(t, key, now)[key] in DigestRecords(MarkedEmailed(t, key, now), now)
  {
  }

  /** A record that was never emailed is not in the digest. */
  lemma NeverEmailedNotInDigest(t: Table, key: string, now: int)
    requires WellKeyed(t) && key in t && t[key].emailedAt == None
    ensures forall r :: r in DigestRecords(t, now) ==> r.jobKey != key
  {
  }

  // ---------------------------------------------------------------------
  // Sorting the digest

  /** Inserts `r` into rows ordered newest first, before the first row emailed no later than it. */
  function InsertNewestFirst(rows: seq<JobRecord>, r: JobRecord): (out: seq<JobRecord>)
    requires r.emailedAt.Some? && NewestFirst(rows)
    ensures NewestFirst(out)
    ensures multiset(out) == multiset(rows) + multiset{r}
  {
    if rows == [] || rows[0].emailedAt.value <= r.emailedAt.value then
      PrependNewest(r, rows);
      [r] + rows
    else
      var tail := InsertNewestFirst(rows[1..], r);
      TailBound(rows, r, tail);
      PrependNewest(rows[0], tail);
      HeadAndRest(rows);
      [rows[0]] + tail
  }

  lemma HeadAndRest(rows: seq<JobRecord>)
    requires rows != []
    ensures multiset(rows) == multiset{rows[0]} + multiset(rows[1..])
  {
    assert rows == [rows[0]] + rows[1..];
  }

  /** A record emailed no earlier than every row may go in front. */
  lemma PrependNewest(x: JobRecord, rows: seq<JobRecord>)
    requires x.emailedAt.Some? && NewestFirst(rows)
    requires forall y :: y in rows ==> x.emailedAt.value >= y.emailedAt.value
    ensures NewestFirst([x] + rows)
  {
    var out := [x] + rows;
    forall i, j | 0 <= i < j < |out|
      ensures out[i].emailedAt.value >= out[j].emailedAt.value
    {
      assert out[j] == rows[j - 1] && out[j] in rows;
      if i > 0 {
        assert out[i] == rows[i - 1];
      }
    }
  }

  /** The first row of a newest-first list, emailed after `r`, is no older than anything in the
      rest with `r` inserted. */
  lemma TailBound(rows: seq<JobRecord>, r: JobRecord, tail: seq<JobRecord>)
    requires rows != [] && NewestFirst(rows) && r.emailedAt.Some?
    requires rows[0].emailedAt.value > r.emailedAt.value
    requires multiset(tail) == multiset(rows[1..]) + multiset{r}
    ensures forall y :: y in tail ==> y.emailedAt.Some? && rows[0].emailedAt.value >= y.emailedAt.value
  {
    forall y | y in tail
      ensures y.emailedAt.Some? && rows[0].emailedAt.value >= y.emailedAt.value
    {
      assert y in multiset(tail);
      if y != r {
        assert y in rows[1..];
        var j :| 0 <= j < |rows[1..]| && rows[1..][j] == y;
        assert rows[j + 1] == y;
      }
    }
  }

  datatype InsertOutcome = Added | DuplicateKey

  /** `JobRepository` (repo.py:10-63): the table is the field `records`. */
  class JobRepository {
    var records: Table

    ghost predicate Valid()
      reads this
    {
      WellKeyed(records)
    }

    /** `JobRepository(session)` (repo.py:13-14): the repository sees the rows the database
        already holds, `t`, from earlier runs included. */
    constructor (t: Table)
      requires WellKeyed(t)
      ensures Valid() && records == t
    {
      records := t;
    }

    /** `exists` (repo.py:16-18). */
    method Exists(key: string) returns (found: bool)
      ensures found <==> key in records
    {
      found := key in records;
    }

    /** `insert` (repo.py:20-39). The primary key makes a second insert under the same key fail
        (the commit raises); that failure is the outcome `DuplicateKey` and leaves the table as it was. */
    method Insert(observed: ObservedJob, result: ScoreResult) returns (outcome: InsertOutcome)
      requires Valid()
      modifies this
      ensures Valid()
      ensures old(observed.jobKey in records) ==> outcome == DuplicateKey && records == old(records)
      ensures old(observed.jobKey !in records) ==> outcome == Added && records == Inserted(old(records), observed, result)
    {
      if observed.jobKey in records {
        outcome := DuplicateKey;
      } else {
        InsertedContents(records, observed, result);
        records := records[observed.jobKey := NewRecord(observed, result)];
        outcome := Added;
      }
    }

    /** `mark_emailed` (repo.py:41-46), with the current time passed in. */
    method MarkEmailed(key: string, now: int)
      requires Valid()
      modifies this
      ensures Valid()
      ensures records == MarkedEmailed(old(records), key, now)
    {
      if key in records {
        var record := records[key];
        records := records[key := record.(emailedAt := Some(now))];
      }
    }

    /** `mark_status` (repo.py:48-53). */
    method MarkStatus(key: string, status: string)
      requires Valid()
      modifies this
      ensures Valid()
      ensures records == MarkedStatus(old(records), key, status)
    {
      if key in records {
        var record := records[key];
        records := records[key := record.(status := status)];
      }
    }

    /** `list_digest` (repo.py:55-63), with the current time passed in: exactly the records emailed
        within the last day, each once, newest first. */
    method ListDigest(now: int) returns (rows: seq<JobRecord>)
      requires Valid()
      ensures multiset(rows) == multiset(DigestRecords(records, now))
      ensures NewestFirst(rows)
    {
      rows := [];
      var pending := records.Keys;
      while pending != {}
        invariant pending <= records.Keys
        invariant multiset(rows) == multiset(Selected(records, now, pending))
        invariant NewestFirst(rows)
        decreases |pending|
      {
        var k :| k in pending;
        SelectedStep(records, now, pending, k);
        pending := pending - {k};
        var record := records[k];
        if record.emailedAt.Some? && record.emailedAt.value >= now - Day {
          rows := InsertNewestFirst(rows, record);
        }
      }
      assert Selected(records, now, {}) == DigestRecords(records, now);
    }
  }

  /** The digest records whose keys are no longer pending. */
  function Selected(t: Table, now: int, pending: set<string>): set<JobRecord> {
    set k | k in t && k !in pending && InDigestWindow(t[k], now) :: t[k]
  }

  /** Taking key `k` off the pending set adds its record to the selection when it is in the window,
      and that record was not selected before. */
  lemma SelectedStep(t: Table, now: int, pending: set<string>, k: string)
    requires WellKeyed(t) && k in pending && k in t
    ensures var before, after := Selected(t, now, pending), Selected(t, now, pending - {k});
            && (InDigestWindow(t[k], now) ==> t[k] !in before && after == before + {t[k]})
            && (!InDigestWindow(t[k], now) ==> after == before)
  {
  }
}
