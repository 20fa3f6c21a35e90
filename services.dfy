/**
 * The ingestion pipeline (job_agent/core/services.py): `PollingService.run_once`, which takes a
 * batch of postings, skips those already stored, scores and stores the rest and notifies about
 * the ones worth an email; `PollingService._notes`, the text sent along with a notification; and
 * `DigestService.run_daily`, which sends the records emailed during the last day.
 *
 * The job source, the notifier and the clock are parameters: the source is the list its search
 * returned (or `None` when no source is configured), the notifier says for each job key whether
 * `send_job` returns or raises, and the clock is one time `now` for the whole run.
 *
 * A run is first given as a function, `Ingest`, that folds `Step` over the batch; the methods
 * are proved to compute it, and the lemmas state what a run does to the store.
 */
module Services {
  import opened Wrappers
  import opened Models
  import opened Identity
  import opened Scoring
  import opened Store

  /** A notifier: `delivers(key)` is false when `send_job` raises for the posting with that key. */
  datatype Notifier = Notifier(delivers: string -> bool)

  /** One call of `send_job`: the posting, its score and the notes. */
  datatype Notification = Notification(observed: ObservedJob, result: ScoreResult, notes: string)

  /** What a run works with: the key of a URL (`stable_job_key`), the profile, the score of a
      posting (`score` with the profile and scoring configuration of the service), the notifier
      when emails are to be sent, and the time. */
  datatype Context = Context(
    keyOf: string -> string,
    profile: Profile,
    rate: JobPosting -> ScoreResult,
    notifier: Option<Notifier>,
    now: int)

  /** The state of a run: the table, `new_count`, the notifications sent so far, and whether a
      notification has raised, which ends the run. */
  datatype RunState = RunState(table: Table, newCount: nat, sent: seq<Notification>, aborted: bool)

  function Start(t: Table): RunState {
    RunState(t, 0, [], false)
  }

  // ---------------------------------------------------------------------
  // Batch truncation

  /** `s[:n]` in Python: a negative bound counts from the end. */
  function PyPrefix<T>(s: seq<T>, n: int): (r: seq<T>)
    ensures r <= s
    ensures 0 <= n ==> |r| == Min(n, |s|)
    ensures n < 0 ==> |r| == Max(0, |s| + n)
  {
    if n >= 0 then s[..Min(n, |s|)] else s[..Max(0, |s| + n)]
  }

  // ---------------------------------------------------------------------
  // Notes

  /** The lines `- a` for the given achievements, in order. */
  function AchievementLines(achievements: seq<string>): seq<string> {
    if achievements == [] then []
    else AchievementLines(achievements[..|achievements| - 1]) + ["- " + achievements[|achievements| - 1]]
  }

  const AchievementsHeader := "\nKey achievements:"

  /** The lines `_notes` collects (services.py:45-51). */
  function NoteLines(p: Profile): seq<string> {
    (if p.resumeSummary != "" then [p.resumeSummary] else []) +
    (if p.achievements != [] then [AchievementsHeader] + AchievementLines(p.achievements[..Min(5, |p.achievements|)]) else [])
  }

  /** `"\n".join(lines)`. */
  function JoinLines(lines: seq<string>): string {
    if lines == [] then ""
    else if |lines| == 1 then lines[0]
    else JoinLines(lines[..|lines| - 1]) + "\n" + lines[|lines| - 1]
  }

  /** The text `_notes` returns. */
  function NotesText(p: Profile): string {
    JoinLines(NoteLines(p))
  }

  lemma {:induction false} AchievementLinesAt(achievements: seq<string>)
    ensures |AchievementLines(achievements)| == |achievements|
    ensures forall i :: 0 <= i < |achievements| ==> AchievementLines(achievements)[i] == "- " + achievements[i]
    decreases |achievements|
  {
    if achievements != [] {
      var front := achievements[..|achievements| - 1];
      AchievementLinesAt(front);
      assert forall i :: 0 <= i < |front| ==> front[i] == achievements[i];
    }
  }

  /** The notes hold the resume summary first when there is one, then, when there are
      achievements, the header and one line `- a` for each of the first five, and nothing else. */
  lemma NoteLinesShape(p: Profile)
    ensures var lines, a := NoteLines(p), p.achievements;
            var head := if p.resumeSummary != "" then 1 else 0;
            var shown := Min(5, |a|);
            && |lines| == head + (if a != [] then 1 + shown else 0)
            && (p.resumeSummary != "" ==> lines[0] == p.resumeSummary)
            && (a != [] ==> lines[head] == AchievementsHeader &&
                            forall i :: 0 <= i < shown ==> lines[head + 1 + i] == "- " + a[i])
  {
    var a := p.achievements;
    AchievementLinesAt(a[..Min(5, |a|)]);
  }

  /** At most seven lines: the summary, the header and five achievements. */
  lemma NoteLinesBound(p: Profile)
    ensures |NoteLines(p)| <= 7
  {
    NoteLinesShape(p);
  }

  /** Joining never loses the first line: it is a prefix of the text. */
  lemma {:induction false} JoinStartsWithFirst(lines: seq<string>)
    requires lines != []
    ensures lines[0] <= JoinLines(lines)
    decreases |lines|
  {
    if |lines| > 1 {
      var front := lines[..|lines| - 1];
      JoinStartsWithFirst(front);
      assert front[0] == lines[0];
      var j := JoinLines(front);
      assert JoinLines(lines) == j + ("\n" + lines[|lines| - 1]);
      assert lines[0] == j[..|lines[0]|];
    }
  }

  /** The notes start with the resume summary when the profile has one, and are empty for a
      profile with neither summary nor achievements. */
  lemma NotesStartWithSummary(p: Profile)
    ensures p.resumeSummary != "" ==> p.resumeSummary <= NotesText(p)
    ensures p.resumeSummary == "" && p.achievements == [] ==> NotesText(p) == ""
  {
    if p.resumeSummary != "" {
      NoteLinesShape(p);
      JoinStartsWithFirst(NoteLines(p));
    }
  }

  // ---------------------------------------------------------------------
  // One run, as a function

  /** One iteration of the loop of `run_once` (services.py:27-40): a posting whose key is stored is
      skipped; otherwise it is stored and counted, and then notified about when it is worth it. */
  function Step(st: RunState, job: JobPosting, c: Context): RunState {
    if st.aborted || c.keyOf(job.url) in st.table then st else Admit(st, job, c)
  }

  /** Whether a stored posting with this score is notified about (services.py:38). */
  predicate Notifies(result: ScoreResult, c: Context) {
    c.notifier.Some? && result.action == Email
  }

  /** Storing a new posting (services.py:32-36), then notifying and marking it emailed
      (services.py:38-40); a notification that raises ends the run. */
  function Admit(st: RunState, job: JobPosting, c: Context): RunState {
    var key := c.keyOf(job.url);
    var observed := ObservedJob(job, key, c.now);
    var result := c.rate(job);
    var table := Inserted(st.table, observed, result);
    if !Notifies(result, c) then RunState(table, st.newCount + 1, st.sent, false)
    else
      var sent := st.sent + [Notification(observed, result, NotesText(c.profile))];
      if c.notifier.value.delivers(key) then RunState(MarkedEmailed(table, key, c.now), st.newCount + 1, sent, false)
      else RunState(table, st.newCount + 1, sent, true)
  }

  /** `Step` on a posting that is stored and not notified about. */
  lemma StepQuiet(st: RunState, job: JobPosting, c: Context)
    requires !st.aborted && c.keyOf(job.url) !in st.table && !Notifies(c.rate(job), c)
    ensures Step(st, job, c) ==
            RunState(Inserted(st.table, ObservedJob(job, c.keyOf(job.url), c.now), c.rate(job)), st.newCount + 1, st.sent, false)
  {
  }

  /** `Step` on a posting that is stored and notified about, with the notification going through. */
  lemma StepDelivered(st: RunState, job: JobPosting, c: Context)
    requires !st.aborted && c.keyOf(job.url) !in st.table && Notifies(c.rate(job), c)
    requires c.notifier.value.delivers(c.keyOf(job.url))
    ensures var key, result := c.keyOf(job.url), c.rate(job);
            var observed := ObservedJob(job, key, c.now);
            Step(st, job, c) ==
            RunState(MarkedEmailed(Inserted(st.table, observed, result), key, c.now), st.newCount + 1,
                     st.sent + [Notification(observed, result, NotesText(c.profile))], false)
  {
  }

  /** `Step` on a posting that is stored and notified about, with the notification raising. */
  lemma StepFailed(st: RunState, job: JobPosting, c: Context)
    requires !st.aborted && c.keyOf(job.url) !in st.table && Notifies(c.rate(job), c)
    requires !c.notifier.value.delivers(c.keyOf(job.url))
    ensures var key, result := c.keyOf(job.url), c.rate(job);
            var observed := ObservedJob(job, key, c.now);
            Step(st, job, c) ==
            RunState(Inserted(st.table, observed, result), st.newCount + 1,
                     st.sent + [Notification(observed, result, NotesText(c.profile))], true)
  {
  }

  /** The loop over a batch, from the first posting to the last. */
  function Ingest(st: RunState, jobs: seq<JobPosting>, c: Context): RunState
    decreases |jobs|
  {
    if jobs == [] then st else Step(Ingest(st, jobs[..|jobs| - 1], c), jobs[|jobs| - 1], c)
  }

  /** The keys of the postings of a batch. */
  function KeysOf(jobs: seq<JobPosting>, keyOf: string -> string): set<string>
    decreases |jobs|
  {
    if jobs == [] then {} else KeysOf(jobs[..|jobs| - 1], keyOf) + {keyOf(jobs[|jobs| - 1].url)}
  }

  /** The keys of the postings notified about. */
  function NotifiedKeys(sent: seq<Notification>): set<string>
    decreases |sent|
  {
    if sent == [] then {} else NotifiedKeys(sent[..|sent| - 1]) + {sent[|sent| - 1].observed.jobKey}
  }

  /** A record stored by the run: filed under the key of its own URL, first seen now, status
      "NEW", holding the score of its own posting, and emailed now exactly when it was worth an
      email, a notifier was there and the notification went through. */
  ghost predicate FreshRecord(r: JobRecord, k: string, c: Context) {
    && r.jobKey == k
    && c.keyOf(r.url) == k
    && r.firstSeenAt == c.now
    && r.status == "NEW"
    && ResultOf(r) == c.rate(PostingOf(r))
    && r.emailedAt == (if Notifies(ResultOf(r), c) && c.notifier.value.delivers(k) then Some(c.now) else None)
  }

  /** A notification about the record stored under its key, with that record's posting and score,
      and the profile's notes; sent only with a notifier and for an email-worthy score. */
  ghost predicate Announces(n: Notification, t: Table, c: Context) {
    var k := n.observed.jobKey;
    && c.notifier.Some?
    && k in t
    && n.result.action == Email
    && n.result == ResultOf(t[k])
    && n.observed.job == PostingOf(t[k])
    && n.notes == NotesText(c.profile)
  }

  // ---------------------------------------------------------------------
  // What a step does

  /** The tables `Admit` produces: the new record is added, possibly marked emailed, and nothing
      else changes. */
  lemma AdmitTables(t: Table, observed: ObservedJob, result: ScoreResult, now: int)
    requires observed.jobKey !in t
    ensures var key, t1 := observed.jobKey, Inserted(t, observed, result);
            var t2 := MarkedEmailed(t1, key, now);
            && t1.Keys == t.Keys + {key} && t2.Keys == t1.Keys
            && |t1| == |t| + 1 && |t2| == |t1|
            && (forall k :: k in t ==> t1[k] == t[k] && t2[k] == t[k])
            && t1[key] == NewRecord(observed, result)
            && t2[key] == NewRecord(observed, result).(emailedAt := Some(now))
  {
    var key, t1 := observed.jobKey, Inserted(t, observed, result);
    assert |t1.Keys| == |t.Keys| + 1;
    assert MarkedEmailed(t1, key, now).Keys == t1.Keys;
  }

  lemma StepFrame(st: RunState, job: JobPosting, c: Context)
    ensures var r := Step(st, job, c);
            && st.table.Keys <= r.table.Keys
            && (forall k :: k in st.table ==> r.table[k] == st.table[k])
            && r.table.Keys <= st.table.Keys + {c.keyOf(job.url)}
            && r.newCount >= st.newCount
            && |r.table| == |st.table| + (r.newCount - st.newCount)
            && (!r.aborted ==> !st.aborted && c.keyOf(job.url) in r.table)
            && (st.aborted ==> r == st)
  {
    var key := c.keyOf(job.url);
    var r := Step(st, job, c);
    if !st.aborted && key !in st.table {
      var observed, result := ObservedJob(job, key, c.now), c.rate(job);
      var t1 := Inserted(st.table, observed, result);
      AdmitTables(st.table, observed, result, c.now);
      assert r == Admit(st, job, c);
      if Notifies(result, c) && c.notifier.value.delivers(key) {
        assert r.table == MarkedEmailed(t1, key, c.now);
      } else {
        assert r.table == t1;
      }
      assert r.newCount == st.newCount + 1;
    } else {
      assert r == st;
    }
  }

  lemma StepRecords(st: RunState, job: JobPosting, c: Context)
    ensures var r := Step(st, job, c);
            forall k :: k in r.table && k !in st.table ==> FreshRecord(r.table[k], k, c)
  {
    var key := c.keyOf(job.url);
    var r := Step(st, job, c);
    if !st.aborted && key !in st.table {
      var observed, result := ObservedJob(job, key, c.now), c.rate(job);
      var t1 := Inserted(st.table, observed, result);
      var rec := NewRecord(observed, result);
      AdmitTables(st.table, observed, result, c.now);
      NewRecordKeepsInputs(observed, result);
      assert r == Admit(st, job, c);
      if Notifies(result, c) && c.notifier.value.delivers(key) {
        assert r.table == MarkedEmailed(t1, key, c.now);
        assert r.table[key] == rec.(emailedAt := Some(c.now));
      } else {
        assert r.table == t1;
        assert r.table[key] == rec;
      }
      assert FreshRecord(r.table[key], key, c);
    } else {
      assert r == st;
    }
  }

  lemma StepNotifications(st: RunState, job: JobPosting, c: Context)
    ensures var r := Step(st, job, c);
            && |st.sent| <= |r.sent| && r.sent[..|st.sent|] == st.sent
            && (c.notifier.None? ==> r.sent == st.sent)
            && (forall i :: |st.sent| <= i < |r.sent| ==>
                  r.sent[i].observed.jobKey !in st.table && Announces(r.sent[i], r.table, c))
            && (forall k :: k in r.table && k !in st.table && Notifies(ResultOf(r.table[k]), c) ==>
                  k in NotifiedKeys(r.sent))
            && (r.aborted && !st.aborted ==>
                  c.notifier.Some? && |r.sent| == |st.sent| + 1 && !c.notifier.value.delivers(r.sent[|st.sent|].observed.jobKey))
  {
    var key := c.keyOf(job.url);
    var r := Step(st, job, c);
    if !st.aborted && key !in st.table {
      var observed, result := ObservedJob(job, key, c.now), c.rate(job);
      var t1 := Inserted(st.table, observed, result);
      var rec := NewRecord(observed, result);
      AdmitTables(st.table, observed, result, c.now);
      NewRecordKeepsInputs(observed, result);
      assert r == Admit(st, job, c);
      if Notifies(result, c) {
        var n := Notification(observed, result, NotesText(c.profile));
        assert r.sent == st.sent + [n];
        assert NotifiedKeys(r.sent) == NotifiedKeys(st.sent) + {key};
        if c.notifier.value.delivers(key) {
          assert r.table == MarkedEmailed(t1, key, c.now);
          assert r.table[key] == rec.(emailedAt := Some(c.now));
        } else {
          assert r.table == t1;
        }
        assert Announces(n, r.table, c);
      } else {
        assert r.sent == st.sent && !r.aborted;
        assert r.table == t1;
      }
    } else {
      assert r == st;
    }
  }

  // ---------------------------------------------------------------------
  // What a run does

  /** Records that were already stored are left exactly as they were; the run adds keys of its
      own batch and nothing else; and `new_count` is the number of records added. */
  lemma {:induction false} IngestFrame(st: RunState, jobs: seq<JobPosting>, c: Context)
    ensures var r := Ingest(st, jobs, c);
            && st.table.Keys <= r.table.Keys
            && (forall k :: k in st.table ==> r.table[k] == st.table[k])
            && r.table.Keys <= st.table.Keys + KeysOf(jobs, c.keyOf)
            && r.newCount >= st.newCount
            && |r.table| == |st.table| + (r.newCount - st.newCount)
    decreases |jobs|
  {
    if jobs != [] {
      var front := jobs[..|jobs| - 1];
      IngestFrame(st, front, c);
      StepFrame(Ingest(st, front, c), jobs[|jobs| - 1], c);
    }
  }

  /** The run over one more posting of the batch is one more step. */
  lemma IngestNext(st: RunState, jobs: seq<JobPosting>, i: nat, c: Context)
    requires i < |jobs|
    ensures Ingest(st, jobs[..i + 1], c) == Step(Ingest(st, jobs[..i], c), jobs[i], c)
  {
    assert jobs[..i + 1][..i] == jobs[..i];
  }

  /** Once a notification has raised, nothing more happens. */
  lemma {:induction false} AbortedRunStops(st: RunState, jobs: seq<JobPosting>, c: Context)
    requires st.aborted
    ensures Ingest(st, jobs, c) == st
    decreases |jobs|
  {
    if jobs != [] {
      AbortedRunStops(st, jobs[..|jobs| - 1], c);
    }
  }

  /** A run that ends early ends with the state it had when the notification raised. */
  lemma {:induction false} AbortedPrefix(st: RunState, jobs: seq<JobPosting>, i: nat, c: Context)
    requires i <= |jobs| && Ingest(st, jobs[..i], c).aborted
    ensures Ingest(st, jobs, c) == Ingest(st, jobs[..i], c)
    decreases |jobs| - i
  {
    if i < |jobs| {
      IngestNext(st, jobs, i, c);
      AbortedPrefix(st, jobs, i + 1, c);
    } else {
      assert jobs[..i] == jobs;
    }
  }

  /** A run that completes has stored a record for every posting of its batch. */
  lemma {:induction false} CompletedRunStoresBatch(st: RunState, jobs: seq<JobPosting>, c: Context)
    ensures var r := Ingest(st, jobs, c);
            !r.aborted ==> !st.aborted && KeysOf(jobs, c.keyOf) <= r.table.Keys
    decreases |jobs|
  {
    if jobs != [] {
      var front := jobs[..|jobs| - 1];
      CompletedRunStoresBatch(st, front, c);
      StepFrame(Ingest(st, front, c), jobs[|jobs| - 1], c);
    }
  }

  /** `new_count` counts distinct new keys: a posting whose URL repeats within the batch, or
      whose key was already stored, is not counted. It is exactly their number when the run
      completes, and at most that when a notification ended it. */
  lemma NewCountIsNewKeys(st: RunState, jobs: seq<JobPosting>, c: Context)
    ensures var r := Ingest(st, jobs, c);
            && r.newCount - st.newCount <= |KeysOf(jobs, c.keyOf) - st.table.Keys|
            && (!r.aborted ==> r.table.Keys == st.table.Keys + KeysOf(jobs, c.keyOf) &&
                               r.newCount - st.newCount == |KeysOf(jobs, c.keyOf) - st.table.Keys|)
  {
    var r := Ingest(st, jobs, c);
    IngestFrame(st, jobs, c);
    CompletedRunStoresBatch(st, jobs, c);
    assert |r.table| == |r.table.Keys| && |st.table| == |st.table.Keys|;
    GrowthBound(st.table.Keys, r.table.Keys, KeysOf(jobs, c.keyOf));
  }

  /** A set that grew from `before` within `before + batch` grew by at most the new part of
      `batch`, and by exactly that when it holds all of `batch`. */
  lemma GrowthBound(before: set<string>, after: set<string>, batch: set<string>)
    requires before <= after <= before + batch
    ensures |after| - |before| <= |batch - before|
    ensures batch <= after ==> after == before + batch && |after| - |before| == |batch - before|
  {
    var added := after - before;
    assert after == before + added && before !! added;
    assert added <= batch - before;
    SubsetCard(added, batch - before);
    if batch <= after {
      assert added == batch - before;
    }
  }

  lemma SubsetCard(a: set<string>, b: set<string>)
    requires a <= b
    ensures |a| <= |b|
  {
    assert b == a + (b - a) && a !! (b - a);
  }

  /** Records stored by a run are fresh records, as `FreshRecord` describes. */
  lemma {:induction false} IngestRecords(st: RunState, jobs: seq<JobPosting>, c: Context)
    ensures var r := Ingest(st, jobs, c);
            forall k :: k in r.table && k !in st.table ==> FreshRecord(r.table[k], k, c)
    decreases |jobs|
  {
    if jobs != [] {
      var front := jobs[..|jobs| - 1];
      var mid := Ingest(st, front, c);
      IngestRecords(st, front, c);
      StepFrame(mid, jobs[|jobs| - 1], c);
      StepRecords(mid, jobs[|jobs| - 1], c);
    }
  }

  /** The notifications of a run are appended after those already sent, and there are none
      without a notifier. */
  lemma {:induction false} IngestSentGrows(st: RunState, jobs: seq<JobPosting>, c: Context)
    ensures var r := Ingest(st, jobs, c);
            && |st.sent| <= |r.sent| && r.sent[..|st.sent|] == st.sent
            && (c.notifier.None? ==> r.sent == st.sent)
    decreases |jobs|
  {
    if jobs != [] {
      var front := jobs[..|jobs| - 1];
      var mid := Ingest(st, front, c);
      IngestSentGrows(st, front, c);
      StepNotifications(mid, jobs[|jobs| - 1], c);
      var r := Step(mid, jobs[|jobs| - 1], c);
      assert r.sent[..|st.sent|] == r.sent[..|mid.sent|][..|st.sent|];
    }
  }

  /** Each notification of a run is about a record the run stored, worth an email, with the
      notifier present, carrying that record's posting and score and the profile's notes. */
  lemma {:induction false} IngestAnnounces(st: RunState, jobs: seq<JobPosting>, c: Context)
    ensures var r := Ingest(st, jobs, c);
            forall i :: |st.sent| <= i < |r.sent| ==>
              r.sent[i].observed.jobKey !in st.table && Announces(r.sent[i], r.table, c)
    decreases |jobs|
  {
    if jobs != [] {
      var front := jobs[..|jobs| - 1];
      var mid := Ingest(st, front, c);
      var r := Step(mid, jobs[|jobs| - 1], c);
      IngestAnnounces(st, front, c);
      IngestSentGrows(st, front, c);
      IngestFrame(st, front, c);
      StepFrame(mid, jobs[|jobs| - 1], c);
      StepNotifications(mid, jobs[|jobs| - 1], c);
      forall i | |st.sent| <= i < |r.sent|
        ensures r.sent[i].observed.jobKey !in st.table && Announces(r.sent[i], r.table, c)
      {
        if i < |mid.sent| {
          assert r.sent[i] == mid.sent[i];
          assert Announces(mid.sent[i], mid.table, c);
        }
      }
    }
  }

  /** With a notifier, every record the run stored that is worth an email was notified about,
      and a run that ends early ends on a notification that raised. */
  lemma {:induction false} IngestNotifiesAll(st: RunState, jobs: seq<JobPosting>, c: Context)
    ensures var r := Ingest(st, jobs, c);
            && (forall k :: k in r.table && k !in st.table && Notifies(ResultOf(r.table[k]), c) ==>
                  k in NotifiedKeys(r.sent))
            && (r.aborted && !st.aborted ==>
                  c.notifier.Some? && |r.sent| > |st.sent| && !c.notifier.value.delivers(r.sent[|r.sent| - 1].observed.jobKey))
    decreases |jobs|
  {
    if jobs != [] {
      var front := jobs[..|jobs| - 1];
      var mid := Ingest(st, front, c);
      var r := Step(mid, jobs[|jobs| - 1], c);
      IngestNotifiesAll(st, front, c);
      IngestSentGrows(st, front, c);
      StepFrame(mid, jobs[|jobs| - 1], c);
      StepNotifications(mid, jobs[|jobs| - 1], c);
      NotifiedKeysGrow(mid.sent, r.sent);
    }
  }

  lemma {:induction false} NotifiedKeysGrow(a: seq<Notification>, b: seq<Notification>)
    requires |a| <= |b| && b[..|a|] == a
    ensures NotifiedKeys(a) <= NotifiedKeys(b)
    decreases |b|
  {
    if |a| < |b| {
      var front := b[..|b| - 1];
      assert front[..|a|] == a;
      NotifiedKeysGrow(a, front);
    } else {
      assert b == a;
    }
  }

  /** Running the same batch again adds nothing, notifies nobody and changes no record, whatever
      the time, profile or notifier of the second run, once the first run completed. */
  lemma SecondRunAddsNothing(t: Table, jobs: seq<JobPosting>, c: Context, c2: Context)
    requires c2.keyOf == c.keyOf
    ensures var r := Ingest(Start(t), jobs, c);
            !r.aborted ==> Ingest(Start(r.table), jobs, c2) == Start(r.table)
  {
    var r := Ingest(Start(t), jobs, c);
    CompletedRunStoresBatch(Start(t), jobs, c);
    if !r.aborted {
      StoredBatchUnchanged(r.table, jobs, c2);
    }
  }

  /** A batch whose keys are all stored leaves the run where it started. */
  lemma {:induction false} StoredBatchUnchanged(t: Table, jobs: seq<JobPosting>, c: Context)
    requires KeysOf(jobs, c.keyOf) <= t.Keys
    ensures Ingest(Start(t), jobs, c) == Start(t)
    decreases |jobs|
  {
    if jobs != [] {
      StoredBatchUnchanged(t, jobs[..|jobs| - 1], c);
    }
  }

  /** A notification that raises ends the run but not the record: the posting it was about stays
      stored, with no `emailed_at`. */
  lemma FailedNotificationKeepsRecord(st: RunState, jobs: seq<JobPosting>, c: Context)
    requires !st.aborted
    ensures var r := Ingest(st, jobs, c);
            r.aborted ==>
              |r.sent| > |st.sent| &&
              var k := r.sent[|r.sent| - 1].observed.jobKey;
              k in r.table && k !in st.table && r.table[k].emailedAt == None
  {
    var r := Ingest(st, jobs, c);
    IngestNotifiesAll(st, jobs, c);
    if r.aborted {
      IngestSentGrows(st, jobs, c);
      IngestAnnounces(st, jobs, c);
      IngestRecords(st, jobs, c);
      var k := r.sent[|r.sent| - 1].observed.jobKey;
      assert k in r.table && k !in st.table;
      assert FreshRecord(r.table[k], k, c);
    }
  }

  /** The same URL twice in one batch is stored and counted once. */
  lemma SameUrlTwice(t: Table, job: JobPosting, c: Context)
    ensures Ingest(Start(t), [job, job], c).newCount <= 1
  {
    var k := c.keyOf(job.url);
    assert KeysOf([job], c.keyOf) == {k} by {
      assert [job][..0] == [];
    }
    assert KeysOf([job, job], c.keyOf) == {k} by {
      assert [job, job][..1] == [job];
    }
    NewCountIsNewKeys(Start(t), [job, job], c);
  }

  /** Without a notifier nothing is sent and no record is marked emailed. */
  lemma SilentRun(st: RunState, jobs: seq<JobPosting>, c: Context)
    requires c.notifier.None?
    ensures var r := Ingest(st, jobs, c);
            && r.sent == st.sent
            && forall k :: k in r.table && k !in st.table ==> r.table[k].emailedAt == None
  {
    IngestSentGrows(st, jobs, c);
    IngestRecords(st, jobs, c);
  }

  // ---------------------------------------------------------------------
  // The services

  /** `PollingService` (services.py:9-52), with the parts of the application context it uses. */
  class PollingService {
    const lib: UrlLib
    const profile: Profile
    const scoring: ScoringCfg
    const polling: PollingCfg
    /** `ctx.notifier`: `None` when email is disabled. */
    const notifier: Option<Notifier>

    constructor (lib: UrlLib, profile: Profile, scoring: ScoringCfg, polling: PollingCfg, notifier: Option<Notifier>)
      ensures this.lib == lib && this.profile == profile && this.scoring == scoring
      ensures this.polling == polling && this.notifier == notifier
    {
      this.lib := lib;
      this.profile := profile;
      this.scoring := scoring;
      this.polling := polling;
      this.notifier := notifier;
    }

    /** `_notes` (services.py:44-52). */
    method Notes() returns (notes: string)
      ensures notes == NotesText(profile)
    {
      var lines: seq<string> := [];
      if profile.resumeSummary != "" {
        lines := lines + [profile.resumeSummary];
      }
      ghost var summary := lines;
      assert summary == if profile.resumeSummary != "" then [profile.resumeSummary] else [];
      if profile.achievements != [] {
        lines := lines + [AchievementsHeader];
        var a := profile.achievements;
        for i := 0 to Min(5, |a|)
          invariant lines == summary + [AchievementsHeader] + AchievementLines(a[..i])
        {
          assert a[..i + 1][..i] == a[..i];
          lines := lines + ["- " + a[i]];
        }
        assert lines == summary + ([AchievementsHeader] + AchievementLines(a[..Min(5, |a|)]));
      } else {
        assert lines == summary + [];
      }
      assert lines == NoteLines(profile);
      notes := JoinLines(lines);
    }

    /** The context of one run: the notifier only when emails are to be sent (services.py:17). */
    function RunContext(sendEmail: bool, now: int): Context {
      Context(url => StableJobKey(url, lib), profile, job => Evaluate(job, profile, scoring), if sendEmail then notifier else None, now)
    }

    /** The body of the loop of `run_once` (services.py:28-40) for one posting. */
    method Process(repo: JobRepository, job: JobPosting, sendEmail: bool, now: int, count: nat, sentBefore: seq<Notification>)
        returns (newCount: nat, sent: seq<Notification>, aborted: bool)
      requires repo.Valid()
      modifies repo
      ensures repo.Valid()
      ensures RunState(repo.records, newCount, sent, aborted) ==
              Step(RunState(old(repo.records), count, sentBefore, false), job, RunContext(sendEmail, now))
    {
      ghost var c := RunContext(sendEmail, now);
      ghost var st := RunState(repo.records, count, sentBefore, false);
      newCount, sent, aborted := count, sentBefore, false;
      var key := StableJobKey(job.url, lib);
      assert key == c.keyOf(job.url);
      var found := repo.Exists(key);
      if found {
        assert Step(st, job, c) == st;
        return;
      }
      var observed := ObservedJob(job, key, now);
      var result := Score(job, profile, scoring);
      assert result == c.rate(job);
      var outcome := repo.Insert(observed, result);
      newCount := newCount + 1;
      if sendEmail && notifier.Some? && result.action == Email {
        var notes := Notes();
        sent := sent + [Notification(observed, result, notes)];
        if notifier.value.delivers(key) {
          repo.MarkEmailed(key, now);
          StepDelivered(st, job, c);
        } else {
          aborted := true;
          StepFailed(st, job, c);
        }
      } else {
        StepQuiet(st, job, c);
      }
    }

    /** `run_once` (services.py:14-42). `fetched` is `None` when no source is configured and
        otherwise what its search returned. Returns `new_count`, the notifications sent, and
        whether a notification raised, which ends the run. */
    method RunOnce(repo: JobRepository, sendEmail: bool, fetched: Option<seq<JobPosting>>, now: int)
        returns (newCount: nat, sent: seq<Notification>, aborted: bool)
      requires repo.Valid()
      modifies repo
      ensures repo.Valid()
      ensures fetched.None? ==> repo.records == old(repo.records) && newCount == 0 && sent == [] && !aborted
      ensures fetched.Some? ==>
                RunState(repo.records, newCount, sent, aborted) ==
                Ingest(Start(old(repo.records)), PyPrefix(fetched.value, polling.maxJobsPerRun), RunContext(sendEmail, now))
    {
      if fetched.None? {
        return 0, [], false;
      }
      var jobs := PyPrefix(fetched.value, polling.maxJobsPerRun);
      ghost var c := RunContext(sendEmail, now);
      ghost var start := Start(repo.records);
      newCount, sent, aborted := 0, [], false;
      var i := 0;
      while i < |jobs| && !aborted
        invariant 0 <= i <= |jobs|
        invariant repo.Valid()
        invariant RunState(repo.records, newCount, sent, aborted) == Ingest(start, jobs[..i], c)
      {
        IngestNext(start, jobs, i, c);
        newCount, sent, aborted := Process(repo, jobs[i], sendEmail, now, newCount, sent);
        i := i + 1;
      }
      if aborted {
        AbortedPrefix(start, jobs, i, c);
      } else {
        assert jobs[..i] == jobs;
      }
    }
  }

  /** `DigestService` (services.py:54-64). */
  class DigestService {
    const notifier: Option<Notifier>

    constructor (notifier: Option<Notifier>)
      ensures this.notifier == notifier
    {
      this.notifier := notifier;
    }

    /** `run_daily` (services.py:59-64): without a notifier nothing is sent; otherwise the digest
        rows are sent once, even when there are none. Returns what was sent. */
    method RunDaily(repo: JobRepository, now: int) returns (sent: Option<seq<JobRecord>>)
      requires repo.Valid()
      ensures notifier.None? <==> sent.None?
      ensures sent.Some? ==> multiset(sent.value) == multiset(DigestRecords(repo.records, now)) && NewestFirst(sent.value)
    {
      if notifier.None? {
        return None;
      }
      var rows := repo.ListDigest(now);
      sent := Some(rows);
    }
  }
}
