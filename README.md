# naukri-job-agent-pro, modelled in Dafny

naukri-job-agent-pro polls a job board and scores each posting against a candidate profile. It
stores the new ones in a database, emails the good ones as they arrive, and sends a daily digest.
This project models the core of that pipeline and proves properties of it:

- **Identity** (`identity.dfy`): `stable_job_key`. The URL is cut at its fragment (or kept raw
  when parsing raises), then hashed, and 32 hexadecimal digits are kept.
- **Text** (`text.dfy`): the text primitives the scorer relies on, with Python's case and whitespace rules for ASCII
  characters. The word characters of `\b` and the digits of `\d` are the ASCII ones.
  - `_norm`: lower-case, runs of whitespace become one blank, the ends are stripped. This is
    proved to be `" ".join(s.lower().split())`, and it keeps every non-whitespace character.
  - Python's substring test `in`.
  - The `\b…\b` word search of the seniority rule.
  - The first-integer search `\d+`.
  - `str()` of an integer.
- **Models** (`models.dfy`): the posting, observed-job, profile, score-result and configuration
  records.
- **Scoring** (`scoring.py`, in `scoring.dfy`): `_contains`, `_count`, `_freshness_boost` and
  `score`.
  - `Scoring.Score` is the imperative scorer. It accumulates the score and the reasons rule by
    rule, as the source does.
  - It is proved equal to `Scoring.Evaluate`, a fold of the seven rule effects. The properties
    are proved about that fold.
  - `scoring_examples.dfy` works through the test case of tests/test_scoring.py.
- **Store** (`store.dfy`): the `jobs` table as a map from `job_key` to `JobRecord`, and the
  class `JobRepository`. Its methods update that map field and are proved to match the table
  functions `Inserted`, `MarkedEmailed` and `MarkedStatus`. `list_digest` is a loop that is
  proved to return exactly the digest records, each once, newest first.
- **Services** (`services.dfy`): `PollingService.run_once`, `PollingService._notes` and
  `DigestService.run_daily`.
  - A run is the function `Ingest`, which folds `Step` over the truncated batch.
    `PollingService.RunOnce` is the loop and is proved to compute it.
  - The lemmas say what a run does to the store and which notifications it sends.

The source, the notifier and the clock are parameters:

- The source's search result is `Option<seq<JobPosting>>`. `None` means no source is
  configured.
- The notifier is a function saying, for each job key, whether `send_job` returns or raises.
- Time is an integer number of seconds. One reading `now` is used for a whole run.

Where the code and its documentation differ, the model follows the code:

- A keyword made only of whitespace passes the `if k` filter. It normalises to "", which is a
  substring of every text, so it always matches (`Scoring.BlankKeywordMatches`).
- `send_job` is not guarded by a `try` in `run_once`. A notification that raises therefore
  ends the run. The record it was about stays stored, without `emailed_at`, and the rest of
  the batch is not processed (`Services.FailedNotificationKeepsRecord`).
- `run_daily` sends the digest whenever a notifier exists, even when the digest is empty.
- `mark_emailed` overwrites `emailed_at` each time it is called.
- `mark_status` accepts any status string.
- A second `insert` of the same key fails on the primary key. This is the outcome
  `DuplicateKey`, which leaves the table unchanged.
- `max_jobs_per_run` is applied as a Python slice. A negative value counts from the end.

## Model

| member | source | states |
|---|---|---|
| Identity.HashedText | job_agent/core/utils.py:9-13 | the text that is hashed: the URL cut before its first '#' when parsing succeeds, the raw URL when it raises |
| Identity.WithoutFragment | job_agent/core/utils.py:10-11 | `urlunparse` of the parsed URL with an empty fragment: the URL up to its first '#' |
| Identity.FragmentStart | job_agent/core/utils.py:10-11 | the cut point is the first '#', or the end of the URL when there is none |
| Identity.StableJobKey | job_agent/core/utils.py:4-15 | the key is always 32 lower-case hexadecimal digits |
| Identity.SplitAtFragment | job_agent/core/utils.py:10-11 | the kept part followed by the fragment is the whole URL; the kept part has no '#'; the fragment is empty or starts with '#' |
| Identity.NoFragmentKeptWhole | job_agent/core/utils.py:9-11 | a URL without '#' is hashed whole |
| Identity.CutAfterBase | job_agent/core/utils.py:10-11 | cutting `base#fragment` gives back `base` |
| Identity.FragmentInsensitive | job_agent/core/utils.py:10-11 | adding or changing a fragment leaves the key unchanged, when both URLs parse |
| Identity.SameKeyUpToFragment | job_agent/core/utils.py:4-15 | URLs that agree up to their fragment have the same key, when both parse |
| Identity.ParseFailureHashesRaw | job_agent/core/utils.py:12-15 | when parsing raises, the raw URL, fragment included, is hashed and a key is still returned |
| Text.Norm | job_agent/core/scoring.py:7-8 | `_norm`: lower-case, replace each whitespace run by one blank, strip both ends |
| Text.Occurs | job_agent/core/scoring.py:12 | `p in t`: `p` is a prefix of `t` or of some suffix of it, so the empty pattern is in every text |
| Text.HasWord | job_agent/core/scoring.py:63 | `re.search(r"\bw\b", t)`: the word stands at some position, preceded and followed by a non-word character or an end of the text |
| Text.FirstInteger | job_agent/core/scoring.py:27-28 | `re.search(r"(\d+)", t)`: the value of the first maximal run of digits, or none when the text has no digit |
| Text.Lower | job_agent/core/scoring.py:8 | `str.lower()`: each ASCII capital replaced by its small letter, every other character kept, length unchanged |
| Text.Collapse | job_agent/core/scoring.py:8 | `re.sub(r"\s+", " ", …)`: each maximal run of whitespace replaced by a single blank |
| Text.DropSpaces | job_agent/core/scoring.py:8 | `lstrip`: drops exactly the leading whitespace run; every dropped character is whitespace and the result does not start with whitespace |
| Text.DropSpacesIsSuffix | job_agent/core/scoring.py:8 | what the leading strip keeps is the end of the text |
| Text.DropTrailingSpaces | job_agent/core/scoring.py:8 | `rstrip`: keeps a prefix of the text; every dropped character is whitespace and the result does not end in whitespace |
| Text.WordPrefix | job_agent/core/scoring.py:8 | the leading run of non-whitespace characters: a prefix with no whitespace, followed by whitespace or the end |
| Text.WordsAreWords | job_agent/core/scoring.py:8 | `str.split()` yields non-empty pieces with no whitespace in them |
| Text.JoinWords | job_agent/core/scoring.py:8 | `" ".join(ws)`: the words with one blank between neighbours |
| Text.CollapseIsJoinedWords | job_agent/core/scoring.py:8 | collapsing a text stripped at its start gives its words joined by single blanks, plus one blank when it ends in whitespace after a word |
| Text.JoinedWordsEnd | job_agent/core/scoring.py:8 | words joined by blanks never end in whitespace |
| Text.NormJoinsWords | job_agent/core/scoring.py:7-8 | `_norm(s) == " ".join(s.lower().split())`: each whitespace run between words becomes exactly one blank and runs at either end disappear |
| Text.WordsKeepText | job_agent/core/scoring.py:8 | splitting into words keeps every non-whitespace character, in order |
| Text.NonSpaceOfJoin | job_agent/core/scoring.py:8 | joining words with blanks adds only the blanks |
| Text.NormKeepsText | job_agent/core/scoring.py:7-8 | `_norm` removes only whitespace: its non-whitespace characters are exactly those of the lower-cased text, in order |
| Text.NormIsNormal | job_agent/core/scoring.py:7-8 | `_norm` yields lower-case text with single blanks only between words and none at either end |
| Text.NormFixesNormal | job_agent/core/scoring.py:7-8 | `_norm` leaves text already in that form unchanged |
| Text.NormIdempotent | job_agent/core/scoring.py:7-8 | `_norm(_norm(s)) == _norm(s)` |
| Text.NormOfCleanText | job_agent/core/scoring.py:7-8 | text whose lower-casing is a normal text, with at most one trailing blank, normalises to that text |
| Text.LowerAppend | job_agent/core/scoring.py:8 | lower-casing distributes over concatenation |
| Text.NormalAppend | job_agent/core/scoring.py:7-8 | appending a folded, single-blank text that does not end in a blank to a normal text gives a normal text |
| Text.OccursIff | job_agent/core/scoring.py:12 | `p in t` holds exactly when `p` stands at some position of `t` |
| Text.OccursAt | job_agent/core/scoring.py:12 | a pattern found at a position is in the text |
| Text.OccursInAppend | job_agent/core/scoring.py:12 | a pattern in either part of a concatenation is in the whole |
| Text.MissingCharNoOccurrence | job_agent/core/scoring.py:12 | a pattern holding a character the text lacks is not in the text |
| Text.HasWordFromIff | job_agent/core/scoring.py:63 | the word search succeeds exactly when the word stands between word boundaries at some position |
| Text.WordFound | job_agent/core/scoring.py:63 | a word found between boundaries makes the search succeed |
| Text.NatToDecimal | job_agent/core/scoring.py:50 | `str(n)` is a non-empty string of digits |
| Text.DecimalRoundTrip | job_agent/core/scoring.py:50 | reading back `str(n)` gives `n` |
| Text.LeadingDigits | job_agent/core/scoring.py:27 | the leading digit run is a prefix of digits that stops before a non-digit |
| Text.FirstIntegerOfDecimal | job_agent/core/scoring.py:27-28 | the first-integer search on `str(n)` followed by a non-digit yields `n` |
| Scoring.Contains | job_agent/core/scoring.py:10-12 | `_contains`: some entry of the list is non-empty and its normal form is in the normalised text |
| Scoring.FreshnessTier | job_agent/core/scoring.py:18-30 | the branch `_freshness_boost` takes on the normalised text, tried in order: empty text gives none; "just" or "minute"; then "today" or "hour"; then "day" with a first integer of at most 3; otherwise none |
| Scoring.FreshnessBoost | job_agent/core/scoring.py:18-30 | `_freshness_boost`: the configured `just_now`, `today` or `last_3_days` amount of that branch, or 0 |
| Scoring.IsSeniorTitle | job_agent/core/scoring.py:63 | the seniority search: "senior", "lead", "principal" or "staff" stands as a whole word in the normalised title |
| Scoring.Reason | job_agent/core/scoring.py:50-82 | `f"{rule} (+{amount})"`: the rule's name, a blank, then the amount in parentheses after a plus sign |
| Scoring.CombinedText | job_agent/core/scoring.py:34 | `f"{job.title} {job.description}"`: title and description joined by one blank |
| Scoring.TitleRejected | job_agent/core/scoring.py:37-38 | the title hard filter: some reject-title keyword is in the normalised title |
| Scoring.DescriptionRejected | job_agent/core/scoring.py:40-41 | the description hard filter: some reject-description keyword is in the normalised title-and-description text |
| Scoring.TitleEffect | job_agent/core/scoring.py:46-50 | with h > 0 target-title hits, add min(title_match, 10h+10) with reason "Title match (+inc)"; nothing otherwise |
| Scoring.SkillEffect | job_agent/core/scoring.py:52-61 | with h > 0 hits of must-have, nice-to-have and domain keywords in the combined text, add min(skill_match, 6h+15) with reason "Skill/domain match (+inc)"; nothing otherwise |
| Scoring.SeniorityEffect | job_agent/core/scoring.py:63-65 | a seniority word in the title adds seniority_match with reason "Seniority signal (+w)" |
| Scoring.LocationEffect | job_agent/core/scoring.py:67-69 | with a non-empty preferred-location list that matches the location, add location_match with reason "Location match (+w)" |
| Scoring.PreferredEffect | job_agent/core/scoring.py:71-73 | with a non-empty preferred-company list that matches the company, add company_pref with reason "Preferred company (+w)" |
| Scoring.AvoidedEffect | job_agent/core/scoring.py:75-77 | with a non-empty avoided-company list that matches the company, the penalty: subtract 20, floored at 0, reason "Avoided company (-20)" |
| Scoring.FreshnessEffect | job_agent/core/scoring.py:79-82 | a non-zero freshness boost f adds f with reason "Freshness (+f)" |
| Scoring.Clamp | job_agent/core/scoring.py:84 | `min(100, max(0, x))` |
| Scoring.Count | job_agent/core/scoring.py:14-16 | `_count` is at most the number of keywords |
| Scoring.ContainsIffSomeHit | job_agent/core/scoring.py:10-12 | `_contains` holds exactly when some non-empty keyword's normal form is in the normalised text |
| Scoring.ContainsIffCountPositive | job_agent/core/scoring.py:10-16 | `_contains` holds exactly when `_count` is positive |
| Scoring.CountAppend | job_agent/core/scoring.py:52-57 | counting over concatenated keyword lists adds the counts |
| Scoring.CountIsNumberOfHits | job_agent/core/scoring.py:14-16 | `_count` is the number of keyword positions that hit, each keyword counted once |
| Scoring.CountIgnoresEmpty | job_agent/core/scoring.py:16 | an empty keyword adds nothing to the count |
| Scoring.CountOfNormalized | job_agent/core/scoring.py:15-16 | counting over the normalised text gives the same count |
| Scoring.BlankKeywordMatches | job_agent/core/scoring.py:12 | a non-empty keyword made only of whitespace matches every text |
| Scoring.FreshnessTierOfNormalized | job_agent/core/scoring.py:19 | the freshness tier depends only on the normalised posted text |
| Scoring.DaysAgoTier | job_agent/core/scoring.py:18-30 | "N days ago" earns the last-three-days boost exactly when N <= 3, and nothing otherwise |
| Scoring.Signals | job_agent/core/scoring.py:46-82 | there are seven rule effects, one per rule |
| Scoring.FiredReasons | job_agent/core/scoring.py:44-82 | there is at most one reason per rule effect |
| Scoring.Evaluate | job_agent/core/scoring.py:32-87 | the score is in [0,100]; SKIP exactly when a hard filter matches; a title reject gives `(0, ["Rejected by title filter"], SKIP)` even when the description filter also matches; a description reject gives `(0, ["Rejected by description filter"], SKIP)`; otherwise EMAIL exactly when the score reaches the threshold, and QUEUE below it; at most seven reasons |
| Scoring.SignalNamed | job_agent/core/scoring.py:46-82 | rule k has an effect exactly when its condition holds, and its reason starts with the rule's name |
| Scoring.RuleNamesDistinct | job_agent/core/scoring.py:50-82 | no reason can start with two different rule names |
| Scoring.RuleReported | job_agent/core/scoring.py:46-82 | on a posting that passes the filters, some reason names rule k exactly when rule k fires |
| Scoring.TitleMatchReportedFirst | job_agent/core/scoring.py:46-50 | with at least one title hit, the first reason is the title match, with increment min(title_match, 10*hits+10) |
| Scoring.AvoidedReported | job_agent/core/scoring.py:75-77 | "Avoided company (-20)" is a reason exactly when the avoided-company rule fires |
| Scoring.ScoreFormula | job_agent/core/scoring.py:43-84 | the score is the clamped sum of the fired increments: title min(w,10h+10), skills min(w,6h+15), seniority, location, preferred company; then minus 20 floored at 0 for an avoided company; then plus freshness |
| Scoring.TitleRule | job_agent/core/scoring.py:46-50 | the title step adds the title effect's amount and reason |
| Scoring.SkillRule | job_agent/core/scoring.py:52-61 | the skill step counts over must-have, nice-to-have and domain keywords together, and adds the skill effect |
| Scoring.SeniorityRule | job_agent/core/scoring.py:63-65 | the seniority step adds the seniority effect |
| Scoring.PreferenceRules | job_agent/core/scoring.py:67-73 | the location and preferred-company steps add their effects in order |
| Scoring.PenaltyAndFreshness | job_agent/core/scoring.py:75-82 | the avoided-company penalty, then the freshness boost |
| Scoring.Score | job_agent/core/scoring.py:32-87 | the imperative scorer returns exactly `Evaluate`, so every property above holds of it |
| ScoringExamples.WorkedExample | tests/test_scoring.py:6-34 | the test posting scores 82 with reasons title +20, skills +27, seniority +12, location +8, freshness +15, and action EMAIL |
| Store.Inserted | job_agent/store/repo.py:20-39 | the table after a successful `insert`: the new row filed under its key |
| Store.MarkedEmailed | job_agent/store/repo.py:41-46 | the table after `mark_emailed`: `emailed_at` of the row under the key set to `now`; unchanged when there is no such row |
| Store.MarkedStatus | job_agent/store/repo.py:48-53 | the table after `mark_status`: `status` of the row under the key replaced; unchanged when there is no such row |
| Store.DigestRecords | job_agent/store/repo.py:55-62 | the rows `list_digest` selects: `emailed_at` set and no earlier than one day before `now` |
| Store.NewRecord | job_agent/store/repo.py:23-37 | the row `insert` builds: the posting's fields, its key and first-seen time, the score, reasons and action, status "NEW", no `emailed_at` |
| Store.NewRecordKeepsInputs | job_agent/store/repo.py:23-37 | the inserted row keeps the whole posting, its key, its first-seen time and the whole score result, with reasons in order |
| Store.InsertedContents | job_agent/store/repo.py:20-39 | insert adds exactly the new key, with status "NEW", no `emailed_at`, and the result's score, reasons and action; every other record is kept; the table grows by one |
| Store.MarkedEmailedFrame | job_agent/store/repo.py:41-46 | an absent key changes nothing; a present key gets `emailed_at = now` and nothing else changes |
| Store.MarkedEmailedLastWriteWins | job_agent/store/repo.py:41-46 | marking twice keeps only the later time |
| Store.MarkedStatusFrame | job_agent/store/repo.py:48-53 | an absent key changes nothing; a present key gets the new status, whatever it is, and nothing else changes |
| Store.MarkedEmailedEntersDigest | job_agent/store/repo.py:55-63 | a record marked emailed at `now` is in the digest taken at `now` |
| Store.NeverEmailedNotInDigest | job_agent/store/repo.py:58-62 | a record never emailed is not in the digest |
| Store.InsertNewestFirst | job_agent/store/repo.py:63 | inserting into a newest-first list keeps it newest first and adds exactly that record |
| Store.JobRepository.constructor | job_agent/store/repo.py:13-14 | the repository sees exactly the rows the database already holds, earlier runs' rows included |
| Store.JobRepository.Exists | job_agent/store/repo.py:16-18 | true exactly when the key is stored |
| Store.JobRepository.Insert | job_agent/store/repo.py:20-39 | a new key gives `Added` and the table `Inserted`; an existing key gives `DuplicateKey` and leaves the table unchanged |
| Store.JobRepository.MarkEmailed | job_agent/store/repo.py:41-46 | the table becomes `MarkedEmailed(old, key, now)` |
| Store.JobRepository.MarkStatus | job_agent/store/repo.py:48-53 | the table becomes `MarkedStatus(old, key, status)` |
| Store.JobRepository.ListDigest | job_agent/store/repo.py:55-63 | exactly the records emailed no earlier than one day before `now`, each once, ordered by `emailed_at` descending |
| Services.PyPrefix | job_agent/core/services.py:24 | the batch is a prefix of the search result, of length min(n, len) for n >= 0 and max(0, len+n) for negative n |
| Services.NoteLines | job_agent/core/services.py:45-51 | the lines `_notes` collects: the resume summary when non-empty, then, when there are achievements, the header and `- a` for each of the first five |
| Services.JoinLines | job_agent/core/services.py:52 | `"\n".join(lines)` |
| Services.NotesText | job_agent/core/services.py:44-52 | `_notes()`: the note lines joined with newlines |
| Services.AchievementLinesAt | job_agent/core/services.py:50-51 | one line `- a` per achievement, in order |
| Services.NoteLinesShape | job_agent/core/services.py:44-52 | the summary line first when there is one; then, when there are achievements, the header and `- a` for each of the first five; nothing else |
| Services.NoteLinesBound | job_agent/core/services.py:44-52 | at most seven note lines |
| Services.JoinStartsWithFirst | job_agent/core/services.py:52 | the first line is a prefix of the joined text |
| Services.NotesStartWithSummary | job_agent/core/services.py:44-52 | the notes start with the resume summary when there is one, and are empty with neither summary nor achievements |
| Services.Notifies | job_agent/core/services.py:38 | a stored posting is sent exactly when a notifier exists and its action is EMAIL |
| Services.Step | job_agent/core/services.py:27-40 | one iteration of the loop of `run_once`: nothing after a raise; a posting whose key is stored is skipped; otherwise `Admit` |
| Services.Admit | job_agent/core/services.py:32-40 | insert the observed posting with its score and count it; when a notifier exists and the action is EMAIL, record the notification, then mark it emailed at `now` if the send returns, or end the run if it raises |
| Services.Ingest | job_agent/core/services.py:27-40 | the loop of `run_once`: `Step` applied to each posting of the batch, first to last |
| Services.StepFrame | job_agent/core/services.py:27-40 | one iteration keeps every stored record, adds at most the key of its own posting, counts exactly what it adds, leaves that key stored unless it raised, and does nothing once the run has raised |
| Services.StepRecords | job_agent/core/services.py:28-40 | a record one iteration adds is filed under its URL's key, first seen now, status "NEW", with its posting's own score, and emailed now exactly when it was notified and the send returned |
| Services.StepNotifications | job_agent/core/services.py:38-40 | one iteration appends at most one notification, none without a notifier, about the record it added with action EMAIL; an iteration that raises sent exactly one notification, which did not go through |
| Services.AbortedPrefix | job_agent/core/services.py:38-40 | a run that raised on a prefix of the batch ends in the state it had when it raised |
| Services.IngestFrame | job_agent/core/services.py:27-36 | records stored before the run are untouched; only keys of the batch are added; `new_count` equals the number of records added |
| Services.AbortedRunStops | job_agent/core/services.py:38-40 | after a notification raised, nothing more happens |
| Services.CompletedRunStoresBatch | job_agent/core/services.py:27-36 | a run that completes leaves every key of the batch stored |
| Services.NewCountIsNewKeys | job_agent/core/services.py:25-36 | `new_count` is at most the number of distinct new keys of the batch, and exactly that when the run completes, so a URL repeated within a batch is stored and counted once |
| Services.SameUrlTwice | job_agent/core/services.py:27-36 | a batch holding the same posting twice counts at most one new job |
| Services.IngestRecords | job_agent/core/services.py:28-40 | each record the run adds is filed under its URL's key, first seen now, status "NEW", with its own posting's score; it is emailed now exactly when it is worth an email, a notifier is present and the send returned |
| Services.IngestSentGrows | job_agent/core/services.py:17-40 | notifications are only appended, and none are sent without a notifier |
| Services.IngestAnnounces | job_agent/core/services.py:38-39 | each notification is about a record the run added, with action EMAIL, carrying that record's posting and score and the profile's notes |
| Services.IngestNotifiesAll | job_agent/core/services.py:38-40 | with a notifier, every added record with action EMAIL was notified about; a run that stops early stops on a notification that raised |
| Services.FailedNotificationKeepsRecord | job_agent/core/services.py:35-40 | when a notification raises, the posting it was about stays stored, without `emailed_at` |
| Services.SecondRunAddsNothing | job_agent/core/services.py:28-30 | running the same batch again after a completed run changes nothing and notifies nobody |
| Services.StoredBatchUnchanged | job_agent/core/services.py:28-30 | a batch whose keys are all stored leaves the run where it started |
| Services.SilentRun | job_agent/core/services.py:17-40 | without a notifier nothing is sent and no record is marked emailed |
| Services.PollingService.constructor | job_agent/core/services.py:10-12 | the service keeps its context and profile |
| Services.PollingService.RunContext | job_agent/core/services.py:17-35 | the run's context: keys by `stable_job_key`, scores by `score` with the service's profile, the notifier only when `send_email` holds, one time `now` |
| Services.PollingService.Notes | job_agent/core/services.py:44-52 | returns the joined note lines |
| Services.PollingService.Process | job_agent/core/services.py:28-40 | one loop iteration performs `Step` on the store |
| Services.PollingService.RunOnce | job_agent/core/services.py:14-42 | with no source, the store is untouched and nothing is sent; otherwise the store, `new_count` and the notifications are those of `Ingest` over the first `max_jobs_per_run` postings in source order |
| Services.DigestService.constructor | job_agent/core/services.py:55-57 | the service keeps its notifier |
| Services.DigestService.RunDaily | job_agent/core/services.py:59-64 | without a notifier nothing is sent; otherwise exactly the digest rows are sent, newest first, even when there are none |

## Left out

- SHA-256 and `urlparse`/`urlunparse` are foreign library calls. The hash is a parameter that
  yields 64 lower-case hexadecimal digits, and which URLs make parsing raise is also a parameter.
- Identity.WithoutFragment: reassembling a parsed URL is modelled as cutting at the first '#'.
  `urlunparse` details, such as dropping an empty `?` or `;`, are not modelled.
- Text.Lower: `str.lower()` is modelled for ASCII letters only; other characters are left as
  they are. There is no Unicode case mapping.
- Text.IsSpace: `\s` and `str.strip()` are modelled with the ASCII whitespace Python uses:
  blank, tab, line feed, vertical tab, form feed, carriage return and U+001C-U+001F. Non-ASCII
  whitespace, such as U+0085, U+00A0 and U+2000-U+200A, is not whitespace in the model.
- Text.IsWordChar: the word characters of `\b` are the ASCII letters, the ASCII digits and `_`,
  and Text.IsDigit makes `\d` the ASCII digits. Python's `str` patterns also count Unicode
  letters and digits, so "ésenior" has no boundary before "senior" in Python but has one in the
  model, and "٢ days ago" has a `\d` match in Python but none in the model.
- The regular-expression engine is not modelled. The seniority search and the first `\d+`
  search are explicit predicates over strings.
- SQLAlchemy sessions, commits and engine setup, and the server-side `created_at`/`updated_at`
  columns, are storage plumbing. `score_reasons` is kept as the list that its JSON text encodes.
- Clocks and time zones: time is an integer number of seconds. Services.PollingService.RunOnce
  uses one reading `now` both for `first_seen_at` and for `emailed_at`, where the source reads
  the clock at each posting and again inside `mark_emailed`.
- Services.PollingService.RunOnce: the log lines are left out, and `new_count` is returned
  rather than logged. When a notification raises, the exception is returned as the flag
  `aborted` rather than propagated.
- The notifier's content is left out: the SMTP transport, Jinja2 rendering, the subject lines,
  and the notifier's own `enabled` checks. `send_digest` is modelled as receiving the rows.
- Store.JobRepository.Insert: a second insert under a stored key makes the source's `commit`
  raise and leaves the session needing a rollback. The model returns `DuplicateKey` instead and
  the repository stays usable. `run_once` never reaches this case, because it calls `exists`
  first.
- HTML parsing, HTTP fetching, the source's fetch loop, rate limiting and the scheduler are
  network or wall-clock I/O.
- Concurrent runs are not modelled. The race between `exists` and `insert` across overlapping
  runs needs concurrency; only sequential runs are modelled.
- YAML/pydantic configuration loading, the CLI wiring and the scripts do I/O and assembly only.
