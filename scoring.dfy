/**
 * The rule-based scoring engine (job_agent/core/scoring.py).
 *
 * `score` is modelled twice: the method `Score` accumulates the total and the
 * reasons step by step as the source does, and the function `Evaluate`
 * specifies it as a fold over the fixed list of rule effects returned by
 * `Signals`. The lemmas state the engine's promises about `Evaluate`.
 */
module Scoring {
  import opened Wrappers
  import opened Text
  import opened Models

  function Min(a: int, b: int): int { if a <= b then a else b }
  function Max(a: int, b: int): int { if a >= b then a else b }

  // ---------------------------------------------------------------------
  // Keyword matching: `_contains` and `_count`

  /** One keyword matches when it is non-empty and, normalised, occurs in the normalised text. */
  predicate Hit(text: string, keyword: string) {
    keyword != "" && Occurs(Norm(keyword), Norm(text))
  }

  /** `_contains` (scoring.py:10-12). */
  predicate Contains(text: string, keywords: seq<string>) {
    keywords != [] && (Hit(text, keywords[0]) || Contains(text, keywords[1..]))
  }

  /** `_count` (scoring.py:14-16): the number of list entries that match. */
  function Count(text: string, keywords: seq<string>): (n: nat)
    ensures n <= |keywords|
  {
    if keywords == [] then 0
    else (if Hit(text, keywords[0]) then 1 else 0) + Count(text, keywords[1..])
  }

  /** `_contains` is `any(...)`: true exactly when some entry of the list matches. */
  lemma {:induction false} ContainsIffSomeHit(text: string, keywords: seq<string>)
    ensures Contains(text, keywords) <==> exists i :: 0 <= i < |keywords| && Hit(text, keywords[i])
  {
    if keywords != [] {
      ContainsIffSomeHit(text, keywords[1..]);
      if !Hit(text, keywords[0]) && exists i :: 0 <= i < |keywords| && Hit(text, keywords[i]) {
        var i :| 0 <= i < |keywords| && Hit(text, keywords[i]);
        assert keywords[1..][i - 1] == keywords[i];
      }
    }
  }

  /** `_contains` holds exactly when `_count` is positive. */
  lemma {:induction false} ContainsIffCountPositive(text: string, keywords: seq<string>)
    ensures Contains(text, keywords) <==> Count(text, keywords) > 0
  {
    if keywords != [] {
      ContainsIffCountPositive(text, keywords[1..]);
    }
  }

  /** Counting over concatenated lists adds up: the skill count is the sum of the counts over the
      must-have, nice-to-have and domain lists. */
  lemma {:induction false} CountAppend(text: string, a: seq<string>, b: seq<string>)
    ensures Count(text, a + b) == Count(text, a) + Count(text, b)
  {
    if a != [] {
      assert (a + b)[1..] == a[1..] + b;
      CountAppend(text, a[1..], b);
    } else {
      assert a + b == b;
    }
  }

  /** The indices below `n` of the list entries that match. */
  function HitIndices(text: string, keywords: seq<string>, n: nat): set<nat>
    requires n <= |keywords|
  {
    set i: nat | i < n && Hit(text, keywords[i])
  }

  /** `_count` is the number of matching entries, each counted once: the size of the set of
      indices whose entry matches. */
  lemma {:induction false} CountIsNumberOfHits(text: string, keywords: seq<string>, n: nat)
    requires n <= |keywords|
    ensures Count(text, keywords[..n]) == |HitIndices(text, keywords, n)|
  {
    if n == 0 {
      assert HitIndices(text, keywords, 0) == {};
    } else {
      CountIsNumberOfHits(text, keywords, n - 1);
      CountStep(text, keywords, n);
      HitIndicesStep(text, keywords, n);
    }
  }

  lemma CountStep(text: string, keywords: seq<string>, n: nat)
    requires 0 < n <= |keywords|
    ensures Count(text, keywords[..n]) == Count(text, keywords[..n - 1]) + if Hit(text, keywords[n - 1]) then 1 else 0
  {
    assert keywords[..n] == keywords[..n - 1] + [keywords[n - 1]];
    CountAppend(text, keywords[..n - 1], [keywords[n - 1]]);
  }

  lemma HitIndicesStep(text: string, keywords: seq<string>, n: nat)
    requires 0 < n <= |keywords|
    ensures |HitIndices(text, keywords, n)| == |HitIndices(text, keywords, n - 1)| + if Hit(text, keywords[n - 1]) then 1 else 0
  {
    var before, after := HitIndices(text, keywords, n - 1), HitIndices(text, keywords, n);
    var last := if Hit(text, keywords[n - 1]) then {n - 1} else {};
    assert after == before + last;
    assert before !! last;
  }

  /** Empty keywords never count: appending one leaves `_count` unchanged. */
  lemma CountIgnoresEmpty(text: string, keywords: seq<string>)
    ensures Count(text, keywords + [""]) == Count(text, keywords)
  {
    CountAppend(text, keywords, [""]);
  }

  /** Matching looks only at the normalised text: normalising it first changes nothing. */
  lemma {:induction false} CountOfNormalized(text: string, keywords: seq<string>)
    ensures Count(Norm(text), keywords) == Count(text, keywords)
  {
    NormIdempotent(text);
    if keywords != [] {
      CountOfNormalized(text, keywords[1..]);
    }
  }

  /** A non-empty keyword made only of whitespace normalises to "" and therefore matches every
      text: such keywords are not ignored. */
  lemma BlankKeywordMatches(text: string, keyword: string)
    requires keyword != [] && forall i :: 0 <= i < |keyword| ==> IsSpace(keyword[i])
    ensures Hit(text, keyword)
  {
    var l := Lower(keyword);
    assert forall i :: 0 <= i < |l| ==> IsSpace(l[i]) by {
      forall i | 0 <= i < |l| ensures IsSpace(l[i]) {
        assert l[i] == LowerChar(keyword[i]);
      }
    }
    DropSpacesOfBlanks(l[1..]);
    assert Collapse(l) == [' '];
    assert Norm(keyword) == [];
  }

  lemma {:induction false} DropSpacesOfBlanks(s: string)
    requires forall i :: 0 <= i < |s| ==> IsSpace(s[i])
    ensures DropSpaces(s) == []
    decreases |s|
  {
    if s != [] {
      DropSpacesOfBlanks(s[1..]);
    }
  }

  // ---------------------------------------------------------------------
  // Freshness: `_freshness_boost`

  /** The four outcomes of the freshness rule, in the order they are tried. */
  datatype Tier = JustNow | Today | LastThreeDays | NoBoost

  /** scoring.py:18-30, with the configured magnitudes left out. */
  function FreshnessTier(postedText: string): Tier {
    var t := Norm(postedText);
    if t == "" then NoBoost
    else if Occurs("just", t) || Occurs("minute", t) then JustNow
    else if Occurs("today", t) || Occurs("hour", t) then Today
    else if Occurs("day", t) && FirstInteger(t).Some? && FirstInteger(t).value <= 3 then LastThreeDays
    else NoBoost
  }

  function TierBoost(tier: Tier, cfg: FreshnessBoostCfg): int {
    match tier
    case JustNow => cfg.justNow
    case Today => cfg.today
    case LastThreeDays => cfg.last3Days
    case NoBoost => 0
  }

  /** `_freshness_boost` (scoring.py:18-30). */
  function FreshnessBoost(postedText: string, cfg: ScoringCfg): int {
    TierBoost(FreshnessTier(postedText), cfg.freshnessBoost)
  }

  /** The tier depends only on the normalised posted text. */
  lemma FreshnessTierOfNormalized(postedText: string)
    ensures FreshnessTier(Norm(postedText)) == FreshnessTier(postedText)
  {
    NormIdempotent(postedText);
  }

  /** The posted text "N days ago", for a decimal N. */
  function DaysAgo(n: nat): string {
    NatToDecimal(n) + " days ago"
  }

  lemma DaysAgoIsNormal(n: nat)
    ensures IsNormal(DaysAgo(n))
  {
    var d, t := NatToDecimal(n), DaysAgo(n);
    assert forall i :: 0 <= i < |d| ==> t[i] == d[i] && IsDigit(t[i]);
    assert forall i :: |d| <= i < |t| ==> t[i] == " days ago"[i - |d|];
  }

  /** None of the earlier tiers' keywords occur in "N days ago". */
  lemma DaysAgoMissesEarlierTiers(n: nat)
    ensures !Occurs("just", DaysAgo(n)) && !Occurs("minute", DaysAgo(n))
    ensures !Occurs("today", DaysAgo(n)) && !Occurs("hour", DaysAgo(n))
  {
    var d, t := NatToDecimal(n), DaysAgo(n);
    assert forall i :: 0 <= i < |d| ==> d[i] !in "jmth";
    assert 'j' !in t && 'm' !in t && 't' !in t && 'h' !in t;
    MissingCharNoOccurrence("just", t, 'j');
    MissingCharNoOccurrence("minute", t, 'm');
    MissingCharNoOccurrence("today", t, 't');
    MissingCharNoOccurrence("hour", t, 'h');
  }

  lemma DaysAgoHasDay(n: nat)
    ensures Occurs("day", DaysAgo(n))
  {
    var d, t := NatToDecimal(n), DaysAgo(n);
    assert t[|d| + 1..|d| + 4] == "day";
    OccursAt("day", t, |d| + 1);
  }

  /** "N days ago" gets the last-three-days tier exactly when N is at most 3. */
  lemma DaysAgoTier(n: nat)
    ensures FreshnessTier(DaysAgo(n)) == if n <= 3 then LastThreeDays else NoBoost
  {
    DaysAgoIsNormal(n);
    NormFixesNormal(DaysAgo(n));
    DaysAgoMissesEarlierTiers(n);
    DaysAgoHasDay(n);
    FirstIntegerOfDecimal(n, " days ago");
  }

  // ---------------------------------------------------------------------
  // The rules of `score`

  const TitleRejectReason := "Rejected by title filter"
  const DescriptionRejectReason := "Rejected by description filter"
  const AvoidedReason := "Avoided company (-20)"

  /** `f"{rule} (+{amount})"`. */
  function Reason(rule: string, amount: int): string {
    rule + " (+" + IntToDecimal(amount) + ")"
  }

  /** `f"{job.title} {job.description}"`. */
  function CombinedText(job: JobPosting): string {
    job.title + " " + job.description
  }

  predicate TitleRejected(job: JobPosting, cfg: ScoringCfg) {
    Contains(job.title, cfg.hardFilters.rejectTitleKeywords)
  }

  predicate DescriptionRejected(job: JobPosting, cfg: ScoringCfg) {
    Contains(CombinedText(job), cfg.hardFilters.rejectDescKeywords)
  }

  predicate HardFiltered(job: JobPosting, cfg: ScoringCfg) {
    TitleRejected(job, cfg) || DescriptionRejected(job, cfg)
  }

  function SkillKeywords(profile: Profile): seq<string> {
    profile.mustHaveSkills + profile.niceToHaveSkills + profile.domainKeywords
  }

  /** `re.search(r"\bsenior\b|\blead\b|\bprincipal\b|\bstaff\b", _norm(title))`. */
  predicate IsSeniorTitle(title: string) {
    var t := Norm(title);
    HasWord(t, "senior") || HasWord(t, "lead") || HasWord(t, "principal") || HasWord(t, "staff")
  }

  predicate LocationMatches(job: JobPosting, profile: Profile) {
    profile.preferredLocations != [] && Contains(job.location, profile.preferredLocations)
  }

  predicate PreferredCompany(job: JobPosting, profile: Profile) {
    profile.companyPreferences.preferred != [] && Contains(job.company, profile.companyPreferences.preferred)
  }

  predicate AvoidedCompany(job: JobPosting, profile: Profile) {
    profile.companyPreferences.avoided != [] && Contains(job.company, profile.companyPreferences.avoided)
  }

  function TitleIncrement(hits: nat, cfg: ScoringCfg): int {
    Min(cfg.weights.titleMatch, 10 * hits + 10)
  }

  function SkillIncrement(hits: nat, cfg: ScoringCfg): int {
    Min(cfg.weights.skillMatch, 6 * hits + 15)
  }

  /** What one rule does to the running total and the reasons. */
  datatype Effect = Add(amount: int, reason: string) | AvoidPenalty | NoEffect

  function TitleEffect(job: JobPosting, profile: Profile, cfg: ScoringCfg): Effect {
    var hits := Count(job.title, profile.targetTitles);
    if hits > 0 then Add(TitleIncrement(hits, cfg), Reason("Title match", TitleIncrement(hits, cfg))) else NoEffect
  }

  function SkillEffect(job: JobPosting, profile: Profile, cfg: ScoringCfg): Effect {
    var hits := Count(CombinedText(job), SkillKeywords(profile));
    if hits > 0 then Add(SkillIncrement(hits, cfg), Reason("Skill/domain match", SkillIncrement(hits, cfg))) else NoEffect
  }

  function SeniorityEffect(job: JobPosting, cfg: ScoringCfg): Effect {
    var w := cfg.weights.seniorityMatch;
    if IsSeniorTitle(job.title) then Add(w, Reason("Seniority signal", w)) else NoEffect
  }

  function LocationEffect(job: JobPosting, profile: Profile, cfg: ScoringCfg): Effect {
    var w := cfg.weights.locationMatch;
    if LocationMatches(job, profile) then Add(w, Reason("Location match", w)) else NoEffect
  }

  function PreferredEffect(job: JobPosting, profile: Profile, cfg: ScoringCfg): Effect {
    var w := cfg.weights.companyPref;
    if PreferredCompany(job, profile) then Add(w, Reason("Preferred company", w)) else NoEffect
  }

  function AvoidedEffect(job: JobPosting, profile: Profile): Effect {
    if AvoidedCompany(job, profile) then AvoidPenalty else NoEffect
  }

  function FreshnessEffect(job: JobPosting, cfg: ScoringCfg): Effect {
    var f := FreshnessBoost(job.postedText, cfg);
    if f != 0 then Add(f, Reason("Freshness", f)) else NoEffect
  }

  /** The seven soft rules of `score`, in evaluation order (scoring.py:46-82). */
  function Signals(job: JobPosting, profile: Profile, cfg: ScoringCfg): (effects: seq<Effect>)
    ensures |effects| == 7
  {
    [ TitleEffect(job, profile, cfg),
      SkillEffect(job, profile, cfg),
      SeniorityEffect(job, cfg),
      LocationEffect(job, profile, cfg),
      PreferredEffect(job, profile, cfg),
      AvoidedEffect(job, profile),
      FreshnessEffect(job, cfg) ]
  }

  function Apply(e: Effect, total: int): int {
    match e
    case Add(amount, _) => total + amount
    case AvoidPenalty => Max(0, total - 20)
    case NoEffect => total
  }

  /** The running total after the given effects, starting from 0. */
  function Total(effects: seq<Effect>): int {
    if effects == [] then 0 else Apply(effects[|effects| - 1], Total(effects[..|effects| - 1]))
  }

  function ReasonOf(e: Effect): seq<string> {
    match e
    case Add(_, reason) => [reason]
    case AvoidPenalty => [AvoidedReason]
    case NoEffect => []
  }

  /** The reasons of the effects that fire, in order. */
  function FiredReasons(effects: seq<Effect>): (reasons: seq<string>)
    ensures |reasons| <= |effects|
  {
    if effects == [] then [] else FiredReasons(effects[..|effects| - 1]) + ReasonOf(effects[|effects| - 1])
  }

  /** Running the effects one more step. */
  lemma TotalStep(effects: seq<Effect>, k: nat)
    requires k < |effects|
    ensures Total(effects[..k + 1]) == Apply(effects[k], Total(effects[..k]))
    ensures FiredReasons(effects[..k + 1]) == FiredReasons(effects[..k]) + ReasonOf(effects[k])
  {
    assert effects[..k + 1][..k] == effects[..k];
  }

  /** The total over the seven rules, written out. */
  lemma SevenTotal(e: seq<Effect>)
    requires |e| == 7
    ensures Total(e) == Apply(e[6], Apply(e[5], Apply(e[4], Apply(e[3], Apply(e[2], Apply(e[1], Apply(e[0], 0)))))))
  {
    assert e[..0] == [];
    TotalStep(e, 0);
    TotalStep(e, 1);
    TotalStep(e, 2);
    var t3 := Total(e[..3]);
    TotalStep(e, 3);
    TotalStep(e, 4);
    var t5 := Total(e[..5]);
    TotalStep(e, 5);
    TotalStep(e, 6);
    assert e[..7] == e;
  }

  /** The reasons over the seven rules, written out. */
  lemma SevenReasons(e: seq<Effect>)
    requires |e| == 7
    ensures FiredReasons(e) == ReasonOf(e[0]) + ReasonOf(e[1]) + ReasonOf(e[2]) + ReasonOf(e[3])
                               + ReasonOf(e[4]) + ReasonOf(e[5]) + ReasonOf(e[6])
  {
    assert e[..0] == [];
    TotalStep(e, 0);
    assert FiredReasons(e[..1]) == ReasonOf(e[0]);
    TotalStep(e, 1);
    TotalStep(e, 2);
    TotalStep(e, 3);
    var r4 := FiredReasons(e[..4]);
    assert r4 == ReasonOf(e[0]) + ReasonOf(e[1]) + ReasonOf(e[2]) + ReasonOf(e[3]);
    TotalStep(e, 4);
    TotalStep(e, 5);
    TotalStep(e, 6);
    assert e[..7] == e;
  }

  function Clamp(x: int): int {
    Min(100, Max(0, x))
  }

  /** The specification of `score` (scoring.py:32-87). */
  function Evaluate(job: JobPosting, profile: Profile, cfg: ScoringCfg): (r: ScoreResult)
    ensures 0 <= r.score <= 100
    ensures r.action == Skip <==> HardFiltered(job, cfg)
    ensures TitleRejected(job, cfg) ==> r == ScoreResult(0, [TitleRejectReason], Skip)
    ensures !TitleRejected(job, cfg) && DescriptionRejected(job, cfg) ==>
              r == ScoreResult(0, [DescriptionRejectReason], Skip)
    ensures !HardFiltered(job, cfg) ==> (r.action == Email <==> r.score >= cfg.minScoreToEmail)
    ensures |r.reasons| <= 7
  {
    if TitleRejected(job, cfg) then ScoreResult(0, [TitleRejectReason], Skip)
    else if DescriptionRejected(job, cfg) then ScoreResult(0, [DescriptionRejectReason], Skip)
    else
      var effects := Signals(job, profile, cfg);
      var total := Clamp(Total(effects));
      ScoreResult(total, FiredReasons(effects), if total >= cfg.minScoreToEmail then Email else Queue)
  }

  // ---------------------------------------------------------------------
  // What the reasons list reports

  predicate StartsWith(s: string, prefix: string) {
    |prefix| <= |s| && s[..|prefix|] == prefix
  }

  /** The name each rule's reason starts with, in evaluation order. */
  const RuleNames: seq<string> :=
    ["Title match", "Skill/domain match", "Seniority signal", "Location match",
     "Preferred company", "Avoided company", "Freshness"]

  /** When rule `k` of the seven fires, as the source's `if` conditions say. */
  predicate Fires(job: JobPosting, profile: Profile, cfg: ScoringCfg, k: nat)
    requires k < 7
  {
    match k
    case 0 => Count(job.title, profile.targetTitles) > 0
    case 1 => Count(CombinedText(job), SkillKeywords(profile)) > 0
    case 2 => IsSeniorTitle(job.title)
    case 3 => LocationMatches(job, profile)
    case 4 => PreferredCompany(job, profile)
    case 5 => AvoidedCompany(job, profile)
    case 6 => FreshnessBoost(job.postedText, cfg) != 0
  }

  lemma ReasonStartsWithRule(rule: string, amount: int)
    ensures StartsWith(Reason(rule, amount), rule)
  {
    assert Reason(rule, amount) == rule + (" (+" + IntToDecimal(amount) + ")");
  }

  /** Rule `k` contributes a reason exactly when it fires, and that reason carries the rule's name. */
  lemma SignalNamed(job: JobPosting, profile: Profile, cfg: ScoringCfg, k: nat)
    requires k < 7
    ensures var e := Signals(job, profile, cfg)[k];
            (e != NoEffect <==> Fires(job, profile, cfg, k)) &&
            forall s :: s in ReasonOf(e) ==> StartsWith(s, RuleNames[k])
  {
    var e := Signals(job, profile, cfg)[k];
    if k == 5 {
      assert e == AvoidedEffect(job, profile);
    } else {
      ApplyGain(job, profile, cfg, k, 0);
      if e.Add? {
        ReasonStartsWithRule(RuleNames[k], e.amount);
      }
    }
  }

  /** Every reason of every effect is in the reasons list. */
  lemma {:induction false} FiredReasonsInclude(effects: seq<Effect>, k: nat, s: string)
    requires k < |effects| && s in ReasonOf(effects[k])
    ensures s in FiredReasons(effects)
  {
    var m := |effects| - 1;
    assert FiredReasons(effects) == FiredReasons(effects[..m]) + ReasonOf(effects[m]);
    if k < m {
      assert effects[..m][k] == effects[k];
      FiredReasonsInclude(effects[..m], k, s);
    }
  }

  /** Every entry of the reasons list is the reason of one of the effects. */
  lemma {:induction false} FiredReasonSource(effects: seq<Effect>, s: string) returns (k: nat)
    requires s in FiredReasons(effects)
    ensures k < |effects| && s in ReasonOf(effects[k])
  {
    var m := |effects| - 1;
    assert FiredReasons(effects) == FiredReasons(effects[..m]) + ReasonOf(effects[m]);
    if s in ReasonOf(effects[m]) {
      k := m;
    } else {
      k := FiredReasonSource(effects[..m], s);
      assert effects[..m][k] == effects[k];
    }
  }

  /** No reason can carry two different rule names: they differ in their first two letters. */
  lemma RuleNamesDistinct(s: string, j: nat, k: nat)
    requires j < 7 && k < 7 && StartsWith(s, RuleNames[j]) && StartsWith(s, RuleNames[k])
    ensures j == k
  {
    assert RuleNames[j][0] == s[0] == RuleNames[k][0];
    assert RuleNames[j][1] == s[1] == RuleNames[k][1];
  }

  /** A rule that fires has its reason in the list. */
  lemma FiringRuleReported(job: JobPosting, profile: Profile, cfg: ScoringCfg, k: nat)
    requires !HardFiltered(job, cfg) && k < 7 && Fires(job, profile, cfg, k)
    ensures var reasons := Evaluate(job, profile, cfg).reasons;
            exists i :: 0 <= i < |reasons| && StartsWith(reasons[i], RuleNames[k])
  {
    var effects := Signals(job, profile, cfg);
    var reasons := Evaluate(job, profile, cfg).reasons;
    assert reasons == FiredReasons(effects);
    SignalNamed(job, profile, cfg, k);
    var s := ReasonOf(effects[k])[0];
    FiredReasonsInclude(effects, k, s);
    var i :| 0 <= i < |reasons| && reasons[i] == s;
  }

  /** A reason named after a rule is only in the list when that rule fires. */
  lemma ReportedRuleFires(job: JobPosting, profile: Profile, cfg: ScoringCfg, k: nat, i: nat)
    requires !HardFiltered(job, cfg) && k < 7
    requires var reasons := Evaluate(job, profile, cfg).reasons; i < |reasons| && StartsWith(reasons[i], RuleNames[k])
    ensures Fires(job, profile, cfg, k)
  {
    var effects := Signals(job, profile, cfg);
    var reasons := Evaluate(job, profile, cfg).reasons;
    assert reasons == FiredReasons(effects);
    var j := FiredReasonSource(effects, reasons[i]);
    SignalNamed(job, profile, cfg, j);
    RuleNamesDistinct(reasons[i], j, k);
    SignalNamed(job, profile, cfg, k);
  }

  /** On a posting that passes the hard filters, the reasons list names rule `k` exactly when
      that rule fires. */
  lemma RuleReported(job: JobPosting, profile: Profile, cfg: ScoringCfg, k: nat)
    requires !HardFiltered(job, cfg) && k < 7
    ensures var r := Evaluate(job, profile, cfg);
            (exists i :: 0 <= i < |r.reasons| && StartsWith(r.reasons[i], RuleNames[k])) <==> Fires(job, profile, cfg, k)
  {
    var reasons := Evaluate(job, profile, cfg).reasons;
    if Fires(job, profile, cfg, k) {
      FiringRuleReported(job, profile, cfg, k);
    }
    if exists i :: 0 <= i < |reasons| && StartsWith(reasons[i], RuleNames[k]) {
      var i :| 0 <= i < |reasons| && StartsWith(reasons[i], RuleNames[k]);
      ReportedRuleFires(job, profile, cfg, k, i);
    }
  }

  /** A title match, when there is one, is reported first, with the capped increment. */
  lemma TitleMatchReportedFirst(job: JobPosting, profile: Profile, cfg: ScoringCfg)
    requires !HardFiltered(job, cfg)
    ensures var hits, r := Count(job.title, profile.targetTitles), Evaluate(job, profile, cfg);
            hits > 0 ==> |r.reasons| > 0 && r.reasons[0] == Reason("Title match", TitleIncrement(hits, cfg))
  {
    SevenReasons(Signals(job, profile, cfg));
  }

  /** "Avoided company (-20)" is among the reasons exactly when the avoided-company rule fires. */
  lemma AvoidedReported(job: JobPosting, profile: Profile, cfg: ScoringCfg)
    requires !HardFiltered(job, cfg)
    ensures AvoidedReason in Evaluate(job, profile, cfg).reasons <==> AvoidedCompany(job, profile)
  {
    var reasons := Evaluate(job, profile, cfg).reasons;
    if AvoidedReason in reasons {
      assert AvoidedCompany(job, profile) by {
        var i :| 0 <= i < |reasons| && reasons[i] == AvoidedReason;
        assert StartsWith(reasons[i], RuleNames[5]);
        RuleReported(job, profile, cfg, 5);
      }
    }
    if AvoidedCompany(job, profile) {
      assert AvoidedReason in reasons by {
        FiredReasonsInclude(Signals(job, profile, cfg), 5, AvoidedReason);
      }
    }
  }

  /** What rule `k` adds to the total when it fires (all rules but the avoided-company one). */
  function Increment(job: JobPosting, profile: Profile, cfg: ScoringCfg, k: nat): int
    requires k < 7 && k != 5
  {
    match k
    case 0 => TitleIncrement(Count(job.title, profile.targetTitles), cfg)
    case 1 => SkillIncrement(Count(CombinedText(job), SkillKeywords(profile)), cfg)
    case 2 => cfg.weights.seniorityMatch
    case 3 => cfg.weights.locationMatch
    case 4 => cfg.weights.companyPref
    case 6 => FreshnessBoost(job.postedText, cfg)
  }

  /** What rule `k` contributes: its increment when it fires, nothing otherwise. */
  function Gain(job: JobPosting, profile: Profile, cfg: ScoringCfg, k: nat): int
    requires k < 7 && k != 5
  {
    if Fires(job, profile, cfg, k) then Increment(job, profile, cfg, k) else 0
  }

  lemma ApplyGain(job: JobPosting, profile: Profile, cfg: ScoringCfg, k: nat, total: int)
    requires k < 7 && k != 5
    ensures Apply(Signals(job, profile, cfg)[k], total) == total + Gain(job, profile, cfg, k)
  {
    var e := Signals(job, profile, cfg)[k];
    if k == 0 {
      assert e == TitleEffect(job, profile, cfg);
    } else if k == 1 {
      assert e == SkillEffect(job, profile, cfg);
    } else if k == 6 {
      assert e == FreshnessEffect(job, cfg);
    }
  }

  /** The score is the clamped sum of the increments of the rules that fire, with the avoided
      company's 20-point penalty, floored at 0, taken before the freshness boost is added. */
  lemma ScoreFormula(job: JobPosting, profile: Profile, cfg: ScoringCfg)
    requires !HardFiltered(job, cfg)
    ensures
      var beforePenalty := Gain(job, profile, cfg, 0) + Gain(job, profile, cfg, 1) + Gain(job, profile, cfg, 2)
                           + Gain(job, profile, cfg, 3) + Gain(job, profile, cfg, 4);
      var afterPenalty := if AvoidedCompany(job, profile) then Max(0, beforePenalty - 20) else beforePenalty;
      Evaluate(job, profile, cfg).score == Clamp(afterPenalty + Gain(job, profile, cfg, 6))
  {
    var e := Signals(job, profile, cfg);
    SevenTotal(e);
    ApplyGain(job, profile, cfg, 0, 0);
    ApplyGain(job, profile, cfg, 1, Apply(e[0], 0));
    ApplyGain(job, profile, cfg, 2, Apply(e[1], Apply(e[0], 0)));
    ApplyGain(job, profile, cfg, 3, Apply(e[2], Apply(e[1], Apply(e[0], 0))));
    var t4 := Apply(e[4], Apply(e[3], Apply(e[2], Apply(e[1], Apply(e[0], 0)))));
    ApplyGain(job, profile, cfg, 4, Apply(e[3], Apply(e[2], Apply(e[1], Apply(e[0], 0)))));
    ApplyGain(job, profile, cfg, 6, Apply(e[5], t4));
  }

  // ---------------------------------------------------------------------
  // `score` as the source computes it: each rule block updates the running
  // total `scoreVal` and appends to `reasons`.

  /** scoring.py:46-50. */
  method TitleRule(job: JobPosting, profile: Profile, cfg: ScoringCfg, scoreVal: int, reasons: seq<string>)
    returns (scoreVal': int, reasons': seq<string>)
    ensures var e := TitleEffect(job, profile, cfg); scoreVal' == Apply(e, scoreVal) && reasons' == reasons + ReasonOf(e)
  {
    scoreVal', reasons' := scoreVal, reasons;
    var titleHits := Count(job.title, profile.targetTitles);
    if titleHits != 0 {
      var inc := Min(cfg.weights.titleMatch, 10 * titleHits + 10);
      scoreVal' := scoreVal' + inc;
      reasons' := reasons' + [Reason("Title match", inc)];
    }
  }

  /** scoring.py:52-61. */
  method SkillRule(job: JobPosting, profile: Profile, cfg: ScoringCfg, scoreVal: int, reasons: seq<string>)
    returns (scoreVal': int, reasons': seq<string>)
    ensures var e := SkillEffect(job, profile, cfg); scoreVal' == Apply(e, scoreVal) && reasons' == reasons + ReasonOf(e)
  {
    scoreVal', reasons' := scoreVal, reasons;
    var keywords := profile.mustHaveSkills + profile.niceToHaveSkills + profile.domainKeywords;
    assert keywords == SkillKeywords(profile);
    var skillHits := Count(CombinedText(job), keywords);
    if skillHits != 0 {
      var inc := Min(cfg.weights.skillMatch, 6 * skillHits + 15);
      scoreVal' := scoreVal' + inc;
      reasons' := reasons' + [Reason("Skill/domain match", inc)];
    }
  }

  /** scoring.py:63-65. */
  method SeniorityRule(job: JobPosting, cfg: ScoringCfg, scoreVal: int, reasons: seq<string>)
    returns (scoreVal': int, reasons': seq<string>)
    ensures var e := SeniorityEffect(job, cfg); scoreVal' == Apply(e, scoreVal) && reasons' == reasons + ReasonOf(e)
  {
    scoreVal', reasons' := scoreVal, reasons;
    if IsSeniorTitle(job.title) {
      scoreVal' := scoreVal' + cfg.weights.seniorityMatch;
      reasons' := reasons' + [Reason("Seniority signal", cfg.weights.seniorityMatch)];
    }
  }

  /** scoring.py:67-73: the location and preferred-company rules. */
  method PreferenceRules(job: JobPosting, profile: Profile, cfg: ScoringCfg, scoreVal: int, reasons: seq<string>)
    returns (scoreVal': int, reasons': seq<string>)
    ensures var e3, e4 := LocationEffect(job, profile, cfg), PreferredEffect(job, profile, cfg);
            scoreVal' == Apply(e4, Apply(e3, scoreVal)) && reasons' == reasons + ReasonOf(e3) + ReasonOf(e4)
  {
    scoreVal', reasons' := scoreVal, reasons;
    if profile.preferredLocations != [] && Contains(job.location, profile.preferredLocations) {
      scoreVal' := scoreVal' + cfg.weights.locationMatch;
      reasons' := reasons' + [Reason("Location match", cfg.weights.locationMatch)];
    }
    ghost var s3, r3 := scoreVal', reasons';
    if profile.companyPreferences.preferred != [] && Contains(job.company, profile.companyPreferences.preferred) {
      scoreVal' := scoreVal' + cfg.weights.companyPref;
      reasons' := reasons' + [Reason("Preferred company", cfg.weights.companyPref)];
    }
    assert s3 == Apply(LocationEffect(job, profile, cfg), scoreVal);
  }

  /** scoring.py:75-82: the avoided-company penalty and the freshness boost. */
  method PenaltyAndFreshness(job: JobPosting, profile: Profile, cfg: ScoringCfg, scoreVal: int, reasons: seq<string>)
    returns (scoreVal': int, reasons': seq<string>)
    ensures var e5, e6 := AvoidedEffect(job, profile), FreshnessEffect(job, cfg);
            scoreVal' == Apply(e6, Apply(e5, scoreVal)) && reasons' == reasons + ReasonOf(e5) + ReasonOf(e6)
  {
    scoreVal', reasons' := scoreVal, reasons;
    if profile.companyPreferences.avoided != [] && Contains(job.company, profile.companyPreferences.avoided) {
      scoreVal' := Max(0, scoreVal' - 20);
      reasons' := reasons' + [AvoidedReason];
    }
    ghost var s5 := scoreVal';
    var freshness := FreshnessBoost(job.postedText, cfg);
    if freshness != 0 {
      scoreVal' := scoreVal' + freshness;
      reasons' := reasons' + [Reason("Freshness", freshness)];
    }
    assert s5 == Apply(AvoidedEffect(job, profile), scoreVal);
  }

  /** `score` (scoring.py:32-87). */
  method Score(job: JobPosting, profile: Profile, cfg: ScoringCfg) returns (r: ScoreResult)
    ensures r == Evaluate(job, profile, cfg)
  {
    var title := job.title;
    var text := CombinedText(job);

    if Contains(title, cfg.hardFilters.rejectTitleKeywords) {
      return ScoreResult(0, [TitleRejectReason], Skip);
    }
    if Contains(text, cfg.hardFilters.rejectDescKeywords) {
      return ScoreResult(0, [DescriptionRejectReason], Skip);
    }

    var scoreVal := 0;
    var reasons: seq<string> := [];
    scoreVal, reasons := TitleRule(job, profile, cfg, scoreVal, reasons);
    assert reasons == ReasonOf(TitleEffect(job, profile, cfg));
    scoreVal, reasons := SkillRule(job, profile, cfg, scoreVal, reasons);
    scoreVal, reasons := SeniorityRule(job, cfg, scoreVal, reasons);
    scoreVal, reasons := PreferenceRules(job, profile, cfg, scoreVal, reasons);
    scoreVal, reasons := PenaltyAndFreshness(job, profile, cfg, scoreVal, reasons);
    ghost var effects := Signals(job, profile, cfg);
    SevenTotal(effects);
    SevenReasons(effects);
    assert effects[0] == TitleEffect(job, profile, cfg) && effects[1] == SkillEffect(job, profile, cfg);
    assert effects[2] == SeniorityEffect(job, cfg) && effects[3] == LocationEffect(job, profile, cfg);
    assert effects[4] == PreferredEffect(job, profile, cfg) && effects[5] == AvoidedEffect(job, profile);
    assert effects[6] == FreshnessEffect(job, cfg);
    assert Total(effects) == scoreVal;
    assert FiredReasons(effects) == reasons;

    scoreVal := Min(100, Max(0, scoreVal));
    var action := if scoreVal >= cfg.minScoreToEmail then Email else Queue;
    r := ScoreResult(scoreVal, reasons, action);
  }
}
