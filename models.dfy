/**
 * The records that the scoring engine and the pipeline exchange
 * (job_agent/models/job.py, score.py, profile.py and the scoring part of config.py).
 */
module Models {

  /** A raw posting as a source yields it. */
  datatype JobPosting = JobPosting(
    source: string,
    title: string,
    company: string,
    location: string,
    url: string,
    postedText: string,
    description: string)

  /** A posting together with its derived key and the time it was first seen. */
  datatype ObservedJob = ObservedJob(job: JobPosting, jobKey: string, firstSeenAt: int)

  /** The three values of `ScoreResult.action`: "EMAIL", "QUEUE" and "SKIP". */
  datatype Action = Email | Queue | Skip

  datatype ScoreResult = ScoreResult(score: int, reasons: seq<string>, action: Action)

  datatype CompanyPrefs = CompanyPrefs(preferred: seq<string>, avoided: seq<string>)

  datatype Profile = Profile(
    name: string,
    targetTitles: seq<string>,
    preferredLocations: seq<string>,
    mustHaveSkills: seq<string>,
    niceToHaveSkills: seq<string>,
    domainKeywords: seq<string>,
    companyPreferences: CompanyPrefs,
    resumeSummary: string,
    achievements: seq<string>)

  datatype FreshnessBoostCfg = FreshnessBoostCfg(justNow: int, today: int, last3Days: int)

  datatype WeightsCfg = WeightsCfg(
    titleMatch: int,
    skillMatch: int,
    seniorityMatch: int,
    locationMatch: int,
    companyPref: int)

  datatype HardFiltersCfg = HardFiltersCfg(rejectTitleKeywords: seq<string>, rejectDescKeywords: seq<string>)

  datatype ScoringCfg = ScoringCfg(
    minScoreToEmail: int,
    freshnessBoost: FreshnessBoostCfg,
    weights: WeightsCfg,
    hardFilters: HardFiltersCfg)

  datatype PollingCfg = PollingCfg(intervalSeconds: int, jitterSeconds: int, maxJobsPerRun: int)
}
