/**
 * The worked example of tests/test_scoring.py: a senior Node.js/AWS backend
 * posting, seen "Just now", against a profile targeting that title.
 * The score is 20 + 27 + 12 + 8 + 15 = 82 and the action is EMAIL.
 */
module ScoringExamples {
  import opened Text
  import opened Models
  import opened Scoring

  const ExampleCfg := ScoringCfg(70, FreshnessBoostCfg(15, 10, 6), WeightsCfg(25, 45, 12, 8, 10), HardFiltersCfg([], []))

  const ExampleProfile := Profile(
    "X", ["Senior Backend Engineer"], ["Remote"], ["Node.js", "AWS", "PostgreSQL"], [], [],
    CompanyPrefs([], []), "", [])

  /** The posting's title, "Senior Backend Engineer - Node.js AWS", in two halves: the first is
      the profile's target title. */
  const TitleHead := "Senior Backend Engineer"
  const TitleTail := " - Node.js AWS"

  const ExampleJob := JobPosting("naukri", TitleHead + TitleTail, "Test", "Remote", "https://example.com", "Just now", "")

  /** The normalised title; the combined title-and-description text normalises to it as well. */
  const NormHead := "senior backend engineer"
  const NormTail := " - node.js aws"

  lemma HeadLowered()
    ensures Lower(TitleHead) == NormHead
  {
  }

  lemma HeadNormal()
    ensures IsNormal(NormHead)
  {
  }

  lemma TailLowered()
    ensures Lower(TitleTail) == NormTail
  {
  }

  lemma TailShape()
    ensures Folded(NormTail) && SingleBlanks(NormTail)
  {
  }

  lemma TitleLowered()
    ensures Lower(ExampleJob.title) == NormHead + NormTail && IsNormal(NormHead + NormTail)
  {
    HeadLowered();
    HeadNormal();
    TailLowered();
    TailShape();
    NormalAppend(NormHead, NormTail);
    LowerAppend(TitleHead, TitleTail);
  }

  lemma TitleNormalised()
    ensures Norm(ExampleJob.title) == NormHead + NormTail
    ensures Norm(CombinedText(ExampleJob)) == NormHead + NormTail
  {
    TitleLowered();
    NormOfCleanText(ExampleJob.title, NormHead + NormTail, "");
    assert CombinedText(ExampleJob) == ExampleJob.title + " ";
    LowerAppend(ExampleJob.title, " ");
    NormOfCleanText(CombinedText(ExampleJob), NormHead + NormTail, " ");
  }

  /** Normalising a keyword that holds no whitespace only lowers its case. */
  lemma KeywordNormalised(k: string, lowered: string)
    requires forall i :: 0 <= i < |k| ==> !IsSpace(k[i])
    requires Lower(k) == lowered
    ensures Norm(k) == lowered
  {
    assert IsNormal(lowered) by {
      forall i | 0 <= i < |lowered| ensures !IsSpace(lowered[i]) {
        assert lowered[i] == LowerChar(k[i]);
      }
    }
    NormOfCleanText(k, lowered, "");
  }

  lemma TitleHits()
    ensures Count(ExampleJob.title, ExampleProfile.targetTitles) == 1
  {
    TitleNormalised();
    HeadLowered();
    HeadNormal();
    NormOfCleanText(TitleHead, NormHead, "");
    OccursAt(NormHead, NormHead + NormTail, 0);
    assert Hit(ExampleJob.title, TitleHead);
  }

  /** A keyword that occurs in the tail of the title is a hit on the combined text. */
  lemma TailKeyword(k: string, lowered: string, at: nat)
    requires forall i :: 0 <= i < |k| ==> !IsSpace(k[i])
    requires Lower(k) == lowered && OccursAtPos(lowered, NormTail, at)
    requires k != ""
    ensures Hit(CombinedText(ExampleJob), k)
  {
    TitleNormalised();
    KeywordNormalised(k, lowered);
    OccursAt(lowered, NormTail, at);
    OccursInAppend(lowered, NormHead, NormTail);
  }

  lemma NoQInTitle()
    ensures 'q' !in NormHead + NormTail
  {
    assert 'q' !in NormHead;
    assert 'q' !in NormTail;
  }

  lemma PostgresLowered()
    ensures Lower("PostgreSQL") == "postgresql"
  {
  }

  /** "postgresql" needs a 'q', which the title lacks. */
  lemma PostgresMisses()
    ensures !Hit(CombinedText(ExampleJob), "PostgreSQL")
  {
    TitleNormalised();
    PostgresLowered();
    KeywordNormalised("PostgreSQL", "postgresql");
    NoQInTitle();
    MissingCharNoOccurrence("postgresql", NormHead + NormTail, 'q');
  }

  lemma NodeAt()
    ensures Lower("Node.js") == "node.js" && OccursAtPos("node.js", NormTail, 3)
  {
    assert NormTail[3..10] == "node.js";
  }

  lemma AwsAt()
    ensures Lower("AWS") == "aws" && OccursAtPos("aws", NormTail, 11)
  {
    assert NormTail[11..14] == "aws";
  }

  lemma CountOfThree(text: string, a: string, b: string, c: string)
    ensures Count(text, [a, b, c]) ==
            (if Hit(text, a) then 1 else 0) + (if Hit(text, b) then 1 else 0) + (if Hit(text, c) then 1 else 0)
  {
    assert [a, b, c][1..] == [b, c];
    assert [b, c][1..] == [c];
    assert Count(text, [c]) == (if Hit(text, c) then 1 else 0) + Count(text, []);
  }

  lemma NodeHit()
    ensures Hit(CombinedText(ExampleJob), "Node.js")
  {
    NodeAt();
    TailKeyword("Node.js", "node.js", 3);
  }

  lemma AwsHit()
    ensures Hit(CombinedText(ExampleJob), "AWS")
  {
    AwsAt();
    TailKeyword("AWS", "aws", 11);
  }

  lemma SkillHits()
    ensures Count(CombinedText(ExampleJob), SkillKeywords(ExampleProfile)) == 2
  {
    NodeHit();
    AwsHit();
    PostgresMisses();
    assert SkillKeywords(ExampleProfile) == ["Node.js", "AWS", "PostgreSQL"];
    CountOfThree(CombinedText(ExampleJob), "Node.js", "AWS", "PostgreSQL");
  }

  lemma SeniorTitle()
    ensures IsSeniorTitle(ExampleJob.title)
  {
    TitleNormalised();
    var t := NormHead + NormTail;
    assert t[..6] == NormHead[..6] == "senior";
    assert t[6] == ' ';
    assert WordAt(t, "senior", 0);
    WordFound(t, "senior", 0);
  }

  lemma RemoteLocation()
    ensures LocationMatches(ExampleJob, ExampleProfile)
  {
    KeywordNormalised("Remote", "remote");
    OccursAt("remote", "remote", 0);
    assert Hit(ExampleJob.location, "Remote");
  }

  lemma JustNowFreshness()
    ensures FreshnessBoost(ExampleJob.postedText, ExampleCfg) == 15
  {
    assert IsNormal("just now");
    assert Lower("Just now") == "just now";
    NormOfCleanText("Just now", "just now", "");
    OccursAt("just", "just now", 0);
  }

  lemma ReasonTexts()
    ensures Reason("Title match", 20) == "Title match (+20)"
    ensures Reason("Skill/domain match", 27) == "Skill/domain match (+27)"
    ensures Reason("Seniority signal", 12) == "Seniority signal (+12)"
    ensures Reason("Location match", 8) == "Location match (+8)"
    ensures Reason("Freshness", 15) == "Freshness (+15)"
  {
    assert NatToDecimal(20) == "20" && NatToDecimal(27) == "27";
    assert NatToDecimal(12) == "12" && NatToDecimal(15) == "15";
  }

  lemma ExampleSignals()
    ensures Signals(ExampleJob, ExampleProfile, ExampleCfg) ==
            [ Add(20, "Title match (+20)"), Add(27, "Skill/domain match (+27)"), Add(12, "Seniority signal (+12)"),
              Add(8, "Location match (+8)"), NoEffect, NoEffect, Add(15, "Freshness (+15)") ]
  {
    ReasonTexts();
    TitleHits();
    assert TitleEffect(ExampleJob, ExampleProfile, ExampleCfg) == Add(20, "Title match (+20)");
    SkillHits();
    assert SkillEffect(ExampleJob, ExampleProfile, ExampleCfg) == Add(27, "Skill/domain match (+27)");
    SeniorTitle();
    RemoteLocation();
    JustNowFreshness();
  }

  lemma ConcatReasons(r0: string, r1: string, r2: string, r3: string, r6: string)
    ensures [r0] + [r1] + [r2] + [r3] + [] + [] + [r6] == [r0, r1, r2, r3, r6]
  {
  }

  /** The test's expectation: action EMAIL, here with the full result spelled out. */
  lemma WorkedExample()
    ensures Evaluate(ExampleJob, ExampleProfile, ExampleCfg) ==
            ScoreResult(82,
                        ["Title match (+20)", "Skill/domain match (+27)", "Seniority signal (+12)",
                         "Location match (+8)", "Freshness (+15)"],
                        Email)
  {
    var e := Signals(ExampleJob, ExampleProfile, ExampleCfg);
    ExampleSignals();
    SevenTotal(e);
    assert Total(e) == 82;
    SevenReasons(e);
    ConcatReasons("Title match (+20)", "Skill/domain match (+27)", "Seniority signal (+12)",
                  "Location match (+8)", "Freshness (+15)");
    assert FiredReasons(e) == ["Title match (+20)", "Skill/domain match (+27)", "Seniority signal (+12)",
                               "Location match (+8)", "Freshness (+15)"];
    assert !HardFiltered(ExampleJob, ExampleCfg);
  }
}
