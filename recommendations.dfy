/**
 * The three recommendation composers of the fraud-detection service
 * (server/services/fraudDetectionService.js:415-505). Each starts with a
 * block chosen by the score and then adds one line per element or issue
 * of the kinds it knows, in the order the elements or issues arrive.
 */
module Recommendations {
  import opened Wrappers
  import opened Analysis

  const HighRiskBlock: seq<Advice> := [HighRiskAvoid, VerifyClaims, ContactHelpline]
  const MediumRiskBlock: seq<Advice> := [MediumRiskCaution, DueDiligence, ConsultAdvisor]
  const LowRiskBlock: seq<Advice> := [RelativelySafe, KeepLearning]
  const AdvisorWarningBlock: seq<Advice> := [AdvisorWarning, OnlyRegistered, CheckAdvisorList]
  const AnnouncementWarningBlock: seq<Advice> := [AnnouncementWarning, VerifyOnExchange, CheckNews]

  // ---------------------------------------------------------------------
  // Text analysis

  /** The opening block for a text score: above 70, above 40, or otherwise. */
  function TextBaseBlock(riskScore: int): seq<Advice>
  {
    if riskScore > 70 then HighRiskBlock
    else if riskScore > 40 then MediumRiskBlock
    else LowRiskBlock
  }

  /** The line one element adds; keywords add none. */
  function ElementLine(e: SuspiciousElement): seq<Advice>
  {
    match e.kind
    case UnrealisticReturn => [SkepticalOfReturns]
    case ContactInfo => [VerifyBeforeContact]
    case SocialMediaContact => [AvoidSocialAdvice]
    case SuspiciousKeyword => []
  }

  function ElementLines(es: seq<SuspiciousElement>): seq<Advice>
  {
    if es == [] then [] else ElementLines(es[..|es| - 1]) + ElementLine(es[|es| - 1])
  }

  /** `generateRecommendations` as a value. */
  function TextRecommendations(riskScore: int, es: seq<SuspiciousElement>): seq<Advice>
  {
    TextBaseBlock(riskScore) + ElementLines(es)
  }

  /** `generateRecommendations`: the band's block, then one line per non-keyword element. */
  method GenerateRecommendations(riskScore: int, suspiciousElements: seq<SuspiciousElement>)
    returns (recommendations: seq<Advice>)
    ensures recommendations == TextRecommendations(riskScore, suspiciousElements)
  {
    if riskScore > 70 {
      recommendations := HighRiskBlock;
    } else if riskScore > 40 {
      recommendations := MediumRiskBlock;
    } else {
      recommendations := LowRiskBlock;
    }
    ghost var base := recommendations;
    for i := 0 to |suspiciousElements|
      invariant recommendations == base + ElementLines(suspiciousElements[..i])
    {
      ElementLinesStep(suspiciousElements, i);
      ConcatAssoc(base, ElementLines(suspiciousElements[..i]), ElementLine(suspiciousElements[i]));
      match suspiciousElements[i].kind {
        case UnrealisticReturn =>
          recommendations := recommendations + [SkepticalOfReturns];
        case ContactInfo =>
          recommendations := recommendations + [VerifyBeforeContact];
        case SocialMediaContact =>
          recommendations := recommendations + [AvoidSocialAdvice];
        case SuspiciousKeyword =>
      }
    }
    assert suspiciousElements[..|suspiciousElements|] == suspiciousElements;
  }

  lemma ElementLinesStep(es: seq<SuspiciousElement>, i: int)
    requires 0 <= i < |es|
    ensures ElementLines(es[..i + 1]) == ElementLines(es[..i]) + ElementLine(es[i])
  {
    assert es[..i + 1][..i] == es[..i];
  }

  lemma {:induction false} ElementLinesAppend(a: seq<SuspiciousElement>, b: seq<SuspiciousElement>)
    ensures ElementLines(a + b) == ElementLines(a) + ElementLines(b)
    decreases |b|
  {
    if b == [] {
      assert a + b == a;
    } else {
      var init := b[..|b| - 1];
      var last := b[|b| - 1];
      var ab := a + b;
      assert ab[..|ab| - 1] == a + init;
      assert ab[|ab| - 1] == last;
      ElementLinesAppend(a, init);
      ConcatAssoc(ElementLines(a), ElementLines(init), ElementLine(last));
    }
  }

  /**
   * One line per return, contact and social element, and none per
   * keyword element.
   */
  lemma {:induction false} ElementLinesCount(es: seq<SuspiciousElement>)
    ensures |ElementLines(es)|
      == CountKind(es, UnrealisticReturn) + CountKind(es, ContactInfo) + CountKind(es, SocialMediaContact)
    decreases |es|
  {
    if es != [] {
      ElementLinesCount(es[..|es| - 1]);
    }
  }

  /**
   * The text recommendations: 3 lines above 70, 3 above 40, 2 otherwise,
   * followed by the element lines, so their length is the block's plus the
   * number of non-keyword elements.
   */
  lemma TextRecommendationsShape(riskScore: int, es: seq<SuspiciousElement>)
    ensures var r := TextRecommendations(riskScore, es);
      var b := if riskScore > 40 then 3 else 2;
      && |r| >= b
      && r[..b] == TextBaseBlock(riskScore)
      && |r| == b + CountKind(es, UnrealisticReturn) + CountKind(es, ContactInfo) + CountKind(es, SocialMediaContact)
  {
    ElementLinesCount(es);
  }

  /** Keyword elements never change the recommendations. */
  lemma KeywordsAddNothing(riskScore: int, es: seq<SuspiciousElement>, e: SuspiciousElement)
    requires e.kind == SuspiciousKeyword
    ensures TextRecommendations(riskScore, es + [e]) == TextRecommendations(riskScore, es)
  {
    assert (es + [e])[..|es|] == es;
  }

  /** More elements only add lines at the end. */
  lemma ElementsExtendRecommendations(riskScore: int, es: seq<SuspiciousElement>, more: seq<SuspiciousElement>)
    ensures TextRecommendations(riskScore, es + more)
      == TextRecommendations(riskScore, es) + ElementLines(more)
  {
    var base := TextBaseBlock(riskScore);
    ElementLinesAppend(es, more);
    ConcatAssoc(base, ElementLines(es), ElementLines(more));
  }

  // ---------------------------------------------------------------------
  // Advisor verification

  function AdvisorIssueLine(issue: AdvisorIssue): seq<Advice>
  {
    match issue.kind
    case NotRegistered => [VerifyRegistration]
    case UnrealisticPromises => [WaryOfPromises]
    case SuspiciousContact => [OfficialChannels]
    case _ => []
  }

  function AdvisorIssueLines(issues: seq<AdvisorIssue>): seq<Advice>
  {
    if issues == [] then [] else AdvisorIssueLines(issues[..|issues| - 1]) + AdvisorIssueLine(issues[|issues| - 1])
  }

  /** `generateAdvisorRecommendations` as a value. */
  function AdvisorRecommendations(riskScore: int, issues: seq<AdvisorIssue>): seq<Advice>
  {
    (if riskScore > 50 then AdvisorWarningBlock else []) + AdvisorIssueLines(issues)
  }

  method GenerateAdvisorRecommendations(riskScore: int, issues: seq<AdvisorIssue>)
    returns (recommendations: seq<Advice>)
    ensures recommendations == AdvisorRecommendations(riskScore, issues)
  {
    recommendations := [];
    if riskScore > 50 {
      recommendations := AdvisorWarningBlock;
    }
    ghost var base := recommendations;
    for i := 0 to |issues|
      invariant recommendations == base + AdvisorIssueLines(issues[..i])
    {
      AdvisorIssueLinesStep(issues, i);
      ConcatAssoc(base, AdvisorIssueLines(issues[..i]), AdvisorIssueLine(issues[i]));
      match issues[i].kind {
        case NotRegistered =>
          recommendations := recommendations + [VerifyRegistration];
        case UnrealisticPromises =>
          recommendations := recommendations + [WaryOfPromises];
        case SuspiciousContact =>
          recommendations := recommendations + [OfficialChannels];
        case _ =>
      }
    }
    assert issues[..|issues|] == issues;
  }

  lemma AdvisorIssueLinesStep(issues: seq<AdvisorIssue>, i: int)
    requires 0 <= i < |issues|
    ensures AdvisorIssueLines(issues[..i + 1]) == AdvisorIssueLines(issues[..i]) + AdvisorIssueLine(issues[i])
  {
    assert issues[..i + 1][..i] == issues[..i];
  }

  /** The issue kinds the advisor composer writes a line for. */
  predicate HasAdvisorLine(kind: AdvisorIssueKind)
  {
    kind == NotRegistered || kind == UnrealisticPromises || kind == SuspiciousContact
  }

  /** At most one line per issue. */
  lemma {:induction false} AdvisorIssueLinesBound(issues: seq<AdvisorIssue>)
    ensures |AdvisorIssueLines(issues)| <= |issues|
    decreases |issues|
  {
    if issues != [] {
      AdvisorIssueLinesBound(issues[..|issues| - 1]);
    }
  }

  /** Issues of the other five kinds add no line. */
  lemma {:induction false} OtherIssuesAddNoLines(issues: seq<AdvisorIssue>)
    requires forall i :: 0 <= i < |issues| ==> !HasAdvisorLine(issues[i].kind)
    ensures AdvisorIssueLines(issues) == []
    decreases |issues|
  {
    if issues != [] {
      var init := issues[..|issues| - 1];
      assert forall i :: 0 <= i < |init| ==> init[i] == issues[i];
      OtherIssuesAddNoLines(init);
    }
  }

  /** The warning block heads the list exactly when the score is above 50. */
  lemma AdvisorWarningIffAbove50(riskScore: int, issues: seq<AdvisorIssue>)
    ensures var r := AdvisorRecommendations(riskScore, issues);
      (|r| >= 3 && r[..3] == AdvisorWarningBlock) <==> riskScore > 50
  {
    var r := AdvisorRecommendations(riskScore, issues);
    if riskScore <= 50 && |r| >= 3 {
      AdvisorIssueLinesInKnownLines(issues, 0);
      assert r[0] != AdvisorWarningBlock[0];
      assert r[..3][0] == r[0];
    }
  }

  /** Every issue line is one of the three fixed issue lines. */
  lemma {:induction false} AdvisorIssueLinesInKnownLines(issues: seq<AdvisorIssue>, k: int)
    requires 0 <= k < |AdvisorIssueLines(issues)|
    ensures AdvisorIssueLines(issues)[k] in
      {VerifyRegistration, WaryOfPromises,
       OfficialChannels}
    decreases |issues|
  {
    var init := issues[..|issues| - 1];
    if k < |AdvisorIssueLines(init)| {
      AdvisorIssueLinesInKnownLines(init, k);
    }
  }

  // ---------------------------------------------------------------------
  // Corporate announcement

  function AnnouncementIssueLine(issue: AnnouncementIssue): Advice
  {
    match issue.kind
    case NotVerified => CheckExchangeAnnouncements
    case UnrealisticGrowth => CompareBenchmarks
    case UnusualTiming => VerifyTiming
  }

  function AnnouncementIssueLines(issues: seq<AnnouncementIssue>): seq<Advice>
  {
    if issues == [] then [] else AnnouncementIssueLines(issues[..|issues| - 1]) + [AnnouncementIssueLine(issues[|issues| - 1])]
  }

  /**
   * `generateAnnouncementRecommendations` as a value. The announcement
   * score is held in half points, so "above 60" is "above 120 halves".
   */
  function AnnouncementRecommendations(scoreHalves: int, issues: seq<AnnouncementIssue>): seq<Advice>
  {
    (if scoreHalves > 120 then AnnouncementWarningBlock else []) + AnnouncementIssueLines(issues)
  }

  method GenerateAnnouncementRecommendations(scoreHalves: int, issues: seq<AnnouncementIssue>)
    returns (recommendations: seq<Advice>)
    ensures recommendations == AnnouncementRecommendations(scoreHalves, issues)
  {
    recommendations := [];
    if scoreHalves > 120 {
      recommendations := AnnouncementWarningBlock;
    }
    ghost var base := recommendations;
    for i := 0 to |issues|
      invariant recommendations == base + AnnouncementIssueLines(issues[..i])
    {
      assert issues[..i + 1][..i] == issues[..i];
      ConcatAssoc(base, AnnouncementIssueLines(issues[..i]), [AnnouncementIssueLine(issues[i])]);
      recommendations := recommendations + [AnnouncementIssueLine(issues[i])];
    }
    assert issues[..|issues|] == issues;
  }

  /**
   * Every announcement issue adds exactly one line, in issue order, after
   * the warning block that appears only above 60 points.
   */
  lemma {:induction false} AnnouncementIssueLinesOnePerIssue(issues: seq<AnnouncementIssue>)
    ensures |AnnouncementIssueLines(issues)| == |issues|
    ensures forall i :: 0 <= i < |issues| ==> AnnouncementIssueLines(issues)[i] == AnnouncementIssueLine(issues[i])
    decreases |issues|
  {
    if issues != [] {
      var init := issues[..|issues| - 1];
      AnnouncementIssueLinesOnePerIssue(init);
      var r := AnnouncementIssueLines(issues);
      assert r == AnnouncementIssueLines(init) + [AnnouncementIssueLine(issues[|issues| - 1])];
      forall i | 0 <= i < |issues|
        ensures r[i] == AnnouncementIssueLine(issues[i])
      {
        if i < |init| {
          assert init[i] == issues[i];
        }
      }
    }
  }

  /**
   * The announcement list is the warning block above 60 points, nothing
   * otherwise, followed by one line per issue in issue order.
   */
  lemma AnnouncementRecommendationsShape(scoreHalves: int, issues: seq<AnnouncementIssue>)
    ensures var r := AnnouncementRecommendations(scoreHalves, issues);
      scoreHalves > 120 ==>
        && |r| == 3 + |issues|
        && r[..3] == AnnouncementWarningBlock
        && forall i :: 0 <= i < |issues| ==> r[3 + i] == AnnouncementIssueLine(issues[i])
    ensures var r := AnnouncementRecommendations(scoreHalves, issues);
      scoreHalves <= 120 ==>
        && |r| == |issues|
        && forall i :: 0 <= i < |issues| ==> r[i] == AnnouncementIssueLine(issues[i])
  {
    var lines := AnnouncementIssueLines(issues);
    AnnouncementIssueLinesOnePerIssue(issues);
    if scoreHalves > 120 {
      HeadThenLines(AnnouncementWarningBlock, lines);
    } else {
      assert AnnouncementRecommendations(scoreHalves, issues) == lines;
    }
  }

  lemma HeadThenLines(head: seq<Advice>, lines: seq<Advice>)
    ensures (head + lines)[..|head|] == head
    ensures forall i :: 0 <= i < |lines| ==> (head + lines)[|head| + i] == lines[i]
  {
  }
}
