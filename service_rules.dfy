/**
 * The scoring rules of the fraud-detection service
 * (server/services/fraudDetectionService.js) that are not text rules: the
 * social-media signals, the simulated registry check and the advisor
 * score, the announcement score, and the grouping of the statistics.
 */
module ServiceRules {
  import opened Wrappers
  import opened Text
  import opened Patterns
  import opened RiskLevels
  import opened Analysis
  import opened TextScoring
  import opened Recommendations
  import opened FraudAlerts

  // ---------------------------------------------------------------------
  // Text analysis

  /** `source = 'unknown'`: the default applies only when no source is given. */
  function SourceOrUnknown(source: Option<string>): string
  {
    match source
    case Some(s) => s
    case None => "unknown"
  }

  const AlertExcerptLength := 500

  /** `content.substring(0, 500)`, the part of the text an alert keeps. */
  function Excerpt(content: string): string
  {
    content[..Min(|content|, AlertExcerptLength)]
  }

  /** The record `analyzeTextContent` returns for `content` at time `now`. */
  function TextAnalysisOf(content: string, source: string, now: int): TextAnalysis
  {
    var score := TextRiskScore(content);
    var elements := SuspiciousElements(content);
    TextAnalysis(score, GetRiskLevel(score), elements, source, now, TextRecommendations(score, elements))
  }

  /** High-risk content, the content an analysis raises an alert for. */
  predicate RaisesAlert(content: string)
  {
    TextRiskScore(content) > 70
  }

  /**
   * The alert raised for high-risk content always passes the alert
   * validators except for the source: its excerpt is present and short
   * enough, its score in range and its type known.
   */
  lemma AlertFieldsOfHighRiskText(content: string, source: string)
    requires RaisesAlert(content)
    ensures AcceptedFields("TEXT_ANALYSIS", TextRiskScore(content), Excerpt(content), source) <==> |source| > 0
    ensures Excerpt(content) == content[..|Excerpt(content)|] && 0 < |Excerpt(content)| <= AlertExcerptLength
  {
    if |content| == 0 {
      EmptyContentScoresZero(content);
      assert false;
    }
  }

  // ---------------------------------------------------------------------
  // Social-media signals

  /** The request fields `analyzeSocialMediaPost` reads; an absent counter is 0. */
  datatype PostData = PostData(
    platform: Option<string>,
    postId: Option<string>,
    content: string,
    likes: int,
    shares: int,
    authorPostCount: int,
    isFromGroup: bool,
    groupSize: int)

  const SharingWeight := 15
  const FrequencyWeight := 10
  const GroupWeight := 20

  /** `likes && shares && shares / likes > 0.5`, in exact arithmetic. */
  predicate UnusualSharing(post: PostData)
  {
    post.likes != 0 && post.shares != 0 && (post.shares as real) / (post.likes as real) > 0.5
  }

  predicate FrequentPoster(post: PostData) { post.authorPostCount > 10 }

  predicate LargeGroup(post: PostData) { post.isFromGroup && post.groupSize > 100 }

  /** The social-media score: 15, 10 and 20 points for the three signals. */
  function SocialMediaScore(post: PostData): nat
  {
    (if UnusualSharing(post) then SharingWeight else 0)
    + (if FrequentPoster(post) then FrequencyWeight else 0)
    + (if LargeGroup(post) then GroupWeight else 0)
  }

  /** Above half of a positive denominator, cleared of the division. */
  lemma RatioAboveHalf(s: real, l: real)
    requires l > 0.0
    ensures s / l > 0.5 <==> 2.0 * s > l
  {
    var q := s / l;
    assert q * l == s;
    assert (q - 0.5) * l == s - 0.5 * l;
    if q > 0.5 {
      assert (q - 0.5) * l > 0.0;
    } else {
      assert (0.5 - q) * l >= 0.0;
    }
  }

  /**
   * The ratio test without division: shares outpace half the likes, the
   * comparison turning round when the like count is negative.
   */
  lemma UnusualSharingInIntegers(post: PostData)
    ensures UnusualSharing(post) <==>
      (post.likes != 0 && post.shares != 0
       && (if post.likes > 0 then 2 * post.shares > post.likes else 2 * post.shares < post.likes))
  {
    var s := post.shares as real;
    var l := post.likes as real;
    if post.likes > 0 {
      RatioAboveHalf(s, l);
    } else if post.likes < 0 {
      assert s / l == (-s) / (-l);
      RatioAboveHalf(-s, -l);
    }
  }

  /**
   * The three weights have distinct subset sums, so the social-media score
   * tells exactly which signals fired, and it never exceeds 45.
   */
  lemma SocialMediaScoreIdentifiesSignals(a: PostData, b: PostData)
    requires SocialMediaScore(a) == SocialMediaScore(b)
    ensures UnusualSharing(a) == UnusualSharing(b)
    ensures FrequentPoster(a) == FrequentPoster(b)
    ensures LargeGroup(a) == LargeGroup(b)
    ensures SocialMediaScore(a) <= SharingWeight + FrequencyWeight + GroupWeight
  {
  }

  /** The post's final score: the text score plus the social-media score, at most 100. */
  function FinalScore(post: PostData): (r: int)
    ensures TextRiskScore(post.content) <= r <= 100
    ensures TextRiskScore(post.content) + SocialMediaScore(post) < 100 ==>
      r == TextRiskScore(post.content) + SocialMediaScore(post)
    ensures TextRiskScore(post.content) + SocialMediaScore(post) >= 100 ==> r == 100
  {
    Min(TextRiskScore(post.content) + SocialMediaScore(post), 100)
  }

  // ---------------------------------------------------------------------
  // Advisor verification

  /** The request fields `verifyAdvisor` reads; an absent promise is 0. */
  datatype AdvisorData = AdvisorData(
    name: string,
    registrationNumber: string,
    promisedReturns: int,
    contactMethods: Option<seq<string>>)

  /** The simulated registry: four numbers, compared exactly as given. */
  const RegisteredAdvisors: seq<string> :=
    ["JOHN_DOE_IA_001", "JANE_SMITH_RA_002", "AMIT_KUMAR_IB_003", "PRIYA_SHARMA_IA_004"]

  /** `checkSEBIDatabase`: membership of the number as given, without trimming or case folding. */
  predicate IsRegistered(registrationNumber: string)
  {
    registrationNumber in RegisteredAdvisors
  }

  predicate PromisesUnrealisticReturns(data: AdvisorData) { data.promisedReturns > 20 }

  /** `contactMethods.includes('whatsapp') || contactMethods.includes('telegram')`. */
  predicate UsesSocialContact(data: AdvisorData)
  {
    data.contactMethods.Some?
    && ("whatsapp" in data.contactMethods.value || "telegram" in data.contactMethods.value)
  }

  /** The points each advisor issue adds to the score. */
  function IssueWeight(kind: AdvisorIssueKind): nat
  {
    match kind
    case NotRegistered => 50
    case UnrealisticPromises => 30
    case SuspiciousContact => 20
    case _ => 0
  }

  function IssueWeights(issues: seq<AdvisorIssue>): nat
  {
    if issues == [] then 0 else IssueWeights(issues[..|issues| - 1]) + IssueWeight(issues[|issues| - 1].kind)
  }

  const NotRegisteredIssue := AdvisorIssue(NotRegistered, "Advisor not found in SEBI registered database", SeverityCritical)

  function PromisesIssue(promisedReturns: nat): AdvisorIssue
  {
    AdvisorIssue(UnrealisticPromises, "Promising " + Decimal(promisedReturns) + "% returns", SeverityHigh)
  }

  const ContactIssue := AdvisorIssue(SuspiciousContact, "Using social media for professional communication", SeverityMedium)

  /** The issues `verifyAdvisor` reports, in the order of its checks. */
  function AdvisorIssuesOf(data: AdvisorData): seq<AdvisorIssue>
  {
    (if !IsRegistered(data.registrationNumber) then [NotRegisteredIssue] else [])
    + (if PromisesUnrealisticReturns(data) then [PromisesIssue(data.promisedReturns)] else [])
    + (if UsesSocialContact(data) then [ContactIssue] else [])
  }

  /** The advisor score: 50 unregistered, 30 for promises above 20%, 20 for social-media contact. */
  function AdvisorScore(data: AdvisorData): nat
  {
    (if !IsRegistered(data.registrationNumber) then 50 else 0)
    + (if PromisesUnrealisticReturns(data) then 30 else 0)
    + (if UsesSocialContact(data) then 20 else 0)
  }

  /**
   * The score is the sum of the weights of the issues reported, so every
   * point is explained by an issue, and it stays within [0, 100].
   */
  lemma AdvisorScoreIsIssueWeights(data: AdvisorData)
    ensures AdvisorScore(data) == IssueWeights(AdvisorIssuesOf(data))
    ensures AdvisorScore(data) <= 100
  {
    var a := if !IsRegistered(data.registrationNumber) then [NotRegisteredIssue] else [];
    var b := if PromisesUnrealisticReturns(data) then [PromisesIssue(data.promisedReturns)] else [];
    var c := if UsesSocialContact(data) then [ContactIssue] else [];
    assert AdvisorIssuesOf(data) == a + b + c;
    IssueWeightsAppend(a, b);
    IssueWeightsAppend(a + b, c);
    IssueWeightsOfAtMostOne(a);
    IssueWeightsOfAtMostOne(b);
    IssueWeightsOfAtMostOne(c);
  }

  lemma IssueWeightsOfAtMostOne(issues: seq<AdvisorIssue>)
    requires |issues| <= 1
    ensures IssueWeights(issues) == if issues == [] then 0 else IssueWeight(issues[0].kind)
  {
    if issues != [] {
      assert issues[..0] == [];
    }
  }

  lemma {:induction false} IssueWeightsAppend(a: seq<AdvisorIssue>, b: seq<AdvisorIssue>)
    ensures IssueWeights(a + b) == IssueWeights(a) + IssueWeights(b)
    decreases |b|
  {
    if b == [] {
      assert a + b == a;
    } else {
      var ab := a + b;
      assert ab[..|ab| - 1] == a + b[..|b| - 1];
      assert ab[|ab| - 1] == b[|b| - 1];
      IssueWeightsAppend(a, b[..|b| - 1]);
    }
  }

  /**
   * Only an unregistered advisor with a second issue scores above 50, so
   * a registered advisor never gets the warning block.
   */
  lemma WarningNeedsUnregisteredAndMore(data: AdvisorData)
    ensures AdvisorScore(data) > 50 <==>
      (!IsRegistered(data.registrationNumber) && (PromisesUnrealisticReturns(data) || UsesSocialContact(data)))
    ensures AdvisorScore(data) > 50 <==> |AdvisorIssuesOf(data)| >= 2 && !IsRegistered(data.registrationNumber)
  {
  }

  /**
   * The registry check compares the number as given, while the stored
   * record keeps it trimmed and upper-cased: a lower-case registered
   * number counts as unregistered.
   */
  lemma RegistryIsCaseSensitive()
    ensures !IsRegistered("john_doe_ia_001")
    ensures Upper("john_doe_ia_001") in RegisteredAdvisors
  {
    assert Upper("john_doe_ia_001") == "JOHN_DOE_IA_001";
    assert "john_doe_ia_001" != RegisteredAdvisors[0];
  }

  // ---------------------------------------------------------------------
  // Corporate announcements

  /**
   * The request fields `analyzeCorporateAnnouncement` reads. `hour` is the
   * local hour of the announcement time, `None` when the time is not a
   * valid date; an absent growth claim is 0.
   */
  datatype Announcement = Announcement(content: string, hour: Option<int>, claimedGrowth: int)

  /** `hour < 9 || hour > 17`, false for an invalid date. */
  predicate OutsideMarketHours(a: Announcement)
  {
    a.hour.Some? && (a.hour.value < 9 || a.hour.value > 17)
  }

  predicate UnrealisticGrowthClaim(a: Announcement) { a.claimedGrowth > 100 }

  /**
   * The announcement score in half points: 15 points for the timing, half
   * the text score, 25 for the growth claim, 40 when not verified.
   */
  function AnnouncementHalves(a: Announcement, isVerified: bool): nat
  {
    (if OutsideMarketHours(a) then 30 else 0)
    + TextRiskScore(a.content)
    + (if UnrealisticGrowthClaim(a) then 50 else 0)
    + (if !isVerified then 80 else 0)
  }

  function TimingIssues(a: Announcement): seq<AnnouncementIssue>
  {
    if OutsideMarketHours(a)
    then [AnnouncementIssue(UnusualTiming, "Announcement made outside market hours", SeverityMedium)]
    else []
  }

  function GrowthIssues(a: Announcement): seq<AnnouncementIssue>
  {
    if UnrealisticGrowthClaim(a)
    then [AnnouncementIssue(UnrealisticGrowth,
                            "Claimed growth of " + Decimal(a.claimedGrowth) + "% seems unrealistic", SeverityHigh)]
    else []
  }

  function ExchangeIssues(isVerified: bool): seq<AnnouncementIssue>
  {
    if !isVerified
    then [AnnouncementIssue(NotVerified, "Announcement not found in official exchange records", SeverityCritical)]
    else []
  }

  /** The issues of an announcement, in the order of its checks. */
  function AnnouncementIssuesOf(a: Announcement, isVerified: bool): seq<AnnouncementIssue>
  {
    TimingIssues(a) + GrowthIssues(a) + ExchangeIssues(isVerified)
  }

  /**
   * The reported score is capped at 100 points while the level and the
   * warning block use the uncapped score; the cap changes neither, because
   * both already saturate below 100 points. An unverified announcement is
   * at least MEDIUM.
   */
  lemma AnnouncementCapKeepsLevel(a: Announcement, isVerified: bool)
    ensures var h := AnnouncementHalves(a, isVerified);
      && h <= 260
      && LevelOfHalves(Min(h, 200)) == LevelOfHalves(h)
      && (Min(h, 200) > 120 <==> h > 120)
      && (!isVerified ==> Rank(LevelOfHalves(h)) >= Rank(Medium))
  {
  }

  /** Each issue stands for the points of its check, so the issues alone bound the score from below. */
  lemma AnnouncementIssuesExplainScore(a: Announcement, isVerified: bool)
    ensures var issues := AnnouncementIssuesOf(a, isVerified);
      && |issues| <= 3
      && AnnouncementHalves(a, isVerified) >= TextRiskScore(a.content) + 30 * |issues|
      && (issues == [] <==> AnnouncementHalves(a, isVerified) == TextRiskScore(a.content))
  {
  }

  // ---------------------------------------------------------------------
  // Statistics

  const HourMs := 60 * 60 * 1000
  const DayMs := 24 * HourMs

  /** The timeframe echoed in the statistics: `'7d'` when none is given. */
  function TimeframeOrDefault(timeframe: Option<string>): string
  {
    match timeframe
    case Some(t) => t
    case None => "7d"
  }

  /** How far back a timeframe reaches: a day for `24h`, 30 days for `30d`, otherwise 7 days. */
  function LookbackMs(timeframe: string): (ms: nat)
    ensures timeframe == "24h" ==> ms == DayMs
    ensures timeframe == "30d" ==> ms == 30 * DayMs
    ensures timeframe != "24h" && timeframe != "30d" ==> ms == 7 * DayMs
  {
    if timeframe == "24h" then 24 * HourMs
    else if timeframe == "7d" then 7 * DayMs
    else if timeframe == "30d" then 30 * DayMs
    else 7 * DayMs
  }

  /** `createdAt: { $gte: startDate }`, in stored order. */
  function CreatedSince(alerts: seq<FraudAlert>, startDate: int): (r: seq<FraudAlert>)
    ensures forall a :: a in r ==> a in alerts && a.createdAt >= startDate
    ensures forall a :: a in alerts && a.createdAt >= startDate ==> a in r
    ensures |r| <= |alerts|
  {
    if alerts == [] then []
    else
      var init := CreatedSince(alerts[..|alerts| - 1], startDate);
      var last := alerts[|alerts| - 1];
      assert alerts == alerts[..|alerts| - 1] + [last];
      if last.createdAt >= startDate then init + [last] else init
  }

  /** How many alerts have the type `t`. */
  function TypeCount(alerts: seq<FraudAlert>, t: AlertType): nat
  {
    if alerts == [] then 0
    else TypeCount(alerts[..|alerts| - 1], t) + (if alerts[|alerts| - 1].kind == t then 1 else 0)
  }

  function SumOfTypeCounts(alerts: seq<FraudAlert>): nat
  {
    TypeCount(alerts, TextAnalysisAlert) + TypeCount(alerts, SocialMediaAlert)
    + TypeCount(alerts, AdvisorVerificationAlert) + TypeCount(alerts, CorporateAnnouncementAlert)
    + TypeCount(alerts, DeepfakeDetection) + TypeCount(alerts, DocumentVerification)
    + TypeCount(alerts, MarketManipulation)
  }

  /** Every alert has exactly one of the seven types, so the per-type counts add up to the total. */
  lemma {:induction false} TypeCountsSumToTotal(alerts: seq<FraudAlert>)
    ensures SumOfTypeCounts(alerts) == |alerts|
    decreases |alerts|
  {
    if alerts != [] {
      TypeCountsSumToTotal(alerts[..|alerts| - 1]);
    }
  }

  /** The statistics `getFraudStatistics` returns. */
  datatype FraudStatistics = FraudStatistics(counts: BandCounts, alertsByType: map<AlertType, nat>, timeframe: string)
}
