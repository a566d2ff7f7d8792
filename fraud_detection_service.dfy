/**
 * The fraud-detection service (server/services/fraudDetectionService.js)
 * as an object over the stored collections: the analyses save alerts,
 * posts and verifications, and every saved alert is pushed to connected
 * clients as a `fraud-alert` event when a socket server is attached.
 */
module FraudDetection {
  import opened Wrappers
  import opened Text
  import opened Patterns
  import opened RiskLevels
  import opened Analysis
  import opened TextScoring
  import opened Recommendations
  import opened FraudAlerts
  import opened AdvisorVerifications
  import opened SocialMediaPosts
  import opened ServiceRules

  /** The `fraud-alert` event sent for a saved alert. */
  datatype AlertEvent = AlertEvent(id: nat, kind: AlertType, riskScore: int, timestamp: int)

  /** Why saving a verification fails: a required field is empty after trimming, or the number is taken. */
  datatype AdvisorError = MissingAdvisorName | MissingRegistrationNumber | DuplicateRegistration

  /** The rejected save behind a failed analysis. */
  datatype ServiceError =
    | AlertRejected(alertError: ValidationError)
    | PostRejected(postError: PostError)
    | AdvisorRejected(advisorError: AdvisorError)

  /** A freshly saved alert with exactly these fields, ACTIVE and not reviewed. */
  predicate IsNewAlert(a: FraudAlert, id: nat, typeName: string, riskScore: int, content: string,
                       source: string, analysis: TextAnalysis, now: int)
    reads a
  {
    && a.id == id && TypeName(a.kind) == typeName && a.riskScore == riskScore
    && a.riskLevel == GetRiskLevel(riskScore) && a.content == content && a.source == source
    && a.analysis == analysis && a.createdAt == now
    && a.status == Active && a.reviewedBy == None && a.reviewNotes == None
  }

  /**
   * A freshly saved verification of `data` made at `now`: name trimmed,
   * number normalised, registry result, score, level and issues, the
   * default status, both dates at `now` and no actions.
   */
  predicate IsNewVerification(v: AdvisorVerification, id: nat, data: AdvisorData, now: int)
    reads v
  {
    && v.id == id
    && v.advisorName == Trim(data.name)
    && v.registrationNumber == NormalizeRegistration(data.registrationNumber)
    && v.isRegistered == IsRegistered(data.registrationNumber)
    && v.riskScore == AdvisorScore(data)
    && v.riskLevel == GetRiskLevel(AdvisorScore(data))
    && v.issues == AdvisorIssuesOf(data)
    && v.status == DefaultStatus(IsRegistered(data.registrationNumber), AdvisorScore(data))
    && v.verificationDate == now && v.lastUpdated == now
    && v.actionsTaken == []
  }

  /**
   * A freshly saved post of `post` made at `now`: its platform, id and
   * content, the final score and its level, the stored analysis, the
   * social-media score, no engagement, ACTIVE and no action.
   */
  predicate IsNewPost(p: SocialMediaPost, id: nat, post: PostData, analysis: TextAnalysis, now: int)
    reads p
  {
    && p.id == id
    && post.platform.Some? && PlatformName(p.platform) == post.platform.value
    && post.postId.Some? && p.postId == post.postId.value
    && p.content == post.content
    && p.riskScore == FinalScore(post)
    && p.riskLevel == GetRiskLevel(FinalScore(post))
    && p.analysis == analysis
    && p.socialMediaScore == SocialMediaScore(post)
    && p.createdAt == now
    && p.engagement == NoEngagement
    && p.status == PostActive && p.actionTaken == NoAction
  }

  /** The response of `analyzeSocialMediaPost`: the text analysis with the final score, and the saved post. */
  datatype SocialAnalysis = SocialAnalysis(analysis: TextAnalysis, socialMediaScore: nat, postId: nat)

  /** The response of `verifyAdvisor`. */
  datatype AdvisorReport = AdvisorReport(
    isRegistered: bool,
    riskScore: int,
    riskLevel: RiskLevel,
    issues: seq<AdvisorIssue>,
    verificationId: nat,
    recommendations: seq<Advice>)

  /** The report `verifyAdvisor` returns for `data` once it is saved under `id`. */
  function AdvisorReportOf(data: AdvisorData, id: nat): AdvisorReport
  {
    AdvisorReport(IsRegistered(data.registrationNumber), AdvisorScore(data), GetRiskLevel(AdvisorScore(data)),
                  AdvisorIssuesOf(data), id, AdvisorRecommendations(AdvisorScore(data), AdvisorIssuesOf(data)))
  }

  /** The response of `analyzeCorporateAnnouncement`; the score is held in half points. */
  datatype AnnouncementReport = AnnouncementReport(
    riskScoreHalves: int,
    riskLevel: RiskLevel,
    issues: seq<AnnouncementIssue>,
    isVerified: bool,
    textAnalysis: TextAnalysis,
    recommendations: seq<Advice>)

  /** Whether a verification for these fields can be saved next to `advisors`. */
  function AdvisorSaveCheck(advisors: seq<AdvisorVerification>, data: AdvisorData): (r: Option<AdvisorError>)
    ensures r.None? <==>
      (|Trim(data.name)| > 0 && |Trim(data.registrationNumber)| > 0
       && FindStored(advisors, NormalizeRegistration(data.registrationNumber)).None?)
  {
    if |Trim(data.name)| == 0 then Some(MissingAdvisorName)
    else if |Trim(data.registrationNumber)| == 0 then Some(MissingRegistrationNumber)
    else if FindStored(advisors, NormalizeRegistration(data.registrationNumber)).Some? then Some(DuplicateRegistration)
    else None
  }

  /**
   * Whether a post for these fields can be saved next to `posts`. Besides
   * the schema's validators, the stored analysis must cast: the schema's
   * `analysis.suspiciousElements` entry declares its element with a `type`
   * key, so each element is a string, and the text analysis's elements are
   * objects, which do not cast. A post whose text has any suspicious
   * element is therefore refused before the insert is tried.
   */
  function PostSaveCheck(posts: seq<SocialMediaPost>, post: PostData): (r: Result<Platform, PostError>)
    ensures r.Ok? <==>
      (ValidatePost(post.platform, post.postId, post.content, FinalScore(post)).Ok?
       && SuspiciousElements(post.content) == []
       && !PostExists(posts, ValidatePost(post.platform, post.postId, post.content, FinalScore(post)).value,
                      post.postId.value))
    ensures r.Ok? ==> PlatformName(r.value) == post.platform.value
    ensures ValidatePost(post.platform, post.postId, post.content, FinalScore(post)).Ok?
            && SuspiciousElements(post.content) != [] ==>
      r == Err(SuspiciousElementsNotStrings(|SuspiciousElements(post.content)|))
  {
    match ValidatePost(post.platform, post.postId, post.content, FinalScore(post))
    case Err(e) => Err(e)
    case Ok(platform) =>
      if SuspiciousElements(post.content) != [] then
        Err(SuspiciousElementsNotStrings(|SuspiciousElements(post.content)|))
      else if PostExists(posts, platform, post.postId.value) then Err(DuplicatePost)
      else Ok(platform)
  }

  /**
   * A post that can be saved mentions none of the scam keywords, claims no
   * percentage return above 20 and gives no ten-digit contact number: each
   * of those would put an element in its analysis, which does not cast.
   */
  lemma SavedPostsCarryNoSuspiciousText(posts: seq<SocialMediaPost>, post: PostData)
    requires PostSaveCheck(posts, post).Ok?
    ensures ContainedCount(Lower(post.content), SuspiciousKeywords) == 0
    ensures ReturnElements(ReturnMatches(post.content, PercentReturn)) == []
    ensures !Occurs(Lower(post.content), TenDigits)
  {
    ElementCounts(post.content);
  }

  class FraudDetectionService {
    var alerts: seq<FraudAlert>
    var posts: seq<SocialMediaPost>
    var advisors: seq<AdvisorVerification>
    var events: seq<AlertEvent>
    var nextId: nat
    const broadcasting: bool

    /** Every stored record is valid, the unique indexes hold, and alert ids grow in store order. */
    ghost predicate Valid()
      reads this, advisors
    {
      && (forall a :: a in alerts ==> a.Valid() && a.id < nextId)
      && (forall i, j :: 0 <= i < j < |alerts| ==> alerts[i].id < alerts[j].id)
      && (forall p :: p in posts ==> p.Valid())
      && UniquePosts(posts)
      && (forall v :: v in advisors ==> v.Valid())
      && UniqueRegistrations(advisors)
    }

    constructor(broadcasting: bool)
      ensures Valid()
      ensures alerts == [] && posts == [] && advisors == [] && events == [] && nextId == 0
      ensures this.broadcasting == broadcasting
    {
      alerts := [];
      posts := [];
      advisors := [];
      events := [];
      nextId := 0;
      this.broadcasting := broadcasting;
    }

    /** The event an alert sends: one when a socket server is attached, none otherwise. */
    function EventsFor(a: FraudAlert): seq<AlertEvent>
    {
      if broadcasting then [AlertEvent(a.id, a.kind, a.riskScore, a.createdAt)] else []
    }

    /**
     * `createFraudAlert`: validates and saves an ACTIVE alert with the next
     * id and the time `now`, then emits its event. A rejected alert leaves
     * everything as it was.
     */
    method CreateFraudAlert(typeName: string, riskScore: int, content: string, source: string,
                            analysis: TextAnalysis, now: int)
      returns (r: Result<FraudAlert, ValidationError>)
      requires Valid()
      modifies this
      ensures Valid()
      ensures posts == old(posts) && advisors == old(advisors)
      ensures r.Ok? <==> AcceptedFields(typeName, riskScore, content, source)
      ensures r.Err? ==> ValidateAlert(typeName, riskScore, content, source) == Err(r.error)
      ensures r.Err? ==> alerts == old(alerts) && events == old(events) && nextId == old(nextId)
      ensures r.Ok? ==>
        && fresh(r.value)
        && IsNewAlert(r.value, old(nextId), typeName, riskScore, content, source, analysis, now)
        && alerts == old(alerts) + [r.value]
        && events == old(events) + EventsFor(r.value)
        && nextId == old(nextId) + 1
    {
      var kind := ValidateAlert(typeName, riskScore, content, source);
      if kind.Err? {
        return Err(kind.error);
      }
      var alert := new FraudAlert(nextId, kind.value, riskScore, content, source, analysis, now);
      alerts := alerts + [alert];
      nextId := nextId + 1;
      if broadcasting {
        events := events + [AlertEvent(alert.id, alert.kind, alert.riskScore, alert.createdAt)];
      }
      r := Ok(alert);
    }

    /**
     * `analyzeTextContent`: scores the text, lists its suspicious
     * elements and recommendations, and saves a TEXT_ANALYSIS alert with
     * the first 500 characters when the score is above 70. The analysis
     * fails only when that alert is rejected, which happens exactly when
     * the source is the empty string.
     */
    method AnalyzeTextContent(content: string, source: Option<string>, now: int)
      returns (r: Result<TextAnalysis, ServiceError>)
      requires Valid()
      modifies this
      ensures Valid()
      ensures posts == old(posts) && advisors == old(advisors)
      ensures r.Err? <==> RaisesAlert(content) && SourceOrUnknown(source) == ""
      ensures r.Err? ==> r.error == AlertRejected(MissingSource)
      ensures r.Ok? ==> r.value == TextAnalysisOf(content, SourceOrUnknown(source), now)
      ensures !(RaisesAlert(content) && r.Ok?) ==>
        alerts == old(alerts) && events == old(events) && nextId == old(nextId)
      ensures RaisesAlert(content) && r.Ok? ==>
        && |alerts| == |old(alerts)| + 1 && alerts[..|old(alerts)|] == old(alerts)
        && fresh(alerts[|old(alerts)|])
        && IsNewAlert(alerts[|old(alerts)|], old(nextId), "TEXT_ANALYSIS", TextRiskScore(content),
                      Excerpt(content), SourceOrUnknown(source), r.value, now)
        && events == old(events) + EventsFor(alerts[|old(alerts)|])
        && nextId == old(nextId) + 1
    {
      var src := SourceOrUnknown(source);
      var riskScore := CalculateTextRiskScore(content);
      var suspiciousElements := IdentifySuspiciousElements(content);
      var recommendations := GenerateRecommendations(riskScore, suspiciousElements);
      var analysis := TextAnalysis(riskScore, GetRiskLevel(riskScore), suspiciousElements, src, now, recommendations);
      if riskScore > 70 {
        AlertFieldsOfHighRiskText(content, src);
        var alert := CreateFraudAlert("TEXT_ANALYSIS", riskScore, Excerpt(content), src, analysis, now);
        if alert.Err? {
          return Err(AlertRejected(alert.error));
        }
        assert alerts[|old(alerts)|] == alert.value;
      }
      r := Ok(analysis);
    }

    /**
     * `analyzeSocialMediaPost`: analyses the text with source
     * `social_media` (saving its alert when it scores above 70), adds the
     * social-media score, and saves the post with the final score. The
     * response keeps the text analysis's level and recommendations, with
     * the final score in place of the text score.
     */
    method AnalyzeSocialMediaPost(post: PostData, now: int) returns (r: Result<SocialAnalysis, ServiceError>)
      requires Valid()
      modifies this
      ensures Valid()
      ensures advisors == old(advisors)
      ensures RaisesAlert(post.content) ==>
        && |alerts| == |old(alerts)| + 1 && alerts[..|old(alerts)|] == old(alerts)
        && IsNewAlert(alerts[|old(alerts)|], old(nextId), "TEXT_ANALYSIS", TextRiskScore(post.content),
                      Excerpt(post.content), "social_media",
                      TextAnalysisOf(post.content, "social_media", now), now)
        && events == old(events) + EventsFor(alerts[|old(alerts)|])
      ensures !RaisesAlert(post.content) ==> alerts == old(alerts) && events == old(events)
      ensures r.Ok? <==> PostSaveCheck(old(posts), post).Ok?
      ensures r.Err? ==> r.error == PostRejected(PostSaveCheck(old(posts), post).error) && posts == old(posts)
      ensures r.Ok? ==>
        && r.value.analysis == TextAnalysisOf(post.content, "social_media", now).(riskScore := FinalScore(post))
        && r.value.socialMediaScore == SocialMediaScore(post)
        && |posts| == |old(posts)| + 1 && posts[..|old(posts)|] == old(posts)
        && fresh(posts[|old(posts)|])
        && IsNewPost(posts[|old(posts)|], r.value.postId, post,
                     TextAnalysisOf(post.content, "social_media", now), now)
    {
      var textAnalysis := AnalyzeTextContent(post.content, Some("social_media"), now);
      var analysis := textAnalysis.value;
      var socialMediaScore := ScoreSocialSignals(post);
      var finalScore := Min(analysis.riskScore + socialMediaScore, 100);
      var saved := SavePost(post, analysis, socialMediaScore, finalScore, now);
      if saved.Err? {
        return Err(PostRejected(saved.error));
      }
      r := Ok(SocialAnalysis(analysis.(riskScore := finalScore), socialMediaScore, saved.value));
    }

    /** The save step of `analyzeSocialMediaPost`: the post's checks, then the insert under the next id. */
    method SavePost(post: PostData, analysis: TextAnalysis, socialMediaScore: nat, finalScore: int, now: int)
      returns (saved: Result<nat, PostError>)
      requires Valid()
      requires socialMediaScore == SocialMediaScore(post) && finalScore == FinalScore(post)
      modifies this
      ensures Valid()
      ensures alerts == old(alerts) && advisors == old(advisors) && events == old(events)
      ensures saved.Ok? <==> PostSaveCheck(old(posts), post).Ok?
      ensures saved.Err? ==>
        saved.error == PostSaveCheck(old(posts), post).error && posts == old(posts) && nextId == old(nextId)
      ensures saved.Ok? ==>
        && saved.value == old(nextId) && nextId == old(nextId) + 1
        && |posts| == |old(posts)| + 1 && posts[..|old(posts)|] == old(posts)
        && fresh(posts[|old(posts)|])
        && IsNewPost(posts[|old(posts)|], old(nextId), post, analysis, now)
    {
      var check := PostSaveCheck(posts, post);
      if check.Err? {
        return Err(check.error);
      }
      var record := new SocialMediaPost(nextId, check.value, post.postId.value, post.content, finalScore,
                                        analysis, socialMediaScore, now);
      StorePost(record);
      assert posts[|old(posts)|] == record && posts[..|old(posts)|] == old(posts);
      saved := Ok(record.id);
    }

    /** Saves a post whose platform and id are not yet stored, using the next id. */
    method StorePost(record: SocialMediaPost)
      requires Valid() && record.Valid() && !PostExists(posts, record.platform, record.postId)
      modifies this
      ensures Valid()
      ensures posts == old(posts) + [record] && nextId == old(nextId) + 1
      ensures alerts == old(alerts) && advisors == old(advisors) && events == old(events)
    {
      InsertKeepsUnique(posts, record);
      posts := posts + [record];
      nextId := nextId + 1;
    }

    /** Saves a verification whose number is not yet stored, using the next id. */
    method StoreAdvisor(verification: AdvisorVerification)
      requires Valid() && verification.Valid()
      requires forall a :: a in advisors ==> a.registrationNumber != verification.registrationNumber
      modifies this
      ensures Valid()
      ensures advisors == old(advisors) + [verification] && nextId == old(nextId) + 1
      ensures alerts == old(alerts) && posts == old(posts) && events == old(events)
    {
      StoringNewNumberKeepsUnique(advisors, verification);
      advisors := advisors + [verification];
      nextId := nextId + 1;
    }

    /**
     * `verifyAdvisor`: checks the registry, scores the advisor, and saves
     * the verification with the name and number normalised. The save fails
     * when the name or the number is blank or the number is already stored.
     */
    method VerifyAdvisor(data: AdvisorData, now: int) returns (r: Result<AdvisorReport, ServiceError>)
      requires Valid()
      modifies this
      ensures Valid()
      ensures alerts == old(alerts) && events == old(events) && posts == old(posts)
      ensures r.Ok? <==> AdvisorSaveCheck(old(advisors), data).None?
      ensures r.Err? ==>
        r.error == AdvisorRejected(AdvisorSaveCheck(old(advisors), data).value)
        && advisors == old(advisors) && nextId == old(nextId)
      ensures r.Ok? ==>
        && r.value == AdvisorReportOf(data, old(nextId))
        && |advisors| == |old(advisors)| + 1 && advisors[..|old(advisors)|] == old(advisors)
        && fresh(advisors[|old(advisors)|])
        && IsNewVerification(advisors[|old(advisors)|], old(nextId), data, now)
        && nextId == old(nextId) + 1
    {
      var report := BuildAdvisorReport(data, nextId);
      var failure := SaveVerification(data, now);
      if failure.Some? {
        return Err(AdvisorRejected(failure.value));
      }
      r := Ok(report);
    }

    /** The save step of `verifyAdvisor`: the checks of the model, then the insert under the next id. */
    method SaveVerification(data: AdvisorData, now: int) returns (failure: Option<AdvisorError>)
      requires Valid()
      modifies this
      ensures Valid()
      ensures alerts == old(alerts) && events == old(events) && posts == old(posts)
      ensures failure == AdvisorSaveCheck(old(advisors), data)
      ensures failure.Some? ==> advisors == old(advisors) && nextId == old(nextId)
      ensures failure.None? ==>
        && |advisors| == |old(advisors)| + 1 && advisors[..|old(advisors)|] == old(advisors)
        && fresh(advisors[|old(advisors)|])
        && IsNewVerification(advisors[|old(advisors)|], old(nextId), data, now)
        && nextId == old(nextId) + 1
    {
      failure := AdvisorSaveCheck(advisors, data);
      if failure.Some? {
        return;
      }
      var verification := NewVerification(nextId, data, now);
      StoreAdvisor(verification);
      assert advisors[|old(advisors)|] == verification && advisors[..|old(advisors)|] == old(advisors);
    }

    /**
     * `analyzeCorporateAnnouncement`: the timing check, the text analysis
     * with source `corporate_announcement` (saving its alert when the text
     * scores above 70), the growth check and the exchange check. The
     * reported score is capped at 100 points; the level and the
     * recommendations use the uncapped score.
     */
    method AnalyzeCorporateAnnouncement(announcement: Announcement, isVerified: bool, now: int)
      returns (report: AnnouncementReport)
      requires Valid()
      modifies this
      ensures Valid()
      ensures posts == old(posts) && advisors == old(advisors)
      ensures var h := AnnouncementHalves(announcement, isVerified);
        var issues := AnnouncementIssuesOf(announcement, isVerified);
        report == AnnouncementReport(Min(h, 200), LevelOfHalves(h), issues, isVerified,
                                     TextAnalysisOf(announcement.content, "corporate_announcement", now),
                                     AnnouncementRecommendations(h, issues))
      ensures RaisesAlert(announcement.content) ==>
        && |alerts| == |old(alerts)| + 1 && alerts[..|old(alerts)|] == old(alerts)
        && IsNewAlert(alerts[|old(alerts)|], old(nextId), "TEXT_ANALYSIS", TextRiskScore(announcement.content),
                      Excerpt(announcement.content), "corporate_announcement",
                      TextAnalysisOf(announcement.content, "corporate_announcement", now), now)
        && fresh(alerts[|old(alerts)|])
        && events == old(events) + EventsFor(alerts[|old(alerts)|])
        && nextId == old(nextId) + 1
      ensures !RaisesAlert(announcement.content) ==>
        alerts == old(alerts) && events == old(events) && nextId == old(nextId)
    {
      var source := "corporate_announcement";
      assert SourceOrUnknown(Some(source)) == source != "";
      var textAnalysis := AnalyzeTextContent(announcement.content, Some(source), now);
      assert textAnalysis.value == TextAnalysisOf(announcement.content, source, now);
      report := BuildAnnouncementReport(announcement, isVerified, textAnalysis.value);
    }

    /**
     * `getFraudStatistics`: the band counts and the per-type counts of the
     * alerts created since the start of the timeframe; a type with no
     * alert has no entry.
     */
    method GetFraudStatistics(timeframe: Option<string>, now: int) returns (stats: FraudStatistics)
      ensures var window := CreatedSince(alerts, now - LookbackMs(TimeframeOrDefault(timeframe)));
        && stats.counts == CountBands(window)
        && (forall t :: t in stats.alertsByType <==> TypeCount(window, t) > 0)
        && (forall t :: t in stats.alertsByType ==> stats.alertsByType[t] == TypeCount(window, t))
      ensures stats.timeframe == TimeframeOrDefault(timeframe)
    {
      var tf := TimeframeOrDefault(timeframe);
      var window := CreatedSince(alerts, now - LookbackMs(tf));
      var byType := CountByType(window);
      stats := FraudStatistics(CountBands(window), byType, tf);
    }
  }

  /** The verification document `verifyAdvisor` builds for `data` at `now`, before it is saved. */
  method NewVerification(id: nat, data: AdvisorData, now: int) returns (v: AdvisorVerification)
    requires |Trim(data.name)| > 0 && |Trim(data.registrationNumber)| > 0
    ensures fresh(v) && v.Valid()
    ensures IsNewVerification(v, id, data, now)
  {
    v := new AdvisorVerification(id, data.name, data.registrationNumber, IsRegistered(data.registrationNumber),
                                 AdvisorScore(data), AdvisorIssuesOf(data), now);
  }

  /** The `$group` by type: one entry per type that occurs, holding its count. */
  method CountByType(window: seq<FraudAlert>) returns (byType: map<AlertType, nat>)
    ensures forall t :: t in byType <==> TypeCount(window, t) > 0
    ensures forall t :: t in byType ==> byType[t] == TypeCount(window, t)
  {
    byType := map[];
    for i := 0 to |window|
      invariant forall t :: t in byType <==> TypeCount(window[..i], t) > 0
      invariant forall t :: t in byType ==> byType[t] == TypeCount(window[..i], t)
    {
      assert window[..i + 1][..i] == window[..i];
      var t := window[i].kind;
      byType := byType[t := (if t in byType then byType[t] else 0) + 1];
    }
    assert window[..|window|] == window;
  }

  /** The announcement report: the checks around the text analysis, the capped score and the recommendations. */
  method BuildAnnouncementReport(announcement: Announcement, isVerified: bool, textAnalysis: TextAnalysis)
    returns (report: AnnouncementReport)
    requires textAnalysis.riskScore == TextRiskScore(announcement.content)
    ensures var h := AnnouncementHalves(announcement, isVerified);
      var issues := AnnouncementIssuesOf(announcement, isVerified);
      report == AnnouncementReport(Min(h, 200), LevelOfHalves(h), issues, isVerified, textAnalysis,
                                   AnnouncementRecommendations(h, issues))
  {
    var halves, issues := AssessAnnouncement(announcement, isVerified, textAnalysis.riskScore);
    var recommendations := GenerateAnnouncementRecommendations(halves, issues);
    report := AnnouncementReport(Min(halves, 200), LevelOfHalves(halves), issues, isVerified,
                                 textAnalysis, recommendations);
  }

  /**
   * The timing, growth and exchange checks around the text score, in the
   * service's order. The text analysis between the timing and the growth
   * checks touches neither the score nor the issues, so it runs first.
   */
  method AssessAnnouncement(announcement: Announcement, isVerified: bool, textScore: int)
    returns (halves: int, issues: seq<AnnouncementIssue>)
    requires textScore == TextRiskScore(announcement.content)
    ensures halves == AnnouncementHalves(announcement, isVerified)
    ensures issues == AnnouncementIssuesOf(announcement, isVerified)
  {
    halves := 0;
    issues := [];
    if OutsideMarketHours(announcement) {
      halves := halves + 30;
      issues := issues + [AnnouncementIssue(UnusualTiming, "Announcement made outside market hours", SeverityMedium)];
    }
    assert issues == TimingIssues(announcement);
    halves := halves + textScore;
    ghost var beforeClaims := issues;
    if UnrealisticGrowthClaim(announcement) {
      halves := halves + 50;
      issues := issues + [AnnouncementIssue(UnrealisticGrowth,
        "Claimed growth of " + Decimal(announcement.claimedGrowth) + "% seems unrealistic", SeverityHigh)];
    }
    assert issues == beforeClaims + GrowthIssues(announcement);
    ghost var beforeExchange := issues;
    if !isVerified {
      halves := halves + 80;
      issues := issues + [AnnouncementIssue(NotVerified, "Announcement not found in official exchange records",
                                            SeverityCritical)];
    }
    assert issues == beforeExchange + ExchangeIssues(isVerified);
  }

  /**
   * The registry check, the scoring and the recommendations of
   * `verifyAdvisor`; none of them depends on the save, so they run first.
   */
  method BuildAdvisorReport(data: AdvisorData, id: nat) returns (report: AdvisorReport)
    ensures report == AdvisorReportOf(data, id)
    ensures 0 <= report.riskScore <= 100
  {
    var isRegistered := CheckRegistry(data.registrationNumber);
    var riskScore, issues := AssessAdvisor(data, isRegistered);
    var recommendations := GenerateAdvisorRecommendations(riskScore, issues);
    report := AdvisorReport(isRegistered, riskScore, GetRiskLevel(riskScore), issues, id, recommendations);
  }

  /** Storing a verification whose number is not yet stored keeps the numbers unique. */
  lemma StoringNewNumberKeepsUnique(advisors: seq<AdvisorVerification>, v: AdvisorVerification)
    requires UniqueRegistrations(advisors)
    requires forall a :: a in advisors ==> a.registrationNumber != v.registrationNumber
    ensures UniqueRegistrations(advisors + [v])
  {
    var s := advisors + [v];
    forall i, j | 0 <= i < j < |s|
      ensures s[i].registrationNumber != s[j].registrationNumber
    {
      if j == |advisors| {
        assert s[i] in advisors;
      }
    }
  }

  /** The three social-media checks in the service's order. */
  method ScoreSocialSignals(post: PostData) returns (score: nat)
    ensures score == SocialMediaScore(post)
  {
    score := 0;
    if post.likes != 0 && post.shares != 0 {
      var engagementRatio := (post.shares as real) / (post.likes as real);
      if engagementRatio > 0.5 {
        score := score + SharingWeight;
      }
    }
    if post.authorPostCount > 10 {
      score := score + FrequencyWeight;
    }
    if post.isFromGroup && post.groupSize > 100 {
      score := score + GroupWeight;
    }
  }

  /** `checkSEBIDatabase`: whether the number, exactly as given, is in the registry. */
  method CheckRegistry(registrationNumber: string) returns (isRegistered: bool)
    ensures isRegistered <==> IsRegistered(registrationNumber)
  {
    isRegistered := false;
    for i := 0 to |RegisteredAdvisors|
      invariant isRegistered <==> registrationNumber in RegisteredAdvisors[..i]
    {
      if RegisteredAdvisors[i] == registrationNumber {
        isRegistered := true;
      }
    }
    assert RegisteredAdvisors[..|RegisteredAdvisors|] == RegisteredAdvisors;
  }

  /** The three advisor checks in the service's order, accumulating the score and the issues. */
  method AssessAdvisor(data: AdvisorData, isRegistered: bool) returns (riskScore: int, issues: seq<AdvisorIssue>)
    requires isRegistered <==> IsRegistered(data.registrationNumber)
    ensures riskScore == AdvisorScore(data) && issues == AdvisorIssuesOf(data)
    ensures 0 <= riskScore <= 100
  {
    riskScore := 0;
    issues := [];
    if !isRegistered {
      riskScore := riskScore + 50;
      issues := issues + [NotRegisteredIssue];
    }
    if data.promisedReturns > 20 {
      riskScore := riskScore + 30;
      issues := issues + [PromisesIssue(data.promisedReturns)];
    }
    if UsesSocialContact(data) {
      riskScore := riskScore + 20;
      issues := issues + [ContactIssue];
    }
  }
}
