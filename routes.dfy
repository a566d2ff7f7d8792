/**
 * The HTTP routes of the fraud-detection API (server/routes/fraudDetection.js):
 * the required-field checks in front of each analysis, the alert list
 * with its filters and paging, the status update, and the report flow.
 */
module Routes {
  import opened Wrappers
  import opened RiskLevels
  import opened Analysis
  import opened Ranking
  import opened FraudAlerts
  import opened ServiceRules
  import opened FraudDetection

  /** The response: 200 with data, 400 or 404 with a message, or 500. */
  datatype Response<T> = Success(data: T) | BadRequest(message: string) | NotFound(message: string) | ServerError

  // ---------------------------------------------------------------------
  // Analyses behind required-field checks. A required string that is
  // absent or empty is falsy; both are written "".

  /** POST /analyze-text: 400 without content, otherwise the text analysis (500 when it fails). */
  method AnalyzeTextRoute(svc: FraudDetectionService, content: string, source: Option<string>, now: int)
    returns (resp: Response<TextAnalysis>)
    requires svc.Valid()
    modifies svc
    ensures svc.Valid()
    ensures content == "" ==> resp == BadRequest("Content is required") && unchanged(svc)
    ensures content != "" ==>
      resp == if RaisesAlert(content) && SourceOrUnknown(source) == "" then ServerError
              else Success(TextAnalysisOf(content, SourceOrUnknown(source), now))
  {
    if content == "" {
      return BadRequest("Content is required");
    }
    var analysis := svc.AnalyzeTextContent(content, source, now);
    if analysis.Err? {
      return ServerError;
    }
    resp := Success(analysis.value);
  }

  /** POST /analyze-social-media: 400 without content, 500 when the post cannot be saved. */
  method AnalyzeSocialMediaRoute(svc: FraudDetectionService, post: PostData, now: int)
    returns (resp: Response<SocialAnalysis>)
    requires svc.Valid()
    modifies svc
    ensures svc.Valid()
    ensures post.content == "" ==> resp == BadRequest("Post content is required") && unchanged(svc)
    ensures post.content != "" ==>
      && (resp.Success? || resp.ServerError?)
      && (resp.Success? <==> PostSaveCheck(old(svc.posts), post).Ok?)
    ensures resp.Success? ==>
      && resp.data.analysis == TextAnalysisOf(post.content, "social_media", now).(riskScore := FinalScore(post))
      && resp.data.socialMediaScore == SocialMediaScore(post)
  {
    if post.content == "" {
      return BadRequest("Post content is required");
    }
    var analysis := svc.AnalyzeSocialMediaPost(post, now);
    if analysis.Err? {
      return ServerError;
    }
    resp := Success(analysis.value);
  }

  /** POST /verify-advisor: 400 without a name or a number, 500 when the verification cannot be saved. */
  method VerifyAdvisorRoute(svc: FraudDetectionService, data: AdvisorData, now: int)
    returns (resp: Response<AdvisorReport>)
    requires svc.Valid()
    modifies svc
    ensures svc.Valid()
    ensures data.name == "" || data.registrationNumber == "" ==>
      resp == BadRequest("Advisor name and registration number are required") && unchanged(svc)
    ensures data.name != "" && data.registrationNumber != "" ==>
      && (resp.Success? || resp.ServerError?)
      && (resp.Success? <==> AdvisorSaveCheck(old(svc.advisors), data).None?)
    ensures resp.Success? ==>
      && resp.data.riskScore == AdvisorScore(data)
      && resp.data.issues == AdvisorIssuesOf(data)
      && resp.data.isRegistered == IsRegistered(data.registrationNumber)
  {
    if data.name == "" || data.registrationNumber == "" {
      return BadRequest("Advisor name and registration number are required");
    }
    var verification := svc.VerifyAdvisor(data, now);
    if verification.Err? {
      return ServerError;
    }
    resp := Success(verification.value);
  }

  /** POST /analyze-announcement: 400 without content, otherwise the announcement report. */
  method AnalyzeAnnouncementRoute(svc: FraudDetectionService, announcement: Announcement, isVerified: bool, now: int)
    returns (resp: Response<AnnouncementReport>)
    requires svc.Valid()
    modifies svc
    ensures svc.Valid()
    ensures announcement.content == "" ==> resp == BadRequest("Announcement content is required") && unchanged(svc)
    ensures announcement.content != "" ==>
      && resp.Success?
      && resp.data.riskScoreHalves == Min(AnnouncementHalves(announcement, isVerified), 200)
      && resp.data.issues == AnnouncementIssuesOf(announcement, isVerified)
  {
    if announcement.content == "" {
      return BadRequest("Announcement content is required");
    }
    var report := svc.AnalyzeCorporateAnnouncement(announcement, isVerified, now);
    resp := Success(report);
  }

  /** GET /statistics: the statistics for the timeframe, `7d` when none is given. */
  method StatisticsRoute(svc: FraudDetectionService, timeframe: Option<string>, now: int)
    returns (resp: Response<FraudStatistics>)
    ensures resp.Success? && resp.data.timeframe == TimeframeOrDefault(timeframe)
    ensures resp.Success? ==>
      resp.data.counts == CountBands(CreatedSince(svc.alerts, now - LookbackMs(TimeframeOrDefault(timeframe))))
  {
    var tf := TimeframeOrDefault(timeframe);
    assert TimeframeOrDefault(Some(tf)) == tf;
    var stats := svc.GetFraudStatistics(Some(tf), now);
    resp := Success(stats);
  }

  // ---------------------------------------------------------------------
  // GET /alerts

  const DefaultPage := 1
  const DefaultLimit := 10

  /** The requested page, 1 when absent. */
  function PageOr(page: Option<int>): int
  {
    if page.Some? then page.value else DefaultPage
  }

  /** The requested page size, 10 when absent. */
  function LimitOr(limit: Option<int>): int
  {
    if limit.Some? then limit.value else DefaultLimit
  }

  /** How many matching alerts the store skips: `(page - 1) * limit`. */
  function SkipOf(page: Option<int>, limit: Option<int>): int
  {
    (PageOr(page) - 1) * LimitOr(limit)
  }
  const DefaultStatus := "ACTIVE"

  /**
   * The `riskScore` condition of the query: none, a level's range, or the
   * missing value a name outside the table looks up, which the store sends
   * as null and which no stored alert's required score equals.
   */
  datatype ScoreFilter = AnyScore | InScores(range: ScoreRange) | NullScore

  /** The store query the handler builds: a status, a score condition and optionally a type. */
  datatype AlertQuery = AlertQuery(status: string, scoreFilter: ScoreFilter, kind: Option<string>)

  /**
   * The query for the request: the status (ACTIVE by default), the score
   * condition of a non-empty level name, the type when one is given.
   */
  function BuildQuery(riskLevel: Option<string>, kind: Option<string>, status: Option<string>): (q: AlertQuery)
    ensures q.status == if status.Some? then status.value else DefaultStatus
    ensures q.scoreFilter.AnyScore? <==> riskLevel.None? || riskLevel.value == ""
    ensures q.scoreFilter.InScores? <==> riskLevel.Some? && ParseLevel(riskLevel.value).Some?
    ensures q.scoreFilter.InScores? ==> q.scoreFilter.range == RangeOf(ParseLevel(riskLevel.value).value)
    ensures q.kind.Some? <==> kind.Some? && kind.value != ""
    ensures q.kind.Some? ==> q.kind == kind
  {
    var scores := if riskLevel.Some? && riskLevel.value != "" then
        match ParseLevel(riskLevel.value)
        case Some(l) => InScores(RangeOf(l))
        case None => NullScore
      else AnyScore;
    var kindFilter := if kind.Some? && kind.value != "" then kind else None;
    AlertQuery(if status.Some? then status.value else DefaultStatus, scores, kindFilter)
  }

  predicate MatchesQuery(a: FraudAlert, q: AlertQuery)
    reads a
  {
    && StatusName(a.status) == q.status
    && (match q.scoreFilter
        case AnyScore => true
        case InScores(range) => InRange(a.riskScore, range)
        case NullScore => false)
    && (q.kind.Some? ==> TypeName(a.kind) == q.kind.value)
  }

  /** A non-empty level name outside the five selects no alert at all. */
  lemma UnknownLevelMatchesNothing(alerts: seq<FraudAlert>, riskLevel: string, kind: Option<string>,
                                   status: Option<string>)
    requires riskLevel != "" && ParseLevel(riskLevel).None?
    ensures Matching(alerts, BuildQuery(Some(riskLevel), kind, status)) == []
  {
  }

  /** The level filter selects exactly the alerts whose score falls in the named level. */
  lemma LevelFilterAgreesWithBands(a: FraudAlert, riskLevel: RiskLevel, kind: Option<string>, status: Option<string>)
    ensures var q := BuildQuery(Some(LevelName(riskLevel)), kind, status);
      MatchesQuery(a, q) <==>
        (&& StatusName(a.status) == q.status
         && GetRiskLevel(a.riskScore) == riskLevel
         && (q.kind.Some? ==> TypeName(a.kind) == q.kind.value))
  {
    ParseLevelName(riskLevel);
    RangesPartitionScores(a.riskScore, riskLevel);
  }

  /** The alerts the query selects, in stored order. */
  function Matching(alerts: seq<FraudAlert>, q: AlertQuery): (r: seq<FraudAlert>)
    reads alerts
    ensures forall a :: a in r ==> a in alerts && MatchesQuery(a, q)
    ensures forall a :: a in alerts && MatchesQuery(a, q) ==> a in r
  {
    if alerts == [] then []
    else
      var init := Matching(alerts[..|alerts| - 1], q);
      var last := alerts[|alerts| - 1];
      assert alerts == alerts[..|alerts| - 1] + [last];
      if MatchesQuery(last, q) then init + [last] else init
  }

  /**
   * `Math.ceil(total / limit)`: the least whole number at least
   * `total / limit`, and no number at all (JSON `null`) when the limit is 0.
   */
  function PageCount(total: nat, limit: int): (pages: Option<int>)
    ensures pages.None? <==> limit == 0
    ensures limit > 0 ==> (pages.value - 1) * limit < total <= pages.value * limit
    ensures limit < 0 ==> pages.value * limit <= total < (pages.value - 1) * limit
  {
    if limit == 0 then None
    else if limit > 0 then
      var p := (total + limit - 1) / limit;
      CeilingDivision(total, limit);
      Some(p)
    else
      var p := -(total / -limit);
      FloorDivision(total, -limit);
      Some(p)
  }

  lemma CeilingDivision(total: nat, limit: int)
    requires limit > 0
    ensures ((total + limit - 1) / limit - 1) * limit < total <= ((total + limit - 1) / limit) * limit
  {
    var q := (total + limit - 1) / limit;
    var r := (total + limit - 1) % limit;
    assert total + limit - 1 == q * limit + r && 0 <= r < limit;
    assert (q - 1) * limit == q * limit - limit;
  }

  lemma FloorDivision(total: nat, d: int)
    requires d > 0
    ensures (-(total / d)) * (-d) <= total < (-(total / d) - 1) * (-d)
  {
    var q := total / d;
    assert total == q * d + total % d && 0 <= total % d < d;
    assert (-q) * (-d) == q * d;
    assert (-q - 1) * (-d) == q * d + d;
  }

  /** The paging block of the response. */
  datatype Pagination = Pagination(current: int, pages: Option<int>, total: nat)

  datatype AlertsPage = AlertsPage(alerts: seq<FraudAlert>, pagination: Pagination)

  /**
   * One page of a ranked list as the store serves it: `skip` first, then
   * `limit`, whatever order the calls were written in.
   */
  function PageOf<T>(ranked: seq<T>, skip: nat, limit: int): (r: seq<T>)
    ensures Min(skip, |ranked|) + |r| <= |ranked|
    ensures forall k :: 0 <= k < |r| ==> r[k] == ranked[Min(skip, |ranked|) + k]
    ensures limit > 0 ==> |r| <= limit
    ensures limit == 0 ==> |r| == |ranked| - Min(skip, |ranked|)
    ensures limit != 0 ==> |r| == Min(if limit < 0 then -limit else limit, |ranked| - Min(skip, |ranked|))
  {
    Limit(ranked[Min(skip, |ranked|)..], limit)
  }

  /** A page of a sorted list is sorted and holds only entries of the list. */
  lemma PageOfSorted<T>(ranked: seq<T>, key: T -> Key, skip: nat, limit: int)
    requires SortedDesc(ranked, key)
    ensures SortedDesc(PageOf(ranked, skip, limit), key)
    ensures forall x :: x in PageOf(ranked, skip, limit) ==> x in ranked
  {
    var shown := PageOf(ranked, skip, limit);
    var start := Min(skip, |ranked|);
    forall i, j | 0 <= i < j < |shown|
      ensures key(shown[i]) == key(ranked[start + i]) && key(shown[j]) == key(ranked[start + j])
    {
    }
    forall x | x in shown ensures x in ranked {
      var i :| 0 <= i < |shown| && shown[i] == x;
      assert ranked[start + i] == x;
    }
  }

  /** The matching alerts, newest first: every one of them, each as often as it matches. */
  function RankedMatching(alerts: seq<FraudAlert>, q: AlertQuery): (r: seq<FraudAlert>)
    reads alerts
    ensures forall a :: a in r ==> a in alerts && MatchesQuery(a, q)
    ensures forall a :: a in alerts && MatchesQuery(a, q) ==> a in r
    ensures SortedDesc(r, CreatedKey)
    ensures multiset(r) == multiset(Matching(alerts, q))
    ensures |r| == |Matching(alerts, q)|
  {
    var matching := Matching(alerts, q);
    var ranked := SortDesc(matching, CreatedKey);
    forall a | a in ranked ensures a in matching {
      SortedMember(matching, CreatedKey, a);
    }
    forall a | a in matching ensures a in ranked {
      SortedMember(matching, CreatedKey, a);
    }
    ranked
  }

  /**
   * GET /alerts: the matching alerts newest first, page `page` of `limit`
   * (1 and 10 by default). A negative skip makes the store fail.
   */
  function ListAlerts(alerts: seq<FraudAlert>, page: Option<int>, limit: Option<int>,
                      riskLevel: Option<string>, kind: Option<string>, status: Option<string>)
    : (resp: Response<AlertsPage>)
    reads alerts
    ensures resp.Success? || resp.ServerError?
    ensures resp.ServerError? <==> SkipOf(page, limit) < 0
    ensures resp.Success? ==>
      forall a :: a in resp.data.alerts ==> a in alerts && MatchesQuery(a, BuildQuery(riskLevel, kind, status))
    ensures resp.Success? ==> SortedDesc(resp.data.alerts, CreatedKey)
    ensures resp.Success? && LimitOr(limit) > 0 ==> |resp.data.alerts| <= LimitOr(limit)
    ensures resp.Success? ==>
      var total := |Matching(alerts, BuildQuery(riskLevel, kind, status))|;
      resp.data.pagination == Pagination(PageOr(page), PageCount(total, LimitOr(limit)), total)
  {
    var p := PageOr(page);
    var l := LimitOr(limit);
    var q := BuildQuery(riskLevel, kind, status);
    var ranked := RankedMatching(alerts, q);
    var skip := SkipOf(page, limit);
    if skip < 0 then ServerError
    else
      PageOfSorted(ranked, CreatedKey, skip, l);
      var total := |Matching(alerts, q)|;
      Success(AlertsPage(PageOf(ranked, skip, l), Pagination(p, PageCount(total, l), total)))
  }

  /**
   * With a positive limit, the entry at rank `i` appears on page
   * `i / limit + 1`, and that page is among the pages the response counts.
   */
  lemma EveryEntryOnSomePage<T>(ranked: seq<T>, limit: int, i: int)
    requires limit > 0 && 0 <= i < |ranked|
    ensures var page := i / limit + 1;
      && PageOf(ranked, (page - 1) * limit, limit)[i % limit] == ranked[i]
      && 1 <= page <= PageCount(|ranked|, limit).value
  {
    var page := i / limit + 1;
    var skip := (page - 1) * limit;
    assert i == (i / limit) * limit + i % limit;
    assert skip == (i / limit) * limit;
    assert skip + i % limit == i;
    var rest := ranked[skip..];
    assert |rest| == |ranked| - skip > i % limit;
    var pages := PageCount(|ranked|, limit).value;
    assert (page - 1) * limit <= i < |ranked| <= pages * limit;
    if page - 1 >= pages {
      MultiplyMonotone(pages, page - 1, limit);
      assert false;
    }
  }

  lemma MultiplyMonotone(a: int, b: int, c: int)
    requires a <= b && c > 0
    ensures a * c <= b * c
  {
  }

  // ---------------------------------------------------------------------
  // PUT /alerts/:id/status

  /** `findById` over the stored alerts. */
  function FindAlert(alerts: seq<FraudAlert>, id: nat): (r: Option<FraudAlert>)
    ensures r.Some? ==> r.value in alerts && r.value.id == id
    ensures r.None? ==> forall a :: a in alerts ==> a.id != id
  {
    if alerts == [] then None
    else if alerts[0].id == id then Some(alerts[0])
    else
      assert forall a :: a in alerts ==> a == alerts[0] || a in alerts[1..];
      FindAlert(alerts[1..], id)
  }

  /**
   * PUT /alerts/:id/status: 400 for a status outside the four, before any
   * lookup; 404 for an unknown id; otherwise the alert's `updateStatus`
   * with the caller as reviewer. No other alert changes.
   */
  method UpdateAlertStatusRoute(svc: FraudDetectionService, id: nat, status: string, notes: Option<string>,
                                userId: nat, now: int)
    returns (resp: Response<FraudAlert>)
    modifies svc.alerts
    ensures ParseStatus(status).None? ==> resp == BadRequest("Invalid status") && unchanged(svc.alerts)
    ensures ParseStatus(status).Some? && FindAlert(svc.alerts, id).None? ==>
      resp == NotFound("Alert not found") && unchanged(svc.alerts)
    ensures ParseStatus(status).Some? && FindAlert(svc.alerts, id).Some? ==>
      && resp == Success(FindAlert(svc.alerts, id).value)
      && resp.data.status == ParseStatus(status).value
      && resp.data.reviewedBy == Some(userId) && resp.data.reviewNotes == notes && resp.data.updatedAt == now
      && (forall b :: b in svc.alerts && b != resp.data ==> unchanged(b))
  {
    var newStatus := ParseStatus(status);
    if newStatus.None? {
      return BadRequest("Invalid status");
    }
    var alert := FindAlert(svc.alerts, id);
    if alert.None? {
      return NotFound("Alert not found");
    }
    alert.value.UpdateStatus(newStatus.value, Some(userId), notes, now);
    resp := Success(alert.value);
  }

  // ---------------------------------------------------------------------
  // POST /report

  /** The receipt a successful report would return. */
  datatype ReportReceipt = ReportReceipt(reportId: nat, riskScore: int, riskLevel: RiskLevel)

  /**
   * POST /report: 400 without a type or a description; otherwise the
   * description is analysed with source `user_report` (saving its
   * TEXT_ANALYSIS alert above 70 points) and a USER_REPORT alert is
   * requested, which the type enum rejects, so the report ends in 500.
   */
  method ReportRoute(svc: FraudDetectionService, reportType: string, description: string, now: int)
    returns (resp: Response<ReportReceipt>)
    requires svc.Valid()
    modifies svc
    ensures svc.Valid()
    ensures reportType == "" || description == "" ==>
      resp == BadRequest("Type and description are required") && unchanged(svc)
    ensures reportType != "" && description != "" ==>
      && resp == ServerError
      && svc.posts == old(svc.posts) && svc.advisors == old(svc.advisors)
      && (RaisesAlert(description) ==>
           && |svc.alerts| == |old(svc.alerts)| + 1 && svc.alerts[..|old(svc.alerts)|] == old(svc.alerts)
           && TypeName(svc.alerts[|old(svc.alerts)|].kind) == "TEXT_ANALYSIS"
           && svc.alerts[|old(svc.alerts)|].source == "user_report")
      && (!RaisesAlert(description) ==> svc.alerts == old(svc.alerts))
  {
    if reportType == "" || description == "" {
      return BadRequest("Type and description are required");
    }
    var analysis := svc.AnalyzeTextContent(description, Some("user_report"), now);
    UserReportIsNotAType();
    var alert := svc.CreateFraudAlert("USER_REPORT", analysis.value.riskScore, description, "user_report",
                                      analysis.value, now);
    match alert
    case Err(_) =>
      resp := ServerError;
    case Ok(_) =>
      // The type enum has no USER_REPORT, so the receipt is never sent.
      assert false;
  }
}
