/**
 * The stored fraud alert (server/models/FraudAlert.js): its type and
 * status vocabularies, the validation applied when it is saved, the
 * record itself with its status update, and the two queries over the
 * collection of alerts.
 */
module FraudAlerts {
  import opened Wrappers
  import opened RiskLevels
  import opened Analysis
  import opened Ranking

  /** The seven alert types the schema accepts. */
  datatype AlertType =
    | TextAnalysisAlert | SocialMediaAlert | AdvisorVerificationAlert | CorporateAnnouncementAlert
    | DeepfakeDetection | DocumentVerification | MarketManipulation

  function TypeName(t: AlertType): string
  {
    match t
    case TextAnalysisAlert => "TEXT_ANALYSIS"
    case SocialMediaAlert => "SOCIAL_MEDIA"
    case AdvisorVerificationAlert => "ADVISOR_VERIFICATION"
    case CorporateAnnouncementAlert => "CORPORATE_ANNOUNCEMENT"
    case DeepfakeDetection => "DEEPFAKE_DETECTION"
    case DocumentVerification => "DOCUMENT_VERIFICATION"
    case MarketManipulation => "MARKET_MANIPULATION"
  }

  /** The enum check on `type`: a name is accepted exactly when it names one of the seven types. */
  function ParseType(name: string): (r: Option<AlertType>)
    ensures r.Some? ==> TypeName(r.value) == name
    ensures r.None? ==> forall t :: TypeName(t) != name
  {
    if name == "TEXT_ANALYSIS" then Some(TextAnalysisAlert)
    else if name == "SOCIAL_MEDIA" then Some(SocialMediaAlert)
    else if name == "ADVISOR_VERIFICATION" then Some(AdvisorVerificationAlert)
    else if name == "CORPORATE_ANNOUNCEMENT" then Some(CorporateAnnouncementAlert)
    else if name == "DEEPFAKE_DETECTION" then Some(DeepfakeDetection)
    else if name == "DOCUMENT_VERIFICATION" then Some(DocumentVerification)
    else if name == "MARKET_MANIPULATION" then Some(MarketManipulation)
    else None
  }

  lemma ParseTypeName(t: AlertType)
    ensures ParseType(TypeName(t)) == Some(t)
  {
  }

  /** `USER_REPORT`, the type the report route asks for, is not among the seven. */
  lemma UserReportIsNotAType()
    ensures ParseType("USER_REPORT") == None
  {
  }

  datatype AlertStatus = Active | Resolved | FalsePositive | UnderReview

  function StatusName(s: AlertStatus): string
  {
    match s
    case Active => "ACTIVE"
    case Resolved => "RESOLVED"
    case FalsePositive => "FALSE_POSITIVE"
    case UnderReview => "UNDER_REVIEW"
  }

  /** The status whitelist: exactly the four status names. */
  function ParseStatus(name: string): (r: Option<AlertStatus>)
    ensures r.Some? ==> StatusName(r.value) == name
    ensures r.None? ==> forall s :: StatusName(s) != name
  {
    if name == "ACTIVE" then Some(Active)
    else if name == "RESOLVED" then Some(Resolved)
    else if name == "FALSE_POSITIVE" then Some(FalsePositive)
    else if name == "UNDER_REVIEW" then Some(UnderReview)
    else None
  }

  lemma ParseStatusName(s: AlertStatus)
    ensures ParseStatus(StatusName(s)) == Some(s)
  {
  }

  const MaxContentLength := 2000

  /** Why saving an alert fails. */
  datatype ValidationError =
    | UnknownType(name: string)
    | ScoreOutOfRange(score: int)
    | MissingContent
    | ContentTooLong(length: nat)
    | MissingSource

  /** Every alert a save accepts: a known type, a score in [0, 100], content and a source. */
  predicate AcceptedFields(typeName: string, riskScore: int, content: string, source: string)
  {
    ParseType(typeName).Some? && 0 <= riskScore <= 100
    && 0 < |content| <= MaxContentLength && |source| > 0
  }

  /**
   * The schema's validators, in field order: the type enum, the score
   * bounds, `content` required (an empty string is missing) and at most
   * 2000 characters, `source` required.
   */
  function ValidateAlert(typeName: string, riskScore: int, content: string, source: string)
    : (r: Result<AlertType, ValidationError>)
    ensures r.Ok? <==> AcceptedFields(typeName, riskScore, content, source)
    ensures r.Ok? ==> TypeName(r.value) == typeName
  {
    match ParseType(typeName)
    case None => Err(UnknownType(typeName))
    case Some(t) =>
      if riskScore < 0 || riskScore > 100 then Err(ScoreOutOfRange(riskScore))
      else if |content| == 0 then Err(MissingContent)
      else if |content| > MaxContentLength then Err(ContentTooLong(|content|))
      else if |source| == 0 then Err(MissingSource)
      else Ok(t)
  }

  /** The schema default for `riskLevel`, written out as the schema writes it. */
  function DefaultRiskLevel(riskScore: int): (l: RiskLevel)
    ensures l == GetRiskLevel(riskScore)
  {
    if riskScore >= 80 then Critical
    else if riskScore >= 60 then High
    else if riskScore >= 40 then Medium
    else if riskScore >= 20 then Low
    else Minimal
  }

  /** One stored alert. Only the review fields change after creation. */
  class FraudAlert {
    const id: nat
    const kind: AlertType
    const riskScore: int
    const riskLevel: RiskLevel
    const content: string
    const source: string
    const analysis: TextAnalysis
    const createdAt: int
    var status: AlertStatus
    var reviewedBy: Option<nat>
    var reviewNotes: Option<string>
    var updatedAt: int

    /** What every saved alert satisfies. */
    predicate Valid()
    {
      AcceptedFields(TypeName(kind), riskScore, content, source) && riskLevel == GetRiskLevel(riskScore)
    }

    /** A new alert as `createFraudAlert` builds it: ACTIVE, level by the schema default. */
    constructor(id: nat, kind: AlertType, riskScore: int, content: string, source: string,
                analysis: TextAnalysis, createdAt: int)
      requires AcceptedFields(TypeName(kind), riskScore, content, source)
      ensures Valid()
      ensures this.id == id && this.kind == kind && this.riskScore == riskScore
      ensures this.content == content && this.source == source && this.analysis == analysis
      ensures this.createdAt == createdAt && updatedAt == createdAt
      ensures riskLevel == GetRiskLevel(riskScore)
      ensures status == Active && reviewedBy == None && reviewNotes == None
    {
      this.id := id;
      this.kind := kind;
      this.riskScore := riskScore;
      this.riskLevel := DefaultRiskLevel(riskScore);
      this.content := content;
      this.source := source;
      this.analysis := analysis;
      this.createdAt := createdAt;
      this.status := Active;
      this.reviewedBy := None;
      this.reviewNotes := None;
      this.updatedAt := createdAt;
    }

    /** The `calculatedRiskLevel` virtual: the stored level recomputed from the score. */
    function CalculatedRiskLevel(): (l: RiskLevel)
      ensures l == GetRiskLevel(riskScore)
      ensures Valid() ==> l == riskLevel
    {
      DefaultRiskLevel(riskScore)
    }

    /**
     * `updateStatus`: sets the status, the reviewer, the notes and the
     * update time, and nothing else.
     */
    method UpdateStatus(newStatus: AlertStatus, reviewerId: Option<nat>, notes: Option<string>, now: int)
      modifies this
      ensures status == newStatus && reviewedBy == reviewerId && reviewNotes == notes && updatedAt == now
    {
      status := newStatus;
      reviewedBy := reviewerId;
      reviewNotes := notes;
      updatedAt := now;
    }
  }

  /** The review state `updateStatus` writes. */
  datatype Review = Review(status: AlertStatus, reviewedBy: Option<nat>, reviewNotes: Option<string>, updatedAt: int)

  /** Updating twice with the same arguments leaves the record as one update does. */
  method UpdateStatusTwice(a: FraudAlert, newStatus: AlertStatus, reviewerId: Option<nat>,
                           notes: Option<string>, now: int)
    modifies a
    ensures Review(a.status, a.reviewedBy, a.reviewNotes, a.updatedAt) == Review(newStatus, reviewerId, notes, now)
  {
    a.UpdateStatus(newStatus, reviewerId, notes, now);
    ghost var once := Review(a.status, a.reviewedBy, a.reviewNotes, a.updatedAt);
    a.UpdateStatus(newStatus, reviewerId, notes, now);
    assert Review(a.status, a.reviewedBy, a.reviewNotes, a.updatedAt) == once;
  }

  // ---------------------------------------------------------------------
  // Queries over the collection

  /** The alerts whose score lies in a range, in stored order. */
  function InScoreRange(alerts: seq<FraudAlert>, range: ScoreRange): (r: seq<FraudAlert>)
    ensures forall a :: a in r ==> a in alerts && InRange(a.riskScore, range)
    ensures forall a :: a in alerts && InRange(a.riskScore, range) ==> a in r
  {
    if alerts == [] then []
    else
      var init := InScoreRange(alerts[..|alerts| - 1], range);
      var last := alerts[|alerts| - 1];
      assert alerts == alerts[..|alerts| - 1] + [last];
      if InRange(last.riskScore, range) then init + [last] else init
  }

  /** Newest first. */
  function CreatedKey(a: FraudAlert): Key
  {
    Key(a.createdAt, 0)
  }

  /**
   * `getByRiskLevel`: the alerts in the level's score range, newest first,
   * at most `limit` of them (10 by default). A name that is not a level
   * looks up no range, so the filter asks for a missing score, which no
   * stored alert has: the result is empty.
   */
  function GetByRiskLevel(alerts: seq<FraudAlert>, riskLevel: string, limit: Option<int>): (r: seq<FraudAlert>)
    ensures forall a :: a in r ==> a in alerts
    ensures ParseLevel(riskLevel).Some? ==>
      forall a :: a in r ==> GetRiskLevel(a.riskScore) == ParseLevel(riskLevel).value
    ensures ParseLevel(riskLevel).None? ==> r == []
    ensures SortedDesc(r, CreatedKey)
    ensures LimitOrDefault(limit) > 0 ==> |r| <= LimitOrDefault(limit)
    ensures limit.None? ==> |r| <= DefaultQueryLimit
    ensures ParseLevel(riskLevel).Some? ==>
      var matching := InScoreRange(alerts, RangeOf(ParseLevel(riskLevel).value));
      r <= SortDesc(matching, CreatedKey) && |r| == LimitedCount(LimitOrDefault(limit), |matching|)
  {
    match ParseLevel(riskLevel)
    case None => []
    case Some(level) =>
      var matching := InScoreRange(alerts, RangeOf(level));
      var sorted := SortDesc(matching, CreatedKey);
      forall a | a in sorted
        ensures a in matching && GetRiskLevel(a.riskScore) == level
      {
        SortedMember(matching, CreatedKey, a);
        RangesPartitionScores(a.riskScore, level);
      }
      LimitKeepsOrder(sorted, CreatedKey, LimitOrDefault(limit));
      Limit(sorted, LimitOrDefault(limit))
  }

  /** The counts `getStatistics` groups, without the average score. */
  datatype BandCounts = BandCounts(totalAlerts: nat, criticalAlerts: nat, highRiskAlerts: nat,
                                   mediumRiskAlerts: nat, lowRiskAlerts: nat)

  /** One alert's contribution: it counts once in the total and once in its band. */
  function BandOf(score: int): BandCounts
  {
    BandCounts(1, if score >= 80 then 1 else 0,
               if 60 <= score < 80 then 1 else 0,
               if 40 <= score < 60 then 1 else 0,
               if score < 40 then 1 else 0)
  }

  function AddCounts(a: BandCounts, b: BandCounts): BandCounts
  {
    BandCounts(a.totalAlerts + b.totalAlerts, a.criticalAlerts + b.criticalAlerts,
               a.highRiskAlerts + b.highRiskAlerts, a.mediumRiskAlerts + b.mediumRiskAlerts,
               a.lowRiskAlerts + b.lowRiskAlerts)
  }

  function CountBands(alerts: seq<FraudAlert>): BandCounts
  {
    if alerts == [] then BandCounts(0, 0, 0, 0, 0)
    else AddCounts(CountBands(alerts[..|alerts| - 1]), BandOf(alerts[|alerts| - 1].riskScore))
  }

  /** The four bands cover every score once, so they add up to the total. */
  lemma {:induction false} BandsSumToTotal(alerts: seq<FraudAlert>)
    ensures var c := CountBands(alerts);
      c.totalAlerts == |alerts|
      && c.criticalAlerts + c.highRiskAlerts + c.mediumRiskAlerts + c.lowRiskAlerts == c.totalAlerts
    decreases |alerts|
  {
    if alerts != [] {
      BandsSumToTotal(alerts[..|alerts| - 1]);
    }
  }

  /**
   * The four statistic bands by risk level: the critical, high and medium
   * levels each have a band, and the low band also takes the minimal level.
   */
  datatype Band = CriticalBand | HighBand | MediumBand | LowBand

  function LevelBand(level: RiskLevel): Band
  {
    match level
    case Critical => CriticalBand
    case High => HighBand
    case Medium => MediumBand
    case Low => LowBand
    case Minimal => LowBand
  }

  /** How many of `alerts` have a score whose risk level falls in `band`. */
  function CountInBand(alerts: seq<FraudAlert>, band: Band): nat
  {
    if alerts == [] then 0
    else CountInBand(alerts[..|alerts| - 1], band)
         + (if LevelBand(GetRiskLevel(alerts[|alerts| - 1].riskScore)) == band then 1 else 0)
  }

  /** The grouping's thresholds for one score pick the band of that score's risk level. */
  lemma BandOfIsLevelBand(score: int)
    ensures var c, b := BandOf(score), LevelBand(GetRiskLevel(score));
      && c.criticalAlerts == (if b == CriticalBand then 1 else 0)
      && c.highRiskAlerts == (if b == HighBand then 1 else 0)
      && c.mediumRiskAlerts == (if b == MediumBand then 1 else 0)
      && c.lowRiskAlerts == (if b == LowBand then 1 else 0)
  {
  }

  /** Each band count of the grouping is the number of alerts at that band's risk levels. */
  lemma {:induction false} BandCountsByLevel(alerts: seq<FraudAlert>)
    ensures var c := CountBands(alerts);
      && c.criticalAlerts == CountInBand(alerts, CriticalBand)
      && c.highRiskAlerts == CountInBand(alerts, HighBand)
      && c.mediumRiskAlerts == CountInBand(alerts, MediumBand)
      && c.lowRiskAlerts == CountInBand(alerts, LowBand)
    decreases |alerts|
  {
    if alerts != [] {
      BandCountsByLevel(alerts[..|alerts| - 1]);
      BandOfIsLevelBand(alerts[|alerts| - 1].riskScore);
    }
  }

  /** The alerts created between `startDate` and `endDate`, both included. */
  function CreatedBetween(alerts: seq<FraudAlert>, startDate: int, endDate: int): (r: seq<FraudAlert>)
    ensures forall a :: a in r ==> a in alerts && startDate <= a.createdAt <= endDate
    ensures forall a :: a in alerts && startDate <= a.createdAt <= endDate ==> a in r
    ensures |r| <= |alerts|
  {
    if alerts == [] then []
    else
      var init := CreatedBetween(alerts[..|alerts| - 1], startDate, endDate);
      var last := alerts[|alerts| - 1];
      assert alerts == alerts[..|alerts| - 1] + [last];
      if startDate <= last.createdAt <= endDate then init + [last] else init
  }

  /**
   * `getStatistics`: the band counts of the alerts created in the window;
   * the grouping yields no document at all when the window is empty.
   */
  function GetStatistics(alerts: seq<FraudAlert>, startDate: int, endDate: int): (r: Option<BandCounts>)
    ensures r.None? <==> forall a :: a in alerts ==> !(startDate <= a.createdAt <= endDate)
    ensures r.Some? ==>
      && 0 < r.value.totalAlerts <= |alerts|
      && r.value.criticalAlerts + r.value.highRiskAlerts + r.value.mediumRiskAlerts + r.value.lowRiskAlerts
         == r.value.totalAlerts
    ensures r.Some? ==>
      var window := CreatedBetween(alerts, startDate, endDate);
      && r.value == CountBands(window)
      && r.value.totalAlerts == |window|
      && r.value.criticalAlerts == CountInBand(window, CriticalBand)
      && r.value.highRiskAlerts == CountInBand(window, HighBand)
      && r.value.mediumRiskAlerts == CountInBand(window, MediumBand)
      && r.value.lowRiskAlerts == CountInBand(window, LowBand)
  {
    var window := CreatedBetween(alerts, startDate, endDate);
    BandsSumToTotal(window);
    BandCountsByLevel(window);
    if window == [] then None
    else
      assert window[0] in window;
      Some(CountBands(window))
  }
}
