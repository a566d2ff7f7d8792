/** What an analysis reports: the explained elements and the analysis record. */
module Analysis {
  import opened RiskLevels

  datatype Severity = SeverityLow | SeverityMedium | SeverityHigh | SeverityCritical

  datatype ElementKind = SuspiciousKeyword | UnrealisticReturn | ContactInfo | SocialMediaContact

  /** One matched indicator, kept to explain a score. */
  datatype SuspiciousElement = SuspiciousElement(kind: ElementKind, value: string, severity: Severity)

  /** Position of a kind in the order the extractor emits kinds. */
  function KindRank(k: ElementKind): nat
  {
    match k
    case SuspiciousKeyword => 0
    case UnrealisticReturn => 1
    case ContactInfo => 2
    case SocialMediaContact => 3
  }

  predicate AllOfKind(es: seq<SuspiciousElement>, k: ElementKind)
  {
    forall i :: 0 <= i < |es| ==> es[i].kind == k
  }

  /** The number of elements of one kind. */
  function CountKind(es: seq<SuspiciousElement>, k: ElementKind): nat
  {
    if es == [] then 0 else CountKind(es[..|es| - 1], k) + (if es[|es| - 1].kind == k then 1 else 0)
  }

  lemma {:induction false} CountKindAppend(a: seq<SuspiciousElement>, b: seq<SuspiciousElement>, k: ElementKind)
    ensures CountKind(a + b, k) == CountKind(a, k) + CountKind(b, k)
    decreases |b|
  {
    if b == [] {
      assert a + b == a;
    } else {
      assert (a + b)[..|a + b| - 1] == a + b[..|b| - 1];
      CountKindAppend(a, b[..|b| - 1], k);
    }
  }

  lemma {:induction false} CountKindUniform(es: seq<SuspiciousElement>, kind: ElementKind, k: ElementKind)
    requires AllOfKind(es, kind)
    ensures CountKind(es, k) == if k == kind then |es| else 0
    decreases |es|
  {
    if es != [] {
      CountKindUniform(es[..|es| - 1], kind, k);
    }
  }

  /** The issue types an advisor verification may record. */
  datatype AdvisorIssueKind =
    | NotRegistered | ExpiredRegistration | SuspendedRegistration | UnrealisticPromises
    | SuspiciousContact | FakeCredentials | MisleadingClaims | UnauthorizedServices

  datatype AdvisorIssue = AdvisorIssue(kind: AdvisorIssueKind, message: string, severity: Severity)

  /** The issue types an announcement analysis reports. */
  datatype AnnouncementIssueKind = UnusualTiming | UnrealisticGrowth | NotVerified

  datatype AnnouncementIssue = AnnouncementIssue(kind: AnnouncementIssueKind, message: string, severity: Severity)

  /**
   * One recommendation line. The composers work on these names; `Wording`
   * gives the exact text the service sends for each.
   */
  datatype Advice =
    | HighRiskAvoid | VerifyClaims | ContactHelpline
    | MediumRiskCaution | DueDiligence | ConsultAdvisor
    | RelativelySafe | KeepLearning
    | AdvisorWarning | OnlyRegistered | CheckAdvisorList
    | AnnouncementWarning | VerifyOnExchange | CheckNews
    | SkepticalOfReturns | VerifyBeforeContact | AvoidSocialAdvice
    | VerifyRegistration | WaryOfPromises | OfficialChannels
    | CheckExchangeAnnouncements | CompareBenchmarks | VerifyTiming

  function Wording(a: Advice): string
  {
    match a
    case HighRiskAvoid => "⚠️ HIGH RISK: Avoid this investment opportunity"
    case VerifyClaims => "🔍 Verify all claims independently"
    case ContactHelpline => "📞 Contact SEBI investor helpline if needed"
    case MediumRiskCaution => "⚡ MEDIUM RISK: Exercise caution"
    case DueDiligence => "🔍 Conduct thorough due diligence"
    case ConsultAdvisor => "💼 Consult with registered financial advisor"
    case RelativelySafe => "✅ Relatively safe, but always verify"
    case KeepLearning => "📚 Continue learning about investment risks"
    case AdvisorWarning => "🚨 WARNING: This advisor may not be legitimate"
    case OnlyRegistered => "✅ Only work with SEBI registered advisors"
    case CheckAdvisorList => "📋 Check SEBI website for registered advisor list"
    case AnnouncementWarning => "⚠️ This announcement may be fraudulent"
    case VerifyOnExchange => "🔍 Verify on official exchange website"
    case CheckNews => "📰 Check multiple news sources"
    case SkepticalOfReturns => "📈 Be skeptical of guaranteed high returns"
    case VerifyBeforeContact => "📱 Verify advisor credentials before sharing contact"
    case AvoidSocialAdvice => "🚫 Avoid investment advice from social media"
    case VerifyRegistration => "🔍 Verify registration on SEBI website"
    case WaryOfPromises => "📊 Be wary of guaranteed return promises"
    case OfficialChannels => "💼 Professional advisors use official channels"
    case CheckExchangeAnnouncements => "✅ Check BSE/NSE official announcements"
    case CompareBenchmarks => "📊 Compare with industry benchmarks"
    case VerifyTiming => "⏰ Verify timing with exchange records"
  }

  /** The result of analysing a piece of text. */
  datatype TextAnalysis = TextAnalysis(
    riskScore: int,
    riskLevel: RiskLevel,
    suspiciousElements: seq<SuspiciousElement>,
    source: string,
    timestamp: int,
    recommendations: seq<Advice>)
}
