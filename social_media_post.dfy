/**
 * The stored social-media post (server/models/SocialMediaPost.js): the
 * validation applied when it is saved, the record with its status
 * update, the engagement rate, and the two queries over the posts.
 */
module SocialMediaPosts {
  import opened Wrappers
  import opened RiskLevels
  import opened Analysis
  import opened Ranking

  datatype Platform = WhatsApp | Telegram | Twitter | Facebook | Instagram | LinkedIn | OtherPlatform

  function PlatformName(p: Platform): string
  {
    match p
    case WhatsApp => "WHATSAPP"
    case Telegram => "TELEGRAM"
    case Twitter => "TWITTER"
    case Facebook => "FACEBOOK"
    case Instagram => "INSTAGRAM"
    case LinkedIn => "LINKEDIN"
    case OtherPlatform => "OTHER"
  }

  /** The enum check on `platform`. */
  function ParsePlatform(name: string): (r: Option<Platform>)
    ensures r.Some? ==> PlatformName(r.value) == name
    ensures r.None? ==> forall p :: PlatformName(p) != name
  {
    if name == "WHATSAPP" then Some(WhatsApp)
    else if name == "TELEGRAM" then Some(Telegram)
    else if name == "TWITTER" then Some(Twitter)
    else if name == "FACEBOOK" then Some(Facebook)
    else if name == "INSTAGRAM" then Some(Instagram)
    else if name == "LINKEDIN" then Some(LinkedIn)
    else if name == "OTHER" then Some(OtherPlatform)
    else None
  }

  datatype PostStatus = PostActive | PostResolved | PostFalsePositive | PostUnderReview

  datatype PostAction = NoAction | WarningIssued | ContentRemoved | AccountSuspended | ReportedToAuthorities

  /** The engagement counters; each defaults to 0. */
  datatype Engagement = Engagement(likes: nat, shares: nat, comments: nat, views: nat)

  const NoEngagement := Engagement(0, 0, 0, 0)

  const MaxPostContentLength := 5000

  datatype PostError =
    | UnknownPlatform
    | MissingPostId
    | MissingPostContent
    | PostContentTooLong(length: nat)
    | PostScoreOutOfRange(score: int)
    | SuspiciousElementsNotStrings(count: nat)
    | DuplicatePost

  /**
   * The schema's validators for a new post, in field order: `platform`
   * required and one of seven, `postId` required, `content` required and
   * at most 5000 characters, `riskScore` in [0, 100].
   */
  function ValidatePost(platform: Option<string>, postId: Option<string>, content: string, riskScore: int)
    : (r: Result<Platform, PostError>)
    ensures r.Ok? <==>
      (&& platform.Some? && ParsePlatform(platform.value).Some?
       && postId.Some? && |postId.value| > 0
       && 0 < |content| <= MaxPostContentLength && 0 <= riskScore <= 100)
    ensures r.Ok? ==> PlatformName(r.value) == platform.value
  {
    if platform.None? || ParsePlatform(platform.value).None? then Err(UnknownPlatform)
    else if postId.None? || |postId.value| == 0 then Err(MissingPostId)
    else if |content| == 0 then Err(MissingPostContent)
    else if |content| > MaxPostContentLength then Err(PostContentTooLong(|content|))
    else if riskScore < 0 || riskScore > 100 then Err(PostScoreOutOfRange(riskScore))
    else Ok(ParsePlatform(platform.value).value)
  }

  /** One stored post. Only the status and the action change after creation. */
  class SocialMediaPost {
    const id: nat
    const platform: Platform
    const postId: string
    const content: string
    const engagement: Engagement
    const riskScore: int
    const riskLevel: RiskLevel
    const analysis: TextAnalysis
    const socialMediaScore: int
    const createdAt: int
    var status: PostStatus
    var actionTaken: PostAction

    predicate Valid()
    {
      0 < |postId| && 0 < |content| <= MaxPostContentLength
      && 0 <= riskScore <= 100 && riskLevel == GetRiskLevel(riskScore)
    }

    /** A new post as the social-media analysis saves it: ACTIVE, no action, no engagement. */
    constructor(id: nat, platform: Platform, postId: string, content: string, riskScore: int,
                analysis: TextAnalysis, socialMediaScore: int, createdAt: int)
      requires 0 < |postId| && 0 < |content| <= MaxPostContentLength && 0 <= riskScore <= 100
      ensures Valid()
      ensures this.id == id && this.platform == platform && this.postId == postId
      ensures this.content == content && this.riskScore == riskScore && this.analysis == analysis
      ensures this.socialMediaScore == socialMediaScore && this.createdAt == createdAt
      ensures engagement == NoEngagement && riskLevel == GetRiskLevel(riskScore)
      ensures status == PostActive && actionTaken == NoAction
    {
      this.id := id;
      this.platform := platform;
      this.postId := postId;
      this.content := content;
      this.engagement := NoEngagement;
      this.riskScore := riskScore;
      this.riskLevel := GetRiskLevel(riskScore);
      this.analysis := analysis;
      this.socialMediaScore := socialMediaScore;
      this.createdAt := createdAt;
      this.status := PostActive;
      this.actionTaken := NoAction;
    }

    /** `updateStatus`: sets the status, and the action only when one is given. */
    method UpdateStatus(newStatus: PostStatus, action: Option<PostAction>)
      modifies this
      ensures status == newStatus
      ensures actionTaken == (if action.Some? then action.value else old(actionTaken))
    {
      status := newStatus;
      if action.Some? {
        actionTaken := action.value;
      }
    }

    /**
     * The `engagementRate` virtual: likes, shares and comments per hundred
     * views, and 0 when there are no views.
     */
    function EngagementRate(): (r: real)
      ensures engagement.views == 0 ==> r == 0.0
      ensures r >= 0.0
      ensures engagement.views > 0 ==>
        r * (engagement.views as real) == ((engagement.likes + engagement.shares + engagement.comments) * 100) as real
    {
      if engagement.views == 0 then 0.0
      else
        var total := engagement.likes + engagement.shares + engagement.comments;
        (total as real / engagement.views as real) * 100.0
    }
  }

  /** The unique index on (platform, postId). */
  predicate UniquePosts(posts: seq<SocialMediaPost>)
  {
    forall i, j :: 0 <= i < j < |posts| ==>
      (posts[i].platform, posts[i].postId) != (posts[j].platform, posts[j].postId)
  }

  /** Whether a post with this platform and id is already stored. */
  predicate PostExists(posts: seq<SocialMediaPost>, platform: Platform, postId: string)
  {
    exists p :: p in posts && p.platform == platform && p.postId == postId
  }

  /** Storing a post whose key is new keeps the keys unique. */
  lemma InsertKeepsUnique(posts: seq<SocialMediaPost>, p: SocialMediaPost)
    requires UniquePosts(posts) && !PostExists(posts, p.platform, p.postId)
    ensures UniquePosts(posts + [p])
  {
    var ps := posts + [p];
    forall i, j | 0 <= i < j < |ps|
      ensures (ps[i].platform, ps[i].postId) != (ps[j].platform, ps[j].postId)
    {
      if j == |posts| {
        assert ps[i] in posts;
      }
    }
  }

  // ---------------------------------------------------------------------
  // Queries

  const DefaultMinRiskScore := 60

  function NewestKey(p: SocialMediaPost): Key { Key(p.createdAt, 0) }

  function RiskThenNewestKey(p: SocialMediaPost): Key { Key(p.riskScore, p.createdAt) }

  function OnPlatform(posts: seq<SocialMediaPost>, platform: Platform): (r: seq<SocialMediaPost>)
    ensures forall p :: p in r ==> p in posts && p.platform == platform
    ensures forall p :: p in posts && p.platform == platform ==> p in r
  {
    if posts == [] then []
    else
      var last := posts[|posts| - 1];
      assert posts == posts[..|posts| - 1] + [last];
      OnPlatform(posts[..|posts| - 1], platform) + (if last.platform == platform then [last] else [])
  }

  function AtLeastScore(posts: seq<SocialMediaPost>, minRiskScore: int): (r: seq<SocialMediaPost>)
    ensures forall p :: p in r ==> p in posts && p.riskScore >= minRiskScore
    ensures forall p :: p in posts && p.riskScore >= minRiskScore ==> p in r
  {
    if posts == [] then []
    else
      var last := posts[|posts| - 1];
      assert posts == posts[..|posts| - 1] + [last];
      AtLeastScore(posts[..|posts| - 1], minRiskScore) + (if last.riskScore >= minRiskScore then [last] else [])
  }

  /** `getByPlatform`: the platform's posts, newest first, at most `limit` (default 10). */
  function GetByPlatform(posts: seq<SocialMediaPost>, platform: Platform, limit: Option<int>)
    : (r: seq<SocialMediaPost>)
    ensures forall p :: p in r ==> p in posts && p.platform == platform
    ensures SortedDesc(r, NewestKey)
    ensures |r| <= (match limit case None => DefaultQueryLimit case Some(n) => if n > 0 then n else |posts|)
    ensures r <= SortDesc(OnPlatform(posts, platform), NewestKey)
    ensures |r| == LimitedCount(LimitOrDefault(limit), |OnPlatform(posts, platform)|)
  {
    var n := LimitOrDefault(limit);
    var sorted := SortDesc(OnPlatform(posts, platform), NewestKey);
    SortedMembers(OnPlatform(posts, platform), NewestKey);
    LimitKeepsOrder(sorted, NewestKey, n);
    assert |OnPlatform(posts, platform)| <= |posts| by { FilterShorter(posts, platform); }
    Limit(sorted, n)
  }

  lemma {:induction false} FilterShorter(posts: seq<SocialMediaPost>, platform: Platform)
    ensures |OnPlatform(posts, platform)| <= |posts|
    decreases |posts|
  {
    if posts != [] {
      FilterShorter(posts[..|posts| - 1], platform);
    }
  }

  /**
   * `getHighRiskPosts`: the posts scoring at least `minRiskScore` (default
   * 60), highest score first and then newest, at most `limit` (default 10).
   */
  function GetHighRiskPosts(posts: seq<SocialMediaPost>, minRiskScore: Option<int>, limit: Option<int>)
    : (r: seq<SocialMediaPost>)
    ensures forall p :: p in r ==>
      p in posts && p.riskScore >= (match minRiskScore case None => DefaultMinRiskScore case Some(m) => m)
    ensures SortedDesc(r, RiskThenNewestKey)
    ensures limit.None? ==> |r| <= DefaultQueryLimit
    ensures limit.Some? && limit.value > 0 ==> |r| <= limit.value
    ensures var m := match minRiskScore case None => DefaultMinRiskScore case Some(m) => m;
      r <= SortDesc(AtLeastScore(posts, m), RiskThenNewestKey)
      && |r| == LimitedCount(LimitOrDefault(limit), |AtLeastScore(posts, m)|)
  {
    var m := match minRiskScore case None => DefaultMinRiskScore case Some(m) => m;
    var n := LimitOrDefault(limit);
    var sorted := SortDesc(AtLeastScore(posts, m), RiskThenNewestKey);
    SortedMembers(AtLeastScore(posts, m), RiskThenNewestKey);
    LimitKeepsOrder(sorted, RiskThenNewestKey, n);
    Limit(sorted, n)
  }
}
