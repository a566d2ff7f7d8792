# SecureInvest fraud-risk engine in Dafny

This project models the rule-based fraud-risk engine of SecureInvest-AI and
proves properties about it. The engine is built from:

- a text scorer that adds fixed weights for suspicious keywords,
  market-manipulation phrases, urgency words, unrealistic return promises and
  contact details, and caps the sum at 100;
- the five risk bands (MINIMAL, LOW, MEDIUM, HIGH, CRITICAL);
- the explanation list of suspicious elements;
- the three recommendation composers (text, advisor, announcement);
- the advisor, corporate-announcement and social-media combiners;
- alert creation above a score of 70, with a broadcast event;
- the alert statistics.

Around it, the model covers:

- the state-changing methods of the stored records (fraud alert, advisor
  verification, social-media post, user);
- the field checks the records' schemas apply on save;
- the validation, filtering and paging rules of the HTTP routes;
- the browser-side list of live alerts.

Modules, one per file:

| file | module | what it holds |
|---|---|---|
| `wrappers.dfy` | `Wrappers` | `Option`, `Result`, `Min` |
| `text.dfy` | `Text` | ASCII case mapping, JavaScript white space, `trim`, substring containment |
| `patterns.dfy` | `Patterns` | the rule regexes as token matchers: `test`, and `match` with the `g` flag |
| `risk_levels.dfy` | `RiskLevels` | `getRiskLevel`, the level names, the score ranges of the level filters |
| `analysis.dfy` | `Analysis` | suspicious elements, issues, recommendation lines, the text analysis record |
| `text_scoring.dfy` | `TextScoring` | `calculateTextRiskScore` and `identifySuspiciousElements` |
| `recommendations.dfy` | `Recommendations` | the three recommendation composers |
| `ranking.dfy` | `Ranking` | the descending multi-key sort and `limit` of the store queries |
| `fraud_alert.dfy` | `FraudAlerts` | the `FraudAlert` record, its schema checks and its queries |
| `advisor_verification.dfy` | `AdvisorVerifications` | the `AdvisorVerification` record and its queries |
| `social_media_post.dfy` | `SocialMediaPosts` | the `SocialMediaPost` record and its queries |
| `user.dfy` | `Users` | the `User` record's methods and `findByEmail` |
| `service_rules.dfy` | `ServiceRules` | the scoring rules of the service's combiners, as functions |
| `fraud_detection_service.dfy` | `FraudDetection` | the service as a class over an in-memory store and event log |
| `routes.dfy` | `Routes` | the HTTP handlers of `server/routes/fraudDetection.js` |
| `alert_context.dfy` | `AlertContext` | the client's `setAlerts` updaters |

How the pieces are modelled:

- **The store.** Each collection is a sequence of records. Ids come from one
  counter, `nextId`.
- **Broadcasts.** The socket broadcast appends to an event log. It does so
  only when the service was built with a broadcaster.
- **Outside inputs.** The current time, the announcement's hour and the
  exchange's verdict are parameters.
- **Announcement score.** It is held in half points. This keeps the
  `* 0.5` of the text score exact.
- **Recommendations.** Each line is a value of the `Advice` datatype.
  `Analysis.Wording` gives each value's exact text.
- **Absent strings.** An absent request string and an empty one are both
  falsy in JavaScript, so both are written `""`.

Loop-built values follow one pattern. The scorers, the extractor, the
composers and the statistics grouping are methods with loops, each proved
equal to a specification function. The lemmas state the source's promises
about those functions.

## Model

| member | source | states |
|---|---|---|
| `Text.Trim` | server/models/AdvisorVerification.js:9-14 | the trimmed string is a contiguous slice of the input, no longer than it, with no white space at either end |
| `Text.LowerIsLower` | server/services/fraudDetectionService.js:73 | lower-casing yields lower-case text and is idempotent |
| `Text.UpperIsUpper` | server/models/AdvisorVerification.js:13 | upper-casing yields upper-case text and is idempotent |
| `Text.LowerAppend` | server/services/fraudDetectionService.js:73 | lower-casing distributes over concatenation |
| `Text.TrimUpper` | server/models/AdvisorVerification.js:9-14 | trimming and upper-casing can be applied in either order, because case mapping keeps white space |
| `Text.TrimLower` | server/models/User.js:10-17 | trimming and lower-casing can be applied in either order, because case mapping keeps white space |
| `Text.ContainsAppend` | server/services/fraudDetectionService.js:77 | a phrase contained in a text is still contained after more text is appended |
| `Patterns.OccursAppend` | server/services/fraudDetectionService.js:84 | a pattern that occurs in a text still occurs after more text is appended |
| `Patterns.RunEnd` | server/services/fraudDetectionService.js:99-101 | a `\d+` or `\s+` run ends at the first character outside the class, and every character before that end is in the class |
| `Patterns.ScanFrom` | server/services/fraudDetectionService.js:105 | every match reported by the global scan lies within the text, is non-empty, starts at or after the scan start, and is a full greedy match of the pattern |
| `Patterns.GreedyEndAppend` | server/services/fraudDetectionService.js:99-101 | when every run of a pattern is followed by a token that needs a character, appending text keeps each greedy match that ends inside the text and creates none that ends inside it |
| `Patterns.ScanFromAppend` | server/services/fraudDetectionService.js:104-105 | for a pattern that opens with `\d+` and matches no digit after it, the matches of the global scan of a text come first, unchanged and in order, among the matches found once more text is appended |
| `Patterns.Decimal` | server/services/fraudDetectionService.js:273 | the decimal rendering of a number is all digits with no leading zero, and `parseInt` reads the number back |
| `RiskLevels.ParseLevel` | server/models/FraudAlert.js:125-133 | a level name is accepted only when it is the name of that level |
| `RiskLevels.ParseLevelName` | server/models/FraudAlert.js:23-33 | each of the five level names parses back to its level |
| `RiskLevels.RiskLevelMonotone` | server/services/fraudDetectionService.js:404-410 | a higher score never gets a lower risk level |
| `RiskLevels.RiskLevelBoundaries` | server/services/fraudDetectionService.js:404-410 | the lower bounds are closed: 80, 60, 40 and 20 start CRITICAL, HIGH, MEDIUM and LOW, and 79, 59, 39 and 19 fall in the band below |
| `RiskLevels.RangesPartitionScores` | server/models/FraudAlert.js:124-131 | a score lies in a level's query range exactly when `getRiskLevel` gives that level, so the five ranges partition the scores |
| `RiskLevels.LevelOfHalves` | server/services/fraudDetectionService.js:380 | the banding of a half-point score, each band an interval with both ends stated |
| `RiskLevels.LevelOfHalvesOfWhole` | server/services/fraudDetectionService.js:404-410 | banding in half points agrees with `getRiskLevel` on whole scores |
| `Ranking.SortDesc` | server/models/FraudAlert.js:134 | the sorted result is in descending key order and is a permutation of the input |
| `Ranking.SortedMember` | server/models/FraudAlert.js:134 | an entry is in the sorted result exactly when it is in the input |
| `Ranking.Limit` | server/models/FraudAlert.js:135 | `limit(n)` keeps a prefix of `abs(n)` entries, or all of them; `limit(0)` keeps everything; the number kept, `LimitedCount(n, size)`, is the size for `n = 0` and otherwise the smaller of `abs(n)` and the size |
| `TextScoring.TextRiskScore` | server/services/fraudDetectionService.js:71-132 | the text score is at most 100; it equals the uncapped rule sum when that sum is under 100, and is 100 otherwise |
| `TextScoring.CalculateTextRiskScore` | server/services/fraudDetectionService.js:71-132 | the loop-by-loop scorer computes exactly the text score |
| `TextScoring.ScoreWords` | server/services/fraudDetectionService.js:76-80 | the keyword or urgency loop adds the weight once per listed phrase the lower-cased text contains |
| `TextScoring.ScorePatterns` | server/services/fraudDetectionService.js:83-87 | the manipulation or contact loop adds the weight once per pattern that occurs |
| `TextScoring.ScoreReturns` | server/services/fraudDetectionService.js:98-114 | the return loop adds the tiered bonus of every match of every return pattern |
| `TextScoring.ReturnPointsAppend` | server/services/fraudDetectionService.js:104-114 | return points are additive over the sequence of matches |
| `TextScoring.RepeatedReturnMatchesEachCount` | server/services/fraudDetectionService.js:107-112 | a repeated return claim earns its bonus again for each repetition |
| `TextScoring.ReturnBonusTiers` | server/services/fraudDetectionService.js:109-111 | the bonus tiers: 0 up to 10, 10 up to 20, 15 up to 50, and 20 above 50, with each bound on the lower tier |
| `TextScoring.ExistenceRulesBounded` | server/services/fraudDetectionService.js:71-129 | each non-return rule counts a phrase or pattern at most once, so it contributes at most its weight times the list length |
| `TextScoring.ReturnMatchesAppend` | server/services/fraudDetectionService.js:104-108 | the return matches of the content, each with its text and its number, come first, unchanged and in order, among the return matches once text is appended |
| `TextScoring.AppendingNeverLowersRuleCounts` | server/services/fraudDetectionService.js:71-129 | appending text never lowers the count of any keyword, manipulation, urgency or contact rule, nor the return bonus |
| `TextScoring.AppendingNeverLowersScore` | server/services/fraudDetectionService.js:71-132 | appending text to the content never lowers its uncapped rule sum or its score capped at 100 |
| `TextScoring.EmptyContentScoresZero` | server/services/fraudDetectionService.js:71-132 | empty content scores 0 |
| `TextScoring.CollectKeywordElements` | server/services/fraudDetectionService.js:141-150 | the keyword loop collects one element per contained keyword, in list order |
| `TextScoring.CollectReturnElements` | server/services/fraudDetectionService.js:152-165 | the return loop appends one element per `N% return` match with N above 20 |
| `TextScoring.IdentifySuspiciousElements` | server/services/fraudDetectionService.js:137-187 | the extractor builds exactly the specified element list |
| `TextScoring.KeywordElementsExplainScore` | server/services/fraudDetectionService.js:141-150 | there is one HIGH keyword element per keyword the score counted, each naming a listed keyword the text contains |
| `TextScoring.ReturnElementsSound` | server/services/fraudDetectionService.js:152-165 | every return element stems from a match with N above 20, is CRITICAL exactly when N is above 50, and there are no more of them than matches |
| `TextScoring.ReturnElementsComplete` | server/services/fraudDetectionService.js:152-165 | every match with N above 20 is reported |
| `TextScoring.ElementsInRuleOrder` | server/services/fraudDetectionService.js:137-187 | the elements come in rule order: keywords, returns, contact, social media |
| `TextScoring.ElementCounts` | server/services/fraudDetectionService.js:137-187 | how many elements of each kind are emitted: one per keyword, one per qualifying return match, at most one contact and at most one social-media element |
| `Recommendations.GenerateRecommendations` | server/services/fraudDetectionService.js:415-447 | the text composer's loop builds exactly the specified list |
| `Recommendations.ElementLinesAppend` | server/services/fraudDetectionService.js:432-444 | the per-element lines of two element lists concatenate |
| `Recommendations.ElementLinesCount` | server/services/fraudDetectionService.js:432-444 | one line is added per return, contact or social-media element, and none per keyword |
| `Recommendations.TextRecommendationsShape` | server/services/fraudDetectionService.js:415-447 | the list opens with the band block (3 lines above 40, otherwise 2) followed by one line per qualifying element |
| `Recommendations.KeywordsAddNothing` | server/services/fraudDetectionService.js:432-444 | a keyword element changes no recommendation |
| `Recommendations.ElementsExtendRecommendations` | server/services/fraudDetectionService.js:432-444 | more elements only append their own lines, in element order |
| `Recommendations.GenerateAdvisorRecommendations` | server/services/fraudDetectionService.js:452-476 | the advisor composer's loop builds exactly the specified list |
| `Recommendations.AdvisorIssueLinesBound` | server/services/fraudDetectionService.js:461-473 | each issue adds at most one line |
| `Recommendations.OtherIssuesAddNoLines` | server/services/fraudDetectionService.js:461-473 | issues of kinds the switch does not name add no line |
| `Recommendations.AdvisorWarningIffAbove50` | server/services/fraudDetectionService.js:455-459 | the three-line warning opens the list if and only if the score is above 50 |
| `Recommendations.AdvisorIssueLinesInKnownLines` | server/services/fraudDetectionService.js:461-473 | every issue line is one of the three issue recommendations |
| `Recommendations.GenerateAnnouncementRecommendations` | server/services/fraudDetectionService.js:481-505 | the announcement composer's loop builds exactly the specified list |
| `Recommendations.AnnouncementIssueLinesOnePerIssue` | server/services/fraudDetectionService.js:490-502 | each announcement issue adds exactly its own line, in issue order |
| `Recommendations.AnnouncementRecommendationsShape` | server/services/fraudDetectionService.js:481-505 | the warning block appears exactly when the score is above 60, followed by one line per issue |
| `FraudAlerts.ParseType` | server/models/FraudAlert.js:4-16 | a type name is accepted exactly when it is one of the seven enum names |
| `FraudAlerts.ParseTypeName` | server/models/FraudAlert.js:7-15 | every type's name parses back to it |
| `FraudAlerts.UserReportIsNotAType` | server/models/FraudAlert.js:7-15 | `USER_REPORT` is not an accepted alert type |
| `FraudAlerts.ParseStatus` | server/models/FraudAlert.js:66-70 | a status name is accepted exactly when it is one of the four enum names |
| `FraudAlerts.ParseStatusName` | server/models/FraudAlert.js:66-70 | every status's name parses back to it |
| `FraudAlerts.ValidateAlert` | server/models/FraudAlert.js:4-42 | an alert passes the schema exactly when the type is in the enum, the score is in [0,100], the content is non-empty and at most 2000 long, and the source is non-empty |
| `FraudAlerts.DefaultRiskLevel` | server/models/FraudAlert.js:23-33 | the default risk level agrees with `getRiskLevel` for every score |
| `FraudAlerts.FraudAlert.constructor` | server/models/FraudAlert.js:3-70 | a new alert keeps its fields, defaults its level to the score's band, and starts ACTIVE and unreviewed |
| `FraudAlerts.FraudAlert.CalculatedRiskLevel` | server/models/FraudAlert.js:106-112 | the calculated level is the score's band, and on a valid alert equals the stored level |
| `FraudAlerts.FraudAlert.UpdateStatus` | server/models/FraudAlert.js:115-121 | sets status, reviewer, notes and update time, and only those |
| `FraudAlerts.UpdateStatusTwice` | server/models/FraudAlert.js:115-121 | applying the same update twice leaves the same review fields as applying it once |
| `FraudAlerts.InScoreRange` | server/models/FraudAlert.js:133 | the range filter keeps exactly the alerts whose score lies in the range |
| `FraudAlerts.GetByRiskLevel` | server/models/FraudAlert.js:124-136 | for a known level, returns only stored alerts of that band, newest first and at most `limit` (10 by default), and these are the first `LimitedCount(limit, matches)` entries of the newest-first ranking of all matching alerts; for any other name, returns nothing, because the filter asks for a missing score |
| `FraudAlerts.BandsSumToTotal` | server/models/FraudAlert.js:150-177 | the four band counts sum to the total, because the low band is everything under 40 |
| `FraudAlerts.CreatedBetween` | server/models/FraudAlert.js:141-148 | the match stage keeps exactly the alerts created between the two dates, both ends inclusive |
| `FraudAlerts.GetStatistics` | server/models/FraudAlert.js:139-181 | no group when nothing matches; otherwise the total is the number of alerts created in the window, and each band count is the number of those alerts at that band's risk levels |
| `FraudAlerts.BandCountsByLevel` | server/models/FraudAlert.js:150-177 | each band count of the grouping equals the number of alerts whose risk level falls in that band (low takes the minimal level too) |
| `AdvisorVerifications.DefaultStatus` | server/models/AdvisorVerification.js:101-109 | UNVERIFIED exactly when not registered, SUSPICIOUS exactly when registered with a score of at least 80, otherwise VERIFIED |
| `AdvisorVerifications.NormalizeRegistration` | server/models/AdvisorVerification.js:9-14 | a stored number is upper-case, no longer than the input, and has no white space at either end |
| `AdvisorVerifications.NormalizeRegistrationIdempotent` | server/models/AdvisorVerification.js:9-14 | normalising a stored number again changes nothing |
| `AdvisorVerifications.AdvisorVerification.constructor` | server/models/AdvisorVerification.js:3-138 | a new verification stores the trimmed name and normalised number, defaults its status and level, and has no actions |
| `AdvisorVerifications.AdvisorVerification.PreSave` | server/models/AdvisorVerification.js:216-224 | the pre-save hook sets the level to the score's band and changes nothing else |
| `AdvisorVerifications.AdvisorVerification.AddIssue` | server/models/AdvisorVerification.js:159-164 | appends the issue after the earlier ones, sets the score to min(old + 20, 100), and stamps the update |
| `AdvisorVerifications.AdvisorVerification.UpdateStatus` | server/models/AdvisorVerification.js:167-174 | always sets the status; the actions grow by exactly one entry when action data is given and are unchanged otherwise |
| `AdvisorVerifications.ReverificationFallsDue` | server/models/AdvisorVerification.js:153-156 | a verification is due exactly once more than thirty days have passed, and stays due afterwards |
| `AdvisorVerifications.AddIssueScoreBounds` | server/models/AdvisorVerification.js:161 | adding an issue never lowers the score, never exceeds 100, and reaches 100 exactly from 80 on |
| `AdvisorVerifications.FindByRegistration` | server/models/AdvisorVerification.js:177-179 | finds the stored verification whose number equals the query's normal form (upper-cased, then trimmed and upper-cased by the schema's setters), or reports that none has it |
| `AdvisorVerifications.UpperedNormalizesAlike` | server/models/AdvisorVerification.js:9-14 | upper-casing a number before the setters run does not change its normal form |
| `AdvisorVerifications.FindSavedRegistration` | server/models/AdvisorVerification.js:177-179 | a saved verification is found again by any query with the normal form of the number it was saved with, whatever its padding or case |
| `AdvisorVerifications.PaddedQueryFinds` | server/models/AdvisorVerification.js:177-179 | ` john_doe_ia_001 ` finds the stored `JOHN_DOE_IA_001` |
| `AdvisorVerifications.SuspiciousRows` | server/models/AdvisorVerification.js:183-188 | the filter keeps exactly the SUSPICIOUS or score-60-and-above verifications, each keyed by score then date |
| `AdvisorVerifications.RankSuspicious` | server/models/AdvisorVerification.js:182-191 | the ranked rows are suspicious rows in descending key order, at most `limit`, and all of them when the limit is 0; they are the first `LimitedCount(limit, rows)` entries of the ranking of all suspicious rows |
| `AdvisorVerifications.GetSuspiciousAdvisors` | server/models/AdvisorVerification.js:182-191 | returns only suspicious verifications, ordered by score then date descending, at most `limit` (10 by default), and all of them when the limit is 0; they are the first `LimitedCount(limit, suspicious)` entries of the ranking of all suspicious verifications |
| `AdvisorVerifications.StatsPartition` | server/models/AdvisorVerification.js:194-212 | registered plus unregistered equals the total, and the suspicious count is within it |
| `AdvisorVerifications.GetVerificationStats` | server/models/AdvisorVerification.js:194-213 | no group on an empty store; otherwise the total is the store size and registered plus unregistered equals it |
| `SocialMediaPosts.ParsePlatform` | server/models/SocialMediaPost.js:4-8 | a platform name is accepted exactly when it is one of the seven enum names |
| `SocialMediaPosts.ValidatePost` | server/models/SocialMediaPost.js:4-50 | a post passes the schema exactly when the platform is in the enum, the post id is present, the content is non-empty and at most 5000 long, and the score is in [0,100] |
| `SocialMediaPosts.SocialMediaPost.constructor` | server/models/SocialMediaPost.js:3-105 | a new post keeps its fields, has zero engagement and the score's band as level, and starts ACTIVE with no action |
| `SocialMediaPosts.SocialMediaPost.UpdateStatus` | server/models/SocialMediaPost.js:121-127 | always sets the status; the action changes only when one is given |
| `SocialMediaPosts.SocialMediaPost.EngagementRate` | server/models/SocialMediaPost.js:114-118 | the rate is 0 without views, otherwise the engagement per view times 100, never negative |
| `SocialMediaPosts.InsertKeepsUnique` | server/models/SocialMediaPost.js:108 | inserting a post whose (platform, postId) pair is new keeps the pairs unique |
| `SocialMediaPosts.OnPlatform` | server/models/SocialMediaPost.js:131 | the platform filter keeps exactly the posts on that platform |
| `SocialMediaPosts.AtLeastScore` | server/models/SocialMediaPost.js:138 | the score filter keeps exactly the posts scoring at least the minimum |
| `SocialMediaPosts.GetByPlatform` | server/models/SocialMediaPost.js:130-134 | returns only posts on the platform, newest first, at most `limit` (10 by default); they are the first `LimitedCount(limit, matches)` entries of the newest-first ranking of all the platform's posts |
| `SocialMediaPosts.GetHighRiskPosts` | server/models/SocialMediaPost.js:137-141 | returns only posts scoring at least the minimum (60 by default), by score then date descending, at most `limit` (10 by default); they are the first `LimitedCount(limit, matches)` entries of the ranking of all posts scoring at least the minimum |
| `Users.NormalizeEmail` | server/models/User.js:11-17 | a stored address is lower-case and no longer than the input |
| `Users.User.UpdateLastLogin` | server/models/User.js:167-171 | stamps the login time and increments the login count by exactly one |
| `Users.User.GetAlertThreshold` | server/models/User.js:179-181 | the stored threshold when set and non-zero, otherwise 60; never 0 |
| `Users.User.GetSubscriptionStatus` | server/models/User.js:189-193 | INACTIVE exactly when not active, EXPIRED exactly when active with an end date in the past, otherwise ACTIVE |
| `Users.User.ToJson` | server/models/User.js:196-200 | the output has no password and keeps every other field with its value |
| `Users.ReceivesAlertsUnlessInactive` | server/models/User.js:174-176 | a user receives alerts exactly when the email is verified and the subscription is not INACTIVE |
| `Users.ExpiredStillReceivesAlerts` | server/models/User.js:174-176 | a verified user whose subscription has expired still receives alerts |
| `Users.FindByEmail` | server/models/User.js:203-205 | finds the stored user whose address equals the query's normal form (lower-cased, then trimmed and lower-cased by the schema's setters), or reports that none has it |
| `Users.LoweredNormalizesAlike` | server/models/User.js:10-17 | lower-casing an address before the setters run does not change its normal form |
| `Users.CasingsNormalizeAlike` | server/models/User.js:10-17 | two addresses that differ only in letter case have the same normal form |
| `Users.FindByEmailIgnoresCase` | server/models/User.js:203-205 | a user is found by any query with the normal form of the address they registered with, in any case and with or without padding |
| `ServiceRules.AlertFieldsOfHighRiskText` | server/services/fraudDetectionService.js:44-58 | the alert for high-risk text passes the alert schema exactly when the source is non-empty; its content is a non-empty prefix of at most 500 characters |
| `ServiceRules.UnusualSharingInIntegers` | server/services/fraudDetectionService.js:200-205 | the shares-to-likes ratio test above 0.5 is equivalent to an integer comparison, including for negative counts |
| `ServiceRules.SocialMediaScoreIdentifiesSignals` | server/services/fraudDetectionService.js:197-215 | the social score determines which of the three signals fired, and is at most 45 |
| `ServiceRules.FinalScore` | server/services/fraudDetectionService.js:217 | the post's final score is at least its text score and at most 100; it is the text score plus the social-media score when that sum is under 100, and 100 otherwise |
| `ServiceRules.AdvisorScoreIsIssueWeights` | server/services/fraudDetectionService.js:256-288 | the advisor score is the sum of its issues' weights and stays at most 100 without a cap |
| `ServiceRules.WarningNeedsUnregisteredAndMore` | server/services/fraudDetectionService.js:256-288 | the score exceeds 50 exactly when the number is unregistered and some other issue is present |
| `ServiceRules.RegistryIsCaseSensitive` | server/services/fraudDetectionService.js:321-328 | a lower-case registered number is not found, though its upper-case form is listed |
| `ServiceRules.AnnouncementCapKeepsLevel` | server/services/fraudDetectionService.js:378-384 | the announcement score is at most 130; capping it at 100 changes neither its level nor whether the warning block appears; an unverified announcement is at least MEDIUM |
| `ServiceRules.AnnouncementIssuesExplainScore` | server/services/fraudDetectionService.js:336-376 | at most three issues, each adding at least 15 points, and no issue exactly when the score is half the text score |
| `ServiceRules.LookbackMs` | server/services/fraudDetectionService.js:549-561 | 24h looks back one day, 30d thirty days, and every other timeframe seven days |
| `ServiceRules.CreatedSince` | server/services/fraudDetectionService.js:563-565 | the window keeps exactly the alerts created at or after the start date |
| `ServiceRules.TypeCountsSumToTotal` | server/services/fraudDetectionService.js:577-580 | the per-type counts sum to the number of alerts |
| `FraudDetection.AdvisorSaveCheck` | server/services/fraudDetectionService.js:290-299 | a verification is saved exactly when its trimmed name and number are non-empty and no stored verification has the normalised number |
| `FraudDetection.PostSaveCheck` | server/services/fraudDetectionService.js:220-234 | a post is saved exactly when it passes the schema with its final score, its text has no suspicious element (the stored analysis's elements must cast to strings), and its (platform, postId) pair is new; a schema-valid post with elements is refused with the cast error |
| `FraudDetection.SavedPostsCarryNoSuspiciousText` | server/models/SocialMediaPost.js:62-74 | a post that can be saved contains no scam keyword, no percentage-return claim above 20 and no ten-digit number |
| `FraudDetection.FraudDetectionService.constructor` | server/services/fraudDetectionService.js:7-24 | the service starts with an empty store and event log |
| `FraudDetection.FraudDetectionService.CreateFraudAlert` | server/services/fraudDetectionService.js:510-540 | the alert is stored exactly when its fields pass the schema; it is ACTIVE, appended under the next id, and broadcast only when a broadcaster exists; on rejection nothing changes |
| `FraudDetection.FraudDetectionService.AnalyzeTextContent` | server/services/fraudDetectionService.js:29-66 | returns the analysis; exactly one TEXT_ANALYSIS alert is added when the score is above 70, with the content cut to 500 characters; the call fails exactly when that alert's source is empty |
| `FraudDetection.FraudDetectionService.AnalyzeSocialMediaPost` | server/services/fraudDetectionService.js:192-246 | the text alert rule applies; the post is stored exactly when it passes its checks, with every field of the new record stated (final score and level, text analysis, social score, creation time, no engagement, ACTIVE, no action); the result carries the final score and the social score |
| `FraudDetection.FraudDetectionService.SavePost` | server/services/fraudDetectionService.js:219-234 | on success, appends the post under the next id with every field stated: platform, id, content, final score and level, analysis, social score, creation time `now`, no engagement, ACTIVE, no action; otherwise reports the save error and changes nothing |
| `FraudDetection.FraudDetectionService.StorePost` | server/services/fraudDetectionService.js:234 | appends a post and keeps the store's invariants, including the unique (platform, postId) pairs |
| `FraudDetection.FraudDetectionService.StoreAdvisor` | server/services/fraudDetectionService.js:299 | appends a verification and keeps the store's invariants, including the unique numbers |
| `FraudDetection.FraudDetectionService.VerifyAdvisor` | server/services/fraudDetectionService.js:251-313 | returns the advisor report exactly when the verification is saved, and appends that verification under the next id with trimmed name, normalised number, registry flag, score, level, issues, default status, both dates at `now` and no actions; otherwise reports why and changes nothing |
| `FraudDetection.FraudDetectionService.SaveVerification` | server/services/fraudDetectionService.js:290-299 | the save fails exactly as the save check says; on success the new verification is appended with trimmed name, normalised number, registry flag, score, level, issues, default status, both dates at `now` and no actions |
| `FraudDetection.NewVerification` | server/services/fraudDetectionService.js:290-297 | the document built for the advisor data holds the trimmed name, normalised number, registry flag, score, level, issues, default status, both dates at `now` and no actions |
| `FraudDetection.FraudDetectionService.AnalyzeCorporateAnnouncement` | server/services/fraudDetectionService.js:334-390 | the report has the capped score, the level of the uncapped score, the issues in order and the recommendations; the text alert rule applies, with its broadcast event and the id counter's step |
| `FraudDetection.FraudDetectionService.GetFraudStatistics` | server/services/fraudDetectionService.js:545-587 | counts the alerts in the window into bands and by type, giving a type an entry only when some alert has it; the timeframe is echoed |
| `FraudDetection.CountByType` | server/services/fraudDetectionService.js:577-580 | the grouping loop gives each type that occurs its count, and no other type an entry |
| `FraudDetection.BuildAnnouncementReport` | server/services/fraudDetectionService.js:378-385 | assembles the announcement report from the scored parts |
| `FraudDetection.AssessAnnouncement` | server/services/fraudDetectionService.js:336-376 | the step-by-step announcement score and issue list equal their specifications |
| `FraudDetection.BuildAdvisorReport` | server/services/fraudDetectionService.js:251-308 | the advisor report equals its specification, with a score in [0,100] |
| `FraudDetection.StoringNewNumberKeepsUnique` | server/models/AdvisorVerification.js:141 | adding a verification with a new number keeps the numbers unique |
| `FraudDetection.ScoreSocialSignals` | server/services/fraudDetectionService.js:197-215 | the step-by-step social score equals its specification |
| `FraudDetection.CheckRegistry` | server/services/fraudDetectionService.js:318-329 | the registry loop finds the number exactly when it is listed |
| `FraudDetection.AssessAdvisor` | server/services/fraudDetectionService.js:256-288 | the step-by-step advisor score and issue list equal their specifications, with a score in [0,100] |
| `Routes.AnalyzeTextRoute` | server/routes/fraudDetection.js:44-69 | 400 and no change without content; otherwise the analysis, or 500 when the analysis fails |
| `Routes.AnalyzeSocialMediaRoute` | server/routes/fraudDetection.js:76-101 | 400 and no change without content; otherwise 200 exactly when the post is saved, carrying the final and social scores |
| `Routes.VerifyAdvisorRoute` | server/routes/fraudDetection.js:108-133 | 400 and no change without a name or number; otherwise 200 exactly when the verification is saved, carrying its score, issues and registry result |
| `Routes.AnalyzeAnnouncementRoute` | server/routes/fraudDetection.js:140-165 | 400 and no change without content; otherwise 200 with the capped score and the issues |
| `Routes.StatisticsRoute` | server/routes/fraudDetection.js:226-244 | always 200, with the band counts of the window and the timeframe, 7d by default |
| `Routes.BuildQuery` | server/routes/fraudDetection.js:253-278 | the status filter defaults to ACTIVE; there is no score condition exactly when no level name is given; a known level gives its range, and any other name the null condition; a type filter exists exactly for a non-empty type |
| `Routes.UnknownLevelMatchesNothing` | server/routes/fraudDetection.js:262-273 | a non-empty level name outside the five selects no alert |
| `Routes.LevelFilterAgreesWithBands` | server/routes/fraudDetection.js:265-274 | filtering by a level keeps exactly the alerts whose score `getRiskLevel` puts in that level |
| `Routes.Matching` | server/routes/fraudDetection.js:280 | keeps exactly the stored alerts that match the query |
| `Routes.PageCount` | server/routes/fraudDetection.js:295 | the page count is the ceiling of total over limit, and there is none for a limit of 0 |
| `Routes.PageOf` | server/routes/fraudDetection.js:282-283 | a page is the consecutive run of ranked entries starting after the skipped ones; it holds all the rest for a limit of 0, and otherwise `abs(limit)` entries or the rest when fewer remain |
| `Routes.RankedMatching` | server/routes/fraudDetection.js:280-281 | the matching alerts, newest first: a permutation of the matches, so every matching alert is present, each as often as it matches |
| `Routes.ListAlerts` | server/routes/fraudDetection.js:251-308 | 500 exactly when the skip is negative; otherwise only matching alerts, newest first, at most `limit`, with the page, page count and total of all matches |
| `Routes.EveryEntryOnSomePage` | server/routes/fraudDetection.js:282-295 | with a positive limit every matching alert appears on some page within the page count |
| `Routes.FindAlert` | server/routes/fraudDetection.js:328 | finds the alert with the id, or reports that none has it |
| `Routes.UpdateAlertStatusRoute` | server/routes/fraudDetection.js:315-351 | 400 and no change for a status outside the four; 404 and no change for an unknown id; otherwise that alert alone gets the status, the caller as reviewer, the notes and the time |
| `Routes.ReportRoute` | server/routes/fraudDetection.js:358-412 | 400 and no change without a type or description; otherwise the text alert rule applies and the response is 500, because the `USER_REPORT` alert fails the type check |
| `AlertContext.OnFraudAlert` | client/src/context/AlertContext.js:37-39 | the new alert comes first, followed by the older ones, keeping at most 100 |
| `AlertContext.AddAlert` | client/src/context/AlertContext.js:52-54 | the new alert comes first and the list grows by exactly one, with no cap |
| `AlertContext.RemoveAlert` | client/src/context/AlertContext.js:56-58 | removing never lengthens the list |
| `AlertContext.RemoveAlertMembers` | client/src/context/AlertContext.js:56-58 | after removal the list holds exactly the earlier alerts with a different id |
| `AlertContext.RemoveAlertKeepsOrder` | client/src/context/AlertContext.js:56-58 | removal distributes over concatenation, so the survivors keep their order |
| `AlertContext.RemoveAlertIdempotent` | client/src/context/AlertContext.js:56-58 | removing the same id twice is the same as once |
| `AlertContext.RemoveAbsentIdChangesNothing` | client/src/context/AlertContext.js:56-58 | removing an id no alert has leaves the list unchanged |
| `AlertContext.RemoveUndoesAdd` | client/src/context/AlertContext.js:52-58 | removing a just-added alert's id gives the same as removing it from the earlier list |
| `AlertContext.ReceiveAllKeepsLatest` | client/src/context/AlertContext.js:37-39 | after a stream of events the list is the newest 100 of them and the older alerts, newest first |
| `AlertContext.LiveListStaysBounded` | client/src/context/AlertContext.js:37-39 | a list of at most 100 stays at most 100 however many events arrive |
| `AlertContext.AlertProvider.constructor` | client/src/context/AlertContext.js:15 | the list starts empty |
| `AlertContext.AlertProvider.ReceiveFraudAlert` | client/src/context/AlertContext.js:37-39 | the held list becomes the socket update of the old one |
| `AlertContext.AlertProvider.Add` | client/src/context/AlertContext.js:52-54 | the held list becomes the old one with the alert prepended |
| `AlertContext.AlertProvider.Remove` | client/src/context/AlertContext.js:56-58 | the held list becomes the old one without that id |
| `AlertContext.AlertProvider.Clear` | client/src/context/AlertContext.js:60-62 | the held list becomes empty |

## Where the code and its description differ

The model follows the code in each of these cases.

- **Report route.** The route creates an alert of type `USER_REPORT`
  (server/routes/fraudDetection.js:379-393). `FraudAlert`'s type enum does
  not list that value (server/models/FraudAlert.js:7-15). The save is
  rejected, so a well-formed report always ends in a 500 response.
  - A high-risk description first creates its `TEXT_ANALYSIS` alert, which
    stays stored.
  - So the two alerts a high-risk report is meant to leave never both exist.
- **Advisor registry.** The registry check compares the number exactly as
  given, case and spaces included (server/services/fraudDetectionService.js:328).
  The record stores the number trimmed and upper-cased. So
  `john_doe_ia_001` counts as unregistered (50 risk points), yet it is
  stored as `JOHN_DOE_IA_001`.
- **Announcement level.** The announcement's risk level is taken from the
  uncapped score (server/services/fraudDetectionService.js:380). The
  recommendations also use the uncapped score. The reported score is capped
  at 100. `ServiceRules.AnnouncementCapKeepsLevel` shows that the cap
  changes neither the level nor the warning block.
- **Unique registration numbers.** Verifying the same registration number
  twice fails on the unique index (server/models/AdvisorVerification.js:141).
  The route then answers 500.
- **Social-media post analysis.** The post schema declares each
  `analysis.suspiciousElements` entry with a `type` key
  (server/models/SocialMediaPost.js:63-70). Mongoose reads that key as the
  entry's type, so the field is an array of strings. The service stores
  the text analysis there, and its elements are objects
  (server/services/fraudDetectionService.js:220-234). Such an object does not
  cast to a string, so the save fails. Any post whose text yields a
  suspicious element, for example a Twitter post saying "guaranteed
  returns", gets a 500 response and is not stored. A text-analysis alert it
  raised stays stored. `FraudDetection.PostSaveCheck` refuses such a post
  with `SuspiciousElementsNotStrings`. `FraudDetection.SavedPostsCarryNoSuspiciousText`
  states what a stored post's text therefore lacks.

## Left out

- **Storage.** Mongoose `save`, `find`, `aggregate`, `populate`,
  `countDocuments` and index creation are storage I/O. The collections are
  in-memory sequences.
  - A save fails only on the schema checks and unique indexes the model
    states.
  - Database and network failures are not modelled.
- **Socket.io.** The transport and the client's socket set-up are not
  modelled. A broadcast is an entry appended to the event log.
- **Exchange verification.** `verifyWithExchange` draws a random number. Its
  verdict is a parameter.
- **Document analysis.** The document-analysis route and its upload
  handling are random and file-system bound, and are not modelled.
- **Clock and time zone.** The time (`new Date()`, `Date.now()`) is a
  parameter. So is the announcement's local hour, which is absent for an
  invalid date. The statistics window is "now" minus a fixed number of
  milliseconds, so daylight-saving shifts of `setDate` are not modelled.
- **Regex state.** The `g`-flagged manipulation regexes live on the shared
  service object (server/services/fraudDetectionService.js:16-23). Each
  `test` (line 84) advances their `lastIndex`, and a later call on other
  content can start mid-string and miss a match. The model checks "occurs
  anywhere", the behaviour of a fresh expression. The contact regexes are
  made afresh on every call (lines 117-123), so they carry no state.
- **Inherited level names.** `FraudAlerts.GetByRiskLevel` and
  `Routes.BuildQuery` look the level name up in an object literal. A name
  it inherits, such as `constructor` or `toString`, yields a function, the
  score cast fails, and the query is rejected (a 500 response on the
  route). The model treats such a name like any other unknown name, which
  selects nothing.
- **String length.** JavaScript measures strings in UTF-16 code units. The
  model measures them in characters (Unicode scalar values). A character
  outside the Basic Multilingual Plane, such as an emoji, counts 2 in the
  source and 1 here. This affects the 500-character alert excerpt and the
  2000 and 5000 `maxlength` bounds on alert and post content. Text made of
  such characters is cut later and accepted at greater lengths than in the
  source.
- **Case mapping.** Case mapping and case-insensitive matching cover ASCII
  letters only. Unicode case folding of other letters is not modelled.
- **Floating point.**
  - `engagementRate` is computed in exact reals.
  - The `$avg` aggregates of the alert and verification statistics are not
    modelled.
  - Number values in the inputs are whole numbers. A fractional
    `promisedReturns`, `claimedGrowth`, score or count is not modelled.
- **Request values.** Page, limit and the other request values are
  integers. The string-to-number coercions of query parameters are not
  modelled.
- **Not modelled at all:**
  - password hashing (bcrypt) and token checks (JWT), which are foreign
    crypto calls;
  - the `User.getStatistics` aggregation pipeline;
  - logging;
  - all React pages and presentation helpers.
- **Record and response fields.** Record fields no modelled operation reads
  or writes are omitted, for example author, contact details, reviews and
  report details. Response envelopes (`success`, messages) are reduced to
  the response kind and its data.
- `Text.Trim`: states that the result is a slice without white space at
  either end, but not that the slice is the longest such one. `Trim` is
  defined as a composition of `TrimStart` and `TrimEnd`, whose contracts
  state which prefix and suffix are dropped.
- `Patterns.ScanFrom`: states that every reported span is a greedy match
  inside the text, but not that no match is skipped. Leftmost,
  non-overlapping scanning is the function's definition.
- `Users.NormalizeEmail`: states lower case and length. Its definition is
  trimming followed by lower-casing, and `Users.FindByEmailIgnoresCase`
  uses it.
- `AdvisorVerifications.NormalizeRegistration`: states upper case, no
  white space at either end, and length. Its definition is trimming
  followed by upper-casing.
- `AlertContext.RemoveAlert`: bounds only the length. Membership and order
  are stated by `AlertContext.RemoveAlertMembers` and
  `AlertContext.RemoveAlertKeepsOrder`.
- `Routes.ListAlerts`: states membership, order, size and pagination, but
  not which slice of the ranked matches the page is.
  `Routes.EveryEntryOnSomePage` states where each entry appears.
- `Routes.StatisticsRoute`: states the band counts and the timeframe. The
  per-type counts are stated by
  `FraudDetection.FraudDetectionService.GetFraudStatistics`.
- `Routes.AnalyzeSocialMediaRoute`: states the response. The store and
  alert effects are stated by
  `FraudDetection.FraudDetectionService.AnalyzeSocialMediaPost`.
- `Routes.VerifyAdvisorRoute`: states the score, issues and registry
  result of the response. The level, recommendations and stored record
  are stated by `FraudDetection.FraudDetectionService.VerifyAdvisor`.
- `Routes.AnalyzeAnnouncementRoute`: states the score and issues of the
  response. The full report is stated by
  `FraudDetection.FraudDetectionService.AnalyzeCorporateAnnouncement`.
- `AdvisorVerifications.GetVerificationStats`: states the total and that
  registered plus unregistered makes it up. Each individual count is its
  definition.
