/**
 * The stored advisor verification (server/models/AdvisorVerification.js):
 * the record with its issue and status updates and the pre-save level,
 * the normalisation of names and registration numbers, and the queries
 * over the collection of verifications.
 */
module AdvisorVerifications {
  import opened Wrappers
  import opened Text
  import opened RiskLevels
  import opened Analysis
  import opened Ranking

  datatype VerificationStatus = Verified | Unverified | Suspicious | Blacklisted | UnderReview

  datatype ActionKind = WarningIssued | InvestigationStarted | ReportedToSebi | ActionBlacklisted | Cleared

  /** One entry of `actionsTaken`. */
  datatype Action = Action(action: ActionKind, date: int, notes: Option<string>, takenBy: Option<nat>)

  /** The default status: unregistered advisors are unverified, registered ones suspicious from 80. */
  function DefaultStatus(isRegistered: bool, riskScore: int): (s: VerificationStatus)
    ensures s == Unverified <==> !isRegistered
    ensures s == Suspicious <==> isRegistered && riskScore >= 80
    ensures s == Verified <==> isRegistered && riskScore < 80
  {
    if !isRegistered then Unverified
    else if riskScore >= 80 then Suspicious
    else Verified
  }

  /** The stored form of a registration number: trimmed, then upper-cased. */
  function NormalizeRegistration(registrationNumber: string): (r: string)
    ensures IsUpper(r) && |r| <= |registrationNumber|
    ensures |r| > 0 ==> !IsSpace(r[0]) && !IsSpace(r[|r| - 1])
  {
    var t := Trim(registrationNumber);
    UpperIsUpper(t);
    assert |t| > 0 ==> !IsSpace(Upper(t)[0]) && !IsSpace(Upper(t)[|t| - 1]) by {
      if |t| > 0 {
        UpperCharKeepsSpace(t[0]);
        UpperCharKeepsSpace(t[|t| - 1]);
      }
    }
    Upper(t)
  }

  /** Normalising a stored number again changes nothing. */
  lemma NormalizeRegistrationIdempotent(registrationNumber: string)
    ensures NormalizeRegistration(NormalizeRegistration(registrationNumber)) == NormalizeRegistration(registrationNumber)
  {
    var r := NormalizeRegistration(registrationNumber);
    TrimOfTrimmed(r);
    assert Upper(r) == r;
  }

  /** A string with no space at either end is its own trim. */
  lemma TrimOfTrimmed(s: string)
    requires |s| > 0 ==> !IsSpace(s[0]) && !IsSpace(s[|s| - 1])
    ensures Trim(s) == s
  {
  }

  const ThirtyDaysMs := 30 * 24 * 60 * 60 * 1000

  /** One stored verification. */
  class AdvisorVerification {
    const id: nat
    const advisorName: string
    const registrationNumber: string
    const isRegistered: bool
    const verificationDate: int
    var riskScore: int
    var riskLevel: RiskLevel
    var issues: seq<AdvisorIssue>
    var status: VerificationStatus
    var actionsTaken: seq<Action>
    var lastUpdated: int

    /** What every saved verification satisfies. */
    predicate Valid()
      reads this
    {
      0 <= riskScore <= 100 && riskLevel == GetRiskLevel(riskScore)
      && |advisorName| > 0 && |registrationNumber| > 0 && IsUpper(registrationNumber)
    }

    /**
     * A saved verification as `verifyAdvisor` builds it: name and number
     * normalised, status by the default, level by the pre-save hook.
     */
    constructor(id: nat, advisorName: string, registrationNumber: string, isRegistered: bool,
                riskScore: int, issues: seq<AdvisorIssue>, verificationDate: int)
      requires 0 <= riskScore <= 100
      requires |Trim(advisorName)| > 0 && |Trim(registrationNumber)| > 0
      ensures Valid()
      ensures this.id == id && this.advisorName == Trim(advisorName)
      ensures this.registrationNumber == NormalizeRegistration(registrationNumber)
      ensures this.isRegistered == isRegistered && this.riskScore == riskScore && this.issues == issues
      ensures this.verificationDate == verificationDate && lastUpdated == verificationDate
      ensures status == DefaultStatus(isRegistered, riskScore)
      ensures riskLevel == GetRiskLevel(riskScore) && actionsTaken == []
    {
      this.id := id;
      this.advisorName := Trim(advisorName);
      this.registrationNumber := NormalizeRegistration(registrationNumber);
      this.isRegistered := isRegistered;
      this.verificationDate := verificationDate;
      this.riskScore := riskScore;
      this.riskLevel := GetRiskLevel(riskScore);
      this.issues := issues;
      this.status := DefaultStatus(isRegistered, riskScore);
      this.actionsTaken := [];
      this.lastUpdated := verificationDate;
    }

    /** The pre-save hook: the level follows the score in the five bands. */
    method PreSave()
      modifies this
      ensures riskLevel == GetRiskLevel(riskScore)
      ensures riskScore == old(riskScore) && issues == old(issues) && status == old(status)
      ensures actionsTaken == old(actionsTaken) && lastUpdated == old(lastUpdated)
    {
      if riskScore >= 80 {
        riskLevel := Critical;
      } else if riskScore >= 60 {
        riskLevel := High;
      } else if riskScore >= 40 {
        riskLevel := Medium;
      } else if riskScore >= 20 {
        riskLevel := Low;
      } else {
        riskLevel := Minimal;
      }
    }

    /**
     * `addIssue`: appends the issue, raises the score by 20 up to 100,
     * stamps the update and saves, which recomputes the level.
     */
    method AddIssue(issue: AdvisorIssue, now: int)
      requires Valid()
      modifies this
      ensures Valid()
      ensures issues == old(issues) + [issue]
      ensures riskScore == Min(old(riskScore) + 20, 100)
      ensures riskLevel == GetRiskLevel(riskScore) && lastUpdated == now
      ensures status == old(status) && actionsTaken == old(actionsTaken)
    {
      issues := issues + [issue];
      riskScore := Min(riskScore + 20, 100);
      lastUpdated := now;
      PreSave();
    }

    /**
     * `updateStatus`: sets the status, records the action when one is
     * given, stamps the update and saves.
     */
    method UpdateStatus(newStatus: VerificationStatus, actionData: Option<Action>, now: int)
      requires Valid()
      modifies this
      ensures Valid()
      ensures status == newStatus && lastUpdated == now
      ensures actionsTaken == old(actionsTaken) + (if actionData.Some? then [actionData.value] else [])
      ensures riskScore == old(riskScore) && riskLevel == old(riskLevel) && issues == old(issues)
    {
      status := newStatus;
      if actionData.Some? {
        actionsTaken := actionsTaken + [actionData.value];
      }
      lastUpdated := now;
      PreSave();
    }

    /** The `needsReverification` virtual: verified more than thirty days before `now`. */
    predicate NeedsReverification(now: int)
    {
      verificationDate < now - ThirtyDaysMs
    }
  }

  /**
   * A verification falls due exactly once more than thirty days have
   * passed, and stays due from then on.
   */
  lemma ReverificationFallsDue(a: AdvisorVerification, now: int, later: int)
    requires now <= later
    ensures !a.NeedsReverification(a.verificationDate + ThirtyDaysMs)
    ensures a.NeedsReverification(a.verificationDate + ThirtyDaysMs + 1)
    ensures a.NeedsReverification(now) ==> a.NeedsReverification(later)
  {
  }

  /** Adding an issue never lowers the score and never takes it above 100. */
  lemma AddIssueScoreBounds(score: int)
    requires 0 <= score <= 100
    ensures score <= Min(score + 20, 100) <= 100
    ensures Min(score + 20, 100) == 100 <==> score >= 80
  {
  }

  // ---------------------------------------------------------------------
  // Queries over the collection

  /** The unique index: no two stored verifications share a number. */
  predicate UniqueRegistrations(advisors: seq<AdvisorVerification>)
  {
    forall i, j :: 0 <= i < j < |advisors| ==> advisors[i].registrationNumber != advisors[j].registrationNumber
  }

  /** The stored verification with exactly this number, if any. */
  function FindStored(advisors: seq<AdvisorVerification>, number: string): (r: Option<AdvisorVerification>)
    ensures r.Some? ==> r.value in advisors && r.value.registrationNumber == number
    ensures r.None? ==> forall a :: a in advisors ==> a.registrationNumber != number
  {
    if advisors == [] then None
    else if advisors[0].registrationNumber == number then Some(advisors[0])
    else
      var r := FindStored(advisors[1..], number);
      assert forall a :: a in advisors ==> a == advisors[0] || a in advisors[1..];
      r
  }

  /**
   * `findByRegistration`: looks up the upper-cased query. Casting the
   * query value applies the schema's setters to it as well, so it is also
   * trimmed: the lookup is by the query's normal form.
   */
  function FindByRegistration(advisors: seq<AdvisorVerification>, registrationNumber: string)
    : (r: Option<AdvisorVerification>)
    ensures r.Some? ==> r.value in advisors && r.value.registrationNumber == NormalizeRegistration(registrationNumber)
    ensures r.None? ==> forall a :: a in advisors ==> a.registrationNumber != NormalizeRegistration(registrationNumber)
  {
    UpperedNormalizesAlike(registrationNumber);
    FindStored(advisors, NormalizeRegistration(Upper(registrationNumber)))
  }

  /** Upper-casing first does not change a number's normal form. */
  lemma UpperedNormalizesAlike(registrationNumber: string)
    ensures NormalizeRegistration(Upper(registrationNumber)) == NormalizeRegistration(registrationNumber)
  {
    TrimUpper(registrationNumber);
    UpperIsUpper(Trim(registrationNumber));
  }

  /**
   * A saved verification is found again by any query with the normal form
   * of the number it was saved with: that number itself, padded with
   * white space or in any letter case.
   */
  lemma FindSavedRegistration(advisors: seq<AdvisorVerification>, a: AdvisorVerification, given: string, query: string)
    requires a in advisors && UniqueRegistrations(advisors)
    requires a.registrationNumber == NormalizeRegistration(given)
    requires NormalizeRegistration(query) == NormalizeRegistration(given)
    ensures FindByRegistration(advisors, query) == Some(a)
  {
    var r := FindByRegistration(advisors, query);
    var i :| 0 <= i < |advisors| && advisors[i] == a;
    var j :| 0 <= j < |advisors| && advisors[j] == r.value;
    assert i == j;
  }

  /** Trimming drops one space at each end of a text that has no white space at its ends. */
  lemma TrimDropsPadding(inner: string)
    requires |inner| > 0 && !IsSpace(inner[0]) && !IsSpace(inner[|inner| - 1])
    ensures Trim(" " + inner + " ") == inner
  {
    var padded, tail := " " + inner + " ", inner + " ";
    assert padded[1..] == tail && tail[0] == inner[0];
    assert TrimStart(tail) == tail;
    assert TrimStart(padded) == tail;
    assert tail[..|tail| - 1] == inner && tail[|tail| - 1] == ' ';
    assert TrimEnd(inner) == inner;
    assert TrimEnd(tail) == inner;
  }

  /** Trimming drops the single space at each end of the padded number. */
  lemma PaddedNumberTrims()
    ensures Trim(" john_doe_ia_001 ") == "john_doe_ia_001"
  {
    var inner := "john_doe_ia_001";
    assert " john_doe_ia_001 " == " " + inner + " ";
    TrimDropsPadding(inner);
  }

  /** Upper-casing turns the lower-case number into the stored upper-case one. */
  lemma LowerNumberUppers()
    ensures Upper("john_doe_ia_001") == "JOHN_DOE_IA_001"
  {
  }

  /** The normal form of a padded, lower-case number. */
  lemma PaddedNumberNormalizes()
    ensures NormalizeRegistration(" john_doe_ia_001 ") == "JOHN_DOE_IA_001"
  {
    PaddedNumberTrims();
    LowerNumberUppers();
  }

  /** A number given with surrounding spaces and in lower case finds the stored upper-case number. */
  lemma PaddedQueryFinds(advisors: seq<AdvisorVerification>, a: AdvisorVerification)
    requires a in advisors && UniqueRegistrations(advisors)
    requires a.registrationNumber == "JOHN_DOE_IA_001"
    ensures FindByRegistration(advisors, " john_doe_ia_001 ") == Some(a)
  {
    PaddedNumberNormalizes();
    FindSavedRegistration(advisors, a, " john_doe_ia_001 ", " john_doe_ia_001 ");
  }

  /** `$or: [SUSPICIOUS status, score at least 60]`. */
  predicate IsSuspicious(a: AdvisorVerification)
    reads a
  {
    a.status == Suspicious || a.riskScore >= 60
  }

  /** A verification paired with its sort key as the query reads them. */
  datatype Ranked = Ranked(advisor: AdvisorVerification, key: Key)

  function RankKey(r: Ranked): Key { r.key }

  /** The suspicious verifications with their keys (score, then verification date). */
  function SuspiciousRows(advisors: seq<AdvisorVerification>): (r: seq<Ranked>)
    reads advisors
    ensures forall x :: x in r ==>
      (x.advisor in advisors && IsSuspicious(x.advisor)
       && x.key == Key(x.advisor.riskScore, x.advisor.verificationDate))
    ensures forall a :: a in advisors && IsSuspicious(a) ==> exists x :: x in r && x.advisor == a
  {
    if advisors == [] then []
    else
      var init := SuspiciousRows(advisors[..|advisors| - 1]);
      var last := advisors[|advisors| - 1];
      assert advisors == advisors[..|advisors| - 1] + [last];
      if IsSuspicious(last) then
        var r := init + [Ranked(last, Key(last.riskScore, last.verificationDate))];
        assert r[|r| - 1] in r;
        r
      else init
  }

  function Advisors(rows: seq<Ranked>): (r: seq<AdvisorVerification>)
    ensures |r| == |rows| && forall i :: 0 <= i < |r| ==> r[i] == rows[i].advisor
  {
    if rows == [] then [] else Advisors(rows[..|rows| - 1]) + [rows[|rows| - 1].advisor]
  }

  /** The suspicious rows, ranked by key and limited. */
  function RankSuspicious(advisors: seq<AdvisorVerification>, limit: int): (r: seq<Ranked>)
    reads advisors
    ensures forall x :: x in r ==> x in SuspiciousRows(advisors)
    ensures SortedDesc(r, RankKey)
    ensures limit > 0 ==> |r| <= limit
    ensures limit == 0 ==> multiset(r) == multiset(SuspiciousRows(advisors))
    ensures r <= SortDesc(SuspiciousRows(advisors), RankKey)
    ensures |r| == LimitedCount(limit, |SuspiciousRows(advisors)|)
  {
    var rows := SuspiciousRows(advisors);
    var sorted := SortDesc(rows, RankKey);
    forall x | x in sorted ensures x in rows {
      SortedMember(rows, RankKey, x);
    }
    LimitKeepsOrder(sorted, RankKey, limit);
    Limit(sorted, limit)
  }

  /**
   * `getSuspiciousAdvisors`: the verifications with status SUSPICIOUS or a
   * score of at least 60, highest score first and then newest, at most
   * `limit` of them (10 by default).
   */
  function GetSuspiciousAdvisors(advisors: seq<AdvisorVerification>, limit: Option<int>): (r: seq<AdvisorVerification>)
    reads advisors
    ensures forall a :: a in r ==> a in advisors && IsSuspicious(a)
    ensures forall i, j :: 0 <= i < j < |r| ==>
      KeyGeq(Key(r[i].riskScore, r[i].verificationDate), Key(r[j].riskScore, r[j].verificationDate))
    ensures LimitOrDefault(limit) > 0 ==> |r| <= LimitOrDefault(limit)
    ensures limit.None? ==> |r| <= DefaultQueryLimit
    ensures limit == Some(0) ==> forall a :: a in advisors && IsSuspicious(a) ==> a in r
    ensures r <= Advisors(SortDesc(SuspiciousRows(advisors), RankKey))
    ensures |r| == LimitedCount(LimitOrDefault(limit), |SuspiciousRows(advisors)|)
  {
    var n := LimitOrDefault(limit);
    RankedAdvisorsSuspicious(advisors, n);
    RankedAdvisorsOrdered(advisors, n);
    AdvisorsPrefix(SortDesc(SuspiciousRows(advisors), RankKey), |RankSuspicious(advisors, n)|);
    if n == 0 then
      RankedAdvisorsComplete(advisors);
      Advisors(RankSuspicious(advisors, n))
    else Advisors(RankSuspicious(advisors, n))
  }

  lemma AdvisorsPrefix(rows: seq<Ranked>, k: nat)
    requires k <= |rows|
    ensures Advisors(rows[..k]) == Advisors(rows)[..k]
  {
    assert forall i :: 0 <= i < k ==> Advisors(rows[..k])[i] == Advisors(rows)[..k][i];
  }

  lemma RankedAdvisorsSuspicious(advisors: seq<AdvisorVerification>, limit: int)
    ensures forall a :: a in Advisors(RankSuspicious(advisors, limit)) ==> a in advisors && IsSuspicious(a)
  {
    var kept := RankSuspicious(advisors, limit);
    var r := Advisors(kept);
    forall a | a in r ensures a in advisors && IsSuspicious(a) {
      var i :| 0 <= i < |r| && r[i] == a;
      assert kept[i] in kept;
    }
  }

  lemma RankedAdvisorsOrdered(advisors: seq<AdvisorVerification>, limit: int)
    ensures var r := Advisors(RankSuspicious(advisors, limit));
      forall i, j :: 0 <= i < j < |r| ==>
        KeyGeq(Key(r[i].riskScore, r[i].verificationDate), Key(r[j].riskScore, r[j].verificationDate))
  {
    var kept := RankSuspicious(advisors, limit);
    var r := Advisors(kept);
    forall i, j | 0 <= i < j < |r|
      ensures KeyGeq(Key(r[i].riskScore, r[i].verificationDate), Key(r[j].riskScore, r[j].verificationDate))
    {
      assert kept[i] in kept && kept[j] in kept;
    }
  }

  lemma RankedAdvisorsComplete(advisors: seq<AdvisorVerification>)
    ensures forall a :: a in advisors && IsSuspicious(a) ==> a in Advisors(RankSuspicious(advisors, 0))
  {
    var kept := RankSuspicious(advisors, 0);
    var r := Advisors(kept);
    forall a | a in advisors && IsSuspicious(a) ensures a in r {
      var x :| x in SuspiciousRows(advisors) && x.advisor == a;
      assert x in multiset(SuspiciousRows(advisors));
      assert x in multiset(kept);
      var k :| 0 <= k < |kept| && kept[k] == x;
      assert r[k] == a;
    }
  }

  /** The counts `getVerificationStats` groups, without the average score. */
  datatype VerificationStats = VerificationStats(totalVerifications: nat, registeredAdvisors: nat,
                                                 unregisteredAdvisors: nat, suspiciousAdvisors: nat)

  function CountStats(advisors: seq<AdvisorVerification>): VerificationStats
    reads advisors
  {
    if advisors == [] then VerificationStats(0, 0, 0, 0)
    else
      var s := CountStats(advisors[..|advisors| - 1]);
      var a := advisors[|advisors| - 1];
      VerificationStats(s.totalVerifications + 1,
                        s.registeredAdvisors + (if a.isRegistered then 1 else 0),
                        s.unregisteredAdvisors + (if a.isRegistered then 0 else 1),
                        s.suspiciousAdvisors + (if a.status == Suspicious then 1 else 0))
  }

  /** Every verification is either registered or not, and at most all are suspicious. */
  lemma {:induction false} StatsPartition(advisors: seq<AdvisorVerification>)
    ensures var s := CountStats(advisors);
      s.totalVerifications == |advisors|
      && s.registeredAdvisors + s.unregisteredAdvisors == s.totalVerifications
      && s.suspiciousAdvisors <= s.totalVerifications
    decreases |advisors|
  {
    if advisors != [] {
      StatsPartition(advisors[..|advisors| - 1]);
    }
  }

  /** `getVerificationStats`: one grouped document, or none for an empty collection. */
  function GetVerificationStats(advisors: seq<AdvisorVerification>): (r: Option<VerificationStats>)
    reads advisors
    ensures r.None? <==> advisors == []
    ensures r.Some? ==>
      (r.value.totalVerifications == |advisors|
       && r.value.registeredAdvisors + r.value.unregisteredAdvisors == |advisors|)
  {
    StatsPartition(advisors);
    if advisors == [] then None else Some(CountStats(advisors))
  }
}
