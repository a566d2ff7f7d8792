/**
 * The rule-based text scorer and the suspicious-element extractor of the
 * fraud detection service. The rule lists are the service's fixed
 * configuration; every score is additive over them and capped at 100.
 */
module TextScoring {
  import opened Text
  import opened Patterns
  import opened Wrappers
  import opened Analysis

  const SuspiciousKeywords: seq<string> := [
    "guaranteed returns", "risk-free investment", "double your money",
    "insider information", "hot tip", "sure shot", "limited time offer",
    "exclusive deal", "secret formula", "get rich quick", "no risk",
    "instant profit", "guaranteed profit", "easy money", "quick money"]

  const UrgencyWords: seq<string> := ["urgent", "hurry", "limited time", "act now", "today only"]

  /** `/buy\s+now/gi` and the five other market-manipulation expressions, in list order. */
  const ManipulationPatterns: seq<Pattern> := [
    [Lit("buy"), Blank, Lit("now")],
    [Lit("sell"), Blank, Lit("immediately")],
    [Lit("target"), Blank, Lit("price"), Blank, Digits],
    [Lit("book"), Blank, Lit("profit")],
    [Lit("stop"), Blank, Lit("loss")],
    [Lit("breakout"), Blank, Lit("expected")]]

  /** `/\d+%\s+return/gi` */
  const PercentReturn: Pattern := [Digits, Lit("%"), Blank, Lit("return")]
  /** `/\d+x\s+return/gi` */
  const MultipleReturn: Pattern := [Digits, Lit("x"), Blank, Lit("return")]
  /** `/\d+\s+times\s+profit/gi` */
  const TimesProfit: Pattern := [Digits, Blank, Lit("times"), Blank, Lit("profit")]

  const UnrealisticPatterns: seq<Pattern> := [PercentReturn, MultipleReturn, TimesProfit]

  /** `/\d{10}/`; a match of `/\+?\d{10,}/` exists exactly when this one does. */
  const TenDigits: Pattern := [Digit, Digit, Digit, Digit, Digit, Digit, Digit, Digit, Digit, Digit]

  /** `/whatsapp/gi`, `/telegram/gi`, `/\+\d{10,}/g`, `/\d{10}/g`, `/contact\s+me/gi`. */
  const ContactPatterns: seq<Pattern> := [
    [Lit("whatsapp")], [Lit("telegram")], [Lit("+")] + TenDigits, TenDigits,
    [Lit("contact"), Blank, Lit("me")]]

  const KeywordWeight := 15
  const ManipulationWeight := 10
  const UrgencyWeight := 8
  const ContactWeight := 12

  /** One match of a return pattern and the number it starts with. */
  datatype ReturnMatch = ReturnMatch(text: string, number: nat)

  /** The number a match starts with: `parseInt(match.match(/\d+/)[0])`. */
  function LeadingNumber(s: string, i: nat): nat
    requires i <= |s|
  {
    var e := RunEnd(s, i, true);
    var d := s[i..e];
    assert forall k :: 0 <= k < |d| ==> IsDigit(d[k]) by {
      forall k | 0 <= k < |d| ensures IsDigit(d[k]) { assert d[k] == s[i + k]; }
    }
    DigitsValue(d)
  }

  /** `content.match(p)` for a global, case-insensitive return pattern. */
  function ReturnMatches(content: string, p: Pattern): seq<ReturnMatch>
  {
    var lc := Lower(content);
    var spans := ScanFrom(lc, 0, p);
    seq(|spans|, k requires 0 <= k < |spans| =>
      ReturnMatch(content[spans[k].start..spans[k].end], LeadingNumber(lc, spans[k].start)))
  }

  /** How many of `words` occur in `lc`, each counted once. */
  function ContainedCount(lc: string, words: seq<string>): (n: nat)
    ensures n <= |words|
  {
    if words == [] then 0
    else
      ContainedCount(lc, words[..|words| - 1]) + (if Contains(lc, words[|words| - 1]) then 1 else 0)
  }

  /** How many of `patterns` match somewhere in `lc`, each counted once. */
  function OccurringCount(lc: string, patterns: seq<Pattern>): (n: nat)
    ensures n <= |patterns|
  {
    if patterns == [] then 0
    else
      OccurringCount(lc, patterns[..|patterns| - 1]) + (if Occurs(lc, patterns[|patterns| - 1]) then 1 else 0)
  }

  /** The bonus of one return match. */
  function ReturnBonus(n: nat): nat
  {
    if n > 50 then 20 else if n > 20 then 15 else if n > 10 then 10 else 0
  }

  /** The bonuses of a list of return matches, summed. */
  function ReturnPoints(ms: seq<ReturnMatch>): nat
  {
    if ms == [] then 0 else ReturnBonus(ms[0].number) + ReturnPoints(ms[1..])
  }

  /** The return bonuses of all matches of each of `patterns`. */
  function PatternReturnPoints(content: string, patterns: seq<Pattern>): nat
  {
    if patterns == [] then 0
    else
      var last := ReturnMatches(content, patterns[|patterns| - 1]);
      PatternReturnPoints(content, patterns[..|patterns| - 1]) + ReturnPoints(last)
  }

  /** The uncapped sum of every rule's contribution. */
  function RawTextScore(content: string): nat
  {
    var lc := Lower(content);
    KeywordWeight * ContainedCount(lc, SuspiciousKeywords)
    + ManipulationWeight * OccurringCount(lc, ManipulationPatterns)
    + UrgencyWeight * ContainedCount(lc, UrgencyWords)
    + PatternReturnPoints(content, UnrealisticPatterns)
    + ContactWeight * OccurringCount(lc, ContactPatterns)
  }

  /** `calculateTextRiskScore`: the rule sum capped at 100. */
  function TextRiskScore(content: string): (r: nat)
    ensures r <= 100
    ensures RawTextScore(content) < 100 ==> r == RawTextScore(content)
    ensures RawTextScore(content) >= 100 ==> r == 100
  {
    Min(RawTextScore(content), 100)
  }

  lemma {:induction false} ReturnPointsAppend(a: seq<ReturnMatch>, b: seq<ReturnMatch>)
    ensures ReturnPoints(a + b) == ReturnPoints(a) + ReturnPoints(b)
    decreases |a|
  {
    if a != [] {
      assert (a + b)[1..] == a[1..] + b;
      ReturnPointsAppend(a[1..], b);
    } else {
      assert a + b == b;
    }
  }

  /**
   * Every return match earns its own bonus, repeated matches included: a
   * list of matches seen twice earns twice the bonus.
   */
  lemma RepeatedReturnMatchesEachCount(ms: seq<ReturnMatch>)
    ensures ReturnPoints(ms + ms) == 2 * ReturnPoints(ms)
  {
    ReturnPointsAppend(ms, ms);
  }

  lemma ReturnBonusTiers()
    ensures ReturnBonus(10) == 0 && ReturnBonus(11) == 10 && ReturnBonus(20) == 10
    ensures ReturnBonus(21) == 15 && ReturnBonus(50) == 15 && ReturnBonus(51) == 20
  {
  }

  /**
   * Each keyword, manipulation, urgency and contact rule counts once however
   * often it occurs, so together they contribute at most 385 points.
   */
  lemma ExistenceRulesBounded(content: string)
    ensures var lc := Lower(content);
      KeywordWeight * ContainedCount(lc, SuspiciousKeywords) <= 225
      && ManipulationWeight * OccurringCount(lc, ManipulationPatterns) <= 60
      && UrgencyWeight * ContainedCount(lc, UrgencyWords) <= 40
      && ContactWeight * OccurringCount(lc, ContactPatterns) <= 60
  {
  }

  lemma {:induction false} ContainedCountAppend(lc: string, x: string, words: seq<string>)
    ensures ContainedCount(lc + x, words) >= ContainedCount(lc, words)
    decreases |words|
  {
    if words != [] {
      ContainedCountAppend(lc, x, words[..|words| - 1]);
      if Contains(lc, words[|words| - 1]) { ContainsAppend(lc, x, words[|words| - 1]); }
    }
  }

  lemma {:induction false} OccurringCountAppend(lc: string, x: string, patterns: seq<Pattern>)
    ensures OccurringCount(lc + x, patterns) >= OccurringCount(lc, patterns)
    decreases |patterns|
  {
    if patterns != [] {
      OccurringCountAppend(lc, x, patterns[..|patterns| - 1]);
      if Occurs(lc, patterns[|patterns| - 1]) { OccursAppend(lc, x, patterns[|patterns| - 1]); }
    }
  }

  /** Each return pattern opens with `\d+`, matches no digit after it and ends every run before a literal. */
  lemma ReturnPatternsShaped()
    ensures forall k :: 0 <= k < |UnrealisticPatterns| ==>
      Closed(UnrealisticPatterns[k]) && DigitLed(UnrealisticPatterns[k])
  {
    PercentReturnShaped();
    MultipleReturnShaped();
    TimesProfitShaped();
  }

  lemma PercentReturnShaped()
    ensures Closed(PercentReturn) && DigitLed(PercentReturn)
  {
    var p := PercentReturn;
    assert Closed(p[3..]) && Closed(p[2..]) && Closed(p[1..]);
    assert DigitFree(p[3..]) && DigitFree(p[2..]);
  }

  lemma MultipleReturnShaped()
    ensures Closed(MultipleReturn) && DigitLed(MultipleReturn)
  {
    var p := MultipleReturn;
    assert Closed(p[3..]) && Closed(p[2..]) && Closed(p[1..]);
    assert DigitFree(p[3..]) && DigitFree(p[2..]);
  }

  lemma TimesProfitShaped()
    ensures Closed(TimesProfit) && DigitLed(TimesProfit)
  {
    var p := TimesProfit;
    assert Closed(p[4..]) && Closed(p[3..]) && Closed(p[2..]) && Closed(p[1..]);
    assert DigitFree(p[4..]) && DigitFree(p[3..]) && DigitFree(p[2..]);
  }

  /**
   * A return match found inside the content keeps its text and its number
   * once text is appended: its digit run ends before the literal after it.
   */
  lemma SpanMatchAppend(content: string, extra: string, p: Pattern, start: nat, end: nat)
    requires Closed(p) && DigitLed(p) && start < end <= |content|
    requires GreedyEnd(Lower(content), start, p) == Some(end)
    ensures (content + extra)[start..end] == content[start..end]
    ensures LeadingNumber(Lower(content + extra), start) == LeadingNumber(Lower(content), start)
  {
    var lc := Lower(content);
    var r := RunEnd(lc, start, true);
    assert GreedyEnd(lc, start, p) == GreedyEnd(lc, r, p[1..]);
    GreedyEndConsumes(lc, r, p[1..]);
    LowerAppend(content, extra);
    LeadingNumberAppend(lc, Lower(extra), start);
  }

  lemma LeadingNumberAppend(s: string, x: string, i: nat)
    requires i <= |s| && RunEnd(s, i, true) < |s|
    ensures LeadingNumber(s + x, i) == LeadingNumber(s, i)
  {
    RunEndAppend(s, x, i, true);
    assert (s + x)[i..RunEnd(s, i, true)] == s[i..RunEnd(s, i, true)];
  }

  /**
   * Appending text keeps every return match of the content, with its text
   * and its number, and adds matches only after them.
   */
  lemma ReturnMatchesAppend(content: string, extra: string, p: Pattern)
    requires Closed(p) && DigitLed(p)
    ensures ReturnMatches(content, p) <= ReturnMatches(content + extra, p)
  {
    var lc := Lower(content);
    LowerAppend(content, extra);
    var spans := ScanFrom(lc, 0, p);
    var spans' := ScanFrom(Lower(content + extra), 0, p);
    ScanFromAppend(lc, Lower(extra), 0, p);
    var a := ReturnMatches(content, p);
    var b := ReturnMatches(content + extra, p);
    forall k | 0 <= k < |a|
      ensures a[k] == b[k]
    {
      assert spans'[k] == spans[k];
      SpanMatchAppend(content, extra, p, spans[k].start, spans[k].end);
    }
  }

  lemma ReturnPointsOfPrefix(a: seq<ReturnMatch>, b: seq<ReturnMatch>)
    requires a <= b
    ensures ReturnPoints(a) <= ReturnPoints(b)
  {
    assert b == a + b[|a|..];
    ReturnPointsAppend(a, b[|a|..]);
  }

  /** Appending text never lowers the return bonus of any list of return patterns. */
  lemma {:induction false} PatternReturnPointsAppend(content: string, extra: string, patterns: seq<Pattern>)
    requires forall k :: 0 <= k < |patterns| ==> Closed(patterns[k]) && DigitLed(patterns[k])
    ensures PatternReturnPoints(content + extra, patterns) >= PatternReturnPoints(content, patterns)
    decreases |patterns|
  {
    if patterns != [] {
      var last := patterns[|patterns| - 1];
      PatternReturnPointsAppend(content, extra, patterns[..|patterns| - 1]);
      ReturnMatchesAppend(content, extra, last);
      ReturnPointsOfPrefix(ReturnMatches(content, last), ReturnMatches(content + extra, last));
    }
  }

  /**
   * Appending text to the content never lowers the contribution of any
   * rule: the keyword, manipulation, urgency and contact rules, and the
   * return bonus.
   */
  lemma AppendingNeverLowersRuleCounts(content: string, extra: string)
    ensures ContainedCount(Lower(content + extra), SuspiciousKeywords) >= ContainedCount(Lower(content), SuspiciousKeywords)
    ensures OccurringCount(Lower(content + extra), ManipulationPatterns) >= OccurringCount(Lower(content), ManipulationPatterns)
    ensures ContainedCount(Lower(content + extra), UrgencyWords) >= ContainedCount(Lower(content), UrgencyWords)
    ensures OccurringCount(Lower(content + extra), ContactPatterns) >= OccurringCount(Lower(content), ContactPatterns)
    ensures PatternReturnPoints(content + extra, UnrealisticPatterns) >= PatternReturnPoints(content, UnrealisticPatterns)
  {
    LowerAppend(content, extra);
    ContainedCountAppend(Lower(content), Lower(extra), SuspiciousKeywords);
    OccurringCountAppend(Lower(content), Lower(extra), ManipulationPatterns);
    ContainedCountAppend(Lower(content), Lower(extra), UrgencyWords);
    OccurringCountAppend(Lower(content), Lower(extra), ContactPatterns);
    ReturnPatternsShaped();
    PatternReturnPointsAppend(content, extra, UnrealisticPatterns);
  }

  /**
   * Appending suspicious text to otherwise identical content never lowers
   * its score, before or after the cap at 100.
   */
  lemma AppendingNeverLowersScore(content: string, extra: string)
    ensures RawTextScore(content + extra) >= RawTextScore(content)
    ensures TextRiskScore(content + extra) >= TextRiskScore(content)
  {
    AppendingNeverLowersRuleCounts(content, extra);
  }

  lemma {:induction false} ContainedCountInEmpty(words: seq<string>)
    requires forall k :: 0 <= k < |words| ==> |words[k]| > 0
    ensures ContainedCount([], words) == 0
    decreases |words|
  {
    if words != [] {
      ContainedCountInEmpty(words[..|words| - 1]);
      assert !StartsAt([], 0, words[|words| - 1]);
    }
  }

  /** A pattern that needs at least one character to match. */
  predicate NeedsText(p: Pattern)
  {
    |p| > 0 && (p[0].Lit? ==> |p[0].text| > 0)
  }

  lemma {:induction false} OccurringCountInEmpty(patterns: seq<Pattern>)
    requires forall k :: 0 <= k < |patterns| ==> NeedsText(patterns[k])
    ensures OccurringCount([], patterns) == 0
    decreases |patterns|
  {
    if patterns != [] {
      OccurringCountInEmpty(patterns[..|patterns| - 1]);
      assert !MatchAt([], 0, patterns[|patterns| - 1]);
    }
  }

  lemma {:induction false} ReturnPointsInEmpty(patterns: seq<Pattern>)
    ensures PatternReturnPoints([], patterns) == 0
    decreases |patterns|
  {
    if patterns != [] {
      ReturnPointsInEmpty(patterns[..|patterns| - 1]);
      assert ReturnMatches([], patterns[|patterns| - 1]) == [];
    }
  }

  /** Empty content scores 0, so any content that scores is not empty. */
  lemma EmptyContentScoresZero(content: string)
    requires |content| == 0
    ensures TextRiskScore(content) == 0
  {
    assert Lower(content) == [];
    ContainedCountInEmpty(SuspiciousKeywords);
    ContainedCountInEmpty(UrgencyWords);
    OccurringCountInEmpty(ManipulationPatterns);
    OccurringCountInEmpty(ContactPatterns);
    ReturnPointsInEmpty(UnrealisticPatterns);
  }

  /** One `forEach` over a word list: `weight` for each word the text includes. */
  method ScoreWords(lowerContent: string, words: seq<string>, weight: nat) returns (points: nat)
    ensures points == weight * ContainedCount(lowerContent, words)
  {
    points := 0;
    for i := 0 to |words|
      invariant points == weight * ContainedCount(lowerContent, words[..i])
    {
      assert words[..i + 1][..i] == words[..i];
      if Contains(lowerContent, words[i]) {
        points := points + weight;
      }
    }
    assert words[..|words|] == words;
  }

  /** One `forEach` over a pattern list: `weight` for each pattern that tests true. */
  method ScorePatterns(lowerContent: string, patterns: seq<Pattern>, weight: nat) returns (points: nat)
    ensures points == weight * OccurringCount(lowerContent, patterns)
  {
    points := 0;
    for i := 0 to |patterns|
      invariant points == weight * OccurringCount(lowerContent, patterns[..i])
    {
      assert patterns[..i + 1][..i] == patterns[..i];
      if Occurs(lowerContent, patterns[i]) {
        points := points + weight;
      }
    }
    assert patterns[..|patterns|] == patterns;
  }

  /** The nested `forEach` over the return patterns and over each pattern's matches. */
  method ScoreReturns(content: string, patterns: seq<Pattern>) returns (points: nat)
    ensures points == PatternReturnPoints(content, patterns)
  {
    points := 0;
    for p := 0 to |patterns|
      invariant points == PatternReturnPoints(content, patterns[..p])
    {
      assert patterns[..p + 1][..p] == patterns[..p];
      var matches := ReturnMatches(content, patterns[p]);
      ghost var before := points;
      for j := 0 to |matches|
        invariant points == before + ReturnPoints(matches[..j])
      {
        ReturnPointsAppend(matches[..j], [matches[j]]);
        assert matches[..j + 1] == matches[..j] + [matches[j]];
        var number := matches[j].number;
        if number > 50 {
          points := points + 20;
        } else if number > 20 {
          points := points + 15;
        } else if number > 10 {
          points := points + 10;
        }
      }
      assert matches[..|matches|] == matches;
    }
    assert patterns[..|patterns|] == patterns;
  }

  /** `calculateTextRiskScore`: the rule lists in the service's order, then the cap. */
  method CalculateTextRiskScore(content: string) returns (score: nat)
    ensures score == TextRiskScore(content)
  {
    var lowerContent := Lower(content);
    var keywords := ScoreWords(lowerContent, SuspiciousKeywords, KeywordWeight);
    var manipulation := ScorePatterns(lowerContent, ManipulationPatterns, ManipulationWeight);
    var urgency := ScoreWords(lowerContent, UrgencyWords, UrgencyWeight);
    var returnBonus := ScoreReturns(content, UnrealisticPatterns);
    var contact := ScorePatterns(lowerContent, ContactPatterns, ContactWeight);
    score := Min(keywords + manipulation + urgency + returnBonus + contact, 100);
  }


  // ---------------------------------------------------------------------
  // Suspicious-element extraction

  /** `/whatsapp|telegram/gi` matches when either literal occurs. */
  const WhatsApp: Pattern := [Lit("whatsapp")]
  const Telegram: Pattern := [Lit("telegram")]

  const ContactInfoElement := SuspiciousElement(ContactInfo, "Phone number detected", SeverityMedium)
  const SocialContactElement := SuspiciousElement(SocialMediaContact, "Social media contact detected", SeverityHigh)

  /** One HIGH element per keyword the text includes, in list order. */
  function KeywordElements(lc: string, words: seq<string>): seq<SuspiciousElement>
  {
    if words == [] then []
    else
      var w := words[|words| - 1];
      KeywordElements(lc, words[..|words| - 1])
      + (if Contains(lc, w) then [SuspiciousElement(SuspiciousKeyword, w, SeverityHigh)] else [])
  }

  /** The element for one percentage-return match, if it is above 20. */
  function ReturnElement(m: ReturnMatch): seq<SuspiciousElement>
  {
    if m.number > 20 then
      [SuspiciousElement(UnrealisticReturn, m.text, if m.number > 50 then SeverityCritical else SeverityHigh)]
    else []
  }

  function ReturnElements(ms: seq<ReturnMatch>): seq<SuspiciousElement>
  {
    if ms == [] then [] else ReturnElements(ms[..|ms| - 1]) + ReturnElement(ms[|ms| - 1])
  }

  /** The four groups the extractor emits, in order. */
  function KeywordGroup(content: string): seq<SuspiciousElement>
  {
    KeywordElements(Lower(content), SuspiciousKeywords)
  }

  function ReturnGroup(content: string): seq<SuspiciousElement>
  {
    ReturnElements(ReturnMatches(content, PercentReturn))
  }

  function ContactGroup(content: string): seq<SuspiciousElement>
  {
    if Occurs(Lower(content), TenDigits) then [ContactInfoElement] else []
  }

  function SocialGroup(content: string): seq<SuspiciousElement>
  {
    var lc := Lower(content);
    if Occurs(lc, WhatsApp) || Occurs(lc, Telegram) then [SocialContactElement] else []
  }

  /** `identifySuspiciousElements` as a value. */
  function SuspiciousElements(content: string): seq<SuspiciousElement>
  {
    KeywordGroup(content) + ReturnGroup(content) + ContactGroup(content) + SocialGroup(content)
  }

  /** The keyword loop: one HIGH element per word of `words` that `lc` includes. */
  method CollectKeywordElements(lc: string, words: seq<string>) returns (elements: seq<SuspiciousElement>)
    ensures elements == KeywordElements(lc, words)
  {
    elements := [];
    for i := 0 to |words|
      invariant elements == KeywordElements(lc, words[..i])
    {
      assert words[..i + 1][..i] == words[..i];
      var keyword := words[i];
      if Contains(lc, keyword) {
        elements := elements + [SuspiciousElement(SuspiciousKeyword, keyword, SeverityHigh)];
      }
    }
    assert words[..|words|] == words;
  }

  /** The return loop: one element per match above 20, appended to `elements`. */
  method CollectReturnElements(elements: seq<SuspiciousElement>, returnMatches: seq<ReturnMatch>)
    returns (result: seq<SuspiciousElement>)
    ensures result == elements + ReturnElements(returnMatches)
  {
    result := elements;
    for j := 0 to |returnMatches|
      invariant result == elements + ReturnElements(returnMatches[..j])
    {
      assert returnMatches[..j + 1][..j] == returnMatches[..j];
      ConcatAssoc(elements, ReturnElements(returnMatches[..j]), ReturnElement(returnMatches[j]));
      var percentage := returnMatches[j].number;
      if percentage > 20 {
        result := result + [SuspiciousElement(UnrealisticReturn, returnMatches[j].text,
                                              if percentage > 50 then SeverityCritical else SeverityHigh)];
      }
    }
    assert returnMatches[..|returnMatches|] == returnMatches;
  }

  /** `identifySuspiciousElements`: keywords, return matches, then the two contact checks. */
  method IdentifySuspiciousElements(content: string) returns (elements: seq<SuspiciousElement>)
    ensures elements == SuspiciousElements(content)
  {
    var lowerContent := Lower(content);
    elements := CollectKeywordElements(lowerContent, SuspiciousKeywords);
    var returnMatches := ReturnMatches(content, PercentReturn);
    elements := CollectReturnElements(elements, returnMatches);
    if Occurs(lowerContent, TenDigits) {
      elements := elements + [ContactInfoElement];
    }
    if Occurs(lowerContent, WhatsApp) || Occurs(lowerContent, Telegram) {
      elements := elements + [SocialContactElement];
    }
  }

  /**
   * The keyword elements are exactly the keywords the scorer rewards: one
   * HIGH element per included keyword, each naming a keyword of the list
   * that the lower-cased text includes.
   */
  lemma {:induction false} KeywordElementsExplainScore(lc: string, words: seq<string>)
    ensures |KeywordElements(lc, words)| == ContainedCount(lc, words)
    ensures AllOfKind(KeywordElements(lc, words), SuspiciousKeyword)
    ensures forall i :: 0 <= i < |KeywordElements(lc, words)| ==>
      var e := KeywordElements(lc, words)[i];
      e.severity == SeverityHigh && e.value in words && Contains(lc, e.value)
    decreases |words|
  {
    if words != [] {
      KeywordElementsExplainScore(lc, words[..|words| - 1]);
    }
  }

  /** `e` reports the match `m`: its text, and CRITICAL exactly above 50. */
  predicate Reports(e: SuspiciousElement, m: ReturnMatch)
  {
    e.kind == UnrealisticReturn && e.value == m.text && m.number > 20
    && (e.severity == SeverityCritical <==> m.number > 50)
  }

  /**
   * Each percentage-return element reports one match above 20, in the
   * order of the matches; the matches of 20 or less yield no element even
   * though the scorer rewards those above 10.
   */
  lemma {:induction false} ReturnElementsSound(ms: seq<ReturnMatch>)
    ensures |ReturnElements(ms)| <= |ms|
    ensures AllOfKind(ReturnElements(ms), UnrealisticReturn)
    ensures forall i :: 0 <= i < |ReturnElements(ms)| ==>
      exists k :: 0 <= k < |ms| && Reports(ReturnElements(ms)[i], ms[k])
    decreases |ms|
  {
    if ms != [] {
      var init := ms[..|ms| - 1];
      ReturnElementsSound(init);
      var es := ReturnElements(ms);
      forall i | 0 <= i < |es|
        ensures exists k :: 0 <= k < |ms| && Reports(es[i], ms[k])
      {
        if i < |ReturnElements(init)| {
          var k :| 0 <= k < |init| && Reports(ReturnElements(init)[i], init[k]);
          assert Reports(es[i], ms[k]);
        } else {
          assert Reports(es[i], ms[|ms| - 1]);
        }
      }
    }
  }

  /** Some element of `es` reports `m`. */
  predicate Reported(es: seq<SuspiciousElement>, m: ReturnMatch)
  {
    exists i :: 0 <= i < |es| && Reports(es[i], m)
  }

  /** Every match above 20 is reported. */
  lemma {:induction false} ReturnElementsComplete(ms: seq<ReturnMatch>)
    ensures forall k :: 0 <= k < |ms| && ms[k].number > 20 ==> Reported(ReturnElements(ms), ms[k])
    decreases |ms|
  {
    if ms != [] {
      var init := ms[..|ms| - 1];
      ReturnElementsComplete(init);
      var es := ReturnElements(ms);
      assert es == ReturnElements(init) + ReturnElement(ms[|ms| - 1]);
      forall k | 0 <= k < |ms| && ms[k].number > 20
        ensures Reported(es, ms[k])
      {
        if k < |init| {
          assert init[k] == ms[k];
          var i :| 0 <= i < |ReturnElements(init)| && Reports(ReturnElements(init)[i], init[k]);
          assert es[i] == ReturnElements(init)[i];
        } else {
          assert Reports(es[|es| - 1], ms[k]);
        }
      }
    }
  }

  /** Four groups of one kind each, concatenated in rank order, are ordered by rank. */
  lemma GroupsInRankOrder(a: seq<SuspiciousElement>, b: seq<SuspiciousElement>,
                          c: seq<SuspiciousElement>, d: seq<SuspiciousElement>)
    requires AllOfKind(a, SuspiciousKeyword) && AllOfKind(b, UnrealisticReturn)
    requires AllOfKind(c, ContactInfo) && AllOfKind(d, SocialMediaContact)
    ensures var es := a + b + c + d;
      forall i, j :: 0 <= i < j < |es| ==> KindRank(es[i].kind) <= KindRank(es[j].kind)
  {
  }

  /** Element kinds appear in the extractor's rule order. */
  lemma ElementsInRuleOrder(content: string)
    ensures var es := SuspiciousElements(content);
      forall i, j :: 0 <= i < j < |es| ==> KindRank(es[i].kind) <= KindRank(es[j].kind)
  {
    KeywordElementsExplainScore(Lower(content), SuspiciousKeywords);
    ReturnElementsSound(ReturnMatches(content, PercentReturn));
    GroupsInRankOrder(KeywordGroup(content), ReturnGroup(content), ContactGroup(content), SocialGroup(content));
  }

  /**
   * How many elements of each kind the extractor emits: one per included
   * keyword, one per percentage-return match above 20, and at most one of
   * each contact kind, present exactly when the ten-digit contact rule, or
   * the WhatsApp or Telegram contact rule, scores.
   */
  lemma ElementCounts(content: string)
    ensures var es := SuspiciousElements(content);
      var lc := Lower(content);
      && CountKind(es, SuspiciousKeyword) == ContainedCount(lc, SuspiciousKeywords)
      && CountKind(es, UnrealisticReturn) == |ReturnElements(ReturnMatches(content, PercentReturn))|
      && CountKind(es, ContactInfo) == (if Occurs(lc, ContactPatterns[3]) then 1 else 0)
      && CountKind(es, SocialMediaContact)
         == (if Occurs(lc, ContactPatterns[0]) || Occurs(lc, ContactPatterns[1]) then 1 else 0)
  {
    var lc := Lower(content);
    KeywordElementsExplainScore(lc, SuspiciousKeywords);
    ReturnElementsSound(ReturnMatches(content, PercentReturn));
    assert ContactPatterns[3] == TenDigits && ContactPatterns[0] == WhatsApp && ContactPatterns[1] == Telegram;
    GroupCounts(KeywordGroup(content), ReturnGroup(content), ContactGroup(content), SocialGroup(content));
  }

  /** Four groups of one kind each: every kind is counted in its own group only. */
  lemma GroupCounts(ke: seq<SuspiciousElement>, re: seq<SuspiciousElement>,
                    ce: seq<SuspiciousElement>, se: seq<SuspiciousElement>)
    requires AllOfKind(ke, SuspiciousKeyword) && AllOfKind(re, UnrealisticReturn)
    requires AllOfKind(ce, ContactInfo) && AllOfKind(se, SocialMediaContact)
    ensures CountKind(ke + re + ce + se, SuspiciousKeyword) == |ke|
    ensures CountKind(ke + re + ce + se, UnrealisticReturn) == |re|
    ensures CountKind(ke + re + ce + se, ContactInfo) == |ce|
    ensures CountKind(ke + re + ce + se, SocialMediaContact) == |se|
  {
    forall k: ElementKind
      ensures CountKind(ke + re + ce + se, k) == CountKind(ke, k) + CountKind(re, k) + CountKind(ce, k) + CountKind(se, k)
    {
      CountKindAppend(ke, re, k);
      CountKindAppend(ke + re, ce, k);
      CountKindAppend(ke + re + ce, se, k);
    }
    forall k: ElementKind
      ensures CountKind(ke, k) == (if k == SuspiciousKeyword then |ke| else 0)
      ensures CountKind(re, k) == (if k == UnrealisticReturn then |re| else 0)
      ensures CountKind(ce, k) == (if k == ContactInfo then |ce| else 0)
      ensures CountKind(se, k) == (if k == SocialMediaContact then |se| else 0)
    {
      CountKindUniform(ke, SuspiciousKeyword, k);
      CountKindUniform(re, UnrealisticReturn, k);
      CountKindUniform(ce, ContactInfo, k);
      CountKindUniform(se, SocialMediaContact, k);
    }
  }
}
