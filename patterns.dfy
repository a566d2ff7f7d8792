/**
 * The regular expressions of the risk rules, written out as matchers over
 * strings. Every rule pattern is a sequence of tokens: a literal, one digit,
 * a run of digits (`\d+`) or a run of white space (`\s+`). Case-insensitive
 * rules are matched against the ASCII lower-cased text, which for these
 * patterns is the same as the `i` flag (their literals are lower-case ASCII and
 * lower-casing moves no digit or space).
 */
module Patterns {
  import opened Text
  import opened Wrappers

  datatype Token = Lit(text: string) | Digit | Digits | Blank

  type Pattern = seq<Token>

  /** Some match of `p` starts at index `i` of `s` (backtracking semantics). */
  predicate MatchAt(s: string, i: nat, p: Pattern)
    requires i <= |s|
    decreases |s| - i, |p|
  {
    if p == [] then true
    else match p[0]
      case Lit(w) => StartsAt(s, i, w) && MatchAt(s, i + |w|, p[1..])
      case Digit => i < |s| && IsDigit(s[i]) && MatchAt(s, i + 1, p[1..])
      case Digits => i < |s| && IsDigit(s[i]) && (MatchAt(s, i + 1, p[1..]) || MatchAt(s, i + 1, p))
      case Blank => i < |s| && IsSpace(s[i]) && (MatchAt(s, i + 1, p[1..]) || MatchAt(s, i + 1, p))
  }

  /** `RegExp.prototype.test` on a fresh expression: a match starts somewhere. */
  predicate Occurs(s: string, p: Pattern)
  {
    exists i | 0 <= i <= |s| :: MatchAt(s, i, p)
  }

  lemma {:induction false} MatchAtAppend(s: string, x: string, i: nat, p: Pattern)
    requires i <= |s| && MatchAt(s, i, p)
    ensures MatchAt(s + x, i, p)
    decreases |s| - i, |p|
  {
    if p != [] {
      match p[0]
      case Lit(w) =>
        StartsAtAppend(s, x, i, w);
        MatchAtAppend(s, x, i + |w|, p[1..]);
      case Digit =>
        MatchAtAppend(s, x, i + 1, p[1..]);
      case Digits =>
        if MatchAt(s, i + 1, p[1..]) { MatchAtAppend(s, x, i + 1, p[1..]); }
        else { MatchAtAppend(s, x, i + 1, p); }
      case Blank =>
        if MatchAt(s, i + 1, p[1..]) { MatchAtAppend(s, x, i + 1, p[1..]); }
        else { MatchAtAppend(s, x, i + 1, p); }
    }
  }

  /** Text added at the end never makes a pattern stop matching. */
  lemma OccursAppend(s: string, x: string, p: Pattern)
    requires Occurs(s, p)
    ensures Occurs(s + x, p)
  {
    var i :| 0 <= i <= |s| && MatchAt(s, i, p);
    MatchAtAppend(s, x, i, p);
  }

  /** End of the run of characters satisfying the digit or the space class that starts at `i`. */
  function RunEnd(s: string, i: nat, digits: bool): (e: nat)
    requires i <= |s|
    ensures i <= e <= |s|
    ensures forall k :: i <= k < e ==> (if digits then IsDigit(s[k]) else IsSpace(s[k]))
    ensures e == |s| || !(if digits then IsDigit(s[e]) else IsSpace(s[e]))
    decreases |s| - i
  {
    if i < |s| && (if digits then IsDigit(s[i]) else IsSpace(s[i])) then RunEnd(s, i + 1, digits) else i
  }

  /**
   * Where a match of `p` that starts at `i` ends, with every run taken as long
   * as it goes. For the return patterns below this is exactly the regular
   * expression's match: every run is followed by a literal that cannot extend
   * it, so giving characters back never lets the match succeed.
   */
  function GreedyEnd(s: string, i: nat, p: Pattern): (r: Option<nat>)
    requires i <= |s|
    ensures r.Some? ==> i <= r.value <= |s|
    decreases |p|
  {
    if p == [] then Some(i)
    else match p[0]
      case Lit(w) => if StartsAt(s, i, w) then GreedyEnd(s, i + |w|, p[1..]) else None
      case Digit => if i < |s| && IsDigit(s[i]) then GreedyEnd(s, i + 1, p[1..]) else None
      case Digits =>
        var e := RunEnd(s, i, true);
        if e > i then GreedyEnd(s, e, p[1..]) else None
      case Blank =>
        var e := RunEnd(s, i, false);
        if e > i then GreedyEnd(s, e, p[1..]) else None
  }

  /** A match found by a global (`g`) scan: the half-open span `[start, end)`. */
  datatype Span = Span(start: nat, end: nat)

  /**
   * `String.prototype.match` with a global expression: try every start from
   * `i` on, left to right, and resume after each match.
   */
  function ScanFrom(s: string, i: nat, p: Pattern): (r: seq<Span>)
    requires i <= |s|
    ensures forall k :: 0 <= k < |r| ==> i <= r[k].start < r[k].end <= |s|
    ensures forall k :: 0 <= k < |r| ==> GreedyEnd(s, r[k].start, p) == Some(r[k].end)
    decreases |s| - i
  {
    if i == |s| then []
    else match GreedyEnd(s, i, p)
      case Some(e) =>
        if e > i then [Span(i, e)] + ScanFrom(s, e, p) else ScanFrom(s, i + 1, p)
      case None => ScanFrom(s, i + 1, p)
  }

  /** A token that cannot match the empty string. */
  predicate Consumes(t: Token)
  {
    !t.Lit? || |t.text| > 0
  }

  /**
   * Every run in `p` is followed by a token that needs a character, so in a
   * successful match no run stops at the end of the text.
   */
  predicate Closed(p: Pattern)
    decreases |p|
  {
    p == [] || (((p[0].Digits? || p[0].Blank?) ==> |p| > 1 && Consumes(p[1])) && Closed(p[1..]))
  }

  /** No token of `p` can match a digit. */
  predicate DigitFree(p: Pattern)
    decreases |p|
  {
    p == [] ||
    ((p[0].Blank? || (p[0].Lit? && forall c | c in p[0].text :: !IsDigit(c))) && DigitFree(p[1..]))
  }

  /** A pattern that opens with `\d+` and matches no digit after it. */
  predicate DigitLed(p: Pattern)
  {
    |p| > 0 && p[0] == Digits && DigitFree(p[1..])
  }

  /** A run ends where it ended in `s`, unless it reached the end of `s`. */
  lemma {:induction false} RunEndAppend(s: string, x: string, i: nat, digits: bool)
    requires i <= |s|
    ensures RunEnd(s, i, digits) == Min(RunEnd(s + x, i, digits), |s|)
    decreases |s| - i
  {
    if i < |s| {
      assert (s + x)[i] == s[i];
      RunEndAppend(s, x, i + 1, digits);
    }
  }

  /** Starting inside a run gives the same end as starting at its beginning. */
  lemma {:induction false} RunEndFrom(s: string, i: nat, j: nat, digits: bool)
    requires i <= |s| && i <= j <= RunEnd(s, i, digits)
    ensures RunEnd(s, j, digits) == RunEnd(s, i, digits)
    decreases j - i
  {
    if i < j {
      RunEndFrom(s, i + 1, j, digits);
    }
  }

  lemma GreedyEndConsumes(s: string, i: nat, p: Pattern)
    requires i <= |s| && p != [] && Consumes(p[0])
    ensures GreedyEnd(s, i, p).Some? ==> GreedyEnd(s, i, p).value > i
  {
  }

  /**
   * For a closed pattern, appending text keeps every greedy match that ends
   * inside `s` and creates none that ends inside `s`.
   */
  lemma {:induction false} GreedyEndAppend(s: string, x: string, i: nat, p: Pattern)
    requires i <= |s| && Closed(p)
    ensures GreedyEnd(s, i, p).Some? ==> GreedyEnd(s + x, i, p) == GreedyEnd(s, i, p)
    ensures GreedyEnd(s + x, i, p).Some? && GreedyEnd(s + x, i, p).value <= |s| ==>
      GreedyEnd(s, i, p) == GreedyEnd(s + x, i, p)
    decreases |p|, 1
  {
    if p != [] {
      match p[0]
      case Lit(_) => LitGreedyEndAppend(s, x, i, p);
      case Digit => DigitGreedyEndAppend(s, x, i, p);
      case Digits => RunGreedyEndAppend(s, x, i, p, true);
      case Blank => RunGreedyEndAppend(s, x, i, p, false);
    }
  }

  /** The case of `GreedyEndAppend` for a pattern that opens with a literal. */
  lemma {:induction false} LitGreedyEndAppend(s: string, x: string, i: nat, p: Pattern)
    requires i <= |s| && Closed(p) && p != [] && p[0].Lit?
    ensures GreedyEnd(s, i, p).Some? ==> GreedyEnd(s + x, i, p) == GreedyEnd(s, i, p)
    ensures GreedyEnd(s + x, i, p).Some? && GreedyEnd(s + x, i, p).value <= |s| ==>
      GreedyEnd(s, i, p) == GreedyEnd(s + x, i, p)
    decreases |p|, 0
  {
    var w := p[0].text;
    var q := p[1..];
    assert GreedyEnd(s, i, p) == if StartsAt(s, i, w) then GreedyEnd(s, i + |w|, q) else None;
    assert GreedyEnd(s + x, i, p) == if StartsAt(s + x, i, w) then GreedyEnd(s + x, i + |w|, q) else None;
    if i + |w| <= |s| {
      assert (s + x)[i..i + |w|] == s[i..i + |w|];
      GreedyEndAppend(s, x, i + |w|, q);
    }
  }

  /** The case of `GreedyEndAppend` for a pattern that opens with one digit. */
  lemma {:induction false} DigitGreedyEndAppend(s: string, x: string, i: nat, p: Pattern)
    requires i <= |s| && Closed(p) && p != [] && p[0].Digit?
    ensures GreedyEnd(s, i, p).Some? ==> GreedyEnd(s + x, i, p) == GreedyEnd(s, i, p)
    ensures GreedyEnd(s + x, i, p).Some? && GreedyEnd(s + x, i, p).value <= |s| ==>
      GreedyEnd(s, i, p) == GreedyEnd(s + x, i, p)
    decreases |p|, 0
  {
    var q := p[1..];
    assert GreedyEnd(s, i, p) == if i < |s| && IsDigit(s[i]) then GreedyEnd(s, i + 1, q) else None;
    if i < |s| {
      assert (s + x)[i] == s[i];
      GreedyEndAppend(s, x, i + 1, q);
    }
  }

  /** The case of `GreedyEndAppend` for a pattern that opens with a run. */
  lemma {:induction false} RunGreedyEndAppend(s: string, x: string, i: nat, p: Pattern, digits: bool)
    requires i <= |s| && Closed(p) && p != [] && p[0] == (if digits then Digits else Blank)
    ensures GreedyEnd(s, i, p).Some? ==> GreedyEnd(s + x, i, p) == GreedyEnd(s, i, p)
    ensures GreedyEnd(s + x, i, p).Some? && GreedyEnd(s + x, i, p).value <= |s| ==>
      GreedyEnd(s, i, p) == GreedyEnd(s + x, i, p)
    decreases |p|, 0
  {
    var q := p[1..];
    RunEndAppend(s, x, i, digits);
    var e := RunEnd(s, i, digits);
    var e' := RunEnd(s + x, i, digits);
    assert GreedyEnd(s, i, p) == if e > i then GreedyEnd(s, e, q) else None;
    assert GreedyEnd(s + x, i, p) == if e' > i then GreedyEnd(s + x, e', q) else None;
    if e < |s| {
      GreedyEndAppend(s, x, e, q);
    } else {
      GreedyEndConsumes(s, e, q);
      GreedyEndConsumes(s + x, e', q);
    }
  }

  /** A match of a digit-free pattern covers no digit. */
  lemma {:induction false} NoDigitsInMatch(s: string, i: nat, p: Pattern)
    requires i <= |s| && DigitFree(p)
    ensures GreedyEnd(s, i, p).Some? ==> forall k :: i <= k < GreedyEnd(s, i, p).value ==> !IsDigit(s[k])
    decreases |p|
  {
    if p != [] && p[0].Lit? {
      var w := p[0].text;
      if StartsAt(s, i, w) {
        NoDigitsInMatch(s, i + |w|, p[1..]);
        forall k | i <= k < i + |w| ensures !IsDigit(s[k]) {
          assert s[k] == w[k - i];
        }
      }
    } else if p != [] && p[0].Blank? {
      NoDigitsInMatch(s, RunEnd(s, i, false), p[1..]);
    }
  }

  /**
   * When the match of a digit-led pattern that starts at `i` runs past the
   * end of `s`, no match starts later inside `s`: such a start lies either
   * in the leading digit run, where it shares the match that runs past the
   * end, or on a character the rest of the pattern matched, which is no digit.
   */
  lemma Overhang(s: string, x: string, i: nat, p: Pattern)
    requires i < |s| && Closed(p) && DigitLed(p)
    requires GreedyEnd(s + x, i, p).Some? && GreedyEnd(s + x, i, p).value > |s|
    ensures forall j :: i < j < |s| ==> GreedyEnd(s, j, p).None?
  {
    var t := s + x;
    var r := RunEnd(t, i, true);
    NoDigitsInMatch(t, r, p[1..]);
    forall j | i < j < |s|
      ensures GreedyEnd(s, j, p).None?
    {
      assert t[j] == s[j];
      if j < r {
        RunEndFrom(t, i, j, true);
        GreedyEndAppend(s, x, j, p);
      }
    }
  }

  lemma {:induction false} ScanFromNone(s: string, i: nat, p: Pattern)
    requires i <= |s|
    requires forall j :: i <= j < |s| ==> GreedyEnd(s, j, p).None?
    ensures ScanFrom(s, i, p) == []
    decreases |s| - i
  {
    if i < |s| {
      ScanFromNone(s, i + 1, p);
    }
  }

  /**
   * Appending text to `s` keeps every match a global scan of a closed,
   * digit-led pattern finds in `s`, in order, and adds matches only after
   * them.
   */
  lemma {:induction false} ScanFromAppend(s: string, x: string, i: nat, p: Pattern)
    requires i <= |s| && Closed(p) && DigitLed(p)
    ensures ScanFrom(s, i, p) <= ScanFrom(s + x, i, p)
    decreases |s| - i
  {
    if i < |s| {
      GreedyEndAppend(s, x, i, p);
      GreedyEndConsumes(s, i, p);
      GreedyEndConsumes(s + x, i, p);
      if GreedyEnd(s, i, p).Some? {
        ScanFromAppend(s, x, GreedyEnd(s, i, p).value, p);
      } else if GreedyEnd(s + x, i, p).Some? {
        Overhang(s, x, i, p);
        ScanFromNone(s, i + 1, p);
      } else {
        ScanFromAppend(s, x, i + 1, p);
      }
    }
  }

  /** Decimal value of a digit string: `parseInt` on `\d+`. */
  function DigitsValue(d: string): nat
    requires forall k :: 0 <= k < |d| ==> IsDigit(d[k])
    decreases |d|
  {
    if d == [] then 0 else 10 * DigitsValue(d[..|d| - 1]) + DigitValue(d[|d| - 1])
  }

  /** The digit character of a value below ten. */
  function DigitChar(d: nat): (c: char)
    requires d < 10
    ensures IsDigit(c) && DigitValue(c) == d
  {
    ['0', '1', '2', '3', '4', '5', '6', '7', '8', '9'][d]
  }

  /**
   * A whole number written in decimal, as a JS template literal renders
   * it: digits only, no leading zero, and `parseInt` reads it back.
   */
  function Decimal(n: nat): (r: string)
    ensures |r| >= 1 && (r[0] == '0' ==> r == "0")
    ensures forall k :: 0 <= k < |r| ==> IsDigit(r[k])
    ensures DigitsValue(r) == n
    decreases n
  {
    if n < 10 then [DigitChar(n)]
    else
      var r := Decimal(n / 10) + [DigitChar(n % 10)];
      assert r[..|r| - 1] == Decimal(n / 10);
      r
  }
}
