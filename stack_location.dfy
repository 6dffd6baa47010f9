/**
 * The location parse both error handlers apply to the chosen stack line:
 * `line.match(/at .*?\(?(.+):(\d+):(\d+)\)?/)` followed by `parseInt` on the
 * two digit groups.
 *
 * The regular expression is modelled as written. A backtracking engine tries
 * the ways the pattern can match in a fixed priority order (leftmost start,
 * then the lazy `.*?` as short as possible, then the optional `\(` taken
 * before skipped, then the greedy groups as long as possible) and reports the
 * first one. `IsWay` says what a way to match is, `Precedes` is that priority
 * order, and `MatchLocation` computes the first way directly;
 * `MatchIsFirstWay` proves that it is the one the engine reports.
 *
 * Two consequences the source's authors may not have meant: the lazy `.*?`
 * matches the empty string, so in `at fn (/p.ts:10:5)` the path group is
 * `fn (/p.ts`; and the greedy `(.+)` makes line and column the LAST
 * `:<digits>:<digits>` pair on the line.
 */
module StackLocation {
  import opened Wrappers
  import opened Text

  /** What the regex `.` refuses to match. */
  predicate IsLineTerminator(c: char)
  {
    c == '\n' || c == '\r' || c == '\U{2028}' || c == '\U{2029}'
  }

  /** `s[lo..hi]` holds no line terminator. */
  predicate NoTerminatorIn(s: string, lo: int, hi: int)
  {
    0 <= lo <= hi <= |s| && forall j :: lo <= j < hi ==> !IsLineTerminator(s[j])
  }

  /** `s[lo..hi]` holds only decimal digits. */
  predicate DigitsIn(s: string, lo: int, hi: int)
  {
    0 <= lo <= hi <= |s| && forall j :: lo <= j < hi ==> IsDigit(s[j])
  }

  /**
   * One way for the pattern to match `s`: `start` is where the literal `at `
   * begins, `lazy` the number of characters `.*?` consumes, `paren` whether
   * `\(?` consumes a `(`, `pair` the index of the `:` that closes group 1, and
   * `lineDigits`, `colDigits` the lengths of groups 2 and 3.
   */
  datatype Way = Way(start: nat, lazy: nat, paren: bool, pair: nat, lineDigits: nat, colDigits: nat)

  /** Where group 1 (the file path) begins. */
  function PathStart(w: Way): nat
  {
    w.start + 3 + w.lazy + (if w.paren then 1 else 0)
  }

  predicate IsWay(s: string, w: Way)
  {
    var q := PathStart(w);
    && w.start + 3 + w.lazy <= |s|
    && s[w.start..w.start + 3] == "at "
    && NoTerminatorIn(s, w.start + 3, w.start + 3 + w.lazy)
    && (w.paren ==> w.start + 3 + w.lazy < |s| && s[w.start + 3 + w.lazy] == '(')
    && q < w.pair < |s|
    && NoTerminatorIn(s, q, w.pair)
    && s[w.pair] == ':'
    && w.lineDigits > 0 && w.pair + 1 + w.lineDigits < |s|
    && DigitsIn(s, w.pair + 1, w.pair + 1 + w.lineDigits)
    && s[w.pair + 1 + w.lineDigits] == ':'
    && w.colDigits > 0 && w.pair + 2 + w.lineDigits + w.colDigits <= |s|
    && DigitsIn(s, w.pair + 2 + w.lineDigits, w.pair + 2 + w.lineDigits + w.colDigits)
  }

  /** The backtracking priority: `a` is tried before `b`. */
  predicate Precedes(a: Way, b: Way)
  {
    || a.start < b.start
    || (a.start == b.start && a.lazy < b.lazy)
    || (a.start == b.start && a.lazy == b.lazy && a.paren && !b.paren)
    || (a.start == b.start && a.lazy == b.lazy && a.paren == b.paren && a.pair > b.pair)
    || (a.start == b.start && a.lazy == b.lazy && a.paren == b.paren && a.pair == b.pair
        && a.lineDigits > b.lineDigits)
    || (a.start == b.start && a.lazy == b.lazy && a.paren == b.paren && a.pair == b.pair
        && a.lineDigits == b.lineDigits && a.colDigits > b.colDigits)
  }

  /** The three captures after `parseInt`. */
  datatype Location = Location(filePath: string, lineNum: nat, colNum: nat)

  function Groups(s: string, w: Way): Location
    requires IsWay(s, w)
  {
    var e := w.pair;
    assert AllDigits(s[e + 1..e + 1 + w.lineDigits]);
    assert AllDigits(s[e + 2 + w.lineDigits..e + 2 + w.lineDigits + w.colDigits]);
    Location(
      s[PathStart(w)..e],
      DigitsValue(s[e + 1..e + 1 + w.lineDigits]),
      DigitsValue(s[e + 2 + w.lineDigits..e + 2 + w.lineDigits + w.colDigits]))
  }

  // ---------------------------------------------------------------------------
  // computing the first way

  /** Length of the run of digits starting at `i`. */
  function DigitRun(s: string, i: nat): (n: nat)
    requires i <= |s|
    ensures DigitsIn(s, i, i + n)
    ensures i + n == |s| || !IsDigit(s[i + n])
    decreases |s| - i
  {
    if i < |s| && IsDigit(s[i]) then 1 + DigitRun(s, i + 1) else 0
  }

  /** `:(\d+):(\d+)` can match at `e`. */
  predicate PairAt(s: string, e: nat)
  {
    && e < |s| && s[e] == ':'
    && var n := DigitRun(s, e + 1);
    && n > 0 && e + 2 + n < |s| && s[e + 1 + n] == ':' && IsDigit(s[e + 2 + n])
  }

  /** Index of the first line terminator at or after `i`, or `|s|`. */
  function FirstTerminator(s: string, i: nat): (t: nat)
    requires i <= |s|
    ensures i <= t && NoTerminatorIn(s, i, t)
    ensures t < |s| ==> IsLineTerminator(s[t])
    decreases |s| - i
  {
    if i == |s| || IsLineTerminator(s[i]) then i else FirstTerminator(s, i + 1)
  }

  /** The largest `e` in `[lo, hi)` at which a digit pair matches. */
  function LastPairBelow(s: string, lo: nat, hi: nat): (r: Option<nat>)
    requires hi <= |s|
    ensures r.Some? ==> lo <= r.value < hi && PairAt(s, r.value)
    ensures r.Some? ==> forall e :: r.value < e < hi ==> !PairAt(s, e)
    ensures r.None? ==> forall e :: lo <= e < hi ==> !PairAt(s, e)
    decreases hi
  {
    if hi <= lo then None
    else if PairAt(s, hi - 1) then Some(hi - 1)
    else LastPairBelow(s, lo, hi - 1)
  }

  /** The way `WayAt` builds from a pair `e` is a way to match. */
  lemma {:induction false} CandidateIsWay(s: string, p: nat, t: nat, e: nat, paren: bool)
    requires p + 3 <= |s| && s[p..p + 3] == "at "
    requires p + 3 <= t && NoTerminatorIn(s, p + 3, t)
    requires p + 4 <= e < t && PairAt(s, e)
    requires paren ==> s[p + 3] == '(' && e >= p + 5
    ensures IsWay(s, Way(p, 0, paren, e, DigitRun(s, e + 1), DigitRun(s, e + 2 + DigitRun(s, e + 1))))
  {
    var n1 := DigitRun(s, e + 1);
    var n2 := DigitRun(s, e + 2 + n1);
    var w := Way(p, 0, paren, e, n1, n2);
    var q := PathStart(w);
    assert NoTerminatorIn(s, q, e);
    assert n2 > 0;
  }

  /** The first way that starts at `p`, if any does. */
  function WayAt(s: string, p: nat): (r: Option<Way>)
    requires p + 3 <= |s|
    ensures r.Some? ==> IsWay(s, r.value) && r.value.start == p && r.value.lazy == 0
    ensures r.Some? ==> r.value.paren == (s[p + 3] == '(' && r.value.pair >= p + 5)
    ensures r.Some? ==> forall e :: r.value.pair < e < FirstTerminator(s, p + 3) ==> !PairAt(s, e)
  {
    if s[p..p + 3] != "at " then None
    else
      var t := FirstTerminator(s, p + 3);
      match LastPairBelow(s, p + 4, t)
      case None => None
      case Some(e) =>
        var paren := s[p + 3] == '(' && e >= p + 5;
        var n1 := DigitRun(s, e + 1);
        var n2 := DigitRun(s, e + 2 + n1);
        var w := Way(p, 0, paren, e, n1, n2);
        CandidateIsWay(s, p, t, e, paren);
        Some(w)
  }

  /** The first way starting at `p` or later. */
  function SearchFrom(s: string, p: nat): (r: Option<Way>)
    ensures r.Some? ==> IsWay(s, r.value) && r.value.start >= p
    decreases |s| - p
  {
    if p + 3 > |s| then None
    else
      match WayAt(s, p)
      case Some(w) => Some(w)
      case None => SearchFrom(s, p + 1)
  }

  /** `line.match(regex)` followed by the two `parseInt` calls; `None` when the regex does not match. */
  function MatchLocation(s: string): (r: Option<Location>)
    ensures r.Some? ==> exists w :: IsWay(s, w) && r.value == Groups(s, w)
  {
    match SearchFrom(s, 0)
    case None => None
    case Some(w) => Some(Groups(s, w))
  }

  // ---------------------------------------------------------------------------
  // the computed way is the engine's first

  lemma {:induction false} DigitRunExact(s: string, i: nat, n: nat)
    requires DigitsIn(s, i, i + n) && (i + n == |s| || !IsDigit(s[i + n]))
    ensures DigitRun(s, i) == n
    decreases n
  {
    if n > 0 {
      DigitRunExact(s, i + 1, n - 1);
    }
  }

  lemma {:induction false} DigitRunAtLeast(s: string, i: nat, n: nat)
    requires DigitsIn(s, i, i + n)
    ensures DigitRun(s, i) >= n
    decreases n
  {
    if n > 0 {
      DigitRunAtLeast(s, i + 1, n - 1);
    }
  }

  /** Any way defines a digit pair at its `pair` index. */
  lemma {:induction false} WayHasPair(s: string, w: Way)
    requires IsWay(s, w)
    ensures PairAt(s, w.pair) && DigitRun(s, w.pair + 1) == w.lineDigits
  {
    DigitRunExact(s, w.pair + 1, w.lineDigits);
    assert IsDigit(s[w.pair + 2 + w.lineDigits]);
  }

  /** No line terminator from just after `at ` up to the pair of any way. */
  lemma {:induction false} WaySpanHasNoTerminator(s: string, w: Way, j: nat)
    requires IsWay(s, w) && w.start + 3 <= j <= w.pair
    ensures !IsLineTerminator(s[j])
  {
    var a := w.start + 3;
    var q := PathStart(w);
    if a + w.lazy <= j < q {
      assert s[j] == '(';
    }
  }

  /** A way that starts at `p` stays within the line, so `WayAt` finds a pair at or after its pair. */
  lemma {:induction false} WayAtReaches(s: string, p: nat, w: Way) returns (e: nat)
    requires p + 3 <= |s| && IsWay(s, w) && w.start == p
    ensures LastPairBelow(s, p + 4, FirstTerminator(s, p + 3)) == Some(e) && e >= w.pair
  {
    var t := FirstTerminator(s, p + 3);
    if t <= w.pair {
      WaySpanHasNoTerminator(s, w, t);
      assert false;
    }
    WayHasPair(s, w);
    e := LastPairBelow(s, p + 4, t).value;
  }

  /** Among the ways that start at `p`, the one `WayAt` computes comes first. */
  lemma {:induction false} WayAtFirst(s: string, p: nat, w: Way)
    requires p + 3 <= |s| && IsWay(s, w) && w.start == p
    ensures WayAt(s, p).Some?
    ensures w == WayAt(s, p).value || Precedes(WayAt(s, p).value, w)
  {
    var e := WayAtReaches(s, p, w);
    var v := WayAt(s, p).value;
    assert v.pair == e && v.lazy == 0 && v.start == p;
    if w.lazy == 0 {
      if v.paren == w.paren && e == w.pair {
        assert v.lineDigits == w.lineDigits;
        DigitRunAtLeast(s, e + 2 + w.lineDigits, w.colDigits);
      }
    }
  }

  /** The way `SearchFrom` computes precedes every other way starting at `p` or later. */
  lemma {:induction false} SearchFromFirst(s: string, p: nat)
    ensures SearchFrom(s, p).Some? ==>
      forall w :: IsWay(s, w) && w.start >= p ==> w == SearchFrom(s, p).value || Precedes(SearchFrom(s, p).value, w)
    ensures SearchFrom(s, p).None? ==> forall w :: IsWay(s, w) ==> w.start < p
    decreases |s| - p
  {
    if p + 3 <= |s| {
      match WayAt(s, p)
      case Some(v) =>
        forall w | IsWay(s, w) && w.start >= p
          ensures w == v || Precedes(v, w)
        {
          if w.start == p {
            WayAtFirst(s, p, w);
          }
        }
      case None =>
        SearchFromFirst(s, p + 1);
        forall w | IsWay(s, w) && w.start == p
          ensures false
        {
          WayAtFirst(s, p, w);
        }
    }
  }

  /**
   * `MatchLocation` gives exactly what the regex engine reports: no location
   * when no way to match exists, and otherwise the captures of the way that
   * precedes every other way to match.
   */
  lemma {:induction false} MatchIsFirstWay(s: string)
    ensures MatchLocation(s).None? <==> forall w :: !IsWay(s, w)
    ensures MatchLocation(s).Some? ==>
      exists w :: IsWay(s, w) && MatchLocation(s).value == Groups(s, w)
        && forall w' :: IsWay(s, w') ==> w' == w || Precedes(w, w')
  {
    SearchFromFirst(s, 0);
  }

  // ---------------------------------------------------------------------------
  // what the first way means

  /**
   * The pair the match reports is the last one reachable on the line: no
   * digit pair starts after it before a line terminator, and group 1 starts
   * right after `at `, or one later when a `(` stands there.
   */
  lemma {:induction false} MatchTakesLastPair(s: string, w: Way)
    requires SearchFrom(s, 0) == Some(w)
    ensures w.lazy == 0
    ensures PathStart(w) == w.start + 3 + (if s[w.start + 3] == '(' && w.pair >= w.start + 5 then 1 else 0)
    ensures forall e :: w.pair < e < |s| && NoTerminatorIn(s, w.start + 3, e) ==> !PairAt(s, e)
  {
    var p := w.start;
    WayAtFirst(s, p, w);
    FirstPrecedesAll(s, w, WayAt(s, p).value);
    assert w == WayAt(s, p).value;
    WayAtTakesLastPair(s, p, w);
  }

  /** No digit pair follows the one `WayAt` picks before the line ends. */
  lemma {:induction false} WayAtTakesLastPair(s: string, p: nat, v: Way)
    requires p + 3 <= |s| && WayAt(s, p) == Some(v)
    ensures forall e :: v.pair < e < |s| && NoTerminatorIn(s, p + 3, e) ==> !PairAt(s, e)
  {
    var t := FirstTerminator(s, p + 3);
    forall e | v.pair < e < |s| && NoTerminatorIn(s, p + 3, e)
      ensures !PairAt(s, e)
    {
    }
  }

  /** The way the search returns comes before every other way. */
  lemma {:induction false} FirstPrecedesAll(s: string, w: Way, v: Way)
    requires SearchFrom(s, 0) == Some(w) && IsWay(s, v)
    ensures w == v || Precedes(w, v)
  {
    SearchFromFirst(s, 0);
  }

  lemma {:induction false} FirstTerminatorExact(s: string, i: nat, t: nat)
    requires NoTerminatorIn(s, i, t) && (t == |s| || IsLineTerminator(s[t]))
    ensures FirstTerminator(s, i) == t
    decreases t - i
  {
    if i < t {
      FirstTerminatorExact(s, i + 1, t);
    }
  }

  lemma {:induction false} LastPairBelowExact(s: string, lo: nat, hi: nat, e: nat)
    requires lo <= e < hi <= |s| && PairAt(s, e)
    requires forall k :: e < k < hi ==> !PairAt(s, k)
    ensures LastPairBelow(s, lo, hi) == Some(e)
    decreases hi
  {
    if e < hi - 1 {
      LastPairBelowExact(s, lo, hi - 1, e);
    }
  }

  /** `at /p.ts:10:5` gives path `/p.ts`, line 10, column 5. */
  lemma {:induction false} PlainFrameExample()
    ensures MatchLocation("at /p.ts:10:5") == Some(Location("/p.ts", 10, 5))
  {
    var s := "at /p.ts:10:5";
    var w := Way(0, 0, false, 8, 2, 1);
    PlainFramePair();
    assert WayAt(s, 0) == Some(w);
    PlainFrameGroups();
  }

  lemma {:induction false} PlainFramePair()
    ensures var s := "at /p.ts:10:5";
      DigitRun(s, 9) == 2 && DigitRun(s, 12) == 1 && FirstTerminator(s, 3) == 13 && LastPairBelow(s, 4, 13) == Some(8)
  {
    var s := "at /p.ts:10:5";
    DigitRunExact(s, 9, 2);
    DigitRunExact(s, 12, 1);
    assert PairAt(s, 8);
    assert !PairAt(s, 11) && !PairAt(s, 12) && !PairAt(s, 10) && !PairAt(s, 9);
    FirstTerminatorExact(s, 3, 13);
    LastPairBelowExact(s, 4, 13, 8);
  }

  lemma {:induction false} PlainFrameGroups()
    ensures IsWay("at /p.ts:10:5", Way(0, 0, false, 8, 2, 1))
    ensures Groups("at /p.ts:10:5", Way(0, 0, false, 8, 2, 1)) == Location("/p.ts", 10, 5)
  {
    var s := "at /p.ts:10:5";
    assert s[3..8] == "/p.ts";
    assert s[9..11] == "10";
    assert s[12..13] == "5";
    assert DigitsValue("10") == 10 by { assert "10"[..1] == "1"; }
  }

  /** `at fn (/p.ts:10:5)`: the lazy `.*?` matches nothing, so the path group is `fn (/p.ts`. */
  lemma {:induction false} NamedFrameExample()
    ensures MatchLocation("at fn (/p.ts:10:5)") == Some(Location("fn (/p.ts", 10, 5))
  {
    var s := "at fn (/p.ts:10:5)";
    var w := Way(0, 0, false, 12, 2, 1);
    NamedFramePair();
    assert WayAt(s, 0) == Some(w);
    NamedFrameGroups();
  }

  lemma {:induction false} NamedFramePair()
    ensures var s := "at fn (/p.ts:10:5)";
      DigitRun(s, 13) == 2 && DigitRun(s, 16) == 1 && FirstTerminator(s, 3) == 18 && LastPairBelow(s, 4, 18) == Some(12)
  {
    var s := "at fn (/p.ts:10:5)";
    DigitRunExact(s, 13, 2);
    DigitRunExact(s, 16, 1);
    assert PairAt(s, 12);
    assert !PairAt(s, 17) && !PairAt(s, 16) && !PairAt(s, 15) && !PairAt(s, 14) && !PairAt(s, 13);
    FirstTerminatorExact(s, 3, 18);
    LastPairBelowExact(s, 4, 18, 12);
  }

  lemma {:induction false} NamedFrameGroups()
    ensures IsWay("at fn (/p.ts:10:5)", Way(0, 0, false, 12, 2, 1))
    ensures Groups("at fn (/p.ts:10:5)", Way(0, 0, false, 12, 2, 1)) == Location("fn (/p.ts", 10, 5)
  {
    var s := "at fn (/p.ts:10:5)";
    assert s[3..12] == "fn (/p.ts";
    assert s[13..15] == "10";
    assert s[16..17] == "5";
    assert DigitsValue("10") == 10 by { assert "10"[..1] == "1"; }
  }
}
