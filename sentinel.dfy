/** The sentinel `"<depth>-<random>"` and the unanchored regular expressions that find it:
    `/((\d+)-\d+)/` on the boot-data sentinel (3p/ampcontext.js) and
    `/amp3pSentinel=((\d+)-\d+)/` on the location hash (ads/google/a4a/ampcontext.js).
    `String.prototype.match` without the global flag returns the leftmost match; group 1 is the
    whole `digits-digits` text and group 2 its first digit run, whose `Number()` is the depth. */
module SentinelFormat {
  import opened Js
  import opened Text

  /** The hash parameter the legacy variant reads its sentinel from. */
  const HASH_PARAM := "amp3pSentinel="

  /** What a successful match yields: group 1 and `Number(group 2)`. */
  datatype SentinelMatch = SentinelMatch(sentinel: string, depth: nat)

  /** Regular-expression semantics of `<prefix>(\d+)-\d+` at position i: the prefix, then SOME
      non-empty digit run ending at j, a dash at j, and at least one digit after it. */
  ghost predicate PatternAt(s: string, prefix: string, i: nat) {
    HasAt(s, i, prefix) &&
    exists j :: i + |prefix| < j < |s| - 1 && AllDigits(s, i + |prefix|, j) && s[j] == '-' && IsDigit(s[j + 1])
  }

  /** The same test computed: a greedy `\d+` can only hand the dash the end of the longest run. */
  predicate MatchesAt(s: string, prefix: string, i: nat) {
    HasAt(s, i, prefix) &&
    var a := i + |prefix|;
    var j := DigitRunEnd(s, a);
    a < j && j + 1 < |s| && s[j] == '-' && IsDigit(s[j + 1])
  }

  /** The computed test is the regular expression's: a dash cannot sit inside a digit run, so the
      split the backtracking search finds is the one at the end of the longest run. */
  lemma MatchesAtIsPattern(s: string, prefix: string, i: nat)
    ensures MatchesAt(s, prefix, i) <==> PatternAt(s, prefix, i)
  {
    if PatternAt(s, prefix, i) {
      var a := i + |prefix|;
      var j :| a < j < |s| - 1 && AllDigits(s, a, j) && s[j] == '-' && IsDigit(s[j + 1]);
      assert DigitRunEnd(s, a) == j;
    }
    if MatchesAt(s, prefix, i) {
      var a := i + |prefix|;
      var j := DigitRunEnd(s, a);
      assert a < j < |s| - 1 && AllDigits(s, a, j) && s[j] == '-' && IsDigit(s[j + 1]);
    }
  }

  /** The sentinel format `"<digits>-<digits>"`. */
  predicate IsSentinelFormat(t: string) {
    exists j :: 0 < j < |t| - 1 && t[j] == '-' && AllDigits(t, 0, j) && AllDigits(t, j + 1, |t|)
  }

  /** The captures of the match at i: group 1, which follows the prefix and has the sentinel
      format, and the depth, `Number()` of group 2 (the digit run that starts group 1). */
  function Captures(s: string, prefix: string, i: nat): (r: SentinelMatch)
    requires MatchesAt(s, prefix, i)
    ensures HasAt(s, i + |prefix|, r.sentinel)
    ensures IsSentinelFormat(r.sentinel)
    ensures var d := DigitRunEnd(r.sentinel, 0);
      && 0 < d < |r.sentinel| && r.sentinel[d] == '-'
      && r.sentinel[..d] == s[i + |prefix|..DigitRunEnd(s, i + |prefix|)]
      && r.depth == DecimalValue(r.sentinel[..d])
  {
    var a := i + |prefix|;
    var j := DigitRunEnd(s, a);
    var e := DigitRunEnd(s, j + 1);
    assert forall k :: 0 <= k < |s[a..j]| ==> IsDigit(s[a..j][k]) by {
      forall k | 0 <= k < |s[a..j]| ensures IsDigit(s[a..j][k]) {
        assert s[a..j][k] == s[a + k];
      }
    }
    var t := s[a..e];
    assert t[j - a] == '-' && AllDigits(t, 0, j - a) && AllDigits(t, j - a + 1, |t|) by {
      forall k | 0 <= k < |t| ensures t[k] == s[a + k] { }
    }
    SentinelMatch(t, DecimalValue(s[a..j]))
  }

  /** The leftmost position at or after i where the pattern matches. */
  function FirstMatchFrom(s: string, prefix: string, i: nat): (r: Option<nat>)
    requires i <= |s|
    ensures r.Some? ==> i <= r.value < |s| && MatchesAt(s, prefix, r.value)
    ensures r.Some? ==> forall k :: i <= k < r.value ==> !MatchesAt(s, prefix, k)
    ensures r.None? ==> forall k: nat :: i <= k ==> !MatchesAt(s, prefix, k)
    decreases |s| - i
  {
    if MatchesAt(s, prefix, i) then Some(i)
    else if i == |s| then None
    else FirstMatchFrom(s, prefix, i + 1)
  }

  /** `s.match(/<prefix>((\d+)-\d+)/)`: None when nothing matches anywhere; otherwise the captures
      of the leftmost match, whose depth is the value of the digit run right after the prefix. */
  function MatchSentinel(s: string, prefix: string): (r: Option<SentinelMatch>)
    ensures r.None? <==> forall k: nat :: !MatchesAt(s, prefix, k)
    ensures r.Some? ==> exists i: nat :: MatchesAt(s, prefix, i)
                          && (forall k :: 0 <= k < i ==> !MatchesAt(s, prefix, k))
                          && r.value == Captures(s, prefix, i)
  {
    match FirstMatchFrom(s, prefix, 0)
    case None => None
    case Some(i) => Some(Captures(s, prefix, i))
  }

  /** The digit runs of the unit tests' sentinel: `1`, then `291921` to the end. */
  lemma TestSentinelRuns()
    ensures DigitRunEnd("1-291921", 0) == 1 && DigitRunEnd("1-291921", 2) == 8
  {
    var s := "1-291921";
    assert DigitRunEnd(s, 1) == 1;
    assert DigitRunEnd(s, 8) == 8;
    assert DigitRunEnd(s, 7) == 8;
    assert DigitRunEnd(s, 6) == 8;
    assert DigitRunEnd(s, 5) == 8;
    assert DigitRunEnd(s, 4) == 8;
    assert DigitRunEnd(s, 3) == 8;
  }

  /** The boot-data sentinel of the unit tests resolves to depth 1 and keeps its whole text. */
  lemma TestSentinelHasDepthOne()
    ensures MatchSentinel("1-291921", "") == Some(SentinelMatch("1-291921", 1))
  {
    var s := "1-291921";
    TestSentinelRuns();
    assert MatchesAt(s, "", 0);
    assert FirstMatchFrom(s, "", 0) == Some(0);
    assert s[0..8] == s;
    assert s[0..1] == "1";
    assert DecimalValue("1") == 1 by { assert "1"[..0] == ""; }
  }

  /** The expression is not anchored: text around the sentinel is skipped, and the depth is the
      leading digit run of the leftmost `digits-digits`. */
  lemma UnanchoredMatchSkipsText()
    ensures MatchSentinel("x12-3y", "") == Some(SentinelMatch("12-3", 12))
  {
    var s := "x12-3y";
    assert !MatchesAt(s, "", 0) by { assert DigitRunEnd(s, 0) == 0; }
    assert DigitRunEnd(s, 1) == 3 by {
      assert DigitRunEnd(s, 3) == 3;
      assert DigitRunEnd(s, 2) == 3;
    }
    assert DigitRunEnd(s, 4) == 5 by { assert DigitRunEnd(s, 5) == 5; }
    assert MatchesAt(s, "", 1);
    assert s[1..5] == "12-3";
    assert s[1..3] == "12";
    assert DecimalValue("12") == 12 by {
      assert "12"[..1] == "1";
      assert "1"[..0] == "";
    }
  }
}
